/** The VPN Direct policy: what is accepted as an address or a domain, the table it is kept in, and the file it survives
    in. */
module DirectPolicy {
  import opened Namespace

  datatype Option<+T> = None | Some(value: T)
  datatype Kind = Ip | Domain
  datatype Entry = Entry(kind: Kind, value: string)

  const MAX_ENTRIES := 256

  // ---- cutting text -------------------------------------------------------------------------------------------

  /** strchr from `from` on: the first position of the character, or the length. */
  function IndexOf(s: string, c: char, from: nat): (i: nat)
    requires from <= |s|
    ensures from <= i <= |s| && (i < |s| ==> s[i] == c)
    ensures forall k :: from <= k < i ==> s[k] != c
    decreases |s| - from
  {
    if from == |s| || s[from] == c then from else IndexOf(s, c, from + 1)
  }

  /** The parts between the separators, from `from` on. */
  function Split(s: string, c: char, from: nat): (parts: seq<string>)
    requires from <= |s|
    ensures parts != []
    decreases |s| - from
  {
    var i := IndexOf(s, c, from);
    if i == |s| then [s[from..]] else [s[from..i]] + Split(s, c, i + 1)
  }

  function Glue(parts: seq<string>, c: char): string
    requires parts != []
  {
    if |parts| == 1 then parts[0] else parts[0] + [c] + Glue(parts[1..], c)
  }

  /** Splitting loses nothing. */
  lemma {:induction false} SplitGlues(s: string, c: char, from: nat)
    requires from <= |s|
    ensures Glue(Split(s, c, from), c) == s[from..]
    decreases |s| - from
  {
    var i := IndexOf(s, c, from);
    if i < |s| {
      SplitGlues(s, c, i + 1);
      GlueCons(s[from..i], Split(s, c, i + 1), c);
      CutOut(s, from, i);
    }
  }

  lemma CutOut(s: string, from: nat, i: nat)
    requires from <= i < |s|
    ensures s[from..] == s[from..i] + [s[i]] + s[i + 1..]
  {}

  lemma {:induction false} PartsAreFree(s: string, c: char, from: nat)
    requires from <= |s|
    ensures forall k :: 0 <= k < |Split(s, c, from)| ==> c !in Split(s, c, from)[k]
    decreases |s| - from
  {
    var i := IndexOf(s, c, from);
    if i < |s| { PartsAreFree(s, c, i + 1); }
  }

  // ---- addresses -----------------------------------------------------------------------------------------------

  /** One byte of a dotted quad: no leading zero, at most 255. */
  predicate IsOctet(s: string) {
    1 <= |s| <= 3 && AllDigits(s) && (s[0] == '0' ==> |s| == 1) && Decimal(s) <= 255
  }

  predicate IsQuad(s: string) {
    var parts := Split(s, '.', 0);
    |parts| == 4 && forall k :: 0 <= k < 4 ==> IsOctet(parts[k])
  }

  const BUFFER := 255

  /** The copy into a buffer of 256 bytes. */
  function Cut(s: string): string { if |s| <= BUFFER then s else s[..BUFFER] }

  /** Address and prefix length; without a slash the prefix is 32. */
  function NormalIp(input: string): Option<string> {
    if input == "" then None else
    var buf := Cut(input);
    var slash := IndexOf(buf, '/', 0);
    if slash == |buf| then
      if IsQuad(buf) then Some(buf + "/32") else None
    else
      var p := buf[slash + 1..];
      if p == "" || !AllDigits(p) || Decimal(p) > 32 || !IsQuad(buf[..slash]) then None
      else Some(buf[..slash] + "/" + PortText(Decimal(p)))
  }

  lemma GlueCons(head: string, rest: seq<string>, c: char)
    requires rest != []
    ensures Glue([head] + rest, c) == head + [c] + Glue(rest, c)
  {
    assert ([head] + rest)[1..] == rest;
  }

  lemma QuadShape(s: string)
    requires IsQuad(s)
    ensures 7 <= |s| <= 15 && '/' !in s && forall k :: 0 <= k < |s| ==> IsDigit(s[k]) || s[k] == '.'
  {
    var parts := Split(s, '.', 0);
    SplitGlues(s, '.', 0);
    assert s[0..] == s;
    var a, b, c, d := parts[0], parts[1], parts[2], parts[3];
    assert parts == [a] + ([b] + ([c] + [d]));
    GlueCons(a, [b] + ([c] + [d]), '.');
    GlueCons(b, [c] + [d], '.');
    GlueCons(c, [d], '.');
  }

  lemma NotThere(s: string, c: char)
    requires c !in s
    ensures IndexOf(s, c, 0) == |s|
  {}

  lemma FirstThere(a: string, c: char, b: string)
    requires c !in a
    ensures IndexOf(a + [c] + b, c, 0) == |a|
  {
    var s := a + [c] + b;
    assert s[|a|] == c;
    forall k | 0 <= k < |a| ensures s[k] != c { assert s[k] == a[k]; }
  }

  /** A prefix length, written as the program writes it. */
  lemma PrefixText(n: nat)
    requires n <= 32
    ensures var t := PortText(n); AllDigits(t) && Decimal(t) == n && 1 <= |t| <= 2
  {
    PortTextRoundTrip(n);
    if n >= 10 { assert PortText(n) == PortText(n / 10) + [('0' as int + n % 10) as char]; }
  }

  /** How an address is stored. */
  function IpText(host: string, n: nat): string { host + ['/'] + PortText(n) }

  lemma NormalIpForm(input: string) returns (host: string, n: nat)
    requires NormalIp(input).Some?
    ensures IsQuad(host) && n <= 32 && NormalIp(input).value == IpText(host, n)
  {
    var buf := Cut(input);
    var slash := IndexOf(buf, '/', 0);
    if slash == |buf| {
      host, n := buf, 32;
      assert PortText(32) == PortText(3) + [('0' as int + 2) as char];
      assert "/32" == ['/'] + PortText(32);
    } else {
      host, n := buf[..slash], Decimal(buf[slash + 1..]);
    }
  }

  lemma StoredIp(host: string, n: nat)
    requires IsQuad(host) && n <= 32
    ensures var v := IpText(host, n); NormalIp(v) == Some(v) && |v| <= 18 && forall k :: 0 <= k < |v| ==> IsLine(v[k])
  {
    var v, t := IpText(host, n), PortText(n);
    PrefixText(n);
    QuadShape(host);
    FirstThere(host, '/', t);
    assert v[..|host|] == host && v[|host| + 1..] == t;
  }

  /** What is stored is accepted again, unchanged. */
  lemma NormalIpTwice(input: string)
    requires NormalIp(input).Some?
    ensures var v := NormalIp(input).value; NormalIp(v) == Some(v) && |v| <= 18 && forall k :: 0 <= k < |v| ==> IsLine(v[k])
  {
    var host, n := NormalIpForm(input);
    StoredIp(host, n);
  }

  /** A character that a line of the file may carry inside a value. */
  predicate IsLine(c: char) { c != ' ' && c != '\t' && c != '\r' && c != '\n' && c != '#' }

  // ---- domains ---------------------------------------------------------------------------------------------------

  predicate IsLetter(c: char) { 'a' <= c <= 'z' || 'A' <= c <= 'Z' }

  /** At most 63 letters, digits and hyphens, with no hyphen at either end. */
  predicate IsLabel(s: string) {
    && 1 <= |s| <= 63 && s[0] != '-' && s[|s| - 1] != '-'
    && forall k :: 0 <= k < |s| ==> IsLetter(s[k]) || IsDigit(s[k]) || s[k] == '-'
  }

  function ToLower(c: char): char { if 'A' <= c <= 'Z' then (c as int + 32) as char else c }

  function Lower(s: string): string { seq(|s|, k requires 0 <= k < |s| => ToLower(s[k])) }

  /** The text without dots at its end. */
  function StripDots(s: string): (r: string)
    ensures |r| <= |s| && r == s[..|r|] && (r != "" ==> r[|r| - 1] != '.')
  {
    if s != "" && s[|s| - 1] == '.' then StripDots(s[..|s| - 1]) else s
  }

  predicate AreLabels(parts: seq<string>) { forall k :: 0 <= k < |parts| ==> IsLabel(parts[k]) }

  function NormalDomain(input: string): Option<string> {
    if input == "" || |input| >= 254 then None else
    var t := StripDots(input);
    if t == "" || '.' !in t || !AreLabels(Split(Lower(t), '.', 0)) then None else Some(Lower(t))
  }

  lemma LowerTwice(s: string)
    ensures Lower(Lower(s)) == Lower(s) && ('.' in Lower(s) <==> '.' in s)
  {
    if '.' in s {
      var k :| 0 <= k < |s| && s[k] == '.';
      assert Lower(s)[k] == '.';
    }
  }

  lemma {:induction false} LabelChars(parts: seq<string>)
    requires parts != [] && AreLabels(parts)
    ensures var s := Glue(parts, '.');
            && s != "" && s[|s| - 1] != '.'
            && forall k :: 0 <= k < |s| ==> IsLetter(s[k]) || IsDigit(s[k]) || s[k] == '-' || s[k] == '.'
  {
    if |parts| > 1 {
      LabelChars(parts[1..]);
      assert parts == [parts[0]] + parts[1..];
      GlueCons(parts[0], parts[1..], '.');
    }
  }

  /** A stored domain is accepted again, unchanged; it is lower-case, at most 253 characters long and cut by its dots
      into labels. */
  lemma NormalDomainTwice(input: string)
    requires NormalDomain(input).Some?
    ensures var v := NormalDomain(input).value;
            && NormalDomain(v) == Some(v) && |v| <= 253 && Lower(v) == v && AreLabels(Split(v, '.', 0))
            && |Split(v, '.', 0)| >= 2
    ensures forall k :: 0 <= k < |NormalDomain(input).value| ==> IsLine(NormalDomain(input).value[k])
  {
    var t, v := StripDots(input), NormalDomain(input).value;
    LowerTwice(t);
    SplitGlues(v, '.', 0);
    assert v[0..] == v;
    LabelChars(Split(v, '.', 0));
    PartsAreFree(v, '.', 0);
    assert StripDots(v) == v;
    assert '.' in v && '.' !in Split(v, '.', 0)[0];
  }

  /** One character after the other. */
  method ValidLabel(s: string) returns (ok: bool)
    ensures ok == IsLabel(s)
  {
    if |s| == 0 || |s| > 63 || s[0] == '-' || s[|s| - 1] == '-' { return false; }
    for i := 0 to |s|
      invariant forall k :: 0 <= k < i ==> IsLetter(s[k]) || IsDigit(s[k]) || s[k] == '-'
    {
      if !IsLetter(s[i]) && !IsDigit(s[i]) && s[i] != '-' { return false; }
    }
    ok := true;
  }

  /** In a buffer: strip the dots at the end, lower the case in place, then walk from dot to dot. */
  method NormalizeDomain(input: string) returns (out: Option<string>)
    ensures out == NormalDomain(input)
  {
    if |input| == 0 || |input| >= 254 { return None; }
    var n: nat := |input|;
    assert input[..n] == input;
    while n > 0 && input[n - 1] == '.'
      invariant n <= |input| && StripDots(input) == StripDots(input[..n])
    {
      assert input[..n][..n - 1] == input[..n - 1];
      n := n - 1;
    }
    assert n == 0 || input[..n][n - 1] == input[n - 1];
    var t := input[..n];
    assert t == StripDots(input);
    if n == 0 || '.' !in t { return None; }
    var buf := new char[n](i requires 0 <= i < n => t[i]);
    for i := 0 to n
      invariant forall k :: 0 <= k < n ==> buf[k] == if k < i then ToLower(t[k]) else t[k]
    {
      buf[i] := ToLower(buf[i]);
    }
    assert buf[..] == Lower(t);
    var ok := LabelsFrom(buf[..]);
    out := if ok then Some(buf[..]) else None;
  }

  method LabelsFrom(s: string) returns (ok: bool)
    ensures ok == AreLabels(Split(s, '.', 0))
  {
    var p := 0;
    while true
      invariant p <= |s| && AreLabels(Split(s, '.', 0)) == AreLabels(Split(s, '.', p))
      decreases |s| - p
    {
      var dot := IndexOf(s, '.', p);
      ok := ValidLabel(s[p..dot]);
      assert dot == |s| ==> s[p..dot] == s[p..];
      assert Split(s, '.', p)[0] == s[p..dot];
      if !ok || dot == |s| { return; }
      LabelsCons(s[p..dot], Split(s, '.', dot + 1));
      p := dot + 1;
    }
  }

  lemma LabelsCons(head: string, rest: seq<string>)
    ensures AreLabels([head] + rest) <==> IsLabel(head) && AreLabels(rest)
  {
    var all := [head] + rest;
    assert forall k :: 0 <= k < |rest| ==> all[k + 1] == rest[k];
    if AreLabels(all) {
      assert IsLabel(all[0]);
      forall k | 0 <= k < |rest| ensures IsLabel(rest[k]) { assert IsLabel(all[k + 1]); }
    }
  }

  // ---- the file ----------------------------------------------------------------------------------------------------

  function Normal(kind: Kind, input: string): Option<string> { if kind.Ip? then NormalIp(input) else NormalDomain(input) }

  function KindName(kind: Kind): string { if kind.Ip? then "ip" else "domain" }

  function ParseKind(s: string): Option<Kind> {
    if s == "ip" || s == "ipv4" then Some(Ip) else if s == "domain" || s == "dns" then Some(Domain) else None
  }

  function DropLead(s: string): string { if s != "" && (s[0] == ' ' || s[0] == '\t') then DropLead(s[1..]) else s }

  predicate IsBlank(c: char) { c == ' ' || c == '\t' || c == '\r' || c == '\n' }

  function DropTrail(s: string): string { if s != "" && IsBlank(s[|s| - 1]) then DropTrail(s[..|s| - 1]) else s }

  function Trim(s: string): string { DropTrail(DropLead(s)) }

  /** One line of the file: nothing, or a kind with a text that has still to be normalised. */
  function ParseLine(line: string): Option<(Kind, string)> {
    var l := Trim(line);
    if l == "" || l[0] == '#' then None else
    var tab, blank := IndexOf(l, '\t', 0), IndexOf(l, ' ', 0);
    var sep := if tab < |l| then tab else blank;
    if sep == |l| then None else
    match ParseKind(Trim(l[..sep]))
    case None => None
    case Some(kind) => Some((kind, Trim(l[sep + 1..])))
  }

  /** fgets with 512 bytes: up to a newline, 511 characters, or the end. */
  function LineEnd(text: string, from: nat): (end: nat)
    requires from < |text|
    ensures from < end <= |text|
  {
    var nl := IndexOf(text, '\n', from);
    var end := if nl < |text| then nl + 1 else nl;
    if end - from > 511 then from + 511 else end
  }

  /** What a line means for the table; `Unusable` names a kind but no valid value. */
  datatype Reading = Nothing | Unusable | Good(entry: Entry)

  function ReadLine(line: string): Reading {
    match ParseLine(line)
    case None => Nothing
    case Some((kind, value)) => match Normal(kind, value) case None => Unusable case Some(v) => Good(Entry(kind, v))
  }

  /** The table read from `from` on, after `table`, line by line; None when a kind turns up after 256 entries. */
  function Loaded(text: string, from: nat, table: seq<Entry>, read: string -> Reading): Option<seq<Entry>>
    requires from <= |text|
    decreases |text| - from
  {
    if from == |text| then Some(table) else
    var end := LineEnd(text, from);
    match read(text[from..end])
    case Nothing => Loaded(text, end, table, read)
    case Unusable => if |table| >= MAX_ENTRIES then None else Loaded(text, end, table, read)
    case Good(e) => if |table| >= MAX_ENTRIES then None else Loaded(text, end, table + [e], read)
  }

  const FIRST_LINE := "# Susanin VPN Direct persistent policy\n"
  const SECOND_LINE := "# Format: ip|domain<TAB>value\n"
  const HEADER := FIRST_LINE + SECOND_LINE

  function LineOf(e: Entry): string { KindName(e.kind) + ['\t'] + e.value + ['\n'] }

  function Lines(table: seq<Entry>): (lines: seq<string>)
    ensures |lines| == |table| && forall i :: 0 <= i < |table| ==> lines[i] == LineOf(table[i])
  {
    if table == [] then [] else [LineOf(table[0])] + Lines(table[1..])
  }

  function Concat(lines: seq<string>): string { if lines == [] then "" else lines[0] + Concat(lines[1..]) }

  function Saved(table: seq<Entry>): string { HEADER + Concat(Lines(table)) }

  // ---- saving and loading again ---------------------------------------------------------------------------------------

  /** An entry as the program makes it. */
  predicate IsNormal(e: Entry) { Normal(e.kind, e.value) == Some(e.value) }

  /** A policy: normalised entries, none twice, at most 256. */
  predicate IsPolicy(table: seq<Entry>) {
    && |table| <= MAX_ENTRIES && (forall i :: 0 <= i < |table| ==> IsNormal(table[i]))
    && forall i, j :: 0 <= i < j < |table| ==> table[i] != table[j]
  }

  lemma NormalShape(e: Entry)
    requires IsNormal(e)
    ensures 1 <= |e.value| <= 253 && forall k :: 0 <= k < |e.value| ==> IsLine(e.value[k])
  {
    if e.kind.Ip? { NormalIpTwice(e.value); } else { NormalDomainTwice(e.value); }
  }

  lemma TrimKeeps(s: string, tail: string)
    requires s != "" && !IsBlank(s[0]) && !IsBlank(s[|s| - 1]) && tail in {"", "\n"}
    ensures Trim(s + tail) == s
  {
    var l := s + tail;
    assert DropLead(l) == l && DropTrail(s) == s;
    if tail == "" {
      assert l == s;
    } else {
      assert l[|l| - 1] == '\n' && l[..|l| - 1] == s;
    }
  }

  predicate IsPlain(s: string) { s != "" && forall k :: 0 <= k < |s| ==> IsLine(s[k]) }

  lemma ParseParts(name: string, value: string, kind: Kind)
    requires IsPlain(name) && IsPlain(value) && ParseKind(name) == Some(kind)
    ensures ParseLine(name + ['\t'] + value + ['\n']) == Some((kind, value))
  {
    var l := name + ['\t'] + value;
    assert l[0] == name[0] && l[|l| - 1] == value[|value| - 1];
    TrimKeeps(l, "\n");
    FirstThere(name, '\t', value);
    assert l[..|name|] == name && l[|name| + 1..] == value;
    assert name + "" == name && value + "" == value;
    TrimKeeps(name, "");
    TrimKeeps(value, "");
  }

  lemma LineRoundTrip(e: Entry)
    requires IsNormal(e)
    ensures ParseLine(LineOf(e)) == Some((e.kind, e.value)) && |LineOf(e)| <= 261
  {
    NormalShape(e);
    ParseParts(KindName(e.kind), e.value, e.kind);
  }

  predicate IsOneLine(s: string) { 1 <= |s| <= 511 && s[|s| - 1] == '\n' && '\n' !in s[..|s| - 1] }

  /** A line is read up to and including its newline. */
  lemma NextLine(text: string, from: nat, line: string)
    requires IsOneLine(line) && from + |line| <= |text| && text[from..from + |line|] == line
    ensures LineEnd(text, from) == from + |line|
  {
    assert text[from + |line| - 1] == line[|line| - 1];
    forall k | from <= k < from + |line| - 1 ensures text[k] != '\n' {
      assert text[from..from + |line|][k - from] == line[k - from] == line[..|line| - 1][k - from];
    }
  }

  lemma LineIsOneLine(e: Entry)
    requires IsNormal(e)
    ensures IsOneLine(LineOf(e))
  {
    NormalShape(e);
    var l := KindName(e.kind) + ['\t'] + e.value;
    assert LineOf(e)[..|l|] == l;
    forall k | 0 <= k < |l| ensures l[k] != '\n' {
      if k > |KindName(e.kind)| { assert l[k] == e.value[k - |KindName(e.kind)| - 1]; }
    }
  }

  lemma HeaderIsSkipped(text: string, read: string -> Reading)
    requires HEADER <= text && read(FIRST_LINE) == read(SECOND_LINE) == Nothing
    ensures Loaded(text, 0, [], read) == Loaded(text, |HEADER|, [], read)
  {
    var a, b := FIRST_LINE, SECOND_LINE;
    HeaderLines(a, b);
    assert text[0..|a|] == a && text[|a|..|a| + |b|] == b by { assert forall k :: 0 <= k < |HEADER| ==> text[k] == HEADER[k]; }
    NextLine(text, 0, a);
    NextLine(text, |a|, b);
  }

  lemma HeaderLines(a: string, b: string)
    requires a == FIRST_LINE && b == SECOND_LINE
    ensures HEADER == a + b && '\n' !in a[..|a| - 1] && '\n' !in b[..|b| - 1]
    ensures a[0] == '#' && b[0] == '#' && a[|a| - 1] == '\n' && b[|b| - 1] == '\n' && !IsBlank(a[|a| - 2]) && !IsBlank(b[|b| - 2])
  {}

  lemma CommentLine(line: string)
    requires |line| >= 2 && line[0] == '#' && line[|line| - 1] == '\n' && !IsBlank(line[|line| - 2])
    ensures ParseLine(line) == None
  {
    var l := line[..|line| - 1];
    assert line == l + "\n";
    TrimKeeps(l, "\n");
  }

  /** The line is one line, and reads as the entry. */
  predicate Records(line: string, e: Entry, read: string -> Reading) { IsOneLine(line) && read(line) == Good(e) }

  predicate AllRecord(lines: seq<string>, table: seq<Entry>, read: string -> Reading) {
    |lines| == |table| && forall i :: 0 <= i < |table| ==> Records(lines[i], table[i], read)
  }

  /** One saved line adds one entry. */
  lemma LoadStep(text: string, pre: string, line: string, post: string, e: Entry, table: seq<Entry>,
                 read: string -> Reading)
    requires Records(line, e, read) && |table| < MAX_ENTRIES && text == pre + line + post
    ensures Loaded(text, |pre|, table, read) == Loaded(text, |pre + line|, table + [e], read)
  {
    assert text[|pre|..|pre| + |line|] == line;
    NextLine(text, |pre|, line);
  }

  lemma ConcatShift(pre: string, lines: seq<string>)
    requires lines != []
    ensures pre + Concat(lines) == pre + lines[0] + Concat(lines[1..])
  {
    assert pre + (lines[0] + Concat(lines[1..])) == pre + lines[0] + Concat(lines[1..]);
  }

  /** Reading the saved lines adds all the entries. */
  lemma {:induction false} LinesRoundTrip(text: string, pre: string, lines: seq<string>, rest: seq<Entry>,
                                          table: seq<Entry>, read: string -> Reading)
    requires AllRecord(lines, rest, read) && |table| + |rest| <= MAX_ENTRIES && text == pre + Concat(lines)
    ensures Loaded(text, |pre|, table, read) == Some(table + rest)
    decreases |rest|
  {
    if rest == [] {
      assert |pre| == |text| && table + rest == table;
    } else {
      var line, e := lines[0], rest[0];
      ConcatShift(pre, lines);
      LoadStep(text, pre, line, Concat(lines[1..]), e, table, read);
      TailRecords(lines, rest, read);
      LinesRoundTrip(text, pre + line, lines[1..], rest[1..], table + [e], read);
      assert table + [e] + rest[1..] == table + rest;
    }
  }

  lemma TailRecords(lines: seq<string>, rest: seq<Entry>, read: string -> Reading)
    requires AllRecord(lines, rest, read) && rest != []
    ensures AllRecord(lines[1..], rest[1..], read)
  {
    forall i | 0 <= i < |rest[1..]| ensures Records(lines[1..][i], rest[1..][i], read) {
      assert Records(lines[i + 1], rest[i + 1], read);
    }
  }

  lemma ReadsBack(e: Entry)
    requires IsNormal(e)
    ensures Records(LineOf(e), e, ReadLine)
  {
    LineRoundTrip(e);
    LineIsOneLine(e);
  }

  lemma HeaderReads()
    ensures ReadLine(FIRST_LINE) == ReadLine(SECOND_LINE) == Nothing
  {
    HeaderLines(FIRST_LINE, SECOND_LINE);
    CommentLine(FIRST_LINE);
    CommentLine(SECOND_LINE);
  }

  /** Saving a policy and loading it again changes nothing. */
  lemma SaveLoad(table: seq<Entry>)
    requires IsPolicy(table)
    ensures Loaded(Saved(table), 0, [], ReadLine) == Some(table)
  {
    var lines := Lines(table);
    forall i | 0 <= i < |table| ensures Records(lines[i], table[i], ReadLine) { ReadsBack(table[i]); }
    LinesRoundTrip(Saved(table), HEADER, lines, table, [], ReadLine);
    assert [] + table == table;
    HeaderReads();
    HeaderIsSkipped(Saved(table), ReadLine);
  }

  // ---- the table --------------------------------------------------------------------------------------------------------

  /** The fixed table of 256 entries. */
  class Table {
    const entries: array<Entry>
    var count: nat

    ghost predicate Valid()
      reads this
    {
      count <= entries.Length == MAX_ENTRIES
    }

    ghost function Contents(): seq<Entry>
      reads this, entries
      requires Valid()
    {
      entries[..count]
    }

    constructor ()
      ensures Valid() && fresh(entries) && Contents() == []
    {
      entries, count := new Entry[MAX_ENTRIES](_ => Entry(Ip, "")), 0;
    }

    method Find(e: Entry) returns (found: bool, index: nat)
      requires Valid()
      ensures found <==> e in Contents()
      ensures found ==> index < count && entries[index] == e
    {
      for i := 0 to count
        invariant e !in entries[..i]
      {
        if entries[i] == e { return true, i; }
      }
      return false, 0;
    }

    method Append(e: Entry)
      requires Valid() && count < MAX_ENTRIES
      modifies this`count, entries
      ensures Valid() && Contents() == old(Contents()) + [e]
    {
      entries[count] := e;
      count := count + 1;
    }

    /** Shifts what follows down by one. */
    method RemoveAt(index: nat)
      requires Valid() && index < count
      modifies this`count, entries
      ensures Valid() && Contents() == old(Contents())[..index] + old(Contents())[index + 1..]
    {
      for i := index to count - 1
        invariant count == old(count) && Valid()
        invariant forall k :: 0 <= k < count ==> entries[k] == if index <= k < i then old(entries[k + 1]) else old(entries[k])
      {
        entries[i] := entries[i + 1];
      }
      count := count - 1;
    }

    /** Reads the file line by line. */
    method Load(text: string) returns (ok: bool)
      requires Valid() && count == 0
      modifies this`count, entries
      ensures Valid() && (ok <==> Loaded(text, 0, [], ReadLine).Some?)
      ensures ok ==> Loaded(text, 0, [], ReadLine) == Some(Contents())
    {
      var from := 0;
      while from < |text|
        invariant Valid() && from <= |text|
        invariant Loaded(text, 0, [], ReadLine) == Loaded(text, from, Contents(), ReadLine)
      {
        var end := LineEnd(text, from);
        var reading := ReadLine(text[from..end]);
        if !reading.Nothing? && count >= MAX_ENTRIES { return false; }
        if reading.Good? { Append(reading.entry); }
        from := end;
      }
      ok := true;
    }

    method Save() returns (text: string)
      requires Valid()
      ensures text == Saved(Contents())
    {
      text := HEADER;
      assert entries[0..count] == entries[..count];
      for i := 0 to count
        invariant text + Concat(Lines(entries[i..count])) == Saved(Contents())
      {
        var rest := Lines(entries[i..count]);
        assert entries[i..count][1..] == entries[i + 1..count];
        ConcatShift(text, rest);
        text := text + LineOf(entries[i]);
      }
      assert entries[count..count] == [] && text + "" == text;
    }
  }

  // ---- the policy over time -----------------------------------------------------------------------------------------------

  datatype Outcome = BadKind | BadValue | Unreadable | AlreadyThere | Full | Changed | NotThere

  lemma AppendKeeps(policy: seq<Entry>, e: Entry)
    requires IsPolicy(policy) && e !in policy && IsNormal(e) && |policy| < MAX_ENTRIES
    ensures IsPolicy(policy + [e])
  {
    var all := policy + [e];
    forall i | 0 <= i < |all| ensures IsNormal(all[i]) {}
    forall i, j | 0 <= i < j < |all| ensures all[i] != all[j] {
      if j == |policy| { assert all[i] == policy[i] && policy[i] in policy; }
    }
  }

  lemma RemoveKeeps(policy: seq<Entry>, i: nat)
    requires IsPolicy(policy) && i < |policy|
    ensures IsPolicy(policy[..i] + policy[i + 1..]) && policy[i] !in policy[..i] + policy[i + 1..]
  {
    var left := policy[..i] + policy[i + 1..];
    assert forall k :: 0 <= k < |left| ==> left[k] == policy[if k < i then k else k + 1];
    forall k | 0 <= k < |left| ensures IsNormal(left[k]) { assert IsNormal(policy[if k < i then k else k + 1]); }
  }

  lemma NormalIsNormal(kind: Kind, input: string)
    requires Normal(kind, input).Some?
    ensures IsNormal(Entry(kind, Normal(kind, input).value))
  {
    if kind.Ip? { NormalIpTwice(input); } else { NormalDomainTwice(input); }
  }

  /** The file, and the policy it stands for. A missing file is the empty policy. */
  class Store {
    var file: Option<string>
    ghost var policy: seq<Entry>

    ghost predicate Valid()
      reads this
    {
      IsPolicy(policy) && (file == Some(Saved(policy)) || (file.None? && policy == []))
    }

    constructor ()
      ensures Valid() && policy == []
    {
      file, policy := None, [];
    }

    method Load() returns (ok: bool, table: Table)
      requires Valid()
      ensures ok && fresh(table) && fresh(table.entries) && table.Valid() && table.Contents() == policy
    {
      table := new Table();
      if file.None? { return true, table; }
      SaveLoad(policy);
      ok := table.Load(file.value);
    }

    /** The value as stored, or what is wrong with the arguments. */
    method Normalize(kindText: string, valueText: string) returns (e: Option<Entry>, error: Outcome)
      ensures error in {BadKind, BadValue}
      ensures e.Some? <==> ParseKind(kindText).Some? && Normal(ParseKind(kindText).value, valueText).Some?
      ensures e.Some? ==>
        IsNormal(e.value) && e.value == Entry(ParseKind(kindText).value, Normal(ParseKind(kindText).value, valueText).value)
      ensures e.None? ==> error == if ParseKind(kindText).None? then BadKind else BadValue
    {
      var kind := ParseKind(kindText);
      if kind.None? { return None, BadKind; }
      var value;
      if kind.value.Ip? { value := NormalIp(valueText); } else { value := NormalizeDomain(valueText); }
      if value.None? { return None, BadValue; }
      NormalIsNormal(kind.value, valueText);
      return Some(Entry(kind.value, value.value)), BadValue;
    }

    method Add(kindText: string, valueText: string) returns (out: Outcome)
      requires Valid()
      modifies this
      ensures Valid()
      ensures out == match ParseKind(kindText)
        case None => BadKind
        case Some(kind) =>
          match Normal(kind, valueText)
          case None => BadValue
          case Some(v) =>
            if Entry(kind, v) in old(policy) then AlreadyThere
            else if |old(policy)| == MAX_ENTRIES then Full else Changed
      ensures policy == if out.Changed?
        then old(policy) + [Entry(ParseKind(kindText).value, Normal(ParseKind(kindText).value, valueText).value)]
        else old(policy)
    {
      var e, error := Normalize(kindText, valueText);
      if e.None? { return error; }
      var ok, table := Load();
      if !ok { return Unreadable; }
      var found, index := table.Find(e.value);
      if found { return AlreadyThere; }
      if table.count >= MAX_ENTRIES { return Full; }
      table.Append(e.value);
      AppendKeeps(policy, e.value);
      var text := table.Save();
      file, policy := Some(text), policy + [e.value];
      out := Changed;
    }

    method Remove(kindText: string, valueText: string) returns (out: Outcome)
      requires Valid()
      modifies this
      ensures Valid()
      ensures out == match ParseKind(kindText)
        case None => BadKind
        case Some(kind) =>
          match Normal(kind, valueText)
          case None => BadValue
          case Some(v) => if Entry(kind, v) in old(policy) then Changed else NotThere
      ensures !out.Changed? ==> policy == old(policy)
      ensures out.Changed? ==>
        var e := Entry(ParseKind(kindText).value, Normal(ParseKind(kindText).value, valueText).value);
        exists i :: 0 <= i < |old(policy)| && old(policy)[i] == e
          && policy == old(policy)[..i] + old(policy)[i + 1..] && e !in policy
    {
      var e, error := Normalize(kindText, valueText);
      if e.None? { return error; }
      var ok, table := Load();
      if !ok { return Unreadable; }
      var found, index := table.Find(e.value);
      if !found { return NotThere; }
      table.RemoveAt(index);
      RemoveKeeps(policy, index);
      var text := table.Save();
      file, policy := Some(text), policy[..index] + policy[index + 1..];
      out := Changed;
    }
  }
}
