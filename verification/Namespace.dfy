/** The address-list namespace: how the adaptive scripts name their per-port state lists, and the two
    parsers (runtime cleanup and status) that recognise those names in a router dump. */
module Namespace {

  datatype Proto = Tcp | Udp
  datatype Family = Watch | Test | Ok | Cooldown | Direct1 | Awg1 | Recheck

  function FamilyWord(f: Family): string {
    match f
    case Watch => "watch_" case Test => "test_" case Ok => "ok_" case Cooldown => "cooldown_"
    case Direct1 => "direct1_" case Awg1 => "awg1_" case Recheck => "recheck_"
  }

  function ProtoWord(p: Proto): string { if p.Tcp? then "tcp_" else "udp_" }

  /** The fixed part of a state-list name, one per family and protocol. */
  function Prefix(f: Family, p: Proto): string { "auto_awg_" + FamilyWord(f) + ProtoWord(p) }

  /** The cleanup matcher's table, in its own order. */
  const CLEANUP_TABLE: seq<(Family, Proto)> := [
    (Watch, Tcp), (Test, Tcp), (Ok, Tcp), (Cooldown, Tcp), (Direct1, Tcp), (Awg1, Tcp), (Recheck, Tcp),
    (Watch, Udp), (Test, Udp), (Ok, Udp), (Cooldown, Udp), (Direct1, Udp), (Awg1, Udp), (Recheck, Udp)]

  /** The status parser's table, in its own order. */
  const STATUS_TABLE: seq<(Family, Proto)> := [
    (Ok, Tcp), (Test, Tcp), (Watch, Tcp), (Cooldown, Tcp),
    (Ok, Udp), (Test, Udp), (Watch, Udp), (Cooldown, Udp)]

  /** The address-only lists of the older release. */
  const LEGACY_LISTS: seq<string> := [
    "auto_awg_watch_tcp", "auto_awg_test_tcp", "auto_awg_ok_tcp", "auto_awg_cooldown_tcp",
    "auto_awg_watch_udp", "auto_awg_test_udp", "auto_awg_ok_udp", "auto_awg_cooldown_udp"]

  predicate IsDigit(c: char) { '0' <= c <= '9' }

  predicate AllDigits(s: string) { forall i :: 0 <= i < |s| ==> IsDigit(s[i]) }

  function DigitValue(c: char): nat
    requires IsDigit(c)
  {
    (c - '0') as nat
  }

  /** The number a digit string denotes, leading zeros allowed. */
  function Decimal(s: string): nat
    requires AllDigits(s)
  {
    if s == "" then 0 else Decimal(s[..|s| - 1]) * 10 + DigitValue(s[|s| - 1])
  }

  predicate PortSuffix(s: string) { s != "" && AllDigits(s) && Decimal(s) <= 65535 }

  /** How a port number is printed at the end of a generated name. */
  function PortText(n: nat): string {
    if n < 10 then [('0' as int + n) as char] else PortText(n / 10) + [('0' as int + n % 10) as char]
  }

  function StateList(f: Family, p: Proto, port: nat): string { Prefix(f, p) + PortText(port) }

  /** `value` is `prefix` followed by a port number. */
  predicate HasPort(value: string, prefix: string) {
    prefix <= value && PortSuffix(value[|prefix|..])
  }

  ghost predicate InTable(value: string, table: seq<(Family, Proto)>) {
    exists i :: 0 <= i < |table| && HasPort(value, Prefix(table[i].0, table[i].1))
  }

  /** Names the runtime cleanup removes. */
  ghost predicate IsPortList(value: string) {
    exists f, p :: HasPort(value, Prefix(f, p))
  }

  predicate IsLegacyList(value: string) { value in LEGACY_LISTS }

  // ---- digits -------------------------------------------------------------------------------

  lemma {:induction false} DecimalGrows(s: string, i: nat)
    requires AllDigits(s) && i <= |s|
    ensures Decimal(s[..i]) <= Decimal(s)
    decreases |s| - i
  {
    if i < |s| {
      assert s[..i + 1][..i] == s[..i];
      DecimalGrows(s, i + 1);
    } else {
      assert s[..i] == s;
    }
  }

  lemma {:induction false} PortTextRoundTrip(n: nat)
    ensures PortText(n) != "" && AllDigits(PortText(n)) && Decimal(PortText(n)) == n
  {
    if n >= 10 {
      PortTextRoundTrip(n / 10);
      var t := PortText(n / 10);
      assert PortText(n)[..|PortText(n)| - 1] == t;
    } else {
      assert PortText(n)[..0] == "";
    }
  }

  // ---- the two matchers -----------------------------------------------------------------------

  /** Digit loop that gives up as soon as the running value leaves the port range. */
  method PortSuffixValid(s: string) returns (valid: bool)
    ensures valid <==> PortSuffix(s)
  {
    if s == "" { return false; }
    var port := 0;
    for p := 0 to |s|
      invariant AllDigits(s[..p]) && port == Decimal(s[..p]) && port <= 65535
    {
      if s[p] < '0' || s[p] > '9' { return false; }
      assert s[..p + 1][..p] == s[..p];
      port := port * 10 + (s[p] - '0') as nat;
      assert port < 0x1_0000_0000; // no wrap-around even in a 32-bit unsigned long
      if port > 65535 {
        if AllDigits(s) { DecimalGrows(s, p + 1); }
        return false;
      }
    }
    assert s[..|s|] == s;
    valid := true;
  }

  function Prefixes(table: seq<(Family, Proto)>): seq<string> {
    seq(|table|, i requires 0 <= i < |table| => Prefix(table[i].0, table[i].1))
  }

  /** First prefix that, followed by a port, is the whole value; `|prefixes|` if there is none. */
  method FindPrefix(value: string, prefixes: seq<string>) returns (row: nat)
    ensures row <= |prefixes|
    ensures row < |prefixes| ==> HasPort(value, prefixes[row])
    ensures row == |prefixes| ==> forall k :: 0 <= k < |prefixes| ==> !HasPort(value, prefixes[k])
  {
    row := 0;
    while row < |prefixes|
      invariant row <= |prefixes|
      invariant forall k :: 0 <= k < row ==> !HasPort(value, prefixes[k])
    {
      var hit := StartsAndEnds(value, prefixes[row]);
      if hit { return; }
      row := row + 1;
    }
  }

  method StartsAndEnds(value: string, prefix: string) returns (hit: bool)
    ensures hit <==> HasPort(value, prefix)
  {
    hit := false;
    if prefix <= value { hit := PortSuffixValid(value[|prefix|..]); }
  }

  lemma TableRows(value: string, table: seq<(Family, Proto)>)
    ensures InTable(value, table) <==> exists k :: 0 <= k < |table| && HasPort(value, Prefixes(table)[k])
  {
    assert forall k :: 0 <= k < |table| ==> Prefixes(table)[k] == Prefix(table[k].0, table[k].1);
    if InTable(value, table) {
      var i :| 0 <= i < |table| && HasPort(value, Prefix(table[i].0, table[i].1));
      assert HasPort(value, Prefixes(table)[i]);
    }
  }

  method MatchPortList(value: string) returns (matched: bool)
    ensures matched <==> IsPortList(value)
  {
    TableIsComplete(value);
    var row := FindPrefix(value, Prefixes(CLEANUP_TABLE));
    TableRows(value, CLEANUP_TABLE);
    matched := row < |CLEANUP_TABLE|;
  }

  /** The status parser: on a match, `proto` and `state` are those of the name. */
  method ParsePortList(list: string) returns (matched: bool, proto: Proto, state: Family)
    ensures matched <==> InTable(list, STATUS_TABLE)
    ensures matched ==> HasPort(list, Prefix(state, proto))
  {
    var row := FindPrefix(list, Prefixes(STATUS_TABLE));
    TableRows(list, STATUS_TABLE);
    matched := row < |STATUS_TABLE|;
    if matched { proto, state := STATUS_TABLE[row].1, STATUS_TABLE[row].0; } else { proto, state := Tcp, Ok; }
  }

  function CleanupIndex(f: Family, p: Proto): (i: nat)
    ensures i < |CLEANUP_TABLE| && CLEANUP_TABLE[i] == (f, p)
  {
    (if p.Tcp? then 0 else 7) +
    match f
    case Watch => 0 case Test => 1 case Ok => 2 case Cooldown => 3
    case Direct1 => 4 case Awg1 => 5 case Recheck => 6
  }

  lemma TableIsComplete(value: string)
    ensures IsPortList(value) <==> InTable(value, CLEANUP_TABLE)
  {
    if IsPortList(value) {
      var f, p :| HasPort(value, Prefix(f, p));
      var i := CleanupIndex(f, p);
      assert HasPort(value, Prefix(CLEANUP_TABLE[i].0, CLEANUP_TABLE[i].1));
    }
  }

  // ---- names ----------------------------------------------------------------------------------

  lemma PrefixShape(f: Family, p: Proto)
    ensures |Prefix(f, p)| > 13 && Prefix(f, p)[|Prefix(f, p)| - 1] == '_'
  {}

  lemma PrefixInjective(f: Family, p: Proto, g: Family, q: Proto)
    requires Prefix(f, p) == Prefix(g, q)
    ensures f == g && p == q
  {
    assert Prefix(f, p)[9] == FamilyWord(f)[0] && Prefix(g, q)[9] == FamilyWord(g)[0];
    var n := |Prefix(f, p)|;
    assert Prefix(f, p)[n - 4] == ProtoWord(p)[0] && Prefix(g, q)[n - 4] == ProtoWord(q)[0];
  }

  /** A digit tail cannot reach over an underscore. */
  lemma BoundaryBound(a: string, s: string, b: string, t: string)
    requires AllDigits(s) && b != "" && b[|b| - 1] == '_' && a + s == b + t
    ensures |b| <= |a|
  {
    assert (b + t)[|b| - 1] == '_';
    assert forall k :: |a| <= k < |a + s| ==> IsDigit((a + s)[k]);
  }

  /** The prefix and the tail of a name are determined by the name. */
  lemma SplitUnique(f: Family, p: Proto, s: string, g: Family, q: Proto, t: string)
    requires AllDigits(s) && AllDigits(t) && Prefix(f, p) + s == Prefix(g, q) + t
    ensures f == g && p == q && s == t
  {
    var a, b := Prefix(f, p), Prefix(g, q);
    PrefixShape(f, p);
    PrefixShape(g, q);
    BoundaryBound(a, s, b, t);
    BoundaryBound(b, t, a, s);
    assert a == (a + s)[..|a|] && b == (b + t)[..|b|] && s == (a + s)[|a|..] && t == (b + t)[|b|..];
    PrefixInjective(f, p, g, q);
  }

  /** At most one prefix fits a value. */
  lemma OnePrefix(value: string, f: Family, p: Proto, g: Family, q: Proto)
    requires HasPort(value, Prefix(f, p)) && HasPort(value, Prefix(g, q))
    ensures f == g && p == q
  {
    var a, b := Prefix(f, p), Prefix(g, q);
    assert value == a + value[|a|..] && value == b + value[|b|..];
    SplitUnique(f, p, value[|a|..], g, q, value[|b|..]);
  }

  lemma JoinHasPort(prefix: string, suffix: string)
    ensures HasPort(prefix + suffix, prefix) <==> PortSuffix(suffix)
  {
    assert (prefix + suffix)[|prefix|..] == suffix;
  }

  /** Two generated state-list names are equal only for the same family, protocol and port. */
  lemma StateListInjective(f: Family, p: Proto, m: nat, g: Family, q: Proto, n: nat)
    ensures StateList(f, p, m) == StateList(g, q, n) <==> f == g && p == q && m == n
  {
    PortTextRoundTrip(m);
    PortTextRoundTrip(n);
    if StateList(f, p, m) == StateList(g, q, n) {
      SplitUnique(f, p, PortText(m), g, q, PortText(n));
    }
  }

  /** A name is cleaned up iff it is a known prefix and a port number; no such name is an address-only list. */
  lemma CleanupAcceptsExactly(f: Family, p: Proto, suffix: string)
    ensures PortSuffix(suffix) ==> IsPortList(Prefix(f, p) + suffix)
    ensures AllDigits(suffix) && IsPortList(Prefix(f, p) + suffix) ==> PortSuffix(suffix)
  {
    var value := Prefix(f, p) + suffix;
    JoinHasPort(Prefix(f, p), suffix);
    if AllDigits(suffix) && IsPortList(value) {
      var g, q :| HasPort(value, Prefix(g, q));
      assert value == Prefix(g, q) + value[|Prefix(g, q)|..];
      SplitUnique(f, p, suffix, g, q, value[|Prefix(g, q)|..]);
    }
  }

  lemma PortListsAreNotLegacy(value: string)
    requires IsPortList(value)
    ensures !IsLegacyList(value)
  {
    assert IsDigit(value[|value| - 1]) by {
      var f, p :| HasPort(value, Prefix(f, p));
      var suffix := value[|Prefix(f, p)|..];
      assert value[|value| - 1] == suffix[|suffix| - 1];
    }
    assert forall k :: 0 <= k < |LEGACY_LISTS| ==> LEGACY_LISTS[k] != "" && LEGACY_LISTS[k][|LEGACY_LISTS[k]| - 1] == 'p';
  }

  /** Every generated name is cleaned up, and never mistaken for an address-only list. */
  lemma StateListRecognised(f: Family, p: Proto, port: nat)
    requires port <= 65535
    ensures IsPortList(StateList(f, p, port)) && !IsLegacyList(StateList(f, p, port))
  {
    PortTextRoundTrip(port);
    CleanupAcceptsExactly(f, p, PortText(port));
    PortListsAreNotLegacy(StateList(f, p, port));
  }

  function StatusIndex(f: Family, p: Proto): (i: nat)
    requires f in {Watch, Test, Ok, Cooldown}
    ensures i < |STATUS_TABLE| && STATUS_TABLE[i] == (f, p)
  {
    (if p.Tcp? then 0 else 4) + (match f case Ok => 0 case Test => 1 case Watch => 2 case _ => 3)
  }

  lemma StatusTableFamilies(i: nat)
    requires i < |STATUS_TABLE|
    ensures STATUS_TABLE[i].0 in {Watch, Test, Ok, Cooldown}
  {}

  /** The status parser sees exactly the watch/test/ok/cooldown part of what cleanup removes, and the family
      and protocol it reports are the only ones the name can have. */
  lemma StatusAgreesWithCleanup(value: string, f: Family, p: Proto)
    requires HasPort(value, Prefix(f, p))
    ensures IsPortList(value)
    ensures InTable(value, STATUS_TABLE) <==> f in {Watch, Test, Ok, Cooldown}
    ensures forall g, q :: HasPort(value, Prefix(g, q)) ==> g == f && q == p
  {
    forall g, q | HasPort(value, Prefix(g, q)) ensures g == f && q == p {
      OnePrefix(value, f, p, g, q);
    }
    if InTable(value, STATUS_TABLE) {
      var i :| 0 <= i < |STATUS_TABLE| && HasPort(value, Prefix(STATUS_TABLE[i].0, STATUS_TABLE[i].1));
      StatusTableFamilies(i);
    }
    if f in {Watch, Test, Ok, Cooldown} {
      var i := StatusIndex(f, p);
      assert STATUS_TABLE[i].0 == f && STATUS_TABLE[i].1 == p;
    }
  }
}
