/** Rendering a script template: textual substitution in a buffer of exactly the right size, and why the eight passes,
    one per placeholder, amount to one simultaneous substitution. */
module Renderer {

  import opened Namespace

  const SIZE_T := 0x1_0000_0000_0000_0000

  // ---- substitution --------------------------------------------------------------------------------------

  predicate MatchesAt(s: string, needle: string, i: nat) {
    i + |needle| <= |s| && forall k {:trigger needle[k]} :: 0 <= k < |needle| ==> s[i + k] == needle[k]
  }

  /** strstr: first position of the needle from `from` on, or the length. */
  function Find(s: string, needle: string, from: nat): (i: nat)
    requires from <= |s| && needle != ""
    ensures from <= i <= |s| && (i < |s| ==> i + |needle| <= |s|)
    decreases |s| - from
  {
    if from == |s| then from else if MatchesAt(s, needle, from) then from else Find(s, needle, from + 1)
  }

  lemma {:induction false} FindMatches(s: string, needle: string, from: nat)
    requires from <= |s| && needle != ""
    ensures var i := Find(s, needle, from); i < |s| ==> MatchesAt(s, needle, i)
    decreases |s| - from
  {
    if from < |s| && !MatchesAt(s, needle, from) { FindMatches(s, needle, from + 1); }
  }

  lemma {:induction false} FindIsFirst(s: string, needle: string, from: nat)
    requires from <= |s| && needle != ""
    ensures forall k :: from <= k < Find(s, needle, from) ==> !MatchesAt(s, needle, k)
    decreases |s| - from
  {
    if from < |s| && !MatchesAt(s, needle, from) { FindIsFirst(s, needle, from + 1); }
  }

  /** The converse: what is at or after `from`, matches and comes first is found. */
  lemma {:induction false} FoundFirst(s: string, needle: string, from: nat, i: nat)
    requires from <= i <= |s| && needle != "" && (i < |s| ==> MatchesAt(s, needle, i))
    requires forall k :: from <= k < i ==> !MatchesAt(s, needle, k)
    ensures Find(s, needle, from) == i
    decreases |s| - from
  {
    if from < i { FoundFirst(s, needle, from + 1, i); }
  }

  predicate IsTail(s: string, p: nat, t: string) {
    |s| == p + |t| && forall k {:trigger t[k]} :: 0 <= k < |t| ==> t[k] == s[p + k]
  }

  lemma SliceOfTail(s: string, p: nat, t: string, i: nat, j: nat)
    requires IsTail(s, p, t) && i <= j <= |t|
    ensures t[i..j] == s[p + i..p + j]
  {}

  /** What is at `i` in a tail of the text is at `p + i` in the text. */
  lemma MatchInTail(s: string, needle: string, p: nat, t: string, i: nat)
    requires IsTail(s, p, t)
    ensures MatchesAt(t, needle, i) <==> MatchesAt(s, needle, p + i)
  {
    assert forall k {:trigger needle[k]} :: 0 <= k < |needle| && i + |needle| <= |t| ==> t[i + k] == s[p + i + k];
  }

  lemma {:induction false} FindInTail(s: string, needle: string, p: nat, t: string, i: nat)
    requires IsTail(s, p, t) && i <= |t| && needle != ""
    ensures Find(s, needle, p + i) == p + Find(t, needle, i)
    decreases |t| - i
  {
    MatchInTail(s, needle, p, t, i);
    if i < |t| && !MatchesAt(t, needle, i) { FindInTail(s, needle, p, t, i + 1); }
  }

  /** Substitution from `p` on, left to right and without overlap. */
  function ReplaceFrom(s: string, needle: string, value: string, p: nat): string
    requires needle != "" && p <= |s|
    decreases |s| - p
  {
    var q := Find(s, needle, p);
    if q == |s| then s[p..] else s[p..q] + value + ReplaceFrom(s, needle, value, q + |needle|)
  }

  function Replace(s: string, needle: string, value: string): string
    requires needle != ""
  {
    ReplaceFrom(s, needle, value, 0)
  }

  function Occurrences(s: string, needle: string, p: nat): nat
    requires needle != "" && p <= |s|
    decreases |s| - p
  {
    var q := Find(s, needle, p);
    if q == |s| then 0 else 1 + Occurrences(s, needle, q + |needle|)
  }

  /** The text between the occurrences. */
  function Chunks(s: string, needle: string, p: nat): (c: seq<string>)
    requires needle != "" && p <= |s|
    ensures c != []
    decreases |s| - p
  {
    var q := Find(s, needle, p);
    if q == |s| then [s[p..]] else [s[p..q]] + Chunks(s, needle, q + |needle|)
  }

  function Join(chunks: seq<string>, glue: string): string
    requires chunks != []
  {
    if |chunks| == 1 then chunks[0] else chunks[0] + glue + Join(chunks[1..], glue)
  }

  lemma JoinCons(head: string, tail: seq<string>, glue: string)
    requires tail != []
    ensures Join([head] + tail, glue) == head + glue + Join(tail, glue)
  {
    assert ([head] + tail)[1..] == tail;
  }

  /** What substitution means: the text is its chunks glued by the needle, and the result is the same chunks glued by
      the value. */
  lemma {:induction false} ReplaceIsJoin(s: string, needle: string, value: string, p: nat)
    requires needle != "" && p <= |s|
    ensures s[p..] == Join(Chunks(s, needle, p), needle)
    ensures ReplaceFrom(s, needle, value, p) == Join(Chunks(s, needle, p), value)
    decreases |s| - p
  {
    var q := Find(s, needle, p);
    if q < |s| {
      FindMatches(s, needle, p);
      CutAt(s, needle, p, q);
      ReplaceIsJoin(s, needle, value, q + |needle|);
      var head, tail := s[p..q], Chunks(s, needle, q + |needle|);
      JoinCons(head, tail, needle);
      JoinCons(head, tail, value);
    }
  }

  /** The needle occurs in no chunk, so nothing was left to replace. */
  lemma {:induction false} ChunksAreFree(s: string, needle: string, p: nat, k: nat, i: nat)
    requires needle != "" && p <= |s| && k < |Chunks(s, needle, p)|
    ensures !MatchesAt(Chunks(s, needle, p)[k], needle, i)
    decreases |s| - p
  {
    var q := Find(s, needle, p);
    if q < |s| && k > 0 {
      ChunksAreFree(s, needle, q + |needle|, k - 1, i);
    } else if p + i < q {
      FindIsFirst(s, needle, p);
      assert !MatchesAt(s, needle, p + i);
      assert forall k {:trigger needle[k]} :: 0 <= k < |needle| && p + i + k < q ==> s[p..q][i + k] == s[p + i + k];
      assert q == |s| ==> s[p..] == s[p..q];
    }
  }

  lemma CutAt(src: string, needle: string, p: nat, q: nat)
    requires p <= q && MatchesAt(src, needle, q)
    ensures src[p..] == src[p..q] + needle + src[q + |needle|..]
  {
    assert src[q..q + |needle|] == needle;
    assert src[p..] == src[p..q] + src[q..q + |needle|] + src[q + |needle|..];
  }

  lemma {:induction false} ReplaceLength(s: string, needle: string, value: string, p: nat)
    requires needle != "" && p <= |s|
    ensures |ReplaceFrom(s, needle, value, p)| == |s| - p + Occurrences(s, needle, p) * (|value| - |needle|)
    decreases |s| - p
  {
    var q := Find(s, needle, p);
    if q < |s| {
      ReplaceLength(s, needle, value, q + |needle|);
      OneMore(Occurrences(s, needle, q + |needle|), |value| - |needle|);
    }
  }

  lemma OneMore(k: nat, d: int)
    ensures (1 + k) * d == d + k * d
  {}

  /** Substituting in a tail is substituting from its start on. */
  lemma {:induction false} ReplaceInTail(s: string, needle: string, value: string, p: nat, t: string, i: nat)
    requires IsTail(s, p, t) && i <= |t| && needle != ""
    ensures ReplaceFrom(s, needle, value, p + i) == ReplaceFrom(t, needle, value, i)
    decreases |t| - i
  {
    FindInTail(s, needle, p, t, i);
    var q, r := Find(t, needle, i), Find(s, needle, p + i);
    if q < |t| {
      ReplaceInTail(s, needle, value, p, t, q + |needle|);
      SliceOfTail(s, p, t, i, q);
      assert r == p + q && r + |needle| == p + (q + |needle|);
      SameStep(s, p + i, t, i, needle, value);
    } else {
      RestOfTail(s, p, t, i);
    }
  }

  lemma RestOfTail(s: string, p: nat, t: string, i: nat)
    requires IsTail(s, p, t) && i <= |t|
    ensures t[i..] == s[p + i..]
  {}

  lemma SameStep(s: string, p: nat, t: string, i: nat, needle: string, value: string)
    requires p <= |s| && i <= |t| && needle != ""
    requires Find(s, needle, p) < |s| && Find(t, needle, i) < |t|
    requires var q, r := Find(s, needle, p), Find(t, needle, i);
             s[p..q] == t[i..r] && ReplaceFrom(s, needle, value, q + |needle|) == ReplaceFrom(t, needle, value, r + |needle|)
    ensures ReplaceFrom(s, needle, value, p) == ReplaceFrom(t, needle, value, i)
  {}

  /** Computing with size_t: the difference of the two lengths wraps around when the value is the shorter one, and the
      product and the sum wrap back. */
  lemma WrappedLength(len: nat, count: nat, d: int, m: int)
    requires -m < d < m && 0 <= len + count * d < m
    ensures (len + count * (d % m) % m) % m == len + count * d
  {
    var exact := len + count * d;
    if d >= 0 {
      SmallMod(d, m);
      ModOfSum(len, count * d, m);
    } else {
      AddModulus(d, m);
      SmallMod(d + m, m);
      assert count * (d + m) == count * d + count * m;
      ModOfSum(len, count * (d + m), m);
      ModOfMultiple(exact, count, m);
    }
    SmallMod(exact, m);
  }

  lemma SmallMod(a: nat, m: nat)
    requires a < m
    ensures a % m == a
  {}

  lemma ModOfSum(a: nat, b: nat, m: nat)
    requires m > 0
    ensures (a + b % m) % m == (a + b) % m
  {
    var q := b / m;
    assert b == b % m + q * m;
    ModOfMultiple(a + b % m, q, m);
  }

  lemma {:induction false} ModOfMultiple(a: int, q: nat, m: nat)
    requires m > 0
    ensures (a + q * m) % m == a % m
  {
    if q > 0 {
      ModOfMultiple(a, q - 1, m);
      assert a + q * m == (a + (q - 1) * m) + m;
      AddModulus(a + (q - 1) * m, m);
    }
  }

  lemma AddModulus(a: int, m: nat)
    requires m > 0
    ensures (a + m) % m == a % m
  {
    var x, y := (a + m) / m, a / m;
    assert a + m == x * m + (a + m) % m && a == y * m + a % m;
    var d := x - y - 1;
    assert d * m == a % m - (a + m) % m;
    Grows(d, m);
  }

  lemma Grows(d: int, m: int)
    requires m > 0
    ensures (d >= 1 ==> d * m >= m) && (d <= -1 ==> d * m <= -m)
  {}

  method CountOccurrences(src: string, needle: string) returns (count: nat)
    requires needle != ""
    ensures count == Occurrences(src, needle, 0)
  {
    count := 0;
    var p := 0;
    while true
      invariant p <= |src| && count + Occurrences(src, needle, p) == Occurrences(src, needle, 0)
      decreases |src| - p
    {
      var q := Find(src, needle, p);
      if q == |src| { return; }
      count := count + 1;
      p := q + |needle|;
    }
  }

  /** Fills the buffer front to back; every byte is written, the terminator last. */
  method Fill(src: string, needle: string, value: string, out: array<char>)
    requires needle != "" && out.Length == |Replace(src, needle, value)| + 1
    modifies out
    ensures out[..] == Replace(src, needle, value) + ['\0']
  {
    ghost var result := Replace(src, needle, value);
    var w: nat := 0;
    var p: nat := 0;
    while true
      invariant p <= |src| && w <= |result|
      invariant result[w..] == ReplaceFrom(src, needle, value, p) && out[..w] == result[..w]
      decreases |src| - p
    {
      var q := Find(src, needle, p);
      if q == |src| { break; }
      w := Append(out, w, src[p..q] + value, ReplaceFrom(src, needle, value, q + |needle|), result);
      p := q + |needle|;
    }
    assert src[p..] + "" == src[p..];
    w := Append(out, w, src[p..], "", result);
    Terminate(out, result);
  }

  lemma Peel(s: string, w: nat, head: string, tail: string)
    requires w <= |s| && s[w..] == head + tail
    ensures w + |head| <= |s| && s[w..w + |head|] == head && s[w + |head|..] == tail
  {
    assert s[w..][..|head|] == head && s[w..][|head|..] == tail;
  }

  /** memcpy of the next piece of a result whose first `w` bytes are in place. */
  method Append(out: array<char>, w: nat, text: string, ghost rest: string, ghost result: string) returns (end: nat)
    requires |result| < out.Length && w <= |result| && result[w..] == text + rest && out[..w] == result[..w]
    modifies out
    ensures w <= end <= |result| && end == w + |text| && out[..end] == result[..end] && result[end..] == rest
  {
    Peel(result, w, text, rest);
    end := w + |text|;
    CopyTo(out, w, text);
    assert result[..end] == result[..w] + result[w..end];
  }

  method Terminate(out: array<char>, ghost result: string)
    requires |result| + 1 == out.Length && out[..|result|] == result
    modifies out
    ensures out[..] == result + ['\0']
  {
    out[out.Length - 1] := '\0';
    assert out[..] == out[..|result|] + [out[|result|]];
  }

  /** Counts the occurrences, allocates what the result needs and fills it exactly. */
  method ReplaceAll(src: string, needle: string, value: string) returns (out: array<char>)
    requires needle != "" && |src| < SIZE_T && |needle| < SIZE_T && |value| < SIZE_T
    requires |Replace(src, needle, value)| + 1 < SIZE_T
    ensures fresh(out) && out[..] == Replace(src, needle, value) + ['\0']
  {
    var count := CountOccurrences(src, needle);
    ReplaceLength(src, needle, value, 0);
    WrappedLength(|src|, count, |value| - |needle|, SIZE_T);
    var outlen := (|src| + count * ((|value| - |needle|) % SIZE_T) % SIZE_T) % SIZE_T;
    out := new char[outlen + 1](_ => ' ');
    Fill(src, needle, value, out);
  }

  /** memcpy. */
  method CopyTo(out: array<char>, at: nat, text: string)
    requires at + |text| <= out.Length
    modifies out
    ensures out[..at + |text|] == old(out[..at]) + text
    ensures out[at + |text|..] == old(out[at + |text|..])
  {
    for i := 0 to |text|
      invariant out[..at + i] == old(out[..at]) + text[..i]
      invariant out[at + i..] == old(out[at + i..])
    {
      out[at + i] := text[i];
      assert old(out[at + i..])[1..] == old(out[at + i + 1..]);
    }
    assert text[..|text|] == text;
  }

  // ---- the passes -------------------------------------------------------------------------------------------

  datatype Piece = Text(text: string) | Token(k: nat)

  /** Two opening braces in a row at `i`. */
  predicate BracesAt(s: string, i: nat) { i + 1 < |s| && s[i] == '{' && s[i + 1] == '{' }

  predicate NoPair(s: string) { forall i :: 0 <= i < |s| ==> !BracesAt(s, i) }

  /** Neither two opening braces in a row nor one at the front. */
  predicate Tame(s: string) { (s != "" ==> s[0] != '{') && NoPair(s) }

  /** A placeholder: two opening braces, at the front only, and no brace that could join in. */
  predicate IsToken(t: string) {
    && |t| >= 3 && BracesAt(t, 0) && t[2] != '{' && t[|t| - 1] != '{'
    && forall i :: 0 < i < |t| ==> !BracesAt(t, i)
  }

  predicate GoodTokens(tokens: seq<string>) {
    && (forall k :: 0 <= k < |tokens| ==> IsToken(tokens[k]))
    && (forall j, k :: 0 <= j < |tokens| && 0 <= k < |tokens| && j != k ==> !(tokens[j] <= tokens[k]))
  }

  predicate GoodPieces(pieces: seq<Piece>, tokens: seq<string>) {
    forall i :: 0 <= i < |pieces| ==> match pieces[i] case Text(t) => NoPair(t) case Token(k) => k < |tokens|
  }

  predicate GoodValues(values: seq<string>, tokens: seq<string>) {
    |values| == |tokens| && forall k :: 0 <= k < |values| ==> NoPair(values[k])
  }

  function Show(p: Piece, tokens: seq<string>, values: seq<string>, n: nat): string
    requires |values| == |tokens| && (p.Token? ==> p.k < |tokens|)
  {
    match p
    case Text(t) => t
    case Token(k) => if k < n then values[k] else tokens[k]
  }

  /** The template with the first `n` placeholders filled in, all at once. */
  function Filled(pieces: seq<Piece>, tokens: seq<string>, values: seq<string>, n: nat): string
    requires GoodPieces(pieces, tokens) && |values| == |tokens|
  {
    if pieces == [] then "" else Show(pieces[0], tokens, values, n) + Filled(pieces[1..], tokens, values, n)
  }

  /** Whether the text so far ends in a brace, once `a` has been added. */
  predicate Opens(open: bool, a: string) { if a == "" then open else a[|a| - 1] == '{' }

  /** Where the parts of the filled text meet, no brace follows a brace; `open` says whether one stands in front. */
  predicate Junctions(pieces: seq<Piece>, tokens: seq<string>, values: seq<string>, open: bool)
    requires GoodPieces(pieces, tokens) && |values| == |tokens|
  {
    pieces == [] || (var a := Show(pieces[0], tokens, values, |tokens|);
                     && (open && a != "" ==> a[0] != '{')
                     && Junctions(pieces[1..], tokens, values, Opens(open, a)))
  }

  /** The condition on the junctions says exactly that the filled text has no two braces in a row. */
  lemma {:induction false} JunctionsExactly(pieces: seq<Piece>, tokens: seq<string>, values: seq<string>, open: bool)
    requires GoodPieces(pieces, tokens) && GoodValues(values, tokens)
    ensures var s := Filled(pieces, tokens, values, |tokens|);
      Junctions(pieces, tokens, values, open) <==> NoPair(s) && (open && s != "" ==> s[0] != '{')
  {
    if pieces != [] {
      var a, b := Show(pieces[0], tokens, values, |tokens|), Filled(pieces[1..], tokens, values, |tokens|);
      JunctionsExactly(pieces[1..], tokens, values, Opens(open, a));
      PairsOfJoin(a, b);
      if a == "" { assert a + b == b; }
    }
  }

  lemma PairsOfJoin(a: string, b: string)
    requires NoPair(a)
    ensures NoPair(a + b) <==> NoPair(b) && (a != "" && b != "" && a[|a| - 1] == '{' ==> b[0] != '{')
  {
    var s := a + b;
    forall i | 0 <= i < |b| ensures BracesAt(b, i) <==> BracesAt(s, |a| + i) {}
    forall i | 0 <= i < |a| ensures BracesAt(s, i) <==> i == |a| - 1 && b != "" && a[i] == '{' && b[0] == '{' {
      assert !BracesAt(a, i);
    }
    if NoPair(s) && a != "" && b != "" { assert !BracesAt(s, |a| - 1); }
    if !NoPair(s) {
      var i :| 0 <= i < |s| && BracesAt(s, i);
      if i >= |a| { assert BracesAt(b, i - |a|); }
    }
  }

  /** A text that starts with no brace, or with a whole placeholder. */
  predicate Settled(s: string) { s == "" || s[0] != '{' || (|s| >= 3 && s[1] == '{' && s[2] != '{') }

  /** So does what follows a brace, however many placeholders have been filled in. */
  lemma {:induction false} FilledSettled(pieces: seq<Piece>, tokens: seq<string>, values: seq<string>, n: nat)
    requires GoodTokens(tokens) && GoodPieces(pieces, tokens) && GoodValues(values, tokens) && n <= |tokens|
    requires Junctions(pieces, tokens, values, true)
    ensures Settled(Filled(pieces, tokens, values, n))
  {
    if pieces != [] {
      var a, b := Show(pieces[0], tokens, values, n), Filled(pieces[1..], tokens, values, n);
      if a == "" {
        FilledSettled(pieces[1..], tokens, values, n);
        assert a + b == b;
      }
    }
  }

  /** The needle does not begin inside `a`: whatever follows, it is left standing. */
  lemma ReplaceSkips(a: string, b: string, needle: string, value: string)
    requires needle != "" && forall i :: 0 <= i < |a| ==> !MatchesAt(a + b, needle, i)
    ensures Replace(a + b, needle, value) == a + Replace(b, needle, value)
  {
    var s, q := a + b, Find(a + b, needle, |a|);
    FindMatches(s, needle, |a|);
    FindIsFirst(s, needle, |a|);
    FoundFirst(s, needle, 0, q);
    ReplaceInTail(s, needle, value, |a|, b, 0);
    NoneBefore(s, needle, value, |a|);
    assert s[..|a|] == a;
  }

  lemma NoneBefore(s: string, needle: string, value: string, m: nat)
    requires needle != "" && m <= |s| && Find(s, needle, 0) == Find(s, needle, m)
    ensures Replace(s, needle, value) == s[..m] + ReplaceFrom(s, needle, value, m)
  {
    var q := Find(s, needle, m);
    if q < |s| {
      NoneBeforeMatch(s, needle, value, m, q, ReplaceFrom(s, needle, value, q + |needle|));
    } else {
      assert s[0..] == s[..m] + s[m..];
    }
  }

  lemma NoneBeforeMatch(s: string, needle: string, value: string, m: nat, q: nat, rest: string)
    requires needle != "" && m <= q < |s| && Find(s, needle, 0) == q && Find(s, needle, m) == q
    requires q + |needle| <= |s| && rest == ReplaceFrom(s, needle, value, q + |needle|)
    ensures ReplaceFrom(s, needle, value, 0) == s[..m] + ReplaceFrom(s, needle, value, m)
  {
    var head, mid := s[..m], s[m..q];
    assert s[0..q] == head + mid;
    Regroup(head, mid, value, rest);
  }

  lemma Regroup(a: string, b: string, c: string, d: string)
    ensures a + b + c + d == a + (b + c + d)
  {}

  lemma ReplaceHits(needle: string, b: string, value: string)
    requires needle != ""
    ensures Replace(needle + b, needle, value) == value + Replace(b, needle, value)
  {
    var s := needle + b;
    assert MatchesAt(s, needle, 0);
    ReplaceInTail(s, needle, value, |needle|, b, 0);
  }

  /** Where a placeholder matches there are exactly two braces. */
  lemma TwoBraces(s: string, token: string, i: nat)
    requires IsToken(token)
    ensures MatchesAt(s, token, i) ==> BracesAt(s, i) && i + 2 < |s| && s[i + 2] != '{'
  {
    if MatchesAt(s, token, i) { assert s[i + 0] == token[0] && s[i + 1] == token[1] && s[i + 2] == token[2]; }
  }

  lemma MatchAtFront(a: string, b: string, needle: string)
    ensures MatchesAt(a + b, needle, 0) ==> a <= needle || needle <= a
  {
    var s := a + b;
    if MatchesAt(s, needle, 0) {
      assert forall k :: 0 <= k < |needle| ==> s[0 + k] == needle[k];
      assert forall k :: 0 <= k < |a| ==> s[k] == a[k];
    }
  }

  lemma NoMatchInText(a: string, b: string, needle: string)
    requires NoPair(a) && (Opens(false, a) ==> Settled(b)) && IsToken(needle)
    ensures forall i :: 0 <= i < |a| ==> !MatchesAt(a + b, needle, i)
  {
    var s := a + b;
    forall i | 0 <= i < |a| ensures !MatchesAt(s, needle, i) {
      assert !BracesAt(a, i);
      TwoBraces(s, needle, i);
    }
  }

  lemma NoMatchInToken(a: string, b: string, needle: string)
    requires IsToken(a) && IsToken(needle) && !(a <= needle) && !(needle <= a)
    ensures forall i :: 0 <= i < |a| ==> !MatchesAt(a + b, needle, i)
  {
    var s := a + b;
    forall i | 0 <= i < |a| ensures !MatchesAt(s, needle, i) {
      if i == 0 {
        MatchAtFront(a, b, needle);
      } else {
        assert !BracesAt(a, i);
        TwoBraces(s, needle, i);
      }
    }
  }

  /** One pass fills in exactly one more placeholder. */
  lemma {:induction false} OnePass(pieces: seq<Piece>, tokens: seq<string>, values: seq<string>, n: nat, open: bool)
    requires GoodTokens(tokens) && GoodPieces(pieces, tokens) && GoodValues(values, tokens) && n < |tokens|
    requires Junctions(pieces, tokens, values, open)
    ensures Replace(Filled(pieces, tokens, values, n), tokens[n], values[n]) == Filled(pieces, tokens, values, n + 1)
  {
    var needle, value := tokens[n], values[n];
    if pieces != [] {
      var a, b := Show(pieces[0], tokens, values, n), Filled(pieces[1..], tokens, values, n);
      OnePass(pieces[1..], tokens, values, n, Opens(open, Show(pieces[0], tokens, values, |tokens|)));
      if pieces[0] == Token(n) {
        ReplaceHits(needle, b, value);
      } else {
        if pieces[0].Token? && pieces[0].k >= n {
          assert !(tokens[n] <= tokens[pieces[0].k]) && !(tokens[pieces[0].k] <= tokens[n]);
          NoMatchInToken(a, b, needle);
        } else {
          if Opens(false, a) { FilledSettled(pieces[1..], tokens, values, n); }
          NoMatchInText(a, b, needle);
        }
        ReplaceSkips(a, b, needle, value);
      }
    }
  }

  /** The passes, one after the other, each on the output of the one before. */
  function Passes(s: string, tokens: seq<string>, values: seq<string>, n: nat): string
    requires GoodTokens(tokens) && |values| == |tokens| && n <= |tokens|
  {
    if n == 0 then s else Replace(Passes(s, tokens, values, n - 1), tokens[n - 1], values[n - 1])
  }

  /** All passes together equal one simultaneous substitution, and leave no placeholder behind. */
  lemma {:induction false} PassesAreSimultaneous(pieces: seq<Piece>, tokens: seq<string>, values: seq<string>, n: nat)
    requires GoodTokens(tokens) && GoodPieces(pieces, tokens) && GoodValues(values, tokens) && n <= |tokens|
    requires Junctions(pieces, tokens, values, false)
    ensures Passes(Filled(pieces, tokens, values, 0), tokens, values, n) == Filled(pieces, tokens, values, n)
  {
    if n > 0 {
      PassesAreSimultaneous(pieces, tokens, values, n - 1);
      OnePass(pieces, tokens, values, n - 1, false);
    }
  }

  /** Together: the passes fill the template all at once and leave no two braces in a row, exactly if no two braces meet.
      Without the second half more templates pass: a brace pair that no placeholder starts with does no harm. */
  lemma PassesExactly(pieces: seq<Piece>, tokens: seq<string>, values: seq<string>)
    requires GoodTokens(tokens) && GoodPieces(pieces, tokens) && GoodValues(values, tokens)
    ensures var filled := Filled(pieces, tokens, values, |tokens|);
            Passes(Filled(pieces, tokens, values, 0), tokens, values, |tokens|) == filled && NoPair(filled)
            <==> Junctions(pieces, tokens, values, false)
  {
    JunctionsExactly(pieces, tokens, values, false);
    if Junctions(pieces, tokens, values, false) { PassesAreSimultaneous(pieces, tokens, values, |tokens|); }
  }

  lemma NothingLeft(pieces: seq<Piece>, tokens: seq<string>, values: seq<string>)
    requires GoodTokens(tokens) && GoodPieces(pieces, tokens) && GoodValues(values, tokens)
    requires Junctions(pieces, tokens, values, false)
    ensures var s := Filled(pieces, tokens, values, |tokens|);
            NoPair(s) && forall k, i :: 0 <= k < |tokens| && 0 <= i ==> !MatchesAt(s, tokens[k], i)
  {
    JunctionsExactly(pieces, tokens, values, false);
    var s := Filled(pieces, tokens, values, |tokens|);
    forall k, i | 0 <= k < |tokens| && 0 <= i ensures !MatchesAt(s, tokens[k], i) {
      TwoBraces(s, tokens[k], i);
    }
  }

  // ---- the placeholders ---------------------------------------------------------------------------------------

  /** In the order of the passes. */
  const NAMES := ["LAN_MATCH", "EGRESS_INTERFACE", "LAN_LIST", "ROUTING_TABLE", "LOG_ERROR", "LOG_INFO", "LOG_DEBUG",
                  "ACCURACY_PROFILE"]

  predicate Braceless(s: string) { forall i :: 0 <= i < |s| ==> s[i] != '{' && s[i] != '}' }

  function Placeholder(name: string): string { "{{" + name + "}}" }

  function Placeholders(names: seq<string>): (tokens: seq<string>)
    ensures |tokens| == |names| && forall k :: 0 <= k < |names| ==> tokens[k] == Placeholder(names[k])
  {
    if names == [] then [] else [Placeholder(names[0])] + Placeholders(names[1..])
  }

  lemma PlaceholderIsToken(name: string)
    requires name != "" && Braceless(name)
    ensures IsToken(Placeholder(name))
  {
    var t := Placeholder(name);
    assert t[2] == name[0];
    forall i | 0 < i < |t| ensures !BracesAt(t, i) {
      if i + 1 < |t| { assert 2 <= i + 1 < 2 + |name| ==> t[i + 1] == name[i - 1]; }
    }
  }

  lemma PlaceholdersApart(a: string, b: string)
    requires Braceless(a) && Braceless(b) && Placeholder(a) <= Placeholder(b)
    ensures a == b
  {
    var s, t := Placeholder(a), Placeholder(b);
    assert forall k :: 0 <= k < |s| ==> s[k] == t[k];
    assert s[2 + |a|] == '}';
    assert forall k :: 0 <= k < |a| ==> s[2 + k] == a[k];
    assert forall k :: 0 <= k < |b| ==> t[2 + k] == b[k];
    forall j | 2 <= j < 2 + |a| ensures s[j] != '}' { assert s[j] == a[j - 2]; }
    forall j | 2 <= j < 2 + |b| ensures t[j] != '}' { assert t[j] == b[j - 2]; }
    assert t[2 + |a|] == '}' && t[2 + |b|] == '}';
    assert |a| == |b|;
  }

  lemma NamesAreGood()
    ensures forall k :: 0 <= k < |NAMES| ==> NAMES[k] != "" && Braceless(NAMES[k])
    ensures forall j, k :: 0 <= j < k < |NAMES| ==> NAMES[j] != NAMES[k]
  {
    assert NAMES[0][0] == 'L' && NAMES[0][1] == 'A' && NAMES[4][1] == 'O' && NAMES[6][4] == 'D' && NAMES[4][4] == 'E';
    assert NAMES[2][1] == 'A' && NAMES[5][1] == 'O' && NAMES[1][0] == 'E' && NAMES[7][0] == 'A';
  }

  /** The eight placeholders meet what the simultaneity theorem asks of them. */
  lemma PlaceholdersAreGood()
    ensures GoodTokens(Placeholders(NAMES))
  {
    NamesAreGood();
    var tokens := Placeholders(NAMES);
    forall k | 0 <= k < |tokens| ensures IsToken(tokens[k]) { PlaceholderIsToken(NAMES[k]); }
    forall j, k | 0 <= j < |tokens| && 0 <= k < |tokens| && j != k ensures !(tokens[j] <= tokens[k]) {
      if tokens[j] <= tokens[k] { PlaceholdersApart(NAMES[j], NAMES[k]); }
    }
  }

  /** Where two braces meet the passes can go wrong. A value that begins with one, behind a literal that ends in one,
      forms the next placeholder, which the next pass replaces although the template never had it. */
  lemma BraceCounterexample()
    ensures var a, b := Placeholder("A"), Placeholder("B");
            && Replace(Replace("x{" + a, a, "{B}}"), b, "v") == "xv"
            && "x{" + "{B}}" == "x" + b
  {
    var a, b := Placeholder("A"), Placeholder("B");
    OneHit("x{", a, "{B}}");
    OneHit("x", b, "v");
    assert "x{" + "{B}}" == "x" + b;
  }

  /** So does a value that ends in a brace in front of a literal that begins with one (`text` is "x" or empty), and an
      empty value between two such literals (`text` is "x{"). */
  lemma JunctionCounterexample(text: string, value: string)
    requires text + value == "x{"
    ensures var pieces := [Text(text), Token(0), Text("{B}}")];
            var tokens, values := [Placeholder("A"), Placeholder("B")], [value, "v"];
            && GoodTokens(tokens) && GoodPieces(pieces, tokens) && GoodValues(values, tokens)
            && !Junctions(pieces, tokens, values, false)
            && Filled(pieces, tokens, values, 2) == "x" + Placeholder("B")
            && Passes(Filled(pieces, tokens, values, 0), tokens, values, 2) == "xv"
  {
    TwoTokens();
    HalvesHaveNoPair(text, value);
    JoinedText(text, value);
    MeetingBraces(text, "{B}}", [Placeholder("A"), Placeholder("B")], [value, "v"]);
  }

  lemma JoinedText(text: string, value: string)
    requires text + value == "x{"
    ensures var s, b := text + (value + "{B}}"), Placeholder("B");
      s == "x" + b && !NoPair(s) && Replace(s, b, "v") == "xv"
  {
    var s := text + (value + "{B}}");
    assert s == text + value + "{B}}" && BracesAt(s, 1);
    OneHit("x", Placeholder("B"), "v");
  }

  /** Two passes over a template of three pieces whose filled text has two braces in a row. */
  lemma MeetingBraces(text: string, rest: string, tokens: seq<string>, values: seq<string>)
    requires |values| == |tokens| == 2 && GoodTokens(tokens) && GoodValues(values, tokens)
    requires NoPair(text) && NoPair(rest) && !Opens(false, rest) && !NoPair(text + (values[0] + rest))
    ensures var pieces := [Text(text), Token(0), Text(rest)];
            && GoodPieces(pieces, tokens) && !Junctions(pieces, tokens, values, false)
            && Filled(pieces, tokens, values, 2) == text + (values[0] + rest)
            && Passes(Filled(pieces, tokens, values, 0), tokens, values, 2)
               == Replace(text + (values[0] + rest), tokens[1], values[1])
  {
    ThreePieces(text, rest, tokens, values, 0);
    ThreePieces(text, rest, tokens, values, 2);
    JunctionsExactly([Text(text), Token(0), Text(rest)], tokens, values, false);
    HitInside(text, tokens[0], rest, values[0]);
    assert Passes(text + (tokens[0] + rest), tokens, values, 1) == text + (values[0] + rest);
  }

  lemma TwoTokens()
    ensures GoodTokens([Placeholder("A"), Placeholder("B")]) && NoPair("{B}}") && !Opens(false, "{B}}")
  {
    PlaceholderIsToken("A");
    PlaceholderIsToken("B");
    assert Placeholder("A")[2] != Placeholder("B")[2];
  }

  lemma HalvesHaveNoPair(a: string, b: string)
    requires a + b == "x{"
    ensures NoPair(a) && GoodValues([b, "v"], [Placeholder("A"), Placeholder("B")])
  {
    var s := a + b;
    forall i | 0 <= i < |a| ensures !BracesAt(a, i) { assert a[i] == s[i]; }
    forall i | 0 <= i < |b| ensures !BracesAt(b, i) { assert b[i] == s[|a| + i]; }
  }

  lemma ThreePieces(text: string, rest: string, tokens: seq<string>, values: seq<string>, n: nat)
    requires |values| == |tokens| == 2 && NoPair(text) && NoPair(rest)
    ensures var pieces := [Text(text), Token(0), Text(rest)];
      GoodPieces(pieces, tokens) &&
      Filled(pieces, tokens, values, n) == text + ((if 0 < n then values[0] else tokens[0]) + rest)
  {
    var p0, p1, p2 := [Text(text), Token(0), Text(rest)], [Token(0), Text(rest)], [Text(rest)];
    assert GoodPieces(p0, tokens) && GoodPieces(p1, tokens) && GoodPieces(p2, tokens);
    assert p0[1..] == p1 && p1[1..] == p2 && p2[1..] == [];
    assert Filled(p2, tokens, values, n) == rest;
    assert Filled(p1, tokens, values, n) == Show(Token(0), tokens, values, n) + rest;
  }

  /** The placeholder stands between two texts. */
  lemma HitInside(text: string, token: string, rest: string, value: string)
    requires IsToken(token) && NoPair(text) && NoPair(rest) && !Opens(false, rest)
    ensures Replace(text + (token + rest), token, value) == text + (value + rest)
  {
    NoMatchInText(text, token + rest, token);
    ReplaceSkips(text, token + rest, token, value);
    ReplaceHits(token, rest, value);
    NoMatchInText(rest, "", token);
    ReplaceSkips(rest, "", token, value);
    assert rest + "" == rest && Replace("", token, value) == "";
  }

  lemma OneHit(a: string, token: string, value: string)
    requires Tame(a) && exists name: string :: name != "" && Braceless(name) && token == Placeholder(name)
    ensures Replace(a + token, token, value) == a + value
  {
    var name :| name != "" && Braceless(name) && token == Placeholder(name);
    PlaceholderIsToken(name);
    NoMatchInText(a, token, token);
    ReplaceSkips(a, token, token, value);
    ReplaceHits(token, "", value);
    assert token + "" == token && value + "" == value;
    assert Replace("", token, value) == "";
  }

  // ---- the LAN test ---------------------------------------------------------------------------------------------

  datatype Net = Net(network: string, prefix: nat)

  function Pow2(n: nat): (r: nat)
    ensures r > 0
  {
    if n == 0 then 1 else 2 * Pow2(n - 1)
  }

  /** The mask of a prefix length, as a 32-bit number. */
  function Mask(prefix: nat): int
    requires prefix <= 32
  {
    Pow2(32) - Pow2(32 - prefix)
  }

  function Octet(m: int, shift: nat): nat { (m / Pow2(shift)) % 256 }

  function MaskText(prefix: nat): string
    requires prefix <= 32
  {
    var m := Mask(prefix);
    PortText(Octet(m, 24)) + "." + PortText(Octet(m, 16)) + "." + PortText(Octet(m, 8)) + "." + PortText(Octet(m, 0))
  }

  /** What the address callback stores: a prefix of at most 32 and a network text that fits its 64-byte field. */
  type LanNet = n: Net | n.prefix <= 32 && |n.network| <= 63 && Braceless(n.network) witness Net("", 0)

  const OPENING := ":local fromLAN false\n"
  const CONDITION := ":if ("
  const CLOSING := ") do={ :set fromLAN true }\n"

  function NetTest(n: LanNet): string { "(($src & " + MaskText(n.prefix) + ") = " + n.network + ")" }

  function Separator(i: nat): string { if i == 0 then "" else " || " }

  /** The first `n` entries as printed by `show`, with "or" between them. */
  function Alternatives(nets: seq<LanNet>, n: nat, show: LanNet -> string): string
    requires n <= |nets|
  {
    if n == 0 then "" else Alternatives(nets, n - 1, show) + Separator(n - 1) + show(nets[n - 1])
  }

  function Snippet(nets: seq<LanNet>): string {
    if nets == [] then OPENING else OPENING + CONDITION + Alternatives(nets, |nets|, NetTest) + CLOSING
  }

  lemma {:induction false} NumberText(v: nat, digits: nat)
    requires v < Pow10(digits) && digits > 0
    ensures |PortText(v)| <= digits && Braceless(PortText(v))
  {
    if v >= 10 { NumberText(v / 10, digits - 1); }
  }

  function Pow10(n: nat): nat { if n == 0 then 1 else 10 * Pow10(n - 1) }

  lemma OctetText(v: nat)
    requires v < 256
    ensures |PortText(v)| <= 3 && Braceless(PortText(v))
  {
    assert Pow10(3) == 10 * Pow10(2) && Pow10(2) == 10 * Pow10(1) && Pow10(1) == 10;
    NumberText(v, 3);
  }

  lemma MaskFits(prefix: nat)
    requires prefix <= 32
    ensures |MaskText(prefix)| <= 15 && Braceless(MaskText(prefix))
  {
    var m := Mask(prefix);
    OctetText(Octet(m, 24));
    OctetText(Octet(m, 16));
    OctetText(Octet(m, 8));
    OctetText(Octet(m, 0));
  }

  /** Short enough for its share of the buffer, and free of braces. */
  ghost predicate Fits(show: LanNet -> string) { forall n :: |show(n)| <= 92 && Braceless(show(n)) }

  lemma TestFits()
    ensures Fits(NetTest)
  {
    forall n: LanNet ensures |NetTest(n)| <= 92 && Braceless(NetTest(n)) { MaskFits(n.prefix); }
  }

  lemma BracelessJoin(a: string, b: string, c: string)
    requires Braceless(a) && Braceless(b) && Braceless(c)
    ensures Braceless(a + b + c)
  {}

  lemma {:induction false} AlternativesBraceless(nets: seq<LanNet>, n: nat, show: LanNet -> string)
    requires n <= |nets| && Fits(show)
    ensures Braceless(Alternatives(nets, n, show))
  {
    if n > 0 {
      AlternativesBraceless(nets, n - 1, show);
      BracelessJoin(Alternatives(nets, n - 1, show), Separator(n - 1), show(nets[n - 1]));
    }
  }

  /** snprintf at an offset: what does not fit is cut off, the length it would have had is returned. */
  method Print(buf: array<char>, used: nat, text: string) returns (n: nat)
    requires used < buf.Length
    modifies buf
    ensures n == |text|
    ensures used + n < buf.Length ==> buf[..used + n] == old(buf[..used]) + text && buf[used + n] == '\0'
  {
    n := |text|;
    var k := if used + n < buf.Length then n else buf.Length - used - 1;
    CopyTo(buf, used, text[..k]);
    buf[used + k] := '\0';
    assert used + n < buf.Length ==> text[..k] == text;
  }

  /** A piece that fits. */
  method Put(buf: array<char>, used: nat, text: string, ghost done: string) returns (end: nat)
    requires used + |text| < buf.Length && buf[..used] == done
    modifies buf
    ensures end == used + |text| && end < buf.Length && buf[..end] == done + text && buf[end] == '\0'
  {
    var n := Print(buf, used, text);
    end := used + n;
  }

  method PutNext(buf: array<char>, used: nat, i: nat, text: string, ghost done: string) returns (end: nat)
    requires used + 4 + |text| < buf.Length && buf[..used] == done
    modifies buf
    ensures end <= used + 4 + |text| && buf[..end] == done + Separator(i) + text
  {
    end := used;
    assert done + "" == done;
    if i > 0 { end := Put(buf, end, " || ", done); }
    end := Put(buf, end, text, done + Separator(i));
  }

  /** The entries, each but the first after a separator. */
  method PutAll(buf: array<char>, start: nat, nets: seq<LanNet>, show: LanNet -> string, ghost head: string)
      returns (used: nat)
    requires Fits(show) && start + 96 * |nets| < buf.Length && buf[..start] == head
    modifies buf
    ensures used <= start + 96 * |nets| && buf[..used] == head + Alternatives(nets, |nets|, show)
  {
    used := start;
    for i := 0 to |nets|
      invariant used <= start + 96 * i && buf[..used] == head + Alternatives(nets, i, show)
    {
      var text := show(nets[i]);
      Regroup(head, Alternatives(nets, i, show), Separator(i), text);
      used := PutNext(buf, used, i, text, head + Alternatives(nets, i, show));
    }
  }

  lemma FixedLengths()
    ensures |OPENING| == 21 && |OPENING + CONDITION| == 26 && |CLOSING| == 27
  {}

  /** The buffer of 256 bytes and 128 more for each network is never too small. */
  method LanMatchSnippet(nets: seq<LanNet>) returns (buf: array<char>)
    ensures fresh(buf) && var s := Snippet(nets); |s| < buf.Length && buf[..|s|] == s && buf[|s|] == '\0'
  {
    FixedLengths();
    TestFits();
    buf := new char[256 + |nets| * 128](_ => '\0');
    var used := Put(buf, 0, OPENING, "");
    if |nets| == 0 { return; }
    used := Put(buf, used, CONDITION, OPENING);
    used := PutAll(buf, used, nets, NetTest, OPENING + CONDITION);
    used := Put(buf, used, CLOSING, OPENING + CONDITION + Alternatives(nets, |nets|, NetTest));
  }

  /** The rendered LAN test is a value the simultaneity theorem accepts. */
  lemma SnippetIsTame(nets: seq<LanNet>)
    ensures Tame(Snippet(nets))
  {
    FixedParts();
    TestFits();
    AlternativesBraceless(nets, |nets|, NetTest);
    if nets != [] { TameJoin(OPENING, CONDITION, Alternatives(nets, |nets|, NetTest), CLOSING); }
  }

  lemma FixedParts()
    ensures OPENING != "" && Braceless(OPENING) && Braceless(CONDITION) && Tame(OPENING) && Tame(CLOSING)
  {
    assert CLOSING[5] == '{' && CLOSING[6] == ' ';
  }

  lemma TameJoin(a: string, b: string, c: string, d: string)
    requires a != "" && Braceless(a) && Braceless(b) && Braceless(c) && Tame(d)
    ensures Tame(a + b + c + d)
  {
    BracelessJoin(a, b, c);
    var front := a + b + c;
    forall i | 0 <= i < |front + d| ensures !BracesAt(front + d, i) {
      if i >= |front| { assert !BracesAt(d, i - |front|); }
    }
  }
}
