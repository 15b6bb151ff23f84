/** The framing of the router API: words with a variable-length length prefix, sentences closed by an empty word, and
    the loops that push them through a socket that may accept or deliver any part of what it is asked for. */
module Wire {

  type Byte = b: int | 0 <= b < 256

  type Word = seq<Byte>

  type Sentence = seq<Word>

  datatype Option<+T> = None | Some(value: T)

  const MAX_WORDS := 128
  const UINT32 := 0x1_0000_0000

  // ---- length prefixes --------------------------------------------------------------------------------

  /** One to five bytes; the leading bits of the first say how many follow. */
  function EncodeLen(n: nat): (out: seq<Byte>)
    requires n < UINT32
    ensures 1 <= |out| <= 5
  {
    if n < 0x80 then [n]
    else if n < 0x4000 then
      var v := n + 0x8000; [v / 0x100, v % 0x100]
    else if n < 0x20_0000 then
      var v := n + 0xC0_0000; [v / 0x1_0000, v / 0x100 % 0x100, v % 0x100]
    else if n < 0x1000_0000 then
      var v := n + 0xE000_0000; [v / 0x100_0000, v / 0x1_0000 % 0x100, v / 0x100 % 0x100, v % 0x100]
    else [0xF0, n / 0x100_0000, n / 0x1_0000 % 0x100, n / 0x100 % 0x100, n % 0x100]
  }

  /** How many bytes the first one announces, itself included; 0 if it is no prefix. */
  function PrefixSize(b: Byte): nat {
    if b < 0x80 then 1 else if b < 0xC0 then 2 else if b < 0xE0 then 3 else if b < 0xF0 then 4
    else if b == 0xF0 then 5 else 0
  }

  /** The length a complete prefix denotes. */
  function PrefixValue(p: seq<Byte>): (n: nat)
    requires p != [] && |p| == PrefixSize(p[0])
    ensures n < UINT32
  {
    if |p| == 1 then p[0]
    else if |p| == 2 then (p[0] as int - 0x80) * 0x100 + p[1]
    else if |p| == 3 then (p[0] as int - 0xC0) * 0x1_0000 + p[1] as int * 0x100 + p[2]
    else if |p| == 4 then (p[0] as int - 0xE0) * 0x100_0000 + p[1] as int * 0x1_0000 + p[2] as int * 0x100 + p[3]
    else p[1] as int * 0x100_0000 + p[2] as int * 0x1_0000 + p[3] as int * 0x100 + p[4]
  }

  /** The program tests and sets the leading bits with masks; on the values concerned that is arithmetic. */
  lemma MasksAreArithmetic(b: bv8, n: bv32)
    ensures (b & 0x80 == 0) <==> b < 0x80
    ensures (b & 0xC0 == 0x80) <==> 0x80 <= b < 0xC0
    ensures (b & 0xE0 == 0xC0) <==> 0xC0 <= b < 0xE0
    ensures (b & 0xF0 == 0xE0) <==> 0xE0 <= b < 0xF0
    ensures 0x80 <= b < 0xC0 ==> b & 0x3F == b - 0x80
    ensures 0xC0 <= b < 0xE0 ==> b & 0x1F == b - 0xC0
    ensures 0xE0 <= b < 0xF0 ==> b & 0x0F == b - 0xE0
    ensures n < 0x4000 ==> n | 0x8000 == n + 0x8000
    ensures n < 0x20_0000 ==> n | 0xC0_0000 == n + 0xC0_0000
    ensures n < 0x1000_0000 ==> n | 0xE000_0000 == n + 0xE000_0000
  {}

  /** How many bytes the leading bits announce. */
  method Announced(b: Byte) returns (size: nat)
    ensures size == PrefixSize(b)
  {
    var w := b as bv8;
    MasksAreArithmetic(w, 0);
    size := if w & 0x80 == 0 then 1 else if w & 0xC0 == 0x80 then 2 else if w & 0xE0 == 0xC0 then 3
            else if w & 0xF0 == 0xE0 then 4 else if w == 0xF0 then 5 else 0;
  }

  lemma LenRoundTrip(n: nat)
    requires n < UINT32
    ensures PrefixSize(EncodeLen(n)[0]) == |EncodeLen(n)| && PrefixValue(EncodeLen(n)) == n
  {
    if n < 0x80 {} else if n < 0x4000 { TwoBytes(n); } else if n < 0x20_0000 { ThreeBytes(n); }
    else if n < 0x1000_0000 { FourBytes(n); } else { Bytes(n); }
  }

  lemma TwoBytes(n: nat)
    requires 0x80 <= n < 0x4000
    ensures var v := n + 0x8000;
            0x80 <= v / 0x100 < 0xC0 && (v / 0x100 - 0x80) * 0x100 + v % 0x100 == n
  {}

  lemma ThreeBytes(n: nat)
    requires 0x4000 <= n < 0x20_0000
    ensures var v := n + 0xC0_0000;
            && 0xC0 <= v / 0x1_0000 < 0xE0
            && (v / 0x1_0000 - 0xC0) * 0x1_0000 + v / 0x100 % 0x100 * 0x100 + v % 0x100 == n
  {
    Bytes(n + 0xC0_0000);
  }

  lemma FourBytes(n: nat)
    requires 0x20_0000 <= n < 0x1000_0000
    ensures var v := n + 0xE000_0000;
            && 0xE0 <= v / 0x100_0000 < 0xF0
            && (v / 0x100_0000 - 0xE0) * 0x100_0000 + v / 0x1_0000 % 0x100 * 0x1_0000 + v / 0x100 % 0x100 * 0x100 + v % 0x100 == n
  {
    Bytes(n + 0xE000_0000);
  }

  /** A number below 2^32 is the value of its four bytes. */
  lemma Bytes(v: nat)
    requires v < UINT32
    ensures v / 0x100_0000 < 0x100
    ensures v == v / 0x100_0000 * 0x100_0000 + v / 0x1_0000 % 0x100 * 0x1_0000 + v / 0x100 % 0x100 * 0x100 + v % 0x100
    ensures v < 0x100_0000 ==> v / 0x1_0000 == v / 0x1_0000 % 0x100
    ensures v < 0x1_0000 ==> v / 0x100 == v / 0x100 % 0x100
  {
    var a, b := v / 0x100, v / 0x1_0000;
    assert a / 0x100 == b && b / 0x100 == v / 0x100_0000;
  }

  /** Prefix-free: no length prefix starts with another one. */
  lemma PrefixFree(m: nat, n: nat, x: seq<Byte>)
    requires m < UINT32 && n < UINT32 && EncodeLen(m) + x == EncodeLen(n)
    ensures m == n && x == []
  {
    LenRoundTrip(m);
    LenRoundTrip(n);
    assert EncodeLen(n)[0] == EncodeLen(m)[0];
    assert |x| == 0;
    assert EncodeLen(m) + x == EncodeLen(m);
  }

  // ---- sentences ---------------------------------------------------------------------------------------

  function EncodeWord(w: Word): seq<Byte>
    requires |w| < UINT32
  {
    EncodeLen(|w|) + w
  }

  /** What the program can put into a sentence: words that are neither empty nor too long. */
  predicate Sendable(s: Sentence) { forall i :: 0 <= i < |s| ==> s[i] != [] && |s[i]| < UINT32 }

  function EncodeWords(s: Sentence): seq<Byte>
    requires Sendable(s)
  {
    if s == [] then [] else EncodeWord(s[0]) + EncodeWords(s[1..])
  }

  /** The words, then the empty word. */
  function EncodeSentence(s: Sentence): seq<Byte>
    requires Sendable(s)
  {
    EncodeWords(s) + EncodeLen(0)
  }

  /** Length and size of the prefix at the head of a stream. */
  function ReadLen(stream: seq<Byte>): Option<(nat, nat)> {
    if stream == [] then None
    else
      var k := PrefixSize(stream[0]);
      if k == 0 || |stream| < k then None else Some((PrefixValue(stream[..k]), k))
  }

  /** Words collected so far in front of what is still to be read. */
  function Joined(collected: Sentence, now: Option<(Sentence, seq<Byte>)>): Option<(Sentence, seq<Byte>)> {
    match now
    case None => None
    case Some((words, rest)) => Some((collected + words, rest))
  }

  /** The sentence at the head of a stream, after `count` words of it, and the rest of the stream. */
  function ReadSentence(stream: seq<Byte>, count: nat): Option<(Sentence, seq<Byte>)>
    decreases |stream|
  {
    match ReadLen(stream)
    case None => None
    case Some((n, k)) =>
      if n == 0 then Some(([], stream[k..]))
      else if count >= MAX_WORDS || |stream| - k < n then None
      else Joined([stream[k..k + n]], ReadSentence(stream[k + n..], count + 1))
  }

  lemma ReadLenOfEncoded(n: nat, rest: seq<Byte>)
    requires n < UINT32
    ensures ReadLen(EncodeLen(n) + rest) == Some((n, |EncodeLen(n)|))
  {
    LenRoundTrip(n);
    var p := EncodeLen(n);
    assert (p + rest)[..|p|] == p;
  }

  /** `part` is what stands at the head of a stream: nothing but the end, or the next word of a sentence. */
  predicate PartOf(before: seq<Byte>, count: nat, part: Word, after: seq<Byte>) {
    if part == [] then ReadSentence(before, count) == Some(([], after))
    else && count < MAX_WORDS && |after| < |before|
         && ReadSentence(before, count) == Joined([part], ReadSentence(after, count + 1))
  }

  lemma EndIsRead(stream: seq<Byte>, count: nat, k: nat)
    requires ReadLen(stream) == Some((0, k))
    ensures PartOf(stream, count, [], stream[k..])
  {}

  lemma NoRoom(stream: seq<Byte>, count: nat, n: nat, k: nat)
    requires ReadLen(stream) == Some((n, k)) && n > 0 && (count >= MAX_WORDS || |stream[k..]| < n)
    ensures ReadSentence(stream, count).None?
  {}

  lemma WordIsRead(stream: seq<Byte>, count: nat, n: nat, k: nat)
    requires ReadLen(stream) == Some((n, k)) && 0 < n <= |stream[k..]| && count < MAX_WORDS
    ensures PartOf(stream, count, stream[k..][..n], stream[k..][n..])
  {
    Slices(stream, k, n);
  }

  lemma Slices(stream: seq<Byte>, k: nat, n: nat)
    requires k + n <= |stream|
    ensures stream[k..][..n] == stream[k..k + n] && stream[k..][n..] == stream[k + n..]
  {}

  lemma ReadWord(w: Word, tail: seq<Byte>, count: nat)
    requires 0 < |w| < UINT32
    ensures ReadSentence(EncodeWord(w) + tail, count) ==
            if count >= MAX_WORDS then None else Joined([w], ReadSentence(tail, count + 1))
  {
    var p, stream := EncodeLen(|w|), EncodeWord(w) + tail;
    assert stream == p + (w + tail);
    ReadLenOfEncoded(|w|, w + tail);
    assert stream[|p|..|p| + |w|] == w && stream[|p| + |w|..] == tail;
  }

  lemma SentenceSplits(s: Sentence, rest: seq<Byte>)
    requires Sendable(s) && s != []
    ensures EncodeSentence(s) + rest == EncodeWord(s[0]) + (EncodeSentence(s[1..]) + rest)
  {}

  lemma ReadFirst(s: Sentence, rest: seq<Byte>, count: nat)
    requires Sendable(s) && s != []
    ensures ReadSentence(EncodeSentence(s) + rest, count) ==
            if count >= MAX_WORDS then None else Joined([s[0]], ReadSentence(EncodeSentence(s[1..]) + rest, count + 1))
  {
    SentenceSplits(s, rest);
    ReadWord(s[0], EncodeSentence(s[1..]) + rest, count);
  }

  lemma NothingButEnd(s: Sentence, rest: seq<Byte>)
    requires s == []
    ensures EncodeSentence(s) + rest == EncodeLen(0) + rest
  {
    assert EncodeSentence(s) == EncodeLen(0);
  }

  lemma ReadEnd(rest: seq<Byte>, count: nat)
    ensures ReadSentence(EncodeLen(0) + rest, count) == Some(([], rest))
  {
    ReadLenOfEncoded(0, rest);
    assert (EncodeLen(0) + rest)[|EncodeLen(0)|..] == rest;
  }

  /** Round trip: a sent sentence of at most 128 words is read back word for word, and the rest of the stream is
      left alone; a longer one is refused. */
  lemma SentenceRoundTrip(s: Sentence, rest: seq<Byte>)
    requires Sendable(s)
    ensures ReadSentence(EncodeSentence(s) + rest, 0) == if |s| <= MAX_WORDS then Some((s, rest)) else None
  {
    RoundTripFrom(s, rest, 0);
  }

  /** Read after `count` words, a sentence that still fits comes back whole, and one that does not is refused. */
  predicate ReadsBack(s: Sentence, rest: seq<Byte>, count: nat)
    requires Sendable(s)
  {
    ReadSentence(EncodeSentence(s) + rest, count) == if count + |s| <= MAX_WORDS then Some((s, rest)) else None
  }

  lemma {:induction false} RoundTripFrom(s: Sentence, rest: seq<Byte>, count: nat)
    requires Sendable(s) && count <= MAX_WORDS
    ensures ReadsBack(s, rest, count)
    decreases |s|
  {
    if s == [] {
      NothingButEnd(s, rest);
      ReadEnd(rest, count);
    } else {
      if count < MAX_WORDS { RoundTripFrom(s[1..], rest, count + 1); }
      OneWordMore(s, rest, count);
    }
  }

  lemma OneWordMore(s: Sentence, rest: seq<Byte>, count: nat)
    requires Sendable(s) && s != [] && count <= MAX_WORDS
    requires count < MAX_WORDS ==> ReadsBack(s[1..], rest, count + 1)
    ensures ReadsBack(s, rest, count)
  {
    ReadFirst(s, rest, count);
    assert [s[0]] + s[1..] == s;
  }

  // ---- the socket ----------------------------------------------------------------------------------------

  datatype Transfer = Moved(n: nat) | Interrupted | Failed

  method CopyIn(buf: array<Byte>, at: nat, data: seq<Byte>)
    requires at + |data| <= buf.Length
    modifies buf
    ensures buf[..] == old(buf[..at]) + data + old(buf[at + |data|..])
  {
    ghost var was := buf[..];
    for i := 0 to |data|
      invariant buf[..] == was[..at] + data[..i] + was[at + i..]
    {
      buf[at + i] := data[i];
    }
    assert data[..|data|] == data;
  }

  /** A stream socket. `incoming` is everything the peer will ever send, `outgoing` everything it has been sent. A
      sound socket fails only at the end of the stream; any socket is interrupted by finitely many signals. */
  class Socket {
    const sound: bool
    var incoming: seq<Byte>
    var outgoing: seq<Byte>
    var signals: nat

    constructor (sound: bool, incoming: seq<Byte>, signals: nat)
      ensures this.sound == sound && this.incoming == incoming && outgoing == [] && this.signals == signals
    {
      this.sound, this.incoming, this.signals, outgoing := sound, incoming, signals, [];
    }

    /** recv: any positive number of the bytes asked for, written to `buf` from `at` on. */
    method Recv(buf: array<Byte>, at: nat, len: nat) returns (t: Transfer)
      requires 0 < len && at + len <= buf.Length
      modifies this`incoming, this`signals, buf
      ensures t.Moved? ==>
                && 0 < t.n <= len && t.n <= |old(incoming)| && incoming == old(incoming)[t.n..] && signals == old(signals)
                && buf[..] == old(buf[..at]) + old(incoming)[..t.n] + old(buf[at + t.n..])
      ensures !t.Moved? ==> incoming == old(incoming) && buf[..] == old(buf[..])
      ensures t.Interrupted? ==> signals < old(signals)
      ensures t.Failed? ==> signals == old(signals)
      ensures sound && t.Failed? ==> incoming == []
    {
      var interrupt: bool := *;
      var fail: bool := *;
      var want: nat := *;
      if interrupt && signals > 0 {
        signals := signals - 1;
        return Interrupted;
      }
      if incoming == [] || (fail && !sound) { return Failed; }
      var n := if 0 < want <= len && want <= |incoming| then want else 1;
      CopyIn(buf, at, incoming[..n]);
      incoming := incoming[n..];
      t := Moved(n);
    }

    /** send: any positive number of the bytes offered. */
    method Send(data: seq<Byte>) returns (t: Transfer)
      requires data != []
      modifies this`outgoing, this`signals
      ensures t.Moved? ==> 0 < t.n <= |data| && outgoing == old(outgoing) + data[..t.n] && signals == old(signals)
      ensures !t.Moved? ==> outgoing == old(outgoing)
      ensures t.Interrupted? ==> signals < old(signals)
      ensures t.Failed? ==> signals == old(signals)
      ensures sound ==> !t.Failed?
    {
      var interrupt: bool := *;
      var fail: bool := *;
      var want: nat := *;
      if interrupt && signals > 0 {
        signals := signals - 1;
        return Interrupted;
      }
      if fail && !sound { return Failed; }
      var n := if 0 < want <= |data| then want else 1;
      outgoing := outgoing + data[..n];
      t := Moved(n);
    }

    method WriteAll(data: seq<Byte>) returns (ok: bool)
      modifies this`outgoing, this`signals
      ensures ok ==> outgoing == old(outgoing) + data
      ensures sound ==> ok
    {
      var done := 0;
      while done < |data|
        invariant done <= |data| && outgoing == old(outgoing) + data[..done]
        decreases |data| - done, signals
      {
        var t := Send(data[done..]);
        match t
        case Moved(n) =>
          assert data[..done + n] == data[..done] + data[done..][..n];
          done := done + n;
        case Interrupted =>
        case Failed => return false;
      }
      assert data[..|data|] == data;
      ok := true;
    }

    /** Reads exactly `len` bytes to the front of the buffer, however the stream is cut up. */
    method ReadAll(buf: array<Byte>, len: nat) returns (ok: bool)
      requires len <= buf.Length
      modifies this`incoming, this`signals, buf
      ensures ok ==> |old(incoming)| >= len && buf[..len] == old(incoming)[..len] && incoming == old(incoming)[len..]
      ensures sound ==> ok == (|old(incoming)| >= len)
    {
      var p := 0;
      while p < len
        invariant p <= len && p <= |old(incoming)|
        invariant incoming == old(incoming)[p..] && buf[..p] == old(incoming)[..p]
        decreases len - p, signals
      {
        ghost var before := incoming;
        ghost var was := buf[..];
        var t := Recv(buf, p, len - p);
        match t
        case Moved(n) =>
          assert buf[..p + n] == was[..p] + before[..n];
          assert old(incoming)[..p + n] == old(incoming)[..p] + before[..n];
          p := p + n;
        case Interrupted => assert buf[..p] == was[..p];
        case Failed => return false;
      }
      ok := true;
    }

    method SendWord(w: Word) returns (ok: bool)
      modifies this`outgoing, this`signals
      ensures ok ==> |w| < UINT32 && outgoing == old(outgoing) + EncodeWord(w)
      ensures |w| >= UINT32 ==> outgoing == old(outgoing)
      ensures sound ==> ok == (|w| < UINT32)
    {
      if |w| >= UINT32 { return false; }
      ok := WriteAll(EncodeLen(|w|));
      if !ok { return; }
      if w != [] { ok := WriteAll(w); }
    }

    method RecvLen() returns (result: Option<nat>)
      modifies this`incoming, this`signals
      ensures var r := ReadLen(old(incoming));
              && (result.Some? ==> r.Some? && result.value == r.value.0 && incoming == old(incoming)[r.value.1..])
              && (sound && r.Some? ==> result.Some?)
    {
      var b := new Byte[5];
      var ok := ReadAll(b, 1);
      if !ok { return None; }
      var size := Announced(b[0]);
      if size == 0 { return None; }
      var first := b[0];
      assert [first] == b[..1];
      if size == 1 { return Some(PrefixValue([first])); }
      ghost var mid := incoming;
      ok := ReadAll(b, size - 1);
      if !ok { return None; }
      assert old(incoming)[..size] == [first] + mid[..size - 1];
      assert old(incoming)[size..] == mid[size - 1..];
      result := Some(PrefixValue([first] + b[..size - 1]));
    }

    method RecvWord(len: nat) returns (result: Option<Word>)
      modifies this`incoming, this`signals
      ensures result.Some? ==>
                |old(incoming)| >= len && result.value == old(incoming)[..len] && incoming == old(incoming)[len..]
      ensures sound ==> result.Some? == (|old(incoming)| >= len)
    {
      var buf := new Byte[len];
      var ok := ReadAll(buf, len);
      if !ok { return None; }
      assert buf[..] == buf[..len];
      result := Some(buf[..]);
    }

    /** One turn of the sentence loop: the end, the next word, or nothing usable. */
    method RecvPart(count: nat) returns (part: Option<Word>)
      modifies this`incoming, this`signals
      ensures part.Some? ==> PartOf(old(incoming), count, part.value, incoming)
      ensures sound && ReadSentence(old(incoming), count).Some? ==> part.Some?
    {
      var len := RecvLen();
      if len.None? { return None; }
      ghost var stream, k := old(incoming), ReadLen(old(incoming)).value.1;
      if len.value == 0 {
        EndIsRead(stream, count, k);
        return Some([]);
      }
      if count >= MAX_WORDS || |stream[k..]| < len.value { NoRoom(stream, count, len.value, k); }
      if count >= MAX_WORDS { return None; }
      if len.value <= |stream[k..]| { WordIsRead(stream, count, len.value, k); }
      part := RecvWord(len.value);
    }

    /** Words are collected in an array that doubles when it is full. */
    method RecvSentence() returns (result: Option<Sentence>)
      modifies this`incoming, this`signals
      ensures var r := ReadSentence(old(incoming), 0);
              && (result.Some? ==> r.Some? && result.value == r.value.0 && incoming == r.value.1)
              && (sound && r.Some? ==> result.Some?)
    {
      var words := new Word[8](_ => []);
      var count := 0;
      ghost var whole := ReadSentence(incoming, 0);
      JoinNothing(words[..0], whole);
      while true
        invariant fresh(words) && count <= words.Length && count <= MAX_WORDS && 8 <= words.Length
        invariant Joined(words[..count], ReadSentence(incoming, count)) == whole
        decreases |incoming|
      {
        var part := RecvPart(count);
        if part.None? { return None; }
        if part.value == [] {
          assert words[..count] + [] == words[..count];
          return Some(words[..count]);
        }
        JoinStep(words[..count], part.value, ReadSentence(incoming, count + 1));
        words := Store(words, count, part.value);
        count := count + 1;
      }
    }
  }

  lemma JoinNothing(nothing: Sentence, now: Option<(Sentence, seq<Byte>)>)
    requires nothing == []
    ensures Joined(nothing, now) == now
  {
    if now.Some? { assert nothing + now.value.0 == now.value.0; }
  }

  lemma JoinStep(collected: Sentence, w: Word, now: Option<(Sentence, seq<Byte>)>)
    ensures Joined(collected, Joined([w], now)) == Joined(collected + [w], now)
  {
    if now.Some? { assert collected + ([w] + now.value.0) == collected + [w] + now.value.0; }
  }

  /** The next word goes behind the collected ones; a full array is replaced by one of twice the capacity. */
  method Store(words: array<Word>, count: nat, w: Word) returns (room: array<Word>)
    requires count <= words.Length && 8 <= words.Length
    modifies words
    ensures room == words || fresh(room)
    ensures count < room.Length && 8 <= room.Length && room[..count + 1] == old(words[..count]) + [w]
  {
    room := words;
    if count == words.Length { room := Grow(words); }
    room[count] := w;
  }

  /** realloc to twice the capacity. */
  method Grow(words: array<Word>) returns (bigger: array<Word>)
    ensures fresh(bigger) && bigger.Length == 2 * words.Length && bigger[..words.Length] == words[..]
  {
    bigger := new Word[2 * words.Length](_ => []);
    for i := 0 to words.Length
      invariant bigger[..i] == words[..i]
    {
      bigger[i] := words[i];
    }
    assert words[..words.Length] == words[..];
  }
}
