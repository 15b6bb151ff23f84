/** One command, one reply: how a router command drains its whole reply from the stream whatever goes wrong inside
    it, so that the next command finds its own reply. */
module Session {
  import opened Wire

  const DONE: Word := [0x21, 0x64, 0x6F, 0x6E, 0x65]          // "!done"
  const TRAP: Word := [0x21, 0x74, 0x72, 0x61, 0x70]          // "!trap"
  const FATAL: Word := [0x21, 0x66, 0x61, 0x74, 0x61, 0x6C]   // "!fatal"

  /** A received word as a C string: it ends in front of its first NUL byte. */
  function Text(w: Word): (text: Word)
    ensures text <= w && 0 !in text && (0 !in w ==> text == w)
  {
    if w == [] || w[0] == 0 then [] else [w[0]] + Text(w[1..])
  }

  predicate IsReply(s: Sentence, kind: Word) { s != [] && Text(s[0]) == kind }

  // ---- attributes -----------------------------------------------------------------------------------------

  const EQUALS: Byte := 0x3D

  /** The word "=key=value". */
  function Attribute(key: Word, value: Word): Word { [EQUALS] + key + [EQUALS] + value }

  predicate Carries(w: Word, key: Word) { Attribute(key, []) <= w }

  /** The value of the first attribute word behind the reply word. */
  method GetAttr(s: Sentence, key: Word) returns (value: Option<Word>)
    ensures value.None? <==> forall i :: 1 <= i < |s| ==> !Carries(s[i], key)
    ensures value.Some? ==> exists i :: 1 <= i < |s| && s[i] == Attribute(key, value.value) &&
                              forall k :: 1 <= k < i ==> !Carries(s[k], key)
  {
    var i := 1;
    while i < |s|
      invariant 1 <= i
      invariant forall k :: 1 <= k < i && k < |s| ==> !Carries(s[k], key)
    {
      var w := s[i];
      if w != [] && w[0] == EQUALS {
        var p := w[1..];
        if key <= p && |key| < |p| && p[|key|] == EQUALS {
          assert w == Attribute(key, p[|key| + 1..]);
          assert Attribute(key, []) <= w;
          return Some(p[|key| + 1..]);
        }
        assert !Carries(w, key) by {
          if Attribute(key, []) <= w { CarriesSplits(w, key); }
        }
      }
      i := i + 1;
    }
    value := None;
  }

  lemma CarriesSplits(w: Word, key: Word)
    requires Carries(w, key)
    ensures w != [] && w[0] == EQUALS && key <= w[1..] && |key| < |w[1..]| && w[1..][|key|] == EQUALS
  {
    var a := Attribute(key, []);
    assert forall i :: 0 <= i < |a| ==> w[i] == a[i];
    assert forall i :: 0 <= i < |key| ==> w[1..][i] == key[i];
  }

  /** Keys do not shadow one another: an attribute of one key is not taken for one of another. */
  lemma KeysAreExact(key: Word, other: Word, value: Word)
    requires EQUALS !in key && EQUALS !in other
    ensures Carries(Attribute(other, value), key) <==> key == other
  {
    var w := Attribute(other, value);
    if Carries(w, key) {
      CarriesSplits(w, key);
      var p := w[1..];
      assert p == other + [EQUALS] + value;
      assert p[|other|] == EQUALS && other == p[..|other|] && key == p[..|key|];
      forall i | 0 <= i < |other| ensures p[i] != EQUALS { assert p[i] == other[i]; }
      forall i | 0 <= i < |key| ensures p[i] != EQUALS { assert p[i] == key[i]; }
    } else {
      assert key == other ==> Attribute(key, []) + value == w;
    }
  }

  // ---- one command -----------------------------------------------------------------------------------------

  /** A callback sees a sentence and its context; a code other than 0 is an error. */
  type Callback<!C> = (C, Sentence) -> (C, int)

  datatype Progress<C> = Progress(ctx: C, rc: int)

  /** One sentence of the reply: the callback is fed only while nothing has gone wrong, and the first error stays. */
  function Feed<C>(cb: Callback<C>, p: Progress<C>, s: Sentence): Progress<C> {
    var q := if p.rc == 0 then var (ctx, code) := cb(p.ctx, s); Progress(ctx, code) else p;
    if IsReply(s, TRAP) && q.rc == 0 then q.(rc := -1) else q
  }

  function FeedAll<C>(cb: Callback<C>, p: Progress<C>, reply: seq<Sentence>): Progress<C>
    decreases |reply|
  {
    if reply == [] then p else FeedAll(cb, Feed(cb, p, reply[0]), reply[1..])
  }

  datatype Result<C> = Completed(end: Progress<C>, rest: seq<Byte>) | Lost(ctx: C)

  /** What a command makes of the stream: it reads on to the final `!done`. */
  function Drain<C>(cb: Callback<C>, p: Progress<C>, stream: seq<Byte>): Result<C>
    decreases |stream|
  {
    match ReadSentence(stream, 0)
    case None => Lost(p.ctx)
    case Some((s, rest)) =>
      var q := Feed(cb, p, s);
      if IsReply(s, FATAL) then Lost(q.ctx)
      else if IsReply(s, DONE) then Completed(q, rest)
      else if |rest| < |stream| then Drain(cb, q, rest)
      else Lost(q.ctx)
  }

  lemma {:induction false} ReadsForward(stream: seq<Byte>, count: nat)
    requires ReadSentence(stream, count).Some?
    ensures |ReadSentence(stream, count).value.1| < |stream|
    decreases |stream|
  {
    var (n, k) := ReadLen(stream).value;
    if n > 0 { ReadsForward(stream[k + n..], count + 1); }
  }

  /** A client of the router. */
  class Client {
    const socket: Socket
    var open: bool

    constructor (socket: Socket)
      ensures this.socket == socket && open
    {
      this.socket, open := socket, true;
    }

    method SendCommand(words: Sentence) returns (ok: bool)
      modifies socket`outgoing, socket`signals
      ensures ok && Sendable(words) ==> socket.outgoing == old(socket.outgoing) + EncodeSentence(words)
      ensures socket.sound && Sendable(words) ==> ok
    {
      for i := 0 to |words|
        invariant socket.incoming == old(socket.incoming)
        invariant Sendable(words) ==> socket.outgoing == old(socket.outgoing) + EncodeWords(Taken(words, i))
      {
        ok := socket.SendWord(words[i]);
        if !ok { return; }
        if Sendable(words) { EncodePrefix(words, i); }
      }
      assert Sendable(words) ==> Taken(words, |words|) == words;
      ok := socket.SendWord([]);
      assert EncodeWord([]) == EncodeLen(0);
    }

    /** Sends the words and reads the reply to its end. */
    method Command<C>(words: Sentence, cb: Callback<C>, ctx: C) returns (rc: int, ctx': C)
      modifies this`open, socket`incoming, socket`outgoing, socket`signals
      ensures old(open) && words != [] && Sendable(words) && socket.sound ==>
                && socket.outgoing == old(socket.outgoing) + EncodeSentence(words)
                && (match Drain(cb, Progress(ctx, 0), old(socket.incoming))
                    case Completed(end, rest) => open && rc == end.rc && ctx' == end.ctx && socket.incoming == rest
                    case Lost(_) => rc == -1)
      ensures !old(open) || words == [] ==> rc == -1 && ctx' == ctx && socket.incoming == old(socket.incoming)
    {
      ctx' := ctx;
      if !open || words == [] { return -1, ctx; }
      var ok := SendCommand(words);
      if !ok { return -1, ctx; }
      var code := 0;
      while true
        invariant open
        invariant Sendable(words) ==> socket.outgoing == old(socket.outgoing) + EncodeSentence(words)
        invariant socket.sound ==>
                    Drain(cb, Progress(ctx', code), socket.incoming) == Drain(cb, Progress(ctx, 0), old(socket.incoming))
        decreases |socket.incoming|
      {
        ghost var before := socket.incoming;
        var s := socket.RecvSentence();
        if s.None? { return -1, ctx'; }
        ReadsForward(before, 0);
        ghost var p := Progress(ctx', code);
        var cbCode := 0;
        if code == 0 {
          var (next, c) := cb(ctx', s.value);
          ctx', cbCode := next, c;
        }
        if cbCode != 0 && code == 0 { code := cbCode; }
        if IsReply(s.value, TRAP) && code == 0 { code := -1; }
        assert Progress(ctx', code) == Feed(cb, p, s.value);
        if IsReply(s.value, FATAL) {
          open := false;
          return -1, ctx';
        }
        if IsReply(s.value, DONE) { return code, ctx'; }
      }
    }
  }

  function Taken(words: Sentence, i: nat): (t: Sentence)
    requires i <= |words| && Sendable(words)
    ensures Sendable(t)
  {
    words[..i]
  }

  lemma EncodePrefix(words: Sentence, i: nat)
    requires i < |words| && Sendable(words)
    ensures EncodeWords(Taken(words, i + 1)) == EncodeWords(Taken(words, i)) + EncodeWord(words[i])
  {
    EncodeWordsAppend(words[..i], words[i]);
    assert words[..i + 1] == words[..i] + [words[i]];
  }

  lemma {:induction false} EncodeWordsAppend(words: Sentence, w: Word)
    requires Sendable(words) && w != [] && |w| < UINT32
    ensures Sendable(words + [w]) && EncodeWords(words + [w]) == EncodeWords(words) + EncodeWord(w)
  {
    if words == [] {
      assert words + [w] == [w] && [w][1..] == [];
    } else {
      EncodeWordsAppend(words[1..], w);
      assert (words + [w])[1..] == words[1..] + [w];
    }
  }

  // ---- replies and sessions ------------------------------------------------------------------------------------

  /** A reply as a router sends it: any sentences, then `!done`; nothing fatal. */
  predicate WellFormed(reply: seq<Sentence>) {
    && reply != [] && IsReply(reply[|reply| - 1], DONE)
    && (forall i :: 0 <= i < |reply| ==> Sendable(reply[i]) && |reply[i]| <= MAX_WORDS && !IsReply(reply[i], FATAL))
    && (forall i :: 0 <= i < |reply| - 1 ==> !IsReply(reply[i], DONE))
  }

  function EncodeReply(reply: seq<Sentence>): seq<Byte>
    requires forall i :: 0 <= i < |reply| ==> Sendable(reply[i])
  {
    if reply == [] then [] else EncodeSentence(reply[0]) + EncodeReply(reply[1..])
  }

  /** A command consumes exactly one reply, through its `!done`, whatever its callback says. */
  lemma {:induction false} OneReply<C>(cb: Callback<C>, p: Progress<C>, reply: seq<Sentence>, rest: seq<Byte>)
    requires WellFormed(reply)
    ensures Drain(cb, p, EncodeReply(reply) + rest) == Completed(FeedAll(cb, p, reply), rest)
    decreases |reply|
  {
    var tail, stream := EncodeReply(reply[1..]) + rest, EncodeReply(reply) + rest;
    ReplyShift(reply, rest);
    DrainStep(cb, p, reply[0], stream, tail);
    if |reply| == 1 {
      assert tail == rest;
      assert FeedAll(cb, Feed(cb, p, reply[0]), reply[1..]) == Feed(cb, p, reply[0]);
    } else {
      TailWellFormed(reply);
      OneReply(cb, Feed(cb, p, reply[0]), reply[1..], rest);
    }
  }

  lemma ReplyShift(reply: seq<Sentence>, rest: seq<Byte>)
    requires WellFormed(reply)
    ensures EncodeReply(reply) + rest == EncodeSentence(reply[0]) + (EncodeReply(reply[1..]) + rest)
  {}

  lemma TailWellFormed(reply: seq<Sentence>)
    requires WellFormed(reply) && |reply| > 1
    ensures WellFormed(reply[1..]) && !IsReply(reply[0], DONE)
  {}

  /** One sentence of the stream: the last if it is `!done`. */
  lemma DrainStep<C>(cb: Callback<C>, p: Progress<C>, sentence: Sentence, stream: seq<Byte>, tail: seq<Byte>)
    requires Sendable(sentence) && |sentence| <= MAX_WORDS && !IsReply(sentence, FATAL)
    requires stream == EncodeSentence(sentence) + tail
    ensures Drain(cb, p, stream) ==
      if IsReply(sentence, DONE) then Completed(Feed(cb, p, sentence), tail) else Drain(cb, Feed(cb, p, sentence), tail)
  {
    SentenceRoundTrip(sentence, tail);
    ReadsForward(stream, 0);
  }

  /** A sentence at which the command fails, given the context it is seen in. */
  predicate Fails<C>(cb: Callback<C>, ctx: C, s: Sentence) { cb(ctx, s).1 != 0 || IsReply(s, TRAP) }

  function Fold<C>(cb: Callback<C>, ctx: C, reply: seq<Sentence>): C {
    if reply == [] then ctx else Fold(cb, cb(ctx, reply[0]).0, reply[1..])
  }

  lemma {:induction false} AfterError<C>(cb: Callback<C>, p: Progress<C>, reply: seq<Sentence>)
    requires p.rc != 0
    ensures FeedAll(cb, p, reply) == p
    decreases |reply|
  {
    if reply != [] { AfterError(cb, p, reply[1..]); }
  }

  /** The result of a command: the callback is fed exactly the sentences up to and including the first failing one;
      the code is the callback's there, or -1 if the callback took the trap without complaint, or 0 if nothing
      failed. */
  lemma {:induction false} FirstErrorWins<C>(cb: Callback<C>, ctx: C, reply: seq<Sentence>) returns (n: nat)
    ensures n <= |reply|
    ensures forall i :: 0 <= i < n ==> !Fails(cb, Fold(cb, ctx, reply[..i]), reply[i])
    ensures n < |reply| ==> Fails(cb, Fold(cb, ctx, reply[..n]), reply[n])
    ensures FeedAll(cb, Progress(ctx, 0), reply) ==
            if n == |reply| then Progress(Fold(cb, ctx, reply), 0)
            else
              var (last, code) := cb(Fold(cb, ctx, reply[..n]), reply[n]);
              Progress(last, if code != 0 then code else -1)
  {
    if reply == [] { return 0; }
    var (next, code) := cb(ctx, reply[0]);
    assert reply[..0] == [];
    if Fails(cb, ctx, reply[0]) {
      AfterError(cb, Feed(cb, Progress(ctx, 0), reply[0]), reply[1..]);
      return 0;
    }
    var m := FirstErrorWins(cb, next, reply[1..]);
    n := m + 1;
    forall i | 0 < i <= n && i <= |reply| ensures Fold(cb, ctx, reply[..i]) == Fold(cb, next, reply[1..][..i - 1]) {
      assert reply[..i][1..] == reply[1..][..i - 1];
    }
    forall i | 0 <= i < n ensures !Fails(cb, Fold(cb, ctx, reply[..i]), reply[i]) {
      if i > 0 { assert reply[1..][i - 1] == reply[i]; }
    }
  }

  function EncodeReplies(replies: seq<seq<Sentence>>): seq<Byte>
    requires forall i :: 0 <= i < |replies| ==> WellFormed(replies[i])
  {
    if replies == [] then []
    else
      assert WellFormed(replies[0]);
      EncodeReply(replies[0]) + EncodeReplies(replies[1..])
  }

  lemma NextReply(replies: seq<seq<Sentence>>, n: nat, rest: seq<Byte>)
    requires n < |replies| && forall i :: 0 <= i < |replies| ==> WellFormed(replies[i])
    ensures EncodeReplies(replies[n..]) + rest == EncodeReply(replies[n]) + (EncodeReplies(replies[n + 1..]) + rest)
  {
    assert replies[n..][1..] == replies[n + 1..];
  }

  /** A command in front of its own reply. */
  method RunOne<C>(client: Client, command: Sentence, cb: Callback<C>, ctx: C, ghost reply: seq<Sentence>, ghost later: seq<Byte>)
    returns (result: Progress<C>)
    requires client.open && client.socket.sound && command != [] && Sendable(command) && WellFormed(reply)
    requires client.socket.incoming == EncodeReply(reply) + later
    modifies client`open, client.socket`incoming, client.socket`outgoing, client.socket`signals
    ensures client.open && client.socket.incoming == later && result == FeedAll(cb, Progress(ctx, 0), reply)
  {
    OneReply(cb, Progress(ctx, 0), reply, later);
    var rc, end := client.Command(command, cb, ctx);
    result := Progress(end, rc);
  }

  /** A command with the callback and the context it is issued with. */
  datatype Call<!C> = Call(command: Sentence, cb: Callback<C>, ctx: C)

  /** What a call makes of a reply. */
  function Answer<C>(call: Call<C>, reply: seq<Sentence>): Progress<C> { FeedAll(call.cb, Progress(call.ctx, 0), reply) }

  predicate Callable<C>(call: Call<C>) { call.command != [] && Sendable(call.command) }

  /** The stream from reply `n` on. */
  function Later(replies: seq<seq<Sentence>>, n: nat, rest: seq<Byte>): seq<Byte>
    requires n <= |replies| && forall i :: 0 <= i < |replies| ==> WellFormed(replies[i])
  {
    EncodeReplies(replies[n..]) + rest
  }

  lemma FirstAndLast(replies: seq<seq<Sentence>>, rest: seq<Byte>)
    requires forall i :: 0 <= i < |replies| ==> WellFormed(replies[i])
    ensures Later(replies, 0, rest) == EncodeReplies(replies) + rest && Later(replies, |replies|, rest) == rest
  {
    assert replies[0..] == replies && EncodeReplies(replies[|replies|..]) == [];
  }

  /** The first `n` calls have got their own replies. */
  ghost predicate Answered<C>(calls: seq<Call<C>>, replies: seq<seq<Sentence>>, results: seq<Progress<C>>, n: nat)
    requires n <= |calls| == |replies|
  {
    |results| == n && forall i :: 0 <= i < n ==> results[i] == Answer(calls[i], replies[i])
  }

  lemma OneMoreAnswer<C>(calls: seq<Call<C>>, replies: seq<seq<Sentence>>, results: seq<Progress<C>>, n: nat, result: Progress<C>)
    requires n < |calls| == |replies| && Answered(calls, replies, results, n) && result == Answer(calls[n], replies[n])
    ensures Answered(calls, replies, results + [result], n + 1)
  {}

  /** The next call of a session, in front of the replies from number `n` on. */
  method RunNext<C>(client: Client, call: Call<C>, ghost replies: seq<seq<Sentence>>, ghost n: nat, ghost rest: seq<Byte>)
    returns (result: Progress<C>)
    requires client.open && client.socket.sound && n < |replies| && Callable(call)
    requires forall i :: 0 <= i < |replies| ==> WellFormed(replies[i])
    requires client.socket.incoming == Later(replies, n, rest)
    modifies client`open, client.socket`incoming, client.socket`outgoing, client.socket`signals
    ensures client.open && client.socket.incoming == Later(replies, n + 1, rest)
    ensures result == Answer(call, replies[n])
  {
    NextReply(replies, n, rest);
    result := RunOne(client, call.command, call.cb, call.ctx, replies[n], EncodeReplies(replies[n + 1..]) + rest);
  }

  /** A session: as many commands as replies, each with its own callback and context. Every command gets its own reply,
      whether or not earlier ones failed. */
  method RunSession<C>(client: Client, calls: seq<Call<C>>, ghost replies: seq<seq<Sentence>>, ghost rest: seq<Byte>)
    returns (results: seq<Progress<C>>)
    requires client.open && client.socket.sound && |calls| == |replies|
    requires forall i :: 0 <= i < |calls| ==> Callable(calls[i])
    requires forall i :: 0 <= i < |replies| ==> WellFormed(replies[i])
    requires client.socket.incoming == EncodeReplies(replies) + rest
    modifies client`open, client.socket`incoming, client.socket`outgoing, client.socket`signals
    ensures client.open && client.socket.incoming == rest && Answered(calls, replies, results, |calls|)
  {
    results := [];
    FirstAndLast(replies, rest);
    for n := 0 to |calls|
      invariant client.open && Answered(calls, replies, results, n)
      invariant client.socket.incoming == Later(replies, n, rest)
    {
      var result := RunNext(client, calls[n], replies, n, rest);
      OneMoreAnswer(calls, replies, results, n, result);
      results := results + [result];
    }
  }
}
