/** The bodies of the FAST, SOFT and JUDGE scripts: what they do to one flow, statement by statement, with the flags
    the scripts use. Each is proved against the evidence machine. */
module FlowBodies {
  import opened Namespace
  import opened Evidence
  import opened RuleOrder

  // ---- detectors --------------------------------------------------------------------------------------

  datatype TcpState = SynSent | Established | Closed | OtherState

  /** A row of the connection table, with what the scripts derive from its addresses and rates. */
  datatype Flow = Flow(
    id: ConnId, proto: Proto, dst: nat, port: nat, state: TcpState, seenReply: bool,
    op: nat, rp: nat, ob: nat, rb: nat, origActive: bool, replSilent: bool,
    mark: Mark, fromLan: bool)

  /** An IPv4 address, as a number, outside the nine ranges that the scripts leave alone: 0/8, 10/8, 100.64/10, 127/8,
      169.254/16, 172.16/12, 192.168/16, 224/4 and 240/4. */
  predicate IsPublic(a: nat) {
    && 0x0100_0000 <= a < 0xE000_0000
    && !(0x0A00_0000 <= a < 0x0B00_0000) && !(0x6440_0000 <= a < 0x6480_0000) && !(0x7F00_0000 <= a < 0x8000_0000)
    && !(0xA9FE_0000 <= a < 0xA9FF_0000) && !(0xAC10_0000 <= a < 0xAC20_0000) && !(0xC0A8_0000 <= a < 0xC0A9_0000)
  }

  /** An unmarked connection from the LAN to a public address that VPN Direct does not name exactly. */
  predicate Watched(f: Flow, direct: set<nat>) {
    f.mark.NoMark? && f.fromLan && IsPublic(f.dst) && f.dst !in direct
  }

  predicate FastFires(f: Flow) {
    || (f.proto.Tcp? && f.state.SynSent? && f.op >= 2 && f.rp == 0)
    || (f.proto.Tcp? && f.state.Closed? && f.op >= 1 && f.rp <= 2 && f.rb < 256)
    || (f.proto.Udp? && f.port == 443 && !f.seenReply && f.op >= 3 && f.rp == 0)
  }

  /** SOFT failures that need no second look. */
  predicate SoftFires(f: Flow) {
    || (f.proto.Tcp? && f.state.Established? && f.op >= 5 && f.ob >= 1000 && f.rp <= 2 && f.rb < 256)
    || (f.proto.Udp? && !f.seenReply && f.port !in {443, 53, 67, 68, 123} && f.op >= 12 && f.rp == 0)
  }

  /** SOFT late stalls, debounced through WATCH. */
  predicate SoftSuspects(f: Flow) {
    && !SoftFires(f) && f.op >= 8 && f.origActive && f.replSilent
    && ((f.proto.Tcp? && f.state.Established? && f.rp > 0) || (f.proto.Udp? && f.seenReply && f.port == 443))
  }

  predicate TestGood(f: Flow) {
    match f.proto case Tcp => f.rp >= 2 || f.rb >= 128 case Udp => f.rp >= 1
  }

  predicate TestDead(f: Flow) {
    match f.proto
    case Tcp => (f.state.SynSent? && f.op >= 3 && f.rp == 0)
                || (f.state.Established? && f.op >= 10 && f.ob >= 3000 && f.rp <= 1 && f.rb < 128)
    case Udp => f.rp == 0 && f.op >= (if f.port == 443 then 10 else 20)
  }

  predicate OkGood(f: Flow) {
    match f.proto case Tcp => f.rp >= 2 || f.rb >= 128 case Udp => f.rp >= 1
  }

  predicate OkDead(f: Flow) {
    match f.proto
    case Tcp => (f.state.SynSent? && f.op >= 4 && f.rp == 0)
                || (f.state.Established? && f.op >= 15 && f.ob >= 5000 && f.rp <= 1 && f.rb < 128)
    case Udp => f.port == 443 && f.op >= 16 && f.rp == 0
  }

  // ---- lazy rules ---------------------------------------------------------------------------------------

  /** All but the first rule with comment `c` removed. */
  function KeepFirst(rules: seq<Rule>, c: Comment): seq<Rule> {
    if rules == [] then []
    else [rules[0]] + if rules[0].comment == c then Without(rules[1..], c) else KeepFirst(rules[1..], c)
  }

  function Thinned(rules: seq<Rule>, c: Comment, keepFirst: bool): seq<Rule> {
    if keepFirst then KeepFirst(rules, c) else Without(rules, c)
  }

  /** One row of the duplicate loop: dropped, or kept and remembered. */
  lemma ThinStep(done: seq<Rule>, rest: seq<Rule>, c: Comment, keepFirst: bool)
    requires rest != []
    ensures done + Thinned(rest, c, keepFirst) ==
            if rest[0].comment == c && !keepFirst then done + Thinned(rest[1..], c, keepFirst)
            else done + [rest[0]] + Thinned(rest[1..], c, keepFirst && rest[0].comment != c)
  {
    var tail := Thinned(rest[1..], c, keepFirst && rest[0].comment != c);
    if rest[0].comment == c && !keepFirst {
      assert Thinned(rest, c, keepFirst) == tail;
    } else {
      assert Thinned(rest, c, keepFirst) == [rest[0]] + tail;
      assert done + ([rest[0]] + tail) == done + [rest[0]] + tail;
    }
  }

  /** The duplicate loop has got to row `i`. */
  predicate ThinnedUpTo(start: seq<Rule>, rules: seq<Rule>, i: nat, c: Comment, keepFirst: bool) {
    i <= |rules| && rules[..i] + Thinned(rules[i..], c, keepFirst) == KeepFirst(start, c)
  }

  lemma ThinNext(start: seq<Rule>, rules: seq<Rule>, i: nat, c: Comment, keepFirst: bool)
    requires i < |rules| && ThinnedUpTo(start, rules, i, c, keepFirst)
    ensures if rules[i].comment == c && !keepFirst then ThinnedUpTo(start, RemoveAt(rules, i), i, c, false)
            else ThinnedUpTo(start, rules, i + 1, c, keepFirst && rules[i].comment != c)
  {
    ThinStep(rules[..i], rules[i..], c, keepFirst);
    assert rules[i..][1..] == rules[i + 1..] && rules[..i + 1] == rules[..i] + [rules[i]];
    var less := RemoveAt(rules, i);
    assert less[..i] == rules[..i] && less[i..] == rules[i + 1..];
  }

  /** One per-port marking rule made to exist exactly once, if the router lets it. */
  function PrepareRule(rules: seq<Rule>, c: Comment, add: Command, rejected: Rejected): (bool, seq<Rule>) {
    if Count(rules, c) == 0 && add in rejected then (false, rules)
    else
      var r := if Count(rules, c) == 0 then InsertLazy(rules, c) else rules;
      var s := if Count(r, c) > 1 && LazyDupRemove !in rejected then KeepFirst(r, c) else r;
      (Count(s, c) == 1, s)
  }

  function PrepareRules(rules: seq<Rule>, proto: Proto, port: nat, rejected: Rejected): (bool, seq<Rule>) {
    if Count(rules, RouteOk) != 1 then (false, rules)
    else
      var (okReady, r) := PrepareRule(rules, Lazy(proto, port, OkMark), LazyOkAdd, rejected);
      if !okReady then (false, r)
      else PrepareRule(r, Lazy(proto, port, TestMark), LazyTestAdd, rejected)
  }

  lemma {:induction false} CountSplit(a: seq<Rule>, b: seq<Rule>, c: Comment)
    ensures Count(a + b, c) == Count(a, c) + Count(b, c)
  {
    if a == [] { assert a + b == b; } else {
      assert (a + b)[1..] == a[1..] + b;
      CountSplit(a[1..], b, c);
    }
  }

  lemma CountInsert(rules: seq<Rule>, i: nat, r: Rule, c: Comment)
    requires i <= |rules|
    ensures Count(InsertAt(rules, i, r), c) == Count(rules, c) + if r.comment == c then 1 else 0
  {
    CountSplit(rules[..i] + [r], rules[i..], c);
    CountSplit(rules[..i], [r], c);
    CountSplit(rules[..i], rules[i..], c);
    assert rules[..i] + rules[i..] == rules;
    assert Count([r], c) == (if r.comment == c then 1 else 0) + Count([r][1..], c);
  }

  lemma {:induction false} WithoutCounts(rules: seq<Rule>, c: Comment, d: Comment)
    ensures Count(Without(rules, c), d) == if c == d then 0 else Count(rules, d)
  {
    if rules != [] {
      WithoutCounts(rules[1..], c, d);
      CountSplit(if rules[0].comment == c then [] else [rules[0]], Without(rules[1..], c), d);
    }
  }

  lemma {:induction false} KeepFirstCounts(rules: seq<Rule>, c: Comment, d: Comment)
    ensures Count(KeepFirst(rules, c), d) == if c == d && Count(rules, c) > 0 then 1 else Count(rules, d)
  {
    if rules != [] {
      var tail := rules[1..];
      WithoutCounts(tail, c, d);
      KeepFirstCounts(tail, c, d);
      assert KeepFirst(rules, c)[1..] == if rules[0].comment == c then Without(tail, c) else KeepFirst(tail, c);
    }
  }

  /** When the preparation reports success, both marking rules of the port are there exactly once; the rules of
      other ports and the routing rules keep their number. */
  lemma PreparedRules(rules: seq<Rule>, proto: Proto, port: nat, rejected: Rejected, d: Comment)
    ensures var (ready, r) := PrepareRules(rules, proto, port, rejected);
            && (ready ==> Count(r, Lazy(proto, port, OkMark)) == 1 && Count(r, Lazy(proto, port, TestMark)) == 1)
            && (d != Lazy(proto, port, OkMark) && d != Lazy(proto, port, TestMark) ==> Count(r, d) == Count(rules, d))
            && (!ready && Count(rules, RouteOk) == 1 ==>
                  LazyOkAdd in rejected || LazyTestAdd in rejected || LazyDupRemove in rejected)
  {
    if Count(rules, RouteOk) == 1 {
      var ok, test := Lazy(proto, port, OkMark), Lazy(proto, port, TestMark);
      PreparedRule(rules, ok, LazyOkAdd, rejected, d);
      var (okReady, r) := PrepareRule(rules, ok, LazyOkAdd, rejected);
      if okReady {
        PreparedRule(r, test, LazyTestAdd, rejected, d);
        PreparedRule(r, test, LazyTestAdd, rejected, ok);
      }
    }
  }

  lemma PreparedRule(rules: seq<Rule>, c: Comment, add: Command, rejected: Rejected, d: Comment)
    ensures var (ready, r) := PrepareRule(rules, c, add, rejected);
            && (ready <==> Count(r, c) == 1)
            && (d != c ==> Count(r, d) == Count(rules, d))
            && (!ready ==> add in rejected || LazyDupRemove in rejected)
  {
    CountInsert(rules, IndexOf(rules, RouteOk), Rule(c, true), c);
    CountInsert(rules, IndexOf(rules, RouteOk), Rule(c, true), d);
    var r := if Count(rules, c) == 0 then InsertLazy(rules, c) else rules;
    KeepFirstCounts(r, c, c);
    KeepFirstCounts(r, c, d);
  }

  // ---- the bodies -----------------------------------------------------------------------------------------

  /** Whether the body of FAST or SOFT removes the observed connection. */
  predicate DirectCloses(p: Profile, c: Cells, id: ConnId, rulesReady: bool, rejected: Rejected) {
    && Open(c)
    && var d := DropStale(p, c, rejected);
       match Weigh(p, c, d, id, rejected)
       case FirstEvidence => Direct1Add !in rejected
       case Stop => !(Stale(p, c) && (StaleRecheck in rejected || StaleAwg1 in rejected || StaleDirect1 in rejected))
       case Proceed => rulesReady && Settle(p, c, d, rejected).0 && TestAdd !in rejected
  }

  /** The failure gets as far as looking for the per-port rules. */
  predicate Proceeds(p: Profile, c: Cells, id: ConnId, rejected: Rejected) {
    Open(c) && Weigh(p, c, DropStale(p, c, rejected), id, rejected).Proceed?
  }

  predicate HealthyCloses(p: Profile, c: Cells, id: ConnId, rejected: Rejected) {
    match p
    case Fast => false
    case Middle =>
      if c.awg1 == [] then Awg1Add !in rejected else Awg1Read in rejected || id in c.awg1
    case Slow =>
      c.awg1 == [] || |c.awg1| != 1 || c.recheck != [] || Awg1Read in rejected || id in c.awg1
  }

  /** JUDGE gives up the TEST rule of the port when a reset could not remove the TEST entry. */
  predicate GivesUpRule(c: Cells, id: ConnId, rejected: Rejected) {
    && (c.awg1 == [] ==> OldRecheckClear in rejected || Awg1Add in rejected || RecheckAdd in rejected || TestClear in rejected)
    && (|c.awg1| == 1 ==> c.recheck != [])
    && ResetTest in rejected && TestRuleRemove !in rejected
  }

  /** The outcome of one pass: the tuple's entries, the mangle list, and whether the body asks for the removal of
      the observed connection. */
  datatype Effect = Effect(cells: Cells, rules: seq<Rule>, closes: bool)

  function FailureEffect(p: Profile, c: Cells, rules: seq<Rule>, f: Flow, rejected: Rejected): Effect {
    var tries := Proceeds(p, c, f.id, rejected);
    var ready := tries && PrepareRules(rules, f.proto, f.port, rejected).0;
    Effect(DirectFailure(p, c, f.id, ready, rejected),
           if tries then PrepareRules(rules, f.proto, f.port, rejected).1 else rules,
           DirectCloses(p, c, f.id, ready, rejected))
  }

  function FastEffect(p: Profile, c: Cells, rules: seq<Rule>, f: Flow, direct: set<nat>, rejected: Rejected): Effect {
    if FastFires(f) && Watched(f, direct) then FailureEffect(p, c, rules, f, rejected) else Effect(c, rules, false)
  }

  function SoftEffect(p: Profile, c: Cells, rules: seq<Rule>, f: Flow, direct: set<nat>, left: nat, rejected: Rejected): Effect {
    if !Watched(f, direct) then Effect(c, rules, false)
    else if SoftFires(f) || (SoftSuspects(f) && c.watch != [] && left <= 4) then FailureEffect(p, c, rules, f, rejected)
    else if SoftSuspects(f) then Effect(LateStall(p, c, f.id, false, false, rejected), rules, false)
    else Effect(c, rules, false)
  }

  function TestEffect(p: Profile, c: Cells, rules: seq<Rule>, f: Flow, direct: set<nat>, rejected: Rejected): Effect {
    if !f.fromLan || f.dst in direct || c.test == [] then Effect(c, rules, false)
    else if TestGood(f) then
      Effect(TestHealthy(p, c, f.id, rejected),
             if p.Slow? && GivesUpRule(c, f.id, rejected) then Without(rules, Lazy(f.proto, f.port, TestMark)) else rules,
             HealthyCloses(p, c, f.id, rejected))
    else if TestDead(f) then
      Effect(TestFailed(c, f.id, rejected), rules, c.cooldown != [] || CooldownAdd !in rejected)
    else Effect(c, rules, false)
  }

  function OkEffect(c: Cells, rules: seq<Rule>, f: Flow, direct: set<nat>, aging: bool, rejected: Rejected): Effect {
    if !f.fromLan || f.dst in direct || c.ok == [] then Effect(c, rules, false)
    else if OkDead(f) then Effect(OkFailed(c, f.id, rejected), rules, c.cooldown != [] || CooldownAdd !in rejected)
    else if OkGood(f) then Effect(OkHealthy(c, aging, rejected), rules, false)
    else Effect(c, rules, false)
  }

  /** Everything one pass of a body can touch: the tuple's entries, the mangle list, and whether the observed
      connection is still in the table. */
  class FlowState {
    const profile: Profile
    var watch: seq<ConnId>
    var test: seq<ConnId>
    var ok: seq<ConnId>
    var cooldown: seq<ConnId>
    var direct1: seq<ConnId>
    var awg1: seq<ConnId>
    var recheck: seq<ConnId>
    var rules: seq<Rule>
    var connected: bool

    function Entries(): Cells
      reads this
    {
      Cells(watch, test, ok, cooldown, direct1, awg1, recheck)
    }

    predicate Shows(e: Effect, rejected: Rejected)
      reads this
    {
      Entries() == e.cells && rules == e.rules && connected == !(e.closes && ConnectionRemove !in rejected)
    }

    constructor (p: Profile, c: Cells, mangle: seq<Rule>)
      ensures profile == p && Entries() == c && rules == mangle && connected
    {
      profile := p;
      watch, test, ok, cooldown := c.watch, c.test, c.ok, c.cooldown;
      direct1, awg1, recheck := c.direct1, c.awg1, c.recheck;
      rules, connected := mangle, true;
    }

    method DropConnection(rejected: Rejected)
      modifies this`connected
      ensures connected == (old(connected) && ConnectionRemove in rejected)
    {
      if ConnectionRemove !in rejected { connected := false; }
    }

    /** Duplicates of a per-port rule are removed one by one; a refused removal is ignored. */
    method RemoveDuplicates(c: Comment, rejected: Rejected)
      requires Count(rules, c) > 1
      modifies this`rules
      ensures rules == if LazyDupRemove in rejected then old(rules) else KeepFirst(old(rules), c)
    {
      ghost var start := rules;
      var keepFirst, i := true, 0;
      while i < |rules|
        invariant i <= |rules|
        invariant LazyDupRemove in rejected ==> rules == start
        invariant LazyDupRemove !in rejected ==> ThinnedUpTo(start, rules, i, c, keepFirst)
        decreases |rules| - i
      {
        if LazyDupRemove !in rejected { ThinNext(start, rules, i, c, keepFirst); }
        if rules[i].comment == c && !keepFirst && LazyDupRemove !in rejected {
          rules := RemoveAt(rules, i);
        } else {
          if rules[i].comment == c { keepFirst := false; }
          i := i + 1;
        }
      }
    }

    /** One per-port rule: create it if it is missing, thin it out if it is there twice, insist on exactly one. */
    method EnsureRule(c: Comment, add: Command, rejected: Rejected) returns (ready: bool)
      modifies this`rules
      ensures ready == PrepareRule(old(rules), c, add, rejected).0
      ensures rules == PrepareRule(old(rules), c, add, rejected).1
    {
      ready := true;
      if Count(rules, c) == 0 {
        if add in rejected { ready := false; } else { rules := InsertLazy(rules, c); }
      }
      if ready {
        if Count(rules, c) > 1 { RemoveDuplicates(c, rejected); }
        ready := Count(rules, c) == 1;
      }
    }

    /** SLOW throws away evidence of which one half is gone. */
    method ClearStale(rejected: Rejected) returns (slowRecheck: bool, proceed: bool)
      modifies this`recheck, this`awg1, this`direct1
      ensures Entries() == DropStale(profile, old(Entries()), rejected)
      ensures slowRecheck == (profile.Slow? && Rechecking(old(Entries())))
      ensures proceed == !(Stale(profile, old(Entries())) &&
                           (StaleRecheck in rejected || StaleAwg1 in rejected || StaleDirect1 in rejected))
    {
      slowRecheck, proceed := false, true;
      if profile.Slow? {
        if recheck != [] && awg1 != [] {
          slowRecheck := true;
        } else if recheck != [] || awg1 != [] {
          var staleOk := true;
          if StaleRecheck in rejected { staleOk := false; } else { recheck := []; }
          if StaleAwg1 in rejected { staleOk := false; } else { awg1 := []; }
          if StaleDirect1 in rejected { staleOk := false; } else { direct1 := []; }
          if recheck != [] || awg1 != [] { staleOk := false; }
          if !staleOk { proceed := false; }
        }
      }
    }

    /** Whether the connection id is already the evidence: the comments are read one by one. */
    method ReadEvidence(entries: seq<ConnId>, id: ConnId, read: Command, rejected: Rejected) returns (same: bool, readable: bool)
      ensures entries != [] ==> readable == (read !in rejected)
      ensures same == (read !in rejected && id in entries)
    {
      same, readable := false, true;
      for i := 0 to |entries|
        invariant same == (read !in rejected && id in entries[..i])
        invariant readable == (read !in rejected || i == 0)
      {
        if read in rejected { readable := false; } else if entries[i] == id { same := true; }
        assert entries[..i + 1] == entries[..i] + [entries[i]];
      }
      assert entries[..|entries|] == entries;
    }

    /** First DIRECT evidence under MIDDLE and SLOW. */
    method FirstDirect(id: ConnId, rejected: Rejected) returns (proceed: bool)
      requires connected
      modifies this`direct1, this`connected
      ensures proceed == (old(direct1) != [] && Direct1Read !in rejected && id !in old(direct1))
      ensures direct1 == if old(direct1) == [] then Add([], id, Direct1Add, rejected) else old(direct1)
      ensures connected == (proceed || (old(direct1) == [] && Direct1Add in rejected) || ConnectionRemove in rejected)
    {
      if direct1 == [] {
        if Direct1Add !in rejected {
          direct1 := direct1 + [id];
          DropConnection(rejected);
        }
        return false;
      }
      var same, readable := ReadEvidence(direct1, id, Direct1Read, rejected);
      if !readable || same {
        DropConnection(rejected);
        return false;
      }
      return true;
    }

    /** Evidence is cleared, and read back, before the tuple may enter TEST. */
    method ClearEvidence(ghost before: Cells, slowRecheck: bool, rejected: Rejected) returns (stateOk: bool)
      requires !profile.Fast? && slowRecheck == (profile.Slow? && Rechecking(before))
      requires slowRecheck ==> Rechecking(Entries())
      modifies this`direct1, this`recheck
      ensures stateOk == Settle(profile, before, old(Entries()), rejected).0
      ensures Entries() == Settle(profile, before, old(Entries()), rejected).1
    {
      stateOk := true;
      if Direct1Clear in rejected { stateOk := false; } else { direct1 := []; }
      if direct1 != [] { stateOk := false; }
      if profile.Slow? && slowRecheck {
        if RecheckClear in rejected { stateOk := false; } else { recheck := []; }
        if recheck != [] { stateOk := false; }
        if awg1 == [] { stateOk := false; }
      }
      if profile.Slow? && !slowRecheck {
        if awg1 != [] || recheck != [] { stateOk := false; }
      }
    }

    /** Both per-port rules, in front of the routing rules. */
    method MakeRules(proto: Proto, port: nat, rejected: Rejected) returns (ready: bool)
      modifies this`rules
      ensures ready == PrepareRules(old(rules), proto, port, rejected).0
      ensures rules == PrepareRules(old(rules), proto, port, rejected).1
    {
      ready := Count(rules, RouteOk) == 1;
      if ready { ready := EnsureRule(Lazy(proto, port, OkMark), LazyOkAdd, rejected); }
      else { return; }
      if ready { ready := EnsureRule(Lazy(proto, port, TestMark), LazyTestAdd, rejected); }
    }

    /** Stale evidence out, first evidence in: whether the failure may go on to TEST. */
    method Admit(id: ConnId, rejected: Rejected) returns (slowRecheck: bool, proceed: bool)
      requires connected && Open(Entries())
      modifies this`recheck, this`awg1, this`direct1, this`connected
      ensures slowRecheck == (profile.Slow? && Rechecking(old(Entries())))
      ensures var c := old(Entries()); var d := DropStale(profile, c, rejected);
              && proceed == Weigh(profile, c, d, id, rejected).Proceed?
              && Entries() == (if Weigh(profile, c, d, id, rejected).FirstEvidence?
                               then d.(direct1 := Add(d.direct1, id, Direct1Add, rejected)) else d)
              && connected == (proceed || !DirectCloses(profile, c, id, false, rejected) || ConnectionRemove in rejected)
    {
      slowRecheck, proceed := ClearStale(rejected);
      if profile.Middle? || (profile.Slow? && !slowRecheck && proceed) {
        proceed := FirstDirect(id, rejected);
      }
    }

    /** The tuple enters TEST, unless its evidence cannot be cleared. */
    method EnterTest(ghost before: Cells, id: ConnId, slowRecheck: bool, rejected: Rejected)
      requires connected && slowRecheck == (profile.Slow? && Rechecking(before))
      requires slowRecheck ==> Rechecking(Entries())
      modifies this`direct1, this`recheck, this`watch, this`test, this`connected
      ensures var settled := Settle(profile, before, old(Entries()), rejected);
              && Entries() == (if !settled.0 then settled.1
                               else settled.1.(watch := Clear(settled.1.watch, WatchClear, rejected),
                                               test := Add(settled.1.test, id, TestAdd, rejected)))
              && connected == !(settled.0 && TestAdd !in rejected && ConnectionRemove !in rejected)
    {
      if !profile.Fast? {
        var stateOk := ClearEvidence(before, slowRecheck, rejected);
        if !stateOk { return; } // the error leaves the flow body
      }
      watch := Clear(watch, WatchClear, rejected);
      if TestAdd in rejected { return; }
      test := test + [id];
      DropConnection(rejected);
    }

    /** The evidence transition that FAST and SOFT share. */
    method Transition(f: Flow, rejected: Rejected)
      requires connected
      modifies this
      ensures Shows(FailureEffect(profile, old(Entries()), old(rules), f, rejected), rejected)
    {
      if ok != [] || test != [] || cooldown != [] { return; }
      ghost var before := Entries();
      var slowRecheck, proceed := Admit(f.id, rejected);
      if proceed {
        var ready := MakeRules(f.proto, f.port, rejected);
        if ready { EnterTest(before, f.id, slowRecheck, rejected); }
      }
    }

    /** FAST on one row of its snapshot. */
    method FastFlow(f: Flow, direct: set<nat>, rejected: Rejected)
      requires connected
      modifies this
      ensures Shows(FastEffect(profile, old(Entries()), old(rules), f, direct, rejected), rejected)
    {
      var fires := false;
      if f.proto.Tcp? {
        if f.state.SynSent? && f.op >= 2 && f.rp == 0 { fires := true; }
        if f.state.Closed? && f.op >= 1 && f.rp <= 2 && f.rb < 256 { fires := true; }
      } else {
        if !f.seenReply && f.port == 443 && f.op >= 3 && f.rp == 0 { fires := true; }
      }
      if fires {
        var directHit := f.dst in direct;
        if f.mark.NoMark? && f.fromLan && IsPublic(f.dst) && !directHit {
          Transition(f, rejected);
        }
      }
    }

    /** SOFT on one row of its snapshot; `left` is what remains of the WATCH entry's eight seconds. */
    method SoftFlow(f: Flow, direct: set<nat>, left: nat, rejected: Rejected)
      requires connected
      modifies this
      ensures Shows(SoftEffect(profile, old(Entries()), old(rules), f, direct, left, rejected), rejected)
    {
      if !(f.mark.NoMark? && f.fromLan && IsPublic(f.dst)) { return; }
      var trigger, suspicious := false, false;
      if f.proto.Tcp? {
        if f.state.Established? {
          if f.op >= 5 && f.ob >= 1000 && f.rp <= 2 && f.rb < 256 { trigger := true; }
          if !trigger && f.op >= 8 && f.rp > 0 && f.origActive && f.replSilent { suspicious := true; }
        }
      } else {
        if !f.seenReply && f.port !in {443, 53, 67, 68, 123} && f.op >= 12 && f.rp == 0 { trigger := true; }
        if f.seenReply && f.port == 443 && f.op >= 8 && f.origActive && f.replSilent { suspicious := true; }
      }
      if f.dst in direct { return; }
      if !trigger && suspicious {
        if watch == [] {
          if ok == [] && test == [] && cooldown == [] && WatchAdd !in rejected { watch := watch + [f.id]; }
        } else if left <= 4 {
          trigger := true;
        }
      }
      if trigger { Transition(f, rejected); }
    }

    /** Confirmed: OK in, everything else out, as far as the router lets it. */
    method ConfirmTuple(id: ConnId, rejected: Rejected)
      modifies this`ok, this`test, this`watch, this`cooldown, this`direct1, this`awg1, this`recheck
      ensures Entries() == Confirm(old(Entries()), id, rejected)
    {
      if ok == [] {
        if OkAdd in rejected { return; }
        ok := [id];
      }
      test := Clear(test, DropTest, rejected);
      watch := Clear(watch, DropWatch, rejected);
      cooldown := Clear(cooldown, DropCooldown, rejected);
      direct1 := Clear(direct1, DropDirect1, rejected);
      awg1 := Clear(awg1, DropAwg1, rejected);
      recheck := Clear(recheck, DropRecheck, rejected);
    }

    /** Back to DIRECT after inconsistent SLOW state; if TEST stays, at least its marking rule goes. */
    method ResetTuple(proto: Proto, port: nat, rejected: Rejected)
      modifies this
      ensures Entries() == Reset(old(Entries()), rejected)
      ensures rules == if old(test) != [] && ResetTest in rejected && TestRuleRemove !in rejected
                       then Without(old(rules), Lazy(proto, port, TestMark)) else old(rules)
      ensures connected == (old(connected) && ConnectionRemove in rejected)
    {
      awg1 := Clear(awg1, ResetAwg1, rejected);
      recheck := Clear(recheck, ResetRecheck, rejected);
      direct1 := Clear(direct1, ResetDirect1, rejected);
      watch := Clear(watch, ResetWatch, rejected);
      test := Clear(test, ResetTest, rejected);
      if test != [] && TestRuleRemove !in rejected { rules := Without(rules, Lazy(proto, port, TestMark)); }
      DropConnection(rejected);
    }

    /** First healthy AWG connection under SLOW. */
    method SendTupleBack(id: ConnId, proto: Proto, port: nat, rejected: Rejected)
      requires test != [] && awg1 == []
      modifies this
      ensures Entries() == SendBack(old(Entries()), id, rejected)
      ensures rules == if GivesUpRule(old(Entries()), id, rejected)
                       then Without(old(rules), Lazy(proto, port, TestMark)) else old(rules)
      ensures connected == (old(connected) && ConnectionRemove in rejected)
    {
      var stateReady := true;
      if OldRecheckClear in rejected { stateReady := false; } else { recheck := []; }
      if stateReady {
        if Awg1Add in rejected { stateReady := false; } else { awg1 := awg1 + [id]; }
      }
      if stateReady {
        if RecheckAdd in rejected { stateReady := false; } else { recheck := recheck + [id]; }
      }
      if stateReady && (|awg1| != 1 || |recheck| != 1) { stateReady := false; }
      if stateReady {
        if TestClear in rejected { stateReady := false; } else { test := []; }
        if test != [] { stateReady := false; }
      }
      if stateReady {
        watch := Clear(watch, QuietWatch, rejected);
        cooldown := Clear(cooldown, QuietCooldown, rejected);
        direct1 := Clear(direct1, QuietDirect1, rejected);
        DropConnection(rejected);
      } else {
        ResetTuple(proto, port, rejected);
      }
    }

    /** JUDGE on a healthy connection marked TEST while the tuple is in TEST. */
    method HealthyTest(id: ConnId, proto: Proto, port: nat, rejected: Rejected)
      requires connected && test != []
      modifies this
      ensures Entries() == TestHealthy(profile, old(Entries()), id, rejected)
      ensures rules == if profile.Slow? && GivesUpRule(old(Entries()), id, rejected)
                       then Without(old(rules), Lazy(proto, port, TestMark)) else old(rules)
      ensures connected == !(HealthyCloses(profile, old(Entries()), id, rejected) && ConnectionRemove !in rejected)
    {
      var confirmOk := true;
      if !profile.Fast? {
        confirmOk := false;
        var same, readable := ReadEvidence(awg1, id, Awg1Read, rejected);
        if profile.Middle? {
          if awg1 == [] {
            if Awg1Add !in rejected {
              awg1 := awg1 + [id];
              DropConnection(rejected);
            }
          } else if !readable || same {
            DropConnection(rejected);
          } else {
            confirmOk := true;
          }
        } else {
          if awg1 == [] {
            SendTupleBack(id, proto, port, rejected);
          } else if |awg1| != 1 || recheck != [] {
            ResetTuple(proto, port, rejected);
          } else if !readable || same {
            DropConnection(rejected);
          } else {
            confirmOk := true;
          }
        }
      }
      if confirmOk { ConfirmTuple(id, rejected); }
    }

    /** The route failed: TEST or OK goes, COOLDOWN comes. */
    method FailTuple(id: ConnId, rejected: Rejected)
      requires connected
      modifies this`test, this`watch, this`direct1, this`awg1, this`recheck, this`cooldown, this`connected
      ensures Entries() == Fail(old(Entries()), id, rejected)
      ensures connected == !((old(cooldown) != [] || CooldownAdd !in rejected) && ConnectionRemove !in rejected)
    {
      test := Clear(test, DropTest, rejected);
      watch := Clear(watch, DropWatch, rejected);
      direct1 := Clear(direct1, DropDirect1, rejected);
      awg1 := Clear(awg1, DropAwg1, rejected);
      recheck := Clear(recheck, DropRecheck, rejected);
      if cooldown == [] {
        if CooldownAdd in rejected { return; }
        cooldown := cooldown + [id];
      }
      DropConnection(rejected);
    }

    /** JUDGE on one row of the snapshot taken for the TEST mark. */
    method JudgeTest(f: Flow, direct: set<nat>, rejected: Rejected)
      requires connected
      modifies this
      ensures Shows(TestEffect(profile, old(Entries()), old(rules), f, direct, rejected), rejected)
    {
      if f.fromLan && f.dst !in direct && test != [] {
        var good, failed := false, false;
        if f.proto.Tcp? {
          if f.rp >= 2 || f.rb >= 128 { good := true; }
          if f.state.SynSent? && f.op >= 3 && f.rp == 0 { failed := true; }
          if f.state.Established? && f.op >= 10 && f.ob >= 3000 && f.rp <= 1 && f.rb < 128 { failed := true; }
        } else {
          if f.rp >= 1 { good := true; }
          if f.port == 443 && f.op >= 10 && f.rp == 0 { failed := true; }
          if f.port != 443 && f.op >= 20 && f.rp == 0 { failed := true; }
        }
        if good { HealthyTest(f.id, f.proto, f.port, rejected); }
        if !good && failed { FailTuple(f.id, rejected); }
      }
    }

    /** The two flags, set one after the other. */
    method OkVerdict(f: Flow) returns (failed: bool, healthy: bool)
      ensures failed == OkDead(f) && healthy == OkGood(f)
    {
      failed, healthy := false, false;
      if f.proto.Tcp? {
        if f.rp >= 2 || f.rb >= 128 { healthy := true; }
        if f.state.SynSent? && f.op >= 4 && f.rp == 0 { failed := true; }
        if f.state.Established? && f.op >= 15 && f.ob >= 5000 && f.rp <= 1 && f.rb < 128 { failed := true; }
      } else {
        if f.rp >= 1 { healthy := true; }
        if f.port == 443 && f.op >= 16 && f.rp == 0 { failed := true; }
      }
    }

    /** JUDGE on one row of the snapshot taken for the OK mark; `aging` says at most three of the six hours are left. */
    method JudgeOk(f: Flow, direct: set<nat>, aging: bool, rejected: Rejected)
      requires connected
      modifies this
      ensures Shows(OkEffect(old(Entries()), old(rules), f, direct, aging, rejected), rejected)
    {
      if f.fromLan && f.dst !in direct && ok != [] {
        var failed, healthy := OkVerdict(f);
        if failed {
          ok := Clear(ok, DropOk, rejected);
          FailTuple(f.id, rejected);
        } else if healthy && aging && RefreshDrop !in rejected {
          var renewed := ok;
          ok := [];
          if RefreshAdd !in rejected { ok := renewed; }
        }
      }
    }
  }
}
