/** The whole adaptive data plane: all tuples, the mangle list, the connection table, the three flow scripts as they
    start and finish, packets that arrive, and the HEALTH script that takes the plane down and up again. */
module HealthWatch {
  import opened Namespace
  import opened Evidence
  import opened RuleOrder
  import opened FlowBodies

  datatype Tuple = Tuple(proto: Proto, dst: nat, port: nat)
  datatype Conn = Conn(tuple: Tuple, fromLan: bool, mark: Mark)
  datatype Script = FastScript | SoftScript | JudgeScript

  /** What does not change during a run. */
  datatype Config = Config(profile: Profile, direct: set<nat>, private: set<nat>)

  datatype Plane = Plane(
    cells: map<Tuple, Cells>,
    rules: seq<Rule>,
    conns: map<ConnId, Conn>,
    misses: set<nat>,              // addresses with an unexpired health miss
    running: set<Script>)          // scripts that passed their guard and have not finished

  function At(cells: map<Tuple, Cells>, t: Tuple): Cells { if t in cells then cells[t] else NO_CELLS }

  function TupleOf(f: Flow): Tuple { Tuple(f.proto, f.dst, f.port) }

  // ---- HEALTH ---------------------------------------------------------------------------------------

  /** "AUTO-AWG: L1 mark test", the rule whose flag tells whether the plane is up. */
  const HEALTH_RULE := FixedMark(TestMark, Tcp)

  predicate Present(rules: seq<Rule>) { Rule(HEALTH_RULE, true) in rules || Rule(HEALTH_RULE, false) in rules }

  predicate Up(rules: seq<Rule>) { Rule(HEALTH_RULE, true) in rules }

  datatype HealthCommand =
    | ClearMisses | AddMiss | EnableRules | DisableRules | DropMarked(kind: MarkKind) | Sweep(f: Family, p: Proto)

  /** Every "AUTO-AWG:" rule switched on or off. */
  function SetAuto(rules: seq<Rule>, on: bool): seq<Rule> {
    seq(|rules|, i requires 0 <= i < |rules| => Switch(rules[i], on))
  }

  function Switch(r: Rule, on: bool): Rule { if IsAuto(r.comment) then r.(enabled := on) else r }

  lemma SetAutoKeeps(rules: seq<Rule>, on: bool, r: Rule)
    requires r in rules
    ensures Switch(r, on) in SetAuto(rules, on)
  {
    var i :| 0 <= i < |rules| && rules[i] == r;
    assert SetAuto(rules, on)[i] == Switch(r, on);
  }

  /** A connection that went DIRECT while the plane was down although its tuple is confirmed. */
  predicate Strayed(cfg: Config, cells: map<Tuple, Cells>, c: Conn) {
    c.mark.NoMark? && c.fromLan && c.tuple.dst !in cfg.direct && At(cells, c.tuple).ok != []
  }

  function Recovered(cfg: Config, s: Plane, refused: set<ConnId>): map<ConnId, Conn> {
    map id | id in s.conns && (id in refused || !Strayed(cfg, s.cells, s.conns[id])) :: s.conns[id]
  }

  /** Connections carrying one adaptive mark dropped. */
  function DropKind(conns: map<ConnId, Conn>, kind: MarkKind, rejected: set<HealthCommand>): map<ConnId, Conn> {
    if DropMarked(kind) in rejected then conns else map id | id in conns && conns[id].mark != Marked(kind) :: conns[id]
  }

  function SweepCells(c: Cells, p: Proto, rejected: set<HealthCommand>): Cells {
    c.(watch := if Sweep(Watch, p) in rejected then c.watch else [],
       test := if Sweep(Test, p) in rejected then c.test else [],
       direct1 := if Sweep(Direct1, p) in rejected then c.direct1 else [],
       awg1 := if Sweep(Awg1, p) in rejected then c.awg1 else [],
       recheck := if Sweep(Recheck, p) in rejected then c.recheck else [])
  }

  function SweepAll(cells: map<Tuple, Cells>, rejected: set<HealthCommand>): map<Tuple, Cells> {
    map t | t in cells :: SweepCells(cells[t], t.proto, rejected)
  }

  /** One run of HEALTH: `answered` says a probe came back, `key` is the address the misses are counted for. */
  function Health(cfg: Config, s: Plane, answered: bool, key: nat, refused: set<ConnId>, rejected: set<HealthCommand>): Plane {
    if !Present(s.rules) then s
    else if answered then
      var a := s.(misses := if ClearMisses in rejected then s.misses else {});
      if Up(s.rules) || EnableRules in rejected then a
      else a.(rules := SetAuto(s.rules, true), conns := Recovered(cfg, s, refused))
    else if !Up(s.rules) then s
    else if key !in s.misses then
      if AddMiss in rejected then s else s.(misses := s.misses + {key})
    else
      var a := s.(misses := if ClearMisses in rejected then s.misses else {});
      if DisableRules in rejected then a
      else a.(rules := SetAuto(s.rules, false), conns := DropKind(DropKind(s.conns, TestMark, rejected), OkMark, rejected), cells := SweepAll(s.cells, rejected))
  }

  // ---- the plane's events ------------------------------------------------------------------------------

  datatype PlaneEvent =
    | Start(script: Script)
    | Finish(script: Script)
    | FastRow(f: Flow, rejected: Rejected)
    | SoftRow(f: Flow, left: nat, rejected: Rejected)
    | TestRow(f: Flow, rejected: Rejected)
    | OkRow(f: Flow, aging: bool, rejected: Rejected)
    | Probe(answered: bool, key: nat, refused: set<ConnId>, turnedDown: set<HealthCommand>)
    | Arrive(id: ConnId, packet: Packet)
    | Gone(id: ConnId)
    | Expiry(t: Tuple, keep: Cells)
    | MissExpiry(key: nat)

  function ListsOf(cfg: Config, cells: map<Tuple, Cells>): Lists {
    Lists(cfg.direct, cfg.private,
      (set t | t in cells && cells[t].test != [] :: (TestMark, t.proto, t.port, t.dst)) +
      (set t | t in cells && cells[t].ok != [] :: (OkMark, t.proto, t.port, t.dst)),
      {})
  }

  function Row(s: Plane, f: Flow, e: Effect, rejected: Rejected): Plane {
    s.(cells := s.cells[TupleOf(f) := e.cells], rules := e.rules,
       conns := if e.closes && ConnectionRemove !in rejected then s.conns - {f.id} else s.conns)
  }

  function Move(cfg: Config, s: Plane, e: PlaneEvent): Plane {
    match e
    case Start(script) => if Up(s.rules) then s.(running := s.running + {script}) else s
    case Finish(script) => s.(running := s.running - {script})
    case FastRow(f, rejected) =>
      if FastScript !in s.running then s
      else Row(s, f, FastEffect(cfg.profile, At(s.cells, TupleOf(f)), s.rules, f, cfg.direct, rejected), rejected)
    case SoftRow(f, left, rejected) =>
      if SoftScript !in s.running then s
      else Row(s, f, SoftEffect(cfg.profile, At(s.cells, TupleOf(f)), s.rules, f, cfg.direct, left, rejected), rejected)
    case TestRow(f, rejected) =>
      if JudgeScript !in s.running then s
      else Row(s, f, TestEffect(cfg.profile, At(s.cells, TupleOf(f)), s.rules, f, cfg.direct, rejected), rejected)
    case OkRow(f, aging, rejected) =>
      if JudgeScript !in s.running then s
      else Row(s, f, OkEffect(At(s.cells, TupleOf(f)), s.rules, f, cfg.direct, aging, rejected), rejected)
    case Probe(answered, key, refused, rejected) => Health(cfg, s, answered, key, refused, rejected)
    case Arrive(id, p) =>
      if id in s.conns then s
      else s.(conns := s.conns[id := Conn(Tuple(p.proto, p.dst, p.port), true,
                                          Pass(s.rules, p, ListsOf(cfg, s.cells), NoMark).mark)])
    case Gone(id) => s.(conns := s.conns - {id})
    case Expiry(t, keep) => s.(cells := s.cells[t := Expire(At(s.cells, t), keep)])
    case MissExpiry(key) => s.(misses := s.misses - {key})
  }

  function Runs(cfg: Config, s: Plane, events: seq<PlaneEvent>): Plane {
    if events == [] then s else Move(cfg, Runs(cfg, s, events[..|events| - 1]), events[|events| - 1])
  }

  predicate Answers(e: PlaneEvent) { e.Probe? && e.answered }

  // ---- down stays down -----------------------------------------------------------------------------------

  predicate Quiet(c: Cells) { c.watch == [] && c.test == [] && c.direct1 == [] && c.awg1 == [] && c.recheck == [] }

  /** Every adaptive rule off, no adaptive mark, no evidence and no TEST entry anywhere. */
  ghost predicate Down(s: Plane) {
    && (forall i :: 0 <= i < |s.rules| && IsAuto(s.rules[i].comment) ==> !s.rules[i].enabled)
    && (forall id :: id in s.conns ==> s.conns[id].mark.NoMark?)
    && (forall t :: t in s.cells ==> Quiet(s.cells[t]))
  }

  lemma DownIsNotUp(s: Plane)
    requires Down(s)
    ensures !Up(s.rules)
  {
    assert IsAuto(HEALTH_RULE);
  }

  lemma {:induction false} KeptWithin(entries: seq<ConnId>, keep: seq<ConnId>)
    ensures entries == [] ==> Kept(entries, keep) == []
    ensures (forall x :: x in entries ==> x in keep) ==> Kept(entries, keep) == entries
    ensures keep == [] ==> Kept(entries, keep) == []
  {
    if entries != [] {
      KeptWithin(entries[1..], keep);
      assert [entries[0]] + entries[1..] == entries;
      assert forall x :: x in entries[1..] ==> x in entries;
    }
  }

  /** What the expiries of a run leave of the lists. */
  function Expired(cells: map<Tuple, Cells>, events: seq<PlaneEvent>): map<Tuple, Cells> {
    if events == [] then cells
    else
      var before := Expired(cells, events[..|events| - 1]);
      var e := events[|events| - 1];
      if e.Expiry? then before[e.t := Expire(At(before, e.t), e.keep)] else before
  }

  lemma ExpireQuiet(c: Cells, keep: Cells)
    requires Quiet(c)
    ensures Quiet(Expire(c, keep))
  {}

  /** While the plane is down and no flow script is in flight, nothing but an answered probe ends it, and only
      expiry changes any list. */
  lemma StaysDown(cfg: Config, s: Plane, e: PlaneEvent)
    requires Down(s) && s.running == {} && !Answers(e)
    ensures var n := Move(cfg, s, e);
            && Down(n) && n.running == {} && n.rules == s.rules && n.cells == Expired(s.cells, [e])
  {
    DownIsNotUp(s);
    assert Expired(s.cells, [e][..0]) == s.cells;
    match e
    case Arrive(id, p) =>
      if id !in s.conns { UnmarkedWhenDisabled(s.rules, p, ListsOf(cfg, s.cells)); }
    case Expiry(t, keep) =>
      ExpireQuiet(At(s.cells, t), keep);
    case _ =>
  }

  lemma {:induction false} UnmarkedWhenDisabled(rules: seq<Rule>, p: Packet, lists: Lists)
    requires forall i :: 0 <= i < |rules| && IsAuto(rules[i].comment) ==> !rules[i].enabled
    ensures Pass(rules, p, lists, NoMark).mark.NoMark?
  {
    if rules != [] {
      assert forall i :: 0 <= i < |rules[1..]| ==> rules[1..][i] == rules[i + 1];
      UnmarkedWhenDisabled(rules[1..], p, lists);
    }
  }

  /** Fail-open over a whole run: from the moment the plane is down, with no flow script in flight, until the next
      answered probe, every adaptive rule stays disabled, no connection carries an adaptive mark, no WATCH, TEST,
      DIRECT1, AWG1 or RECHECK entry exists, and OK and COOLDOWN are exactly what expiry leaves of them. */
  lemma {:induction false} FailOpen(cfg: Config, s: Plane, events: seq<PlaneEvent>)
    requires Down(s) && s.running == {} && forall n :: 0 <= n < |events| ==> !Answers(events[n])
    ensures var now := Runs(cfg, s, events);
            && Down(now) && now.running == {} && now.rules == s.rules && now.cells == Expired(s.cells, events)
  {
    if events != [] {
      FailOpen(cfg, s, events[..|events| - 1]);
      StaysDown(cfg, Runs(cfg, s, events[..|events| - 1]), events[|events| - 1]);
    }
  }

  lemma OnlyTwoMarks(m: Mark)
    ensures m.NoMark? || m == Marked(TestMark) || m == Marked(OkMark)
  {
    match m
    case NoMark =>
    case Marked(kind) => assert kind.TestMark? || kind.OkMark?;
  }

  /** With every command accepted, the second miss takes the plane down whatever was in it. */
  lemma SecondMissTakesDown(cfg: Config, s: Plane, key: nat)
    requires Up(s.rules) && key in s.misses
    ensures Down(Health(cfg, s, false, key, {}, {})) && Health(cfg, s, false, key, {}, {}).misses == {}
  {
    assert Present(s.rules);
    var n := Health(cfg, s, false, key, {}, {});
    forall id | id in n.conns ensures n.conns[id].mark.NoMark? {
      assert n.conns[id].mark != Marked(TestMark) && n.conns[id].mark != Marked(OkMark);
      OnlyTwoMarks(n.conns[id].mark);
    }
  }

  /** An answered probe brings it up again: all adaptive rules on, no miss left, and no connection of a confirmed
      tuple stays on DIRECT. */
  lemma AnswerBringsUp(cfg: Config, s: Plane, key: nat)
    requires Present(s.rules) && !Up(s.rules)
    ensures var n := Health(cfg, s, true, key, {}, {});
            && (forall i :: 0 <= i < |n.rules| && IsAuto(n.rules[i].comment) ==> n.rules[i].enabled)
            && Up(n.rules) && n.misses == {} && n.cells == s.cells
            && (forall id :: id in n.conns ==> id in s.conns && !Strayed(cfg, n.cells, n.conns[id]))
  {
    SetAutoKeeps(s.rules, true, Rule(HEALTH_RULE, false));
  }

  // ---- a flow script in flight -------------------------------------------------------------------------

  /** The guard is read once, when a script starts. A run of SOFT that is in flight when HEALTH takes the plane down
      still opens a WATCH entry; one of FAST still records evidence or, under profile FAST, puts the tuple into TEST; one
      of JUDGE still gives up an OK entry. */
  lemma InFlightBreaksDown(cfg: Config, s: Plane, f: Flow)
    requires Down(s) && Watched(f, cfg.direct)
    ensures SoftScript in s.running && SoftSuspects(f) && Open(At(s.cells, TupleOf(f))) ==>
              !Down(Move(cfg, s, SoftRow(f, 0, {})))
    ensures FastScript in s.running && FastFires(f) && Open(At(s.cells, TupleOf(f))) && !cfg.profile.Fast? ==>
              !Down(Move(cfg, s, FastRow(f, {})))
    ensures (FastScript in s.running && FastFires(f) && Open(At(s.cells, TupleOf(f))) && cfg.profile.Fast? &&
             Count(s.rules, RouteOk) == 1) ==> At(Move(cfg, s, FastRow(f, {})).cells, TupleOf(f)).test == [f.id]
    ensures JudgeScript in s.running && OkDead(f) && At(s.cells, TupleOf(f)).ok != [] ==>
              Move(cfg, s, OkRow(f, false, {})).cells != s.cells
  {
    var t := TupleOf(f);
    var c := At(s.cells, t);
    assert Quiet(c);
    if SoftScript in s.running && SoftSuspects(f) && Open(c) {
      assert Move(cfg, s, SoftRow(f, 0, {})).cells[t].watch == [f.id];
    }
    if FastScript in s.running && FastFires(f) && Open(c) && !cfg.profile.Fast? {
      assert Move(cfg, s, FastRow(f, {})).cells[t].direct1 == [f.id];
    }
    PreparedRules(s.rules, f.proto, f.port, {}, RouteOk);
    if JudgeScript in s.running && OkDead(f) && c.ok != [] {
      assert Move(cfg, s, OkRow(f, false, {})).cells[t].ok == [];
    }
  }

  /** The public address space is not in VPN Direct as a whole. */
  ghost predicate WatchesAny(cfg: Config) { exists a :: IsPublic(a) && a !in cfg.direct }

  /** What can still break the DOWN state: as long as VPN Direct leaves anything to watch, a run of SOFT, and a run of
      FAST unless the profile is FAST and the anchor of the lazy rules is not there exactly once; a run of JUDGE as long
      as an OK entry outside VPN Direct is left. */
  ghost predicate Breakable(cfg: Config, s: Plane) {
    || (SoftScript in s.running && WatchesAny(cfg))
    || (FastScript in s.running && WatchesAny(cfg) && (!cfg.profile.Fast? || Count(s.rules, RouteOk) == 1))
    || (JudgeScript in s.running && exists t :: t in s.cells && s.cells[t].ok != [] && t.dst !in cfg.direct)
  }

  /** An IPv4 address and a port number. */
  predicate IsTuple(t: Tuple) { t.dst < 0x1_0000_0000 && t.port < 65536 }

  /** Rows as the scripts can read them: an address, a port number, and in JUDGE the mark the snapshot was taken for. */
  predicate Occurs(e: PlaneEvent) {
    match e
    case FastRow(f, _) => IsTuple(TupleOf(f))
    case SoftRow(f, _, _) => IsTuple(TupleOf(f))
    case TestRow(f, _) => IsTuple(TupleOf(f)) && f.mark == Marked(TestMark)
    case OkRow(f, _, _) => IsTuple(TupleOf(f)) && f.mark == Marked(OkMark)
    case _ => true
  }

  /** Still down, the rules as they were, and the lists as expiry leaves them. */
  ghost predicate HoldsDown(s: Plane, n: Plane, events: seq<PlaneEvent>) {
    Down(n) && n.rules == s.rules && forall t :: At(n.cells, t) == At(Expired(s.cells, events), t)
  }

  lemma QuietAt(s: Plane, t: Tuple)
    requires Down(s)
    ensures Quiet(At(s.cells, t))
  {}

  /** FAST and SOFT with nothing to watch, FAST under profile FAST without its anchor, and JUDGE without an OK entry it may
      judge, find nothing to do. */
  lemma HarmlessRow(cfg: Config, s: Plane, e: PlaneEvent)
    requires Down(s) && !Breakable(cfg, s) && (e.FastRow? || e.SoftRow? || e.TestRow? || e.OkRow?)
    ensures var n := Move(cfg, s, e);
            n.rules == s.rules && n.conns == s.conns && n.running == s.running && forall t :: At(n.cells, t) == At(s.cells, t)
  {
    QuietAt(s, TupleOf(e.f));
  }

  lemma HoldsOneStep(cfg: Config, s: Plane, e: PlaneEvent)
    requires Down(s) && !Breakable(cfg, s) && !Answers(e)
    ensures var n := Move(cfg, s, e);
            && Down(n) && n.rules == s.rules && n.running <= s.running && !Breakable(cfg, n)
            && forall t :: At(n.cells, t) == if e.Expiry? && e.t == t then Expire(At(s.cells, t), e.keep) else At(s.cells, t)
  {
    DownIsNotUp(s);
    var n := Move(cfg, s, e);
    match e
    case Arrive(id, p) =>
      if id !in s.conns { UnmarkedWhenDisabled(s.rules, p, ListsOf(cfg, s.cells)); }
    case Expiry(t, keep) =>
      ExpireQuiet(At(s.cells, t), keep);
      KeptWithin(At(s.cells, t).ok, keep.ok);
    case FastRow(_, _) => HarmlessRow(cfg, s, e);
    case SoftRow(_, _, _) => HarmlessRow(cfg, s, e);
    case TestRow(_, _) => HarmlessRow(cfg, s, e);
    case OkRow(_, _, _) => HarmlessRow(cfg, s, e);
    case _ =>
    forall t | t in n.cells ensures Quiet(n.cells[t]) && (n.cells[t].ok != [] ==> t in s.cells && s.cells[t].ok != []) {
      assert n.cells[t] == At(n.cells, t);
      QuietAt(s, t);
    }
  }

  /** Fail-open with scripts in flight: a plane that nothing can break stays down over every run without an answer. */
  lemma {:induction false} HoldsWhileUnbreakable(cfg: Config, s: Plane, events: seq<PlaneEvent>)
    requires Down(s) && !Breakable(cfg, s) && forall n :: 0 <= n < |events| ==> !Answers(events[n])
    ensures HoldsDown(s, Runs(cfg, s, events), events) && !Breakable(cfg, Runs(cfg, s, events))
  {
    if events != [] {
      var front, e := events[..|events| - 1], events[|events| - 1];
      HoldsWhileUnbreakable(cfg, s, front);
      HoldsOneStep(cfg, Runs(cfg, s, front), e);
    }
  }

  /** A TCP row of the tuple, unmarked or marked, with these counters. */
  function FlowOf(t: Tuple, state: TcpState, op: nat, rp: nat, mark: Mark): Flow {
    Flow(0, t.proto, t.dst, t.port, state, true, op, rp, 0, 0, true, true, mark, true)
  }

  /** The entries of one tuple run out. */
  function Forgets(t: Tuple): PlaneEvent { Expiry(t, NO_CELLS) }

  lemma ForgottenStaysDown(cfg: Config, s: Plane, t: Tuple)
    requires Down(s)
    ensures var n := Move(cfg, s, Forgets(t));
            Down(n) && At(n.cells, t) == NO_CELLS && n.running == s.running && n.rules == s.rules
  {
    var c := At(s.cells, t);
    QuietAt(s, t);
    KeptWithin(c.watch, []);
    KeptWithin(c.test, []);
    KeptWithin(c.ok, []);
    KeptWithin(c.cooldown, []);
    KeptWithin(c.direct1, []);
    KeptWithin(c.awg1, []);
    KeptWithin(c.recheck, []);
  }

  /** In a breakable plane a run of at most two events that can occur does break it: what is known of a tuple expires, and
      then its row is read. */
  lemma BreakingRun(cfg: Config, s: Plane) returns (events: seq<PlaneEvent>)
    requires Down(s) && Breakable(cfg, s)
    requires forall t :: t in s.cells ==> IsTuple(t)
    ensures forall n :: 0 <= n < |events| ==> Occurs(events[n]) && !Answers(events[n])
    ensures !HoldsDown(s, Runs(cfg, s, events), events)
  {
    if SoftScript in s.running && WatchesAny(cfg) {
      var a :| IsPublic(a) && a !in cfg.direct;
      events := SoftBreaks(cfg, s, Tuple(Tcp, a, 80));
    } else if FastScript in s.running && WatchesAny(cfg) && (!cfg.profile.Fast? || Count(s.rules, RouteOk) == 1) {
      var a :| IsPublic(a) && a !in cfg.direct;
      events := FastBreaks(cfg, s, Tuple(Tcp, a, 80));
    } else {
      var t :| t in s.cells && s.cells[t].ok != [] && t.dst !in cfg.direct;
      events := JudgeBreaks(cfg, s, t);
    }
  }

  lemma TwoEvents(cfg: Config, s: Plane, a: PlaneEvent, b: PlaneEvent)
    ensures Runs(cfg, s, [a] + [b]) == Move(cfg, Move(cfg, s, a), b)
  {
    var none: seq<PlaneEvent> := [];
    assert none + [a] == [a] && Runs(cfg, s, none) == s;
    RunsAppend(cfg, s, none, a);
    RunsAppend(cfg, s, [a], b);
  }

  lemma SoftBreaks(cfg: Config, s: Plane, t: Tuple) returns (events: seq<PlaneEvent>)
    requires Down(s) && SoftScript in s.running && IsPublic(t.dst) && t.dst !in cfg.direct && t.proto.Tcp? && t.port < 65536
    ensures forall n :: 0 <= n < |events| ==> Occurs(events[n]) && !Answers(events[n])
    ensures !Down(Runs(cfg, s, events))
  {
    var f := FlowOf(t, Established, 8, 3, NoMark);
    events := [Forgets(t)] + [SoftRow(f, 0, {})];
    ForgottenStaysDown(cfg, s, t);
    TwoEvents(cfg, s, Forgets(t), SoftRow(f, 0, {}));
    InFlightBreaksDown(cfg, Move(cfg, s, Forgets(t)), f);
  }

  lemma FastBreaks(cfg: Config, s: Plane, t: Tuple) returns (events: seq<PlaneEvent>)
    requires Down(s) && FastScript in s.running && IsPublic(t.dst) && t.dst !in cfg.direct && t.proto.Tcp? && t.port < 65536
    requires !cfg.profile.Fast? || Count(s.rules, RouteOk) == 1
    ensures forall n :: 0 <= n < |events| ==> Occurs(events[n]) && !Answers(events[n])
    ensures !Down(Runs(cfg, s, events))
  {
    var f := FlowOf(t, SynSent, 2, 0, NoMark);
    events := [Forgets(t)] + [FastRow(f, {})];
    ForgottenStaysDown(cfg, s, t);
    TwoEvents(cfg, s, Forgets(t), FastRow(f, {}));
    InFlightBreaksDown(cfg, Move(cfg, s, Forgets(t)), f);
  }

  lemma JudgeBreaks(cfg: Config, s: Plane, t: Tuple) returns (events: seq<PlaneEvent>)
    requires Down(s) && JudgeScript in s.running && t in s.cells && s.cells[t].ok != [] && t.dst !in cfg.direct && IsTuple(t)
    ensures forall n :: 0 <= n < |events| ==> Occurs(events[n]) && !Answers(events[n])
    ensures !HoldsDown(s, Runs(cfg, s, events), events)
  {
    var f := FlowOf(t, Established, 0, 2, Marked(OkMark));
    var e := OkRow(f, true, {RefreshAdd});
    events := [e];
    assert [e][..0] == [] && Runs(cfg, s, [e]) == Move(cfg, s, e);
    assert Move(cfg, s, e).cells[t].ok == [];
    assert Expired(s.cells, [e]) == s.cells by { assert [e][..0] == []; }
    assert At(Move(cfg, s, e).cells, t) != At(Expired(s.cells, [e]), t);
  }

  /** Exactly when fail-open holds over whole runs: from a DOWN state every run without an answered probe keeps every
      adaptive rule disabled, every connection unmarked, all evidence empty and the lists to what expiry leaves, if and
      only if nothing in flight can break it. */
  lemma FailOpenExactly(cfg: Config, s: Plane)
    requires Down(s) && forall t :: t in s.cells ==> IsTuple(t)
    ensures !Breakable(cfg, s) <==>
            forall events: seq<PlaneEvent> :: (forall n :: 0 <= n < |events| ==> Occurs(events[n]) && !Answers(events[n])) ==>
              HoldsDown(s, Runs(cfg, s, events), events)
  {
    if Breakable(cfg, s) {
      var events := BreakingRun(cfg, s);
    } else {
      forall events: seq<PlaneEvent> | forall n :: 0 <= n < |events| ==> Occurs(events[n]) && !Answers(events[n])
        ensures HoldsDown(s, Runs(cfg, s, events), events)
      {
        HoldsWhileUnbreakable(cfg, s, events);
      }
    }
  }

  lemma RunsAppend(cfg: Config, s: Plane, events: seq<PlaneEvent>, e: PlaneEvent)
    ensures Runs(cfg, s, events + [e]) == Move(cfg, Runs(cfg, s, events), e)
  {
    assert (events + [e])[..|events|] == events;
  }

  lemma {:induction false} SwitchKeepsCount(rules: seq<Rule>, on: bool, c: Comment)
    ensures Count(SetAuto(rules, on), c) == Count(rules, c)
  {
    if rules != [] {
      assert SetAuto(rules, on)[1..] == SetAuto(rules[1..], on);
      SwitchKeepsCount(rules[1..], on, c);
    }
  }

  /** New lazy rules come enabled. */
  lemma LazyComesEnabled(rules: seq<Rule>, proto: Proto, port: nat)
    requires Count(rules, RouteOk) == 1
    requires Count(rules, Lazy(proto, port, OkMark)) == 0 && Count(rules, Lazy(proto, port, TestMark)) == 0
    ensures Rule(Lazy(proto, port, TestMark), true) in PrepareRules(rules, proto, port, {}).1
  {
    var ok, test := Lazy(proto, port, OkMark), Lazy(proto, port, TestMark);
    var mid := InsertLazy(rules, ok);
    CountInsert(rules, IndexOf(rules, RouteOk), Rule(ok, true), ok);
    CountInsert(rules, IndexOf(rules, RouteOk), Rule(ok, true), test);
    var after := InsertLazy(mid, test);
    CountInsert(mid, IndexOf(mid, RouteOk), Rule(test, true), test);
    assert after[IndexOf(mid, RouteOk)] == Rule(test, true);
    assert PrepareRules(rules, proto, port, {}).1 == after;
  }

  /** FAST starts, two probes are missed. */
  function TwoMisses(key: nat): seq<PlaneEvent> {
    [Start(FastScript)] + [Probe(false, key, {}, {})] + [Probe(false, key, {}, {})]
  }

  lemma DownAfterTwoMisses(cfg: Config, s: Plane, key: nat)
    requires Up(s.rules) && key !in s.misses
    ensures var n := Runs(cfg, s, TwoMisses(key));
            && Down(n) && n.rules == SetAuto(s.rules, false) && FastScript in n.running
            && n.cells == SweepAll(s.cells, {})
  {
    var start, miss := Start(FastScript), Probe(false, key, {}, {});
    ThreeEvents(cfg, s, start, miss, miss);
    TwoProbes(cfg, Move(cfg, s, start), key);
  }

  lemma ThreeEvents(cfg: Config, s: Plane, a: PlaneEvent, b: PlaneEvent, c: PlaneEvent)
    ensures Runs(cfg, s, [a] + [b] + [c]) == Move(cfg, Move(cfg, Move(cfg, s, a), b), c)
  {
    var none: seq<PlaneEvent> := [];
    assert none + [a] == [a] && Runs(cfg, s, none) == s;
    RunsAppend(cfg, s, none, a);
    RunsAppend(cfg, s, [a], b);
    RunsAppend(cfg, s, [a] + [b], c);
  }

  lemma TwoProbes(cfg: Config, s: Plane, key: nat)
    requires Up(s.rules) && key !in s.misses
    ensures var n := Health(cfg, Health(cfg, s, false, key, {}, {}), false, key, {}, {});
            Down(n) && n.rules == SetAuto(s.rules, false) && n.running == s.running && n.cells == SweepAll(s.cells, {})
  {
    var missed := s.(misses := s.misses + {key});
    assert Health(cfg, s, false, key, {}, {}) == missed;
    SecondMissTakesDown(cfg, missed, key);
  }

  /** A reachable run, with every command accepted: FAST starts while the plane is up, the plane goes down, and then FAST
      reaches a failing connection of its snapshot. Profile FAST has the tuple in TEST and a marking rule enabled. */
  lemma ReachableBreak(cfg: Config, s: Plane, f: Flow, key: nat)
    requires Up(s.rules) && key !in s.misses && cfg.profile.Fast? && FastFires(f) && Watched(f, cfg.direct)
    requires At(s.cells, TupleOf(f)).ok == [] && At(s.cells, TupleOf(f)).cooldown == [] && Count(s.rules, RouteOk) == 1
    requires Count(s.rules, Lazy(f.proto, f.port, OkMark)) == 0 && Count(s.rules, Lazy(f.proto, f.port, TestMark)) == 0
    ensures Down(Runs(cfg, s, TwoMisses(key)))
    ensures var now := Runs(cfg, s, TwoMisses(key) + [FastRow(f, {})]);
            At(now.cells, TupleOf(f)).test == [f.id] && Rule(Lazy(f.proto, f.port, TestMark), true) in now.rules
  {
    DownAfterTwoMisses(cfg, s, key);
    RunsAppend(cfg, s, TwoMisses(key), FastRow(f, {}));
    var down := Runs(cfg, s, TwoMisses(key));
    SwitchKeepsCount(s.rules, false, RouteOk);
    SwitchKeepsCount(s.rules, false, Lazy(f.proto, f.port, OkMark));
    SwitchKeepsCount(s.rules, false, Lazy(f.proto, f.port, TestMark));
    InFlightBreaksDown(cfg, down, f);
    LazyComesEnabled(down.rules, f.proto, f.port);
  }

  lemma CountTwo(a: Rule, b: Rule, c: Comment)
    ensures Count([a] + [b], c) == (if a.comment == c then 1 else 0) + if b.comment == c then 1 else 0
  {
    CountSplit([a], [b], c);
    assert [a][1..] == [] && [b][1..] == [];
  }

  const EIGHTS := 0x0808_0808

  /** The run with everything filled in; the destination is 8.8.8.8. */
  lemma BreakExample()
    ensures var s := Plane(map[], [Rule(HEALTH_RULE, true)] + [Rule(RouteOk, true)], map[], {}, {});
            var f := FlowOf(Tuple(Tcp, EIGHTS, 80), SynSent, 2, 0, NoMark);
            && Down(Runs(Config(Fast, {}, {}), s, TwoMisses(1)))
            && Rule(Lazy(Tcp, 80, TestMark), true) in Runs(Config(Fast, {}, {}), s, TwoMisses(1) + [FastRow(f, {})]).rules
  {
    var a, b := Rule(HEALTH_RULE, true), Rule(RouteOk, true);
    CountTwo(a, b, RouteOk);
    CountTwo(a, b, Lazy(Tcp, 80, OkMark));
    CountTwo(a, b, Lazy(Tcp, 80, TestMark));
    var s := Plane(map[], [a] + [b], map[], {}, {});
    assert s.rules[0] == a;
    ReachableBreak(Config(Fast, {}, {}), s, FlowOf(Tuple(Tcp, EIGHTS, 80), SynSent, 2, 0, NoMark), 1);
  }

  // ---- why the plane goes down ---------------------------------------------------------------------------

  lemma WithoutKeeps(rules: seq<Rule>, c: Comment, r: Rule)
    requires r in rules && r.comment != c
    ensures r in Without(rules, c)
  {
    if rules[0] != r { WithoutKeeps(rules[1..], c, r); }
  }

  lemma LazyRulesKeepOthers(rules: seq<Rule>, proto: Proto, port: nat, rejected: Rejected, r: Rule)
    requires r in rules && !r.comment.Lazy?
    ensures r in PrepareRules(rules, proto, port, rejected).1
  {
    if Count(rules, RouteOk) == 1 {
      LazyRuleKeepsOthers(rules, Lazy(proto, port, OkMark), LazyOkAdd, rejected, r);
      var mid := PrepareRule(rules, Lazy(proto, port, OkMark), LazyOkAdd, rejected).1;
      LazyRuleKeepsOthers(mid, Lazy(proto, port, TestMark), LazyTestAdd, rejected, r);
    }
  }

  lemma InsertKeepsMembers(rules: seq<Rule>, c: Comment, r: Rule)
    requires r in rules
    ensures r in InsertLazy(rules, c)
  {
    var i := IndexOf(rules, RouteOk);
    assert rules == rules[..i] + rules[i..];
  }

  lemma KeepFirstKeeps(rules: seq<Rule>, c: Comment, r: Rule)
    requires r in rules && r.comment != c
    ensures r in KeepFirst(rules, c)
  {
    if rules[0] != r {
      WithoutKeeps(rules[1..], c, r);
      KeepFirstKeeps(rules[1..], c, r);
    }
  }

  lemma LazyRuleKeepsOthers(rules: seq<Rule>, c: Comment, add: Command, rejected: Rejected, r: Rule)
    requires r in rules && r.comment != c
    ensures r in PrepareRule(rules, c, add, rejected).1
  {
    InsertKeepsMembers(rules, c, r);
    KeepFirstKeeps(if Count(rules, c) == 0 then InsertLazy(rules, c) else rules, c, r);
  }

  /** Only HEALTH takes the plane down, only on a miss, and only if an unexpired miss for the same address is on
      record. */
  lemma OnlySecondMiss(cfg: Config, s: Plane, e: PlaneEvent)
    requires Up(s.rules) && !Up(Move(cfg, s, e).rules)
    ensures e.Probe? && !e.answered && e.key in s.misses
  {
    if !e.Probe? { RowKeepsRule(cfg, s, e, Rule(HEALTH_RULE, true)); }
  }

  /** Since event `n` of the run the miss for `key` has neither expired nor been answered. */
  predicate Standing(events: seq<PlaneEvent>, n: nat, key: nat)
    requires n <= |events|
  {
    forall m :: n <= m < |events| ==> events[m] != MissExpiry(key) && !(Answers(events[m]) && ClearMisses !in events[m].turnedDown)
  }

  /** How the record of misses changes in one step. */
  lemma MissStep(cfg: Config, s: Plane, e: PlaneEvent, key: nat)
    requires Present(s.rules) && key in Move(cfg, s, e).misses
    ensures key in s.misses ==> e != MissExpiry(key) && !(Answers(e) && ClearMisses !in e.turnedDown)
    ensures key !in s.misses ==> e.Probe? && !e.answered && e.key == key
  {}

  lemma PresentStep(cfg: Config, s: Plane, e: PlaneEvent)
    requires Present(s.rules)
    ensures Present(Move(cfg, s, e).rules)
  {
    if e.Probe? {
      HealthKeepsPresent(cfg, s, e.answered, e.key, e.refused, e.turnedDown);
    } else {
      RowKeepsRule(cfg, s, e, if Up(s.rules) then Rule(HEALTH_RULE, true) else Rule(HEALTH_RULE, false));
    }
  }

  lemma HealthKeepsPresent(cfg: Config, s: Plane, answered: bool, key: nat, refused: set<ConnId>, rejected: set<HealthCommand>)
    requires Present(s.rules)
    ensures Present(Health(cfg, s, answered, key, refused, rejected).rules)
  {
    var r := if Up(s.rules) then Rule(HEALTH_RULE, true) else Rule(HEALTH_RULE, false);
    SetAutoKeeps(s.rules, true, r);
    SetAutoKeeps(s.rules, false, r);
    var after := Health(cfg, s, answered, key, refused, rejected).rules;
    assert after == s.rules || after == SetAuto(s.rules, true) || after == SetAuto(s.rules, false);
  }

  /** The flow scripts touch lazy rules only. */
  lemma RowKeepsRule(cfg: Config, s: Plane, e: PlaneEvent, r: Rule)
    requires !e.Probe? && r in s.rules && !r.comment.Lazy?
    ensures r in Move(cfg, s, e).rules
  {
    match e
    case FastRow(f, rejected) => LazyRulesKeepOthers(s.rules, f.proto, f.port, rejected, r);
    case SoftRow(f, left, rejected) => LazyRulesKeepOthers(s.rules, f.proto, f.port, rejected, r);
    case TestRow(f, rejected) => WithoutKeeps(s.rules, Lazy(f.proto, f.port, TestMark), r);
    case _ =>
  }

  lemma {:induction false} PresentStays(cfg: Config, s: Plane, events: seq<PlaneEvent>)
    requires Present(s.rules)
    ensures Present(Runs(cfg, s, events).rules)
    decreases |events|
  {
    if events != [] {
      PresentStays(cfg, s, events[..|events| - 1]);
      PresentStep(cfg, Runs(cfg, s, events[..|events| - 1]), events[|events| - 1]);
    }
  }

  /** Event `n` of the run is a missed probe for `key`, and the miss has been standing since. */
  predicate RealMiss(events: seq<PlaneEvent>, n: nat, key: nat) {
    && n < |events| && events[n].Probe? && !events[n].answered && events[n].key == key
    && Standing(events, n + 1, key)
  }

  /** A miss on record is a probe of the run for that address that was missed and has been standing since. */
  lemma {:induction false} MissesAreReal(cfg: Config, s: Plane, events: seq<PlaneEvent>, key: nat) returns (n: nat)
    requires Present(s.rules) && s.misses == {} && key in Runs(cfg, s, events).misses
    ensures RealMiss(events, n, key)
    decreases |events|
  {
    var last := |events| - 1;
    var front, e := events[..last], events[last];
    PresentStays(cfg, s, front);
    MissStep(cfg, Runs(cfg, s, front), e, key);
    if key in Runs(cfg, s, front).misses {
      n := MissesAreReal(cfg, s, front, key);
      MissStands(events, n, key);
    } else {
      n := last;
    }
  }

  lemma MissStands(events: seq<PlaneEvent>, n: nat, key: nat)
    requires events != [] && RealMiss(events[..|events| - 1], n, key)
    requires var e := events[|events| - 1]; e != MissExpiry(key) && !(Answers(e) && ClearMisses !in e.turnedDown)
    ensures RealMiss(events, n, key)
  {
    var front := events[..|events| - 1];
    forall m | n + 1 <= m < |events|
      ensures events[m] != MissExpiry(key) && !(Answers(events[m]) && ClearMisses !in events[m].turnedDown)
    {
      if m < |front| { assert front[m] == events[m]; }
    }
  }

  /** HEALTH takes the plane down only in a run in which the same address was missed before, and that miss has
      neither expired nor been answered since. */
  lemma DownNeedsTwoMisses(cfg: Config, s: Plane, events: seq<PlaneEvent>) returns (n: nat)
    requires Present(s.rules) && s.misses == {} && events != []
    requires Up(Runs(cfg, s, events[..|events| - 1]).rules) && !Up(Runs(cfg, s, events).rules)
    ensures var second := events[|events| - 1];
            && n < |events| - 1 && second.Probe? && !second.answered
            && events[n].Probe? && !events[n].answered && events[n].key == second.key
            && Standing(events[..|events| - 1], n + 1, second.key)
  {
    var front, e := events[..|events| - 1], events[|events| - 1];
    OnlySecondMiss(cfg, Runs(cfg, s, front), e);
    n := MissesAreReal(cfg, s, front, e.key);
  }

  // ---- one tuple at a time ---------------------------------------------------------------------------------

  /** What an event of the plane is to the tuple `t`: an observation of its own, an expiry of its own, a sweep by
      HEALTH, or nothing at all. */
  function Shown(cfg: Config, s: Plane, e: PlaneEvent, t: Tuple): seq<Event> {
    match e
    case FastRow(f, rejected) =>
      if FastScript in s.running && TupleOf(f) == t && FastFires(f) && Watched(f, cfg.direct)
      then [Failure(f.id, Ready(cfg, s, f, rejected), rejected)] else []
    case SoftRow(f, left, rejected) =>
      if SoftScript !in s.running || TupleOf(f) != t || !Watched(f, cfg.direct) then []
      else if SoftFires(f) then [Failure(f.id, Ready(cfg, s, f, rejected), rejected)]
      else if SoftSuspects(f) then [Stall(f.id, left <= 4, Ready(cfg, s, f, rejected), rejected)]
      else []
    case TestRow(f, rejected) =>
      if JudgeScript !in s.running || TupleOf(f) != t || !f.fromLan || f.dst in cfg.direct then []
      else if TestGood(f) then [GoodTest(f.id, rejected)]
      else if TestDead(f) then [BadTest(f.id, rejected)]
      else []
    case OkRow(f, aging, rejected) =>
      if JudgeScript !in s.running || TupleOf(f) != t || !f.fromLan || f.dst in cfg.direct then []
      else if OkDead(f) then [BadOk(f.id, rejected)]
      else if OkGood(f) then [GoodOk(aging, rejected)]
      else []
    case Probe(answered, key, refused, rejected) =>
      if TakesDown(s, answered, key, rejected) then [Lapse(SweepCells(At(s.cells, t), t.proto, rejected))] else []
    case Expiry(u, keep) => if u == t then [Lapse(keep)] else []
    case _ => []
  }

  predicate Ready(cfg: Config, s: Plane, f: Flow, rejected: Rejected) {
    && Proceeds(cfg.profile, At(s.cells, TupleOf(f)), f.id, rejected)
    && PrepareRules(s.rules, f.proto, f.port, rejected).0
  }

  predicate TakesDown(s: Plane, answered: bool, key: nat, rejected: set<HealthCommand>) {
    Up(s.rules) && !answered && key in s.misses && DisableRules !in rejected
  }

  function History(cfg: Config, s: Plane, events: seq<PlaneEvent>, t: Tuple): seq<Event> {
    if events == [] then []
    else
      var front := events[..|events| - 1];
      History(cfg, s, front, t) + Shown(cfg, Runs(cfg, s, front), events[|events| - 1], t)
  }

  lemma SweepIsExpiry(c: Cells, p: Proto, rejected: set<HealthCommand>)
    ensures Expire(c, SweepCells(c, p, rejected)) == SweepCells(c, p, rejected)
  {
    var k := SweepCells(c, p, rejected);
    KeptWithin(c.watch, k.watch);
    KeptWithin(c.test, k.test);
    KeptWithin(c.ok, k.ok);
    KeptWithin(c.cooldown, k.cooldown);
    KeptWithin(c.direct1, k.direct1);
    KeptWithin(c.awg1, k.awg1);
    KeptWithin(c.recheck, k.recheck);
  }

  /** The tuple changes exactly as its own part of the event says, and not at all if there is none; a row whose
      destination VPN Direct names has no part at all. */
  predicate Follows(cfg: Config, s: Plane, e: PlaneEvent, t: Tuple) {
    var own := Shown(cfg, s, e, t);
    && |own| <= 1
    && At(Move(cfg, s, e).cells, t) == (if own == [] then At(s.cells, t) else Next(cfg.profile, At(s.cells, t), own[0]))
    && (t.dst in cfg.direct && !e.Expiry? && !e.Probe? ==> own == [])
  }

  /** Every step of the whole plane, for every tuple. */
  lemma TupleStep(cfg: Config, s: Plane, e: PlaneEvent, t: Tuple)
    ensures Follows(cfg, s, e, t)
  {
    match e
    case FastRow(f, rejected) => FastTupleStep(cfg, s, f, rejected, t);
    case SoftRow(f, left, rejected) => SoftTupleStep(cfg, s, f, left, rejected, t);
    case TestRow(f, rejected) => TestTupleStep(cfg, s, f, rejected, t);
    case OkRow(f, aging, rejected) => OkTupleStep(cfg, s, f, aging, rejected, t);
    case Probe(answered, key, refused, rejected) => ProbeTupleStep(cfg, s, answered, key, refused, rejected, t);
    case _ => OtherTupleStep(cfg, s, e, t);
  }

  lemma OtherTupleStep(cfg: Config, s: Plane, e: PlaneEvent, t: Tuple)
    requires e.Start? || e.Finish? || e.Arrive? || e.Gone? || e.Expiry? || e.MissExpiry?
    ensures Follows(cfg, s, e, t)
  {}

  lemma ProbeTupleStep(cfg: Config, s: Plane, answered: bool, key: nat, refused: set<ConnId>, rejected: set<HealthCommand>, t: Tuple)
    ensures Follows(cfg, s, Probe(answered, key, refused, rejected), t)
  {
    SweptCells(cfg, s, answered, key, refused, rejected, t);
    SweepIsExpiry(At(s.cells, t), t.proto, rejected);
  }

  lemma SweptCells(cfg: Config, s: Plane, answered: bool, key: nat, refused: set<ConnId>, rejected: set<HealthCommand>, t: Tuple)
    ensures At(Health(cfg, s, answered, key, refused, rejected).cells, t) ==
            if TakesDown(s, answered, key, rejected) then SweepCells(At(s.cells, t), t.proto, rejected) else At(s.cells, t)
  {}

  lemma TestTupleStep(cfg: Config, s: Plane, f: Flow, rejected: Rejected, t: Tuple)
    ensures Follows(cfg, s, TestRow(f, rejected), t)
  {}

  lemma OkTupleStep(cfg: Config, s: Plane, f: Flow, aging: bool, rejected: Rejected, t: Tuple)
    ensures Follows(cfg, s, OkRow(f, aging, rejected), t)
  {}

  lemma FastTupleStep(cfg: Config, s: Plane, f: Flow, rejected: Rejected, t: Tuple)
    ensures Follows(cfg, s, FastRow(f, rejected), t)
  {}

  lemma SoftTupleStep(cfg: Config, s: Plane, f: Flow, left: nat, rejected: Rejected, t: Tuple)
    ensures Follows(cfg, s, SoftRow(f, left, rejected), t)
  {}

  lemma IsolationStep(cfg: Config, now: Plane, e: PlaneEvent, t: Tuple, h: seq<Event>)
    requires At(now.cells, t) == Run(cfg.profile, h).cells
    ensures At(Move(cfg, now, e).cells, t) == Run(cfg.profile, h + Shown(cfg, now, e, t)).cells
  {
    TupleStep(cfg, now, e, t);
    var x := Shown(cfg, now, e, t);
    if x == [] {
      assert h + x == h;
    } else {
      assert x == [x[0]];
      RunAppend(cfg.profile, h, x[0]);
    }
  }

  /** Tuple isolation: in every run of the whole plane, the state of a tuple is what the evidence machine makes of
      the tuple's own observations, expiries and sweeps. Other tuples act on it only through the rule list that all
      share: whether the rules could be made is part of the tuple's history. */
  lemma {:induction false} TupleIsolation(cfg: Config, s: Plane, events: seq<PlaneEvent>, t: Tuple)
    requires At(s.cells, t) == NO_CELLS
    ensures At(Runs(cfg, s, events).cells, t) == Run(cfg.profile, History(cfg, s, events, t)).cells
  {
    if events != [] {
      var front, e := events[..|events| - 1], events[|events| - 1];
      var now := Runs(cfg, s, front);
      TupleIsolation(cfg, s, front, t);
      IsolationStep(cfg, now, e, t, History(cfg, s, front, t));
    }
  }

  /** SLOW, on the whole plane: a confirmed tuple has its five observations, in order, among its own. */
  lemma SlowOnThePlane(cfg: Config, s: Plane, events: seq<PlaneEvent>, t: Tuple)
    returns (i: nat, j: nat, k: nat, l: nat, m: nat)
    requires cfg.profile.Slow? && At(s.cells, t) == NO_CELLS && WedgesLate(History(cfg, s, events, t))
    requires At(Runs(cfg, s, events).cells, t).ok != []
    ensures var h := Run(Slow, History(cfg, s, events, t)).history;
            && i < j < k < l < m < |h|
            && h[i].DirectFailed? && h[j].DirectFailed? && h[i].id != h[j].id
            && h[k].AwgHealthy? && h[l].DirectFailed? && h[l].rechecking
            && h[m].AwgHealthy? && h[k].id != h[m].id
  {
    TupleIsolation(cfg, s, events, t);
    i, j, k, l, m := SlowSafety(History(cfg, s, events, t));
  }

  // ---- rule order on the plane --------------------------------------------------------------------------------

  lemma {:induction false} KeepFirstKeepsOrder(rules: seq<Rule>, c: Comment)
    requires Ordered(rules) && Unique(rules)
    ensures Ordered(KeepFirst(rules, c)) && Unique(KeepFirst(rules, c))
    ensures forall r :: r in KeepFirst(rules, c) ==> r in rules
  {
    if rules == [] { return; }
    var tail := rules[1..];
    assert forall i :: 0 <= i < |tail| ==> tail[i] == rules[i + 1];
    OrderedTail(rules);
    var rest;
    if rules[0].comment == c {
      WithoutKeepsOrder(tail, c);
      rest := Without(tail, c);
    } else {
      KeepFirstKeepsOrder(tail, c);
      rest := KeepFirst(tail, c);
    }
    assert forall r :: r in rest ==> r in tail;
    PrependKeepsOrder(rules[0], rest);
  }

  lemma PrepareKeepsOrder(rules: seq<Rule>, proto: Proto, port: nat, kind: MarkKind, add: Command, rejected: Rejected)
    requires Ordered(rules) && Unique(rules) && Count(rules, RouteOk) == 1
    ensures var r := PrepareRule(rules, Lazy(proto, port, kind), add, rejected).1;
            Ordered(r) && Unique(r) && Count(r, RouteOk) == 1
  {
    var c := Lazy(proto, port, kind);
    ApplyKeeps(rules, AddLazy(proto, port, kind));
    PreparedRule(rules, c, add, rejected, RouteOk);
    var r := if Count(rules, c) == 0 then InsertLazy(rules, c) else rules;
    KeepFirstKeepsOrder(r, c);
  }

  /** Every step of the plane keeps the order of the mangle list. */
  lemma PlaneKeepsOrder(cfg: Config, s: Plane, e: PlaneEvent)
    requires Ordered(s.rules) && Unique(s.rules)
    ensures Ordered(Move(cfg, s, e).rules) && Unique(Move(cfg, s, e).rules)
  {
    match e
    case FastRow(f, rejected) => PreparesKeepOrder(s.rules, f.proto, f.port, rejected);
    case SoftRow(f, left, rejected) => PreparesKeepOrder(s.rules, f.proto, f.port, rejected);
    case TestRow(f, rejected) => WithoutKeepsOrder(s.rules, Lazy(f.proto, f.port, TestMark));
    case Probe(answered, key, refused, rejected) =>
      SwitchKeepsOrder(s.rules, true);
      SwitchKeepsOrder(s.rules, false);
    case _ =>
  }

  lemma PreparesKeepOrder(rules: seq<Rule>, proto: Proto, port: nat, rejected: Rejected)
    requires Ordered(rules) && Unique(rules)
    ensures Ordered(PrepareRules(rules, proto, port, rejected).1) && Unique(PrepareRules(rules, proto, port, rejected).1)
  {
    if Count(rules, RouteOk) == 1 {
      PrepareKeepsOrder(rules, proto, port, OkMark, LazyOkAdd, rejected);
      var r := PrepareRule(rules, Lazy(proto, port, OkMark), LazyOkAdd, rejected).1;
      PrepareKeepsOrder(r, proto, port, TestMark, LazyTestAdd, rejected);
    }
  }

  lemma SwitchKeepsOrder(rules: seq<Rule>, on: bool)
    requires Ordered(rules) && Unique(rules)
    ensures Ordered(SetAuto(rules, on)) && Unique(SetAuto(rules, on))
  {
    assert forall i :: 0 <= i < |rules| ==> SetAuto(rules, on)[i].comment == rules[i].comment;
  }

  // ---- the HEALTH script ------------------------------------------------------------------------------------------

  /** The tables HEALTH works on. */
  class HealthScript {
    const cfg: Config
    var cells: map<Tuple, Cells>
    var rules: seq<Rule>
    var conns: map<ConnId, Conn>
    var misses: set<nat>

    constructor (cfg: Config, s: Plane)
      ensures this.cfg == cfg && cells == s.cells && rules == s.rules && conns == s.conns && misses == s.misses
    {
      this.cfg := cfg;
      cells, rules, conns, misses := s.cells, s.rules, s.conns, s.misses;
    }

    function View(running: set<Script>): Plane
      reads this
    {
      Plane(cells, rules, conns, misses, running)
    }

    /** Connections of confirmed tuples that went DIRECT meanwhile are dropped, first the TCP ones, then the UDP ones. */
    method DropStrayed(proto: Proto, refused: set<ConnId>)
      modifies this`conns
      ensures conns == map id | id in old(conns) && (id in refused || old(conns)[id].tuple.proto != proto ||
                                                     !Strayed(cfg, cells, old(conns)[id])) :: old(conns)[id]
    {
      var snapshot := conns.Keys;
      var start := conns;
      while snapshot != {}
        invariant snapshot <= start.Keys
        invariant forall id :: id in conns ==> id in start && conns[id] == start[id]
        invariant forall id :: id in start ==> (id !in conns <==>
                    id !in snapshot && id !in refused && start[id].tuple.proto == proto && Strayed(cfg, cells, start[id]))
      {
        var id :| id in snapshot;
        snapshot := snapshot - {id};
        var c := start[id];
        if c.tuple.proto == proto {
          if c.mark.NoMark? && c.fromLan {
            if c.tuple.dst !in cfg.direct && At(cells, c.tuple).ok != [] && id !in refused { conns := conns - {id}; }
          }
        }
      }
    }

    method RunHealth(answered: bool, key: nat, refused: set<ConnId>, rejected: set<HealthCommand>, ghost running: set<Script>)
      modifies this
      ensures View(running) == Health(cfg, old(View(running)), answered, key, refused, rejected)
    {
      if !(Rule(HEALTH_RULE, true) in rules || Rule(HEALTH_RULE, false) in rules) { return; }
      var isDisabled := Rule(HEALTH_RULE, true) !in rules;
      if answered {
        if ClearMisses !in rejected { misses := {}; }
        if isDisabled && EnableRules !in rejected {
          rules := SetAuto(rules, true);
          DropStrayed(Tcp, refused);
          DropStrayed(Udp, refused);
          assert conns == Recovered(cfg, old(View(running)), refused);
        }
        return;
      }
      if isDisabled { return; }
      if key !in misses {
        if AddMiss !in rejected { misses := misses + {key}; }
        return;
      }
      if ClearMisses !in rejected { misses := {}; }
      if DisableRules in rejected { return; }
      rules := SetAuto(rules, false);
      if DropMarked(TestMark) !in rejected { conns := map id | id in conns && conns[id].mark != Marked(TestMark) :: conns[id]; }
      if DropMarked(OkMark) !in rejected { conns := map id | id in conns && conns[id].mark != Marked(OkMark) :: conns[id]; }
      cells := SweepAll(cells, rejected);
    }
  }
}
