/** The router as the controller sees it: objects it owns, objects that live on their own, and commands that may be
    rejected. Everything the controller does not decide (what happens between two commands, which commands are
    rejected, what a print still shows of removed objects, what an accepted write really stores) is an arbitrary
    function of the command number. */
module Router {
  import opened Namespace
  import opened RuleOrder

  type Id = nat
  datatype Option<+T> = None | Some(value: T)

  datatype ListName = PortList(family: Family, proto: Proto, port: nat) | LegacyList(family: Family, proto: Proto)
                    | OtherList(text: string)

  /** What a rule looks at, and the mark it gives; an attribute may be absent. */
  datatype Match = Match(proto: Option<Proto>, port: Option<nat>, list: Option<ListName>, mark: Mark)

  datatype Filter = Filter(comment: Comment, match_: Match, disabled: bool)
  datatype Entry = Entry(list: ListName, address: nat)
  datatype Conn = Conn(proto: Proto, port: nat, dst: nat, mark: Mark)
  datatype Role = Prod | Stage | Backup
  type Slot = k: nat | k < 4
  datatype Name = Managed(role: Role, k: Slot) | Other(text: string)
  datatype Script = Script(source: string, invalid: bool)
  datatype Scheduler = Scheduler(onEvent: Name, disabled: bool)
  datatype Job = Job(id: Id, script: Name)

  /** A source-NAT rule: ours or not, and whether it masquerades what leaves through the tunnel. */
  datatype Nat = Nat(ours: bool, tunnel: bool, disabled: bool)

  datatype State = State(
    scripts: map<Name, Script>, schedulers: map<Name, Scheduler>, jobs: set<Job>,
    rules: map<Id, Filter>, nats: map<Id, Nat>, entries: map<Id, Entry>, conns: map<Id, Conn>,
    next: Id)

  predicate IsState(l: ListName) { l.PortList? || l.LegacyList? }

  /** No object has an id that is still to be given out, and adaptive marks are given from adaptive lists only. */
  predicate WellFormed(s: State) {
    && (forall i :: i in s.rules && s.rules[i].match_.mark.Marked? ==>
          s.rules[i].match_.list.Some? && IsState(s.rules[i].match_.list.value))
    && (forall i :: i in s.rules ==> i < s.next) && (forall i :: i in s.nats ==> i < s.next)
    && (forall i :: i in s.entries ==> i < s.next) && (forall i :: i in s.conns ==> i < s.next)
  }

  predicate IsProd(n: Name) { n.Managed? && n.role.Prod? }

  /** None of the four managed schedulers can start a script. */
  predicate Paused(s: State) { forall n :: n in s.schedulers && IsProd(n) ==> s.schedulers[n].disabled }

  /** None of the four managed scripts is running. */
  predicate Idle(s: State) { forall j :: j in s.jobs ==> !IsProd(j.script) }

  predicate Quiet(s: State) { Paused(s) && Idle(s) }

  function StateFamily(kind: MarkKind): Family { if kind.TestMark? then Test else Ok }

  /** The attributes with which a rule of ours is made. */
  function MatchOf(c: Comment): Match {
    match c
    case Lazy(proto, port, kind) =>
      Match(Some(proto), Some(port), Some(PortList(StateFamily(kind), proto, port)), Marked(kind))
    case FixedMark(kind, proto) => Match(Some(proto), None, Some(LegacyList(StateFamily(kind), proto)), Marked(kind))
    case _ => Match(None, None, None, NoMark)
  }

  predicate Holds(s: State, list: ListName, address: nat) {
    exists e :: e in s.entries && s.entries[e] == Entry(list, address)
  }

  predicate Empty(s: State, list: ListName) { forall e :: e in s.entries ==> s.entries[e].list != list }

  /** The enabled rule `r` gives a new connection like `c` its mark. */
  predicate Gives(s: State, r: Id, c: Conn)
    requires r in s.rules
  {
    var f := s.rules[r];
    && !f.disabled && f.match_.mark.Marked? && f.match_.mark == c.mark && f.match_.list.Some?
    && (f.match_.proto.Some? ==> f.match_.proto.value == c.proto)
    && (f.match_.port.Some? ==> f.match_.port.value == c.port)
    && Holds(s, f.match_.list.value, c.dst)
  }

  predicate CanMark(s: State, c: Conn) { exists r :: r in s.rules && Gives(s, r, c) }

  /** The connection was marked before, or a packet has just been marked by a rule. */
  predicate Justified(s: State, i: Id, c: Conn) {
    c.mark.NoMark? || (i in s.conns && s.conns[i] == c) || CanMark(s, c)
  }

  /** With the managed scripts at rest: entries expire, connections come and go, packets may mark new ones. */
  ghost predicate QuietStep(s: State, t: State) {
    && t.rules == s.rules
    && (forall i :: i in t.entries && IsState(t.entries[i].list) ==> i in s.entries && s.entries[i] == t.entries[i])
    && (forall i :: i in t.conns ==> Justified(s, i, t.conns[i]))
  }

  /** Whatever the managed scripts do: they add and remove lazy rules, and enable or disable the AUTO-AWG ones. */
  ghost predicate FixedRulesStay(s: State, t: State) {
    && (forall i :: i in s.rules && !s.rules[i].comment.Lazy? ==>
          i in t.rules && (!IsAuto(s.rules[i].comment) ==> t.rules[i] == s.rules[i]))
    && (forall i :: i in t.rules && i !in s.rules ==> t.rules[i].comment.Lazy? || t.rules[i].comment.Foreign?)
  }

  /** A connection keeps its ends, and its mark once it has one. */
  predicate SameConn(c: Conn, d: Conn) { d == c.(mark := d.mark) && (c.mark.NoMark? || c == d) }

  predicate SameFilter(f: Filter, g: Filter) { g == f.(disabled := g.disabled) }

  /** An object keeps what it is for as long as it lives, and its id is never given out again. */
  ghost predicate SameObjects(s: State, t: State) {
    && s.next <= t.next
    && (forall i :: i in t.rules ==> i >= s.next || (i in s.rules && SameFilter(s.rules[i], t.rules[i])))
    && (forall i :: i in t.entries ==> i >= s.next || (i in s.entries && t.entries[i] == s.entries[i]))
    && (forall i :: i in t.conns ==> i >= s.next || (i in s.conns && SameConn(s.conns[i], t.conns[i])))
  }

  /** What may happen between two commands. */
  ghost predicate Elapse(s: State, t: State) {
    && t.scripts == s.scripts && t.schedulers == s.schedulers && t.nats == s.nats
    && SameObjects(s, t)
    && (Paused(s) ==> forall j :: j in t.jobs && IsProd(j.script) ==> j in s.jobs)
    && FixedRulesStay(s, t)
    && (Quiet(s) ==> QuietStep(s, t))
  }

  lemma ElapseNothing(s: State)
    ensures Elapse(s, s)
  {}

  lemma CanMarkBack(s: State, t: State, c: Conn)
    requires QuietStep(s, t) && WellFormed(t) && CanMark(t, c)
    ensures CanMark(s, c)
  {
    var r :| r in t.rules && Gives(t, r, c);
    var list := t.rules[r].match_.list.value;
    var e :| e in t.entries && t.entries[e] == Entry(list, c.dst);
    assert s.entries[e] == Entry(list, c.dst);
    assert Holds(s, list, c.dst) && s.rules[r] == t.rules[r];
    assert Gives(s, r, c);
  }

  lemma QuietStays(s: State, t: State)
    requires Quiet(s) && Elapse(s, t)
    ensures Quiet(t)
  {}

  lemma QuietStepChain(s: State, t: State, u: State)
    requires WellFormed(t) && QuietStep(s, t) && QuietStep(t, u)
    ensures QuietStep(s, u)
  {
    forall i | i in u.conns ensures Justified(s, i, u.conns[i]) {
      var c := u.conns[i];
      assert Justified(t, i, c);
      if !c.mark.NoMark? && CanMark(t, c) {
        CanMarkBack(s, t, c);
      } else if !c.mark.NoMark? {
        assert t.conns[i] == c && Justified(s, i, c);
      }
    }
  }

  /** Two spells of waiting make one: sleeps and the gaps between commands need no accounting. */
  lemma ElapseChain(s: State, t: State, u: State)
    requires WellFormed(s) && WellFormed(t) && Elapse(s, t) && Elapse(t, u)
    ensures Elapse(s, u)
  {
    if Quiet(s) {
      QuietStays(s, t);
      QuietStepChain(s, t, u);
    }
  }

  // ---- commands -------------------------------------------------------------------------------------------

  /** What the adaptive-state cleanup collects. */
  datatype Kind = LazyRules | PortLists | LegacyLists | Marks | AutoRules

  function Matching(s: State, k: Kind): set<Id> {
    match k
    case LazyRules => set i | i in s.rules && s.rules[i].comment.Lazy?
    case PortLists => set i | i in s.entries && s.entries[i].list.PortList?
    case LegacyLists => set i | i in s.entries && s.entries[i].list.LegacyList?
    case Marks => set i | i in s.conns && s.conns[i].mark.Marked?
    case AutoRules => set i | i in s.rules && IsAuto(s.rules[i].comment)
  }

  function Ids(s: State, k: Kind): set<Id> {
    match k
    case LazyRules => s.rules.Keys
    case PortLists => s.entries.Keys
    case LegacyLists => s.entries.Keys
    case Marks => s.conns.Keys
    case AutoRules => s.rules.Keys
  }

  function Drop(s: State, k: Kind, i: Id): State {
    match k
    case LazyRules => s.(rules := s.rules - {i})
    case PortLists => s.(entries := s.entries - {i})
    case LegacyLists => s.(entries := s.entries - {i})
    case Marks => s.(conns := s.conns - {i})
    case AutoRules => s.(rules := s.rules - {i})
  }

  lemma DropWellFormed(s: State, k: Kind, i: Id)
    requires WellFormed(s)
    ensures WellFormed(Drop(s, k, i))
  {}

  predicate AllAutoDisabled(s: State) { forall i :: i in s.rules && IsAuto(s.rules[i].comment) ==> s.rules[i].disabled }

  function Disabled(s: State, i: Id): State {
    if i in s.rules then s.(rules := s.rules[i := s.rules[i].(disabled := true)]) else s
  }

  function Commented(s: State, c: Comment): set<Id> { set i | i in s.rules && s.rules[i].comment == c }

  function Marking(s: State, kind: MarkKind): set<Id> { set i | i in s.rules && s.rules[i].match_.mark == Marked(kind) }

  function LazyMarking(s: State, kind: MarkKind): set<Id> { set i | i in Marking(s, kind) && s.rules[i].comment.Lazy? }

  function MarkedConns(s: State, kind: MarkKind): set<Id> { set i | i in s.conns && s.conns[i].mark == Marked(kind) }

  /** In the order of a print. */
  function Sorted(ids: set<Id>): (s: seq<Id>)
    ensures forall i :: i in s <==> i in ids
    ensures |s| == |ids| && forall j, k :: 0 <= j < k < |s| ==> s[j] != s[k]
    decreases |ids|
  {
    if ids == {} then [] else
    var i := LeastOf(ids);
    assert i !in ids - {i} && |ids - {i}| == |ids| - 1;
    [i] + Sorted(ids - {i})
  }

  // ---- objects of an installation --------------------------------------------------------------------------

  datatype Object = ScriptObject(k: Slot) | RuleObject(c: Comment) | NatObject | SchedulerObject(k: Slot)

  /** The ids under which the object is found; scripts and schedulers go by name. */
  predicate IsAt(s: State, o: Object, i: Id) {
    match o
    case ScriptObject(k) => Managed(Prod, k) in s.scripts
    case RuleObject(c) => i in s.rules && s.rules[i].comment == c
    case NatObject => i in s.nats && s.nats[i].ours
    case SchedulerObject(k) => Managed(Prod, k) in s.schedulers
  }

  /** Where to find it, if anywhere. */
  function AnyAt(s: State, o: Object): (found: Option<Id>)
    ensures found.Some? ==> IsAt(s, o, found.value)
    ensures found.None? ==> forall i :: !IsAt(s, o, i)
  {
    match o
    case ScriptObject(k) => if Managed(Prod, k) in s.scripts then Some(0) else None
    case RuleObject(c) =>
      var ids := set i | i in s.rules && s.rules[i].comment == c;
      assert forall i :: IsAt(s, o, i) <==> i in ids;
      Least(ids)
    case NatObject =>
      var ids := set i | i in s.nats && s.nats[i].ours;
      assert forall i :: IsAt(s, o, i) <==> i in ids;
      Least(ids)
    case SchedulerObject(k) => if Managed(Prod, k) in s.schedulers then Some(0) else None
  }

  function Least(ids: set<Id>): (least: Option<Id>)
    ensures least.None? <==> ids == {}
    ensures least.Some? ==> least.value in ids
  {
    if ids == {} then None else Some(LeastOf(ids))
  }

  function LeastOf(ids: set<Id>): (least: Id)
    requires ids != {}
    ensures least in ids
  {
    HasLeast(ids);
    var i :| i in ids && forall j :: j in ids ==> i <= j;
    i
  }

  lemma {:induction false} HasLeast(ids: set<Id>)
    requires ids != {}
    ensures exists i :: i in ids && forall j :: j in ids ==> i <= j
  {
    var i :| i in ids;
    var rest := ids - {i};
    if rest == {} {
      assert ids == {i};
    } else {
      HasLeast(rest);
      var k :| k in rest && forall j :: j in rest ==> k <= j;
      var least := if i < k then i else k;
      assert forall j :: j in ids ==> j == i || j in rest;
      assert least in ids && forall j :: j in ids ==> least <= j;
    }
  }

  predicate Off(s: State, o: Object, i: Id)
    requires IsAt(s, o, i)
  {
    match o
    case ScriptObject(k) => false
    case RuleObject(c) => s.rules[i].disabled
    case NatObject => s.nats[i].disabled
    case SchedulerObject(k) => s.schedulers[Managed(Prod, k)].disabled
  }

  /** A new object comes disabled. */
  function Added(s: State, o: Object, kept: Script): State {
    match o
    case ScriptObject(k) => s.(scripts := s.scripts[Managed(Prod, k) := kept])
    case RuleObject(c) => s.(rules := s.rules[s.next := Filter(c, MatchOf(c), true)], next := s.next + 1)
    case NatObject => s.(nats := s.nats[s.next := Nat(true, true, true)], next := s.next + 1)
    case SchedulerObject(k) => s.(schedulers := s.schedulers[Managed(Prod, k) := Scheduler(Managed(Prod, k), true)])
  }

  function Enabled(s: State, o: Object, i: Id): State
    requires IsAt(s, o, i)
  {
    match o
    case ScriptObject(k) => s
    case RuleObject(c) => s.(rules := s.rules[i := s.rules[i].(disabled := false)])
    case NatObject => s.(nats := s.nats[i := s.nats[i].(disabled := false)])
    case SchedulerObject(k) => var n := Managed(Prod, k);
                               s.(schedulers := s.schedulers[n := s.schedulers[n].(disabled := false)])
  }

  function Erased(s: State, o: Object, i: Id): State {
    match o
    case ScriptObject(k) => s.(scripts := s.scripts - {Managed(Prod, k)})
    case RuleObject(c) => s.(rules := s.rules - {i})
    case NatObject => s.(nats := s.nats - {i})
    case SchedulerObject(k) => s.(schedulers := s.schedulers - {Managed(Prod, k)})
  }

  /** What the controller does not control, by number of the command. `keeps` is the text an accepted write leaves in
      a script and whether the router finds it invalid. */
  datatype Oracle = Oracle(
    step: (nat, State) -> State,
    refuses: nat -> bool,
    gone: (nat, Kind) -> set<Id>,
    misses: nat -> bool,
    keeps: (nat, string) -> Script,
    digest: string -> nat)

  ghost predicate Lawful(o: Oracle) {
    forall n, s :: WellFormed(s) ==> Elapse(s, o.step(n, s)) && WellFormed(o.step(n, s))
  }

  /** From command `from` on nothing is refused and every print is up to date. */
  ghost predicate Cooperative(o: Oracle, from: nat) {
    && (forall n :: from <= n ==> !o.refuses(n))
    && (forall n, k :: from <= n ==> o.gone(n, k) == {})
  }

  lemma CooperativeLater(o: Oracle, from: nat, later: nat)
    requires from <= later
    ensures Cooperative(o, from) ==> Cooperative(o, later)
  {}

  function Calm(n: nat, s: State): State { s }

  /** The rules for the surroundings can be met: a router on which nothing else happens is lawful. */
  lemma CalmIsLawful(o: Oracle)
    requires o.step == Calm
    ensures Lawful(o)
  {
    forall s ensures Elapse(s, s) { ElapseNothing(s); }
  }

  /** From position `from` on, every recorded state has the managed schedulers paused. */
  ghost predicate AllPaused(trail: seq<State>, from: nat) { forall i :: from <= i < |trail| ==> Paused(trail[i]) }

  /** The record of states went on from `a` to `b`, and if the schedulers were paused at `a` they stayed so all along. */
  ghost predicate Held(a: seq<State>, b: seq<State>) {
    a != [] && a <= b && (Paused(a[|a| - 1]) ==> AllPaused(b, |a|))
  }

  lemma HeldChain(a: seq<State>, b: seq<State>, c: seq<State>)
    requires Held(a, b) && Held(b, c)
    ensures Held(a, c)
  {
    if Paused(a[|a| - 1]) {
      assert Paused(b[|b| - 1]);
      forall i | |a| <= i < |c| ensures Paused(c[i]) { if i < |b| { assert c[i] == b[i]; } }
    }
  }

  lemma HeldNothing(a: seq<State>)
    requires a != []
    ensures Held(a, a)
  {}

  /** A command that enables no scheduler. */
  lemma HeldStep(a: seq<State>, seen: State, left: State)
    requires a != [] && Elapse(a[|a| - 1], seen) && left.schedulers == seen.schedulers
    ensures Held(a, a + [seen, left])
  {}

  /** A write command for a production script: whether it met a router at rest, and its number. */
  datatype Write = Write(name: Name, quiet: bool, at: nat)

  /** What a removal took away, if anything. */
  datatype Gone = RuleGone(rule: Filter) | EntryGone(entry: Entry) | ConnGone(conn: Conn) | NothingGone

  /** A removal command: what it was for, what it did, and where the state it met stands in the record of states. */
  datatype Removal = Removal(kind: Kind, id: Id, gone: Gone, at: nat)

  function TakenAway(s: State, k: Kind, i: Id): Gone {
    if i !in Ids(s, k) then NothingGone
    else match k
      case LazyRules => RuleGone(s.rules[i])
      case PortLists => EntryGone(s.entries[i])
      case LegacyLists => EntryGone(s.entries[i])
      case Marks => ConnGone(s.conns[i])
      case AutoRules => RuleGone(s.rules[i])
  }

  class Device {
    const oracle: Oracle
    var state: State
    var clock: nat
    ghost var seen: State              // the state the last command met
    ghost var trail: seq<State>        // the state at first, then what every command met and left
    ghost var writes: seq<Write>
    ghost var removals: seq<Removal>

    ghost predicate Valid()
      reads this
    {
      Lawful(oracle) && WellFormed(state) && |trail| == 2 * clock + 1 && trail[2 * clock] == state
    }

    constructor (o: Oracle, s: State)
      requires Lawful(o) && WellFormed(s)
      ensures Valid() && oracle == o && state == s && clock == 0 && trail == [s] && writes == [] && removals == []
    {
      oracle, state, clock, seen, trail, writes, removals := o, s, 0, s, [s], [], [];
    }

    /** The last command met `seen`; it was the one before this many. */
    twostate predicate Issued(taken: bool)
      reads this
    {
      && Valid() && clock == old(clock) + 1 && taken == !oracle.refuses(old(clock))
      && Elapse(old(state), seen) && WellFormed(seen) && (!taken ==> state == seen)
      && seen == oracle.step(old(clock), old(state)) && trail == old(trail) + [seen, state]
    }

    /** Time passes, then the next command is taken or refused. */
    method Tick() returns (taken: bool)
      requires Valid()
      modifies this
      ensures Issued(taken) && state == seen && writes == old(writes) && removals == old(removals)
    {
      state := oracle.step(clock, state);
      seen := state;
      trail := trail + [state, state];
      taken := !oracle.refuses(clock);
      clock := clock + 1;
    }

    /** A print: it never leaves out an object, but may still show some that are gone. */
    method Print(k: Kind) returns (taken: bool, ids: set<Id>)
      requires Valid()
      modifies this
      ensures Issued(taken) && state == seen && writes == old(writes) && removals == old(removals)
      ensures Matching(state, k) <= ids
      ensures forall i :: i in ids && i !in Matching(state, k) ==> i < state.next && i !in Ids(state, k)
      ensures oracle.gone(old(clock), k) == {} ==> ids == Matching(state, k)
    {
      var shown := oracle.gone(clock, k);
      taken := Tick();
      ids := Matching(state, k) + set i | i in shown && i < state.next && i !in Ids(state, k);
    }

    method Remove(k: Kind, i: Id) returns (taken: bool)
      requires Valid()
      modifies this
      ensures Issued(taken) && writes == old(writes)
      ensures taken ==> state == Drop(seen, k, i)
      ensures removals == old(removals) +
        [Removal(k, i, if taken then TakenAway(seen, k, i) else NothingGone, |old(trail)|)]
    {
      taken := Tick();
      removals := removals + [Removal(k, i, if taken then TakenAway(state, k, i) else NothingGone, |trail| - 2)];
      if taken {
        DropWellFormed(state, k, i);
        state := Drop(state, k, i);
        trail := trail[|trail| - 1 := state];
      }
    }

    /** A print of the comments and flags of all rules: does it show an enabled AUTO-AWG rule? */
    method ShowsAutoEnabled() returns (taken: bool, any: bool)
      requires Valid()
      modifies this
      ensures Issued(taken) && state == seen && writes == old(writes) && removals == old(removals)
      ensures AllAutoDisabled(state) || any
      ensures oracle.gone(old(clock), AutoRules) == {} ==> (any <==> !AllAutoDisabled(state))
    {
      var shown := oracle.gone(clock, AutoRules);
      taken := Tick();
      any := shown != {} || !AllAutoDisabled(state);
    }

    method Disable(i: Id) returns (taken: bool)
      requires Valid()
      modifies this
      ensures Issued(taken) && writes == old(writes) && removals == old(removals)
      ensures taken ==> state == Disabled(seen, i)
    {
      taken := Tick();
      if taken {
        state := Disabled(state, i);
        trail := trail[|trail| - 1 := state];
      }
    }

    // Scripts and schedulers. A lookup may miss an object for a while, but what it shows is current.

    method LookupScript(n: Name) returns (taken: bool, found: Option<Script>)
      requires Valid()
      modifies this
      ensures Issued(taken) && state == seen && writes == old(writes) && removals == old(removals)
      ensures found.Some? ==> n in state.scripts && found.value == state.scripts[n]
      ensures !oracle.misses(old(clock)) ==> (found.Some? <==> n in state.scripts)
    {
      var missed := oracle.misses(clock);
      taken := Tick();
      found := if n in state.scripts && !missed then Some(state.scripts[n]) else None;
    }

    method LookupScheduler(n: Name) returns (taken: bool, found: Option<Scheduler>)
      requires Valid()
      modifies this
      ensures Issued(taken) && state == seen && writes == old(writes) && removals == old(removals)
      ensures found.Some? ==> n in state.schedulers && found.value == state.schedulers[n]
      ensures !oracle.misses(old(clock)) ==> (found.Some? <==> n in state.schedulers)
    {
      var missed := oracle.misses(clock);
      taken := Tick();
      found := if n in state.schedulers && !missed then Some(state.schedulers[n]) else None;
    }

    /** A print of the running jobs: is a managed script among them? */
    method ShowsManagedJob() returns (taken: bool, busy: bool)
      requires Valid()
      modifies this
      ensures Issued(taken) && state == seen && writes == old(writes) && removals == old(removals)
      ensures busy <==> !Idle(state)
    {
      taken := Tick();
      busy := !Idle(state);
    }

    method SetDisabled(n: Name, disabled: bool) returns (taken: bool)
      requires Valid() && n in state.schedulers
      modifies this
      ensures Issued(taken) && writes == old(writes) && removals == old(removals) && n in seen.schedulers
      ensures taken ==> state == seen.(schedulers := seen.schedulers[n := seen.schedulers[n].(disabled := disabled)])
    {
      taken := Tick();
      if taken {
        state := state.(schedulers := state.schedulers[n := state.schedulers[n].(disabled := disabled)]);
        trail := trail[|trail| - 1 := state];
      }
    }

    method SetSource(n: Name, text: string) returns (taken: bool)
      requires Valid() && n in state.scripts
      modifies this
      ensures Issued(taken) && removals == old(removals)
      ensures taken ==> state == seen.(scripts := seen.scripts[n := oracle.keeps(old(clock), text)])
      ensures writes == old(writes) + (if IsProd(n) then [Write(n, Quiet(seen), old(clock))] else [])
    {
      var kept := oracle.keeps(clock, text);
      taken := Tick();
      if IsProd(n) { writes := writes + [Write(n, Quiet(state), clock - 1)]; }
      if taken {
        state := state.(scripts := state.scripts[n := kept]);
        trail := trail[|trail| - 1 := state];
      }
    }

    /** Refused as well when the name is in use. */
    method AddScript(n: Name, text: string) returns (taken: bool)
      requires Valid() && !IsProd(n)
      modifies this
      ensures Valid() && clock == old(clock) + 1 && Elapse(old(state), seen) && WellFormed(seen)
      ensures trail == old(trail) + [seen, state]
      ensures taken == (!oracle.refuses(old(clock)) && n !in seen.scripts)
      ensures state == if taken then seen.(scripts := seen.scripts[n := oracle.keeps(old(clock), text)]) else seen
      ensures writes == old(writes) && removals == old(removals)
    {
      var kept := oracle.keeps(clock, text);
      taken := Tick();
      taken := taken && n !in state.scripts;
      if taken {
        state := state.(scripts := state.scripts[n := kept]);
        trail := trail[|trail| - 1 := state];
      }
    }

    method RemoveScript(n: Name) returns (taken: bool)
      requires Valid() && !IsProd(n)
      modifies this
      ensures Issued(taken) && writes == old(writes) && removals == old(removals)
      ensures taken ==> state == seen.(scripts := seen.scripts - {n})
    {
      taken := Tick();
      if taken {
        state := state.(scripts := state.scripts - {n});
        trail := trail[|trail| - 1 := state];
      }
    }

    // Objects of an installation, looked up by name or comment.

    /** A lookup: an object that has been there all along is always shown, a new one may be missed. */
    method Find(o: Object, new_: bool) returns (taken: bool, found: Option<Id>)
      requires Valid()
      modifies this
      ensures Issued(taken) && state == seen && writes == old(writes) && removals == old(removals)
      ensures found.Some? ==> IsAt(state, o, found.value)
      ensures !new_ || !oracle.misses(old(clock)) ==> (found.Some? <==> exists i :: IsAt(state, o, i))
    {
      var missed := new_ && oracle.misses(clock);
      taken := Tick();
      found := if missed then None else AnyAt(state, o);
    }

    /** Refused as well when a script or scheduler of that name exists. */
    method Add(o: Object, text: string) returns (taken: bool)
      requires Valid()
      modifies this
      ensures Valid() && clock == old(clock) + 1 && Elapse(old(state), seen) && WellFormed(seen)
      ensures trail == old(trail) + [seen, state]
      ensures taken == (!oracle.refuses(old(clock)) && (o.ScriptObject? || o.SchedulerObject? ==> !IsAt(seen, o, 0)))
      ensures state == if taken then Added(seen, o, oracle.keeps(old(clock), text)) else seen
      ensures writes == old(writes) && removals == old(removals)
    {
      var kept := oracle.keeps(clock, text);
      taken := Tick();
      taken := taken && (o.ScriptObject? || o.SchedulerObject? ==> !IsAt(state, o, 0));
      if taken {
        state := Added(state, o, kept);
        trail := trail[|trail| - 1 := state];
      }
    }

    method Enable(o: Object, i: Id) returns (taken: bool)
      requires Valid() && IsAt(state, o, i) && !(o.RuleObject? && o.c.Lazy?)
      modifies this
      ensures Issued(taken) && writes == old(writes) && removals == old(removals) && IsAt(seen, o, i)
      ensures taken ==> state == Enabled(seen, o, i)
    {
      taken := Tick();
      if taken {
        state := Enabled(state, o, i);
        trail := trail[|trail| - 1 := state];
      }
    }

    method Erase(o: Object, i: Id) returns (taken: bool)
      requires Valid()
      modifies this
      ensures Issued(taken) && writes == old(writes) && removals == old(removals)
      ensures taken ==> state == Erased(seen, o, i)
    {
      taken := Tick();
      if taken {
        state := Erased(state, o, i);
        trail := trail[|trail| - 1 := state];
      }
    }

    method ShowsTunnelNat() returns (taken: bool, any: bool)
      requires Valid()
      modifies this
      ensures Issued(taken) && state == seen && writes == old(writes) && removals == old(removals)
      ensures any <==> exists i :: i in state.nats && state.nats[i].tunnel && !state.nats[i].disabled
    {
      taken := Tick();
      any := exists i :: i in state.nats && state.nats[i].tunnel && !state.nats[i].disabled;
    }

    // Narrow queries of the garbage collector.

    method ShowsJob(n: Name) returns (taken: bool, busy: bool)
      requires Valid()
      modifies this
      ensures Issued(taken) && state == seen && writes == old(writes) && removals == old(removals)
      ensures busy <==> exists j :: j in state.jobs && j.script == n
    {
      taken := Tick();
      busy := exists j :: j in state.jobs && j.script == n;
    }

    /** How many rules carry the comment, and whether one of them is disabled. */
    method ShowsRules(c: Comment) returns (taken: bool, count: nat, off: bool)
      requires Valid()
      modifies this
      ensures Issued(taken) && state == seen && writes == old(writes) && removals == old(removals)
      ensures count == |Commented(state, c)| && (off <==> exists i :: i in Commented(state, c) && state.rules[i].disabled)
    {
      taken := Tick();
      count := |Commented(state, c)|;
      off := exists i :: i in Commented(state, c) && state.rules[i].disabled;
    }

    /** The number of rules that give the mark. */
    method CountMarking(kind: MarkKind) returns (taken: bool, count: nat)
      requires Valid()
      modifies this
      ensures Issued(taken) && state == seen && writes == old(writes) && removals == old(removals)
      ensures count == |Marking(state, kind)|
    {
      taken := Tick();
      count := |Marking(state, kind)|;
    }

    /** The lazy ones among the rules that give the mark, with their attributes. */
    method LazyRows(kind: MarkKind) returns (taken: bool, ids: seq<Id>, rows: map<Id, Filter>)
      requires Valid()
      modifies this
      ensures Issued(taken) && state == seen && writes == old(writes) && removals == old(removals)
      ensures ids == Sorted(LazyMarking(state, kind)) && rows == state.rules
    {
      taken := Tick();
      ids, rows := Sorted(LazyMarking(state, kind)), state.rules;
    }

    /** Does a print of the rules with this comment show the id? It may for a while after the rule has gone. */
    method ShowsRule(i: Id, c: Comment) returns (taken: bool, there: bool)
      requires Valid()
      modifies this
      ensures Issued(taken) && state == seen && writes == old(writes) && removals == old(removals)
      ensures i in Commented(state, c) ==> there
      ensures oracle.gone(old(clock), AutoRules) == {} ==> (there <==> i in Commented(state, c))
    {
      var shown := oracle.gone(clock, AutoRules);
      taken := Tick();
      there := i in Commented(state, c) || i in shown;
    }

    method CountMarked(kind: MarkKind) returns (taken: bool, count: nat)
      requires Valid()
      modifies this
      ensures Issued(taken) && state == seen && writes == old(writes) && removals == old(removals)
      ensures count == |MarkedConns(state, kind)|
    {
      taken := Tick();
      count := |MarkedConns(state, kind)|;
    }

    method MarkedRows(kind: MarkKind) returns (taken: bool, ids: seq<Id>, rows: map<Id, Conn>)
      requires Valid()
      modifies this
      ensures Issued(taken) && state == seen && writes == old(writes) && removals == old(removals)
      ensures ids == Sorted(MarkedConns(state, kind)) && rows == state.conns
    {
      taken := Tick();
      ids, rows := Sorted(MarkedConns(state, kind)), state.conns;
    }

    /** Does a print of the connections with this mark show one of the ids? */
    method ShowsMarked(ids: set<Id>, kind: MarkKind) returns (taken: bool, any: bool)
      requires Valid()
      modifies this
      ensures Issued(taken) && state == seen && writes == old(writes) && removals == old(removals)
      ensures ids * MarkedConns(state, kind) != {} ==> any
      ensures oracle.gone(old(clock), Marks) == {} ==> (any <==> ids * MarkedConns(state, kind) != {})
    {
      var shown := oracle.gone(clock, Marks);
      taken := Tick();
      any := ids * (MarkedConns(state, kind) + shown) != {};
    }

    /** Is the list without entries? */
    method ListEmpty(list: ListName) returns (taken: bool, empty: bool)
      requires Valid()
      modifies this
      ensures Issued(taken) && state == seen && writes == old(writes) && removals == old(removals)
      ensures empty <==> Empty(state, list)
    {
      taken := Tick();
      empty := Empty(state, list);
    }

    method ListHolds(list: ListName, address: nat) returns (taken: bool, found: bool)
      requires Valid()
      modifies this
      ensures Issued(taken) && state == seen && writes == old(writes) && removals == old(removals)
      ensures found <==> Holds(state, list, address)
    {
      taken := Tick();
      found := Holds(state, list, address);
    }
  }
}
