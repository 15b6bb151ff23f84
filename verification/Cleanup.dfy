/** Clearing the adaptive state of a live router: bounded retries against expiring entries, new connections and stale
    prints, in an order that leaves nothing behind. */
module Cleanup {
  import opened Namespace
  import opened RuleOrder
  import opened Router

  const ATTEMPTS := 20
  const UINT_MAX := 0xFFFF_FFFF

  /** While a cleanup works: scripts and schedulers stay, and with the scripts at rest everything only shrinks, save
      marks that a packet got from a rule and a list that were there. */
  ghost predicate Settles(s: State, t: State) {
    && t.scripts == s.scripts && t.schedulers == s.schedulers && t.nats == s.nats
    && SameObjects(s, t)
    && (Quiet(s) ==> Quiet(t) && Shrinks(s, t))
  }

  ghost predicate Shrinks(s: State, t: State) {
    && (forall i :: i in t.rules ==> i in s.rules && t.rules[i] in {s.rules[i], s.rules[i].(disabled := true)})
    && (forall i :: i in t.entries && IsState(t.entries[i].list) ==> i in s.entries && s.entries[i] == t.entries[i])
    && (forall i :: i in t.conns ==> Justified(s, i, t.conns[i]))
  }

  lemma ElapseSettles(s: State, t: State)
    requires Elapse(s, t)
    ensures Settles(s, t)
  {}

  lemma CanMarkShrinks(s: State, t: State, c: Conn)
    requires WellFormed(s) && WellFormed(t) && Shrinks(s, t) && CanMark(t, c)
    ensures CanMark(s, c)
  {
    var r :| r in t.rules && Gives(t, r, c);
    var list := t.rules[r].match_.list.value;
    var e :| e in t.entries && t.entries[e] == Entry(list, c.dst);
    assert s.entries[e] == Entry(list, c.dst);
    assert Holds(s, list, c.dst) && s.rules[r] == t.rules[r];
    assert Gives(s, r, c);
  }

  lemma SettlesChain(s: State, t: State, u: State)
    requires WellFormed(s) && Settles(s, t) && Settles(t, u) && WellFormed(t)
    ensures Settles(s, u)
  {
    if Quiet(s) {
      forall i | i in u.conns ensures Justified(s, i, u.conns[i]) {
        var c := u.conns[i];
        assert Justified(t, i, c);
        if !c.mark.NoMark? && CanMark(t, c) {
          CanMarkShrinks(s, t, c);
        } else if !c.mark.NoMark? {
          assert t.conns[i] == c && Justified(s, i, c);
        }
      }
    }
  }

  lemma DropSettles(s: State, k: Kind, i: Id)
    ensures Settles(s, Drop(s, k, i))
  {}

  lemma DisabledSettles(s: State, i: Id)
    ensures Settles(s, Disabled(s, i))
  {}

  /** The controller's cleanup so far: the state drifted as above, everything removed was of the kind asked for, and
      rules that are not lazy are as they were. */
  ghost predicate Progress(k: Kind, s: State, t: State, before: seq<Removal>, after: seq<Removal>) {
    && Settles(s, t) && KeepsFixed(s, t)
    && |before| <= |after| && after[..|before|] == before
    && forall n :: |before| <= n < |after| ==> OfKind(after[n], k)
  }

  /** Rules other than lazy ones stay, and with the scripts at rest stay exactly as they were. */
  ghost predicate KeepsFixed(s: State, t: State) {
    && FixedRulesStay(s, t)
    && (Quiet(s) ==> forall i :: i in s.rules && !s.rules[i].comment.Lazy? ==> t.rules[i] == s.rules[i])
  }

  predicate OfKind(x: Removal, k: Kind) {
    && x.kind == k
    && match k
       case LazyRules => x.gone.NothingGone? || (x.gone.RuleGone? && x.gone.rule.comment.Lazy?)
       case PortLists => x.gone.NothingGone? || (x.gone.EntryGone? && x.gone.entry.list.PortList?)
       case LegacyLists => x.gone.NothingGone? || (x.gone.EntryGone? && x.gone.entry.list.LegacyList?)
       case Marks => x.gone.NothingGone? || (x.gone.ConnGone? && x.gone.conn.mark.Marked?)
       case AutoRules => false
  }

  lemma KeepsFixedChain(s: State, t: State, u: State)
    requires WellFormed(s) && WellFormed(t) && Settles(s, t) && Settles(t, u) && KeepsFixed(s, t) && KeepsFixed(t, u)
    ensures KeepsFixed(s, u)
  {
    FixedChain(s, t, u);
  }

  lemma FixedChain(s: State, t: State, u: State)
    requires WellFormed(s) && WellFormed(t) && SameObjects(s, t) && SameObjects(t, u)
    requires FixedRulesStay(s, t) && FixedRulesStay(t, u)
    ensures FixedRulesStay(s, u)
  {}

  lemma ProgressChain(k: Kind, s: State, t: State, u: State, a: seq<Removal>, b: seq<Removal>, c: seq<Removal>)
    requires WellFormed(s) && WellFormed(t) && Progress(k, s, t, a, b) && Progress(k, t, u, b, c)
    ensures Progress(k, s, u, a, c)
  {
    SettlesChain(s, t, u);
    KeepsFixedChain(s, t, u);
    assert c[..|a|] == c[..|b|][..|a|];
    forall n | |a| <= n < |c| ensures OfKind(c[n], k) {
      if n < |b| { assert c[n] == c[..|b|][n]; }
    }
  }

  /** Ids worth removing: of the kind when they were printed, or gone already. */
  predicate Collected(s: State, k: Kind, ids: set<Id>) {
    forall i :: i in ids ==> i < s.next && (i in Ids(s, k) ==> i in Matching(s, k))
  }

  lemma CollectedLater(s: State, t: State, k: Kind, ids: set<Id>)
    requires WellFormed(s) && Settles(s, t) && Collected(s, k, ids)
    ensures Collected(t, k, ids)
  {}

  lemma GoneForGood(s: State, t: State, k: Kind, ids: set<Id>)
    requires Settles(s, t) && ids !! Ids(s, k) && forall i :: i in ids ==> i < s.next
    ensures ids !! Ids(t, k)
  {}

  method RemoveIds(d: Device, k: Kind, ids: set<Id>)
    requires d.Valid() && !k.AutoRules? && Collected(d.state, k, ids)
    modifies d
    ensures d.Valid() && d.writes == old(d.writes) && old(d.clock) <= d.clock && Held(old(d.trail), d.trail)
    ensures Progress(k, old(d.state), d.state, old(d.removals), d.removals)
    ensures Cooperative(d.oracle, old(d.clock)) ==> ids !! Ids(d.state, k)
  {
    var todo := ids;
    ghost var willing := Cooperative(d.oracle, old(d.clock));
    HeldNothing(d.trail);
    while todo != {}
      invariant d.Valid() && d.writes == old(d.writes) && todo <= ids && old(d.clock) <= d.clock
      invariant Held(old(d.trail), d.trail)
      invariant willing ==> (ids - todo) !! Ids(d.state, k)
      invariant Progress(k, old(d.state), d.state, old(d.removals), d.removals)
    {
      var i :| i in todo;
      ghost var s, gone := d.state, ids - todo;
      RemoveNext(d, k, i, ids, old(d.state), old(d.removals), old(d.trail));
      todo := todo - {i};
      assert ids - todo == gone + {i};
      if willing { GoneForGood(s, d.state, k, gone); }
    }
  }

  /** One of the ids collected in state `s`, when the records were `log` and `v`. */
  method RemoveNext(d: Device, k: Kind, i: Id, ghost ids: set<Id>, ghost s: State, ghost log: seq<Removal>, ghost v: seq<State>)
    requires d.Valid() && WellFormed(s) && !k.AutoRules? && Collected(s, k, ids) && i in ids
    requires Progress(k, s, d.state, log, d.removals) && Held(v, d.trail)
    modifies d
    ensures d.Valid() && d.writes == old(d.writes) && d.clock == old(d.clock) + 1
    ensures Progress(k, s, d.state, log, d.removals) && Held(v, d.trail) && Settles(old(d.state), d.state)
    ensures !d.oracle.refuses(old(d.clock)) ==> i !in Ids(d.state, k)
  {
    CollectedLater(s, d.state, k, ids);
    RemoveOne(d, k, i);
    HeldChain(v, old(d.trail), d.trail);
    ProgressChain(k, s, old(d.state), d.state, log, old(d.removals), d.removals);
  }

  /** A removal that the router refuses. */
  lemma RefusedProgress(k: Kind, s: State, t: State, i: Id, log: seq<Removal>, at: nat)
    requires Elapse(s, t) && !k.AutoRules?
    ensures Progress(k, s, t, log, log)
    ensures Progress(k, s, t, log, log + [Removal(k, i, NothingGone, at)])
  {
    ElapseSettles(s, t);
  }

  /** One that it accepts. */
  lemma DropProgress(k: Kind, s: State, i: Id, log: seq<Removal>, at: nat)
    requires Collected(s, k, {i}) && !k.AutoRules?
    ensures Progress(k, s, Drop(s, k, i), log, log + [Removal(k, i, TakenAway(s, k, i), at)])
  {
    DropSettles(s, k, i);
    assert i in {i};
  }

  /** The result of the command is ignored: entries and connections may be gone by now. */
  method RemoveOne(d: Device, k: Kind, i: Id)
    requires d.Valid() && !k.AutoRules? && Collected(d.state, k, {i})
    modifies d
    ensures d.Valid() && d.writes == old(d.writes) && d.clock == old(d.clock) + 1 && Held(old(d.trail), d.trail)
    ensures !d.oracle.refuses(old(d.clock)) ==> i !in Ids(d.state, k)
    ensures Progress(k, old(d.state), d.state, old(d.removals), d.removals)
  {
    var taken := d.Remove(k, i);
    HeldStep(old(d.trail), d.seen, d.state);
    ElapseSettles(old(d.state), d.seen);
    RefusedProgress(k, old(d.state), d.seen, i, old(d.removals), |old(d.trail)|);
    CollectedLater(old(d.state), d.seen, k, {i});
    if taken {
      DropProgress(k, d.seen, i, old(d.removals), |old(d.trail)|);
      ProgressChain(k, old(d.state), d.seen, d.state, old(d.removals), old(d.removals), d.removals);
    }
  }

  /** Command number `n` is taken and, if it is a print of this kind, up to date. */
  predicate Prompt(o: Oracle, n: nat, k: Kind) { !o.refuses(n) && o.gone(n, k) == {} }

  /** One scan, and what it says about the state it was taken in. */
  method Collect(d: Device, k: Kind) returns (ok: bool, ids: set<Id>)
    requires d.Valid()
    modifies d
    ensures d.Valid() && d.writes == old(d.writes) && Held(old(d.trail), d.trail)
    ensures d.removals == old(d.removals) && Elapse(old(d.state), d.state) && d.clock == old(d.clock) + 1
    ensures Collected(d.state, k, ids) && Matching(d.state, k) <= ids
    ensures !k.AutoRules? ==> Progress(k, old(d.state), d.state, old(d.removals), d.removals)
    ensures Prompt(d.oracle, old(d.clock), k) ==> ok && ids == Matching(d.state, k)
  {
    ok, ids := d.Print(k);
    HeldStep(old(d.trail), d.seen, d.state);
    ElapseSettles(old(d.state), d.state);
  }

  function AddStat(total: nat, n: nat): nat
    requires total <= UINT_MAX
  {
    if n > UINT_MAX - total then UINT_MAX else total + n
  }

  /** The inspecting scan; only the connection table may be scanned again after an error. */
  method Inspect(d: Device, k: Kind, retry: bool) returns (ok: bool, ids: set<Id>)
    requires d.Valid() && !k.AutoRules?
    modifies d
    ensures d.Valid() && d.writes == old(d.writes) && Held(old(d.trail), d.trail)
    ensures ok ==> Collected(d.state, k, ids) && Matching(d.state, k) <= ids
    ensures Progress(k, old(d.state), d.state, old(d.removals), d.removals)
    ensures old(d.clock) < d.clock <= old(d.clock) + (if retry then ATTEMPTS else 1)
    ensures Prompt(d.oracle, old(d.clock), k) ==> ok && ids == Matching(d.state, k) && d.clock == old(d.clock) + 1
  {
    var attempt := 0;
    HeldNothing(d.trail);
    while true
      invariant d.Valid() && d.writes == old(d.writes) && attempt < (if retry then ATTEMPTS else 1)
      invariant attempt > 0 ==> !Prompt(d.oracle, old(d.clock), k)
      invariant Held(old(d.trail), d.trail)
      invariant Progress(k, old(d.state), d.state, old(d.removals), d.removals) && d.clock == old(d.clock) + attempt
      decreases ATTEMPTS - attempt
    {
      attempt := attempt + 1;
      ghost var s, log, v := d.state, d.removals, d.trail;
      ok, ids := Collect(d, k);
      HeldChain(old(d.trail), v, d.trail);
      ProgressChain(k, old(d.state), s, d.state, old(d.removals), log, d.removals);
      if ok || !retry || attempt >= ATTEMPTS { return; }
    }
  }

  /** Nothing new of the kind can appear. */
  ghost predicate Sealed(s: State, k: Kind) {
    Quiet(s) && (k.Marks? ==> Matching(s, PortLists) == {} && Matching(s, LegacyLists) == {})
  }

  lemma SealedStays(s: State, t: State, k: Kind)
    requires WellFormed(s) && Settles(s, t) && Sealed(s, k)
    ensures Sealed(t, k)
  {
    if k.Marks? {
      OnlyFewer(s, t, PortLists);
      OnlyFewer(s, t, LegacyLists);
    }
  }

  lemma OnlyFewer(s: State, t: State, k: Kind)
    requires WellFormed(s) && Settles(s, t) && Sealed(s, k) && !k.AutoRules?
    ensures Matching(t, k) <= Matching(s, k)
  {
    if k.Marks? {
      NoLists(s);
      forall i | i in Matching(t, Marks) ensures i in Matching(s, Marks) { assert Justified(s, i, t.conns[i]); }
    }
  }

  /** Everything a scan found is gone, and nothing came after it. */
  lemma SealedEmpties(start: State, s: State, t: State, k: Kind)
    requires WellFormed(start) && WellFormed(s) && Settles(start, s) && Settles(s, t) && !k.AutoRules?
    ensures Sealed(start, k) && Matching(s, k) !! Ids(t, k) ==> Matching(t, k) == {}
    ensures Sealed(start, k) ==> Sealed(t, k)
  {
    if Sealed(start, k) {
      SealedStays(start, s, k);
      SealedStays(s, t, k);
      OnlyFewer(s, t, k);
      assert Matching(t, k) <= Ids(t, k);
    }
  }

  datatype Check = Passed | ScanFailed | Remaining(count: nat)

  /** One more scan; what it finds is removed unless it was the last. */
  method VerifyOnce(d: Device, k: Kind, last: bool) returns (check: Check)
    requires d.Valid() && !k.AutoRules?
    modifies d
    ensures d.Valid() && d.writes == old(d.writes) && old(d.clock) <= d.clock && Held(old(d.trail), d.trail)
    ensures check.Passed? ==> Matching(d.state, k) == {}
    ensures Progress(k, old(d.state), d.state, old(d.removals), d.removals)
    ensures Cooperative(d.oracle, old(d.clock)) && Sealed(old(d.state), k) && Matching(old(d.state), k) == {} ==> check.Passed?
  {
    var ok, ids := Collect(d, k);
    if Sealed(old(d.state), k) { OnlyFewer(old(d.state), d.state, k); }
    if !ok { return ScanFailed; }
    if ids == {} { return Passed; }
    check := Remaining(|ids|);
    if !last {
      ghost var s, log, v := d.state, d.removals, d.trail;
      RemoveIds(d, k, ids);
      HeldChain(old(d.trail), v, d.trail);
      ProgressChain(k, old(d.state), s, d.state, old(d.removals), log, d.removals);
    }
  }

  /** Scans until one finds nothing, removing what it does find, twenty times at most. */
  method VerifyEmpty(d: Device, k: Kind, retry: bool) returns (ok: bool)
    requires d.Valid() && !k.AutoRules?
    modifies d
    ensures d.Valid() && d.writes == old(d.writes) && old(d.clock) <= d.clock && Held(old(d.trail), d.trail)
    ensures ok ==> Matching(d.state, k) == {}
    ensures Progress(k, old(d.state), d.state, old(d.removals), d.removals)
    ensures Cooperative(d.oracle, old(d.clock)) && Sealed(old(d.state), k) && Matching(old(d.state), k) == {} ==> ok
  {
    ghost var calm := Cooperative(d.oracle, old(d.clock)) && Sealed(old(d.state), k) && Matching(old(d.state), k) == {};
    HeldNothing(d.trail);
    for attempt := 1 to ATTEMPTS + 1
      invariant d.Valid() && d.writes == old(d.writes) && old(d.clock) <= d.clock && Held(old(d.trail), d.trail)
      invariant Progress(k, old(d.state), d.state, old(d.removals), d.removals)
      invariant calm ==> attempt == 1 && d.state == old(d.state) && d.clock == old(d.clock)
    {
      ghost var s, log, v := d.state, d.removals, d.trail;
      var check := VerifyOnce(d, k, attempt == ATTEMPTS);
      HeldChain(old(d.trail), v, d.trail);
      ProgressChain(k, old(d.state), s, d.state, old(d.removals), log, d.removals);
      if check.Passed? { return true; }
      if attempt == ATTEMPTS || (check.ScanFailed? && !retry) { return false; }
    }
    ok := false;
  }

  /** With nothing of a sealed kind there, a scan that is taken and up to date is all it takes. */
  ghost predicate AtOnce(o: Oracle, s: State, k: Kind, from: nat, now: nat, ok: bool) {
    Prompt(o, from, k) && Sealed(s, k) && Matching(s, k) == {} ==> ok && now == from + 1
  }

  /** The removal of what a scan found. */
  method SweepFound(d: Device, k: Kind, ids: set<Id>)
    requires d.Valid() && !k.AutoRules? && Collected(d.state, k, ids)
    modifies d
    ensures d.Valid() && d.writes == old(d.writes) && old(d.clock) <= d.clock && Held(old(d.trail), d.trail)
    ensures Progress(k, old(d.state), d.state, old(d.removals), d.removals)
    ensures Cooperative(d.oracle, old(d.clock)) && Sealed(old(d.state), k) && ids == Matching(old(d.state), k) ==>
      Matching(d.state, k) == {}
  {
    RemoveIds(d, k, ids);
    if Cooperative(d.oracle, old(d.clock)) && ids == Matching(old(d.state), k) { SealedEmpties(old(d.state), old(d.state), d.state, k); }
  }

  /** One scan, and the removal of what it found. */
  method SweepOnce(d: Device, k: Kind, retry: bool) returns (ok: bool, ids: set<Id>)
    requires d.Valid() && !k.AutoRules?
    modifies d
    ensures d.Valid() && d.writes == old(d.writes) && old(d.clock) <= d.clock && Held(old(d.trail), d.trail)
    ensures ok && ids == {} ==> Matching(d.state, k) == {}
    ensures Progress(k, old(d.state), d.state, old(d.removals), d.removals)
    ensures Cooperative(d.oracle, old(d.clock)) && Sealed(old(d.state), k) ==> ok && Matching(d.state, k) == {}
    ensures AtOnce(d.oracle, old(d.state), k, old(d.clock), d.clock, ok && ids == {})
  {
    ok, ids := Inspect(d, k, retry);
    if Sealed(old(d.state), k) {
      SealedStays(old(d.state), d.state, k);
      OnlyFewer(old(d.state), d.state, k);
    }
    if !ok || ids == {} { return; }
    ghost var s, log, v := d.state, d.removals, d.trail;
    CooperativeLater(d.oracle, old(d.clock), d.clock);
    SweepFound(d, k, ids);
    HeldChain(old(d.trail), v, d.trail);
    ProgressChain(k, old(d.state), s, d.state, old(d.removals), log, d.removals);
  }

  /** Removes every object of a kind, and answers yes only when a scan has found none. */
  method CleanupMatching(d: Device, k: Kind, retry: bool, removed: nat) returns (ok: bool, total: nat)
    requires d.Valid() && !k.AutoRules? && removed <= UINT_MAX
    modifies d
    ensures d.Valid() && d.writes == old(d.writes) && removed <= total <= UINT_MAX && old(d.clock) <= d.clock
    ensures Held(old(d.trail), d.trail)
    ensures ok ==> Matching(d.state, k) == {}
    ensures Progress(k, old(d.state), d.state, old(d.removals), d.removals)
    ensures Cooperative(d.oracle, old(d.clock)) && Sealed(old(d.state), k) ==> ok
    ensures AtOnce(d.oracle, old(d.state), k, old(d.clock), d.clock, ok)
  {
    total := removed;
    var ids;
    ok, ids := SweepOnce(d, k, retry);
    if !ok || ids == {} { return; }
    ghost var s, log, v := d.state, d.removals, d.trail;
    if Sealed(old(d.state), k) { SealedStays(old(d.state), s, k); }
    CooperativeLater(d.oracle, old(d.clock), d.clock);
    ok := VerifyEmpty(d, k, retry);
    HeldChain(old(d.trail), v, d.trail);
    ProgressChain(k, old(d.state), s, d.state, old(d.removals), log, d.removals);
    if ok { total := AddStat(total, |ids|); }
  }

  datatype Stats = Stats(lazy: nat, port: nat, legacy: nat, marked: nat)

  ghost predicate Clean(s: State) {
    Matching(s, LazyRules) == {} && Matching(s, PortLists) == {} && Matching(s, LegacyLists) == {} && Matching(s, Marks) == {}
  }

  lemma NoLists(s: State)
    requires WellFormed(s) && Matching(s, PortLists) == {} && Matching(s, LegacyLists) == {}
    ensures forall c :: !CanMark(s, c)
  {
    forall e | e in s.entries ensures !IsState(s.entries[e].list) {
      assert e !in Matching(s, PortLists) && e !in Matching(s, LegacyLists);
    }
    forall c, r | r in s.rules ensures !Gives(s, r, c) {
      assert s.rules[r].match_.mark.Marked? ==> IsState(s.rules[r].match_.list.value);
    }
  }

  /** A clean router with the scripts at rest stays clean, whatever its traffic. */
  lemma CleanStays(s: State, t: State)
    requires WellFormed(s) && Elapse(s, t) && Quiet(s) && Clean(s)
    ensures Clean(t) && Quiet(t)
  {
    ElapseSettles(s, t);
    CleanSettles(s, t);
  }

  lemma CleanSettles(s: State, t: State)
    requires WellFormed(s) && Settles(s, t) && Quiet(s) && Clean(s)
    ensures Clean(t)
  {
    OnlyFewer(s, t, LazyRules);
    OnlyFewer(s, t, PortLists);
    OnlyFewer(s, t, LegacyLists);
    OnlyFewer(s, t, Marks);
  }

  /** The log grew from `a` to `b`, by removals in the four namespaces only. */
  ghost predicate OnlyAdaptive(a: seq<Removal>, b: seq<Removal>) {
    |a| <= |b| && b[..|a|] == a && forall n :: |a| <= n < |b| ==> InNamespace(b[n])
  }

  lemma OnlyAdaptiveChain(a: seq<Removal>, b: seq<Removal>, c: seq<Removal>)
    requires OnlyAdaptive(a, b) && OnlyAdaptive(b, c)
    ensures OnlyAdaptive(a, c)
  {
    assert c[..|a|] == c[..|b|][..|a|];
    forall n | |a| <= n < |c| ensures InNamespace(c[n]) {
      if n < |b| { assert c[n] == c[..|b|][n]; }
    }
  }

  /** Only adaptive objects were removed; rules that are not lazy are as they were. */
  ghost predicate Cleaned(s: State, t: State, a: seq<Removal>, b: seq<Removal>) {
    Settles(s, t) && KeepsFixed(s, t) && OnlyAdaptive(a, b)
  }

  /** With the scripts at rest each kind that is empty stays so: lists first, then marks. */
  lemma StaysEmpty(s: State, t: State)
    requires WellFormed(s) && Settles(s, t) && Quiet(s)
    ensures Quiet(t) && (Clean(s) ==> Clean(t))
    ensures Matching(s, LazyRules) == {} ==> Matching(t, LazyRules) == {}
    ensures Matching(s, PortLists) == {} ==> Matching(t, PortLists) == {}
    ensures Matching(s, LegacyLists) == {} ==> Matching(t, LegacyLists) == {}
  {
    OnlyFewer(s, t, LazyRules);
    OnlyFewer(s, t, PortLists);
    OnlyFewer(s, t, LegacyLists);
    if Clean(s) { CleanSettles(s, t); }
  }

  /** The legacy lists, and only then the marks. */
  method CleanupLegacyInto(d: Device) returns (ok: bool, legacy: nat, marked: nat)
    requires d.Valid()
    modifies d
    ensures d.Valid() && d.writes == old(d.writes) && old(d.clock) <= d.clock && Held(old(d.trail), d.trail)
    ensures Cleaned(old(d.state), d.state, old(d.removals), d.removals)
    ensures ok ==> Matching(d.state, Marks) == {}
    ensures ok && Quiet(old(d.state)) ==> Matching(d.state, LegacyLists) == {}
    ensures Cooperative(d.oracle, old(d.clock)) && Quiet(old(d.state)) && Matching(old(d.state), PortLists) == {} ==> ok
    ensures TwoScans(d.oracle, old(d.clock), LegacyLists, Marks) && Quiet(old(d.state)) && Clean(old(d.state)) ==>
      ok && d.clock == old(d.clock) + 2
  {
    ghost var s0, log0 := d.state, d.removals;
    marked := 0;
    ok, legacy := CleanupMatching(d, LegacyLists, false, 0);
    ghost var s1, log1, v1 := d.state, d.removals, d.trail;
    if Quiet(s0) { StaysEmpty(s0, s1); }
    if !ok { return; }
    CooperativeLater(d.oracle, old(d.clock), d.clock);
    ok, marked := CleanupMatching(d, Marks, true, 0);
    HeldChain(old(d.trail), v1, d.trail);
    Phase(s0, s1, d.state, Marks, log0, log1, d.removals);
    if Quiet(s0) { StaysEmpty(s1, d.state); }
  }

  /** The scans of a cleanup of two kinds that has nothing to do. */
  predicate TwoScans(o: Oracle, n: nat, k: Kind, l: Kind) { Prompt(o, n, k) && Prompt(o, n + 1, l) }

  /** The lazy rules and the lists by port. */
  method CleanupPorts(d: Device) returns (ok: bool, lazy: nat, port: nat)
    requires d.Valid()
    modifies d
    ensures d.Valid() && d.writes == old(d.writes) && old(d.clock) <= d.clock && Held(old(d.trail), d.trail)
    ensures Cleaned(old(d.state), d.state, old(d.removals), d.removals)
    ensures ok ==> Matching(d.state, PortLists) == {}
    ensures ok && Quiet(old(d.state)) ==> Matching(d.state, LazyRules) == {}
    ensures Cooperative(d.oracle, old(d.clock)) && Quiet(old(d.state)) ==> ok
    ensures TwoScans(d.oracle, old(d.clock), LazyRules, PortLists) && Quiet(old(d.state)) && Clean(old(d.state)) ==>
      ok && d.clock == old(d.clock) + 2
  {
    ghost var s0, log0 := d.state, d.removals;
    port := 0;
    ok, lazy := CleanupMatching(d, LazyRules, false, 0);
    ghost var s1, log1, v1 := d.state, d.removals, d.trail;
    if Quiet(s0) { StaysEmpty(s0, s1); }
    if !ok { return; }
    CooperativeLater(d.oracle, old(d.clock), d.clock);
    ok, port := CleanupMatching(d, PortLists, false, 0);
    HeldChain(old(d.trail), v1, d.trail);
    Phase(s0, s1, d.state, PortLists, log0, log1, d.removals);
    if Quiet(s0) { StaysEmpty(s1, d.state); }
  }

  /** Lazy rules, port lists, legacy lists, marks: with schedulers paused and jobs idle, success means that all four
      are empty at the end, although packets were being marked all the time. */
  method CleanupRuntime(d: Device) returns (ok: bool, stats: Stats)
    requires d.Valid()
    modifies d
    ensures d.Valid() && d.writes == old(d.writes) && old(d.clock) <= d.clock && Held(old(d.trail), d.trail)
    ensures Cleaned(old(d.state), d.state, old(d.removals), d.removals)
    ensures ok && Quiet(old(d.state)) ==> Clean(d.state)
    ensures Cooperative(d.oracle, old(d.clock)) && Quiet(old(d.state)) ==> ok
    ensures FourScans(d.oracle, old(d.clock)) && Quiet(old(d.state)) && Clean(old(d.state)) ==> ok && d.clock == old(d.clock) + 4
  {
    stats := Stats(0, 0, 0, 0);
    ghost var s0, log0 := d.state, d.removals;
    var n, m;
    ok, n, m := CleanupPorts(d);
    stats := stats.(lazy := n, port := m);
    ghost var s1, log1, v1 := d.state, d.removals, d.trail;
    if Quiet(s0) { StaysEmpty(s0, s1); }
    if !ok { return; }
    CooperativeLater(d.oracle, old(d.clock), d.clock);
    ok, n, m := CleanupLegacyInto(d);
    HeldChain(old(d.trail), v1, d.trail);
    stats := stats.(legacy := n, marked := m);
    CleanedChain(s0, s1, d.state, log0, log1, d.removals);
    if Quiet(s0) { StaysEmpty(s1, d.state); }
  }

  predicate FourScans(o: Oracle, n: nat) {
    TwoScans(o, n, LazyRules, PortLists) && TwoScans(o, n + 2, LegacyLists, Marks)
  }

  lemma CleanedChain(s: State, t: State, u: State, a: seq<Removal>, b: seq<Removal>, c: seq<Removal>)
    requires WellFormed(s) && WellFormed(t) && Cleaned(s, t, a, b) && Cleaned(t, u, b, c)
    ensures Cleaned(s, u, a, c)
  {
    SettlesChain(s, t, u);
    KeepsFixedChain(s, t, u);
    OnlyAdaptiveChain(a, b, c);
  }

  predicate InNamespace(x: Removal) { OfKind(x, LazyRules) || OfKind(x, PortLists) || OfKind(x, LegacyLists) || OfKind(x, Marks) }

  lemma Phase(s: State, t: State, u: State, k: Kind, a: seq<Removal>, b: seq<Removal>, c: seq<Removal>)
    requires WellFormed(s) && WellFormed(t) && Cleaned(s, t, a, b) && Progress(k, t, u, b, c) && !k.AutoRules?
    ensures Cleaned(s, u, a, c)
  {
    assert Cleaned(t, u, b, c);
    CleanedChain(s, t, u, a, b, c);
  }

  /** Marks come back exactly while an enabled rule still finds a destination in its list: removing them before the
      lists would not be enough. */
  lemma MarksStayAwayExactly(s: State)
    requires WellFormed(s) && Quiet(s) && Matching(s, Marks) == {}
    ensures (forall t :: Elapse(s, t) ==> Matching(t, Marks) == {}) <==> (forall c :: !CanMark(s, c))
  {
    forall c | CanMark(s, c) ensures exists t :: Elapse(s, t) && Matching(t, Marks) != {} {
      var t := s.(conns := s.conns[s.next := c], next := s.next + 1);
      forall i | i in t.conns ensures Justified(s, i, t.conns[i]) {
        if i != s.next {
          assert t.conns[i] == s.conns[i];
          assert i !in Matching(s, Marks);
        }
      }
      assert s.next in Matching(t, Marks) && Elapse(s, t);
    }
    forall t | Elapse(s, t) && (forall c :: !CanMark(s, c)) ensures Matching(t, Marks) == {} {
      forall i | i in t.conns ensures t.conns[i].mark.NoMark? {
        assert Justified(s, i, t.conns[i]) && i !in Matching(s, Marks);
      }
    }
  }

  // ---- fail-open ------------------------------------------------------------------------------------------

  /** Rules may have been disabled, but none that is not lazy has gone or come. */
  ghost predicate Mutes(s: State, t: State) { Settles(s, t) && FixedRulesStay(s, t) }

  lemma MutesChain(s: State, t: State, u: State)
    requires WellFormed(s) && WellFormed(t) && Mutes(s, t) && Mutes(t, u)
    ensures Mutes(s, u)
  {
    SettlesChain(s, t, u);
    FixedChain(s, t, u);
  }

  /** Tries every AUTO-AWG rule once, then judges by a fresh print of the whole namespace. */
  method DisableAdaptiveMangle(d: Device) returns (ok: bool)
    requires d.Valid()
    modifies d
    ensures d.Valid() && d.writes == old(d.writes) && d.removals == old(d.removals) && old(d.clock) <= d.clock
    ensures Held(old(d.trail), d.trail)
    ensures Mutes(old(d.state), d.state)
    ensures ok ==> AllAutoDisabled(d.state)
    ensures Cooperative(d.oracle, old(d.clock)) && Quiet(old(d.state)) ==>
      ok && d.clock == old(d.clock) + 2 + |Matching(old(d.state), AutoRules)|
  {
    var ids;
    ok, ids := Collect(d, AutoRules);
    ElapseSettles(old(d.state), d.state);
    if !ok { return; }
    ghost var s, v := d.state, d.trail;
    CooperativeLater(d.oracle, old(d.clock), d.clock);
    ok := DisableShown(d, ids);
    MutesChain(old(d.state), s, d.state);
    HeldChain(old(d.trail), v, d.trail);
  }

  /** Disables the rules that a print showed, and looks again. */
  method DisableShown(d: Device, ids: set<Id>) returns (ok: bool)
    requires d.Valid() && Collected(d.state, AutoRules, ids)
    modifies d
    ensures d.Valid() && d.writes == old(d.writes) && d.removals == old(d.removals) && d.clock == old(d.clock) + |ids| + 1
    ensures Held(old(d.trail), d.trail)
    ensures Mutes(old(d.state), d.state)
    ensures ok ==> AllAutoDisabled(d.state)
    ensures Cooperative(d.oracle, old(d.clock)) && Quiet(old(d.state)) && DisabledBut(old(d.state), ids) ==> ok
  {
    DisableAll(d, ids);
    ghost var s, v := d.state, d.trail;
    CooperativeLater(d.oracle, old(d.clock), d.clock);
    ok := AllShownDisabled(d);
    MutesChain(old(d.state), s, d.state);
    HeldChain(old(d.trail), v, d.trail);
  }

  method AllShownDisabled(d: Device) returns (ok: bool)
    requires d.Valid()
    modifies d
    ensures d.Valid() && d.writes == old(d.writes) && d.removals == old(d.removals) && old(d.clock) <= d.clock
    ensures d.clock == old(d.clock) + 1 && Held(old(d.trail), d.trail)
    ensures Mutes(old(d.state), d.state)
    ensures ok ==> AllAutoDisabled(d.state)
    ensures Cooperative(d.oracle, old(d.clock)) && Quiet(old(d.state)) && AllAutoDisabled(old(d.state)) ==> ok
  {
    var any;
    ok, any := d.ShowsAutoEnabled();
    HeldStep(old(d.trail), d.seen, d.state);
    ElapseSettles(old(d.state), d.state);
    ok := ok && !any;
  }

  /** Only these AUTO-AWG rules may still be enabled. */
  ghost predicate DisabledBut(s: State, todo: set<Id>) {
    forall i :: i in s.rules && IsAuto(s.rules[i].comment) && !s.rules[i].disabled ==> i in todo
  }

  method DisableAll(d: Device, ids: set<Id>)
    requires d.Valid() && Collected(d.state, AutoRules, ids)
    modifies d
    ensures d.Valid() && d.writes == old(d.writes) && d.removals == old(d.removals) && old(d.clock) <= d.clock
    ensures d.clock == old(d.clock) + |ids| && Held(old(d.trail), d.trail)
    ensures Mutes(old(d.state), d.state)
    ensures Cooperative(d.oracle, old(d.clock)) && Quiet(old(d.state)) && DisabledBut(old(d.state), ids) ==>
              AllAutoDisabled(d.state)
  {
    var todo := ids;
    ghost var calm := Cooperative(d.oracle, old(d.clock)) && Quiet(old(d.state)) && DisabledBut(old(d.state), ids);
    while todo != {}
      invariant todo <= ids && d.clock == old(d.clock) + |ids| - |todo|
      invariant d.Valid() && d.writes == old(d.writes) && d.removals == old(d.removals) && old(d.clock) <= d.clock
      invariant Mutes(old(d.state), d.state) && Held(old(d.trail), d.trail)
      invariant calm ==> DisabledBut(d.state, todo)
    {
      var i :| i in todo;
      ghost var s, v := d.state, d.trail;
      CollectedLater(old(d.state), s, AutoRules, ids);
      DisableOne(d, i, todo);
      HeldChain(old(d.trail), v, d.trail);
      MutesChain(old(d.state), s, d.state);
      todo := todo - {i};
    }
  }

  lemma DisabledMutes(s: State, i: Id)
    requires i in s.rules ==> IsAuto(s.rules[i].comment)
    ensures Mutes(s, Disabled(s, i))
  {
    DisabledSettles(s, i);
  }

  lemma ElapseKeepsDisabled(s: State, t: State, todo: set<Id>)
    requires Elapse(s, t) && Quiet(s) && DisabledBut(s, todo)
    ensures DisabledBut(t, todo)
  {}

  lemma OneLess(s: State, i: Id, todo: set<Id>)
    requires DisabledBut(s, todo)
    ensures DisabledBut(Disabled(s, i), todo - {i})
  {}

  method DisableOne(d: Device, i: Id, ghost todo: set<Id>)
    requires d.Valid() && i in todo && Collected(d.state, AutoRules, {i})
    modifies d
    ensures d.Valid() && d.writes == old(d.writes) && d.removals == old(d.removals) && d.clock == old(d.clock) + 1
    ensures Held(old(d.trail), d.trail)
    ensures Mutes(old(d.state), d.state)
    ensures !d.oracle.refuses(old(d.clock)) && Quiet(old(d.state)) && DisabledBut(old(d.state), todo) ==>
              DisabledBut(d.state, todo - {i})
  {
    var taken := d.Disable(i);
    HeldStep(old(d.trail), d.seen, d.state);
    ElapseSettles(old(d.state), d.seen);
    CollectedLater(old(d.state), d.seen, AutoRules, {i});
    DisabledMutes(d.seen, i);
    MutesChain(old(d.state), d.seen, Disabled(d.seen, i));
    if taken && Quiet(old(d.state)) && DisabledBut(old(d.state), todo) {
      ElapseKeepsDisabled(old(d.state), d.seen, todo);
      OneLess(d.seen, i, todo);
    }
  }
}
