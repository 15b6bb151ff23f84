/** A fresh installation: everything is created switched off, the schedulers are enabled last, and a failure takes away
    what was created, schedulers first. */
module Install {
  import opened Namespace
  import opened RuleOrder
  import opened Router
  import opened Cleanup
  import opened Promote

  const SCRIPTS: seq<Object> := [ScriptObject(0), ScriptObject(1), ScriptObject(2), ScriptObject(3)]
  const SCHEDULERS: seq<Object> := [SchedulerObject(0), SchedulerObject(1), SchedulerObject(2), SchedulerObject(3)]

  /** Safety rules first, then the eight AUTO-AWG rules. */
  const SAFETY: seq<Object> := [RuleObject(Safety(0)), RuleObject(Safety(1)), RuleObject(Safety(2))]
  const MANGLE: seq<Object> := [
    RuleObject(FixedMark(OkMark, Tcp)), RuleObject(FixedMark(TestMark, Tcp)),
    RuleObject(FixedMark(OkMark, Udp)), RuleObject(FixedMark(TestMark, Udp)),
    RuleObject(RouteOk), RuleObject(RouteTest), RuleObject(RouterDns(Udp)), RuleObject(RouterDns(Tcp))]

  /** The rules are created in the order that the rule list must have. */
  lemma RulesInOrder()
    ensures |SAFETY + MANGLE| == |INSTALL_ORDER|
    ensures forall i :: 0 <= i < |INSTALL_ORDER| ==> (SAFETY + MANGLE)[i] == RuleObject(INSTALL_ORDER[i])
  {}

  predicate IsSafety(o: Object) { o.RuleObject? && o.c.Safety? && o.c.network < 3 }

  predicate IsMangle(o: Object) { o.RuleObject? && IsAuto(o.c) && !o.c.Lazy? }

  /** One of the scripts, schedulers, safety rules, AUTO-AWG rules, or the NAT rule. */
  predicate Ours(o: Object) { o.RuleObject? ==> IsSafety(o) || IsMangle(o) }

  ghost predicate Present(s: State, o: Object) { exists i :: IsAt(s, o, i) }

  /** There, and switched on. */
  ghost predicate On(s: State, o: Object) { Present(s, o) && forall i :: IsAt(s, o, i) ==> !Off(s, o, i) }

  /** Rules that a managed script may switch. */
  predicate Switchable(o: Object) { o.RuleObject? && IsAuto(o.c) }

  /** No rule of ours occurs twice. */
  ghost predicate OneOfEach(s: State) {
    forall o, i, j :: Ours(o) && !o.ScriptObject? && !o.SchedulerObject? && IsAt(s, o, i) && IsAt(s, o, j) ==> i == j
  }

  /** Objects other than ours are as they were. */
  ghost predicate ForeignStays(s: State, t: State) {
    && (forall i :: i in s.rules && (s.rules[i].comment.Foreign? || s.rules[i].comment.VpnDirect?) ==>
          i in t.rules && t.rules[i] == s.rules[i])
    && (forall i :: i in s.nats && !s.nats[i].ours ==> i in t.nats && t.nats[i] == s.nats[i])
    && (forall n :: n in s.scripts && !IsProd(n) ==> n in t.scripts && t.scripts[n] == s.scripts[n])
    && (forall n :: n in s.schedulers && !IsProd(n) ==> n in t.schedulers && t.schedulers[n] == s.schedulers[n])
  }

  /** Object `o` is the same in both states: where it is, its text, and its switch unless a script may have used it. */
  ghost predicate SameObject(s: State, t: State, o: Object) {
    && (forall i :: IsAt(s, o, i) <==> IsAt(t, o, i))
    && (!Switchable(o) ==> SameSwitch(s, t, o))
    && (o.ScriptObject? && Present(s, o) ==> t.scripts[Managed(Prod, o.k)] == s.scripts[Managed(Prod, o.k)])
  }

  ghost predicate SameSwitch(s: State, t: State, o: Object) {
    forall i :: IsAt(s, o, i) ==> IsAt(t, o, i) && Off(t, o, i) == Off(s, o, i)
  }

  /** Only the objects named have been worked on. */
  ghost predicate Kept(s: State, t: State, worked: set<Object>) {
    ForeignStays(s, t) && forall o :: Ours(o) && o !in worked ==> SameObject(s, t, o)
  }

  /** And with the scripts at rest, not even the switches they may use were touched, and no adaptive state came up. */
  ghost predicate Steady(s: State, t: State, worked: set<Object>) {
    && Kept(s, t, worked)
    && (Quiet(s) ==>
          Idle(t) && (Clean(s) ==> Clean(t)) && forall o :: Ours(o) && o !in worked ==> SameSwitch(s, t, o))
  }

  lemma KeptChain(s: State, t: State, u: State, a: set<Object>, b: set<Object>)
    requires Kept(s, t, a) && Kept(t, u, b)
    ensures Kept(s, u, a + b)
  {
    forall o | Ours(o) && o !in a + b ensures SameObject(s, u, o) {
      assert SameObject(s, t, o) && SameObject(t, u, o);
    }
  }

  lemma ElapseSteady(s: State, t: State)
    requires WellFormed(s) && Elapse(s, t)
    ensures Steady(s, t, {}) && (OneOfEach(s) ==> OneOfEach(t)) && (Paused(s) ==> Paused(t))
  {
    if Quiet(s) && Clean(s) { CleanStays(s, t); }
    forall o | Ours(o) ensures SameObject(s, t, o) {
      if o.RuleObject? {
        forall i ensures IsAt(s, o, i) <==> IsAt(t, o, i) {}
      }
    }
  }

  /** Work on fixed objects brings no adaptive state up. */
  lemma CleanKept(s: State, t: State)
    requires t.entries == s.entries && t.conns == s.conns
    requires forall i :: i in t.rules && t.rules[i].comment.Lazy? ==> i in s.rules && s.rules[i].comment.Lazy?
    ensures Clean(s) ==> Clean(t)
  {
    assert Matching(t, LazyRules) <= Matching(s, LazyRules);
  }

  lemma SteadyNothing(s: State)
    ensures Steady(s, s, {})
  {}

  lemma SteadyChain(s: State, t: State, u: State, a: set<Object>, b: set<Object>)
    requires Steady(s, t, a) && Steady(t, u, b) && (Paused(s) ==> Paused(t))
    ensures Steady(s, u, a + b)
  {
    KeptChain(s, t, u, a, b);
    if Quiet(s) {
      forall o | Ours(o) && o !in a + b ensures SameSwitch(s, u, o) {
        assert SameSwitch(s, t, o) && SameSwitch(t, u, o);
      }
    }
  }

  /** A command that worked on one object of ours. */
  ghost predicate OnlyChanged(s: State, t: State, o: Object) {
    && ForeignStays(s, t) && t.jobs == s.jobs && (Clean(s) ==> Clean(t))
    && forall p :: Ours(p) && p != o ==> SameObject(s, t, p) && SameSwitch(s, t, p)
  }

  lemma OnlyChangedSteady(s: State, t: State, o: Object)
    requires OnlyChanged(s, t, o)
    ensures Steady(s, t, {o})
  {}

  lemma AddedOnly(s: State, o: Object, kept: Script)
    requires WellFormed(s) && Ours(o) && !Present(s, o)
    ensures OnlyChanged(s, Added(s, o, kept), o)
  {
    CleanKept(s, Added(s, o, kept));
    OthersAfterAdd(s, o, kept);
  }

  lemma EnabledOnly(s: State, o: Object, i: Id)
    requires Ours(o) && IsAt(s, o, i)
    ensures OnlyChanged(s, Enabled(s, o, i), o)
  {
    CleanKept(s, Enabled(s, o, i));
    OthersAfterEnable(s, o, i);
  }

  lemma ErasedOnly(s: State, o: Object, i: Id)
    requires Ours(o) && IsAt(s, o, i)
    ensures OnlyChanged(s, Erased(s, o, i), o)
  {
    CleanKept(s, Erased(s, o, i));
    OthersAfterErase(s, o, i);
  }

  lemma AddedSteady(s: State, o: Object, kept: Script)
    requires WellFormed(s) && Ours(o) && !Present(s, o) && OneOfEach(s) && Paused(s)
    ensures var t := Added(s, o, kept); Steady(s, t, {o}) && OneOfEach(t) && Paused(t) && Present(t, o) && WellFormed(t)
    ensures forall i :: IsAt(Added(s, o, kept), o, i) ==> o.ScriptObject? || Off(Added(s, o, kept), o, i)
  {
    var t := Added(s, o, kept);
    AddedOnly(s, o, kept);
    OnlyChangedSteady(s, t, o);
    AddedIsThere(s, o, kept);
    AddedOnce(s, o, kept);
  }

  lemma AddedIsThere(s: State, o: Object, kept: Script)
    requires WellFormed(s) && !Present(s, o)
    ensures Present(Added(s, o, kept), o)
    ensures forall i :: IsAt(Added(s, o, kept), o, i) ==> o.ScriptObject? || Off(Added(s, o, kept), o, i)
  {
    var t := Added(s, o, kept);
    assert IsAt(t, o, s.next);
    forall i | IsAt(t, o, i) ensures o.ScriptObject? || Off(t, o, i) { assert !IsAt(s, o, i); }
  }

  lemma AddedOnce(s: State, o: Object, kept: Script)
    requires WellFormed(s) && Ours(o) && !Present(s, o) && OneOfEach(s)
    ensures OneOfEach(Added(s, o, kept))
  {
    var t := Added(s, o, kept);
    OthersAfterAdd(s, o, kept);
    forall p, i, j | Ours(p) && !p.ScriptObject? && !p.SchedulerObject? && IsAt(t, p, i) && IsAt(t, p, j) ensures i == j {
      if p == o {
        assert !IsAt(s, o, i) && !IsAt(s, o, j);
      } else {
        assert SameObject(s, t, p);
      }
    }
  }

  lemma OthersAfterAdd(s: State, o: Object, kept: Script)
    requires WellFormed(s) && Ours(o) && !Present(s, o)
    ensures forall p :: Ours(p) && p != o ==> SameObject(s, Added(s, o, kept), p) && SameSwitch(s, Added(s, o, kept), p)
  {
    var t := Added(s, o, kept);
    assert s.next !in s.rules && s.next !in s.nats;
    forall p, i | Ours(p) && p != o ensures IsAt(s, p, i) <==> IsAt(t, p, i) {}
  }

  lemma EnabledSteady(s: State, o: Object, i: Id)
    requires WellFormed(s) && Ours(o) && IsAt(s, o, i) && OneOfEach(s)
    ensures var t := Enabled(s, o, i); Steady(s, t, {o}) && OneOfEach(t) && On(t, o) && WellFormed(t)
    ensures Paused(s) && !o.SchedulerObject? ==> Paused(Enabled(s, o, i))
  {
    var t := Enabled(s, o, i);
    EnabledOnly(s, o, i);
    OnlyChangedSteady(s, t, o);
    EnabledOnce(s, o, i);
  }

  lemma EnabledOnce(s: State, o: Object, i: Id)
    requires Ours(o) && IsAt(s, o, i) && OneOfEach(s)
    ensures OneOfEach(Enabled(s, o, i)) && On(Enabled(s, o, i), o)
  {
    var t := Enabled(s, o, i);
    OthersAfterEnable(s, o, i);
    assert IsAt(t, o, i);
    forall p, j, k | Ours(p) && !p.ScriptObject? && !p.SchedulerObject? && IsAt(t, p, j) && IsAt(t, p, k) ensures j == k {
      assert IsAt(s, p, j) && IsAt(s, p, k);
    }
    forall j | IsAt(t, o, j) ensures !Off(t, o, j) { assert IsAt(s, o, j); }
  }

  lemma OthersAfterEnable(s: State, o: Object, i: Id)
    requires IsAt(s, o, i)
    ensures forall p, j :: IsAt(s, p, j) <==> IsAt(Enabled(s, o, i), p, j)
    ensures forall p :: p != o ==> SameObject(s, Enabled(s, o, i), p) && SameSwitch(s, Enabled(s, o, i), p)
  {
    var t := Enabled(s, o, i);
    forall p, j ensures IsAt(s, p, j) <==> IsAt(t, p, j) {}
    forall p, j | p != o && IsAt(s, p, j) ensures Off(t, p, j) == Off(s, p, j) {}
  }

  lemma ErasedSteady(s: State, o: Object, i: Id)
    requires WellFormed(s) && Ours(o) && IsAt(s, o, i) && OneOfEach(s)
    ensures var t := Erased(s, o, i); Steady(s, t, {o}) && OneOfEach(t) && !Present(t, o) && WellFormed(t)
    ensures Paused(s) ==> Paused(Erased(s, o, i))
  {
    var t := Erased(s, o, i);
    ErasedOnly(s, o, i);
    OnlyChangedSteady(s, t, o);
    ErasedOnce(s, o, i);
  }

  lemma ErasedOnce(s: State, o: Object, i: Id)
    requires Ours(o) && IsAt(s, o, i) && OneOfEach(s)
    ensures OneOfEach(Erased(s, o, i)) && !Present(Erased(s, o, i), o)
  {
    var t := Erased(s, o, i);
    OthersAfterErase(s, o, i);
    forall p, j, k | Ours(p) && !p.ScriptObject? && !p.SchedulerObject? && IsAt(t, p, j) && IsAt(t, p, k) ensures j == k {
      assert IsAt(s, p, j) && IsAt(s, p, k);
    }
    forall j ensures !IsAt(t, o, j) { assert IsAt(s, o, j) && !o.ScriptObject? && !o.SchedulerObject? ==> j == i; }
  }

  lemma OthersAfterErase(s: State, o: Object, i: Id)
    requires IsAt(s, o, i)
    ensures forall p :: p != o ==> SameObject(s, Erased(s, o, i), p) && SameSwitch(s, Erased(s, o, i), p)
    ensures forall p, j :: IsAt(Erased(s, o, i), p, j) ==> IsAt(s, p, j)
  {}

  // ---- the steps --------------------------------------------------------------------------------------------------

  /** What a running scheduler relies on: the scripts as desired, every rule present, and those rules on that no script
      switches. */
  ghost predicate Complete(h: string -> nat, s: State, desired: seq<string>, created: bool) {
    && AllVerified(h, s, Prod, desired)
    && (forall o :: IsSafety(o) ==> On(s, o)) && (forall o :: IsMangle(o) ==> Present(s, o))
    && (created ==> On(s, NatObject))
  }

  /** Not half-on: no scheduler is enabled unless everything is in place. */
  ghost predicate Sound(h: string -> nat, s: State, desired: seq<string>, created: bool) {
    !Paused(s) ==> Complete(h, s, desired, created)
  }

  /** Time passes, and nothing else. */
  lemma WaitStep(h: string -> nat, s: State, t: State, desired: seq<string>, created: bool)
    requires WellFormed(s) && Elapse(s, t) && OneOfEach(s)
    ensures Steady(s, t, {}) && OneOfEach(t) && (Paused(s) ==> Paused(t))
    ensures Complete(h, s, desired, created) <==> Complete(h, t, desired, created)
  {
    ElapseSteady(s, t);
    CompleteBefore(h, s, t, desired, created, NatObject) by { KeptMore(s, t, {}, {NatObject}); }
    if Complete(h, s, desired, created) { CompleteStays(h, s, t, desired, created, {}); }
  }

  /** Time passes, and then the object is switched on or, if the command is refused, left as it is. */
  lemma EnableStep(s: State, seen: State, t: State, o: Object, i: Id)
    requires WellFormed(s) && WellFormed(seen) && Elapse(s, seen) && OneOfEach(s)
    requires Ours(o) && IsAt(s, o, i) && IsAt(seen, o, i) && t in {seen, Enabled(seen, o, i)}
    ensures Steady(s, seen, {}) && Steady(s, t, {o}) && OneOfEach(t) && Present(t, o)
    ensures t == Enabled(seen, o, i) ==> On(t, o)
    ensures Paused(s) ==> Paused(seen) && (!o.SchedulerObject? ==> Paused(t))
  {
    ElapseSteady(s, seen);
    EnabledSteady(seen, o, i);
    SteadyChain(s, seen, t, {}, {o}) by {
      if t == seen { SteadyNothing(s); SteadyMore(t, t, {}, {o}); }
    }
  }

  /** Time passes, and then the object is taken away or, if the command is refused, left as it is. */
  lemma EraseStep(h: string -> nat, s: State, seen: State, t: State, o: Object, i: Id, desired: seq<string>, created: bool)
    requires WellFormed(s) && WellFormed(seen) && Elapse(s, seen) && OneOfEach(s)
    requires Ours(o) && IsAt(s, o, i) && t in {seen, Erased(seen, o, i)}
    ensures Steady(s, seen, {}) && Steady(s, t, {o}) && OneOfEach(t)
    ensures (t == Erased(seen, o, i) ==> !Present(t, o)) && (t == seen ==> Steady(s, t, {}))
    ensures Paused(s) ==> Paused(seen) && Paused(t)
    ensures !o.SchedulerObject? && Complete(h, t, desired, created) ==>
      Complete(h, seen, desired, created) && Complete(h, s, desired, created)
  {
    WaitStep(h, s, seen, desired, created);
    assert SameObject(s, seen, o);
    if t == Erased(seen, o, i) {
      ErasedSteady(seen, o, i);
      SteadyChain(s, seen, t, {}, {o});
      if !o.SchedulerObject? { CompleteBefore(h, seen, t, desired, created, o); }
    } else {
      SteadyMore(s, t, {}, {o});
    }
  }

  lemma GoneOrSame(s: State, mid: State, t: State, o: Object)
    requires Kept(s, mid, {}) && Kept(mid, t, {o}) && Ours(o)
    ensures Kept(s, t, {o}) && (Present(mid, o) <==> Present(s, o))
    ensures Kept(mid, t, {}) ==> Kept(s, t, {}) && SameObject(s, t, o) && (Present(t, o) <==> Present(s, o))
  {
    assert SameObject(s, mid, o);
    KeptChain(s, mid, t, {}, {o});
    if Kept(mid, t, {}) {
      KeptChain(s, mid, t, {}, {});
      assert SameObject(s, t, o);
    }
  }

  /** From position `from` on, no recorded state is half-on. */
  ghost predicate AllSound(h: string -> nat, trail: seq<State>, from: nat, desired: seq<string>, created: bool) {
    forall i {:trigger Sound(h, trail[i], desired, created)} :: from <= i < |trail| ==> Sound(h, trail[i], desired, created)
  }

  lemma PausedIsSound(h: string -> nat, trail: seq<State>, from: nat, desired: seq<string>, created: bool)
    requires AllPaused(trail, from)
    ensures AllSound(h, trail, from, desired, created)
  {}

  lemma TwoMore(h: string -> nat, trail: seq<State>, from: nat, met: State, left: State, desired: seq<string>, created: bool)
    requires from <= |trail|
    ensures AllPaused(trail, from) && Paused(met) && Paused(left) ==> AllPaused(trail + [met, left], from)
    ensures AllSound(h, trail, from, desired, created) && Sound(h, met, desired, created) && Sound(h, left, desired, created)
      ==> AllSound(h, trail + [met, left], from, desired, created)
  {
    var more := trail + [met, left];
    assert forall i :: 0 <= i < |more| ==> more[i] == if i < |trail| then trail[i] else if i == |trail| then met else left;
  }

  class Installer {
    const d: Device
    const desired: seq<string>
    ghost const from: nat              // where the installation starts in the record of states
    ghost const log: seq<Removal>      // the removals of adaptive objects up to then
    var created: bool                  // whether the NAT rule is ours
    ghost var sound: bool              // no state since then was half-on
    ghost var asleep: bool             // no scheduler was enabled in any state since then

    ghost predicate Valid()
      reads this, d
    {
      d.Valid() && |desired| == 4 && OneOfEach(d.state) && Watched()
    }

    ghost predicate Watched()
      reads this, d
    {
      && from < |d.trail| && OnlyAdaptive(log, d.removals)
      && (sound ==> AllSound(d.oracle.digest, d.trail, from, desired, created))
      && (asleep ==> AllPaused(d.trail, from))
    }

    constructor (dev: Device, texts: seq<string>, ghost start: nat)
      requires dev.Valid() && |texts| == 4 && OneOfEach(dev.state) && start < |dev.trail| && AllPaused(dev.trail, start)
      ensures Valid() && d == dev && desired == texts && from == start && !created && sound && asleep
      ensures log == dev.removals
    {
      d, desired, created, sound, asleep, from, log := dev, texts, false, true, true, start, dev.removals;
      new;
      PausedIsSound(d.oracle.digest, d.trail, from, desired, created);
    }

    ghost predicate AllSet()
      reads this, d
    {
      Complete(d.oracle.digest, d.state, desired, created)
    }

    /** Looks at the states that the last command met and left. */
    ghost method Watch(before: seq<State>)
      requires from < |before| && d.trail == before + [d.seen, d.state] && OnlyAdaptive(log, d.removals)
      requires sound ==> AllSound(d.oracle.digest, before, from, desired, created)
      requires asleep ==> AllPaused(before, from)
      modifies `sound, `asleep
      ensures sound == (old(sound) && Sound(d.oracle.digest, d.seen, desired, created)
                        && Sound(d.oracle.digest, d.state, desired, created))
      ensures asleep == (old(asleep) && Paused(d.seen) && Paused(d.state)) && Watched()
    {
      TwoMore(d.oracle.digest, before, from, d.seen, d.state, desired, created);
      sound := sound && Sound(d.oracle.digest, d.seen, desired, created) && Sound(d.oracle.digest, d.state, desired, created);
      asleep := asleep && Paused(d.seen) && Paused(d.state);
    }

    method Find(o: Object, new_: bool) returns (taken: bool, found: Option<Id>, off: bool)
      requires Valid() && Ours(o)
      modifies this`sound, this`asleep, d
      ensures Valid() && d.clock == old(d.clock) + 1 && Steady(old(d.state), d.state, {})
      ensures old(d.trail) <= d.trail
      ensures Paused(old(d.state)) ==> Paused(d.state) && asleep == old(asleep)
      ensures taken == !d.oracle.refuses(old(d.clock)) && (found.Some? ==> IsAt(d.state, o, found.value))
      ensures !new_ || !d.oracle.misses(old(d.clock)) ==> (found.Some? <==> Present(d.state, o))
      ensures found.Some? ==> off == Off(d.state, o, found.value)
      ensures old(AllSet()) ==> AllSet()
      ensures Paused(old(d.state)) || old(AllSet()) ==> sound == old(sound)
      ensures !Paused(old(d.state)) ==> !Paused(d.state) && (AllSet() ==> old(AllSet()) && sound == old(sound))
    {
      taken, found := d.Find(o, new_);
      off := found.Some? && Off(d.state, o, found.value);
      WaitStep(d.oracle.digest, old(d.state), d.state, desired, created);
      Watch(old(d.trail));
    }

    lemma StillAllSet(s: State, o: Object)
      requires Steady(s, d.seen, {}) && Steady(s, d.state, {o})
      ensures Complete(d.oracle.digest, s, desired, created) && o.SchedulerObject? ==>
        Complete(d.oracle.digest, d.seen, desired, created) && AllSet()
    {
      if Complete(d.oracle.digest, s, desired, created) && o.SchedulerObject? {
        CompleteStays(d.oracle.digest, s, d.seen, desired, created, {});
        CompleteStays(d.oracle.digest, s, d.state, desired, created, {o});
      }
    }

    /** Creates an object, switched off. */
    method Add(o: Object, text: string) returns (ok: bool)
      requires Valid() && Ours(o) && !Present(d.state, o) && Paused(d.state)
      modifies this`sound, this`asleep, d
      ensures Valid() && d.clock == old(d.clock) + 1 && Steady(old(d.state), d.state, {o}) && Paused(d.state)
      ensures ok <==> Present(d.state, o)
      ensures ok ==> AsAdded(d.state, o, d.oracle.keeps(old(d.clock), text))
      ensures ok == !d.oracle.refuses(old(d.clock)) && sound == old(sound) && asleep == old(asleep)
    {
      ok := d.Add(o, text);
      ElapseSteady(old(d.state), d.seen);
      assert SameObject(old(d.state), d.seen, o);
      if ok {
        AddedSteady(d.seen, o, d.oracle.keeps(old(d.clock), text));
        assert SameObject(old(d.state), d.seen, o);
        SteadyChain(old(d.state), d.seen, d.state, {}, {o});
      }
      Watch(old(d.trail));
    }

    method Enable(o: Object, i: Id) returns (ok: bool)
      requires Valid() && Ours(o) && IsAt(d.state, o, i)
      modifies this`sound, this`asleep, d
      ensures Valid() && d.clock == old(d.clock) + 1 && Steady(old(d.state), d.state, {o})
      ensures old(d.trail) <= d.trail
      ensures Paused(old(d.state)) && !o.SchedulerObject? ==> Paused(d.state)
      ensures ok == !d.oracle.refuses(old(d.clock)) && (ok ==> On(d.state, o)) && Present(d.state, o)
      ensures old(AllSet()) && o.SchedulerObject? ==> AllSet()
      ensures (Paused(old(d.state)) && !o.SchedulerObject?) || (old(AllSet()) && o.SchedulerObject?) ==> sound == old(sound)
    {
      ok := d.Enable(o, i);
      EnableStep(old(d.state), d.seen, d.state, o, i);
      StillAllSet(old(d.state), o);
      Watch(old(d.trail));
    }

    method Erase(o: Object, i: Id) returns (ok: bool)
      requires Valid() && Ours(o) && IsAt(d.state, o, i)
      modifies this`sound, this`asleep, d
      ensures Valid() && d.clock == old(d.clock) + 1 && Steady(old(d.state), d.state, {o})
      ensures old(d.trail) <= d.trail
      ensures Paused(old(d.state)) ==> Paused(d.state)
      ensures ok == !d.oracle.refuses(old(d.clock)) && (ok ==> !Present(d.state, o))
      ensures !ok ==> Steady(old(d.state), d.state, {})
      ensures old(AllSet()) && o.SchedulerObject? ==> AllSet()
      ensures Paused(old(d.state)) || (old(AllSet()) && o.SchedulerObject?) ==> sound == old(sound)
      ensures !Paused(old(d.state)) && !o.SchedulerObject? ==>
        !Paused(d.state) && (AllSet() ==> old(AllSet()) && sound == old(sound))
    {
      ok := d.Erase(o, i);
      EraseStep(d.oracle.digest, old(d.state), d.seen, d.state, o, i, desired, created);
      StillAllSet(old(d.state), o);
      Watch(old(d.trail));
    }

    method ReadBack(k: Slot) returns (found: Option<Script>)
      requires Valid() && Paused(d.state)
      modifies this`sound, this`asleep, d
      ensures Valid() && Paused(d.state) && Steady(old(d.state), d.state, {}) && sound == old(sound) && asleep == old(asleep)
      ensures d.clock == old(d.clock) + 1 && d.state.scripts == old(d.state).scripts
      ensures found.Some? ==> Managed(Prod, k) in d.state.scripts && found.value == d.state.scripts[Managed(Prod, k)]
      ensures !d.oracle.refuses(old(d.clock)) && !d.oracle.misses(old(d.clock)) && Managed(Prod, k) in d.state.scripts ==>
        found.Some?
    {
      var taken;
      taken, found := d.LookupScript(Managed(Prod, k));
      ElapseSteady(old(d.state), d.state);
      Watch(old(d.trail));
      if !taken { found := None; }
    }

    /** Reads a script back, fifteen times at most. */
    method VerifyScript(k: Slot, text: string) returns (ok: bool)
      requires Valid() && Paused(d.state)
      modifies this`sound, this`asleep, d
      ensures Valid() && Paused(d.state) && Steady(old(d.state), d.state, {}) && sound == old(sound) && asleep == old(asleep)
      ensures old(d.clock) <= d.clock && (ok ==> Verified(d.oracle.digest, d.state, Managed(Prod, k), text))
      ensures Fair(d.oracle, old(d.clock)) && Verified(d.oracle.digest, old(d.state), Managed(Prod, k), text) ==>
        ok && d.clock == old(d.clock) + 1
    {
      ghost var calm := Fair(d.oracle, old(d.clock)) && Verified(d.oracle.digest, old(d.state), Managed(Prod, k), text);
      for i := 0 to 15
        invariant Valid() && Paused(d.state) && Steady(old(d.state), d.state, {}) && sound == old(sound) && asleep == old(asleep)
        invariant d.clock == old(d.clock) + i && (calm ==> i == 0) && d.state.scripts == old(d.state).scripts
      {
        ghost var s := d.state;
        var found := ReadBack(k);
        SteadyChain(old(d.state), s, d.state, {}, {});
        if found.Some? { return Reads(d.oracle.digest, found.value, text); }
      }
      ok := false;
    }

    /** Creates an object and reads it back. */
    method CreateOne(o: Object, text: string) returns (ok: bool)
      requires Valid() && Ours(o) && !Present(d.state, o) && Paused(d.state)
      modifies this`sound, this`asleep, d
      ensures Valid() && Paused(d.state) && Steady(old(d.state), d.state, {o}) && sound == old(sound) && asleep == old(asleep)
      ensures old(d.clock) <= d.clock && (ok ==> Made(d.oracle.digest, d.state, o, text))
      ensures Takes(d.oracle, old(d.clock), 2) && (o.RuleObject? ==> Quiet(old(d.state))) ==> ok && d.clock == old(d.clock) + 2
    {
      assert Takes(d.oracle, old(d.clock), 2) ==> Fair(d.oracle, old(d.clock)) && Fair(d.oracle, old(d.clock) + 1);
      ok := Add(o, text);
      if !ok { return; }
      ghost var s := d.state;
      if o.ScriptObject? {
        ok := VerifyScript(o.k, text);
        assert ok ==> IsAt(d.state, o, 0);
      } else {
        ok := LookBack(o);
      }
      SteadyChain(old(d.state), s, d.state, {o}, {});
    }

    /** Is it there, and off? */
    method LookBack(o: Object) returns (ok: bool)
      requires Valid() && Ours(o) && !o.ScriptObject? && Paused(d.state)
      modifies this`sound, this`asleep, d
      ensures Valid() && Paused(d.state) && Steady(old(d.state), d.state, {}) && sound == old(sound) && asleep == old(asleep)
      ensures d.clock == old(d.clock) + 1 && (ok ==> Present(d.state, o))
      ensures (Fair(d.oracle, old(d.clock)) && Present(old(d.state), o) && (o.RuleObject? ==> Quiet(old(d.state)))
               && forall i :: IsAt(old(d.state), o, i) ==> Off(old(d.state), o, i)) ==> ok
    {
      var taken, found, off := Find(o, true);
      assert SameObject(old(d.state), d.state, o);
      ok := taken && found.Some? && off;
    }

    /** Creates objects in order, stopping at the first that fails. */
    method CreateEach(objects: seq<Object>, texts: seq<string>) returns (ok: bool)
      requires Valid() && Paused(d.state) && Distinct(objects) && |texts| == |objects|
      requires forall o :: o in objects ==> Ours(o) && !Present(d.state, o)
      modifies this`sound, this`asleep, d
      ensures Valid() && Paused(d.state) && Steady(old(d.state), d.state, Items(objects)) && sound == old(sound) && asleep == old(asleep)
      ensures old(d.clock) <= d.clock
      ensures ok ==> forall i :: 0 <= i < |objects| ==> Made(d.oracle.digest, d.state, objects[i], texts[i])
      ensures Takes(d.oracle, old(d.clock), 2 * |objects|) && Idle(old(d.state)) ==> ok && d.clock == old(d.clock) + 2 * |objects|
    {
      ghost var calm := Takes(d.oracle, old(d.clock), 2 * |objects|) && Idle(old(d.state));
      SteadyNothing(d.state);
      for i := 0 to |objects|
        invariant Valid() && Paused(d.state) && Steady(old(d.state), d.state, Items(objects[..i])) && sound == old(sound) && asleep == old(asleep)
        invariant old(d.clock) <= d.clock && (calm ==> d.clock == old(d.clock) + 2 * i)
        invariant forall j :: 0 <= j < i ==> Made(d.oracle.digest, d.state, objects[j], texts[j])
        invariant forall j :: i <= j < |objects| ==> !Present(d.state, objects[j])
      {
        ghost var s := d.state;
        if calm { TakesPart(d.oracle, old(d.clock), 2 * |objects|, d.clock, 2); }
        ok := CreateOne(objects[i], texts[i]);
        SteadyChain(old(d.state), s, d.state, Items(objects[..i]), {objects[i]});
        ItemsStep(objects, i);
        Others(d.oracle.digest, s, d.state, objects, texts, i);
        if !ok {
          SteadyMore(old(d.state), d.state, Items(objects[..i + 1]), Items(objects));
          return;
        }
      }
      assert objects[..|objects|] == objects;
      ok := true;
    }

    /** Switches objects on in order; schedulers come later. */
    method EnableEach(objects: seq<Object>) returns (ok: bool)
      requires Valid() && Paused(d.state)
      requires forall o :: o in objects ==> Ours(o) && !o.SchedulerObject? && !o.ScriptObject? && Present(d.state, o)
      modifies this`sound, this`asleep, d
      ensures Valid() && Paused(d.state) && Steady(old(d.state), d.state, Items(objects)) && sound == old(sound)
      ensures old(d.clock) <= d.clock && forall o :: o in objects ==> Present(d.state, o)
      ensures ok ==> forall o :: o in objects && (Idle(old(d.state)) || !Switchable(o)) ==> On(d.state, o)
      ensures AllTaken(d.oracle, old(d.clock), 2 * |objects|) ==> ok && d.clock == old(d.clock) + 2 * |objects|
    {
      SteadyNothing(d.state);
      ghost var calm := AllTaken(d.oracle, d.clock, 2 * |objects|);
      for i := 0 to |objects|
        invariant Valid() && SwitchedOn(old(d.state), d.state, objects, i) && sound == old(sound) && old(d.clock) <= d.clock
        invariant calm ==> d.clock == old(d.clock) + 2 * i
      {
        if calm { TakenTwo(d.oracle, old(d.clock), |objects|, i); }
        ok := EnableNextRule(objects, i, old(d.state));
        if !ok { return; }
      }
      assert objects[..|objects|] == objects;
      ok := true;
    }

    method Locate(o: Object) returns (found: Option<Id>)
      requires Valid() && Ours(o) && Present(d.state, o)
      modifies this`sound, this`asleep, d
      ensures Valid() && d.clock == old(d.clock) + 1 && Steady(old(d.state), d.state, {}) && Present(d.state, o)
      ensures old(d.trail) <= d.trail && (found.Some? ==> IsAt(d.state, o, found.value))
      ensures !d.oracle.refuses(old(d.clock)) && !d.oracle.misses(old(d.clock)) ==> found.Some?
      ensures Paused(old(d.state)) ==> Paused(d.state) && sound == old(sound)
      ensures old(AllSet()) ==> AllSet() && sound == old(sound)
    {
      var taken, off;
      taken, found, off := Find(o, true);
      assert SameObject(old(d.state), d.state, o);
      if !taken { found := None; }
    }

    method EnableNextRule(objects: seq<Object>, i: nat, ghost s0: State) returns (ok: bool)
      requires Valid() && i < |objects| && SwitchedOn(s0, d.state, objects, i)
      requires forall o :: o in objects ==> Ours(o) && !o.SchedulerObject? && !o.ScriptObject?
      modifies this`sound, this`asleep, d
      ensures Valid() && sound == old(sound) && old(d.clock) <= d.clock && Paused(d.state)
      ensures ok ==> SwitchedOn(s0, d.state, objects, i + 1)
      ensures Steady(s0, d.state, Items(objects)) && forall o :: o in objects ==> Present(d.state, o)
      ensures AllTaken(d.oracle, old(d.clock), 2) ==> ok && d.clock == old(d.clock) + 2
    {
      ghost var s := d.state;
      assert objects[i] in objects;
      ok := EnableRule(objects[i]);
      OneMoreOn(s0, s, d.state, objects, i);
      if ok { StillOn(s, d.state, objects, i); }
    }

    method EnableRule(o: Object) returns (ok: bool)
      requires Valid() && Ours(o) && !o.SchedulerObject? && Present(d.state, o) && Paused(d.state)
      modifies this`sound, this`asleep, d
      ensures Valid() && Paused(d.state) && sound == old(sound) && Steady(old(d.state), d.state, {o}) && Present(d.state, o)
      ensures old(d.clock) <= d.clock && (ok ==> On(d.state, o))
      ensures AllTaken(d.oracle, old(d.clock), 2) ==> ok && d.clock == old(d.clock) + 2
    {
      var found := Locate(o);
      ghost var s := d.state;
      SteadyMore(old(d.state), s, {}, {o});
      if found.None? { return false; }
      ok := Enable(o, found.value);
      SteadyChain(old(d.state), s, d.state, {}, {o});
    }

    method EnableScheduler(o: Object) returns (ok: bool)
      requires Valid() && AllSet() && o.SchedulerObject? && Present(d.state, o)
      modifies this`sound, this`asleep, d
      ensures Valid() && AllSet() && sound == old(sound) && Steady(old(d.state), d.state, {o}) && Present(d.state, o)
      ensures old(d.clock) <= d.clock && old(d.trail) <= d.trail && (ok ==> On(d.state, o))
      ensures !d.oracle.refuses(old(d.clock)) && !d.oracle.misses(old(d.clock)) ==>
        d.clock == old(d.clock) + 2 && ok == !d.oracle.refuses(old(d.clock) + 1)
    {
      ghost var s0 := d.state;
      var found := Locate(o);
      if found.None? {
        SteadyMore(s0, d.state, {}, {o});
        return false;
      }
      ok := EnableFound(o, found.value, s0);
    }

    /** A scheduler that has been found, having waited since state `s`. */
    method EnableFound(o: Object, i: Id, ghost s: State) returns (ok: bool)
      requires Valid() && AllSet() && o.SchedulerObject? && IsAt(d.state, o, i)
      requires Steady(s, d.state, {}) && (Paused(s) ==> Paused(d.state))
      modifies this`sound, this`asleep, d
      ensures Valid() && AllSet() && sound == old(sound) && Steady(s, d.state, {o}) && Present(d.state, o)
      ensures d.clock == old(d.clock) + 1 && old(d.trail) <= d.trail
      ensures ok == !d.oracle.refuses(old(d.clock)) && (ok ==> On(d.state, o))
    {
      ghost var met := d.state;
      ok := Enable(o, i);
      SteadyChain(s, met, d.state, {}, {o});
    }

    /** The next scheduler. */
    method EnableNext(objects: seq<Object>, i: nat, ghost s0: State, ghost c0: nat) returns (ok: bool)
      requires Valid() && AllSet() && i < |objects| && Distinct(objects) && forall o :: o in objects ==> o.SchedulerObject?
      requires SwitchedUpTo(d.oracle, s0, d.state, c0, d.clock, objects, i)
      modifies this`sound, this`asleep, d
      ensures Valid() && AllSet() && sound == old(sound) && old(d.clock) <= d.clock && old(d.trail) <= d.trail
      ensures ok ==> SwitchedUpTo(d.oracle, s0, d.state, c0, d.clock, objects, i + 1)
      ensures !ok ==> Kept(s0, d.state, Items(objects)) && Reported(d.oracle, d.state, c0, d.clock, objects, false)
      ensures AllTaken(d.oracle, old(d.clock), 2) ==> ok
    {
      assert objects[i] in objects;
      ok := EnableScheduler(objects[i]);
      NextSwitched(d.oracle, s0, old(d.state), d.state, c0, old(d.clock), d.clock, objects, i, ok);
    }

    /** The last step: the schedulers, on a complete installation. */
    method EnableSchedulers(objects: seq<Object>) returns (ok: bool)
      requires Valid() && AllSet() && Distinct(objects)
      requires forall o :: o in objects ==> o.SchedulerObject? && Present(d.state, o)
      modifies this`sound, this`asleep, d
      ensures Valid() && AllSet() && sound == old(sound) && Kept(old(d.state), d.state, Items(objects))
      ensures ok ==> forall o :: o in objects ==> On(d.state, o)
      ensures Reported(d.oracle, d.state, old(d.clock), d.clock, objects, ok)
      ensures old(d.clock) <= d.clock && old(d.trail) <= d.trail
      ensures AllTaken(d.oracle, old(d.clock), 2 * |objects|) ==> ok
    {
      NoneSwitched(d.oracle, d.state, d.clock, objects);
      for i := 0 to |objects|
        invariant Valid() && AllSet() && sound == old(sound) && old(d.clock) <= d.clock && old(d.trail) <= d.trail
        invariant SwitchedUpTo(d.oracle, old(d.state), d.state, old(d.clock), d.clock, objects, i)
      {
        TakenTwo(d.oracle, old(d.clock), |objects|, i);
        TakenPart(d.oracle, old(d.clock), 2 * |objects|, 2 * i);
        ok := EnableNext(objects, i, old(d.state), old(d.clock));
        if !ok { return; }
      }
      AllSwitched(d.oracle, old(d.state), d.state, old(d.clock), d.clock, objects);
      ok := true;
    }

    /** How soundness fares during an undo that began with schedulers paused (`calm`), with everything set and only
        schedulers to remove (`safe`), or with a scheduler enabled and none to remove (`late`). */
    ghost predicate StillSound(calm: bool, safe: bool, late: bool, before: bool)
      reads this, d
    {
      && (calm ==> Paused(d.state)) && (safe ==> AllSet()) && (calm || safe ==> sound == before)
      && (late ==> !Paused(d.state) && (AllSet() ==> sound == before))
    }

    method LookFor(o: Object, ghost calm: bool, ghost safe: bool, ghost late: bool, ghost before: bool)
        returns (taken: bool, found: Option<Id>)
      requires Valid() && Ours(o) && StillSound(calm, safe, late, before)
      modifies this`sound, this`asleep, d
      ensures Valid() && StillSound(calm, safe, late, before) && d.clock == old(d.clock) + 1 && old(d.trail) <= d.trail
      ensures Kept(old(d.state), d.state, {}) && taken == !d.oracle.refuses(old(d.clock))
      ensures found.Some? ==> IsAt(d.state, o, found.value)
      ensures found.None? && !d.oracle.misses(old(d.clock)) ==> !Present(d.state, o)
    {
      var off;
      taken, found, off := Find(o, true);
    }

    method EraseFound(o: Object, i: Id, ghost calm: bool, ghost safe: bool, ghost late: bool, ghost before: bool)
        returns (ok: bool)
      requires Valid() && Ours(o) && IsAt(d.state, o, i) && StillSound(calm, safe, late, before)
      requires (safe ==> o.SchedulerObject?) && (late ==> !o.SchedulerObject?)
      modifies this`sound, this`asleep, d
      ensures Valid() && StillSound(calm, safe, late, before) && d.clock == old(d.clock) + 1 && old(d.trail) <= d.trail
      ensures ok == !d.oracle.refuses(old(d.clock)) && Kept(old(d.state), d.state, {o})
      ensures if ok then !Present(d.state, o) else Kept(old(d.state), d.state, {})
    {
      ok := Erase(o, i);
    }

    /** Looks the object up and takes it away; what the commands answer is ignored. */
    method UndoOne(o: Object, ghost calm: bool, ghost safe: bool, ghost late: bool, ghost before: bool)
      requires Valid() && Ours(o) && StillSound(calm, safe, late, before)
      requires (safe ==> o.SchedulerObject?) && (late ==> !o.SchedulerObject?)
      modifies this`sound, this`asleep, d
      ensures Valid() && StillSound(calm, safe, late, before) && old(d.clock) < d.clock <= old(d.clock) + 2
      ensures old(d.trail) <= d.trail && Kept(old(d.state), d.state, {o})
      ensures Accepted(d.oracle, old(d.clock), d.clock) || !Present(old(d.state), o) ==> !Present(d.state, o)
      ensures !d.oracle.refuses(old(d.clock)) && !d.oracle.misses(old(d.clock)) && Present(old(d.state), o) ==>
        && d.clock == old(d.clock) + 2 && (Present(d.state, o) <==> d.oracle.refuses(old(d.clock) + 1))
        && (Present(d.state, o) ==> SameObject(old(d.state), d.state, o))
    {
      var taken, found := LookFor(o, calm, safe, late, before);
      ghost var s := d.state;
      GoneOrSame(old(d.state), s, s, o);
      if taken && found.Some? {
        var erased := EraseFound(o, found.value, calm, safe, late, before);
        GoneOrSame(old(d.state), s, d.state, o);
      }
    }

    method UndoNext(objects: seq<Object>, i: nat, ghost s0: State, ghost c0: nat, ghost calm: bool, ghost safe: bool,
                    ghost late: bool, ghost before: bool)
      requires Valid() && i < |objects| && (forall o :: o in objects ==> Ours(o)) && StillSound(calm, safe, late, before)
      requires (safe ==> objects[i].SchedulerObject?) && (late ==> !objects[i].SchedulerObject?) && c0 <= d.clock
      requires Dismantled(d.oracle, s0, d.state, c0, d.clock, objects, i)
      modifies this`sound, this`asleep, d
      ensures Valid() && StillSound(calm, safe, late, before) && old(d.clock) < d.clock <= old(d.clock) + 2
      ensures old(d.trail) <= d.trail && Dismantled(d.oracle, s0, d.state, c0, d.clock, objects, i + 1)
    {
      UndoOne(objects[i], calm, safe, late, before);
      NextDismantled(d.oracle, s0, old(d.state), d.state, c0, old(d.clock), d.clock, objects, i);
    }

    /** Takes the objects away, one after the other. */
    method UndoEach(objects: seq<Object>, ghost calm: bool, ghost safe: bool, ghost late: bool)
      requires Valid() && (forall o :: o in objects ==> Ours(o)) && StillSound(calm, safe, late, sound)
      requires forall o :: o in objects ==> (safe ==> o.SchedulerObject?) && (late ==> !o.SchedulerObject?)
      modifies this`sound, this`asleep, d
      ensures Valid() && old(d.clock) <= d.clock <= old(d.clock) + 2 * |objects| && old(d.trail) <= d.trail
      ensures StillSound(calm, safe, late, old(sound))
      ensures Dismantled(d.oracle, old(d.state), d.state, old(d.clock), d.clock, objects, |objects|)
    {
      ghost var before := sound;
      assert Items(objects[..0]) == {};
      SteadyNothing(d.state);
      for i := 0 to |objects|
        invariant Valid() && old(d.clock) <= d.clock <= old(d.clock) + 2 * i && old(d.trail) <= d.trail
        invariant StillSound(calm, safe, late, before)
        invariant Dismantled(d.oracle, old(d.state), d.state, old(d.clock), d.clock, objects, i)
      {
        UndoNext(objects, i, old(d.state), old(d.clock), calm, safe, late, before);
      }
    }

    method TunnelHasNat() returns (ok: bool, any: bool)
      requires Valid() && Paused(d.state) && !Present(d.state, NatObject)
      modifies this`sound, this`asleep, d
      ensures Valid() && Paused(d.state) && d.clock == old(d.clock) + 1 && Steady(old(d.state), d.state, {})
      ensures sound == old(sound) && asleep == old(asleep) && !Present(d.state, NatObject) && ok == !d.oracle.refuses(old(d.clock))
    {
      ok, any := d.ShowsTunnelNat();
      ElapseSteady(old(d.state), d.state);
      assert SameObject(old(d.state), d.state, NatObject);
      Watch(old(d.trail));
    }

    /** The NAT rule, if the tunnel has none yet; `undo` says whether a rule of ours may be there now. */
    method CreateNat() returns (ok: bool, undo: bool)
      requires Valid() && Paused(d.state) && asleep && !created && !Present(d.state, NatObject)
      modifies this`sound, this`asleep, this`created, d
      ensures Valid() && Paused(d.state) && Steady(old(d.state), d.state, {NatObject}) && sound == old(sound) && asleep == old(asleep)
      ensures old(d.clock) <= d.clock && (created ==> ok) && (!undo ==> !Present(d.state, NatObject))
      ensures ok ==> undo == created && (created ==> Present(d.state, NatObject))
      ensures Obliging(d.oracle, old(d.clock)) ==> ok
    {
      undo := false;
      ghost var s0 := d.state;
      var any;
      ok, any := TunnelHasNat();
      SteadyMore(s0, d.state, {}, {NatObject});
      if !ok || any { return; }
      ghost var s1 := d.state;
      ok := Add(NatObject, "");
      SteadyChain(s0, s1, d.state, {NatObject}, {NatObject});
      if !ok { return; }
      undo := true;
      ghost var s2 := d.state;
      ok := LookBack(NatObject);
      SteadyChain(s0, s2, d.state, {NatObject}, {});
      created := ok;
    }

    /** Everything, switched off: scripts and rules, the NAT rule, schedulers. */
    method Build(first: seq<Object>, texts: seq<string>, schedulers: seq<Object>, toInterface: bool)
        returns (ok: bool, undo: bool)
      requires Valid() && Paused(d.state) && asleep && !created && Distinct(first) && Distinct(schedulers) && |texts| == |first|
      requires forall o :: o in first ==> Ours(o) && !o.SchedulerObject? && !o.NatObject? && !Present(d.state, o)
      requires forall o :: o in schedulers ==> o.SchedulerObject? && !Present(d.state, o)
      requires !Present(d.state, NatObject)
      modifies this`sound, this`asleep, this`created, d
      ensures Valid() && Paused(d.state) && ForeignStays(old(d.state), d.state) && sound == old(sound) && asleep == old(asleep)
      ensures old(d.clock) <= d.clock && (Idle(old(d.state)) ==> Idle(d.state))
      ensures !undo ==> !Present(d.state, NatObject)
      ensures ok ==> undo == created && (created ==> Present(d.state, NatObject))
      ensures ok ==> forall i :: 0 <= i < |first| ==> Made(d.oracle.digest, d.state, first[i], texts[i])
      ensures ok ==> forall o :: o in schedulers ==> Present(d.state, o)
      ensures Obliging(d.oracle, old(d.clock)) && Idle(old(d.state)) ==> ok
      ensures !toInterface ==> !undo && !created
      ensures !toInterface && Idle(old(d.state)) && Takes(d.oracle, old(d.clock), 2 * |first + schedulers|) ==>
        ok && d.clock == old(d.clock) + 2 * |first + schedulers| && (Clean(old(d.state)) ==> Clean(d.state))
    {
      undo := false;
      ghost var s0 := d.state;
      TakesPart(d.oracle, d.clock, 2 * |first + schedulers|, d.clock, 2 * |first|);
      TakesPart(d.oracle, d.clock, 2 * |first + schedulers|, d.clock + 2 * |first|, 2 * |schedulers|);
      ObligingTakes(d.oracle, d.clock, d.clock, 2 * |first|);
      ok := CreateEach(first, texts);
      StillAway(s0, d.state, Items(first), schedulers + [NatObject]);
      if !ok { return; }
      if toInterface {
        ghost var s1 := d.state;
        ok, undo := CreateNat();
        StillAway(s1, d.state, {NatObject}, schedulers);
        StillMade(d.oracle.digest, s1, d.state, {NatObject}, first, texts);
        ForeignChain(s0, s1, d.state);
        if !ok { return; }
      }
      ghost var s2 := d.state;
      ObligingTakes(d.oracle, old(d.clock), d.clock, 2 * |schedulers|);
      ok := CreateEach(schedulers, seq(|schedulers|, _ => ""));
      ForeignChain(s0, s2, d.state);
      assert NatObject !in Items(schedulers);
      assert SameObject(s2, d.state, NatObject);
      if ok {
        StillMade(d.oracle.digest, s2, d.state, Items(schedulers), first, texts);
        forall o | o in schedulers ensures Present(d.state, o) {
          var i :| 0 <= i < |schedulers| && schedulers[i] == o;
          assert Made(d.oracle.digest, d.state, schedulers[i], "");
        }
      }
    }

    /** The adaptive residue goes before anything is switched on; if that fails, every adaptive rule is disabled. */
    method ClearBeforeStart() returns (ok: bool)
      requires Valid() && Paused(d.state) && asleep && AllVerified(d.oracle.digest, d.state, Prod, desired)
      modifies d
      ensures Valid() && Paused(d.state) && ForeignStays(old(d.state), d.state)
      ensures old(d.clock) <= d.clock && (Idle(old(d.state)) ==> Idle(d.state))
      ensures ok && Idle(old(d.state)) ==> Clean(d.state)
      ensures AllVerified(d.oracle.digest, d.state, Prod, desired)
      ensures forall o :: Ours(o) ==> (Present(old(d.state), o) <==> Present(d.state, o))
      ensures Obliging(d.oracle, old(d.clock)) && Idle(old(d.state)) ==> ok
      ensures FourScans(d.oracle, old(d.clock)) && Idle(old(d.state)) && Clean(old(d.state)) ==>
        ok && d.clock == old(d.clock) + 4
    {
      ghost var s, r := d.state, d.removals;
      ghost var v := d.trail;
      var stats;
      ok, stats := CleanupRuntime(d);
      CleanupSteady(s, d.state);
      OnlyAdaptiveChain(log, r, d.removals);
      if !ok {
        ghost var t, w := d.state, d.trail;
        var muted := DisableAdaptiveMangle(d);
        MutesKeep(t, d.state);
        ForeignChain(s, t, d.state);
        HeldChain(v, w, d.trail);
      }
      StillAsleep(v, d.trail, from);
      PausedIsSound(d.oracle.digest, d.trail, from, desired, created);
    }

    /** Switches the rules on, then the schedulers; `ready` commands had been issued in between. */
    method SwitchOn(rules: seq<Object>, schedulers: seq<Object>) returns (ok: bool, ghost ready: nat)
      requires Valid() && Paused(d.state) && Distinct(schedulers)
      requires forall o :: o in rules ==> Ours(o) && !o.SchedulerObject? && !o.ScriptObject? && Present(d.state, o)
      requires forall o :: o in schedulers ==> o.SchedulerObject? && Present(d.state, o)
      requires AllVerified(d.oracle.digest, d.state, Prod, desired)
      requires (forall o :: IsSafety(o) || IsMangle(o) ==> o in rules) && (created <==> NatObject in rules)
      modifies this`sound, this`asleep, d
      ensures Valid() && ForeignStays(old(d.state), d.state) && sound == old(sound) && (Paused(d.state) || AllSet())
      ensures old(d.clock) <= d.clock && (!created && !Present(old(d.state), NatObject) ==> !Present(d.state, NatObject))
      ensures ok ==> AllSet() && forall o :: o in schedulers ==> On(d.state, o)
      ensures old(d.clock) <= ready <= d.clock && Paused(d.trail[2 * ready])
      ensures ok ==> forall o :: o in rules && (Idle(old(d.state)) || !Switchable(o)) ==> On(d.trail[2 * ready], o)
      ensures ok && Idle(old(d.state)) ==> Idle(d.trail[2 * ready]) && (Clean(old(d.state)) ==> Clean(d.trail[2 * ready]))
      ensures Obliging(d.oracle, old(d.clock)) ==> ok
      ensures |schedulers| > 1 && AllTaken(d.oracle, old(d.clock), 2 * |rules|) && RefusesTwo(d.oracle, old(d.clock) + 2 * |rules|)
        ==> OneRuns(d.state, schedulers, d.clock, old(d.clock) + 2 * |rules|, ok)
    {
      ghost var s0 := d.state;
      ok := SwitchRules(rules, schedulers);
      ready := d.clock;
      if !ok { return; }
      ghost var s1 := d.state;
      ObligingTakes(d.oracle, old(d.clock), ready, 0);
      ok := StartSchedulers(schedulers);
      ForeignChain(s0, s1, d.state);
    }

    /** The schedulers, at the very end; the NAT rule stays where it is, or away. */
    method StartSchedulers(schedulers: seq<Object>) returns (ok: bool)
      requires Valid() && AllSet() && Distinct(schedulers)
      requires forall o :: o in schedulers ==> o.SchedulerObject? && Present(d.state, o)
      modifies this`sound, this`asleep, d
      ensures Valid() && ForeignStays(old(d.state), d.state) && sound == old(sound) && AllSet()
      ensures old(d.clock) <= d.clock && old(d.trail) <= d.trail
      ensures !Present(old(d.state), NatObject) ==> !Present(d.state, NatObject)
      ensures ok ==> forall o :: o in schedulers ==> On(d.state, o)
      ensures Obliging(d.oracle, old(d.clock)) ==> ok
      ensures |schedulers| > 1 && RefusesTwo(d.oracle, old(d.clock)) ==> OneRuns(d.state, schedulers, d.clock, old(d.clock), ok)
    {
      SecondFails(d.oracle, d.clock);
      ObligingTakes(d.oracle, d.clock, d.clock, 2 * |schedulers|);
      TakesAll(d.oracle, d.clock, 2 * |schedulers|);
      ok := EnableSchedulers(schedulers);
      if !Present(old(d.state), NatObject) { StillAway(old(d.state), d.state, Items(schedulers), [NatObject]); }
    }

    /** The rules; with all of them on, everything is set for the schedulers. */
    method SwitchRules(rules: seq<Object>, ghost schedulers: seq<Object>) returns (ok: bool)
      requires Valid() && Paused(d.state) && AllVerified(d.oracle.digest, d.state, Prod, desired)
      requires forall o :: o in rules ==> Ours(o) && !o.SchedulerObject? && !o.ScriptObject? && Present(d.state, o)
      requires (forall o :: IsSafety(o) || IsMangle(o) ==> o in rules) && (created <==> NatObject in rules)
      requires forall o :: o in schedulers ==> o.SchedulerObject? && Present(d.state, o)
      modifies this`sound, this`asleep, d
      ensures Valid() && Paused(d.state) && Steady(old(d.state), d.state, Items(rules)) && sound == old(sound)
      ensures old(d.clock) <= d.clock && (ok ==> AllSet())
      ensures !created && !Present(old(d.state), NatObject) ==> !Present(d.state, NatObject)
      ensures forall o :: o in schedulers ==> Present(d.state, o)
      ensures ok ==> forall o :: o in rules && (Idle(old(d.state)) || !Switchable(o)) ==> On(d.state, o)
      ensures Obliging(d.oracle, old(d.clock)) ==> ok
      ensures AllTaken(d.oracle, old(d.clock), 2 * |rules|) ==> ok && d.clock == old(d.clock) + 2 * |rules|
    {
      ghost var s := d.state;
      ObligingTakes(d.oracle, d.clock, d.clock, 2 * |rules|);
      TakesAll(d.oracle, d.clock, 2 * |rules|);
      ok := EnableEach(rules);
      if !created && !Present(s, NatObject) { StillAway(s, d.state, Items(rules), [NatObject]); }
      forall o | o in schedulers ensures Present(d.state, o) { assert SameObject(s, d.state, o); }
      if ok { RulesOnIsSet(d.oracle.digest, s, d.state, desired, created, rules); }
    }

    /** Schedulers first, so that nothing runs while the rest is dismantled; `mid` commands had been issued when the last
        of them had had its turn. Half-on states arise exactly if a scheduler is still enabled then and something it
        needs goes afterwards. */
    method Undo(schedulers: seq<Object>, rest: seq<Object>) returns (ghost mid: nat)
      requires Valid() && (Paused(d.state) || AllSet())
      requires (forall o :: o in schedulers ==> o.SchedulerObject?) && forall k: Slot :: SchedulerObject(k) in schedulers
      requires forall o :: o in rest ==> Ours(o) && !o.SchedulerObject?
      modifies this`sound, this`asleep, d
      ensures Valid() && ForeignStays(old(d.state), d.state) && old(d.trail) <= d.trail
      ensures old(d.clock) <= mid <= d.clock <= old(d.clock) + 2 * |schedulers + rest|
      ensures mid <= old(d.clock) + 2 * |schedulers|
      ensures Accepted(d.oracle, old(d.clock), d.clock) ==> forall o :: o in schedulers + rest ==> !Present(d.state, o)
      ensures forall o :: Ours(o) && !Present(old(d.state), o) ==> !Present(d.state, o)
      ensures Paused(old(d.state)) || Accepted(d.oracle, old(d.clock), mid) ==> Paused(d.trail[2 * mid])
      ensures Paused(d.trail[2 * mid]) || AllSet() ==> sound == old(sound)
      ensures !Paused(d.trail[2 * mid]) ==> !Paused(d.state)
      ensures Distinct(schedulers) ==>
        Undone(d.oracle, old(d.state), d.trail[2 * mid], old(d.clock), mid, schedulers, |schedulers|)
      ensures Distinct(rest) ==> Undone(d.oracle, d.trail[2 * mid], d.state, mid, d.clock, rest, |rest|)
      ensures Kept(old(d.state), d.trail[2 * mid], Items(schedulers)) && Kept(d.trail[2 * mid], d.state, Items(rest))
    {
      ghost var s0 := d.state;
      UndoEach(schedulers, Paused(s0), AllSet(), false);
      mid := d.clock;
      ghost var s1 := d.state;
      if Accepted(d.oracle, old(d.clock), mid) { AllGone(s1, schedulers); }
      UndoEach(rest, Paused(s1), false, !Paused(s1));
      assert schedulers[..|schedulers|] == schedulers && rest[..|rest|] == rest && d.trail[2 * mid] == s1;
      ForeignChain(s0, s1, d.state);
      BothAway(s0, s1, d.state, schedulers, rest, Accepted(d.oracle, old(d.clock), mid), Accepted(d.oracle, mid, d.clock));
    }
  }

  lemma AllGone(s: State, schedulers: seq<Object>)
    requires forall j :: 0 <= j < |schedulers| ==> !Present(s, schedulers[j])
    requires forall k: Slot :: SchedulerObject(k) in schedulers
    ensures Paused(s)
  {
    forall k: Slot ensures Managed(Prod, k) !in s.schedulers {
      var j :| 0 <= j < |schedulers| && schedulers[j] == SchedulerObject(k);
      assert !IsAt(s, schedulers[j], 0);
    }
  }

  lemma StillAsleep(a: seq<State>, b: seq<State>, from: nat)
    requires Held(a, b) && Paused(a[|a| - 1]) && AllPaused(a, from)
    ensures AllPaused(b, from)
  {
    forall i | from <= i < |b| ensures Paused(b[i]) { if i < |a| { assert b[i] == a[i]; } }
  }

  lemma CleanupSteady(s: State, t: State)
    requires WellFormed(s) && Settles(s, t) && KeepsFixed(s, t) && Paused(s)
    ensures Steady(s, t, {}) && (OneOfEach(s) ==> OneOfEach(t)) && Paused(t)
    ensures forall o :: Ours(o) ==> (Present(s, o) <==> Present(t, o))
  {
    if Quiet(s) && Clean(s) { CleanSettles(s, t); }
    forall o | Ours(o) ensures SameObject(s, t, o) && (Quiet(s) ==> SameSwitch(s, t, o)) {
      if o.RuleObject? {
        forall i ensures IsAt(s, o, i) <==> IsAt(t, o, i) {}
      }
    }
  }

  lemma MutesKeep(s: State, t: State)
    requires WellFormed(s) && Mutes(s, t) && Paused(s)
    ensures ForeignStays(s, t) && (OneOfEach(s) ==> OneOfEach(t)) && Paused(t) && (Idle(s) ==> Idle(t))
    ensures forall o :: Ours(o) ==> (Present(s, o) <==> Present(t, o))
  {
    forall o | Ours(o) ensures forall i :: IsAt(s, o, i) <==> IsAt(t, o, i) {
      if o.RuleObject? {
        forall i ensures IsAt(s, o, i) <==> IsAt(t, o, i) {}
      }
    }
  }

  lemma ForeignChain(s: State, t: State, u: State)
    requires ForeignStays(s, t) && ForeignStays(t, u)
    ensures ForeignStays(s, u)
  {}

  lemma StillAway(s: State, t: State, worked: set<Object>, objects: seq<Object>)
    requires Kept(s, t, worked) && forall o :: o in objects ==> Ours(o) && o !in worked && !Present(s, o)
    ensures forall o :: o in objects ==> !Present(t, o)
  {
    forall o | o in objects ensures !Present(t, o) { assert SameObject(s, t, o); }
  }

  lemma StillMade(h: string -> nat, s: State, t: State, worked: set<Object>, objects: seq<Object>, texts: seq<string>)
    requires |texts| == |objects| && Kept(s, t, worked) && forall o :: o in objects ==> Ours(o) && o !in worked
    requires forall i :: 0 <= i < |objects| ==> Made(h, s, objects[i], texts[i])
    ensures forall i :: 0 <= i < |objects| ==> Made(h, t, objects[i], texts[i])
  {
    forall i | 0 <= i < |objects| ensures Made(h, t, objects[i], texts[i]) {
      assert objects[i] in objects && SameObject(s, t, objects[i]) && Made(h, s, objects[i], texts[i]);
    }
  }

  /** No command of this stretch was refused and no lookup missed anything. */
  ghost predicate Accepted(o: Oracle, from: nat, to: nat) { forall n :: from <= n < to ==> !o.refuses(n) && !o.misses(n) }

  /** All schedulers are there, the first `i` of them on. */
  ghost predicate OnUpTo(s: State, objects: seq<Object>, i: nat)
    requires i <= |objects|
  {
    (forall o :: o in objects ==> Present(s, o)) && forall j :: 0 <= j < i ==> On(s, objects[j])
  }

  /** The `n` commands from number `from` on are taken, and lookups among them show what is there. */
  predicate AllTaken(o: Oracle, from: nat, n: nat) {
    forall j :: from <= j < from + n ==> !o.refuses(j) && !o.misses(j)
  }

  lemma TakenPart(o: Oracle, from: nat, n: nat, m: nat)
    requires m <= n
    ensures AllTaken(o, from, n) ==> AllTaken(o, from, m) && AllTaken(o, from + m, n - m)
  {}

  lemma TakenTwo(o: Oracle, from: nat, n: nat, i: nat)
    requires i < n
    ensures AllTaken(o, from, 2 * n) ==> AllTaken(o, from + 2 * i, 2)
  {}

  /** From command `c` on the router refuses two commands only: the fourth and the sixth. */
  ghost predicate RefusesTwo(o: Oracle, c: nat) {
    forall n :: c <= n ==> !o.misses(n) && (o.refuses(n) <==> n == c + 3 || n == c + 5)
  }

  /** Enabling the second scheduler, from command `c` on, has been refused; the first one runs. */
  ghost predicate OneRuns(s: State, schedulers: seq<Object>, now: nat, c: nat, ok: bool)
    requires |schedulers| > 1
  {
    !ok && now == c + 4 && OnUpTo(s, schedulers, 1)
  }

  lemma SecondFails(o: Oracle, c: nat)
    ensures RefusesTwo(o, c) ==> EnableFails(o, c, 1)
  {}

  /** The next `n` commands are taken, and of those after them only the fourth and the sixth are refused. */
  ghost predicate FailsAfter(o: Oracle, from: nat, n: nat) { Takes(o, from, n) && RefusesTwo(o, from + n) }

  /** Twenty commands look around. */
  lemma FailsLater(o: Oracle, c: nat)
    ensures FailsAfter(o, c, 84) ==> AllTaken(o, c, 20) && FailsAfter(o, c + 20, 64)
    ensures Obliging(o, c) ==> AllTaken(o, c, 20)
  {
    ObligingTakes(o, c, c, 20);
    TakesPart(o, c, 84, c, 20);
    TakesPart(o, c, 84, c + 20, 64);
    TakesAll(o, c, 20);
  }

  /** 42 commands build and clear, 22 switch eleven rules on. */
  lemma FailsParts(o: Oracle, c: nat)
    ensures FailsAfter(o, c, 64) ==> Takes(o, c, 42) && AllTaken(o, c + 42, 22) && RefusesTwo(o, c + 64)
  {
    TakesPart(o, c, 64, c, 42);
    TakesPart(o, c, 64, c + 42, 22);
    TakesAll(o, c + 42, 22);
  }

  lemma TakesAll(o: Oracle, from: nat, n: nat)
    ensures Takes(o, from, n) ==> AllTaken(o, from, n)
  {
    if Takes(o, from, n) {
      forall j | from <= j < from + n ensures !o.refuses(j) && !o.misses(j) { assert Fair(o, j); }
    }
  }

  /** The first `m` objects are looked up and enabled, the next one is looked up and not enabled. */
  predicate EnableFails(o: Oracle, from: nat, m: nat) { AllTaken(o, from, 2 * m + 1) && o.refuses(from + 2 * m + 1) }

  lemma NextTaken(o: Oracle, from: nat, i: nat, at: nat, ok: bool, now: nat)
    requires AllTaken(o, from, 2 * i) ==> at == from + 2 * i
    requires !o.refuses(at) && !o.misses(at) ==> now == at + 2 && ok == !o.refuses(at + 1)
    ensures AllTaken(o, from, 2 * (i + 1)) ==> ok && now == from + 2 * (i + 1)
    ensures EnableFails(o, from, i) ==> !ok && now == from + 2 * i + 2
    ensures !ok ==> forall m: nat :: i < m ==> !EnableFails(o, from, m)
  {
  }

  /** The first `i` schedulers have been enabled, and nothing else was touched. */
  ghost predicate SwitchedUpTo(o: Oracle, s0: State, s: State, from: nat, now: nat, objects: seq<Object>, i: nat)
    requires i <= |objects|
  {
    && Kept(s0, s, Items(objects[..i])) && OnUpTo(s, objects, i)
    && (AllTaken(o, from, 2 * i) ==> now == from + 2 * i) && forall m: nat :: m < i ==> !EnableFails(o, from, m)
  }

  /** If the first refusal is that of enabling number `m`, the run ends right there with the ones before it on. */
  ghost predicate Reported(o: Oracle, t: State, from: nat, now: nat, objects: seq<Object>, ok: bool) {
    forall m: nat :: m < |objects| && EnableFails(o, from, m) ==>
      !ok && now == from + 2 * m + 2 && OnUpTo(t, objects, m)
  }

  lemma NoneSwitched(o: Oracle, s: State, from: nat, objects: seq<Object>)
    requires forall p :: p in objects ==> Present(s, p)
    ensures SwitchedUpTo(o, s, s, from, from, objects, 0)
  {
    SteadyNothing(s);
    KeptMore(s, s, {}, Items(objects[..0]));
  }

  lemma AllSwitched(o: Oracle, s0: State, s: State, from: nat, now: nat, objects: seq<Object>)
    requires SwitchedUpTo(o, s0, s, from, now, objects, |objects|)
    ensures Kept(s0, s, Items(objects)) && Reported(o, s, from, now, objects, true)
    ensures forall p :: p in objects ==> On(s, p)
  {
    assert objects[..|objects|] == objects;
  }

  lemma NextSwitched(o: Oracle, s0: State, s: State, t: State, from: nat, at: nat, now: nat, objects: seq<Object>, i: nat,
                     ok: bool)
    requires i < |objects| && Distinct(objects) && (forall p :: p in objects ==> p.SchedulerObject?)
    requires SwitchedUpTo(o, s0, s, from, at, objects, i) && Steady(s, t, {objects[i]}) && Present(t, objects[i])
    requires ok ==> On(t, objects[i])
    requires !o.refuses(at) && !o.misses(at) ==> now == at + 2 && ok == !o.refuses(at + 1)
    ensures ok ==> SwitchedUpTo(o, s0, t, from, now, objects, i + 1)
    ensures !ok ==> Kept(s0, t, Items(objects))
    ensures !ok ==> Reported(o, t, from, now, objects, false)
  {
    NextTaken(o, from, i, at, ok, now);
    KeptChain(s0, s, t, Items(objects[..i]), {objects[i]});
    ItemsStep(objects, i);
    KeptMore(s0, t, Items(objects[..i + 1]), Items(objects));
    StillOnUpTo(s, t, objects, i);
    if ok { NextOn(s, t, objects, i); }
  }

  /** Work on one object of a list, whatever comes of it, leaves those before it on. */
  lemma StillOnUpTo(s: State, t: State, objects: seq<Object>, i: nat)
    requires i < |objects| && Distinct(objects) && (forall o :: o in objects ==> o.SchedulerObject?)
    requires OnUpTo(s, objects, i) && Steady(s, t, {objects[i]}) && Present(t, objects[i])
    ensures OnUpTo(t, objects, i)
  {
    StillPresent(s, t, objects, objects[i]);
    forall j | 0 <= j < i ensures On(t, objects[j]) {
      assert objects[j] in objects && objects[j] != objects[i] && SameObject(s, t, objects[j]);
    }
  }

  lemma NextOn(s: State, t: State, objects: seq<Object>, i: nat)
    requires i < |objects| && Distinct(objects) && (forall o :: o in objects ==> o.SchedulerObject?)
    requires OnUpTo(s, objects, i) && Steady(s, t, {objects[i]}) && On(t, objects[i])
    ensures OnUpTo(t, objects, i + 1)
  {
    StillPresent(s, t, objects, objects[i]);
    forall j | 0 <= j < i ensures On(t, objects[j]) {
      assert objects[j] in objects && objects[j] != objects[i] && SameObject(s, t, objects[j]);
    }
  }

  /** If all went well the first `i` objects are gone; in any case nothing has come back. */
  ghost predicate Away(s0: State, s: State, objects: seq<Object>, i: nat, accepted: bool)
    requires i <= |objects|
  {
    && (accepted ==> forall j :: 0 <= j < i ==> !Present(s, objects[j]))
    && forall o :: Ours(o) && !Present(s0, o) ==> !Present(s, o)
  }

  /** The lookups of the first `n` objects are taken and show what is there. */
  predicate Shown(o: Oracle, from: nat, n: nat) {
    forall j :: 0 <= j < n ==> !o.refuses(from + 2 * j) && !o.misses(from + 2 * j)
  }

  /** Where an undo of objects that are all there, with every lookup taken, has got to after `i` of them: two commands
      for each, and an object is still there, unchanged, exactly if its removal was refused. */
  ghost predicate Undone(o: Oracle, s0: State, s: State, from: nat, now: nat, objects: seq<Object>, i: nat)
    requires i <= |objects|
  {
    Shown(o, from, i) && (forall p :: p in objects ==> Present(s0, p)) ==>
      && now == from + 2 * i
      && forall j :: 0 <= j < i ==>
           && (Present(s, objects[j]) <==> o.refuses(from + 2 * j + 1))
           && (Present(s, objects[j]) ==> SameObject(s0, s, objects[j]))
  }

  /** The first `i` objects have had their turn, and nothing else was touched. */
  ghost predicate Dismantled(o: Oracle, s0: State, s: State, from: nat, now: nat, objects: seq<Object>, i: nat)
    requires i <= |objects|
  {
    && Kept(s0, s, Items(objects[..i])) && Away(s0, s, objects, i, Accepted(o, from, now))
    && (Distinct(objects) ==> Undone(o, s0, s, from, now, objects, i))
  }

  lemma NextDismantled(o: Oracle, s0: State, s: State, t: State, from: nat, at: nat, now: nat, objects: seq<Object>, i: nat)
    requires i < |objects| && (forall p :: p in objects ==> Ours(p)) && Kept(s, t, {objects[i]}) && from <= at <= now
    requires Dismantled(o, s0, s, from, at, objects, i)
    requires Accepted(o, at, now) || !Present(s, objects[i]) ==> !Present(t, objects[i])
    requires !o.refuses(at) && !o.misses(at) && Present(s, objects[i]) ==>
      && now == at + 2 && (Present(t, objects[i]) <==> o.refuses(at + 1))
      && (Present(t, objects[i]) ==> SameObject(s, t, objects[i]))
    ensures Dismantled(o, s0, t, from, now, objects, i + 1)
  {
    KeptChain(s0, s, t, Items(objects[..i]), {objects[i]});
    ItemsStep(objects, i);
    NextAway(s0, s, t, objects, i, Accepted(o, from, at), Accepted(o, at, now));
    if Distinct(objects) { NextUndone(o, s0, s, t, from, at, now, objects, i); }
  }

  lemma StillThere(s0: State, s: State, t: State, o: Object)
    ensures SameObject(s0, s, o) ==> (Present(s0, o) <==> Present(s, o))
    ensures SameObject(s, t, o) ==> (Present(s, o) <==> Present(t, o)) && (SameObject(s0, s, o) ==> SameObject(s0, t, o))
  {}

  lemma NextUndone(o: Oracle, s0: State, s: State, t: State, from: nat, at: nat, now: nat, objects: seq<Object>, i: nat)
    requires i < |objects| && Distinct(objects) && (forall p :: p in objects ==> Ours(p))
    requires Undone(o, s0, s, from, at, objects, i) && Kept(s0, s, Items(objects[..i])) && Kept(s, t, {objects[i]})
    requires !o.refuses(at) && !o.misses(at) && Present(s, objects[i]) ==>
      && now == at + 2 && (Present(t, objects[i]) <==> o.refuses(at + 1))
      && (Present(t, objects[i]) ==> SameObject(s, t, objects[i]))
    ensures Undone(o, s0, t, from, now, objects, i + 1)
  {
    if Shown(o, from, i + 1) && forall p :: p in objects ==> Present(s0, p) {
      assert Shown(o, from, i) && objects[i] in objects && objects[i] !in Items(objects[..i]);
      StillThere(s0, s, s, objects[i]);
      forall j | 0 <= j < i
        ensures (Present(t, objects[j]) <==> Present(s, objects[j]))
        ensures SameObject(s0, s, objects[j]) ==> SameObject(s0, t, objects[j])
      {
        assert objects[j] in objects && objects[j] != objects[i];
        StillThere(s0, s, t, objects[j]);
      }
      StillThere(s0, s, t, objects[i]);
    }
  }

  lemma NextAway(s0: State, s: State, t: State, objects: seq<Object>, i: nat, accepted: bool, one: bool)
    requires i < |objects| && Away(s0, s, objects, i, accepted) && (forall o :: o in objects ==> Ours(o))
    requires Kept(s, t, {objects[i]}) && (one || !Present(s, objects[i]) ==> !Present(t, objects[i]))
    ensures Away(s0, t, objects, i + 1, accepted && one)
  {
    StillAbsent(s, t, objects[i]);
    forall j | 0 <= j < i + 1 && accepted && one ensures !Present(t, objects[j]) {
      if j < i { assert objects[j] in objects && !Present(s, objects[j]); }
    }
  }

  lemma StillAbsent(s: State, t: State, worked: Object)
    requires Kept(s, t, {worked}) && (!Present(s, worked) ==> !Present(t, worked))
    ensures forall o :: Ours(o) && !Present(s, o) ==> !Present(t, o)
  {
    forall o | Ours(o) && !Present(s, o) ensures !Present(t, o) {
      if o != worked { assert SameObject(s, t, o); }
    }
  }

  lemma BothAway(s0: State, s1: State, t: State, a: seq<Object>, b: seq<Object>, one: bool, two: bool)
    requires Away(s0, s1, a, |a|, one) && Away(s1, t, b, |b|, two) && forall o :: o in a ==> Ours(o)
    ensures one && two ==> forall o :: o in a + b ==> !Present(t, o)
    ensures forall o :: Ours(o) && !Present(s0, o) ==> !Present(t, o)
  {
    forall o | one && two && o in a + b ensures !Present(t, o) {
      if o in a {
        var j :| 0 <= j < |a| && a[j] == o;
      } else {
        var j :| 0 <= j < |b| && b[j] == o;
      }
    }
  }

  predicate Distinct(objects: seq<Object>) { forall i, j :: 0 <= i < j < |objects| ==> objects[i] != objects[j] }

  function Items(objects: seq<Object>): set<Object> { set o | o in objects }

  lemma ItemsStep(objects: seq<Object>, i: nat)
    requires i < |objects|
    ensures Items(objects[..i]) + {objects[i]} == Items(objects[..i + 1])
  {
    assert objects[..i + 1] == objects[..i] + [objects[i]];
  }

  lemma KeptMore(s: State, t: State, a: set<Object>, b: set<Object>)
    requires Kept(s, t, a) && a <= b
    ensures Kept(s, t, b)
  {}

  lemma SteadyMore(s: State, t: State, a: set<Object>, b: set<Object>)
    requires Steady(s, t, a) && a <= b
    ensures Steady(s, t, b)
  {}

  /** Work on one object of a list leaves the others as they were. */
  lemma Others(h: string -> nat, s: State, t: State, objects: seq<Object>, texts: seq<string>, i: nat)
    requires i < |objects| == |texts| && Distinct(objects) && Steady(s, t, {objects[i]})
    requires forall o :: o in objects ==> Ours(o)
    requires forall j :: 0 <= j < i ==> Made(h, s, objects[j], texts[j])
    requires forall j :: i < j < |objects| ==> !Present(s, objects[j])
    ensures forall j :: 0 <= j < i ==> Made(h, t, objects[j], texts[j])
    ensures forall j :: i < j < |objects| ==> !Present(t, objects[j])
  {
    forall j | 0 <= j < |objects| && j != i ensures SameObject(s, t, objects[j]) { assert objects[j] in objects; }
  }

  lemma StillPresent(s: State, t: State, objects: seq<Object>, o: Object)
    requires Steady(s, t, {o}) && Present(t, o) && forall p :: p in objects ==> Ours(p) && Present(s, p)
    ensures forall p :: p in objects ==> Present(t, p)
  {
    forall p | p in objects ensures Present(t, p) {
      if p != o { assert SameObject(s, t, p); }
    }
  }

  /** The first `i` of the objects have been switched on, with all schedulers paused. */
  ghost predicate SwitchedOn(s0: State, s: State, objects: seq<Object>, i: nat)
    requires i <= |objects|
  {
    && Paused(s0) && Paused(s) && Steady(s0, s, Items(objects[..i])) && (forall o :: o in objects ==> Present(s, o))
    && (forall j :: 0 <= j < i && (Idle(s0) || !Switchable(objects[j])) ==> On(s, objects[j]))
  }

  lemma OneMoreOn(s0: State, s: State, t: State, objects: seq<Object>, i: nat)
    requires i < |objects| && SwitchedOn(s0, s, objects, i) && Steady(s, t, {objects[i]})
    requires Present(t, objects[i]) && forall p :: p in objects ==> Ours(p)
    ensures Steady(s0, t, Items(objects[..i + 1])) && Steady(s0, t, Items(objects))
    ensures (forall p :: p in objects ==> Present(t, p)) && (Idle(s0) ==> Idle(s))
  {
    SteadyChain(s0, s, t, Items(objects[..i]), {objects[i]});
    ItemsStep(objects, i);
    SteadyMore(s0, t, Items(objects[..i + 1]), Items(objects));
    StillPresent(s, t, objects, objects[i]);
  }

  lemma StillOn(s: State, t: State, objects: seq<Object>, i: nat)
    requires i < |objects| && Steady(s, t, {objects[i]}) && On(t, objects[i]) && Paused(s)
    requires forall o :: o in objects ==> Ours(o)
    ensures forall j :: 0 <= j < i && (Idle(s) || !Switchable(objects[j])) && On(s, objects[j]) ==> On(t, objects[j])
  {
    forall j | 0 <= j < i && (Idle(s) || !Switchable(objects[j])) && On(s, objects[j]) ensures On(t, objects[j]) {
      var o := objects[j];
      if o != objects[i] {
        assert o in objects && SameObject(s, t, o);
      }
    }
  }

  lemma CompleteStays(h: string -> nat, s: State, t: State, desired: seq<string>, created: bool, worked: set<Object>)
    requires Complete(h, s, desired, created) && Kept(s, t, worked) && forall o :: o in worked ==> o.SchedulerObject?
    ensures Complete(h, t, desired, created)
  {
    forall k: Slot ensures Verified(h, t, Managed(Prod, k), desired[k]) {
      assert IsAt(s, ScriptObject(k), 0);
      assert SameObject(s, t, ScriptObject(k));
    }
    forall o | IsSafety(o) ensures On(t, o) { assert SameObject(s, t, o); }
    forall o | IsMangle(o) ensures Present(t, o) { assert SameObject(s, t, o); }
    assert SameObject(s, t, NatObject);
  }

  /** What is complete after an object was worked on and is still there, or was not needed, was complete before. */
  lemma CompleteBefore(h: string -> nat, s: State, t: State, desired: seq<string>, created: bool, o: Object)
    requires Kept(s, t, {o}) && (Present(t, o) ==> Kept(s, t, {})) && !o.SchedulerObject?
    ensures Complete(h, t, desired, created) ==> Complete(h, s, desired, created)
  {
    if Complete(h, t, desired, created) {
      forall k: Slot ensures Verified(h, s, Managed(Prod, k), desired[k]) {
        assert IsAt(t, ScriptObject(k), 0);
        assert SameObject(s, t, ScriptObject(k));
        assert IsAt(s, ScriptObject(k), 0);
      }
      forall p | IsSafety(p) ensures On(s, p) { assert On(t, p) && SameObject(s, t, p); }
      forall p | IsMangle(p) ensures Present(s, p) { assert Present(t, p) && SameObject(s, t, p); }
      if created { assert On(t, NatObject) && SameObject(s, t, NatObject); }
    }
  }

  /** A script with the text the router kept, anything else switched off. */
  ghost predicate AsAdded(s: State, o: Object, kept: Script) {
    && (o.ScriptObject? ==> Managed(Prod, o.k) in s.scripts && s.scripts[Managed(Prod, o.k)] == kept)
    && (!o.ScriptObject? ==> forall i :: IsAt(s, o, i) ==> Off(s, o, i))
  }

  /** The object exists, a script with the text it should have. */
  ghost predicate Made(h: string -> nat, s: State, o: Object, text: string) {
    Present(s, o) && (o.ScriptObject? ==> Verified(h, s, Managed(Prod, o.k), text))
  }

  // ---- the whole run ---------------------------------------------------------------------------------------------------

  /** How many of the first `n` objects are there. */
  ghost function Count(s: State, objects: seq<Object>, n: nat): nat
    requires n <= |objects|
  {
    if n == 0 then 0 else Count(s, objects, n - 1) + (if Present(s, objects[n - 1]) then 1 else 0)
  }

  lemma {:induction false} CountExtremes(s: State, objects: seq<Object>, n: nat)
    requires n <= |objects|
    ensures Count(s, objects, n) <= n
    ensures Count(s, objects, n) == 0 <==> forall i :: 0 <= i < n ==> !Present(s, objects[i])
    ensures Count(s, objects, n) == n <==> forall i :: 0 <= i < n ==> Present(s, objects[i])
  {
    if n > 0 { CountExtremes(s, objects, n - 1); }
  }

  /** Looks for an object that may have been there since state `s`, when the record of states was `v`. */
  method IsThere(d: Device, o: Object, ghost s: State, ghost v: seq<State>) returns (ok: bool, there: bool)
    requires d.Valid() && Ours(o) && Steady(s, d.state, {}) && (Paused(s) ==> Paused(d.state)) && Held(v, d.trail)
    modifies d
    ensures d.Valid() && d.clock == old(d.clock) + 1 && Steady(s, d.state, {}) && (Paused(s) ==> Paused(d.state))
    ensures Held(v, d.trail) && d.removals == old(d.removals)
    ensures (there <==> Present(s, o)) && ok == !d.oracle.refuses(old(d.clock))
  {
    var found;
    ok, found := d.Find(o, false);
    HeldStep(old(d.trail), d.seen, d.state);
    HeldChain(v, old(d.trail), d.trail);
    ElapseSteady(old(d.state), d.state);
    SameAllAlong(s, old(d.state), d.state, o);
    there := found.Some?;
  }

  lemma SameAllAlong(s: State, t: State, u: State, o: Object)
    requires Steady(s, t, {}) && Steady(t, u, {}) && (Paused(s) ==> Paused(t)) && Ours(o)
    ensures Steady(s, u, {}) && (Present(s, o) <==> Present(u, o))
  {
    SteadyChain(s, t, u, {}, {});
    assert SameObject(s, u, o);
  }

  /** Counts what is there; long-standing objects are always shown. */
  method CountPresent(d: Device, objects: seq<Object>) returns (ok: bool, n: nat)
    requires d.Valid() && forall o :: o in objects ==> Ours(o)
    modifies d
    ensures d.Valid() && old(d.clock) <= d.clock && Steady(old(d.state), d.state, {})
    ensures Held(old(d.trail), d.trail) && d.removals == old(d.removals)
    ensures ok ==> n == Count(old(d.state), objects, |objects|) && d.clock == old(d.clock) + |objects|
    ensures AllTaken(d.oracle, old(d.clock), |objects|) ==> ok
  {
    n := 0;
    SteadyNothing(d.state);
    HeldNothing(d.trail);
    for i := 0 to |objects|
      invariant d.Valid() && d.clock == old(d.clock) + i && Steady(old(d.state), d.state, {})
      invariant Held(old(d.trail), d.trail) && (Paused(old(d.state)) ==> Paused(d.state)) && d.removals == old(d.removals)
      invariant n == Count(old(d.state), objects, i)
    {
      var there;
      assert objects[i] in objects;
      ok, there := IsThere(d, objects[i], old(d.state), old(d.trail));
      if !ok { return; }
      if there { n := n + 1; }
    }
    ok := true;
  }

  /** The objects of an installation in the order of the tables. */
  method Tables() returns (scripts: seq<Object>, safety: seq<Object>, mangle: seq<Object>, schedulers: seq<Object>)
    ensures |scripts| == 4 && forall k: Slot :: scripts[k] == ScriptObject(k)
    ensures |schedulers| == 4 && forall k: Slot :: schedulers[k] == SchedulerObject(k)
    ensures |safety| == 3 && forall o :: o in safety <==> IsSafety(o)
    ensures |mangle| == 8 && forall o :: o in mangle <==> IsMangle(o)
    ensures Distinct(scripts + (safety + mangle)) && Distinct(schedulers)
  {
    scripts, safety, mangle, schedulers := SCRIPTS, SAFETY, MANGLE, SCHEDULERS;
    assert safety[0].c.network == 0 && safety[1].c.network == 1 && safety[2].c.network == 2;
    EightMangle();
    DistinctJoin(safety, mangle);
    DistinctJoin(scripts, safety + mangle);
  }

  lemma EightMangle()
    ensures |MANGLE| == 8 && (forall o :: o in MANGLE <==> IsMangle(o)) && Distinct(MANGLE)
  {
    forall o | IsMangle(o) ensures o in MANGLE {
      if o.c.FixedMark? {
        assert (o.c.kind.TestMark? || o.c.kind.OkMark?) && (o.c.proto.Tcp? || o.c.proto.Udp?);
        assert o in [MANGLE[0], MANGLE[1], MANGLE[2], MANGLE[3]];
      } else if o.c.RouterDns? {
        assert o.c.proto.Tcp? || o.c.proto.Udp?;
        assert o in [MANGLE[6], MANGLE[7]];
      } else {
        assert o.c.RouteOk? || o.c.RouteTest?;
        assert o in [MANGLE[4], MANGLE[5]];
      }
    }
  }

  lemma FirstIsMade(h: string -> nat, s: State, scripts: seq<Object>, rules: seq<Object>, desired: seq<string>,
                    texts: seq<string>)
    requires |desired| == |scripts| == 4 && |texts| == |scripts + rules| && texts[..4] == desired
    requires forall k: Slot :: scripts[k] == ScriptObject(k)
    requires forall i :: 0 <= i < |texts| ==> Made(h, s, (scripts + rules)[i], texts[i])
    ensures AllVerified(h, s, Prod, desired) && forall o :: o in rules ==> Present(s, o)
  {
    var all := scripts + rules;
    forall k: Slot ensures Verified(h, s, Managed(Prod, k), desired[k]) {
      assert all[k] == ScriptObject(k) && texts[k] == texts[..4][k] && Made(h, s, all[k], texts[k]);
    }
    forall o | o in rules ensures Present(s, o) {
      var i :| 0 <= i < |rules| && rules[i] == o;
      assert all[4 + i] == o && Made(h, s, all[4 + i], texts[4 + i]);
    }
  }

  lemma DistinctJoin(a: seq<Object>, b: seq<Object>)
    requires Distinct(a) && Distinct(b) && forall o :: o in a ==> o !in b
    ensures Distinct(a + b)
  {
    var all := a + b;
    forall i, j | 0 <= i < j < |all| ensures all[i] != all[j] {
      if i < |a| <= j { assert all[i] in a && all[j] in b; }
    }
  }

  datatype InstallExit = Uninspected | Existing | Partial | Invalid | Failed | Installed

  ghost predicate Fresh(s: State) { forall o :: Ours(o) ==> !Present(s, o) }

  /** Just before the first scheduler starts: all rules on, nothing running, no adaptive residue. */
  ghost predicate ReadyToStart(s: State, created: bool) {
    && Quiet(s) && Clean(s) && (created ==> On(s, NatObject))
    && forall o :: IsSafety(o) || IsMangle(o) ==> On(s, o)
  }

  ghost predicate Running(h: string -> nat, s: State, desired: seq<string>, created: bool) {
    Complete(h, s, desired, created) && forall k: Slot :: On(s, SchedulerObject(k))
  }

  /** What a fresh installation may leave behind, given all states met and left from position `from` of the record on.
      `ready` is the number of commands issued before the first scheduler is enabled, `undo` before the undo begins, and
      `mid` before it goes on from the schedulers to the rest. */
  ghost predicate InstallOutcome(d: Device, from: nat, desired: seq<string>, idle: bool, exit: InstallExit, created: bool,
                                 ready: nat, undo: nat, mid: nat)
    requires d.Valid()
    reads d
  {
    && from <= |d.trail| && ready <= d.clock && undo <= mid <= d.clock <= undo + 40 && mid <= undo + 8
    && (exit.Failed? ==>
          && AllSound(d.oracle.digest, d.trail[..2 * undo + 1], from, desired, created)
          && (Accepted(d.oracle, undo, d.clock) ==> Fresh(d.state))
          && (Paused(d.trail[2 * undo]) || Accepted(d.oracle, undo, mid) ==> Paused(d.trail[2 * mid]))
          && (AllSound(d.oracle.digest, d.trail, from, desired, created) <==>
                Paused(d.trail[2 * mid]) || Complete(d.oracle.digest, d.state, desired, created)))
    && (exit.Installed? ==>
          && AllSound(d.oracle.digest, d.trail, from, desired, created) && OneOfEach(d.state)
          && Running(d.oracle.digest, d.state, desired, created)
          && Paused(d.trail[2 * ready]) && (idle ==> ReadyToStart(d.trail[2 * ready], created)))
  }

  /** The part that changes the router: build, clear, switch on, or undo. */
  method InstallFresh(d: Device, desired: seq<string>, toInterface: bool, ghost from: nat)
      returns (exit: InstallExit, created: bool, ghost ready: nat, ghost undo: nat, ghost mid: nat)
    requires d.Valid() && |desired| == 4 && Fresh(d.state) && from < |d.trail| && AllPaused(d.trail, from)
    modifies d
    ensures d.Valid() && ForeignStays(old(d.state), d.state) && exit in {Failed, Installed}
    ensures OnlyAdaptive(old(d.removals), d.removals)
    ensures InstallOutcome(d, from, desired, Idle(old(d.state)), exit, created, ready, undo, mid)
    ensures Obliging(d.oracle, old(d.clock)) && Idle(old(d.state)) ==> exit.Installed?
    ensures !toInterface && Idle(old(d.state)) && Clean(old(d.state)) && FailsAfter(d.oracle, old(d.clock), 64) ==>
      exit.Failed? && OneLeft(d.state)
  {
    FreshIsPaused(d.state);
    var ins := new Installer(d, desired, from);
    var scripts, safety, mangle, schedulers := Tables();
    var ok, mine;
    ok, mine, ready := PutUp(ins, scripts, safety + mangle, schedulers, toInterface);
    created, undo, mid := ins.created, d.clock, d.clock;
    exit := if ok then Installed else Failed;
    if !ok {
      ghost var s, v := d.state, d.trail;
      mid := UndoAll(ins, scripts, safety, mangle, schedulers, mine, old(d.clock) + 64);
      ForeignChain(old(d.state), s, d.state);
      assert d.trail[..2 * undo + 1] == v;
      LastIsSound(d, from, desired, created);
    }
  }

  /** What holds of all recorded states holds of the last one. */
  lemma LastIsSound(d: Device, from: nat, desired: seq<string>, created: bool)
    requires d.Valid() && from < |d.trail|
    ensures AllSound(d.oracle.digest, d.trail, from, desired, created) ==> Sound(d.oracle.digest, d.state, desired, created)
  {
    assert d.trail[2 * d.clock] == d.state;
  }

  /** Builds everything and switches it on; `mine` says whether a NAT rule of ours may be there. */
  method PutUp(ins: Installer, scripts: seq<Object>, rules: seq<Object>, schedulers: seq<Object>, toInterface: bool)
      returns (ok: bool, mine: bool, ghost ready: nat)
    requires ins.Valid() && Fresh(ins.d.state) && Paused(ins.d.state) && ins.asleep && !ins.created
    requires |scripts| == 4 && (forall k: Slot :: scripts[k] == ScriptObject(k)) && Distinct(scripts + rules)
    requires (forall o :: o in rules ==> o.RuleObject? && Ours(o)) && forall o :: IsSafety(o) || IsMangle(o) ==> o in rules
    requires |schedulers| == 4 && (forall k: Slot :: schedulers[k] == SchedulerObject(k)) && Distinct(schedulers)
    modifies ins`sound, ins`asleep, ins`created, ins.d
    ensures ins.Valid() && ForeignStays(old(ins.d.state), ins.d.state) && ins.sound == old(ins.sound)
    ensures (Paused(ins.d.state) || ins.AllSet()) && (!ok && !mine ==> !Present(ins.d.state, NatObject))
    ensures ready <= ins.d.clock && Paused(ins.d.trail[2 * ready])
    ensures ok ==> Running(ins.d.oracle.digest, ins.d.state, ins.desired, ins.created)
    ensures ok && Idle(old(ins.d.state)) ==> ReadyToStart(ins.d.trail[2 * ready], ins.created)
    ensures Obliging(ins.d.oracle, old(ins.d.clock)) && Idle(old(ins.d.state)) ==> ok
    ensures !toInterface ==> !mine
    ensures (!toInterface && Idle(old(ins.d.state)) && Clean(old(ins.d.state)) && |rules| == 11
             && FailsAfter(ins.d.oracle, old(ins.d.clock), 64)) ==>
      OneRuns(ins.d.state, schedulers, ins.d.clock, old(ins.d.clock) + 64, ok)
  {
    FailsParts(ins.d.oracle, ins.d.clock);
    ok, mine := Assemble(ins, scripts, rules, schedulers, toInterface);
    ghost var s := ins.d.state;
    ready := ins.d.clock;
    if ok { ok, ready := ins.SwitchOn(rules + (if ins.created then [NatObject] else []), schedulers); }
    ForeignChain(old(ins.d.state), s, ins.d.state);
  }

  /** Takes away whatever the installation may have made. */
  method UndoAll(ins: Installer, scripts: seq<Object>, safety: seq<Object>, mangle: seq<Object>, schedulers: seq<Object>,
                 undo: bool, ghost c: nat) returns (ghost mid: nat)
    requires ins.Valid() && (Paused(ins.d.state) || ins.AllSet()) && (undo || !Present(ins.d.state, NatObject))
    requires |scripts| == 4 && forall k: Slot :: scripts[k] == ScriptObject(k)
    requires |schedulers| == 4 && forall k: Slot :: schedulers[k] == SchedulerObject(k)
    requires |safety| == 3 && |mangle| == 8 && Distinct(scripts + (safety + mangle)) && Distinct(schedulers)
    requires (forall o :: o in safety <==> IsSafety(o)) && (forall o :: o in mangle <==> IsMangle(o))
    modifies ins`sound, ins`asleep, ins.d
    ensures ins.Valid() && ForeignStays(old(ins.d.state), ins.d.state) && old(ins.d.trail) <= ins.d.trail
    ensures old(ins.d.clock) <= ins.d.clock <= old(ins.d.clock) + 40
    ensures old(ins.d.clock) <= mid <= ins.d.clock && mid <= old(ins.d.clock) + 8
    ensures Accepted(ins.d.oracle, old(ins.d.clock), ins.d.clock) ==> Fresh(ins.d.state)
    ensures Paused(old(ins.d.state)) || Accepted(ins.d.oracle, old(ins.d.clock), mid) ==> Paused(ins.d.trail[2 * mid])
    ensures Paused(ins.d.trail[2 * mid]) || ins.AllSet() ==> ins.sound == old(ins.sound)
    ensures !Paused(ins.d.trail[2 * mid]) ==> !Paused(ins.d.state)
    ensures !undo && RefusesTwo(ins.d.oracle, c) && OneRuns(old(ins.d.state), schedulers, old(ins.d.clock), c, false) ==>
      OneLeft(ins.d.state)
  {
    AllOurs(scripts, safety, mangle, schedulers);
    var rest := mangle + safety + (if undo then [NatObject] else []) + scripts;
    ghost var s := ins.d.state;
    ghost var one := !undo && RefusesTwo(ins.d.oracle, c) && OneRuns(s, schedulers, ins.d.clock, c, false);
    assert one ==> On(s, schedulers[0]) && ins.AllSet();
    mid := ins.Undo(schedulers, rest);
    if one {
      UndoOfOne(ins.d.oracle, s, ins.d.trail[2 * mid], ins.d.state, ins.desired, ins.created, c, mid, ins.d.clock,
                scripts, safety, mangle, schedulers, rest);
    }
  }

  lemma UndoOfOne(o: Oracle, s: State, m: State, t: State, desired: seq<string>, created: bool, c: nat, mid: nat, end: nat,
                  scripts: seq<Object>, safety: seq<Object>, mangle: seq<Object>, schedulers: seq<Object>, rest: seq<Object>)
    requires |scripts| == 4 && (forall k: Slot :: scripts[k] == ScriptObject(k)) && rest == mangle + safety + [] + scripts
    requires |schedulers| == 4 && forall k: Slot :: schedulers[k] == SchedulerObject(k)
    requires (forall p :: p in safety <==> IsSafety(p)) && (forall p :: p in mangle <==> IsMangle(p))
    requires Distinct(scripts + (safety + mangle)) && RefusesTwo(o, c)
    requires Complete(o.digest, s, desired, created) && OnUpTo(s, schedulers, 1) && !Present(t, NatObject)
    requires Kept(s, m, Items(schedulers)) && Undone(o, s, m, c + 4, mid, schedulers, 4)
    requires Kept(m, t, Items(rest)) && (Distinct(rest) ==> Undone(o, m, t, mid, end, rest, |rest|))
    ensures OneLeft(t)
  {
    SetIsThere(o.digest, s, desired, created, schedulers);
    RestIsDistinct(scripts, safety, mangle, rest);
    RestIsOurs(scripts, safety, mangle, schedulers, rest);
    OnlyOneIsLeft(o, s, m, t, c, mid, end, schedulers, rest);
  }

  lemma RestIsOurs(scripts: seq<Object>, safety: seq<Object>, mangle: seq<Object>, schedulers: seq<Object>, rest: seq<Object>)
    requires |scripts| == 4 && (forall k: Slot :: scripts[k] == ScriptObject(k)) && rest == mangle + safety + [] + scripts
    requires |schedulers| == 4 && forall k: Slot :: schedulers[k] == SchedulerObject(k)
    requires (forall o :: o in safety <==> IsSafety(o)) && (forall o :: o in mangle <==> IsMangle(o))
    ensures forall o :: o in rest <==> Ours(o) && !o.NatObject? && !o.SchedulerObject?
    ensures forall o :: o in schedulers <==> o.SchedulerObject?
  {
    AllOurs(scripts, safety, mangle, schedulers);
  }

  lemma RestIsDistinct(scripts: seq<Object>, safety: seq<Object>, mangle: seq<Object>, rest: seq<Object>)
    requires Distinct(scripts + (safety + mangle)) && rest == mangle + safety + [] + scripts
    ensures Distinct(rest)
  {
    DistinctParts(scripts, safety, mangle);
    DistinctJoin(mangle, safety);
    DistinctJoin(mangle + safety, scripts);
    assert mangle + safety + [] == mangle + safety;
  }

  lemma RulesOnIsSet(h: string -> nat, s: State, t: State, desired: seq<string>, created: bool, rules: seq<Object>)
    requires |desired| == 4 && AllVerified(h, s, Prod, desired) && Kept(s, t, Items(rules))
    requires forall o :: o in rules ==> !o.ScriptObject? && Present(t, o) && (!Switchable(o) ==> On(t, o))
    requires (forall o :: IsSafety(o) || IsMangle(o) ==> o in rules) && (created ==> NatObject in rules)
    ensures Complete(h, t, desired, created)
  {
    forall k: Slot ensures Verified(h, t, Managed(Prod, k), desired[k]) {
      assert IsAt(s, ScriptObject(k), 0) && SameObject(s, t, ScriptObject(k));
    }
    forall o | IsMangle(o) ensures Present(t, o) { assert o in rules; }
    forall o | IsSafety(o) ensures On(t, o) { assert o in rules && !Switchable(o); }
  }

  /** Everything that is ours is there, the NAT rule possibly apart. */
  ghost predicate AllThere(s: State) { forall o :: Ours(o) && !o.NatObject? ==> Present(s, o) }

  /** The first scheduler is enabled, and nothing else of ours is there. */
  ghost predicate OneLeft(s: State) {
    On(s, SchedulerObject(0)) && forall o :: Ours(o) && o != SchedulerObject(0) ==> !Present(s, o)
  }

  lemma DistinctParts(scripts: seq<Object>, safety: seq<Object>, mangle: seq<Object>)
    requires Distinct(scripts + (safety + mangle))
    ensures Distinct(scripts) && Distinct(safety) && Distinct(mangle)
    ensures (forall o :: o in safety ==> o !in mangle) && forall o :: o in scripts ==> o !in safety + mangle
  {
    var all := scripts + (safety + mangle);
    forall i | 0 <= i < |scripts| ensures all[i] == scripts[i] {}
    forall i | 0 <= i < |safety| ensures all[|scripts| + i] == safety[i] {}
    forall i | 0 <= i < |mangle| ensures all[|scripts| + |safety| + i] == mangle[i] {}
  }

  /** What the undo leaves if the first scheduler runs and its removal is refused. */
  lemma OnlyOneIsLeft(o: Oracle, s: State, m: State, t: State, c: nat, mid: nat, end: nat, schedulers: seq<Object>,
                      rest: seq<Object>)
    requires RefusesTwo(o, c) && AllThere(s) && |schedulers| == 4
    requires forall k: Slot :: schedulers[k] == SchedulerObject(k)
    requires forall p :: p in rest <==> Ours(p) && !p.NatObject? && !p.SchedulerObject?
    requires forall p :: p in schedulers <==> p.SchedulerObject?
    requires OnUpTo(s, schedulers, 1) && !Present(t, NatObject)
    requires Kept(s, m, Items(schedulers)) && Undone(o, s, m, c + 4, mid, schedulers, 4)
    requires Kept(m, t, Items(rest)) && Undone(o, m, t, mid, end, rest, |rest|)
    ensures OneLeft(t)
  {
    assert Shown(o, c + 4, 4) && mid == c + 12;
    assert schedulers[0] == SchedulerObject(0) && o.refuses(c + 4 + 2 * 0 + 1);
    assert On(m, SchedulerObject(0)) by { assert SameObject(s, m, schedulers[0]); }
    assert On(t, SchedulerObject(0)) by { assert SameObject(m, t, SchedulerObject(0)); }
    forall p | p in rest ensures Present(m, p) { assert SameObject(s, m, p); }
    assert Shown(o, mid, |rest|);
    forall p | Ours(p) && p != SchedulerObject(0) ensures !Present(t, p) {
      if p.SchedulerObject? {
        var j: nat := p.k;
        assert schedulers[p.k] == p && !o.refuses(c + 4 + 2 * j + 1) && !Present(m, schedulers[j]);
        assert SameObject(m, t, p);
      } else if !p.NatObject? {
        var j :| 0 <= j < |rest| && rest[j] == p;
        assert !o.refuses(mid + 2 * j + 1);
      }
    }
  }

  lemma SetIsThere(h: string -> nat, s: State, desired: seq<string>, created: bool, schedulers: seq<Object>)
    requires Complete(h, s, desired, created) && |schedulers| == 4 && OnUpTo(s, schedulers, 1)
    requires forall k: Slot :: schedulers[k] == SchedulerObject(k)
    ensures AllThere(s)
  {
    forall o | Ours(o) && !o.NatObject? ensures Present(s, o) {
      match o
      case ScriptObject(k) => assert Verified(h, s, Managed(Prod, k), desired[k]) && IsAt(s, o, 0);
      case SchedulerObject(k) => assert schedulers[k] in schedulers;
      case RuleObject(c) => if IsSafety(o) { assert On(s, o); }
    }
  }

  /** All objects in place and switched off, the adaptive state clean. */
  method Assemble(ins: Installer, scripts: seq<Object>, rules: seq<Object>, schedulers: seq<Object>, toInterface: bool)
      returns (ok: bool, undo: bool)
    requires ins.Valid() && Fresh(ins.d.state) && Paused(ins.d.state) && ins.asleep && !ins.created
    requires |scripts| == 4 && (forall k: Slot :: scripts[k] == ScriptObject(k)) && Distinct(scripts + rules)
    requires forall o :: o in rules ==> o.RuleObject? && Ours(o)
    requires Distinct(schedulers) && forall o :: o in schedulers ==> o.SchedulerObject?
    modifies ins`sound, ins`asleep, ins`created, ins.d
    ensures ins.Valid() && Paused(ins.d.state) && ForeignStays(old(ins.d.state), ins.d.state) && ins.sound == old(ins.sound) && ins.asleep
    ensures old(ins.d.clock) <= ins.d.clock && (Idle(old(ins.d.state)) ==> Idle(ins.d.state))
    ensures !undo ==> !Present(ins.d.state, NatObject)
    ensures ok ==> undo == ins.created && (ins.created ==> Present(ins.d.state, NatObject))
    ensures ok ==> AllVerified(ins.d.oracle.digest, ins.d.state, Prod, ins.desired)
    ensures ok ==> forall o :: o in rules + schedulers ==> Present(ins.d.state, o)
    ensures ok && Idle(old(ins.d.state)) ==> Clean(ins.d.state)
    ensures Obliging(ins.d.oracle, old(ins.d.clock)) && Idle(old(ins.d.state)) ==> ok
    ensures !toInterface ==> !undo && !ins.created
    ensures (!toInterface && Idle(old(ins.d.state)) && Clean(old(ins.d.state))
             && Takes(ins.d.oracle, old(ins.d.clock), 2 * |scripts + rules + schedulers| + 4)) ==>
      ok && ins.d.clock == old(ins.d.clock) + 2 * |scripts + rules + schedulers| + 4
  {
    ghost var s0 := ins.d.state;
    ghost var n := 2 * |scripts + rules + schedulers|;
    TakesPart(ins.d.oracle, ins.d.clock, n + 4, ins.d.clock, n);
    LastFour(ins.d.oracle, ins.d.clock, n);
    var texts := ins.desired + seq(|rules|, _ => "");
    assert texts[..4] == ins.desired;
    forall o | o in scripts ensures o.ScriptObject? {
      var k :| 0 <= k < 4 && scripts[k] == o;
      assert scripts[k as Slot] == ScriptObject(k);
    }
    ok, undo := ins.Build(scripts + rules, texts, schedulers, toInterface);
    if ok {
      ghost var s1 := ins.d.state;
      FirstIsMade(ins.d.oracle.digest, s1, scripts, rules, ins.desired, texts);
      ok := ins.ClearBeforeStart();
      ForeignChain(s0, s1, ins.d.state);
    }
  }

  lemma LastFour(o: Oracle, from: nat, n: nat)
    ensures Takes(o, from, n + 4) ==> FourScans(o, from + n)
  {
    if Takes(o, from, n + 4) {
      assert Fair(o, from + n) && Fair(o, from + n + 1) && Fair(o, from + n + 2) && Fair(o, from + n + 3);
    }
  }

  lemma FreshIsPaused(s: State)
    requires Fresh(s)
    ensures Paused(s) && OneOfEach(s)
  {
    forall n | n in s.schedulers ensures !IsProd(n) {
      if IsProd(n) {
        assert Ours(SchedulerObject(n.k));
        assert IsAt(s, SchedulerObject(n.k), 0);
      }
    }
  }

  /** Nothing of ours came or went while it was counted. */
  lemma Counted(s: State, t: State)
    requires Steady(s, t, {})
    ensures forall o :: Ours(o) ==> (Present(s, o) <==> Present(t, o))
  {
    forall o | Ours(o) ensures Present(s, o) <==> Present(t, o) { assert SameObject(s, t, o); }
  }

  /** What the two counts say about the router: all sixteen there, or some of the twenty, or none. */
  datatype Census = Failure | All | Some_ | Nothing

  ghost predicate AllManaged(s: State) { forall o :: Ours(o) && !IsSafety(o) && !o.NatObject? ==> Present(s, o) }

  method TakeCensus(d: Device) returns (census: Census)
    requires d.Valid()
    modifies d
    ensures d.Valid() && old(d.clock) <= d.clock && Steady(old(d.state), d.state, {})
    ensures Held(old(d.trail), d.trail) && d.removals == old(d.removals)
    ensures census.All? ==> AllManaged(d.state)
    ensures census.Some_? ==> !AllManaged(d.state) && !Fresh(d.state)
    ensures census.Nothing? ==> Fresh(d.state)
    ensures AllTaken(d.oracle, old(d.clock), 20) ==> !census.Failure?
    ensures !census.Failure? ==> d.clock == old(d.clock) + 20
  {
    var scripts, safety, mangle, schedulers := Tables();
    var managed, support := scripts + schedulers + mangle, safety + [NatObject];
    AllOurs(scripts, safety, mangle, schedulers);
    ghost var s0 := d.state;
    TakenPart(d.oracle, d.clock, 20, 16);
    var ok, present := CountPresent(d, managed);
    if !ok { return Failure; }
    ghost var s1, v := d.state, d.trail;
    var extra;
    ok, extra := CountPresent(d, support);
    HeldChain(old(d.trail), v, d.trail);
    SteadyChain(s0, s1, d.state, {}, {});
    if !ok { return Failure; }
    Counted(s0, d.state);
    Counted(s1, d.state);
    CountTells(s0, managed);
    CountTells(s1, support);
    census := if present == 16 then All else if present != 0 || extra != 0 then Some_ else Nothing;
  }

  /** The count is extreme exactly when all objects, or none, are there. */
  lemma CountTells(s: State, objects: seq<Object>)
    ensures Count(s, objects, |objects|) == |objects| <==> forall o :: o in objects ==> Present(s, o)
    ensures Count(s, objects, |objects|) == 0 <==> forall o :: o in objects ==> !Present(s, o)
  {
    CountExtremes(s, objects, |objects|);
  }

  lemma AllOurs(scripts: seq<Object>, safety: seq<Object>, mangle: seq<Object>, schedulers: seq<Object>)
    requires |scripts| == 4 && forall k: Slot :: scripts[k] == ScriptObject(k)
    requires |schedulers| == 4 && forall k: Slot :: schedulers[k] == SchedulerObject(k)
    requires (forall o :: o in safety <==> IsSafety(o)) && (forall o :: o in mangle <==> IsMangle(o))
    ensures forall o :: o in scripts + schedulers + mangle <==> Ours(o) && !IsSafety(o) && !o.NatObject?
    ensures forall o :: o in safety + [NatObject] <==> Ours(o) && (IsSafety(o) || o.NatObject?)
  {
    forall o ensures o in scripts <==> o.ScriptObject? {
      if o.ScriptObject? { assert scripts[o.k] == o; }
      if o in scripts {
        var k :| 0 <= k < 4 && scripts[k] == o;
        assert scripts[k as Slot] == ScriptObject(k);
      }
    }
    forall o ensures o in schedulers <==> o.SchedulerObject? {
      if o.SchedulerObject? { assert schedulers[o.k] == o; }
      if o in schedulers {
        var k :| 0 <= k < 4 && schedulers[k] == o;
        assert schedulers[k as Slot] == SchedulerObject(k);
      }
    }
  }

  /** A fresh installation is done on a router with nothing of ours on it, and only there. */
  method InstallRun(d: Device, desired: seq<string>, valid: bool, toInterface: bool)
      returns (exit: InstallExit, created: bool, ghost ready: nat, ghost undo: nat, ghost mid: nat)
    requires d.Valid() && |desired| == 4
    modifies d
    ensures d.Valid() && ForeignStays(old(d.state), d.state) && OnlyAdaptive(old(d.removals), d.removals)
    ensures exit in {Uninspected, Existing, Partial, Invalid} ==> Steady(old(d.state), d.state, {})
    ensures exit.Existing? ==> AllManaged(old(d.state))
    ensures exit.Partial? ==> !AllManaged(old(d.state)) && !Fresh(old(d.state))
    ensures exit in {Invalid, Failed, Installed} ==> Fresh(old(d.state))
    ensures InstallOutcome(d, |old(d.trail)| - 1, desired, Idle(old(d.state)), exit, created, ready, undo, mid)
    ensures Obliging(d.oracle, old(d.clock)) && Idle(old(d.state)) && Fresh(old(d.state)) && valid ==> exit.Installed?
    ensures (Fresh(old(d.state)) && Idle(old(d.state)) && Clean(old(d.state)) && valid && !toInterface
             && FailsAfter(d.oracle, old(d.clock), 84)) ==> exit.Failed? && OneLeft(d.state)
  {
    created := false;
    FailsLater(d.oracle, d.clock);
    ObligingTakes(d.oracle, d.clock, d.clock + 20, 0);
    ghost var from := |d.trail| - 1;
    var census := TakeCensus(d);
    ready, undo, mid := d.clock, d.clock, d.clock;
    ghost var s := d.state;
    Counted(old(d.state), s);
    if census.Failure? { return Uninspected, created, ready, undo, mid; }
    assert AllManaged(old(d.state)) ==> Present(old(d.state), ScriptObject(0));
    if census.All? { return Existing, created, ready, undo, mid; }
    if census.Some_? { return Partial, created, ready, undo, mid; }
    if !valid { return Invalid, created, ready, undo, mid; }
    FreshIsPaused(old(d.state));
    assert d.trail[from] == old(d.state);
    exit, created, ready, undo, mid := InstallFresh(d, desired, toInterface, from);
    ForeignChain(old(d.state), s, d.state);
  }

  /** Half-on after all: enabling the second scheduler is refused, the undo begins, and the removal of the first, which
      runs already, is refused as well. The undo goes on, and in the end this scheduler is all that is left. */
  method HalfOn(d: Device, desired: seq<string>) returns (exit: InstallExit, created: bool)
    requires d.Valid() && |desired| == 4 && Fresh(d.state) && Idle(d.state) && Clean(d.state)
    requires FailsAfter(d.oracle, d.clock, 84)
    modifies d
    ensures d.Valid() && exit.Failed? && OneLeft(d.state)
    ensures !AllSound(d.oracle.digest, d.trail, |old(d.trail)| - 1, desired, created)
  {
    ghost var from := |d.trail| - 1;
    ghost var ready, undo, mid;
    exit, created, ready, undo, mid := InstallRun(d, desired, true, false);
    OneLeftIsHalfOn(d, from, desired, created);
  }

  lemma OneLeftIsHalfOn(d: Device, from: nat, desired: seq<string>, created: bool)
    requires d.Valid() && OneLeft(d.state) && from < |d.trail|
    ensures !AllSound(d.oracle.digest, d.trail, from, desired, created)
  {
    assert !Present(d.state, RuleObject(RouteOk)) && On(d.state, SchedulerObject(0)) && IsAt(d.state, SchedulerObject(0), 0);
    LastIsSound(d, from, desired, created);
  }

  /** Such a run, on an empty router on which nothing else happens. */
  method HalfOnExample() returns (d: Device, exit: InstallExit, created: bool)
    ensures fresh(d) && d.Valid() && exit.Failed? && OneLeft(d.state)
    ensures !AllSound(d.oracle.digest, d.trail, 0, ["a", "b", "c", "d"], created)
  {
    var oracle := Oracle(Calm, n => n == 87 || n == 89, (n, k) => {}, n => false, (n, text) => Script(text, false), text => 0);
    CalmIsLawful(oracle);
    d := new Device(oracle, State(map[], map[], {}, map[], map[], map[], map[], 0));
    exit, created := HalfOn(d, ["a", "b", "c", "d"]);
  }
}
