/** Staging: inert copies of the desired sources, all four read back or none left; and what promoting stage after stage
    leaves behind. */
module Staging {
  import opened Router
  import opened Promote

  /** Every lookup from command `from` to command `to` showed what was there. */
  ghost predicate Truthful(o: Oracle, from: nat, to: nat) { forall n :: from <= n < to ==> !o.misses(n) }

  ghost predicate OnlyStage(s: State, t: State) { SameOutside(s, t, OfRole(Stage)) && Undisturbed(s, t) }

  /** Looks, removes and looks again, five times at most. */
  method RemoveNameExact(d: Device, k: Slot) returns (ok: bool)
    requires d.Valid()
    modifies d
    ensures d.Valid() && d.writes == old(d.writes) && old(d.clock) < d.clock
    ensures SameOutside(old(d.state), d.state, iset{Managed(Stage, k)}) && Undisturbed(old(d.state), d.state)
    ensures ok && Truthful(d.oracle, old(d.clock), d.clock) ==> Managed(Stage, k) !in d.state.scripts
    ensures Obliging(d.oracle, old(d.clock)) ==> ok
  {
    for attempt := 0 to 5
      invariant d.Valid() && d.writes == old(d.writes) && old(d.clock) + attempt <= d.clock
      invariant SameOutside(old(d.state), d.state, iset{Managed(Stage, k)}) && Undisturbed(old(d.state), d.state)
      invariant Obliging(d.oracle, old(d.clock)) ==> attempt == 0
    {
      ok := TryRemove(d, Managed(Stage, k));
      if ok { return; }
    }
    ok := false;
  }

  method TryRemove(d: Device, n: Name) returns (ok: bool)
    requires d.Valid() && !IsProd(n)
    modifies d
    ensures d.Valid() && d.writes == old(d.writes) && old(d.clock) < d.clock
    ensures SameOutside(old(d.state), d.state, iset{n}) && Undisturbed(old(d.state), d.state)
    ensures ok && !d.oracle.misses(d.clock - 1) ==> n !in d.state.scripts
    ensures Obliging(d.oracle, old(d.clock)) ==> ok
  {
    ghost var s := d.state;
    var taken, found := d.LookupScript(n);
    ElapseUndisturbed(s, d.state);
    if !taken { return false; }
    if found.None? { return true; }
    ok := RemoveAndLook(d, n);
  }

  method RemoveAndLook(d: Device, n: Name) returns (ok: bool)
    requires d.Valid() && !IsProd(n)
    modifies d
    ensures d.Valid() && d.writes == old(d.writes) && old(d.clock) < d.clock
    ensures SameOutside(old(d.state), d.state, iset{n}) && Undisturbed(old(d.state), d.state)
    ensures ok && !d.oracle.misses(d.clock - 1) ==> n !in d.state.scripts
    ensures Obliging(d.oracle, old(d.clock)) ==> ok
  {
    ghost var s := d.state;
    var taken := d.RemoveScript(n);
    ElapseUndisturbed(s, d.seen);
    if !taken { return false; }
    s := d.state;
    var found;
    taken, found := d.LookupScript(n);
    ElapseUndisturbed(s, d.state);
    ok := taken && found.None?;
  }

  /** Removes the four stage names, counting failures; `stop` gives up at the first one. */
  method RemoveAll(d: Device, stop: bool) returns (ok: bool)
    requires d.Valid()
    modifies d
    ensures d.Valid() && d.writes == old(d.writes) && old(d.clock) <= d.clock && OnlyStage(old(d.state), d.state)
    ensures ok && Truthful(d.oracle, old(d.clock), d.clock) ==> forall k: Slot :: Managed(Stage, k) !in d.state.scripts
    ensures Obliging(d.oracle, old(d.clock)) ==> ok
  {
    ok := true;
    for k := 0 to 4
      invariant d.Valid() && d.writes == old(d.writes) && old(d.clock) <= d.clock && OnlyStage(old(d.state), d.state)
      invariant ok && Truthful(d.oracle, old(d.clock), d.clock) ==>
        forall i: Slot :: i < k ==> Managed(Stage, i) !in d.state.scripts
      invariant Obliging(d.oracle, old(d.clock)) ==> ok
    {
      var gone := RemoveNameExact(d, k);
      ok := ok && gone;
      if !gone && stop { return; }
    }
  }

  /** Adds the four copies and reads each back, stopping at the first failure. */
  method AddAll(d: Device, desired: seq<string>) returns (ok: bool)
    requires d.Valid() && |desired| == 4
    modifies d
    ensures d.Valid() && d.writes == old(d.writes) && old(d.clock) <= d.clock && OnlyStage(old(d.state), d.state)
    ensures ok ==> AllVerified(d.oracle.digest, d.state, Stage, desired)
    ensures Obliging(d.oracle, old(d.clock)) && (forall k: Slot :: Managed(Stage, k) !in old(d.state).scripts) ==> ok
  {
    for k := 0 to 4
      invariant d.Valid() && d.writes == old(d.writes) && old(d.clock) <= d.clock && OnlyStage(old(d.state), d.state)
      invariant forall i: Slot :: i < k ==> Verified(d.oracle.digest, d.state, Managed(Stage, i), desired[i])
      invariant forall i: Slot :: k <= i && Managed(Stage, i) !in old(d.state).scripts ==> Managed(Stage, i) !in d.state.scripts
    {
      ok := AddOne(d, Managed(Stage, k), desired[k]);
      if !ok { return; }
    }
    ok := true;
  }

  datatype StageExit = Staged | PrecleanFailed | Undone | Unknown

  /** All four staged and read back, or, if the router said yes to the removals, none left. */
  method StageRun(d: Device, desired: seq<string>) returns (exit: StageExit)
    requires d.Valid() && |desired| == 4
    modifies d
    ensures d.Valid() && d.writes == old(d.writes) && old(d.clock) <= d.clock && OnlyStage(old(d.state), d.state)
    ensures exit.Staged? ==> AllVerified(d.oracle.digest, d.state, Stage, desired)
    ensures exit.Undone? && Truthful(d.oracle, old(d.clock), d.clock) ==>
      forall k: Slot :: Managed(Stage, k) !in d.state.scripts
    ensures Obliging(d.oracle, old(d.clock)) ==> exit.Staged?
  {
    var ok := RemoveAll(d, true);
    if !ok { return PrecleanFailed; }
    ok := AddAll(d, desired);
    if ok { return Staged; }
    ok := RemoveAll(d, false);
    exit := if ok then Undone else Unknown;
  }

  /** One update: stage, then promote. */
  method Deploy(d: Device, bundle: seq<string>) returns (ok: bool)
    requires d.Valid() && |bundle| == 4
    modifies d
    ensures d.Valid() && Careful(old(d.writes), d.writes)
    ensures ok ==> AllVerified(d.oracle.digest, d.state, Prod, bundle)
    ensures ok ==> HasScripts(old(d.state)) && AllVerified(d.oracle.digest, d.state, Backup, Sources(old(d.state), Prod))
  {
    var staged := StageRun(d, bundle);
    if !staged.Staged? { return false; }
    ghost var s := d.state;
    ghost var resume;
    var exit;
    exit, resume := PromoteRun(d, bundle);
    ok := exit.Promoted?;
    if ok { SameProduction(old(d.state), s); }
  }

  lemma SameProduction(s: State, t: State)
    requires SameOutside(s, t, OfRole(Stage)) && HasScripts(t)
    ensures HasScripts(s) && Sources(s, Prod) == Sources(t, Prod)
  {
    forall k: Slot ensures Managed(Prod, k) in s.scripts && s.scripts[Managed(Prod, k)] == t.scripts[Managed(Prod, k)] {
      assert Managed(Prod, k) !in OfRole(Stage);
    }
  }

  /** Updates one after the other, as long as they work: the backups are always of what was there just before
      the last one. */
  method DeployAll(d: Device, bundles: seq<seq<string>>) returns (done: nat)
    requires d.Valid() && forall i :: 0 <= i < |bundles| ==> |bundles[i]| == 4
    modifies d
    ensures d.Valid() && Careful(old(d.writes), d.writes) && done <= |bundles|
    ensures done == |bundles| > 0 ==> AllVerified(d.oracle.digest, d.state, Prod, bundles[done - 1])
    ensures done == |bundles| > 1 ==> AllVerified(d.oracle.digest, d.state, Backup, bundles[done - 2])
    ensures done == |bundles| == 1 ==>
      HasScripts(old(d.state)) && AllVerified(d.oracle.digest, d.state, Backup, Sources(old(d.state), Prod))
  {
    done := 0;
    while done < |bundles|
      invariant d.Valid() && Careful(old(d.writes), d.writes) && done <= |bundles|
      invariant done > 0 ==> AllVerified(d.oracle.digest, d.state, Prod, bundles[done - 1])
      invariant done > 1 ==> AllVerified(d.oracle.digest, d.state, Backup, bundles[done - 2])
      invariant done == 0 ==> d.state == old(d.state)
      invariant done == 1 ==>
        HasScripts(old(d.state)) && AllVerified(d.oracle.digest, d.state, Backup, Sources(old(d.state), Prod))
    {
      ghost var s, log := d.state, d.writes;
      var ok := Deploy(d, bundles[done]);
      CarefulChain(old(d.writes), log, d.writes);
      if !ok { return; }
      if done > 0 { BackupOf(d.oracle.digest, s, d.state, bundles[done - 1]); }
      done := done + 1;
    }
  }

  /** A backup of something that reads back as `texts` reads back as `texts`. */
  lemma BackupOf(h: string -> nat, s: State, t: State, texts: seq<string>)
    requires HasScripts(s) && AllVerified(h, s, Prod, texts) && AllVerified(h, t, Backup, Sources(s, Prod))
    ensures AllVerified(h, t, Backup, texts)
  {
    forall k: Slot ensures Verified(h, t, Managed(Backup, k), texts[k]) {
      assert Verified(h, s, Managed(Prod, k), texts[k]) && Verified(h, t, Managed(Backup, k), Sources(s, Prod)[k]);
    }
  }
}
