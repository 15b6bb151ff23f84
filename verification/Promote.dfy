/** Promotion of staged sources into production and the way back: a transaction on a live router, with read-back,
    undo, and a fail-open exit. */
module Promote {
  import opened RuleOrder
  import opened Router
  import opened Cleanup

  /** Equal as far as length and fingerprint tell. */
  predicate Same(h: string -> nat, a: string, b: string) { |a| == |b| && h(a) == h(b) }

  predicate Reads(h: string -> nat, x: Script, text: string) { !x.invalid && Same(h, x.source, text) }

  /** The script exists and reads back as `text`. */
  predicate Verified(h: string -> nat, s: State, n: Name, text: string) { n in s.scripts && Reads(h, s.scripts[n], text) }

  predicate AllVerified(h: string -> nat, s: State, role: Role, texts: seq<string>) {
    |texts| == 4 && forall k: Slot :: Verified(h, s, Managed(role, k), texts[k])
  }

  predicate Starts(s: State, n: Name) { n in s.scripts && n in s.schedulers && s.schedulers[n].onEvent == n }

  /** The four production scripts, their schedulers, and each scheduler started by its own name. */
  predicate Installed(s: State) {
    forall k: Slot :: Starts(s, Managed(Prod, k))
  }

  predicate AreSources(s: State, role: Role, texts: seq<string>) {
    |texts| == 4 && forall k: Slot :: Managed(role, k) in s.scripts && s.scripts[Managed(role, k)].source == texts[k]
  }

  predicate AreFlags(s: State, flags: seq<bool>) {
    |flags| == 4 && forall k: Slot :: Managed(Prod, k) in s.schedulers && s.schedulers[Managed(Prod, k)].disabled == flags[k]
  }

  /** Scripts of other names than these are the same in both states. */
  ghost predicate SameOutside(s: State, t: State, names: iset<Name>) {
    forall n :: n !in names ==> (n in s.scripts <==> n in t.scripts) && (n in s.scripts ==> t.scripts[n] == s.scripts[n])
  }

  ghost function OfRole(role: Role): iset<Name> { iset n: Name | n.Managed? && n.role == role }

  /** No scheduler was touched, and a resting router stayed at rest, clean if it was clean and disabled if disabled. */
  ghost predicate Undisturbed(s: State, t: State) {
    && t.schedulers == s.schedulers
    && (Quiet(s) ==> Quiet(t) && (Clean(s) ==> Clean(t)) && (AllAutoDisabled(s) ==> AllAutoDisabled(t)))
  }

  lemma ElapseUndisturbed(s: State, t: State)
    requires WellFormed(s) && Elapse(s, t)
    ensures Undisturbed(s, t)
  {
    if Quiet(s) && Clean(s) { CleanStays(s, t); }
  }

  /** Nothing is refused or missed, prints are up to date, and what is written is what is kept. */
  ghost predicate Obliging(o: Oracle, from: nat) {
    && Cooperative(o, from) && (forall n :: from <= n ==> !o.misses(n))
    && (forall n, text :: from <= n ==> o.keeps(n, text) == Script(text, false))
  }

  /** Command `j` is taken, shows what is there and keeps what it writes. */
  ghost predicate Fair(o: Oracle, j: nat) {
    && !o.refuses(j) && !o.misses(j)
    && (forall k :: o.gone(j, k) == {}) && forall text :: o.keeps(j, text) == Script(text, false)
  }

  /** So are the `n` commands from number `from` on. */
  ghost predicate Takes(o: Oracle, from: nat, n: nat) { forall j :: from <= j < from + n ==> Fair(o, j) }

  lemma ObligingTakes(o: Oracle, from: nat, at: nat, n: nat)
    requires from <= at
    ensures Obliging(o, from) ==> Obliging(o, at) && Takes(o, at, n)
  {}

  lemma TakesPart(o: Oracle, from: nat, n: nat, at: nat, m: nat)
    requires from <= at && at + m <= from + n
    ensures Takes(o, from, n) ==> Takes(o, at, m)
  {}

  // ---- read-back ----------------------------------------------------------------------------------------------

  method LookupRetry(d: Device, n: Name) returns (found: Option<Script>)
    requires d.Valid()
    modifies d
    ensures d.Valid() && d.writes == old(d.writes) && old(d.clock) < d.clock && old(d.trail) <= d.trail
    ensures d.state.scripts == old(d.state.scripts) && Undisturbed(old(d.state), d.state)
    ensures found.Some? ==> n in d.state.scripts && found.value == d.state.scripts[n]
    ensures !d.oracle.refuses(old(d.clock)) && !d.oracle.misses(old(d.clock)) && n in d.state.scripts ==>
      d.clock == old(d.clock) + 1 && found.Some?
    ensures Obliging(d.oracle, old(d.clock)) && n in d.state.scripts ==> found.Some?
  {
    for i := 0 to 15
      invariant d.Valid() && d.writes == old(d.writes) && d.clock == old(d.clock) + i && old(d.trail) <= d.trail
      invariant d.state.scripts == old(d.state.scripts) && Undisturbed(old(d.state), d.state)
      invariant i > 0 ==> d.oracle.refuses(old(d.clock)) || d.oracle.misses(old(d.clock)) || n !in d.state.scripts
      invariant i > 0 ==> !(Obliging(d.oracle, old(d.clock)) && n in d.state.scripts)
    {
      ghost var s := d.state;
      var taken;
      taken, found := d.LookupScript(n);
      ElapseUndisturbed(s, d.state);
      if taken && found.Some? { return; }
    }
    found := None;
  }

  method VerifySource(d: Device, n: Name, text: string) returns (ok: bool)
    requires d.Valid()
    modifies d
    ensures d.Valid() && d.writes == old(d.writes) && old(d.clock) < d.clock && old(d.trail) <= d.trail
    ensures d.state.scripts == old(d.state.scripts) && Undisturbed(old(d.state), d.state)
    ensures ok ==> Verified(d.oracle.digest, d.state, n, text)
    ensures !d.oracle.refuses(old(d.clock)) && !d.oracle.misses(old(d.clock)) && n in d.state.scripts ==>
      d.clock == old(d.clock) + 1 && (ok <==> Reads(d.oracle.digest, d.state.scripts[n], text))
    ensures Obliging(d.oracle, old(d.clock)) && Verified(d.oracle.digest, d.state, n, text) ==> ok
  {
    var found := LookupRetry(d, n);
    ok := found.Some? && Reads(d.oracle.digest, found.value, text);
  }

  /** The gate: every staged script is the desired one. */
  method VerifyStage(d: Device, desired: seq<string>) returns (ok: bool)
    requires d.Valid() && |desired| == 4
    modifies d
    ensures d.Valid() && d.writes == old(d.writes) && old(d.clock) <= d.clock
    ensures d.state.scripts == old(d.state.scripts) && Undisturbed(old(d.state), d.state)
    ensures ok ==> AllVerified(d.oracle.digest, d.state, Stage, desired)
    ensures Obliging(d.oracle, old(d.clock)) && AllVerified(d.oracle.digest, d.state, Stage, desired) ==> ok
  {
    for k := 0 to 4
      invariant d.Valid() && d.writes == old(d.writes) && old(d.clock) <= d.clock
      invariant d.state.scripts == old(d.state.scripts) && Undisturbed(old(d.state), d.state)
      invariant forall i: Slot :: i < k ==> Verified(d.oracle.digest, d.state, Managed(Stage, i), desired[i])
    {
      ok := VerifySource(d, Managed(Stage, k), desired[k]);
      if !ok { return; }
    }
    ok := true;
  }

  /** One production script with its scheduler. */
  method ReadOne(d: Device, n: Name) returns (ok: bool, text: string, flag: bool)
    requires d.Valid()
    modifies d
    ensures d.Valid() && d.writes == old(d.writes) && old(d.clock) <= d.clock
    ensures d.state.scripts == old(d.state.scripts) && Undisturbed(old(d.state), d.state)
    ensures ok ==> Starts(d.state, n) && text == d.state.scripts[n].source && flag == d.state.schedulers[n].disabled
    ensures Obliging(d.oracle, old(d.clock)) && Starts(d.state, n) ==> ok
  {
    text, flag := "", false;
    ghost var s := d.state;
    var taken, script := d.LookupScript(n);
    ElapseUndisturbed(s, d.state);
    if !taken || script.None? { return false, text, flag; }
    s := d.state;
    var scheduler;
    taken, scheduler := d.LookupScheduler(n);
    ElapseUndisturbed(s, d.state);
    if !taken || scheduler.None? || scheduler.value.onEvent != n { return false, text, flag; }
    ok, text, flag := true, script.value.source, scheduler.value.disabled;
  }

  /** Reads what is in production, scripts and schedulers alike. */
  method ReadProduction(d: Device) returns (ok: bool, prod: seq<string>, flags: seq<bool>)
    requires d.Valid()
    modifies d
    ensures d.Valid() && d.writes == old(d.writes) && old(d.clock) <= d.clock
    ensures d.state.scripts == old(d.state.scripts) && Undisturbed(old(d.state), d.state)
    ensures ok ==> Installed(d.state) && AreSources(d.state, Prod, prod) && AreFlags(d.state, flags)
    ensures Obliging(d.oracle, old(d.clock)) && Installed(d.state) ==> ok
  {
    prod, flags := [], [];
    for k := 0 to 4
      invariant d.Valid() && d.writes == old(d.writes) && old(d.clock) <= d.clock && |prod| == |flags| == k
      invariant d.state.scripts == old(d.state.scripts) && Undisturbed(old(d.state), d.state)
      invariant forall i: Slot :: i < k ==>
        var n := Managed(Prod, i);
        && Starts(d.state, n)
        && prod[i] == d.state.scripts[n].source && flags[i] == d.state.schedulers[n].disabled
    {
      var text, flag;
      ok, text, flag := ReadOne(d, Managed(Prod, k));
      if !ok { return; }
      prod, flags := prod + [text], flags + [flag];
    }
    ok := true;
  }

  // ---- backups --------------------------------------------------------------------------------------------------

  /** Adds an inert script and reads it back. */
  method AddOne(d: Device, n: Name, text: string) returns (ok: bool)
    requires d.Valid() && !IsProd(n)
    modifies d
    ensures d.Valid() && d.writes == old(d.writes) && old(d.clock) < d.clock
    ensures SameOutside(old(d.state), d.state, iset{n}) && Undisturbed(old(d.state), d.state)
    ensures ok ==> Verified(d.oracle.digest, d.state, n, text)
    ensures Obliging(d.oracle, old(d.clock)) && n !in old(d.state).scripts ==> ok
  {
    ghost var s := d.state;
    ok := d.AddScript(n, text);
    ElapseUndisturbed(s, d.seen);
    if ok { ok := VerifySource(d, n, text); }
  }

  /** Replaces one inert script: remove, add, read back. */
  method Replace(d: Device, n: Name, text: string) returns (ok: bool)
    requires d.Valid() && !IsProd(n)
    modifies d
    ensures d.Valid() && d.writes == old(d.writes) && old(d.clock) <= d.clock
    ensures SameOutside(old(d.state), d.state, iset{n}) && Undisturbed(old(d.state), d.state)
    ensures ok ==> Verified(d.oracle.digest, d.state, n, text)
    ensures Obliging(d.oracle, old(d.clock)) ==> ok
  {
    ok := RemoveIfThere(d, n);
    if ok { ok := AddOne(d, n, text); }
  }

  method RemoveIfThere(d: Device, n: Name) returns (ok: bool)
    requires d.Valid() && !IsProd(n)
    modifies d
    ensures d.Valid() && d.writes == old(d.writes) && old(d.clock) <= d.clock && old(d.trail) <= d.trail
    ensures SameOutside(old(d.state), d.state, iset{n}) && Undisturbed(old(d.state), d.state)
    ensures Obliging(d.oracle, old(d.clock)) ==> ok && n !in d.state.scripts
  {
    ghost var s := d.state;
    var found;
    ok, found := d.LookupScript(n);
    ElapseUndisturbed(s, d.state);
    if !ok || found.None? { return; }
    s := d.state;
    ok := d.RemoveScript(n);
    ElapseUndisturbed(s, d.seen);
  }

  /** One backup after the other; a failure may leave some of them replaced and one missing. */
  method CreateBackups(d: Device, prod: seq<string>) returns (ok: bool)
    requires d.Valid() && |prod| == 4
    modifies d
    ensures d.Valid() && d.writes == old(d.writes) && old(d.clock) <= d.clock
    ensures SameOutside(old(d.state), d.state, OfRole(Backup)) && Undisturbed(old(d.state), d.state)
    ensures ok ==> AllVerified(d.oracle.digest, d.state, Backup, prod)
    ensures Obliging(d.oracle, old(d.clock)) ==> ok
  {
    for k := 0 to 4
      invariant d.Valid() && d.writes == old(d.writes) && old(d.clock) <= d.clock
      invariant SameOutside(old(d.state), d.state, OfRole(Backup)) && Undisturbed(old(d.state), d.state)
      invariant forall i: Slot :: i < k ==> Verified(d.oracle.digest, d.state, Managed(Backup, i), prod[i])
    {
      ok := Replace(d, Managed(Backup, k), prod[k]);
      if !ok { return; }
    }
    ok := true;
  }

  // ---- schedulers and jobs ------------------------------------------------------------------------------------------

  /** Only the flags of the four schedulers may differ. */
  predicate SameSchedulers(s: State, t: State) {
    && t.schedulers.Keys == s.schedulers.Keys
    && forall n :: n in s.schedulers ==>
         (IsProd(n) && t.schedulers[n].onEvent == s.schedulers[n].onEvent) || t.schedulers[n] == s.schedulers[n]
  }

  predicate HasSchedulers(s: State) { forall k: Slot :: Managed(Prod, k) in s.schedulers }

  /** Disables the four schedulers, giving up at the first refusal. */
  method Pause(d: Device) returns (ok: bool)
    requires d.Valid() && HasSchedulers(d.state)
    modifies d
    ensures d.Valid() && d.writes == old(d.writes) && old(d.clock) <= d.clock
    ensures d.state.scripts == old(d.state.scripts) && SameSchedulers(old(d.state), d.state)
    ensures ok ==> Paused(d.state)
    ensures Quiet(old(d.state)) ==> Quiet(d.state)
    ensures Obliging(d.oracle, old(d.clock)) ==> ok
  {
    for k := 0 to 4
      invariant d.Valid() && d.writes == old(d.writes) && old(d.clock) <= d.clock
      invariant d.state.scripts == old(d.state.scripts) && SameSchedulers(old(d.state), d.state)
      invariant forall i: Slot :: i < k ==> d.state.schedulers[Managed(Prod, i)].disabled
      invariant Quiet(old(d.state)) ==> Quiet(d.state)
    {
      ok := d.SetDisabled(Managed(Prod, k), true);
      if !ok { return; }
    }
    ok := true;
  }

  /** Polls the running jobs, fifty times at most. */
  method WaitJobsIdle(d: Device) returns (ok: bool)
    requires d.Valid()
    modifies d
    ensures d.Valid() && d.writes == old(d.writes) && old(d.clock) <= d.clock
    ensures d.state.scripts == old(d.state.scripts) && Undisturbed(old(d.state), d.state)
    ensures ok ==> Idle(d.state)
    ensures Obliging(d.oracle, old(d.clock)) && Quiet(old(d.state)) ==> ok
  {
    for i := 0 to 50
      invariant d.Valid() && d.writes == old(d.writes) && old(d.clock) <= d.clock
      invariant d.state.scripts == old(d.state.scripts) && Undisturbed(old(d.state), d.state)
      invariant Obliging(d.oracle, old(d.clock)) && Quiet(old(d.state)) ==> i == 0
    {
      ghost var s := d.state;
      var taken, busy := d.ShowsManagedJob();
      ElapseUndisturbed(s, d.state);
      if !taken { return false; }
      if !busy { return true; }
    }
    ok := false;
  }

  /** Puts the flags back; what a command answers is ignored. */
  method RestoreSchedulers(d: Device, flags: seq<bool>)
    requires d.Valid() && HasSchedulers(d.state) && |flags| == 4
    modifies d
    ensures d.Valid() && d.writes == old(d.writes) && d.clock == old(d.clock) + 4 && old(d.trail) <= d.trail
    ensures d.state.scripts == old(d.state.scripts) && SameSchedulers(old(d.state), d.state)
    ensures FourTaken(d.oracle, old(d.clock)) ==> AreFlags(d.state, flags)
  {
    for k := 0 to 4
      invariant d.Valid() && d.writes == old(d.writes) && d.clock == old(d.clock) + k && old(d.trail) <= d.trail
      invariant d.state.scripts == old(d.state.scripts) && SameSchedulers(old(d.state), d.state)
      invariant FourTaken(d.oracle, old(d.clock)) ==>
        forall i: Slot :: i < k ==> d.state.schedulers[Managed(Prod, i)].disabled == flags[i]
    {
      var taken := d.SetDisabled(Managed(Prod, k), flags[k]);
    }
  }

  /** The router takes the four commands from number `n` on. */
  ghost predicate FourTaken(o: Oracle, n: nat) { forall i :: n <= i < n + 4 ==> !o.refuses(i) }

  // ---- production writes ---------------------------------------------------------------------------------------------

  /** The log grew, and every write to a production script since then met a router at rest. */
  predicate Careful(before: seq<Write>, after: seq<Write>) {
    && |before| <= |after| && after[..|before|] == before
    && forall i :: |before| <= i < |after| ==> after[i].quiet
  }

  lemma CarefulChain(a: seq<Write>, b: seq<Write>, c: seq<Write>)
    requires Careful(a, b) && Careful(b, c)
    ensures Careful(a, c)
  {
    assert c[..|a|] == c[..|b|][..|a|];
    forall i | |a| <= i < |c| ensures c[i].quiet {
      if i < |b| { assert c[i] == c[..|b|][i]; }
    }
  }

  /** What a write command leaves in a script: the text as the router keeps it or, refused, what was there before. */
  function Written(o: Oracle, at: nat, text: string, before: Script): Script {
    if o.refuses(at) then before else o.keeps(at, text)
  }

  /** The write at command `at` is taken, and the read-back that follows finds the text at once. */
  predicate Smooth(o: Oracle, at: nat, text: string) {
    !o.refuses(at) && !o.refuses(at + 1) && !o.misses(at + 1) && Reads(o.digest, o.keeps(at, text), text)
  }

  /** From `s` to `t` the first `n` production scripts were written, as recorded from entry `from` of the log on, and
      hold what those writes left; the others are as they were. */
  predicate WroteFirst(o: Oracle, s: State, t: State, log: seq<Write>, from: nat, n: nat, texts: seq<string>) {
    && n <= 4 == |texts| && |log| == from + n && HasScripts(s) && HasScripts(t)
    && (forall k: Slot :: k < n ==> log[from + k].name == Managed(Prod, k))
    && forall k: Slot :: t.scripts[Managed(Prod, k)] ==
         if k < n then Written(o, log[from + k].at, texts[k], s.scripts[Managed(Prod, k)]) else s.scripts[Managed(Prod, k)]
  }

  lemma WroteNext(o: Oracle, s: State, t: State, u: State, log: seq<Write>, from: nat, n: Slot, texts: seq<string>, w: Write)
    requires WroteFirst(o, s, t, log, from, n, texts) && w.name == Managed(Prod, n) && SameOutside(t, u, iset{w.name})
    requires w.name in u.scripts && u.scripts[w.name] == Written(o, w.at, texts[n], t.scripts[w.name])
    ensures WroteFirst(o, s, u, log + [w], from, n + 1, texts)
  {
    forall k: Slot ensures Managed(Prod, k) in u.scripts && (k != n ==> u.scripts[Managed(Prod, k)] == t.scripts[Managed(Prod, k)]) {
      if k != n { assert Managed(Prod, k) !in iset{w.name}; }
    }
  }

  /** Writes one production source and reads it back. */
  method WriteSource(d: Device, n: Name, text: string) returns (ok: bool)
    requires d.Valid() && IsProd(n) && n in d.state.scripts && Quiet(d.state)
    modifies d
    ensures d.Valid() && old(d.clock) < d.clock && n in d.state.scripts && old(d.trail) <= d.trail
    ensures SameOutside(old(d.state), d.state, iset{n}) && Undisturbed(old(d.state), d.state)
    ensures d.writes == old(d.writes) + [Write(n, true, old(d.clock))]
    ensures d.state.scripts[n] == Written(d.oracle, old(d.clock), text, old(d.state).scripts[n])
    ensures ok ==> Verified(d.oracle.digest, d.state, n, text)
    ensures d.oracle.refuses(old(d.clock)) ==> !ok && d.clock == old(d.clock) + 1
    ensures Smooth(d.oracle, old(d.clock), text) ==> ok && d.clock == old(d.clock) + 2
    ensures Obliging(d.oracle, old(d.clock)) ==> ok
  {
    ghost var s := d.state;
    ok := d.SetSource(n, text);
    ElapseUndisturbed(s, d.seen);
    if !ok { return; }
    ok := VerifySource(d, n, text);
  }

  predicate HasScripts(s: State) { forall k: Slot :: Managed(Prod, k) in s.scripts }

  /** Puts all four sources back, going on after a failure. */
  method RestoreSources(d: Device, prod: seq<string>) returns (ok: bool)
    requires d.Valid() && |prod| == 4 && Quiet(d.state) && HasScripts(d.state)
    modifies d
    ensures d.Valid() && old(d.clock) < d.clock && HasScripts(d.state) && old(d.trail) <= d.trail
    ensures SameOutside(old(d.state), d.state, OfRole(Prod)) && Undisturbed(old(d.state), d.state)
    ensures Careful(old(d.writes), d.writes)
    ensures WroteFirst(d.oracle, old(d.state), d.state, d.writes, |old(d.writes)|, 4, prod)
    ensures d.writes[|old(d.writes)|].at == old(d.clock)
    ensures forall i :: |old(d.writes)| < i < |d.writes| ==> old(d.clock) < d.writes[i].at
    ensures ok ==> AllVerified(d.oracle.digest, d.state, Prod, prod)
    ensures Obliging(d.oracle, old(d.clock)) ==> ok
  {
    ok := true;
    for k := 0 to 4
      invariant d.Valid() && old(d.clock) <= d.clock && HasScripts(d.state) && old(d.trail) <= d.trail
      invariant SameOutside(old(d.state), d.state, OfRole(Prod)) && Undisturbed(old(d.state), d.state)
      invariant Careful(old(d.writes), d.writes) && (k == 0 ==> d.clock == old(d.clock))
      invariant WroteFirst(d.oracle, old(d.state), d.state, d.writes, |old(d.writes)|, k, prod)
      invariant k > 0 ==> d.writes[|old(d.writes)|].at == old(d.clock) < d.clock
      invariant forall i :: |old(d.writes)| < i < |d.writes| ==> old(d.clock) < d.writes[i].at
      invariant ok ==> forall i: Slot :: i < k ==> Verified(d.oracle.digest, d.state, Managed(Prod, i), prod[i])
      invariant Obliging(d.oracle, old(d.clock)) ==> ok
    {
      ghost var s, log, at := d.state, d.writes, d.clock;
      var done := WriteSource(d, Managed(Prod, k), prod[k]);
      CarefulChain(old(d.writes), log, d.writes);
      WroteNext(d.oracle, old(d.state), s, d.state, log, |old(d.writes)|, k, prod, Write(Managed(Prod, k), true, at));
      ok := ok && done;
    }
  }

  /** The first `n` writes and their read-backs all go through. */
  predicate SmoothUpTo(o: Oracle, from: nat, texts: seq<string>, n: nat)
    requires n <= |texts|
  {
    forall i :: 0 <= i < n ==> Smooth(o, from + 2 * i, texts[i])
  }

  /** The writes before number `m` go through, and that one is refused. */
  predicate RefusedAt(o: Oracle, from: nat, texts: seq<string>, m: Slot)
    requires |texts| == 4
  {
    SmoothUpTo(o, from, texts, m) && o.refuses(from + 2 * m)
  }

  /** Where the first `k` writes have got to. */
  ghost predicate OnPace(o: Oracle, from: nat, texts: seq<string>, k: nat, now: nat)
    requires k <= 4 == |texts|
  {
    (SmoothUpTo(o, from, texts, k) ==> now == from + 2 * k) && forall m: Slot :: m < k ==> !RefusedAt(o, from, texts, m)
  }

  lemma NextPace(o: Oracle, from: nat, texts: seq<string>, k: Slot, at: nat, ok: bool, now: nat)
    requires |texts| == 4 && OnPace(o, from, texts, k, at)
    requires o.refuses(at) ==> !ok && now == at + 1
    requires Smooth(o, at, texts[k]) ==> ok && now == at + 2
    ensures ok ==> OnPace(o, from, texts, k + 1, now)
    ensures !ok ==> forall m: Slot :: RefusedAt(o, from, texts, m) ==> m == k && now == from + 2 * m + 1
  {
    assert SmoothUpTo(o, from, texts, k + 1) ==> SmoothUpTo(o, from, texts, k) && Smooth(o, from + 2 * k, texts[k]);
    assert forall m: Slot :: k < m && SmoothUpTo(o, from, texts, m) ==>
      SmoothUpTo(o, from, texts, k) && Smooth(o, from + 2 * k, texts[k]);
  }

  /** Writes the four sources in order, stopping at the first that does not read back. */
  method WriteSources(d: Device, texts: seq<string>) returns (ok: bool)
    requires d.Valid() && |texts| == 4 && Quiet(d.state) && HasScripts(d.state)
    modifies d
    ensures d.Valid() && old(d.clock) < d.clock && HasScripts(d.state) && old(d.trail) <= d.trail
    ensures SameOutside(old(d.state), d.state, OfRole(Prod)) && Undisturbed(old(d.state), d.state)
    ensures Careful(old(d.writes), d.writes) && |old(d.writes)| < |d.writes| && d.writes[|d.writes| - 1].at < d.clock
    ensures WroteFirst(d.oracle, old(d.state), d.state, d.writes, |old(d.writes)|, |d.writes| - |old(d.writes)|, texts)
    ensures d.writes[|old(d.writes)|].at == old(d.clock)
    ensures ok ==> AllVerified(d.oracle.digest, d.state, Prod, texts)
    ensures forall m: Slot :: RefusedAt(d.oracle, old(d.clock), texts, m) ==>
      !ok && d.clock == old(d.clock) + 2 * m + 1 && |d.writes| == |old(d.writes)| + m + 1
    ensures Obliging(d.oracle, old(d.clock)) ==> ok
  {
    ghost var calm := Obliging(d.oracle, d.clock);
    for k := 0 to 4
      invariant d.Valid() && old(d.trail) <= d.trail && Undisturbed(old(d.state), d.state)
      invariant WritingSources(d.oracle, old(d.state), d.state, old(d.writes), d.writes, old(d.clock), d.clock, k, texts)
    {
      if calm { ObligingTakes(d.oracle, old(d.clock), d.clock, 0); }
      ok := WriteNext(d, k, texts, old(d.state), old(d.writes), old(d.clock));
      if !ok { return; }
    }
    AllTried(d.oracle, old(d.state), d.state, old(d.writes), d.writes, old(d.clock), d.clock, texts);
    ok := true;
  }

  /** The sources were written in order up to the first that did not read back. */
  ghost predicate Tried(o: Oracle, s0: State, t: State, log0: seq<Write>, log: seq<Write>, from: nat, now: nat,
                        texts: seq<string>, ok: bool)
    requires |texts| == 4
  {
    && HasScripts(t) && SameOutside(s0, t, OfRole(Prod)) && Careful(log0, log) && |log0| < |log|
    && WroteFirst(o, s0, t, log, |log0|, |log| - |log0|, texts)
    && log[|log0|].at == from && from <= log[|log| - 1].at < now
    && (ok ==> AllVerified(o.digest, t, Prod, texts))
    && forall m: Slot :: RefusedAt(o, from, texts, m) ==> !ok && now == from + 2 * m + 1 && |log| == |log0| + m + 1
  }

  lemma AllTried(o: Oracle, s0: State, t: State, log0: seq<Write>, log: seq<Write>, from: nat, now: nat, texts: seq<string>)
    requires WritingSources(o, s0, t, log0, log, from, now, 4, texts)
    ensures Tried(o, s0, t, log0, log, from, now, texts, true)
  {}

  /** The next source; the writing began in state `s`, with the log `before`, at command `from`. */
  method WriteNext(d: Device, k: Slot, texts: seq<string>, ghost s: State, ghost before: seq<Write>, ghost from: nat)
      returns (ok: bool)
    requires d.Valid() && Quiet(d.state) && HasScripts(d.state)
    requires WritingSources(d.oracle, s, d.state, before, d.writes, from, d.clock, k, texts)
    modifies d
    ensures d.Valid() && old(d.clock) < d.clock && old(d.trail) <= d.trail && Undisturbed(old(d.state), d.state)
    ensures ok ==> WritingSources(d.oracle, s, d.state, before, d.writes, from, d.clock, k + 1, texts)
    ensures !ok ==> Tried(d.oracle, s, d.state, before, d.writes, from, d.clock, texts, false)
    ensures Obliging(d.oracle, old(d.clock)) ==> ok
  {
    ok := WriteSource(d, Managed(Prod, k), texts[k]);
    NextSource(d.oracle, s, old(d.state), d.state, before, old(d.writes), from, old(d.clock), d.clock, k, texts, ok);
  }

  /** The first `k` sources are written and read back. */
  ghost predicate WritingSources(o: Oracle, s0: State, s: State, log0: seq<Write>, log: seq<Write>, from: nat, now: nat,
                                 k: nat, texts: seq<string>)
  {
    && k <= 4 == |texts| && (if k == 0 then now == from else from < now)
    && SameOutside(s0, s, OfRole(Prod)) && Careful(log0, log) && WroteFirst(o, s0, s, log, |log0|, k, texts)
    && (k > 0 ==> log[|log0|].at == from && from <= log[|log| - 1].at < now)
    && (forall i: Slot :: i < k ==> Verified(o.digest, s, Managed(Prod, i), texts[i]))
    && OnPace(o, from, texts, k, now)
  }

  lemma NextSource(o: Oracle, s0: State, s: State, t: State, log0: seq<Write>, log: seq<Write>, from: nat, at: nat,
                   now: nat, k: Slot, texts: seq<string>, ok: bool)
    requires WritingSources(o, s0, s, log0, log, from, at, k, texts) && at < now
    requires Managed(Prod, k) in t.scripts && SameOutside(s, t, iset{Managed(Prod, k)})
    requires t.scripts[Managed(Prod, k)] == Written(o, at, texts[k], s.scripts[Managed(Prod, k)])
    requires ok ==> Verified(o.digest, t, Managed(Prod, k), texts[k])
    requires o.refuses(at) ==> !ok && now == at + 1
    requires Smooth(o, at, texts[k]) ==> ok && now == at + 2
    ensures var more := log + [Write(Managed(Prod, k), true, at)];
            && (ok ==> WritingSources(o, s0, t, log0, more, from, now, k + 1, texts))
            && (!ok ==> Tried(o, s0, t, log0, more, from, now, texts, false))
  {
    var w := Write(Managed(Prod, k), true, at);
    CarefulChain(log0, log, log + [w]);
    WroteNext(o, s0, s, t, log, |log0|, k, texts, w);
    NextPace(o, from, texts, k, at, ok, now);
    assert Managed(Prod, k) in OfRole(Prod) && (k > 0 ==> (log + [w])[|log0|] == log[|log0|]);
  }

  // ---- the two transactions ----------------------------------------------------------------------------------------------

  datatype Rest = Resting | PauseRefused | StillRunning

  /** Schedulers off and running jobs over, or the schedulers as they were. `resume` is the number of the first of the
      four commands that put the flags back. */
  method BringToRest(d: Device, flags: seq<bool>) returns (rest: Rest, ghost resume: nat)
    requires d.Valid() && HasSchedulers(d.state) && AreFlags(d.state, flags)
    modifies d
    ensures d.Valid() && d.writes == old(d.writes) && old(d.clock) <= resume <= d.clock
    ensures d.state.scripts == old(d.state.scripts) && SameSchedulers(old(d.state), d.state)
    ensures rest.Resting? ==> Quiet(d.state)
    ensures !rest.Resting? && FourTaken(d.oracle, resume) ==> d.state.schedulers == old(d.state.schedulers)
    ensures Obliging(d.oracle, old(d.clock)) ==> !rest.PauseRefused?
    ensures Obliging(d.oracle, old(d.clock)) && Quiet(old(d.state)) ==> rest.Resting?
  {
    var ok := Pause(d);
    resume := d.clock;
    if !ok {
      RestoreSchedulers(d, flags);
      if FourTaken(d.oracle, resume) { FlagsBack(old(d.state), d.state, flags); }
      return PauseRefused, resume;
    }
    ok := WaitJobsIdle(d);
    resume := d.clock;
    if !ok {
      RestoreSchedulers(d, flags);
      if FourTaken(d.oracle, resume) { FlagsBack(old(d.state), d.state, flags); }
      return StillRunning, resume;
    }
    rest := Resting;
  }

  function Sources(s: State, role: Role): (texts: seq<string>)
    requires forall k: Slot :: Managed(role, k) in s.scripts
    ensures AreSources(s, role, texts)
  {
    [s.scripts[Managed(role, 0)].source, s.scripts[Managed(role, 1)].source,
     s.scripts[Managed(role, 2)].source, s.scripts[Managed(role, 3)].source]
  }

  datatype Exit =
    | Blocked | BackupFailed | PauseFailed | NotIdle
    | WriteFailed(restored: bool)
    | CleanupFailed(restored: bool, muted: bool)
    | Promoted

  /** The production sources are these, up to length and fingerprint. */
  predicate HoldsSources(h: string -> nat, s: State, texts: seq<string>) {
    && |texts| == 4
    && forall k: Slot :: Managed(Prod, k) in s.scripts && Same(h, s.scripts[Managed(Prod, k)].source, texts[k])
  }

  /** The last four production writes were to put `texts` back; production holds what they left, and nothing else. */
  ghost predicate PutBack(d: Device, texts: seq<string>)
    reads d
  {
    && |d.writes| >= 4 && 2 * d.writes[|d.writes| - 4].at < |d.trail|
    && WroteFirst(d.oracle, d.trail[2 * d.writes[|d.writes| - 4].at], d.state, d.writes, |d.writes| - 4, 4, texts)
    && forall i :: |d.writes| - 4 < i < |d.writes| ==> d.writes[|d.writes| - 4].at < d.writes[i].at
  }

  /** Whether a script holds the text after the write at `at`: the router's answer decides, not the program's. */
  predicate Took(o: Oracle, at: nat, text: string, before: Script) {
    Same(o.digest, if o.refuses(at) then before.source else o.keeps(at, text).source, text)
  }

  /** After the restore the old sources are there iff every one of its four writes was taken and kept the text, or was
      refused where the text had never been replaced. */
  lemma RestoredExactly(d: Device, texts: seq<string>)
    requires PutBack(d, texts)
    ensures var n := |d.writes| - 4;
            HoldsSources(d.oracle.digest, d.state, texts) <==>
              forall k: Slot :: Took(d.oracle, d.writes[n + k].at, texts[k],
                                     d.trail[2 * d.writes[n].at].scripts[Managed(Prod, k)])
  {
    var n := |d.writes| - 4;
    forall k: Slot
      ensures Same(d.oracle.digest, d.state.scripts[Managed(Prod, k)].source, texts[k]) <==>
              Took(d.oracle, d.writes[n + k].at, texts[k], d.trail[2 * d.writes[n].at].scripts[Managed(Prod, k)])
    {
      assert d.state.scripts[Managed(Prod, k)] ==
        Written(d.oracle, d.writes[n + k].at, texts[k], d.trail[2 * d.writes[n].at].scripts[Managed(Prod, k)]);
    }
  }

  /** At rest, free of adaptive state, and holding these sources. */
  ghost predicate Rested(h: string -> nat, s: State, texts: seq<string>) {
    Quiet(s) && Clean(s) && AllVerified(h, s, Prod, texts)
  }

  /** What a promotion may leave behind. `resume` is the state in which the schedulers were about to be put back,
      `accepted` whether the router took the commands for that. */
  ghost predicate Outcome(h: string -> nat, s: State, desired: seq<string>, exit: Exit, t: State, resume: State,
                          accepted: bool)
  {
    && (exit.Blocked? ==> t.scripts == s.scripts && t.schedulers == s.schedulers)
    && (!exit.Blocked? ==> Installed(s))
    && (exit.BackupFailed? ==> SameOutside(s, t, OfRole(Backup)) && t.schedulers == s.schedulers)
    && (exit.PauseFailed? || exit.NotIdle? ==>
          SameOutside(s, t, OfRole(Backup)) && (accepted ==> t.schedulers == s.schedulers))
    && (exit.WriteFailed? && exit.restored ==> AllVerified(h, t, Prod, Sources(s, Prod)))
    && (exit.WriteFailed? ==> SameOutside(s, t, OfRole(Backup) + OfRole(Prod)) && (accepted ==> t.schedulers == s.schedulers))
    && (exit.CleanupFailed? ==> SameOutside(s, t, OfRole(Backup) + OfRole(Prod)) && Quiet(t))
    && (exit.CleanupFailed? && exit.restored ==> AllVerified(h, t, Prod, Sources(s, Prod)))
    && (exit.CleanupFailed? && exit.muted ==> AllAutoDisabled(t))
    && (exit.Promoted? ==>
          && AllVerified(h, t, Prod, desired) && AllVerified(h, t, Backup, Sources(s, Prod))
          && SameOutside(s, t, OfRole(Backup) + OfRole(Prod) + OfRole(Stage))
          && Rested(h, resume, desired)
          && (accepted ==> t.schedulers == s.schedulers))
  }

  /** Best effort: the staged scripts are of no more use. */
  method RemoveStage(d: Device)
    requires d.Valid()
    modifies d
    ensures d.Valid() && d.writes == old(d.writes) && old(d.clock) <= d.clock && old(d.trail) <= d.trail
    ensures SameOutside(old(d.state), d.state, OfRole(Stage)) && d.state.schedulers == old(d.state.schedulers)
    ensures Obliging(d.oracle, old(d.clock)) ==> forall k: Slot :: Managed(Stage, k) !in d.state.scripts
  {
    for k := 0 to 4
      invariant d.Valid() && d.writes == old(d.writes) && old(d.clock) <= d.clock && old(d.trail) <= d.trail
      invariant SameOutside(old(d.state), d.state, OfRole(Stage)) && d.state.schedulers == old(d.state.schedulers)
      invariant Obliging(d.oracle, old(d.clock)) ==> forall i: Slot :: i < k ==> Managed(Stage, i) !in d.state.scripts
    {
      var ok := RemoveIfThere(d, Managed(Stage, k));
    }
  }

  predicate Staged(h: string -> nat, s: State, desired: seq<string>) {
    Installed(s) && AllVerified(h, s, Stage, desired)
  }

  /** Everything up to the pause: gate, snapshot, backups. */
  method Prepare(d: Device, desired: seq<string>) returns (stop: Option<Exit>, prod: seq<string>, flags: seq<bool>)
    requires d.Valid() && |desired| == 4
    modifies d
    ensures d.Valid() && d.writes == old(d.writes) && old(d.clock) <= d.clock
    ensures stop.Some? ==> stop.value.Blocked? || stop.value.BackupFailed?
    ensures Undisturbed(old(d.state), d.state)
    ensures stop == Some(Blocked) ==> d.state.scripts == old(d.state.scripts)
    ensures stop != Some(Blocked) ==>
      && Installed(old(d.state)) && prod == Sources(old(d.state), Prod) && AreFlags(d.state, flags)
      && SameOutside(old(d.state), d.state, OfRole(Backup))
    ensures stop.None? ==> AllVerified(d.oracle.digest, d.state, Backup, prod)
    ensures Obliging(d.oracle, old(d.clock)) && Staged(d.oracle.digest, old(d.state), desired) ==> stop.None?
  {
    prod, flags := [], [];
    var ok := VerifyStage(d, desired);
    if !ok { return Some(Blocked), prod, flags; }
    ok, prod, flags := ReadProduction(d);
    if !ok { return Some(Blocked), prod, flags; }
    ok := CreateBackups(d, prod);
    stop := if ok then None else Some(BackupFailed);
  }

  /** Cleans the runtime; if that fails, the old sources go back in and every adaptive rule is disabled, with the
      schedulers left paused. */
  method CleanOrFailOpen(d: Device, prod: seq<string>) returns (ok: bool, restored: bool, muted: bool)
    requires d.Valid() && |prod| == 4 && Quiet(d.state) && HasScripts(d.state)
    modifies d
    ensures d.Valid() && Careful(old(d.writes), d.writes) && old(d.clock) <= d.clock && Quiet(d.state)
    ensures d.state.schedulers == old(d.state.schedulers) && old(d.trail) <= d.trail
    ensures ok ==> Clean(d.state) && d.state.scripts == old(d.state.scripts) && d.writes == old(d.writes)
    ensures !ok ==> SameOutside(old(d.state), d.state, OfRole(Prod)) && |d.writes| == |old(d.writes)| + 4 && PutBack(d, prod)
    ensures !ok && restored ==> AllVerified(d.oracle.digest, d.state, Prod, prod)
    ensures !ok && muted ==> AllAutoDisabled(d.state)
    ensures !ok ==> d.writes[|old(d.writes)|].at < d.clock
    ensures !ok && Obliging(d.oracle, d.writes[|old(d.writes)|].at) ==> restored && muted
    ensures Cooperative(d.oracle, old(d.clock)) ==> ok
  {
    restored, muted := false, false;
    var stats;
    ok, stats := CleanupRuntime(d);
    if !ok { restored, muted := RestoreAndMute(d, prod); }
  }

  /** The old sources go back in, and then every adaptive rule is disabled. */
  method RestoreAndMute(d: Device, prod: seq<string>) returns (restored: bool, muted: bool)
    requires d.Valid() && |prod| == 4 && Quiet(d.state) && HasScripts(d.state)
    modifies d
    ensures d.Valid() && Careful(old(d.writes), d.writes) && old(d.clock) <= d.clock && Quiet(d.state)
    ensures d.state.schedulers == old(d.state.schedulers) && old(d.trail) <= d.trail
    ensures SameOutside(old(d.state), d.state, OfRole(Prod)) && |d.writes| == |old(d.writes)| + 4 && PutBack(d, prod)
    ensures d.writes[|old(d.writes)|].at == old(d.clock) < d.clock
    ensures restored ==> AllVerified(d.oracle.digest, d.state, Prod, prod)
    ensures muted ==> AllAutoDisabled(d.state)
    ensures Obliging(d.oracle, old(d.clock)) ==> restored && muted
  {
    ghost var s, at := d.state, d.clock;
    restored := RestoreSources(d, prod);
    muted := DisableAdaptiveMangle(d);
    assert d.trail[2 * at] == s;
  }

  /** What the part from the pause on may leave behind. */
  ghost predicate Committed(h: string -> nat, s: State, prod: seq<string>, flags: seq<bool>, desired: seq<string>,
                            exit: Exit, t: State, resume: State, accepted: bool)
  {
    && SameSchedulers(s, t)
    && match exit
       case WriteFailed(restored) =>
         && SameOutside(s, t, OfRole(Prod)) && (restored ==> AllVerified(h, t, Prod, prod))
         && (accepted ==> AreFlags(t, flags))
       case CleanupFailed(restored, muted) =>
         && SameOutside(s, t, OfRole(Prod)) && Quiet(t) && (restored ==> AllVerified(h, t, Prod, prod))
         && (muted ==> AllAutoDisabled(t))
       case Promoted =>
         && SameOutside(s, t, OfRole(Prod) + OfRole(Stage)) && AllVerified(h, t, Prod, desired)
         && Rested(h, resume, desired)
         && (accepted ==> AreFlags(t, flags))
       case _ => (exit.PauseFailed? || exit.NotIdle?) && t.scripts == s.scripts && (accepted ==> AreFlags(t, flags))
  }

  /** What a recovery may rely on: after a failed write or a failed cleanup the last four production writes were the
      restore, and a router that obliges from its first command on lets all of it succeed. */
  ghost predicate Recovers(d: Device, exit: Exit, prod: seq<string>, before: nat, resume: nat)
    reads d
  {
    && (exit.WriteFailed? || exit.CleanupFailed? ==>
          && before + 4 < |d.writes| && PutBack(d, prod) && d.writes[|d.writes| - 4].at < resume
          && (Obliging(d.oracle, d.writes[|d.writes| - 4].at) ==> exit.restored && (exit.CleanupFailed? ==> exit.muted)))
  }

  /** The old sources go back in, and the schedulers are resumed whether or not that worked. */
  method RestoreAndResume(d: Device, prod: seq<string>, flags: seq<bool>) returns (restored: bool, ghost resume: nat)
    requires d.Valid() && |prod| == |flags| == 4 && Quiet(d.state) && HasScripts(d.state) && HasSchedulers(d.state)
    modifies d
    ensures d.Valid() && Careful(old(d.writes), d.writes) && old(d.clock) < resume <= d.clock && old(d.trail) <= d.trail
    ensures SameOutside(old(d.state), d.state, OfRole(Prod)) && SameSchedulers(old(d.state), d.state)
    ensures |d.writes| == |old(d.writes)| + 4 && PutBack(d, prod) && d.writes[|old(d.writes)|].at == old(d.clock)
    ensures restored ==> AllVerified(d.oracle.digest, d.state, Prod, prod)
    ensures FourTaken(d.oracle, resume) ==> AreFlags(d.state, flags)
    ensures Obliging(d.oracle, old(d.clock)) ==> restored
  {
    ghost var s, at := d.state, d.clock;
    restored := RestoreSources(d, prod);
    resume := d.clock;
    RestoreSchedulers(d, flags);
    assert d.trail[2 * at] == s;
  }

  /** Four good writes, or the old sources back and the schedulers resumed. */
  method WriteOrUndo(d: Device, desired: seq<string>, prod: seq<string>, flags: seq<bool>)
      returns (ok: bool, restored: bool, ghost resume: nat)
    requires d.Valid() && |desired| == |prod| == |flags| == 4
    requires Quiet(d.state) && HasScripts(d.state) && HasSchedulers(d.state)
    modifies d
    ensures d.Valid() && Careful(old(d.writes), d.writes) && |old(d.writes)| < |d.writes| && old(d.clock) < d.clock
    ensures SameOutside(old(d.state), d.state, OfRole(Prod)) && SameSchedulers(old(d.state), d.state)
    ensures ok ==> AllVerified(d.oracle.digest, d.state, Prod, desired) && Quiet(d.state)
    ensures ok ==> d.state.schedulers == old(d.state.schedulers)
    ensures !ok ==> |old(d.writes)| + 4 < |d.writes| && PutBack(d, prod)
    ensures !ok ==> old(d.clock) < d.writes[|d.writes| - 4].at < resume <= d.clock
    ensures !ok && restored ==> AllVerified(d.oracle.digest, d.state, Prod, prod)
    ensures !ok && FourTaken(d.oracle, resume) ==> AreFlags(d.state, flags)
    ensures !ok && Obliging(d.oracle, d.writes[|d.writes| - 4].at) ==> restored
    ensures !ok ==> UndoneFrom(d, old(d.state), |old(d.writes)|, old(d.clock), desired)
    ensures forall m: Slot :: RefusedAt(d.oracle, old(d.clock), desired, m) ==>
      !ok && |d.writes| == |old(d.writes)| + m + 5 && d.writes[|d.writes| - 4].at == old(d.clock) + 2 * m + 1
    ensures Obliging(d.oracle, old(d.clock)) ==> ok
  {
    restored := false;
    ok := WriteSources(d, desired);
    resume := d.clock;
    if !ok {
      ghost var s, log, at := d.state, d.writes, d.clock;
      restored, resume := RestoreAndResume(d, prod, flags);
      CarefulChain(old(d.writes), log, d.writes);
      assert d.trail[2 * at] == s && d.writes[..|d.writes| - 4] == log;
    }
  }

  /** The restore found what the writes before it, the first of them command `first`, had left of the new sources. */
  ghost predicate UndoneFrom(d: Device, s: State, before: nat, first: nat, desired: seq<string>)
    reads d
  {
    && before + 4 < |d.writes| && 2 * d.writes[|d.writes| - 4].at < |d.trail| && d.writes[before].at == first
    && WroteFirst(d.oracle, s, d.trail[2 * d.writes[|d.writes| - 4].at], d.writes[..|d.writes| - 4], before,
                  |d.writes| - 4 - before, desired)
  }

  method Commit(d: Device, desired: seq<string>, prod: seq<string>, flags: seq<bool>)
      returns (exit: Exit, ghost resume: nat)
    requires d.Valid() && |desired| == |prod| == |flags| == 4
    requires Quiet(d.state) && HasScripts(d.state) && HasSchedulers(d.state)
    modifies d
    ensures d.Valid() && Careful(old(d.writes), d.writes) && old(d.clock) <= resume <= d.clock
    ensures Committed(d.oracle.digest, old(d.state), prod, flags, desired, exit, d.state,
                      d.trail[2 * resume], FourTaken(d.oracle, resume))
    ensures Recovers(d, exit, prod, |old(d.writes)|, resume)
    ensures exit.WriteFailed? ==> UndoneFrom(d, old(d.state), |old(d.writes)|, old(d.clock), desired)
    ensures forall m: Slot :: RefusedAt(d.oracle, old(d.clock), desired, m) ==>
      exit.WriteFailed? && |d.writes| == |old(d.writes)| + m + 5 && d.writes[|d.writes| - 4].at == old(d.clock) + 2 * m + 1
    ensures Obliging(d.oracle, old(d.clock)) ==> exit.Promoted?
  {
    var ok, restored;
    ok, restored, resume := WriteOrUndo(d, desired, prod, flags);
    exit := WriteFailed(restored);
    if ok {
      ghost var s, log := d.state, d.writes;
      exit, resume := Finish(d, desired, prod, flags);
      CarefulChain(old(d.writes), log, d.writes);
      CommittedAfterWrites(d.oracle.digest, old(d.state), s, prod, flags, desired, exit, d.state,
                           d.trail[2 * resume], FourTaken(d.oracle, resume));
    }
  }

  lemma CommittedAfterWrites(h: string -> nat, s0: State, s: State, prod: seq<string>, flags: seq<bool>,
                             desired: seq<string>, exit: Exit, t: State, resume: State, accepted: bool)
    requires SameOutside(s0, s, OfRole(Prod)) && s.schedulers == s0.schedulers && (exit.CleanupFailed? || exit.Promoted?)
    requires Committed(h, s, prod, flags, desired, exit, t, resume, accepted)
    ensures Committed(h, s0, prod, flags, desired, exit, t, resume, accepted)
  {}

  /** What comes after four good writes. */
  method Finish(d: Device, desired: seq<string>, prod: seq<string>, flags: seq<bool>)
      returns (exit: Exit, ghost resume: nat)
    requires d.Valid() && |desired| == |prod| == |flags| == 4 && AllVerified(d.oracle.digest, d.state, Prod, desired)
    requires Quiet(d.state) && HasScripts(d.state) && HasSchedulers(d.state) && d.writes != []
    modifies d
    ensures d.Valid() && Careful(old(d.writes), d.writes) && old(d.clock) <= resume <= d.clock
    ensures exit.CleanupFailed? || exit.Promoted?
    ensures Committed(d.oracle.digest, old(d.state), prod, flags, desired, exit, d.state,
                      d.trail[2 * resume], FourTaken(d.oracle, resume))
    ensures Recovers(d, exit, prod, |old(d.writes)| - 1, resume)
    ensures Cooperative(d.oracle, old(d.clock)) ==> exit.Promoted?
  {
    var ok, restored, muted := CleanOrFailOpen(d, prod);
    resume := d.clock;
    if !ok { return CleanupFailed(restored, muted), resume; }
    RestoreSchedulers(d, flags);
    RemoveStage(d);
    exit := Promoted;
  }

  /** Flags put back are schedulers put back. */
  lemma FlagsBack(s: State, t: State, flags: seq<bool>)
    requires SameSchedulers(s, t) && AreFlags(s, flags) && AreFlags(t, flags)
    ensures t.schedulers == s.schedulers
  {
    forall n | n in s.schedulers ensures t.schedulers[n] == s.schedulers[n] {
      if IsProd(n) { assert n == Managed(Prod, n.k); }
    }
  }

  /** The pause, and then the part that needs it. */
  method PauseAndCommit(d: Device, desired: seq<string>, prod: seq<string>, flags: seq<bool>)
      returns (exit: Exit, ghost resume: nat)
    requires d.Valid() && |desired| == |prod| == 4
    requires HasScripts(d.state) && HasSchedulers(d.state) && AreFlags(d.state, flags)
    modifies d
    ensures d.Valid() && Careful(old(d.writes), d.writes) && old(d.clock) <= resume <= d.clock
    ensures Committed(d.oracle.digest, old(d.state), prod, flags, desired, exit, d.state,
                      d.trail[2 * resume], FourTaken(d.oracle, resume))
    ensures Recovers(d, exit, prod, |old(d.writes)|, resume)
    ensures Obliging(d.oracle, old(d.clock)) ==>
      (exit.NotIdle? || exit.Promoted?) && (Quiet(old(d.state)) ==> exit.Promoted?)
  {
    var rest;
    rest, resume := BringToRest(d, flags);
    if rest.PauseRefused? { return PauseFailed, resume; }
    if rest.StillRunning? { return NotIdle, resume; }
    exit, resume := Commit(d, desired, prod, flags);
  }

  lemma OutcomeOfCommit(h: string -> nat, s: State, ready: State, flags: seq<bool>, desired: seq<string>,
                        exit: Exit, t: State, resume: State, accepted: bool)
    requires Installed(s) && SameOutside(s, ready, OfRole(Backup)) && AllVerified(h, ready, Backup, Sources(s, Prod))
    requires ready.schedulers == s.schedulers && AreFlags(ready, flags)
    requires Committed(h, ready, Sources(s, Prod), flags, desired, exit, t, resume, accepted)
    ensures Outcome(h, s, desired, exit, t, resume, accepted)
  {
    assert SameSchedulers(s, t);
    if accepted && !exit.CleanupFailed? { FlagsBack(s, t, flags); }
    if exit.Promoted? {
      forall k: Slot ensures Verified(h, t, Managed(Backup, k), Sources(s, Prod)[k]) {
        assert Verified(h, ready, Managed(Backup, k), Sources(s, Prod)[k]);
      }
    }
  }

  /** The number of the first command of the recovery, or of putting the flags back if there was nothing to recover. */
  ghost function RecoveryStart(d: Device, exit: Exit, resume: nat): nat
    reads d
  {
    if (exit.WriteFailed? || exit.CleanupFailed?) && |d.writes| >= 4 then d.writes[|d.writes| - 4].at else resume
  }

  /** The three endings of a promotion that got as far as the pause: the old sources running again, the new sources
      running from a clean start, or the old sources with schedulers paused and every adaptive rule disabled. */
  ghost predicate ThreeWays(h: string -> nat, s: State, desired: seq<string>, t: State, resume: State)
    requires HasScripts(s)
  {
    || (HoldsSources(h, t, Sources(s, Prod)) && t.schedulers == s.schedulers)
    || (AllVerified(h, t, Prod, desired) && t.schedulers == s.schedulers && Rested(h, resume, desired))
    || (HoldsSources(h, t, Sources(s, Prod)) && Quiet(t) && AllAutoDisabled(t))
  }

  lemma EndsInThreeWays(d: Device, s: State, desired: seq<string>, exit: Exit, before: nat, resume: nat)
    requires d.Valid() && resume <= d.clock && !exit.Blocked? && !exit.BackupFailed?
    requires Outcome(d.oracle.digest, s, desired, exit, d.state, d.trail[2 * resume], FourTaken(d.oracle, resume))
    requires Recovers(d, exit, Sources(s, Prod), before, resume) && Obliging(d.oracle, RecoveryStart(d, exit, resume))
    ensures ThreeWays(d.oracle.digest, s, desired, d.state, d.trail[2 * resume])
  {
    if exit.PauseFailed? || exit.NotIdle? {
      forall k: Slot ensures Managed(Prod, k) in d.state.scripts && d.state.scripts[Managed(Prod, k)] == s.scripts[Managed(Prod, k)] {
        assert Managed(Prod, k) !in OfRole(Backup) && Starts(s, Managed(Prod, k));
      }
    }
  }

  method FromBackups(d: Device, desired: seq<string>, prod: seq<string>, flags: seq<bool>, ghost s: State)
      returns (exit: Exit, ghost resume: nat)
    requires d.Valid() && |desired| == 4 && AreFlags(d.state, flags)
    requires Installed(s) && prod == Sources(s, Prod) && d.state.schedulers == s.schedulers
    requires SameOutside(s, d.state, OfRole(Backup)) && AllVerified(d.oracle.digest, d.state, Backup, prod)
    modifies d
    ensures d.Valid() && Careful(old(d.writes), d.writes) && old(d.clock) <= resume <= d.clock
    ensures Outcome(d.oracle.digest, s, desired, exit, d.state, d.trail[2 * resume], FourTaken(d.oracle, resume))
    ensures !exit.Blocked? && !exit.BackupFailed?
    ensures Obliging(d.oracle, RecoveryStart(d, exit, resume)) ==>
      ThreeWays(d.oracle.digest, s, desired, d.state, d.trail[2 * resume])
    ensures Recovers(d, exit, prod, |old(d.writes)|, resume)
    ensures Obliging(d.oracle, old(d.clock)) ==>
      (exit.NotIdle? || exit.Promoted?) && (Quiet(old(d.state)) ==> exit.Promoted?)
  {
    exit, resume := PauseAndCommit(d, desired, prod, flags);
    OutcomeOfCommit(d.oracle.digest, s, old(d.state), flags, desired, exit, d.state,
                    d.trail[2 * resume], FourTaken(d.oracle, resume));
    if Obliging(d.oracle, RecoveryStart(d, exit, resume)) {
      EndsInThreeWays(d, s, desired, exit, |old(d.writes)|, resume);
    }
  }

  lemma OutcomeOfStop(h: string -> nat, s: State, desired: seq<string>, exit: Exit, t: State, accepted: bool)
    requires t.schedulers == s.schedulers
    requires (exit.Blocked? && t.scripts == s.scripts)
            || (exit.BackupFailed? && Installed(s) && SameOutside(s, t, OfRole(Backup)))
    ensures Outcome(h, s, desired, exit, t, t, accepted)
  {}

  /** The whole promotion. `resume` is the number of the first of the four commands that put the scheduler flags back;
      the state it found is in the record of states. A router that obliges from the start of the recovery on is left in
      one of three ways, whatever it did before. */
  method PromoteRun(d: Device, desired: seq<string>) returns (exit: Exit, ghost resume: nat)
    requires d.Valid() && |desired| == 4
    modifies d
    ensures d.Valid() && Careful(old(d.writes), d.writes) && old(d.clock) <= resume <= d.clock
    ensures Outcome(d.oracle.digest, old(d.state), desired, exit, d.state,
                    d.trail[2 * resume], FourTaken(d.oracle, resume))
    ensures !exit.Blocked? && !exit.BackupFailed? ==>
      Recovers(d, exit, Sources(old(d.state), Prod), |old(d.writes)|, resume)
    ensures !exit.Blocked? && !exit.BackupFailed? && Obliging(d.oracle, RecoveryStart(d, exit, resume)) ==>
      ThreeWays(d.oracle.digest, old(d.state), desired, d.state, d.trail[2 * resume])
    ensures Obliging(d.oracle, old(d.clock)) && Staged(d.oracle.digest, old(d.state), desired) ==>
      (exit.NotIdle? || exit.Promoted?) && (Quiet(old(d.state)) ==> exit.Promoted?)
  {
    var stop, prod, flags := Prepare(d, desired);
    if stop.Some? {
      OutcomeOfStop(d.oracle.digest, old(d.state), desired, stop.value, d.state, FourTaken(d.oracle, d.clock));
      return stop.value, d.clock;
    }
    exit, resume := FromBackups(d, desired, prod, flags, old(d.state));
  }

  // ---- schedulers resumed over mixed sources -----------------------------------------------------------------------

  /** Of all commands from number `c` on the router refuses the third and the fourth. */
  ghost predicate TwoRefused(o: Oracle, c: nat) {
    && (forall n :: c <= n ==> (o.refuses(n) <==> n in {c + 2, c + 3}))
    && (forall n :: c <= n ==> !o.misses(n))
    && forall n, text :: c <= n ==> o.keeps(n, text) == Script(text, false)
  }

  /** The failing family: the second write is refused, and so is the first write of the restore. Everything else is
      taken. Production is left with one new script and three old ones, and the schedulers run again. */
  method MixedResume(d: Device, desired: seq<string>, prod: seq<string>, flags: seq<bool>)
      returns (exit: Exit, ghost resume: nat)
    requires d.Valid() && |desired| == |flags| == 4 && Quiet(d.state) && HasSchedulers(d.state)
    requires HasScripts(d.state) && prod == Sources(d.state, Prod)
    requires TwoRefused(d.oracle, d.clock)
    requires !Same(d.oracle.digest, desired[0], prod[0])
    modifies d
    ensures d.Valid() && exit == WriteFailed(false) && AreFlags(d.state, flags)
    ensures AreSources(d.state, Prod, [desired[0], prod[1], prod[2], prod[3]])
    ensures !HoldsSources(d.oracle.digest, d.state, prod)
  {
    exit, resume := Commit(d, desired, prod, flags);
    SecondRefused(d.oracle, old(d.clock), desired, resume);
    MixedAfter(d, old(d.state), |old(d.writes)|, old(d.clock), desired, prod);
  }

  lemma SecondRefused(o: Oracle, c: nat, desired: seq<string>, resume: nat)
    requires TwoRefused(o, c) && |desired| == 4
    ensures RefusedAt(o, c, desired, 1) && (resume > c + 3 ==> FourTaken(o, resume))
  {
    assert !o.refuses(c) && !o.refuses(c + 1) && !o.misses(c + 1) && o.keeps(c, desired[0]) == Script(desired[0], false);
  }

  /** One such router: nothing happens by itself, and the four scripts are paused. */
  method MixedExample() returns (d: Device)
    ensures fresh(d) && AreSources(d.state, Prod, ["new", "b", "c", "d"])
    ensures forall k: Slot :: Managed(Prod, k) in d.state.schedulers && !d.state.schedulers[Managed(Prod, k)].disabled
  {
    var scripts := map[Managed(Prod, 0) := Script("a", false), Managed(Prod, 1) := Script("b", false),
                       Managed(Prod, 2) := Script("c", false), Managed(Prod, 3) := Script("d", false)];
    var schedulers := map[Managed(Prod, 0) := Scheduler(Managed(Prod, 0), true),
                          Managed(Prod, 1) := Scheduler(Managed(Prod, 1), true),
                          Managed(Prod, 2) := Scheduler(Managed(Prod, 2), true),
                          Managed(Prod, 3) := Scheduler(Managed(Prod, 3), true)];
    var s := State(scripts, schedulers, {}, map[], map[], map[], map[], 0);
    var o := Oracle(Calm, n => n in {2, 3}, (n, k) => {}, n => false, (n, text) => Script(text, false), text => 0);
    CalmIsLawful(o);
    d := new Device(o, s);
    assert Sources(d.state, Prod) == ["a", "b", "c", "d"];
    var exit;
    ghost var resume;
    exit, resume := MixedResume(d, ["new", "bb", "cc", "dd"], ["a", "b", "c", "d"], [false, false, false, false]);
  }

  lemma MixedAfter(d: Device, s: State, before: nat, c: nat, desired: seq<string>, prod: seq<string>)
    requires UndoneFrom(d, s, before, c, desired) && PutBack(d, prod) && |desired| == 4
    requires |d.writes| == before + 6 && d.writes[before + 2].at == c + 3
    requires TwoRefused(d.oracle, c)
    ensures AreSources(d.state, Prod, [desired[0], prod[1], prod[2], prod[3]])
    ensures !Same(d.oracle.digest, desired[0], prod[0]) ==> !HoldsSources(d.oracle.digest, d.state, prod)
  {
    MixedScripts(d.oracle, s, d.trail[2 * d.writes[before + 2].at], d.state, d.writes, before, c, desired, prod);
  }

  lemma MixedScripts(o: Oracle, s0: State, s: State, t: State, log: seq<Write>, before: nat, c: nat,
                     desired: seq<string>, prod: seq<string>)
    requires |log| == before + 6 && |desired| == 4 && log[before].at == c && log[before + 2].at == c + 3
    requires WroteFirst(o, s0, s, log[..before + 2], before, 2, desired) && WroteFirst(o, s, t, log, before + 2, 4, prod)
    requires forall i :: before + 2 < i < |log| ==> c + 3 < log[i].at
    requires TwoRefused(o, c)
    ensures t.scripts[Managed(Prod, 0)] == Script(desired[0], false)
    ensures forall k: Slot :: k > 0 ==> t.scripts[Managed(Prod, k)] == Script(prod[k], false)
  {
    assert log[..before + 2][before].at == c;
    assert s.scripts[Managed(Prod, 0)] == Written(o, c, desired[0], s0.scripts[Managed(Prod, 0)]);
    assert t.scripts[Managed(Prod, 0)] == Written(o, c + 3, prod[0], s.scripts[Managed(Prod, 0)]);
    forall k: Slot | k > 0 ensures t.scripts[Managed(Prod, k)] == Script(prod[k], false) {
      assert c + 3 < log[before + 2 + k].at;
    }
  }

  // ---- rollback --------------------------------------------------------------------------------------------------------

  datatype RollbackExit =
    | NothingToRestore | RollbackPauseFailed | RollbackNotIdle
    | RollbackCleanupFailed(muted: bool) | RestoreFailed(muted: bool) | RolledBack

  /** Production, a valid backup and the scheduler of one slot. */
  method ReadBackup(d: Device, k: Slot) returns (ok: bool, text: string, flag: bool)
    requires d.Valid()
    modifies d
    ensures d.Valid() && d.writes == old(d.writes) && old(d.clock) <= d.clock
    ensures d.state.scripts == old(d.state.scripts) && Undisturbed(old(d.state), d.state)
    ensures ok ==> Restorable(d.state, k) && text == d.state.scripts[Managed(Backup, k)].source
    ensures ok ==> flag == d.state.schedulers[Managed(Prod, k)].disabled
    ensures Obliging(d.oracle, old(d.clock)) && Restorable(d.state, k) ==> ok
  {
    ok, text, flag := false, "", false;
    ghost var s := d.state;
    var taken, found := d.LookupScript(Managed(Prod, k));
    ElapseUndisturbed(s, d.state);
    if !taken || found.None? { return; }
    s := d.state;
    taken, found := d.LookupScript(Managed(Backup, k));
    ElapseUndisturbed(s, d.state);
    if !taken || found.None? || found.value.invalid { return; }
    s := d.state;
    var scheduler;
    taken, scheduler := d.LookupScheduler(Managed(Prod, k));
    ElapseUndisturbed(s, d.state);
    if !taken || scheduler.None? { return; }
    ok, text, flag := true, found.value.source, scheduler.value.disabled;
  }

  predicate Restorable(s: State, k: Slot) {
    && Managed(Prod, k) in s.scripts && Managed(Prod, k) in s.schedulers
    && Managed(Backup, k) in s.scripts && !s.scripts[Managed(Backup, k)].invalid
  }

  predicate AllRestorable(s: State) {
    && HasScripts(s) && HasSchedulers(s)
    && forall k: Slot :: Managed(Backup, k) in s.scripts && !s.scripts[Managed(Backup, k)].invalid
  }

  method ReadBackups(d: Device) returns (ok: bool, texts: seq<string>, flags: seq<bool>)
    requires d.Valid()
    modifies d
    ensures d.Valid() && d.writes == old(d.writes) && old(d.clock) <= d.clock
    ensures d.state.scripts == old(d.state.scripts) && Undisturbed(old(d.state), d.state)
    ensures ok ==> AllRestorable(d.state) && AreSources(d.state, Backup, texts) && AreFlags(d.state, flags)
    ensures Obliging(d.oracle, old(d.clock)) && AllRestorable(d.state) ==> ok
  {
    texts, flags := [], [];
    for k := 0 to 4
      invariant d.Valid() && d.writes == old(d.writes) && old(d.clock) <= d.clock && |texts| == |flags| == k
      invariant d.state.scripts == old(d.state.scripts) && Undisturbed(old(d.state), d.state)
      invariant forall i: Slot :: i < k ==>
        && Restorable(d.state, i) && texts[i] == d.state.scripts[Managed(Backup, i)].source
        && flags[i] == d.state.schedulers[Managed(Prod, i)].disabled
    {
      var text, flag;
      ok, text, flag := ReadBackup(d, k);
      if !ok { return; }
      texts, flags := texts + [text], flags + [flag];
    }
    ok := true;
  }

  ghost predicate RollbackOutcome(h: string -> nat, s: State, exit: RollbackExit, t: State, resume: State, accepted: bool) {
    && (exit.NothingToRestore? ==> t.scripts == s.scripts && t.schedulers == s.schedulers)
    && (!exit.NothingToRestore? ==> AllRestorable(s))
    && (exit.RollbackPauseFailed? || exit.RollbackNotIdle? ==>
          t.scripts == s.scripts && (accepted ==> t.schedulers == s.schedulers))
    && SameOutside(s, t, OfRole(Prod))
    && (exit.RollbackCleanupFailed? || exit.RestoreFailed? ==> Quiet(t) && (exit.muted ==> AllAutoDisabled(t)))
    && (exit.RolledBack? ==>
          && AllVerified(h, t, Prod, Sources(s, Backup))
          && Rested(h, resume, Sources(s, Backup))
          && (accepted ==> t.schedulers == s.schedulers))
  }

  /** The emergency exits of a rollback. After a failed cleanup `mute` is the number of the first command that disables
      rules; on a cooperative router those commands end where the restore begins. Obliging from there on, the router is
      left paused and muted with the backups in production. After a failed write the rules are disabled if nothing is
      refused from that write on. */
  ghost predicate FailsOpen(d: Device, exit: RollbackExit, texts: seq<string>, before: nat, mute: nat)
    reads d
  {
    && (exit.RollbackCleanupFailed? ==>
          && |d.writes| == before + 4 && PutBack(d, texts) && 2 * mute < |d.trail|
          && (Cooperative(d.oracle, mute) ==>
                && AllAutoDisabled(d.state)
                && d.writes[before].at == mute + 2 + |Matching(d.trail[2 * mute], AutoRules)|)
          && (Obliging(d.oracle, mute) ==> AllVerified(d.oracle.digest, d.state, Prod, texts)))
    && (exit.RestoreFailed? ==>
          before < |d.writes| && (Cooperative(d.oracle, d.writes[|d.writes| - 1].at) ==> AllAutoDisabled(d.state)))
  }

  /** Every adaptive rule is disabled, and then the sources go back in as far as possible. */
  method MuteAndRestore(d: Device, texts: seq<string>) returns (muted: bool)
    requires d.Valid() && |texts| == 4 && Quiet(d.state) && HasScripts(d.state)
    modifies d
    ensures d.Valid() && Careful(old(d.writes), d.writes) && old(d.clock) <= d.clock && Quiet(d.state)
    ensures d.state.schedulers == old(d.state.schedulers) && SameOutside(old(d.state), d.state, OfRole(Prod))
    ensures muted ==> AllAutoDisabled(d.state)
    ensures FailsOpen(d, RollbackCleanupFailed(muted), texts, |old(d.writes)|, old(d.clock))
  {
    ghost var v := d.trail;
    muted := DisableAdaptiveMangle(d);
    ghost var s, at := d.state, d.clock;
    var restored := RestoreSources(d, texts);
    assert d.trail[2 * at] == s && v <= d.trail;
  }

  /** The backups go into production; if one does not read back, every adaptive rule is disabled. */
  method WriteOrMute(d: Device, texts: seq<string>) returns (ok: bool, muted: bool)
    requires d.Valid() && |texts| == 4 && Quiet(d.state) && HasScripts(d.state)
    modifies d
    ensures d.Valid() && Careful(old(d.writes), d.writes) && old(d.clock) <= d.clock && Quiet(d.state)
    ensures d.state.schedulers == old(d.state.schedulers) && SameOutside(old(d.state), d.state, OfRole(Prod))
    ensures ok ==> AllVerified(d.oracle.digest, d.state, Prod, texts) && (Clean(old(d.state)) ==> Clean(d.state))
    ensures !ok ==> (muted ==> AllAutoDisabled(d.state)) && FailsOpen(d, RestoreFailed(muted), texts, |old(d.writes)|, 0)
    ensures Obliging(d.oracle, old(d.clock)) ==> ok
  {
    muted := false;
    ok := WriteSources(d, texts);
    if !ok {
      CooperativeLater(d.oracle, d.writes[|d.writes| - 1].at, d.clock);
      muted := DisableAdaptiveMangle(d);
      OpenAfterWrite(d, texts, |old(d.writes)|, muted);
    }
  }

  lemma OpenAfterWrite(d: Device, texts: seq<string>, before: nat, muted: bool)
    requires before < |d.writes| && (Cooperative(d.oracle, d.writes[|d.writes| - 1].at) ==> AllAutoDisabled(d.state))
    ensures FailsOpen(d, RestoreFailed(muted), texts, before, 0)
  {}

  /** After the pause: first the runtime, then the sources; any failure leaves the schedulers paused. */
  method RollbackCommit(d: Device, texts: seq<string>, flags: seq<bool>)
      returns (exit: RollbackExit, ghost resume: nat, ghost mute: nat)
    requires d.Valid() && |texts| == |flags| == 4
    requires Quiet(d.state) && HasScripts(d.state) && HasSchedulers(d.state)
    modifies d
    ensures d.Valid() && Careful(old(d.writes), d.writes) && old(d.clock) <= resume <= d.clock
    ensures SameSchedulers(old(d.state), d.state) && SameOutside(old(d.state), d.state, OfRole(Prod))
    ensures exit.RollbackCleanupFailed? || exit.RestoreFailed? || exit.RolledBack?
    ensures !exit.RolledBack? ==> Quiet(d.state) && (exit.muted ==> AllAutoDisabled(d.state))
    ensures exit.RolledBack? ==>
      && AllVerified(d.oracle.digest, d.state, Prod, texts) && (FourTaken(d.oracle, resume) ==> AreFlags(d.state, flags))
      && Rested(d.oracle.digest, d.trail[2 * resume], texts)
    ensures FailsOpen(d, exit, texts, |old(d.writes)|, mute)
    ensures Obliging(d.oracle, old(d.clock)) ==> exit.RolledBack?
  {
    var ok, stats := CleanupRuntime(d);
    mute := d.clock;
    if !ok {
      var muted := MuteAndRestore(d, texts);
      return RollbackCleanupFailed(muted), d.clock, mute;
    }
    var muted;
    ok, muted := WriteOrMute(d, texts);
    if !ok { return RestoreFailed(muted), d.clock, mute; }
    resume := d.clock;
    RestoreSchedulers(d, flags);
    exit := RolledBack;
  }

  method RollbackAtRest(d: Device, texts: seq<string>, flags: seq<bool>, ghost s: State)
      returns (exit: RollbackExit, ghost resume: nat, ghost mute: nat)
    requires d.Valid() && AllRestorable(s) && AreSources(s, Backup, texts) && AreFlags(s, flags) && Quiet(d.state)
    requires d.state.scripts == s.scripts && SameSchedulers(s, d.state)
    modifies d
    ensures d.Valid() && Careful(old(d.writes), d.writes) && old(d.clock) <= resume <= d.clock
    ensures RollbackOutcome(d.oracle.digest, s, exit, d.state, d.trail[2 * resume], FourTaken(d.oracle, resume))
    ensures FailsOpen(d, exit, texts, |old(d.writes)|, mute)
    ensures Obliging(d.oracle, old(d.clock)) ==> exit.RolledBack?
  {
    exit, resume, mute := RollbackCommit(d, texts, flags);
    if exit.RolledBack? && FourTaken(d.oracle, resume) { FlagsBack(s, d.state, flags); }
  }

  method RollbackFrom(d: Device, texts: seq<string>, flags: seq<bool>)
      returns (exit: RollbackExit, ghost resume: nat, ghost mute: nat)
    requires d.Valid() && AllRestorable(d.state) && AreSources(d.state, Backup, texts) && AreFlags(d.state, flags)
    modifies d
    ensures d.Valid() && Careful(old(d.writes), d.writes) && old(d.clock) <= resume <= d.clock
    ensures RollbackOutcome(d.oracle.digest, old(d.state), exit, d.state, d.trail[2 * resume], FourTaken(d.oracle, resume))
    ensures FailsOpen(d, exit, texts, |old(d.writes)|, mute)
    ensures Obliging(d.oracle, old(d.clock)) ==>
      (exit.RollbackNotIdle? || exit.RolledBack?) && (Quiet(old(d.state)) ==> exit.RolledBack?)
  {
    var rest;
    rest, resume := BringToRest(d, flags);
    mute := d.clock;
    if rest.PauseRefused? { return RollbackPauseFailed, resume, mute; }
    if rest.StillRunning? { return RollbackNotIdle, resume, mute; }
    exit, resume, mute := RollbackAtRest(d, texts, flags, old(d.state));
  }

  /** The whole rollback; `resume` as for the promotion, `mute` as above. */
  method RollbackRun(d: Device) returns (exit: RollbackExit, ghost resume: nat, ghost mute: nat)
    requires d.Valid()
    modifies d
    ensures d.Valid() && Careful(old(d.writes), d.writes) && old(d.clock) <= resume <= d.clock
    ensures RollbackOutcome(d.oracle.digest, old(d.state), exit, d.state, d.trail[2 * resume], FourTaken(d.oracle, resume))
    ensures !exit.NothingToRestore? ==> FailsOpen(d, exit, Sources(old(d.state), Backup), |old(d.writes)|, mute)
    ensures Obliging(d.oracle, old(d.clock)) && AllRestorable(old(d.state)) ==>
      (exit.RollbackNotIdle? || exit.RolledBack?) && (Quiet(old(d.state)) ==> exit.RolledBack?)
  {
    var ok, texts, flags := ReadBackups(d);
    if !ok { return NothingToRestore, d.clock, d.clock; }
    ghost var s := d.state;
    exit, resume, mute := RollbackFrom(d, texts, flags);
    SameBackups(d.oracle.digest, old(d.state), s, texts, exit, d.state, d.trail[2 * resume], FourTaken(d.oracle, resume));
  }

  lemma SameBackups(h: string -> nat, s0: State, s: State, texts: seq<string>, exit: RollbackExit, t: State, resume: State,
                    accepted: bool)
    requires s.scripts == s0.scripts && s.schedulers == s0.schedulers
    requires AllRestorable(s) && AreSources(s, Backup, texts) && RollbackOutcome(h, s, exit, t, resume, accepted)
    ensures AllRestorable(s0) && texts == Sources(s0, Backup) && RollbackOutcome(h, s0, exit, t, resume, accepted)
  {
    assert Sources(s, Backup) == Sources(s0, Backup) == texts;
  }

  /** A promotion and then a rollback, both successful, put back the sources of before the promotion. */
  method PromoteThenRollback(d: Device, desired: seq<string>) returns (promoted: Exit, back: RollbackExit)
    requires d.Valid() && |desired| == 4
    modifies d
    ensures d.Valid() && Careful(old(d.writes), d.writes)
    ensures promoted.Promoted? && back.RolledBack? ==>
      Installed(old(d.state)) && AllVerified(d.oracle.digest, d.state, Prod, Sources(old(d.state), Prod))
  {
    back := NothingToRestore;
    ghost var resume, mute;
    promoted, resume := PromoteRun(d, desired);
    if promoted.Promoted? {
      ghost var s, log := d.state, d.writes;
      back, resume, mute := RollbackRun(d);
      CarefulChain(old(d.writes), log, d.writes);
      if back.RolledBack? {
        SameThrough(d.oracle.digest, s, d.state, Sources(old(d.state), Prod), Sources(s, Backup));
      }
    }
  }

  lemma SameThrough(h: string -> nat, s: State, t: State, texts: seq<string>, backups: seq<string>)
    requires AllVerified(h, s, Backup, texts) && AreSources(s, Backup, backups) && AllVerified(h, t, Prod, backups)
    ensures AllVerified(h, t, Prod, texts)
  {
    forall k: Slot ensures Verified(h, t, Managed(Prod, k), texts[k]) {
      assert Verified(h, s, Managed(Backup, k), texts[k]) && Verified(h, t, Managed(Prod, k), backups[k]);
    }
  }
}
