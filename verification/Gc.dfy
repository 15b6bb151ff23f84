/** The bounded garbage collector of a running installation: it touches nothing before it has proved that the router
    runs exactly the desired scripts, and then removes a few orphaned rules and stale connections a run. */
module Gc {
  import opened Namespace
  import opened RuleOrder
  import opened Router
  import opened Cleanup
  import opened Promote

  const LAZY_BUDGET := 4
  const MARK_BUDGET := 2
  const TOTAL_BUDGET := 12
  const CAP := 128

  datatype Shape = Proper | Malformed | Unverifiable

  /** Do the attributes of a lazy rule agree with its comment? A missing attribute is no proof of the contrary. */
  function ShapeOf(f: Filter): Shape {
    if f.match_.proto.None? || f.match_.port.None? || f.match_.list.None? then Unverifiable
    else if f.match_ == MatchOf(f.comment) then Proper else Malformed
  }

  function Backing(c: Comment): ListName
    requires c.Lazy?
  {
    PortList(StateFamily(c.kind), c.proto, c.port)
  }

  /** A lazy rule without a use: its list is empty, or it contradicts its own comment. */
  predicate IsOrphan(s: State, f: Filter) {
    f.comment.Lazy? && (ShapeOf(f).Malformed? || (ShapeOf(f).Proper? && Empty(s, Backing(f.comment))))
  }

  /** A marked connection whose destination is not in the list that would have marked it. */
  predicate IsStale(s: State, c: Conn) {
    c.mark.Marked? && !Holds(s, PortList(StateFamily(c.mark.kind), c.proto, c.port), c.dst)
  }

  // ---- the gate ---------------------------------------------------------------------------------------------------

  datatype Gate = Pass | Skip | Uncertain

  const FIXED: seq<Comment> := [
    FixedMark(OkMark, Tcp), FixedMark(TestMark, Tcp), FixedMark(OkMark, Udp), FixedMark(TestMark, Udp),
    RouteOk, RouteTest, RouterDns(Udp), RouterDns(Tcp)]

  /** What the gate asks for. */
  ghost predicate Normal(h: string -> nat, s: State, desired: seq<string>) {
    && AllVerified(h, s, Prod, desired)
    && (forall k: Slot :: Active(s, Managed(Prod, k)))
    && (forall c :: c in FIXED ==> Single(s, c))
  }

  /** The scheduler is enabled, starts its own script, and that script is not running. */
  predicate Active(s: State, n: Name) {
    && n in s.schedulers && !s.schedulers[n].disabled && s.schedulers[n].onEvent == n
    && !exists j :: j in s.jobs && j.script == n
  }

  /** Exactly one rule with this comment, and it is enabled. */
  predicate Single(s: State, c: Comment) {
    |Commented(s, c)| == 1 && !exists i :: i in Commented(s, c) && s.rules[i].disabled
  }

  /** Only time has passed; on a router where nothing else happens, nothing at all. */
  ghost predicate Waited(o: Oracle, from: nat, s: State, t: State) {
    Elapse(s, t) && WellFormed(t) && (Still(o, from) ==> t == s)
  }

  /** Nothing happens by itself, nothing is refused or missed, prints are up to date. */
  ghost predicate Still(o: Oracle, from: nat) {
    && Cooperative(o, from) && (forall n :: from <= n ==> !o.misses(n))
    && (forall n, s :: from <= n ==> o.step(n, s) == s)
  }

  /** Nothing but looking was done. */
  twostate predicate Looked(d: Device)
    reads d
  {
    && d.Valid() && old(d.clock) <= d.clock && d.writes == old(d.writes) && d.removals == old(d.removals)
    && old(d.trail) <= d.trail && Waited(d.oracle, old(d.clock), old(d.state), d.state)
  }

  lemma WaitedNothing(o: Oracle, from: nat, s: State)
    requires WellFormed(s)
    ensures Waited(o, from, s, s)
  {}

  lemma WaitedChain(o: Oracle, from: nat, mid: nat, s: State, t: State, u: State)
    requires WellFormed(s) && Waited(o, from, s, t) && from <= mid && Waited(o, mid, t, u)
    ensures Waited(o, from, s, u)
  {
    ElapseChain(s, t, u);
  }

  /** A production script must be the desired one, not merely one of that name. */
  method OwnsScripts(d: Device, desired: seq<string>) returns (ok: bool)
    requires d.Valid() && |desired| == 4
    modifies d
    ensures Looked(d)
    ensures ok ==> AllVerified(d.oracle.digest, d.state, Prod, desired)
    ensures Still(d.oracle, old(d.clock)) && AllVerified(d.oracle.digest, d.state, Prod, desired) ==> ok
  {
    WaitedNothing(d.oracle, d.clock, d.state);
    for k := 0 to 4
      invariant Looked(d)
      invariant forall i: Slot :: i < k ==> Verified(d.oracle.digest, d.state, Managed(Prod, i), desired[i])
    {
      ghost var s, at := d.state, d.clock;
      var taken, found := d.LookupScript(Managed(Prod, k));
      WaitedChain(d.oracle, old(d.clock), at, old(d.state), s, d.state);
      if !taken || found.None? || !Reads(d.oracle.digest, found.value, desired[k]) { return false; }
    }
    ok := true;
  }

  /** One scheduler and its script: enabled, started by its own name, not running. */
  method SchedulerGate(d: Device, n: Name) returns (gate: Gate)
    requires d.Valid()
    modifies d
    ensures Looked(d)
    ensures Still(d.oracle, old(d.clock)) ==> gate == if Active(d.state, n) then Pass else Skip
    ensures gate.Pass? ==> n in d.state.schedulers && !d.state.schedulers[n].disabled
  {
    ghost var s := d.state;
    var taken, found := d.LookupScheduler(n);
    if !taken { return Uncertain; }
    if found.None? || found.value.disabled || found.value.onEvent != n { return Skip; }
    ghost var t, at := d.state, d.clock;
    var busy;
    taken, busy := d.ShowsJob(n);
    WaitedChain(d.oracle, old(d.clock), at, s, t, d.state);
    gate := if !taken then Uncertain else if busy then Skip else Pass;
  }

  method FixedGate(d: Device, comments: seq<Comment>) returns (gate: Gate)
    requires d.Valid()
    modifies d
    ensures Looked(d)
    ensures Still(d.oracle, old(d.clock)) ==>
      gate == if forall c :: c in comments ==> Single(d.state, c) then Pass else Skip
  {
    WaitedNothing(d.oracle, d.clock, d.state);
    for i := 0 to |comments|
      invariant Looked(d)
      invariant Still(d.oracle, old(d.clock)) ==> forall j :: 0 <= j < i ==> Single(d.state, comments[j])
    {
      ghost var s, at := d.state, d.clock;
      assert comments[i] in comments;
      var taken, count, off := d.ShowsRules(comments[i]);
      WaitedChain(d.oracle, old(d.clock), at, old(d.state), s, d.state);
      if !taken { return Uncertain; }
      if count != 1 || off { return Skip; }
    }
    gate := Pass;
  }

  /** Before the scripts are known to be ours an error only skips the run; afterwards it is an uncertainty. */
  method RuntimeGate(d: Device, desired: seq<string>) returns (gate: Gate)
    requires d.Valid() && |desired| == 4
    modifies d
    ensures Looked(d)
    ensures !gate.Skip? ==> AllVerified(d.oracle.digest, d.state, Prod, desired)
    ensures Still(d.oracle, old(d.clock)) ==> gate == if Normal(d.oracle.digest, d.state, desired) then Pass else Skip
  {
    ghost var s0, from := d.state, d.clock;
    var ok := OwnsScripts(d, desired);
    if !ok { return Skip; }
    for k := 0 to 4
      invariant Looked(d) && AllVerified(d.oracle.digest, d.state, Prod, desired)
      invariant Still(d.oracle, from) ==> forall i: Slot :: i < k ==> Active(d.state, Managed(Prod, i))
    {
      ghost var s, at := d.state, d.clock;
      gate := SchedulerGate(d, Managed(Prod, k));
      WaitedChain(d.oracle, from, at, s0, s, d.state);
      if !gate.Pass? { return; }
    }
    ghost var s, at := d.state, d.clock;
    gate := FixedGate(d, FIXED);
    WaitedChain(d.oracle, from, at, s0, s, d.state);
  }

  // ---- removals that are warranted -----------------------------------------------------------------------------------

  /** The two commands before position `at` of the record both met a state in which the rule is an orphan. */
  predicate OrphanTwice(trail: seq<State>, at: nat, f: Filter) {
    4 <= at < |trail| + 2 && IsOrphan(trail[at - 4], f) && IsOrphan(trail[at - 2], f)
  }

  predicate StaleTwice(trail: seq<State>, at: nat, c: Conn) {
    4 <= at < |trail| + 2 && IsStale(trail[at - 4], c) && IsStale(trail[at - 2], c)
  }

  /** What was removed is a lazy rule that contradicts itself, or was without backing at the two reads that came
      right before the removal; or a connection that was stale at both. */
  predicate Warranted(x: Removal, trail: seq<State>) {
    match x.gone
    case RuleGone(f) =>
      x.kind.AutoRules? && f.comment.Lazy? && !ShapeOf(f).Unverifiable?
      && (ShapeOf(f).Malformed? || OrphanTwice(trail, x.at, f))
    case ConnGone(c) => x.kind.Marks? && StaleTwice(trail, x.at, c)
    case EntryGone(_) => false
    case NothingGone => x.kind.AutoRules? || x.kind.Marks?
  }

  /** The removal commands so far, and the states met and left so far. */
  datatype Book = Book(log: seq<Removal>, trail: seq<State>)

  ghost function BookOf(d: Device): Book
    reads d
  {
    Book(d.removals, d.trail)
  }

  /** From one book to the next, nothing but what is warranted was removed. */
  ghost predicate Justly(a: Book, b: Book) {
    && a.log <= b.log && a.trail <= b.trail
    && forall i :: |a.log| <= i < |b.log| ==> Warranted(b.log[i], b.trail)
  }

  lemma JustlyChain(a: Book, b: Book, c: Book)
    requires Justly(a, b) && Justly(b, c)
    ensures Justly(a, c)
  {
    forall i | |a.log| <= i < |c.log| ensures Warranted(c.log[i], c.trail) {
      if i < |b.log| { assert c.log[i] == b.log[i] && Warranted(b.log[i], b.trail); }
    }
  }

  /** What a run of the collector may do besides waiting: take away rules or connections. */
  ghost predicate Thinned(o: Oracle, from: nat, s: State, t: State, rules: set<Id>, conns: set<Id>) {
    && WellFormed(t) && SameObjects(s, t) && t.scripts == s.scripts && t.schedulers == s.schedulers
    && (Still(o, from) ==> t == s.(rules := s.rules - rules, conns := s.conns - conns))
  }

  lemma ThinnedChain(o: Oracle, from: nat, mid: nat, s: State, t: State, u: State,
                     a: set<Id>, b: set<Id>, v: set<Id>, w: set<Id>)
    requires WellFormed(s) && from <= mid && Thinned(o, from, s, t, a, v) && Thinned(o, mid, t, u, b, w)
    ensures Thinned(o, from, s, u, a + b, v + w)
  {
    assert s.rules - a - b == s.rules - (a + b);
    assert s.conns - v - w == s.conns - (v + w);
  }

  lemma LookedIsThinned(o: Oracle, from: nat, s: State, t: State)
    requires Waited(o, from, s, t)
    ensures Thinned(o, from, s, t, {}, {})
  {
    assert s.rules - {} == s.rules && s.conns - {} == s.conns;
  }

  /** A stretch of the run: how many removals were tried, and on what. */
  datatype Tally = Tally(tried: nat, rules: set<Id>, conns: set<Id>)

  const NOTHING := Tally(0, {}, {})

  function Joined(x: Tally, y: Tally): Tally { Tally(x.tried + y.tried, x.rules + y.rules, x.conns + y.conns) }

  /** The removals between the books are those of the tally. */
  ghost predicate Tallied(a: Book, b: Book, x: Tally) {
    && |b.log| == |a.log| + x.tried
    && forall i :: |a.log| <= i < |b.log| ==>
         var r := b.log[i]; (r.kind.AutoRules? && r.id in x.rules) || (r.kind.Marks? && r.id in x.conns)
  }

  ghost predicate Ran(o: Oracle, from: nat, s: State, t: State, a: Book, b: Book, x: Tally) {
    Thinned(o, from, s, t, x.rules, x.conns) && Justly(a, b) && Tallied(a, b, x)
  }

  lemma RanChain(o: Oracle, from: nat, mid: nat, s: State, t: State, u: State, a: Book, b: Book, c: Book, x: Tally, y: Tally)
    requires WellFormed(s) && from <= mid && Ran(o, from, s, t, a, b, x) && Ran(o, mid, t, u, b, c, y)
    ensures Ran(o, from, s, u, a, c, Joined(x, y))
  {
    ThinnedChain(o, from, mid, s, t, u, x.rules, y.rules, x.conns, y.conns);
    JustlyChain(a, b, c);
    forall i | |a.log| <= i < |c.log|
      ensures (c.log[i].kind.AutoRules? && c.log[i].id in x.rules + y.rules)
              || (c.log[i].kind.Marks? && c.log[i].id in x.conns + y.conns)
    {
      if i < |b.log| { assert c.log[i] == b.log[i]; }
    }
  }

  lemma LookedRan(o: Oracle, from: nat, s: State, t: State, a: Book, b: Book)
    requires Waited(o, from, s, t) && b.log == a.log && a.trail <= b.trail
    ensures Ran(o, from, s, t, a, b, NOTHING)
  {
    LookedIsThinned(o, from, s, t);
  }

  // ---- lazy rules -------------------------------------------------------------------------------------------------------

  /** The row still describes the rule, if there is one. */
  predicate Describes(s: State, i: Id, f: Filter) { i < s.next && (i in s.rules ==> SameFilter(f, s.rules[i])) }

  /** Two reads of the backing list; the rule is an orphan only if both find it empty. */
  method FindsOrphan(d: Device, f: Filter) returns (ok: bool, orphan: bool)
    requires d.Valid() && f.comment.Lazy?
    modifies d
    ensures Looked(d)
    ensures orphan ==> ShapeOf(f).Malformed? || (ShapeOf(f).Proper? && OrphanTwice(d.trail, |d.trail|, f))
    ensures Still(d.oracle, old(d.clock)) ==> ok && (orphan <==> IsOrphan(d.state, f))
  {
    ok, orphan := true, ShapeOf(f).Malformed?;
    WaitedNothing(d.oracle, d.clock, d.state);
    if ShapeOf(f).Proper? { ok, orphan := ReadsTwice(d, f); }
  }

  /** A rule of proper shape: the second read comes only after a first that found nothing. */
  method ReadsTwice(d: Device, f: Filter) returns (ok: bool, orphan: bool)
    requires d.Valid() && f.comment.Lazy? && ShapeOf(f).Proper?
    modifies d
    ensures Looked(d)
    ensures orphan ==> OrphanTwice(d.trail, |d.trail|, f)
    ensures Still(d.oracle, old(d.clock)) ==> ok && (orphan <==> IsOrphan(d.state, f))
  {
    ghost var s := d.state;
    ok, orphan := d.ListEmpty(Backing(f.comment));
    if !ok || !orphan { return ok, false; }
    ghost var t, at := d.state, d.clock;
    ok, orphan := d.ListEmpty(Backing(f.comment));
    WaitedChain(d.oracle, old(d.clock), at, s, t, d.state);
    orphan := ok && orphan;
  }

  /** The record of a removal command on a warranted rule. */
  lemma RuleRemoval(a: Book, b: Book, i: Id, f: Filter, gone: Gone)
    requires a.trail <= b.trail && b.log == a.log + [Removal(AutoRules, i, gone, |a.trail|)] && |a.trail| < |b.trail|
    requires gone.NothingGone? || (gone.RuleGone? && SameFilter(f, gone.rule))
    requires f.comment.Lazy? && (ShapeOf(f).Malformed? || (ShapeOf(f).Proper? && OrphanTwice(a.trail, |a.trail|, f)))
    ensures Justly(a, b) && Tallied(a, b, Tally(1, {i}, {}))
  {
    if gone.RuleGone? { assert ShapeOf(gone.rule) == ShapeOf(f); }
  }

  /** Removes the rule and checks that it is gone. */
  method RemoveLazy(d: Device, i: Id, f: Filter) returns (ok: bool, ghost x: Tally)
    requires d.Valid() && Describes(d.state, i, f) && f.comment.Lazy?
    requires ShapeOf(f).Malformed? || (ShapeOf(f).Proper? && OrphanTwice(d.trail, |d.trail|, f))
    modifies d
    ensures d.Valid() && old(d.clock) <= d.clock && d.writes == old(d.writes)
    ensures Ran(d.oracle, old(d.clock), old(d.state), d.state, old(BookOf(d)), BookOf(d), x)
    ensures x == Tally(1, {i}, {})
    ensures Still(d.oracle, old(d.clock)) ==> ok
  {
    ghost var s0, from, book0 := d.state, d.clock, BookOf(d);
    x := Tally(1, {i}, {});
    TakeAway(d, i, f);
    ghost var s, at, book := d.state, d.clock, BookOf(d);
    var there;
    ok, there := d.ShowsRule(i, f.comment);
    LookedRan(d.oracle, at, s, d.state, book, BookOf(d));
    RanChain(d.oracle, from, at, s0, s, d.state, book0, book, BookOf(d), x, NOTHING);
    JoinedNothing(x);
    ok := ok && !there;
  }

  /** The one command; what it answers is not looked at. */
  method TakeAway(d: Device, i: Id, f: Filter)
    requires d.Valid() && Describes(d.state, i, f) && f.comment.Lazy?
    requires ShapeOf(f).Malformed? || (ShapeOf(f).Proper? && OrphanTwice(d.trail, |d.trail|, f))
    modifies d
    ensures d.Valid() && d.clock == old(d.clock) + 1 && d.writes == old(d.writes)
    ensures Ran(d.oracle, old(d.clock), old(d.state), d.state, old(BookOf(d)), BookOf(d), Tally(1, {i}, {}))
    ensures Still(d.oracle, old(d.clock)) ==> i !in d.state.rules
  {
    ghost var s0, book0 := d.state, BookOf(d);
    var taken := d.Remove(AutoRules, i);
    RuleRemoval(book0, BookOf(d), i, f, d.removals[|book0.log|].gone);
    assert s0.conns - {} == s0.conns;
  }

  lemma JoinedNothing(x: Tally)
    ensures Joined(x, NOTHING) == x && Joined(NOTHING, x) == x
  {
    assert x.rules + {} == x.rules && x.conns + {} == x.conns;
  }

  /** The rows among `ids` that are of no use in `s`. */
  function OrphansIn(s: State, ids: seq<Id>, rows: map<Id, Filter>): set<Id> {
    set i | i in ids && i in rows && IsOrphan(s, rows[i])
  }

  /** Rows read from the router: lazy rules, each described as far as it is still there. */
  predicate Rows(s: State, ids: seq<Id>, rows: map<Id, Filter>) {
    && (forall j, k :: 0 <= j < k < |ids| ==> ids[j] != ids[k])
    && forall i :: i in ids ==> i in rows && rows[i].comment.Lazy? && Describes(s, i, rows[i])
  }

  lemma RowsLater(s: State, t: State, ids: seq<Id>, rows: map<Id, Filter>)
    requires WellFormed(s) && SameObjects(s, t) && Rows(s, ids, rows)
    ensures Rows(t, ids, rows)
  {
    forall i | i in ids ensures Describes(t, i, rows[i]) { assert Describes(s, i, rows[i]); }
  }

  /** One row: is it an orphan, and if so, out with it. */
  method ProcessRow(d: Device, i: Id, f: Filter) returns (ok: bool, acted: bool, ghost x: Tally)
    requires d.Valid() && Describes(d.state, i, f) && f.comment.Lazy?
    modifies d
    ensures d.Valid() && old(d.clock) <= d.clock && d.writes == old(d.writes)
    ensures Ran(d.oracle, old(d.clock), old(d.state), d.state, old(BookOf(d)), BookOf(d), x)
    ensures x.tried == (if acted then 1 else 0) && x.rules == (if acted then {i} else {}) && x.conns == {}
    ensures Still(d.oracle, old(d.clock)) ==> ok && (acted <==> IsOrphan(old(d.state), f))
  {
    ghost var s0, from, book0 := d.state, d.clock, BookOf(d);
    var orphan;
    ok, orphan := FindsOrphan(d, f);
    LookedRan(d.oracle, from, s0, d.state, book0, BookOf(d));
    acted, x := ok && orphan, NOTHING;
    if acted {
      ghost var s, at, book := d.state, d.clock, BookOf(d);
      ok, x := RemoveLazy(d, i, f);
      RanChain(d.oracle, from, at, s0, s, d.state, book0, book, BookOf(d), NOTHING, x);
      JoinedNothing(x);
    }
  }

  /** The rows in order, until the budget of the family is used up. */
  method ProcessLazy(d: Device, ids: seq<Id>, rows: map<Id, Filter>, budget: nat)
      returns (ok: bool, used: nat, done: nat, ghost x: Tally)
    requires d.Valid() && Rows(d.state, ids, rows)
    modifies d
    ensures d.Valid() && old(d.clock) <= d.clock && d.writes == old(d.writes)
    ensures Ran(d.oracle, old(d.clock), old(d.state), d.state, old(BookOf(d)), BookOf(d), x)
    ensures x.tried == used <= budget && x.conns == {} && done <= used && (ok ==> done == used)
    ensures Still(d.oracle, old(d.clock)) ==> ok && Exactly(x.rules, used, budget, OrphansIn(old(d.state), ids, rows))
  {
    ghost var s0, from, book0 := d.state, d.clock, BookOf(d);
    ok, used, done, x := true, 0, 0, NOTHING;
    WaitedNothing(d.oracle, from, s0);
    LookedRan(d.oracle, from, s0, s0, book0, book0);
    for i := 0 to |ids|
      invariant d.Valid() && from <= d.clock && d.writes == old(d.writes) && Rows(d.state, ids, rows) && ok
      invariant Ran(d.oracle, from, s0, d.state, book0, BookOf(d), x)
      invariant done == used <= budget && UpTo(d.oracle, from, s0, ids, rows, i, used, x)
    {
      if used >= budget {
        SubsetOrphans(s0, ids, i, rows);
        return;
      }
      ok, used, x := ProcessNext(d, ids, rows, i, used, x, s0, from, book0);
      if !ok { return; }
      done := used;
    }
    assert ids[..|ids|] == ids;
  }

  /** Row `i`, after the first `i` rows. */
  method ProcessNext(d: Device, ids: seq<Id>, rows: map<Id, Filter>, i: nat, used: nat, ghost x: Tally,
                     ghost s0: State, ghost from: nat, ghost book0: Book)
      returns (ok: bool, n: nat, ghost z: Tally)
    requires d.Valid() && i < |ids| && Rows(d.state, ids, rows) && Rows(s0, ids, rows)
    requires WellFormed(s0) && from <= d.clock && Ran(d.oracle, from, s0, d.state, book0, BookOf(d), x)
    requires UpTo(d.oracle, from, s0, ids, rows, i, used, x)
    modifies d
    ensures d.Valid() && from <= d.clock && d.writes == old(d.writes) && Rows(d.state, ids, rows)
    ensures Ran(d.oracle, from, s0, d.state, book0, BookOf(d), z)
    ensures used <= n <= used + 1 && UpTo(d.oracle, from, s0, ids, rows, i + 1, n, z)
    ensures Still(d.oracle, from) ==> ok
  {
    ghost var s, at, book := d.state, d.clock, BookOf(d);
    var acted;
    ghost var y;
    assert ids[i] in ids;
    ok, acted, y := ProcessRow(d, ids[i], rows[ids[i]]);
    RanChain(d.oracle, from, at, s0, s, d.state, book0, book, BookOf(d), x, y);
    RowsLater(s, d.state, ids, rows);
    NextUpTo(d.oracle, from, s0, s, ids, rows, i, used, x, acted, y);
    z := Joined(x, y);
    n := if acted then used + 1 else used;
  }

  /** `used` of the candidates went: all of them, or as many as the budget allows. */
  predicate Exactly(gone: set<Id>, used: nat, budget: nat, candidates: set<Id>) {
    |gone| == used && gone <= candidates && (used < budget ==> gone == candidates)
  }

  /** The numbers behind it. */
  lemma ExactlyCounts(gone: set<Id>, used: nat, budget: nat, candidates: set<Id>)
    requires Exactly(gone, used, budget, candidates) && used <= budget
    ensures used == if |candidates| < budget then |candidates| else budget
    ensures |candidates - gone| == |candidates| - used
  {
    assert candidates == gone + (candidates - gone);
  }

  /** The first `i` rows are dealt with. */
  ghost predicate UpTo(o: Oracle, from: nat, s0: State, ids: seq<Id>, rows: map<Id, Filter>, i: nat, used: nat, x: Tally)
    requires i <= |ids|
  {
    && x.tried == used && x.conns == {}
    && (Still(o, from) ==> |x.rules| == used && x.rules == OrphansIn(s0, ids[..i], rows))
  }

  lemma NextUpTo(o: Oracle, from: nat, s0: State, s: State, ids: seq<Id>, rows: map<Id, Filter>, i: nat, used: nat,
                 x: Tally, acted: bool, y: Tally)
    requires i < |ids| && UpTo(o, from, s0, ids, rows, i, used, x) && Rows(s0, ids, rows)
    requires Thinned(o, from, s0, s, x.rules, x.conns)
    requires y.tried == (if acted then 1 else 0) && y.rules == (if acted then {ids[i]} else {}) && y.conns == {}
    requires Still(o, from) ==> (acted <==> IsOrphan(s, rows[ids[i]]))
    ensures UpTo(o, from, s0, ids, rows, i + 1, if acted then used + 1 else used, Joined(x, y))
  {
    assert Still(o, from) ==> s.entries == s0.entries;
    assert Still(o, from) ==> (IsOrphan(s, rows[ids[i]]) <==> IsOrphan(s0, rows[ids[i]]));
    NextOrphan(s0, ids, i, rows);
  }

  lemma SubsetOrphans(s: State, ids: seq<Id>, i: nat, rows: map<Id, Filter>)
    requires i <= |ids|
    ensures OrphansIn(s, ids[..i], rows) <= OrphansIn(s, ids, rows)
  {}

  lemma NextOrphan(s: State, ids: seq<Id>, i: nat, rows: map<Id, Filter>)
    requires Rows(s, ids, rows) && i < |ids|
    ensures OrphansIn(s, ids[..i + 1], rows) == OrphansIn(s, ids[..i], rows) + (if IsOrphan(s, rows[ids[i]]) then {ids[i]} else {})
    ensures ids[i] !in OrphansIn(s, ids[..i], rows)
  {
    assert ids[..i + 1] == ids[..i] + [ids[i]];
  }

  /** The scan of one family: refused when there is more than it is prepared to hold. */
  method CollectLazy(d: Device, kind: MarkKind) returns (ok: bool, ids: seq<Id>, rows: map<Id, Filter>)
    requires d.Valid()
    modifies d
    ensures Looked(d)
    ensures ok ==> |ids| <= CAP && Rows(d.state, ids, rows) && OrphansIn(d.state, ids, rows) == FamilyOrphans(d.state, kind)
    ensures Still(d.oracle, old(d.clock)) && |Marking(d.state, kind)| <= CAP ==> ok
  {
    ghost var s0, from := d.state, d.clock;
    ids, rows := [], map[];
    var total;
    ok, total := d.CountMarking(kind);
    if !ok || total > CAP { return false, ids, rows; }
    ghost var s, at := d.state, d.clock;
    ok, ids, rows := ReadLazy(d, kind);
    WaitedChain(d.oracle, from, at, s0, s, d.state);
  }

  method ReadLazy(d: Device, kind: MarkKind) returns (ok: bool, ids: seq<Id>, rows: map<Id, Filter>)
    requires d.Valid()
    modifies d
    ensures Looked(d)
    ensures ok ==> |ids| <= CAP && Rows(d.state, ids, rows) && OrphansIn(d.state, ids, rows) == FamilyOrphans(d.state, kind)
    ensures Still(d.oracle, old(d.clock)) && |Marking(d.state, kind)| <= CAP ==> ok
  {
    ok, ids, rows := d.LazyRows(kind);
    RowsOf(d.state, kind);
    ok := ok && |ids| <= CAP;
  }

  lemma RowsOf(s: State, kind: MarkKind)
    requires WellFormed(s)
    ensures var ids := Sorted(LazyMarking(s, kind));
            Rows(s, ids, s.rules) && OrphansIn(s, ids, s.rules) == FamilyOrphans(s, kind) && |ids| <= |Marking(s, kind)|
  {
    SubsetSize(LazyMarking(s, kind), Marking(s, kind));
  }

  lemma SubsetSize<T>(a: set<T>, b: set<T>)
    requires a <= b
    ensures |a| <= |b|
  {
    assert b == a + (b - a);
  }

  // ---- stale marks ------------------------------------------------------------------------------------------------------

  predicate ConnRows(s: State, ids: seq<Id>, rows: map<Id, Conn>) {
    && (forall j, k :: 0 <= j < k < |ids| ==> ids[j] != ids[k])
    && forall i :: i in ids ==> i in rows && rows[i].mark.Marked? && i < s.next && (i in s.conns ==> s.conns[i] == rows[i])
  }

  lemma ConnRowsLater(s: State, t: State, ids: seq<Id>, rows: map<Id, Conn>)
    requires WellFormed(s) && SameObjects(s, t) && ConnRows(s, ids, rows)
    ensures ConnRows(t, ids, rows)
  {}

  function StaleIn(s: State, ids: seq<Id>, rows: map<Id, Conn>): set<Id> {
    set i | i in ids && i in rows && IsStale(s, rows[i])
  }

  /** Two reads of the tuple's own entry. */
  method FindsStale(d: Device, c: Conn) returns (ok: bool, stale: bool)
    requires d.Valid() && c.mark.Marked?
    modifies d
    ensures Looked(d)
    ensures stale ==> StaleTwice(d.trail, |d.trail|, c)
    ensures Still(d.oracle, old(d.clock)) ==> ok && (stale <==> IsStale(d.state, c))
  {
    stale := false;
    var list := PortList(StateFamily(c.mark.kind), c.proto, c.port);
    ghost var s := d.state;
    var found;
    ok, found := d.ListHolds(list, c.dst);
    if !ok || found { return; }
    ghost var t, at := d.state, d.clock;
    ok, found := d.ListHolds(list, c.dst);
    WaitedChain(d.oracle, old(d.clock), at, s, t, d.state);
    stale := ok && !found;
  }

  lemma MarkRemoval(a: Book, b: Book, i: Id, c: Conn, gone: Gone)
    requires a.trail <= b.trail && b.log == a.log + [Removal(Marks, i, gone, |a.trail|)] && |a.trail| < |b.trail|
    requires gone.NothingGone? || (gone.ConnGone? && gone.conn == c)
    requires StaleTwice(a.trail, |a.trail|, c)
    ensures Justly(a, b) && Tallied(a, b, Tally(1, {}, {i}))
  {}

  method RemoveMark(d: Device, i: Id, c: Conn) returns (ghost x: Tally)
    requires d.Valid() && i < d.state.next && (i in d.state.conns ==> d.state.conns[i] == c) && c.mark.Marked?
    requires StaleTwice(d.trail, |d.trail|, c)
    modifies d
    ensures d.Valid() && old(d.clock) <= d.clock && d.writes == old(d.writes)
    ensures Ran(d.oracle, old(d.clock), old(d.state), d.state, old(BookOf(d)), BookOf(d), x)
    ensures x == Tally(1, {}, {i})
  {
    ghost var book0 := BookOf(d);
    var taken := d.Remove(Marks, i);
    x := Tally(1, {}, {i});
    assert old(d.state).rules - {} == old(d.state).rules;
    MarkRemoval(book0, BookOf(d), i, c, d.removals[|book0.log|].gone);
  }

  /** One connection; whether the removal was accepted does not matter, it may have ended by itself. */
  method ProcessMark(d: Device, i: Id, c: Conn) returns (ok: bool, acted: bool, ghost x: Tally)
    requires d.Valid() && c.mark.Marked? && i < d.state.next && (i in d.state.conns ==> d.state.conns[i] == c)
    modifies d
    ensures d.Valid() && old(d.clock) <= d.clock && d.writes == old(d.writes)
    ensures Ran(d.oracle, old(d.clock), old(d.state), d.state, old(BookOf(d)), BookOf(d), x)
    ensures x.tried == (if acted then 1 else 0) && x.rules == {} && x.conns == (if acted then {i} else {})
    ensures Still(d.oracle, old(d.clock)) ==> ok && (acted <==> IsStale(old(d.state), c))
  {
    ghost var s0, from, book0 := d.state, d.clock, BookOf(d);
    ok, acted := FindsStale(d, c);
    LookedRan(d.oracle, from, s0, d.state, book0, BookOf(d));
    x := NOTHING;
    if acted {
      ghost var s, at, book := d.state, d.clock, BookOf(d);
      x := RemoveMark(d, i, c);
      RanChain(d.oracle, from, at, s0, s, d.state, book0, book, BookOf(d), NOTHING, x);
      JoinedNothing(x);
    }
  }

  ghost predicate MarksUpTo(o: Oracle, from: nat, s0: State, ids: seq<Id>, rows: map<Id, Conn>, i: nat, used: nat,
                            attempted: set<Id>, x: Tally)
    requires i <= |ids|
  {
    && x.tried == used && x.rules == {} && x.conns == attempted
    && (Still(o, from) ==> |x.conns| == used && x.conns == StaleIn(s0, ids[..i], rows))
  }

  lemma NextMarksUpTo(o: Oracle, from: nat, s0: State, s: State, ids: seq<Id>, rows: map<Id, Conn>, i: nat, used: nat,
                      attempted: set<Id>, x: Tally, acted: bool, y: Tally)
    requires i < |ids| && MarksUpTo(o, from, s0, ids, rows, i, used, attempted, x) && ConnRows(s0, ids, rows)
    requires Thinned(o, from, s0, s, x.rules, x.conns)
    requires y.tried == (if acted then 1 else 0) && y.rules == {} && y.conns == (if acted then {ids[i]} else {})
    requires Still(o, from) ==> (acted <==> IsStale(s, rows[ids[i]]))
    ensures MarksUpTo(o, from, s0, ids, rows, i + 1, if acted then used + 1 else used,
                      attempted + (if acted then {ids[i]} else {}), Joined(x, y))
  {
    assert Still(o, from) ==> s.entries == s0.entries;
    assert Still(o, from) ==> (IsStale(s, rows[ids[i]]) <==> IsStale(s0, rows[ids[i]]));
    NextStale(s0, ids, i, rows);
  }

  lemma NextStale(s: State, ids: seq<Id>, i: nat, rows: map<Id, Conn>)
    requires ConnRows(s, ids, rows) && i < |ids|
    ensures StaleIn(s, ids[..i + 1], rows) == StaleIn(s, ids[..i], rows) + (if IsStale(s, rows[ids[i]]) then {ids[i]} else {})
    ensures ids[i] !in StaleIn(s, ids[..i], rows)
  {
    assert ids[..i + 1] == ids[..i] + [ids[i]];
  }

  /** The connections in order, until the budget is used up. */
  method AttemptMarks(d: Device, ids: seq<Id>, rows: map<Id, Conn>, budget: nat)
      returns (ok: bool, used: nat, attempted: set<Id>, ghost x: Tally)
    requires d.Valid() && ConnRows(d.state, ids, rows)
    modifies d
    ensures d.Valid() && old(d.clock) <= d.clock && d.writes == old(d.writes)
    ensures Ran(d.oracle, old(d.clock), old(d.state), d.state, old(BookOf(d)), BookOf(d), x)
    ensures x.tried == used <= budget && x.rules == {} && x.conns == attempted
    ensures Still(d.oracle, old(d.clock)) ==> ok && Exactly(x.conns, used, budget, StaleIn(old(d.state), ids, rows))
  {
    ghost var s0, from, book0 := d.state, d.clock, BookOf(d);
    ok, used, attempted, x := true, 0, {}, NOTHING;
    WaitedNothing(d.oracle, from, s0);
    LookedRan(d.oracle, from, s0, s0, book0, book0);
    for i := 0 to |ids|
      invariant d.Valid() && from <= d.clock && d.writes == old(d.writes) && ConnRows(d.state, ids, rows) && ok
      invariant Ran(d.oracle, from, s0, d.state, book0, BookOf(d), x)
      invariant used <= budget && MarksUpTo(d.oracle, from, s0, ids, rows, i, used, attempted, x)
    {
      if used >= budget {
        assert StaleIn(s0, ids[..i], rows) <= StaleIn(s0, ids, rows);
        return;
      }
      ok, used, attempted, x := AttemptNext(d, ids, rows, i, used, attempted, x, s0, from, book0);
      if !ok { return; }
    }
    assert ids[..|ids|] == ids;
  }

  method AttemptNext(d: Device, ids: seq<Id>, rows: map<Id, Conn>, i: nat, used: nat, attempted: set<Id>, ghost x: Tally,
                     ghost s0: State, ghost from: nat, ghost book0: Book)
      returns (ok: bool, n: nat, tried: set<Id>, ghost z: Tally)
    requires d.Valid() && i < |ids| && ConnRows(d.state, ids, rows) && ConnRows(s0, ids, rows)
    requires WellFormed(s0) && from <= d.clock && Ran(d.oracle, from, s0, d.state, book0, BookOf(d), x)
    requires MarksUpTo(d.oracle, from, s0, ids, rows, i, used, attempted, x)
    modifies d
    ensures d.Valid() && from <= d.clock && d.writes == old(d.writes) && ConnRows(d.state, ids, rows)
    ensures Ran(d.oracle, from, s0, d.state, book0, BookOf(d), z)
    ensures used <= n <= used + 1 && MarksUpTo(d.oracle, from, s0, ids, rows, i + 1, n, tried, z)
    ensures Still(d.oracle, from) ==> ok
  {
    ghost var s, at, book := d.state, d.clock, BookOf(d);
    var acted;
    ghost var y;
    assert ids[i] in ids;
    ok, acted, y := ProcessMark(d, ids[i], rows[ids[i]]);
    RanChain(d.oracle, from, at, s0, s, d.state, book0, book, BookOf(d), x, y);
    ConnRowsLater(s, d.state, ids, rows);
    NextMarksUpTo(d.oracle, from, s0, s, ids, rows, i, used, attempted, x, acted, y);
    z := Joined(x, y);
    n, tried := if acted then used + 1 else used, attempted + (if acted then {ids[i]} else {});
  }

  /** Waits until a fresh print shows none of the attempted connections, twenty times at most. */
  method VerifyAbsent(d: Device, kind: MarkKind, attempted: set<Id>) returns (ok: bool)
    requires d.Valid()
    modifies d
    ensures Looked(d)
    ensures ok ==> attempted * MarkedConns(d.state, kind) == {}
    ensures Still(d.oracle, old(d.clock)) && attempted !! d.state.conns.Keys ==> ok
  {
    ghost var s0, from := d.state, d.clock;
    WaitedNothing(d.oracle, from, s0);
    for attempt := 0 to 20
      invariant Looked(d)
      invariant Still(d.oracle, from) && attempted !! d.state.conns.Keys ==> attempt == 0
    {
      ghost var s, at := d.state, d.clock;
      var taken, any := d.ShowsMarked(attempted, kind);
      WaitedChain(d.oracle, from, at, s0, s, d.state);
      if taken && !any { return true; }
    }
    ok := false;
  }

  /** One family of marks. */
  method ProcessMarks(d: Device, kind: MarkKind, ids: seq<Id>, rows: map<Id, Conn>, budget: nat)
      returns (ok: bool, used: nat, done: nat, ghost x: Tally)
    requires d.Valid() && ConnRows(d.state, ids, rows)
    modifies d
    ensures d.Valid() && old(d.clock) <= d.clock && d.writes == old(d.writes)
    ensures Ran(d.oracle, old(d.clock), old(d.state), d.state, old(BookOf(d)), BookOf(d), x)
    ensures x.tried == used <= budget && x.rules == {} && done == if ok then used else 0
    ensures Still(d.oracle, old(d.clock)) ==> ok && Exactly(x.conns, used, budget, StaleIn(old(d.state), ids, rows))
  {
    ghost var s0, from, book0 := d.state, d.clock, BookOf(d);
    done := 0;
    var attempted;
    ok, used, attempted, x := AttemptMarks(d, ids, rows, budget);
    if !ok || used == 0 { return; }
    ghost var s, at, book := d.state, d.clock, BookOf(d);
    ok := VerifyAbsent(d, kind, attempted);
    LookedRan(d.oracle, at, s, d.state, book, BookOf(d));
    RanChain(d.oracle, from, at, s0, s, d.state, book0, book, BookOf(d), x, NOTHING);
    JoinedNothing(x);
    if ok { done := used; }
  }

  /** The count before the scan. */
  method FewMarked(d: Device, kind: MarkKind) returns (few: bool)
    requires d.Valid()
    modifies d
    ensures Looked(d)
    ensures Still(d.oracle, old(d.clock)) && |MarkedConns(d.state, kind)| <= CAP ==> few
  {
    var taken, total := d.CountMarked(kind);
    few := taken && total <= CAP;
  }

  method CollectMarksOnce(d: Device, kind: MarkKind) returns (ok: bool, ids: seq<Id>, rows: map<Id, Conn>)
    requires d.Valid()
    modifies d
    ensures Looked(d)
    ensures ok ==> |ids| <= CAP && ConnRows(d.state, ids, rows) && StaleIn(d.state, ids, rows) == FamilyStale(d.state, kind)
    ensures Still(d.oracle, old(d.clock)) && |MarkedConns(d.state, kind)| <= CAP ==> ok
  {
    ghost var s0, from := d.state, d.clock;
    ids, rows := [], map[];
    ok := FewMarked(d, kind);
    if !ok { return; }
    ghost var s, at := d.state, d.clock;
    ok, ids, rows := d.MarkedRows(kind);
    WaitedChain(d.oracle, from, at, s0, s, d.state);
    ConnRowsOf(d.state, kind);
    ok := ok && |ids| <= CAP;
  }

  lemma ConnRowsOf(s: State, kind: MarkKind)
    requires WellFormed(s)
    ensures var ids := Sorted(MarkedConns(s, kind));
            ConnRows(s, ids, s.conns) && StaleIn(s, ids, s.conns) == FamilyStale(s, kind) && |ids| <= |MarkedConns(s, kind)|
  {}

  /** Up to three scans: the connection table changes while it is printed. */
  method CollectMarks(d: Device, kind: MarkKind) returns (ok: bool, ids: seq<Id>, rows: map<Id, Conn>)
    requires d.Valid()
    modifies d
    ensures Looked(d)
    ensures ok ==> |ids| <= CAP && ConnRows(d.state, ids, rows) && StaleIn(d.state, ids, rows) == FamilyStale(d.state, kind)
    ensures Still(d.oracle, old(d.clock)) && |MarkedConns(d.state, kind)| <= CAP ==> ok
  {
    ghost var s0, from := d.state, d.clock;
    ids, rows := [], map[];
    WaitedNothing(d.oracle, from, s0);
    for attempt := 0 to 3
      invariant Looked(d)
      invariant Still(d.oracle, from) && |MarkedConns(d.state, kind)| <= CAP ==> attempt == 0
    {
      ghost var s, at := d.state, d.clock;
      ok, ids, rows := CollectMarksOnce(d, kind);
      WaitedChain(d.oracle, from, at, s0, s, d.state);
      if ok { return; }
    }
    ok := false;
  }

  // ---- the run ----------------------------------------------------------------------------------------------------------

  datatype GcStats = GcStats(lazy: nat, marked: nat, actions: nat)

  /** The orphans of one family of rules, and the stale connections of one mark. */
  function FamilyOrphans(s: State, kind: MarkKind): set<Id> {
    set i | i in LazyMarking(s, kind) && IsOrphan(s, s.rules[i])
  }

  function FamilyStale(s: State, kind: MarkKind): set<Id> { set i | i in MarkedConns(s, kind) && IsStale(s, s.conns[i]) }

  predicate Capped(s: State) {
    forall kind: MarkKind :: |Marking(s, kind)| <= CAP && |MarkedConns(s, kind)| <= CAP
  }

  /** What one run on a router at a standstill removes, by family. */
  datatype Sweep = Sweep(testRules: set<Id>, okRules: set<Id>, testMarks: set<Id>, okMarks: set<Id>)

  ghost predicate SweepOf(s: State, t: State, x: Sweep) {
    && t == s.(rules := s.rules - (x.testRules + x.okRules), conns := s.conns - (x.testMarks + x.okMarks))
    && RuleShare(s, x.testRules, x.okRules) && MarkShare(s, x.testMarks, x.okMarks)
  }

  /** The rows of both families, read before anything is removed. */
  method ScanRules(d: Device)
      returns (ok: bool, testIds: seq<Id>, testRows: map<Id, Filter>, okIds: seq<Id>, okRows: map<Id, Filter>)
    requires d.Valid()
    modifies d
    ensures Looked(d)
    ensures ok ==> Rows(d.state, testIds, testRows) && Rows(d.state, okIds, okRows)
    ensures Still(d.oracle, old(d.clock)) && Capped(d.state) ==>
      && ok && OrphansIn(d.state, testIds, testRows) == FamilyOrphans(d.state, TestMark)
      && OrphansIn(d.state, okIds, okRows) == FamilyOrphans(d.state, OkMark)
  {
    ghost var s0, from := d.state, d.clock;
    okIds, okRows := [], map[];
    ok, testIds, testRows := CollectLazy(d, TestMark);
    if !ok { return; }
    ghost var s, at := d.state, d.clock;
    ok, okIds, okRows := CollectLazy(d, OkMark);
    WaitedChain(d.oracle, from, at, s0, s, d.state);
    RowsLater(s, d.state, testIds, testRows);
  }

  /** Both families of rules: scanned first, then thinned. */
  method SweepRules(d: Device)
      returns (ok: bool, used: nat, done: nat, ghost x: Tally, ghost test: set<Id>, ghost okay: set<Id>)
    requires d.Valid()
    modifies d
    ensures d.Valid() && old(d.clock) <= d.clock && d.writes == old(d.writes)
    ensures Ran(d.oracle, old(d.clock), old(d.state), d.state, old(BookOf(d)), BookOf(d), x)
    ensures x.tried == used <= 2 * LAZY_BUDGET && x.conns == {} && done <= used && (ok ==> done == used)
    ensures Still(d.oracle, old(d.clock)) && Capped(old(d.state)) ==>
      ok && x.rules == test + okay && RuleShare(old(d.state), test, okay)
  {
    ghost var s0, from, book0 := d.state, d.clock, BookOf(d);
    used, done, x, test, okay := 0, 0, NOTHING, {}, {};
    var testIds, testRows, okIds, okRows;
    ok, testIds, testRows, okIds, okRows := ScanRules(d);
    LookedRan(d.oracle, from, s0, d.state, book0, BookOf(d));
    if !ok { return; }
    ghost var s, at, book := d.state, d.clock, BookOf(d);
    ok, used, done, x, test, okay := ThinRules(d, testIds, testRows, okIds, okRows);
    RanChain(d.oracle, from, at, s0, s, d.state, book0, book, BookOf(d), NOTHING, x);
    JoinedNothing(x);
  }

  ghost predicate RuleShare(s: State, test: set<Id>, okay: set<Id>) {
    && |test| <= LAZY_BUDGET && Exactly(test, |test|, LAZY_BUDGET, FamilyOrphans(s, TestMark))
    && |okay| <= LAZY_BUDGET && Exactly(okay, |okay|, LAZY_BUDGET, FamilyOrphans(s, OkMark))
  }

  lemma SameOrphans(o: Oracle, from: nat, s: State, t: State, x: Tally, ids: seq<Id>, rows: map<Id, Filter>)
    requires Still(o, from) && Thinned(o, from, s, t, x.rules, x.conns)
    ensures OrphansIn(t, ids, rows) == OrphansIn(s, ids, rows)
  {
    forall i | i in ids && i in rows ensures IsOrphan(t, rows[i]) <==> IsOrphan(s, rows[i]) {}
  }

  /** A full share of the useless rules among the rows. */
  ghost predicate RowShare(s: State, ids: seq<Id>, rows: map<Id, Filter>, gone: set<Id>) {
    |gone| <= LAZY_BUDGET && Exactly(gone, |gone|, LAZY_BUDGET, OrphansIn(s, ids, rows))
  }

  method ThinRules(d: Device, testIds: seq<Id>, testRows: map<Id, Filter>, okIds: seq<Id>, okRows: map<Id, Filter>)
      returns (ok: bool, used: nat, done: nat, ghost x: Tally, ghost test: set<Id>, ghost okay: set<Id>)
    requires d.Valid() && Rows(d.state, testIds, testRows) && Rows(d.state, okIds, okRows)
    modifies d
    ensures d.Valid() && old(d.clock) <= d.clock && d.writes == old(d.writes)
    ensures Ran(d.oracle, old(d.clock), old(d.state), d.state, old(BookOf(d)), BookOf(d), x)
    ensures x.tried == used <= 2 * LAZY_BUDGET && x.conns == {} && done <= used && (ok ==> done == used)
    ensures Still(d.oracle, old(d.clock)) ==>
      && ok && x.rules == test + okay
      && RowShare(old(d.state), testIds, testRows, test) && RowShare(old(d.state), okIds, okRows, okay)
  {
    ghost var s0, from, book0 := d.state, d.clock, BookOf(d);
    ok, used, done, x := ProcessLazy(d, testIds, testRows, LAZY_BUDGET);
    test, okay := x.rules, {};
    if !ok { return; }
    ghost var s, at, book := d.state, d.clock, BookOf(d);
    RowsLater(s0, s, okIds, okRows);
    if Still(d.oracle, from) { SameOrphans(d.oracle, from, s0, s, x, okIds, okRows); }
    var n, m;
    ghost var y;
    ok, n, m, y := ProcessLazy(d, okIds, okRows, LAZY_BUDGET);
    RanChain(d.oracle, from, at, s0, s, d.state, book0, book, BookOf(d), x, y);
    used, done, x, okay := used + n, done + m, Joined(x, y), y.rules;
  }

  method ScanMarks(d: Device)
      returns (ok: bool, testIds: seq<Id>, testRows: map<Id, Conn>, okIds: seq<Id>, okRows: map<Id, Conn>)
    requires d.Valid()
    modifies d
    ensures Looked(d)
    ensures ok ==> ConnRows(d.state, testIds, testRows) && ConnRows(d.state, okIds, okRows)
    ensures Still(d.oracle, old(d.clock)) && Capped(d.state) ==>
      && ok && StaleIn(d.state, testIds, testRows) == FamilyStale(d.state, TestMark)
      && StaleIn(d.state, okIds, okRows) == FamilyStale(d.state, OkMark)
  {
    ghost var s0, from := d.state, d.clock;
    okIds, okRows := [], map[];
    ok, testIds, testRows := CollectMarks(d, TestMark);
    if !ok { return; }
    ghost var s, at := d.state, d.clock;
    ok, okIds, okRows := CollectMarks(d, OkMark);
    WaitedChain(d.oracle, from, at, s0, s, d.state);
    ConnRowsLater(s, d.state, testIds, testRows);
  }

  ghost predicate MarkShare(s: State, test: set<Id>, okay: set<Id>) {
    && |test| <= MARK_BUDGET && Exactly(test, |test|, MARK_BUDGET, FamilyStale(s, TestMark))
    && |okay| <= MARK_BUDGET && Exactly(okay, |okay|, MARK_BUDGET, FamilyStale(s, OkMark))
  }

  lemma SameStale(o: Oracle, from: nat, s: State, t: State, x: Tally, ids: seq<Id>, rows: map<Id, Conn>)
    requires Still(o, from) && Thinned(o, from, s, t, x.rules, x.conns)
    ensures StaleIn(t, ids, rows) == StaleIn(s, ids, rows)
  {
    forall i | i in ids && i in rows ensures IsStale(t, rows[i]) <==> IsStale(s, rows[i]) {}
  }

  /** A full share of the stale connections among the rows. */
  ghost predicate ConnShare(s: State, ids: seq<Id>, rows: map<Id, Conn>, gone: set<Id>) {
    |gone| <= MARK_BUDGET && Exactly(gone, |gone|, MARK_BUDGET, StaleIn(s, ids, rows))
  }

  method ThinMarks(d: Device, testIds: seq<Id>, testRows: map<Id, Conn>, okIds: seq<Id>, okRows: map<Id, Conn>)
      returns (ok: bool, used: nat, done: nat, ghost x: Tally, ghost test: set<Id>, ghost okay: set<Id>)
    requires d.Valid() && ConnRows(d.state, testIds, testRows) && ConnRows(d.state, okIds, okRows)
    modifies d
    ensures d.Valid() && old(d.clock) <= d.clock && d.writes == old(d.writes)
    ensures Ran(d.oracle, old(d.clock), old(d.state), d.state, old(BookOf(d)), BookOf(d), x)
    ensures x.tried == used <= 2 * MARK_BUDGET && x.rules == {} && done <= used && (ok ==> done == used)
    ensures Still(d.oracle, old(d.clock)) ==>
      && ok && x.conns == test + okay
      && ConnShare(old(d.state), testIds, testRows, test) && ConnShare(old(d.state), okIds, okRows, okay)
  {
    ghost var s0, from, book0 := d.state, d.clock, BookOf(d);
    ok, used, done, x := ProcessMarks(d, TestMark, testIds, testRows, MARK_BUDGET);
    test, okay := x.conns, {};
    if !ok { return; }
    ghost var s, at, book := d.state, d.clock, BookOf(d);
    ConnRowsLater(s0, s, okIds, okRows);
    if Still(d.oracle, from) { SameStale(d.oracle, from, s0, s, x, okIds, okRows); }
    var n, m;
    ghost var y;
    ok, n, m, y := ProcessMarks(d, OkMark, okIds, okRows, MARK_BUDGET);
    RanChain(d.oracle, from, at, s0, s, d.state, book0, book, BookOf(d), x, y);
    used, done, x, okay := used + n, done + m, Joined(x, y), y.conns;
  }

  method SweepMarks(d: Device)
      returns (ok: bool, used: nat, done: nat, ghost x: Tally, ghost test: set<Id>, ghost okay: set<Id>)
    requires d.Valid()
    modifies d
    ensures d.Valid() && old(d.clock) <= d.clock && d.writes == old(d.writes)
    ensures Ran(d.oracle, old(d.clock), old(d.state), d.state, old(BookOf(d)), BookOf(d), x)
    ensures x.tried == used <= 2 * MARK_BUDGET && x.rules == {} && done <= used && (ok ==> done == used)
    ensures Still(d.oracle, old(d.clock)) && Capped(old(d.state)) ==>
      ok && x.conns == test + okay && MarkShare(old(d.state), test, okay)
  {
    ghost var s0, from, book0 := d.state, d.clock, BookOf(d);
    used, done, x, test, okay := 0, 0, NOTHING, {}, {};
    var testIds, testRows, okIds, okRows;
    ok, testIds, testRows, okIds, okRows := ScanMarks(d);
    LookedRan(d.oracle, from, s0, d.state, book0, BookOf(d));
    if !ok { return; }
    ghost var s, at, book := d.state, d.clock, BookOf(d);
    ok, used, done, x, test, okay := ThinMarks(d, testIds, testRows, okIds, okRows);
    RanChain(d.oracle, from, at, s0, s, d.state, book0, book, BookOf(d), NOTHING, x);
    JoinedNothing(x);
  }

  // ---- failing safe ---------------------------------------------------------------------------------------------------

  /** Disables one scheduler and looks again. */
  method DisableScheduler(d: Device, n: Name) returns (ok: bool)
    requires d.Valid() && IsProd(n)
    modifies d
    ensures d.Valid() && old(d.clock) <= d.clock && d.writes == old(d.writes)
    ensures d.removals == old(d.removals) && old(d.trail) <= d.trail
    ensures d.state.scripts == old(d.state.scripts) && OnlyDisabled(old(d.state), d.state)
    ensures ok ==> n in d.state.schedulers && d.state.schedulers[n].disabled
  {
    ok := SwitchOff(d, n);
    if !ok { return; }
    var found;
    ok, found := d.LookupScheduler(n);
    ok := ok && found.Some? && found.value.disabled;
  }

  /** The scheduler is looked up, and the command is issued if it is there. */
  method SwitchOff(d: Device, n: Name) returns (taken: bool)
    requires d.Valid()
    modifies d
    ensures d.Valid() && old(d.clock) <= d.clock && d.writes == old(d.writes)
    ensures d.removals == old(d.removals) && old(d.trail) <= d.trail
    ensures d.state.scripts == old(d.state.scripts) && OnlyDisabled(old(d.state), d.state)
  {
    var found;
    taken, found := d.LookupScheduler(n);
    if !taken || found.None? { return false; }
    taken := d.SetDisabled(n, true);
  }

  /** Schedulers may only have been switched off. */
  predicate OnlyDisabled(s: State, t: State) {
    && t.schedulers.Keys == s.schedulers.Keys
    && forall n :: n in s.schedulers ==> t.schedulers[n] in {s.schedulers[n], s.schedulers[n].(disabled := true)}
  }

  datatype GcExit = Skipped | Swept | FailedSafe(paused: bool, muted: bool)

  /** Every scheduler is tried, then every adaptive rule. */
  method FailSafe(d: Device) returns (exit: GcExit)
    requires d.Valid()
    modifies d
    ensures d.Valid() && old(d.clock) <= d.clock && d.writes == old(d.writes)
    ensures d.removals == old(d.removals) && old(d.trail) <= d.trail
    ensures d.state.scripts == old(d.state.scripts) && OnlyDisabled(old(d.state), d.state)
    ensures exit.FailedSafe? && (exit.paused ==> forall k: Slot :: Managed(Prod, k) in d.state.schedulers && Paused(d.state))
    ensures exit.muted ==> AllAutoDisabled(d.state)
  {
    var paused := true;
    for k := 0 to 4
      invariant d.Valid() && old(d.clock) <= d.clock && d.writes == old(d.writes)
      invariant d.removals == old(d.removals) && old(d.trail) <= d.trail
      invariant d.state.scripts == old(d.state.scripts) && OnlyDisabled(old(d.state), d.state)
      invariant paused ==> forall i: Slot :: i < k ==>
        Managed(Prod, i) in d.state.schedulers && d.state.schedulers[Managed(Prod, i)].disabled
    {
      var ok := DisableScheduler(d, Managed(Prod, k));
      paused := paused && ok;
    }
    ghost var s := d.state;
    var muted := DisableAdaptiveMangle(d);
    exit := FailedSafe(paused, muted);
  }

  // ---- one run, and many -------------------------------------------------------------------------------------------------

  /** The removals since `before` are of rules up to number `n`, and of connections from there on. */
  predicate Parted(before: seq<Removal>, after: seq<Removal>, n: nat) {
    && |before| <= n <= |after|
    && (forall i :: |before| <= i < n ==> after[i].kind.AutoRules?)
    && (forall i :: n <= i < |after| ==> after[i].kind.Marks?)
  }

  /** At most eight removals of rules, then at most four of connections. */
  ghost predicate Budgeted(before: seq<Removal>, after: seq<Removal>) {
    exists n: nat :: Parted(before, after, n) && n - |before| <= 2 * LAZY_BUDGET && |after| - n <= 2 * MARK_BUDGET
  }

  lemma TwoShares(a: Book, b: Book, c: Book, x: Tally, y: Tally)
    requires Tallied(a, b, x) && x.conns == {} && x.tried <= 2 * LAZY_BUDGET
    requires Tallied(b, c, y) && y.rules == {} && y.tried <= 2 * MARK_BUDGET && b.log <= c.log
    ensures Budgeted(a.log, c.log)
  {
    assert Parted(a.log, c.log, |b.log|);
  }

  /** Rules, then marks. The last check of the number of actions against the total budget cannot fail. */
  method Collect(d: Device) returns (ok: bool, stats: GcStats, ghost x: Tally, ghost sweep: Sweep)
    requires d.Valid()
    modifies d
    ensures d.Valid() && old(d.clock) <= d.clock && d.writes == old(d.writes)
    ensures Ran(d.oracle, old(d.clock), old(d.state), d.state, old(BookOf(d)), BookOf(d), x)
    ensures Budgeted(old(d.removals), d.removals)
    ensures x.tried == stats.actions <= TOTAL_BUDGET && stats.lazy + stats.marked <= stats.actions
    ensures ok ==> stats.lazy + stats.marked == stats.actions
    ensures Still(d.oracle, old(d.clock)) && Capped(old(d.state)) ==> ok && SweepOf(old(d.state), d.state, sweep)
  {
    ghost var s0, from, book0 := d.state, d.clock, BookOf(d);
    sweep := Sweep({}, {}, {}, {});
    ghost var calm := Still(d.oracle, from) && Capped(s0);
    var lazy, thinned;
    ghost var lt, lo;
    ok, lazy, thinned, x, lt, lo := SweepRules(d);
    stats := GcStats(thinned, 0, lazy);
    ghost var s, at, book := d.state, d.clock, BookOf(d);
    if !ok {
      TwoShares(book0, book, book, x, NOTHING);
      return;
    }
    if calm { RulesAside(d.oracle, from, s0, s, x); }
    var marked, cleared;
    ghost var y;
    ghost var rules := x;
    ok, marked, cleared, x, y, sweep := CollectMarked(d, s0, from, book0, x, lt, lo, calm);
    TwoShares(book0, book, BookOf(d), rules, y);
    stats := GcStats(thinned, cleared, lazy + marked);
    ok := ok && stats.actions <= TOTAL_BUDGET;
  }

  /** The second half, and what both halves come to. */
  method CollectMarked(d: Device, ghost s0: State, ghost from: nat, ghost book0: Book, ghost x: Tally,
                       ghost lt: set<Id>, ghost lo: set<Id>, ghost calm: bool)
      returns (ok: bool, marked: nat, cleared: nat, ghost z: Tally, ghost y: Tally, ghost sweep: Sweep)
    requires d.Valid() && from <= d.clock && Ran(d.oracle, from, s0, d.state, book0, BookOf(d), x) && x.conns == {}
    requires WellFormed(s0) && (calm ==> Still(d.oracle, from) && Capped(s0) && Capped(d.state))
    requires calm ==> x.rules == lt + lo && RuleShare(s0, lt, lo)
    modifies d
    ensures d.Valid() && old(d.clock) <= d.clock && d.writes == old(d.writes)
    ensures Ran(d.oracle, from, s0, d.state, book0, BookOf(d), z)
    ensures Tallied(old(BookOf(d)), BookOf(d), y) && y.rules == {} && old(d.removals) <= d.removals
    ensures z.tried == x.tried + y.tried && y.tried == marked <= 2 * MARK_BUDGET
    ensures cleared <= marked && (ok ==> cleared == marked)
    ensures calm ==> ok && SweepOf(s0, d.state, sweep)
  {
    ghost var s, at, book := d.state, d.clock, BookOf(d);
    ghost var mt, mo;
    ok, marked, cleared, y, mt, mo := SweepMarks(d);
    RanChain(d.oracle, from, at, s0, s, d.state, book0, book, BookOf(d), x, y);
    z, sweep := Joined(x, y), Sweep(lt, lo, mt, mo);
    if calm { SweepFrom(d.oracle, from, at, s0, s, d.state, x, y, sweep); }
  }

  lemma SweepFrom(o: Oracle, from: nat, at: nat, s: State, mid: State, t: State,
                  x: Tally, y: Tally, sweep: Sweep)
    requires Still(o, from) && from <= at && Capped(s) && WellFormed(s)
    requires Thinned(o, from, s, mid, x.rules, x.conns) && Thinned(o, at, mid, t, y.rules, y.conns)
    requires x.conns == {} && x.rules == sweep.testRules + sweep.okRules && RuleShare(s, sweep.testRules, sweep.okRules)
    requires y.rules == {} && y.conns == sweep.testMarks + sweep.okMarks && MarkShare(mid, sweep.testMarks, sweep.okMarks)
    ensures SweepOf(s, t, sweep)
  {
    RulesAside(o, from, s, mid, x);
    SameShare(s, mid, sweep.testMarks, sweep.okMarks);
    ThinTwice(s, mid, t, x.rules, y.conns);
  }

  lemma ThinTwice(s: State, mid: State, t: State, rules: set<Id>, conns: set<Id>)
    requires mid == s.(rules := s.rules - rules, conns := s.conns - {})
    requires t == mid.(rules := mid.rules - {}, conns := mid.conns - conns)
    ensures t == s.(rules := s.rules - rules, conns := s.conns - conns)
  {
    assert s.conns - {} == s.conns && mid.rules - {} == mid.rules;
  }

  lemma SameShare(s: State, t: State, mt: set<Id>, mo: set<Id>)
    requires (forall kind :: FamilyStale(t, kind) == FamilyStale(s, kind)) && MarkShare(t, mt, mo)
    ensures MarkShare(s, mt, mo)
  {
    assert FamilyStale(t, TestMark) == FamilyStale(s, TestMark) && FamilyStale(t, OkMark) == FamilyStale(s, OkMark);
  }

  /** Thinning the rules leaves the marks as they were. */
  lemma RulesAside(o: Oracle, from: nat, s: State, t: State, x: Tally)
    requires Capped(s) && Still(o, from) && Thinned(o, from, s, t, x.rules, x.conns) && x.conns == {}
    ensures Capped(t) && forall kind :: FamilyStale(t, kind) == FamilyStale(s, kind)
  {
    assert s.conns - {} == s.conns;
    forall kind ensures |Marking(t, kind)| <= CAP && |MarkedConns(t, kind)| <= CAP {
      SubsetSize(Marking(t, kind), Marking(s, kind));
      assert MarkedConns(t, kind) == MarkedConns(s, kind);
    }
  }

  /** One run. Nothing is changed unless the four production scripts are the desired ones; at most twelve removals are
      issued, each warranted by the two reads before it, and never one of an address-list entry. */
  method RunOnce(d: Device, desired: seq<string>) returns (exit: GcExit, stats: GcStats, ghost sweep: Sweep)
    requires d.Valid() && |desired| == 4
    modifies d
    ensures d.Valid() && old(d.clock) <= d.clock && d.writes == old(d.writes) && d.state.scripts == old(d.state.scripts)
    ensures Justly(old(BookOf(d)), BookOf(d)) && Budgeted(old(d.removals), d.removals)
    ensures stats.actions == |d.removals| - |old(d.removals)| <= TOTAL_BUDGET
    ensures stats.lazy + stats.marked <= stats.actions && (exit.Swept? ==> stats.lazy + stats.marked == stats.actions)
    ensures exit.Skipped? ==> Looked(d)
    ensures !exit.Skipped? ==> AllVerified(d.oracle.digest, d.state, Prod, desired)
    ensures exit.Swept? ==> d.state.schedulers == old(d.state.schedulers)
    ensures exit.FailedSafe? && exit.paused ==> Paused(d.state)
    ensures exit.FailedSafe? && exit.muted ==> AllAutoDisabled(d.state)
    ensures OnlyDisabled(old(d.state), d.state)
    ensures Still(d.oracle, old(d.clock)) && Normal(d.oracle.digest, old(d.state), desired) && Capped(old(d.state)) ==>
      exit.Swept? && SweepOf(old(d.state), d.state, sweep)
    ensures Still(d.oracle, old(d.clock)) && !Normal(d.oracle.digest, old(d.state), desired) ==>
      exit.Skipped? && d.state == old(d.state)
  {
    stats, sweep := GcStats(0, 0, 0), Sweep({}, {}, {}, {});
    ghost var book0 := BookOf(d);
    var gate := RuntimeGate(d, desired);
    NothingIssued(book0, BookOf(d));
    if gate.Skip? { return Skipped, stats, sweep; }
    ghost var book := BookOf(d);
    if gate.Uncertain? {
      exit := FailSafe(d);
      NothingIssued(book0, BookOf(d));
      return;
    }
    exit, stats, sweep := CollectOrFail(d);
    JustlyChain(book0, book, BookOf(d));
  }

  /** What the gate lets through: a collection, and the emergency exit if it fails. */
  method CollectOrFail(d: Device) returns (exit: GcExit, stats: GcStats, ghost sweep: Sweep)
    requires d.Valid()
    modifies d
    ensures d.Valid() && old(d.clock) <= d.clock && d.writes == old(d.writes) && d.state.scripts == old(d.state.scripts)
    ensures Justly(old(BookOf(d)), BookOf(d)) && Budgeted(old(d.removals), d.removals)
    ensures stats.actions == |d.removals| - |old(d.removals)| <= TOTAL_BUDGET
    ensures stats.lazy + stats.marked <= stats.actions && (exit.Swept? ==> stats.lazy + stats.marked == stats.actions)
    ensures !exit.Skipped? && (exit.Swept? ==> d.state.schedulers == old(d.state.schedulers))
    ensures exit.FailedSafe? && exit.paused ==> Paused(d.state)
    ensures exit.FailedSafe? && exit.muted ==> AllAutoDisabled(d.state)
    ensures OnlyDisabled(old(d.state), d.state)
    ensures Still(d.oracle, old(d.clock)) && Capped(old(d.state)) ==> exit.Swept? && SweepOf(old(d.state), d.state, sweep)
  {
    ghost var book0 := BookOf(d);
    var ok;
    ghost var x;
    ok, stats, x, sweep := Collect(d);
    exit := Swept;
    if !ok {
      ghost var book := BookOf(d);
      exit := FailSafe(d);
      NothingIssued(book, BookOf(d));
      JustlyChain(book0, book, BookOf(d));
    }
  }

  lemma NothingIssued(a: Book, b: Book)
    requires b.log == a.log && a.trail <= b.trail
    ensures Justly(a, b) && Budgeted(a.log, b.log)
  {
    assert Parted(a.log, b.log, |a.log|);
  }

  /** Only useless rules and stale connections are gone. */
  ghost predicate LiveKept(s: State, t: State) {
    && t == s.(rules := t.rules, conns := t.conns)
    && (forall i :: i in t.rules ==> i in s.rules && t.rules[i] == s.rules[i])
    && (forall i :: i in s.rules && i !in t.rules ==> s.rules[i].match_.mark.Marked? && IsOrphan(s, s.rules[i]))
    && (forall i :: i in t.conns ==> i in s.conns && t.conns[i] == s.conns[i])
    && (forall i :: i in s.conns && i !in t.conns ==> IsStale(s, s.conns[i]))
  }

  function Less(n: nat, share: nat): nat { if n < share then 0 else n - share }

  function RuleSet(x: Sweep, kind: MarkKind): set<Id> { if kind.TestMark? then x.testRules else x.okRules }

  function MarkSet(x: Sweep, kind: MarkKind): set<Id> { if kind.TestMark? then x.testMarks else x.okMarks }

  lemma SweepRuleFamily(s: State, t: State, x: Sweep, kind: MarkKind)
    requires SweepOf(s, t, x)
    ensures FamilyOrphans(t, kind) == FamilyOrphans(s, kind) - RuleSet(x, kind)
    ensures |FamilyOrphans(t, kind)| == Less(|FamilyOrphans(s, kind)|, LAZY_BUDGET)
  {
    var gone := RuleSet(x, kind);
    RulesThinned(s, t, x.testRules + x.okRules, kind);
    RulesOfOwn(s, x, kind);
    ExactlyCounts(gone, |gone|, LAZY_BUDGET, FamilyOrphans(s, kind));
  }

  lemma RulesOfOwn(s: State, x: Sweep, kind: MarkKind)
    requires x.testRules <= FamilyOrphans(s, TestMark) && x.okRules <= FamilyOrphans(s, OkMark)
    ensures FamilyOrphans(s, kind) - (x.testRules + x.okRules) == FamilyOrphans(s, kind) - RuleSet(x, kind)
  {
    RulesApart(s, x);
  }

  lemma RulesThinned(s: State, t: State, gone: set<Id>, kind: MarkKind)
    requires t.rules == s.rules - gone && t.entries == s.entries
    ensures FamilyOrphans(t, kind) == FamilyOrphans(s, kind) - gone
  {
    forall i ensures i in FamilyOrphans(t, kind) <==> i in FamilyOrphans(s, kind) && i !in gone {}
  }

  /** A rule gives one mark only. */
  lemma RulesApart(s: State, x: Sweep)
    requires x.testRules <= FamilyOrphans(s, TestMark) && x.okRules <= FamilyOrphans(s, OkMark)
    ensures x.testRules !! FamilyOrphans(s, OkMark) && x.okRules !! FamilyOrphans(s, TestMark)
  {}

  lemma SweepMarkFamily(s: State, t: State, x: Sweep, kind: MarkKind)
    requires SweepOf(s, t, x)
    ensures FamilyStale(t, kind) == FamilyStale(s, kind) - MarkSet(x, kind)
    ensures |FamilyStale(t, kind)| == Less(|FamilyStale(s, kind)|, MARK_BUDGET)
  {
    var gone := MarkSet(x, kind);
    MarksThinned(s, t, x.testMarks + x.okMarks, kind);
    MarksOfOwn(s, x, kind);
    ExactlyCounts(gone, |gone|, MARK_BUDGET, FamilyStale(s, kind));
  }

  lemma MarksOfOwn(s: State, x: Sweep, kind: MarkKind)
    requires x.testMarks <= FamilyStale(s, TestMark) && x.okMarks <= FamilyStale(s, OkMark)
    ensures FamilyStale(s, kind) - (x.testMarks + x.okMarks) == FamilyStale(s, kind) - MarkSet(x, kind)
  {
    MarksApart(s, x);
  }

  lemma MarksThinned(s: State, t: State, gone: set<Id>, kind: MarkKind)
    requires t.conns == s.conns - gone && t.entries == s.entries
    ensures FamilyStale(t, kind) == FamilyStale(s, kind) - gone
  {
    forall i ensures i in FamilyStale(t, kind) <==> i in FamilyStale(s, kind) && i !in gone {}
  }

  lemma MarksApart(s: State, x: Sweep)
    requires x.testMarks <= FamilyStale(s, TestMark) && x.okMarks <= FamilyStale(s, OkMark)
    ensures x.testMarks !! FamilyStale(s, OkMark) && x.okMarks !! FamilyStale(s, TestMark)
  {}

  /** A sweep keeps what is alive, and the conditions for the next one. */
  lemma SweepKeeps(h: string -> nat, s: State, t: State, x: Sweep, desired: seq<string>)
    requires SweepOf(s, t, x) && Normal(h, s, desired) && Capped(s)
    ensures LiveKept(s, t) && Normal(h, t, desired) && Capped(t)
  {
    assert x.testRules <= FamilyOrphans(s, TestMark) && x.okRules <= FamilyOrphans(s, OkMark);
    assert x.testMarks <= FamilyStale(s, TestMark) && x.okMarks <= FamilyStale(s, OkMark);
    forall c | c in FIXED ensures Single(t, c) {
      FixedIsNotLazy(c);
      assert Commented(t, c) == Commented(s, c);
      assert Single(s, c);
    }
    forall kind ensures |Marking(t, kind)| <= CAP && |MarkedConns(t, kind)| <= CAP {
      SubsetSize(Marking(t, kind), Marking(s, kind));
      SubsetSize(MarkedConns(t, kind), MarkedConns(s, kind));
    }
    forall k: Slot ensures Active(t, Managed(Prod, k)) { assert Active(s, Managed(Prod, k)); }
  }

  lemma FixedIsNotLazy(c: Comment)
    ensures c in FIXED ==> !c.Lazy?
  {}

  lemma LiveKeptChain(s: State, t: State, u: State)
    requires LiveKept(s, t) && LiveKept(t, u)
    ensures LiveKept(s, u)
  {
    forall i | i in s.rules && i !in u.rules ensures s.rules[i].match_.mark.Marked? && IsOrphan(s, s.rules[i]) {
      if i in t.rules { assert IsOrphan(t, t.rules[i]); }
    }
    forall i | i in s.conns && i !in u.conns ensures IsStale(s, s.conns[i]) {
      if i in t.conns { assert IsStale(t, t.conns[i]); }
    }
  }

  /** What is left of every family after `n` runs. */
  ghost predicate After(s: State, t: State, n: nat) {
    forall kind: MarkKind ::
      && |FamilyOrphans(t, kind)| == Less(|FamilyOrphans(s, kind)|, n * LAZY_BUDGET)
      && |FamilyStale(t, kind)| == Less(|FamilyStale(s, kind)|, n * MARK_BUDGET)
  }

  lemma AfterOneMore(s: State, t: State, u: State, n: nat, x: Sweep)
    requires After(s, t, n) && SweepOf(t, u, x)
    ensures After(s, u, n + 1)
  {
    forall kind: MarkKind
      ensures |FamilyOrphans(u, kind)| == Less(|FamilyOrphans(s, kind)|, (n + 1) * LAZY_BUDGET)
      ensures |FamilyStale(u, kind)| == Less(|FamilyStale(s, kind)|, (n + 1) * MARK_BUDGET)
    {
      SweepRuleFamily(t, u, x, kind);
      SweepMarkFamily(t, u, x, kind);
    }
  }

  /** On a router at a standstill every run takes its full share of every family: after `n` runs exactly what exceeds
      `n` budgets is left, and everything alive is untouched. */
  method RunMany(d: Device, desired: seq<string>, n: nat) returns (passed: bool)
    requires d.Valid() && |desired| == 4
    modifies d
    ensures d.Valid()
    ensures Still(d.oracle, old(d.clock)) && Normal(d.oracle.digest, old(d.state), desired) && Capped(old(d.state)) ==>
      passed && After(old(d.state), d.state, n) && LiveKept(old(d.state), d.state)
  {
    passed := true;
    ghost var s0, from := d.state, d.clock;
    ghost var calm := Still(d.oracle, from) && Normal(d.oracle.digest, s0, desired) && Capped(s0);
    for i := 0 to n
      invariant d.Valid() && from <= d.clock
      invariant calm ==> passed && After(s0, d.state, i) && LiveKept(s0, d.state)
      invariant calm ==> Normal(d.oracle.digest, d.state, desired) && Capped(d.state)
    {
      ghost var s := d.state;
      ghost var sweep;
      var exit, stats;
      exit, stats, sweep := RunOnce(d, desired);
      passed := passed && exit.Swept?;
      if calm {
        SweepKeeps(d.oracle.digest, s, d.state, sweep, desired);
        LiveKeptChain(s0, s, d.state);
        AfterOneMore(s0, s, d.state, i, sweep);
      }
    }
  }

  /** So everything useless is gone after as many runs as the largest family needs. */
  lemma NothingLeft(s: State, t: State, n: nat)
    requires After(s, t, n)
    requires forall kind: MarkKind ::
      |FamilyOrphans(s, kind)| <= n * LAZY_BUDGET && |FamilyStale(s, kind)| <= n * MARK_BUDGET
    ensures forall kind: MarkKind :: FamilyOrphans(t, kind) == {} && FamilyStale(t, kind) == {}
  {
    forall kind: MarkKind ensures FamilyOrphans(t, kind) == {} && FamilyStale(t, kind) == {} {
      assert |FamilyOrphans(t, kind)| == 0 && |FamilyStale(t, kind)| == 0;
    }
  }
}
