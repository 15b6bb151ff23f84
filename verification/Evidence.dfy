/** The evidence of one (protocol, address, port) tuple under the three accuracy profiles, as a machine over
    observations, expiries and health sweeps. Every router command a step issues may be rejected. */
module Evidence {

  datatype Profile = Fast | Middle | Slow

  type ConnId = nat

  /** The tuple's entries in its seven state lists. An entry is represented by the connection it was written for,
      which is what the comment of a DIRECT1, AWG1 or RECHECK entry says. */
  datatype Cells = Cells(
    watch: seq<ConnId>, test: seq<ConnId>, ok: seq<ConnId>, cooldown: seq<ConnId>,
    direct1: seq<ConnId>, awg1: seq<ConnId>, recheck: seq<ConnId>)

  const NO_CELLS := Cells([], [], [], [], [], [], [])

  /** The router commands of the flow bodies that change or read the lists, by the place that issues them. */
  datatype Command =
    | StaleRecheck | StaleAwg1 | StaleDirect1 | Direct1Read | Direct1Add | Direct1Clear | RecheckClear
    | WatchClear | WatchAdd | TestAdd
    | Awg1Read | Awg1Add | OldRecheckClear | RecheckAdd | TestClear
    | QuietWatch | QuietCooldown | QuietDirect1
    | ResetAwg1 | ResetRecheck | ResetDirect1 | ResetWatch | ResetTest
    | OkAdd | DropOk | DropTest | DropWatch | DropCooldown | DropDirect1 | DropAwg1 | DropRecheck
    | CooldownAdd | RefreshDrop | RefreshAdd
    | LazyOkAdd | LazyTestAdd | LazyDupRemove | TestRuleRemove | ConnectionRemove

  /** The commands the router refuses during one step; a refused command has no effect. */
  type Rejected = set<Command>

  function Clear(entries: seq<ConnId>, c: Command, rejected: Rejected): seq<ConnId> {
    if c in rejected then entries else []
  }

  function Add(entries: seq<ConnId>, id: ConnId, c: Command, rejected: Rejected): seq<ConnId> {
    if c in rejected then entries else entries + [id]
  }

  // ---- FAST and SOFT --------------------------------------------------------------------------

  /** No OK, TEST or COOLDOWN entry: a failure on DIRECT is considered at all. */
  predicate Open(c: Cells) { c.ok == [] && c.test == [] && c.cooldown == [] }

  /** AWG1 and RECHECK both present: the failure answers the SLOW re-check. */
  predicate Rechecking(c: Cells) { c.awg1 != [] && c.recheck != [] }

  /** Exactly one of AWG1 and RECHECK survived: SLOW throws the remains away. */
  predicate Stale(p: Profile, c: Cells) { p.Slow? && !Rechecking(c) && (c.awg1 != [] || c.recheck != []) }

  function DropStale(p: Profile, c: Cells, rejected: Rejected): Cells {
    if Stale(p, c) then
      c.(recheck := Clear(c.recheck, StaleRecheck, rejected),
         awg1 := Clear(c.awg1, StaleAwg1, rejected),
         direct1 := Clear(c.direct1, StaleDirect1, rejected))
    else c
  }

  datatype Verdict = Stop | FirstEvidence | Proceed

  /** What a failure seen on connection `id` does, once stale evidence is out of the way. */
  function Weigh(p: Profile, before: Cells, c: Cells, id: ConnId, rejected: Rejected): Verdict {
    if Stale(p, before) && (StaleRecheck in rejected || StaleAwg1 in rejected || StaleDirect1 in rejected) then Stop
    else if p.Fast? || (p.Slow? && Rechecking(before)) then Proceed
    else if c.direct1 == [] then FirstEvidence
    else if Direct1Read in rejected || id in c.direct1 then Stop
    else Proceed
  }

  /** Evidence cleared before TEST: whether the cleanup was complete, and what is left. */
  function Settle(p: Profile, before: Cells, c: Cells, rejected: Rejected): (bool, Cells) {
    if p.Fast? then (true, c)
    else
      var d := c.(direct1 := Clear(c.direct1, Direct1Clear, rejected));
      if p.Middle? then (d.direct1 == [] && Direct1Clear !in rejected, d)
      else if Rechecking(before) then
        var e := d.(recheck := Clear(d.recheck, RecheckClear, rejected));
        (Direct1Clear !in rejected && RecheckClear !in rejected, e)
      else (Direct1Clear !in rejected && d.awg1 == [] && d.recheck == [], d)
  }

  /** FAST or SOFT sees a failure on an unmarked DIRECT connection; `rulesReady` says whether the two per-port
      marking rules exist, exactly once each, after the body has tried to create them. */
  function DirectFailure(p: Profile, c: Cells, id: ConnId, rulesReady: bool, rejected: Rejected): Cells {
    if !Open(c) then c
    else
      var d := DropStale(p, c, rejected);
      match Weigh(p, c, d, id, rejected)
      case Stop => d
      case FirstEvidence => d.(direct1 := Add(d.direct1, id, Direct1Add, rejected))
      case Proceed =>
        if !rulesReady then d
        else
          var (settled, e) := Settle(p, c, d, rejected);
          if !settled then e
          else e.(watch := Clear(e.watch, WatchClear, rejected), test := Add(e.test, id, TestAdd, rejected))
  }

  /** SOFT sees a late stall: the first one opens a WATCH window, one in the last half of the window counts as a
      failure. */
  function LateStall(p: Profile, c: Cells, id: ConnId, ripe: bool, rulesReady: bool, rejected: Rejected): Cells {
    if c.watch == [] then
      if Open(c) then c.(watch := Add(c.watch, id, WatchAdd, rejected)) else c
    else if ripe then DirectFailure(p, c, id, rulesReady, rejected)
    else c
  }

  // ---- JUDGE ------------------------------------------------------------------------------------

  function Confirm(c: Cells, id: ConnId, rejected: Rejected): Cells {
    if c.ok == [] && OkAdd in rejected then c // the error leaves the flow body
    else c.(ok := if c.ok == [] then [id] else c.ok,
            test := Clear(c.test, DropTest, rejected),
            watch := Clear(c.watch, DropWatch, rejected),
            cooldown := Clear(c.cooldown, DropCooldown, rejected),
            direct1 := Clear(c.direct1, DropDirect1, rejected),
            awg1 := Clear(c.awg1, DropAwg1, rejected),
            recheck := Clear(c.recheck, DropRecheck, rejected))
  }

  function Reset(c: Cells, rejected: Rejected): Cells {
    c.(awg1 := Clear(c.awg1, ResetAwg1, rejected),
       recheck := Clear(c.recheck, ResetRecheck, rejected),
       direct1 := Clear(c.direct1, ResetDirect1, rejected),
       watch := Clear(c.watch, ResetWatch, rejected),
       test := Clear(c.test, ResetTest, rejected))
  }

  /** First healthy AWG connection under SLOW: remember it and send the tuple back to DIRECT. */
  function SendBack(c: Cells, id: ConnId, rejected: Rejected): Cells {
    if OldRecheckClear in rejected then Reset(c, rejected)
    else
      var d := c.(recheck := []);
      if Awg1Add in rejected then Reset(d, rejected)
      else
        var e := d.(awg1 := d.awg1 + [id]);
        if RecheckAdd in rejected then Reset(e, rejected)
        else
          var g := e.(recheck := [id]);
          if TestClear in rejected then Reset(g, rejected)
          else g.(test := [],
                  watch := Clear(g.watch, QuietWatch, rejected),
                  cooldown := Clear(g.cooldown, QuietCooldown, rejected),
                  direct1 := Clear(g.direct1, QuietDirect1, rejected))
  }

  /** JUDGE sees a healthy connection carrying the TEST mark while the tuple is in TEST. */
  function TestHealthy(p: Profile, c: Cells, id: ConnId, rejected: Rejected): Cells {
    if c.test == [] then c
    else match p
      case Fast => Confirm(c, id, rejected)
      case Middle =>
        if c.awg1 == [] then c.(awg1 := Add(c.awg1, id, Awg1Add, rejected))
        else if Awg1Read in rejected || id in c.awg1 then c
        else Confirm(c, id, rejected)
      case Slow =>
        if c.awg1 == [] then SendBack(c, id, rejected)
        else if |c.awg1| != 1 || c.recheck != [] then Reset(c, rejected)
        else if Awg1Read in rejected || id in c.awg1 then c
        else Confirm(c, id, rejected)
  }

  function Fail(c: Cells, id: ConnId, rejected: Rejected): Cells {
    var d := c.(test := Clear(c.test, DropTest, rejected),
                watch := Clear(c.watch, DropWatch, rejected),
                direct1 := Clear(c.direct1, DropDirect1, rejected),
                awg1 := Clear(c.awg1, DropAwg1, rejected),
                recheck := Clear(c.recheck, DropRecheck, rejected));
    if d.cooldown == [] then d.(cooldown := Add(d.cooldown, id, CooldownAdd, rejected)) else d
  }

  /** JUDGE sees a dead connection carrying the TEST mark while the tuple is in TEST. */
  function TestFailed(c: Cells, id: ConnId, rejected: Rejected): Cells {
    if c.test == [] then c else Fail(c, id, rejected)
  }

  /** JUDGE sees a dead connection carrying the OK mark. */
  function OkFailed(c: Cells, id: ConnId, rejected: Rejected): Cells {
    if c.ok == [] then c else Fail(c.(ok := Clear(c.ok, DropOk, rejected)), id, rejected)
  }

  /** JUDGE sees a healthy connection carrying the OK mark: an entry in the second half of its life is renewed. */
  function OkHealthy(c: Cells, aging: bool, rejected: Rejected): Cells {
    if c.ok == [] || !aging || RefreshDrop in rejected then c
    else if RefreshAdd in rejected then c.(ok := [])
    else c
  }

  // ---- runs ---------------------------------------------------------------------------------------

  datatype Event =
    | Failure(id: ConnId, rulesReady: bool, rejected: Rejected)
    | Stall(id: ConnId, ripe: bool, rulesReady: bool, rejected: Rejected)
    | GoodTest(id: ConnId, rejected: Rejected)
    | BadTest(id: ConnId, rejected: Rejected)
    | BadOk(id: ConnId, rejected: Rejected)
    | GoodOk(aging: bool, rejected: Rejected)
    | Lapse(keep: Cells)                    // any entries expire, or HEALTH sweeps them

  /** What a run has seen, oldest first; an observation counts only if the tuple was in a state to use it. */
  datatype Observation =
    | DirectFailed(id: ConnId, rechecking: bool)
    | AwgHealthy(id: ConnId)

  function Kept(entries: seq<ConnId>, keep: seq<ConnId>): seq<ConnId> {
    if entries == [] then []
    else (if entries[0] in keep then [entries[0]] else []) + Kept(entries[1..], keep)
  }

  function Expire(c: Cells, keep: Cells): Cells {
    Cells(Kept(c.watch, keep.watch), Kept(c.test, keep.test), Kept(c.ok, keep.ok), Kept(c.cooldown, keep.cooldown),
          Kept(c.direct1, keep.direct1), Kept(c.awg1, keep.awg1), Kept(c.recheck, keep.recheck))
  }

  function Next(p: Profile, c: Cells, e: Event): Cells {
    match e
    case Failure(id, ready, rejected) => DirectFailure(p, c, id, ready, rejected)
    case Stall(id, ripe, ready, rejected) => LateStall(p, c, id, ripe, ready, rejected)
    case GoodTest(id, rejected) => TestHealthy(p, c, id, rejected)
    case BadTest(id, rejected) => TestFailed(c, id, rejected)
    case BadOk(id, rejected) => OkFailed(c, id, rejected)
    case GoodOk(aging, rejected) => OkHealthy(c, aging, rejected)
    case Lapse(keep) => Expire(c, keep)
  }

  function Seen(c: Cells, e: Event): seq<Observation> {
    match e
    case Failure(id, _, _) => if Open(c) then [DirectFailed(id, Rechecking(c))] else []
    case Stall(id, ripe, _, _) => if c.watch != [] && ripe && Open(c) then [DirectFailed(id, Rechecking(c))] else []
    case GoodTest(id, _) => if c.test != [] then [AwgHealthy(id)] else []
    case _ => []
  }

  datatype Track = Track(cells: Cells, history: seq<Observation>)

  function Step(p: Profile, t: Track, e: Event): Track {
    Track(Next(p, t.cells, e), t.history + Seen(t.cells, e))
  }

  function Run(p: Profile, events: seq<Event>): Track {
    if events == [] then Track(NO_CELLS, [])
    else Step(p, Run(p, events[..|events| - 1]), events[|events| - 1])
  }

  // ---- what a confirmation rests on --------------------------------------------------------------

  ghost predicate OneDirect(h: seq<Observation>, a: ConnId) {
    exists i :: 0 <= i < |h| && h[i].DirectFailed? && h[i].id == a
  }

  /** Two failures on DIRECT, seen on different connections. */
  ghost predicate TwoDirect(h: seq<Observation>) {
    exists i, j :: 0 <= i < j < |h| && h[i].DirectFailed? && h[j].DirectFailed? && h[i].id != h[j].id
  }

  /** ... followed by a healthy AWG connection `c`. */
  ghost predicate ThenAwg(h: seq<Observation>, c: ConnId) {
    exists k :: 0 <= k < |h| && h[k] == AwgHealthy(c) && TwoDirect(h[..k])
  }

  /** ... followed by a failure on DIRECT while AWG1 and RECHECK were both present. */
  ghost predicate ThenRecheck(h: seq<Observation>, c: ConnId) {
    exists l :: 0 <= l < |h| && h[l].DirectFailed? && h[l].rechecking && ThenAwg(h[..l], c)
  }

  ghost predicate FastHistory(h: seq<Observation>) {
    exists i, k :: 0 <= i < k < |h| && h[i].DirectFailed? && h[k].AwgHealthy?
  }

  ghost predicate MiddleHistory(h: seq<Observation>) {
    exists m, c :: 0 <= m < |h| && h[m].AwgHealthy? && c != h[m].id && ThenAwg(h[..m], c)
  }

  ghost predicate SlowHistory(h: seq<Observation>) {
    exists m, c :: 0 <= m < |h| && h[m].AwgHealthy? && c != h[m].id && ThenRecheck(h[..m], c)
  }

  lemma Prefixes(h: seq<Observation>, x: seq<Observation>, i: nat)
    requires i <= |h|
    ensures (h + x)[..i] == h[..i]
  {}

  lemma HistoryGrows(h: seq<Observation>, x: seq<Observation>)
    ensures forall a :: OneDirect(h, a) ==> OneDirect(h + x, a)
    ensures TwoDirect(h) ==> TwoDirect(h + x)
    ensures forall c :: ThenAwg(h, c) ==> ThenAwg(h + x, c)
    ensures forall c :: ThenRecheck(h, c) ==> ThenRecheck(h + x, c)
    ensures FastHistory(h) ==> FastHistory(h + x)
    ensures MiddleHistory(h) ==> MiddleHistory(h + x)
    ensures SlowHistory(h) ==> SlowHistory(h + x)
  {
    var g := h + x;
    assert forall i :: 0 <= i < |h| ==> g[i] == h[i] && g[..i] == h[..i];
    if TwoDirect(h) {
      var i, j :| 0 <= i < j < |h| && h[i].DirectFailed? && h[j].DirectFailed? && h[i].id != h[j].id;
      assert g[i].DirectFailed? && g[j].DirectFailed? && g[i].id != g[j].id;
    }
    forall a | OneDirect(h, a) ensures OneDirect(g, a) {
      var i :| 0 <= i < |h| && h[i].DirectFailed? && h[i].id == a;
      assert g[i].DirectFailed? && g[i].id == a;
    }
    forall c | ThenAwg(h, c) ensures ThenAwg(g, c) {
      var k :| 0 <= k < |h| && h[k] == AwgHealthy(c) && TwoDirect(h[..k]);
      assert g[k] == AwgHealthy(c) && TwoDirect(g[..k]);
    }
    forall c | ThenRecheck(h, c) ensures ThenRecheck(g, c) {
      var l :| 0 <= l < |h| && h[l].DirectFailed? && h[l].rechecking && ThenAwg(h[..l], c);
      assert g[l].DirectFailed? && g[l].rechecking && ThenAwg(g[..l], c);
    }
    if FastHistory(h) {
      var i, k :| 0 <= i < k < |h| && h[i].DirectFailed? && h[k].AwgHealthy?;
      assert g[i].DirectFailed? && g[k].AwgHealthy?;
    }
    if MiddleHistory(h) {
      var m, c :| 0 <= m < |h| && h[m].AwgHealthy? && c != h[m].id && ThenAwg(h[..m], c);
      assert g[m].AwgHealthy? && c != g[m].id && ThenAwg(g[..m], c);
    }
    if SlowHistory(h) {
      var m, c :| 0 <= m < |h| && h[m].AwgHealthy? && c != h[m].id && ThenRecheck(h[..m], c);
      assert g[m].AwgHealthy? && c != g[m].id && ThenRecheck(g[..m], c);
    }
  }

  // ---- the invariant of every run ----------------------------------------------------------------

  /** Every list holds at most one entry for the tuple. */
  predicate Single(c: Cells) {
    && |c.watch| <= 1 && |c.test| <= 1 && |c.ok| <= 1 && |c.cooldown| <= 1
    && |c.direct1| <= 1 && |c.awg1| <= 1 && |c.recheck| <= 1
  }

  /** Nothing in the history answers a re-check. */
  predicate NeverRechecked(h: seq<Observation>) { forall l :: 0 <= l < |h| && h[l].DirectFailed? ==> !h[l].rechecking }

  ghost predicate Backed(p: Profile, c: Cells, h: seq<Observation>) {
    match p
    case Fast =>
      && (c.test != [] ==> exists a :: OneDirect(h, a))
      && (c.ok != [] ==> FastHistory(h))
    case Middle =>
      && (c.direct1 != [] ==> OneDirect(h, c.direct1[0]))
      && (c.test != [] ==> TwoDirect(h))
      && (c.awg1 != [] ==> ThenAwg(h, c.awg1[0]))
      && (c.ok != [] ==> MiddleHistory(h))
    case Slow =>
      && (c.direct1 != [] ==> OneDirect(h, c.direct1[0]))
      && (c.test != [] ==> TwoDirect(h))
      && (c.awg1 != [] ==> ThenAwg(h, c.awg1[0]))
      && (c.test != [] && c.awg1 != [] ==> ThenRecheck(h, c.awg1[0]) || SlowHistory(h))
      && (c.ok != [] ==> SlowHistory(h))
      && (!NeverRechecked(h) ==> exists r :: ThenRecheck(h, r))
  }

  lemma BackedGrows(p: Profile, c: Cells, h: seq<Observation>, x: seq<Observation>)
    requires Backed(p, c, h) && (NeverRechecked(x) || !p.Slow? || exists r :: ThenRecheck(h + x, r))
    ensures Backed(p, c, h + x)
  {
    HistoryGrows(h, x);
    if NeverRechecked(h) && NeverRechecked(x) { NeverEither(h, x); }
  }

  lemma NeverEither(h: seq<Observation>, x: seq<Observation>)
    requires NeverRechecked(h) && NeverRechecked(x)
    ensures NeverRechecked(h + x)
  {}

  /** An entry may disappear without harm. */
  lemma BackedShrinks(p: Profile, c: Cells, d: Cells, h: seq<Observation>)
    requires Backed(p, c, h)
    requires d.direct1 == c.direct1 || d.direct1 == []
    requires d.awg1 == c.awg1 || d.awg1 == []
    requires d.test == c.test || d.test == []
    requires d.ok == c.ok || d.ok == []
    requires d.recheck == c.recheck || d.recheck == []
    ensures Backed(p, d, h)
  {}

  /** The one way SLOW can go wrong: the reset after a failed send-back can remove neither TEST nor AWG1. */
  predicate Wedge(c: Cells, e: Event) {
    && e.GoodTest? && c.test != [] && c.awg1 == []
    && OldRecheckClear !in e.rejected && Awg1Add !in e.rejected
    && (RecheckAdd in e.rejected || TestClear in e.rejected)
    && ResetAwg1 in e.rejected && ResetTest in e.rejected
  }

  lemma DirectSeen(h: seq<Observation>, id: ConnId, rechecking: bool)
    ensures OneDirect(h + [DirectFailed(id, rechecking)], id)
    ensures forall a :: OneDirect(h, a) && a != id ==> TwoDirect(h + [DirectFailed(id, rechecking)])
    ensures rechecking ==> forall c :: ThenAwg(h, c) ==> ThenRecheck(h + [DirectFailed(id, rechecking)], c)
  {
    var o := DirectFailed(id, rechecking);
    var g := h + [o];
    assert g[|h|] == o && g[..|h|] == h;
    forall a | OneDirect(h, a) && a != id ensures TwoDirect(g) {
      var i :| 0 <= i < |h| && h[i].DirectFailed? && h[i].id == a;
      assert g[i] == h[i];
    }
  }

  lemma AwgSeen(h: seq<Observation>, id: ConnId)
    ensures TwoDirect(h) ==> ThenAwg(h + [AwgHealthy(id)], id)
    ensures (exists a :: OneDirect(h, a)) ==> FastHistory(h + [AwgHealthy(id)])
    ensures forall c :: ThenAwg(h, c) && c != id ==> MiddleHistory(h + [AwgHealthy(id)])
    ensures forall c :: ThenRecheck(h, c) && c != id ==> SlowHistory(h + [AwgHealthy(id)])
  {
    var g := h + [AwgHealthy(id)];
    assert g[|h|] == AwgHealthy(id) && g[..|h|] == h;
    if a :| OneDirect(h, a) {
      var i :| 0 <= i < |h| && h[i].DirectFailed? && h[i].id == a;
      assert g[i] == h[i];
    }
  }

  lemma FailureKeeps(p: Profile, c: Cells, h: seq<Observation>, id: ConnId, ready: bool, rejected: Rejected)
    requires Single(c) && Backed(p, c, h) && Open(c)
    ensures var d := DirectFailure(p, c, id, ready, rejected);
            Single(d) && Backed(p, d, h + [DirectFailed(id, Rechecking(c))])
  {
    var g := h + [DirectFailed(id, Rechecking(c))];
    DirectSeen(h, id, Rechecking(c));
    BackedGrows(p, c, h, [DirectFailed(id, Rechecking(c))]);
    var d := DropStale(p, c, rejected);
    BackedShrinks(p, c, d, g);
    match Weigh(p, c, d, id, rejected)
    case Stop =>
    case FirstEvidence =>
    case Proceed =>
      if !p.Fast? && !(p.Slow? && Rechecking(c)) {
        assert d.direct1 == c.direct1 && c.direct1[0] != id;
        assert OneDirect(h, c.direct1[0]);
      }
      if p.Slow? && Rechecking(c) {
        assert ThenAwg(h, c.awg1[0]);
        RecheckImpliesTwo(g, c.awg1[0]);
      }
      EnterKeeps(p, c, d, g, id, rejected);
  }

  /** Entering TEST is sound once the history has what the profile asks for. */
  lemma EnterKeeps(p: Profile, before: Cells, c: Cells, g: seq<Observation>, id: ConnId, rejected: Rejected)
    requires Single(c) && Backed(p, c, g) && c.test == []
    requires if p.Fast? then exists a :: OneDirect(g, a) else TwoDirect(g)
    requires p.Slow? && Rechecking(before) ==> c == before && ThenRecheck(g, c.awg1[0])
    ensures var (settled, e) := Settle(p, before, c, rejected);
            && Single(e) && Backed(p, e, g)
            && (settled ==>
                  var n := e.(watch := Clear(e.watch, WatchClear, rejected), test := Add(e.test, id, TestAdd, rejected));
                  Single(n) && Backed(p, n, g))
  {
    BackedShrinks(p, c, Settle(p, before, c, rejected).1, g);
  }

  lemma RecheckImpliesTwo(h: seq<Observation>, c: ConnId)
    requires ThenRecheck(h, c)
    ensures ThenAwg(h, c) && TwoDirect(h)
  {
    var l :| 0 <= l < |h| && h[l].DirectFailed? && h[l].rechecking && ThenAwg(h[..l], c);
    assert h == h[..l] + h[l..];
    HistoryGrows(h[..l], h[l..]);
    AwgImpliesTwo(h, c);
  }

  lemma AwgImpliesTwo(h: seq<Observation>, c: ConnId)
    requires ThenAwg(h, c)
    ensures TwoDirect(h)
  {
    var k :| 0 <= k < |h| && h[k] == AwgHealthy(c) && TwoDirect(h[..k]);
    assert h == h[..k] + h[k..];
    HistoryGrows(h[..k], h[k..]);
  }

  lemma GoodTestKeeps(p: Profile, c: Cells, h: seq<Observation>, id: ConnId, rejected: Rejected)
    requires Single(c) && Backed(p, c, h) && c.test != []
    requires p.Slow? && Wedge(c, GoodTest(id, rejected)) ==> !NeverRechecked(h)
    ensures var d := TestHealthy(p, c, id, rejected);
            Single(d) && Backed(p, d, h + [AwgHealthy(id)])
  {
    var g := h + [AwgHealthy(id)];
    BackedGrows(p, c, h, [AwgHealthy(id)]);
    AwgSeen(h, id);
    match p
    case Fast => ConfirmKeeps(p, c, g, id, rejected);
    case Middle =>
      if c.awg1 != [] && id !in c.awg1 {
        assert ThenAwg(h, c.awg1[0]) && c.awg1[0] != id;
        ConfirmKeeps(p, c, g, id, rejected);
      }
    case Slow => SlowTestKeeps(c, h, id, rejected);
  }

  lemma SlowTestKeeps(c: Cells, h: seq<Observation>, id: ConnId, rejected: Rejected)
    requires Single(c) && Backed(Slow, c, h) && c.test != []
    requires Wedge(c, GoodTest(id, rejected)) ==> !NeverRechecked(h)
    ensures var d := TestHealthy(Slow, c, id, rejected);
            Single(d) && Backed(Slow, d, h + [AwgHealthy(id)])
  {
    var g := h + [AwgHealthy(id)];
    BackedGrows(Slow, c, h, [AwgHealthy(id)]);
    AwgSeen(h, id);
    if c.awg1 == [] {
      if !NeverRechecked(h) { LateSendBack(h, id); }
      SendBackKeeps(c, g, id, rejected);
    } else if c.recheck != [] {
      BackedShrinks(Slow, c, Reset(c, rejected), g);
    } else if id !in c.awg1 {
      HistoryGrows(h, [AwgHealthy(id)]);
      assert ThenRecheck(h, c.awg1[0]) ==> c.awg1[0] != id;
      ConfirmKeeps(Slow, c, g, id, rejected);
    }
  }

  /** A healthy AWG connection after an answered re-check: either the one that the re-check was for, or it completes
      the SLOW order. */
  lemma LateSendBack(h: seq<Observation>, id: ConnId)
    requires exists r :: ThenRecheck(h, r)
    ensures ThenRecheck(h + [AwgHealthy(id)], id) || SlowHistory(h + [AwgHealthy(id)])
  {
    var r :| ThenRecheck(h, r);
    AwgSeen(h, id);
    HistoryGrows(h, [AwgHealthy(id)]);
  }

  lemma ConfirmKeeps(p: Profile, c: Cells, g: seq<Observation>, id: ConnId, rejected: Rejected)
    requires Single(c) && Backed(p, c, g)
    requires match p case Fast => FastHistory(g) case Middle => MiddleHistory(g) case Slow => SlowHistory(g)
    ensures Single(Confirm(c, id, rejected)) && Backed(p, Confirm(c, id, rejected), g)
  {
    BackedShrinks(p, c, Confirm(c, id, rejected).(ok := c.ok), g);
  }

  lemma SendBackKeeps(c: Cells, g: seq<Observation>, id: ConnId, rejected: Rejected)
    requires Single(c) && Backed(Slow, c, g) && c.test != [] && c.awg1 == [] && ThenAwg(g, id)
    requires !Wedge(c, GoodTest(id, rejected)) || ThenRecheck(g, id) || SlowHistory(g)
    ensures Single(SendBack(c, id, rejected)) && Backed(Slow, SendBack(c, id, rejected), g)
  {
    var d := SendBack(c, id, rejected);
    assert d.awg1 == [] || d.awg1 == [id];
    assert Wedge(c, GoodTest(id, rejected)) || d.awg1 == [] || d.test == [];
  }

  lemma KeptSingle(entries: seq<ConnId>, keep: seq<ConnId>)
    requires |entries| <= 1
    ensures Kept(entries, keep) == entries || Kept(entries, keep) == []
  {
    if entries != [] { assert entries == [entries[0]] && entries[1..] == []; }
  }

  lemma ExpireKeeps(p: Profile, c: Cells, h: seq<Observation>, keep: Cells)
    requires Single(c) && Backed(p, c, h)
    ensures Single(Expire(c, keep)) && Backed(p, Expire(c, keep), h)
  {
    KeptSingle(c.watch, keep.watch);
    KeptSingle(c.test, keep.test);
    KeptSingle(c.ok, keep.ok);
    KeptSingle(c.cooldown, keep.cooldown);
    KeptSingle(c.direct1, keep.direct1);
    KeptSingle(c.awg1, keep.awg1);
    KeptSingle(c.recheck, keep.recheck);
    BackedShrinks(p, c, Expire(c, keep), h);
  }

  lemma StallKeeps(p: Profile, c: Cells, h: seq<Observation>, id: ConnId, ripe: bool, ready: bool, rejected: Rejected)
    requires Single(c) && Backed(p, c, h)
    ensures var d := LateStall(p, c, id, ripe, ready, rejected);
            Single(d) && Backed(p, d, h + Seen(c, Stall(id, ripe, ready, rejected)))
  {
    assert h + [] == h;
    if c.watch == [] {
      BackedShrinks(p, c, LateStall(p, c, id, ripe, ready, rejected), h);
    } else if ripe && Open(c) {
      FailureKeeps(p, c, h, id, ready, rejected);
    }
  }

  lemma TestFailedKeeps(p: Profile, c: Cells, h: seq<Observation>, id: ConnId, rejected: Rejected)
    requires Single(c) && Backed(p, c, h)
    ensures Single(TestFailed(c, id, rejected)) && Backed(p, TestFailed(c, id, rejected), h)
  {
    BackedShrinks(p, c, TestFailed(c, id, rejected), h);
  }

  lemma OkFailedKeeps(p: Profile, c: Cells, h: seq<Observation>, id: ConnId, rejected: Rejected)
    requires Single(c) && Backed(p, c, h)
    ensures Single(OkFailed(c, id, rejected)) && Backed(p, OkFailed(c, id, rejected), h)
  {
    BackedShrinks(p, c, OkFailed(c, id, rejected), h);
  }

  lemma StepKeeps(p: Profile, c: Cells, h: seq<Observation>, e: Event)
    requires Single(c) && Backed(p, c, h)
    requires p.Slow? && Wedge(c, e) ==> !NeverRechecked(h)
    ensures Single(Next(p, c, e)) && Backed(p, Next(p, c, e), h + Seen(c, e))
  {
    assert h + [] == h;
    match e
    case Failure(id, ready, rejected) =>
      if Open(c) { FailureKeeps(p, c, h, id, ready, rejected); }
    case Stall(id, ripe, ready, rejected) =>
      StallKeeps(p, c, h, id, ripe, ready, rejected);
    case GoodTest(id, rejected) =>
      if c.test != [] { GoodTestKeeps(p, c, h, id, rejected); }
    case BadTest(id, rejected) => TestFailedKeeps(p, c, h, id, rejected);
    case BadOk(id, rejected) => OkFailedKeeps(p, c, h, id, rejected);
    case GoodOk(aging, rejected) => BackedShrinks(p, c, OkHealthy(c, aging, rejected), h);
    case Lapse(keep) => ExpireKeeps(p, c, h, keep);
  }

  predicate WedgesAt(events: seq<Event>, n: nat)
    requires n < |events|
  {
    Wedge(Run(Slow, events[..n]).cells, events[n])
  }

  /** Event `n` of the run wedges, and no re-check was answered before. */
  predicate EarlyAt(events: seq<Event>, n: nat)
    requires n < |events|
  {
    WedgesAt(events, n) && NeverRechecked(Run(Slow, events[..n]).history)
  }

  /** No step of the run wedges before a re-check has been answered. */
  predicate WedgesLate(events: seq<Event>) { forall n :: 0 <= n < |events| ==> !EarlyAt(events, n) }

  lemma SameBefore(events: seq<Event>, k: nat, n: nat)
    requires n < k <= |events|
    ensures events[..k][..n] == events[..n] && (EarlyAt(events[..k], n) <==> EarlyAt(events, n))
  {
    assert events[..k][..n] == events[..n];
  }

  lemma {:induction false} RunKeeps(p: Profile, events: seq<Event>)
    requires p.Slow? ==> WedgesLate(events)
    ensures Single(Run(p, events).cells) && Backed(p, Run(p, events).cells, Run(p, events).history)
  {
    if events != [] {
      var n := |events| - 1;
      var front := events[..n];
      if p.Slow? {
        assert !EarlyAt(events, n);
        ShorterWedgesLate(events, n);
      }
      RunKeeps(p, front);
      StepKeeps(p, Run(p, front).cells, Run(p, front).history, events[n]);
    }
  }

  lemma ShorterWedgesLate(events: seq<Event>, n: nat)
    requires n <= |events| && WedgesLate(events)
    ensures WedgesLate(events[..n])
  {
    forall k | 0 <= k < n ensures !EarlyAt(events[..n], k) { SameBefore(events, n, k); }
  }

  // ---- main results --------------------------------------------------------------------------------

  /** FAST: an OK entry rests on a failure on DIRECT and a later healthy AWG connection, whatever is rejected. */
  lemma FastSafety(events: seq<Event>)
    ensures var t := Run(Fast, events);
            t.cells.ok != [] ==>
              exists i, k :: 0 <= i < k < |t.history| && t.history[i].DirectFailed? && t.history[k].AwgHealthy?
  {
    RunKeeps(Fast, events);
  }

  /** MIDDLE: two failures on DIRECT seen on different connections, then two healthy AWG connections, different
      ones again; whatever is rejected. */
  lemma MiddleSafety(events: seq<Event>) returns (i: nat, j: nat, k: nat, m: nat)
    requires Run(Middle, events).cells.ok != []
    ensures var h := Run(Middle, events).history;
            && i < j < k < m < |h|
            && h[i].DirectFailed? && h[j].DirectFailed? && h[i].id != h[j].id
            && h[k].AwgHealthy? && h[m].AwgHealthy? && h[k].id != h[m].id
  {
    RunKeeps(Middle, events);
    i, j, k, m := MiddleWitness(Run(Middle, events).history);
  }

  /** SLOW: two failures on DIRECT seen on different connections, a healthy AWG connection, a failure on DIRECT
      answering the re-check, and a healthy AWG connection other than the first; in that order. */
  lemma SlowSafety(events: seq<Event>) returns (i: nat, j: nat, k: nat, l: nat, m: nat)
    requires WedgesLate(events) && Run(Slow, events).cells.ok != []
    ensures var h := Run(Slow, events).history;
            && i < j < k < l < m < |h|
            && h[i].DirectFailed? && h[j].DirectFailed? && h[i].id != h[j].id
            && h[k].AwgHealthy? && h[l].DirectFailed? && h[l].rechecking
            && h[m].AwgHealthy? && h[k].id != h[m].id
  {
    RunKeeps(Slow, events);
    i, j, k, l, m := SlowWitness(Run(Slow, events).history);
  }

  lemma SlowWitness(h: seq<Observation>) returns (i: nat, j: nat, k: nat, l: nat, m: nat)
    requires SlowHistory(h)
    ensures i < j < k < l < m < |h| && h[i].DirectFailed? && h[j].DirectFailed? && h[i].id != h[j].id
    ensures h[k].AwgHealthy? && h[l].DirectFailed? && h[l].rechecking && h[m].AwgHealthy? && h[k].id != h[m].id
  {
    var c;
    m, c :| m < |h| && h[m].AwgHealthy? && c != h[m].id && ThenRecheck(h[..m], c);
    i, j, k, l := RecheckWitness(h[..m], c);
  }

  lemma RecheckWitness(h: seq<Observation>, c: ConnId) returns (i: nat, j: nat, k: nat, l: nat)
    requires ThenRecheck(h, c)
    ensures i < j < k < l < |h| && h[i].DirectFailed? && h[j].DirectFailed? && h[i].id != h[j].id
    ensures h[k] == AwgHealthy(c) && h[l].DirectFailed? && h[l].rechecking
  {
    l :| l < |h| && h[l].DirectFailed? && h[l].rechecking && ThenAwg(h[..l], c);
    i, j, k := AwgWitness(h[..l], c);
  }

  lemma AwgWitness(h: seq<Observation>, c: ConnId) returns (i: nat, j: nat, k: nat)
    requires ThenAwg(h, c)
    ensures i < j < k < |h| && h[i].DirectFailed? && h[j].DirectFailed? && h[i].id != h[j].id && h[k] == AwgHealthy(c)
  {
    k :| k < |h| && h[k] == AwgHealthy(c) && TwoDirect(h[..k]);
    i, j :| i < j < k && h[..k][i].DirectFailed? && h[..k][j].DirectFailed? && h[..k][i].id != h[..k][j].id;
  }

  lemma MiddleWitness(h: seq<Observation>) returns (i: nat, j: nat, k: nat, m: nat)
    requires MiddleHistory(h)
    ensures i < j < k < m < |h| && h[i].DirectFailed? && h[j].DirectFailed? && h[i].id != h[j].id
    ensures h[k].AwgHealthy? && h[m].AwgHealthy? && h[k].id != h[m].id
  {
    var c;
    m, c :| m < |h| && h[m].AwgHealthy? && c != h[m].id && ThenAwg(h[..m], c);
    i, j, k := AwgWitness(h[..m], c);
  }

  /** The stricter a profile, the fewer histories confirm: what confirms under SLOW confirms under MIDDLE, and
      what confirms under MIDDLE confirms under FAST. */
  lemma ProfilesAreOrdered(h: seq<Observation>)
    ensures SlowHistory(h) ==> MiddleHistory(h)
    ensures MiddleHistory(h) ==> FastHistory(h)
  {
    if SlowHistory(h) {
      var m, c :| 0 <= m < |h| && h[m].AwgHealthy? && c != h[m].id && ThenRecheck(h[..m], c);
      RecheckImpliesTwo(h[..m], c);
    }
    if MiddleHistory(h) {
      var i, j, k, m := MiddleWitness(h);
      assert h[i].DirectFailed? && h[k].AwgHealthy?;
    }
  }

  /** A step of a SLOW run puts TEST beside a fresh AWG1 entry exactly when it wedges, and every wedge is fatal:
      once RECHECK lapses, one more healthy connection confirms although DIRECT was never tried again. */
  lemma WedgeIsExact(c: Cells, e: Event, d: ConnId)
    requires Single(c) && e.GoodTest? && c.test != [] && c.awg1 == [] && d != e.id
    ensures var after := Next(Slow, c, e);
            && (Wedge(c, e) <==> after.test != [] && after.awg1 != [])
            && (Wedge(c, e) ==>
                  var lapsed := Expire(after, after.(recheck := []));
                  TestHealthy(Slow, lapsed, d, {}).ok != [])
  {
    var after := Next(Slow, c, e);
    if Wedge(c, e) {
      assert after.awg1 == [e.id];
      KeptSingle(after.test, after.test);
      KeptSingle(after.awg1, after.awg1);
      assert after.test[0] in after.test;
    }
  }

  lemma RunAppend(p: Profile, events: seq<Event>, e: Event)
    ensures Run(p, events + [e]) == Step(p, Run(p, events), e)
  {
    assert (events + [e])[..|events|] == events;
  }

  /** With everything accepted, the five SLOW observations in a row do confirm, and no fewer of them. */
  lemma SlowConfirms(a: ConnId, b: ConnId, c: ConnId, r: ConnId, d: ConnId)
    requires a != b && c != d
    ensures var four := [Failure(a, true, {})] + [Failure(b, true, {})] + [GoodTest(c, {})] + [Failure(r, true, {})];
            && Run(Slow, four).cells == NO_CELLS.(awg1 := [c], test := [r])
            && Run(Slow, four + [GoodTest(d, {})]).cells == NO_CELLS.(ok := [d])
  {
    var two := [Failure(a, true, {})] + [Failure(b, true, {})];
    var three := two + [GoodTest(c, {})];
    var four := three + [Failure(r, true, {})];
    TwoFailures(a, b);
    RunAppend(Slow, two, GoodTest(c, {}));
    assert Run(Slow, three).cells == NO_CELLS.(awg1 := [c], recheck := [c]);
    RunAppend(Slow, three, Failure(r, true, {}));
    assert Run(Slow, four).cells == NO_CELLS.(awg1 := [c], test := [r]);
    RunAppend(Slow, four, GoodTest(d, {}));
  }

  const WEDGE_REJECTS: Rejected := {TestClear, ResetAwg1, ResetTest}

  /** Two failures on DIRECT put a SLOW tuple into TEST. */
  lemma TwoFailures(a: ConnId, b: ConnId)
    requires a != b
    ensures Run(Slow, [Failure(a, true, {})] + [Failure(b, true, {})]) ==
            Track(NO_CELLS.(test := [b]), [DirectFailed(a, false)] + [DirectFailed(b, false)])
  {
    var one := [Failure(a, true, {})];
    assert one == [] + one;
    RunAppend(Slow, [], Failure(a, true, {}));
    assert Run(Slow, one) == Track(NO_CELLS.(direct1 := [a]), [DirectFailed(a, false)]);
    RunAppend(Slow, one, Failure(b, true, {}));
  }

  lemma WedgeStep(c: Cells)
    requires c == NO_CELLS.(test := [2])
    ensures TestHealthy(Slow, c, 3, WEDGE_REJECTS) == NO_CELLS.(test := [2], awg1 := [3])
  {}

  lemma ConfirmStep(c: Cells)
    requires c == NO_CELLS.(test := [2], awg1 := [3])
    ensures TestHealthy(Slow, c, 4, {}) == NO_CELLS.(ok := [4])
  {}

  /** A wedged run: TEST and AWG1 survive the reset, so the next healthy connection confirms without a re-check. */
  lemma WedgeConfirmsWithoutRecheck()
    ensures var es := [Failure(1, true, {})] + [Failure(2, true, {})] + [GoodTest(3, WEDGE_REJECTS)] + [GoodTest(4, {})];
            Run(Slow, es).cells.ok != [] && !SlowHistory(Run(Slow, es).history)
  {
    var two := [Failure(1, true, {})] + [Failure(2, true, {})];
    var three := two + [GoodTest(3, WEDGE_REJECTS)];
    TwoFailures(1, 2);
    RunAppend(Slow, two, GoodTest(3, WEDGE_REJECTS));
    WedgeStep(Run(Slow, two).cells);
    RunAppend(Slow, three, GoodTest(4, {}));
    ConfirmStep(Run(Slow, three).cells);
    NoRecheckNoSlow([DirectFailed(1, false)] + [DirectFailed(2, false)] + [AwgHealthy(3)] + [AwgHealthy(4)]);
  }

  /** A lapse of RECHECK alone. */
  function RecheckLapse(c: Cells): Event { Lapse(c.(recheck := [])) }

  lemma AfterWedge(c: Cells, e: Event, d: ConnId)
    requires Single(c) && Wedge(c, e) && d != e.id
    ensures var wedged := Next(Slow, c, e);
            var lapsed := Next(Slow, wedged, RecheckLapse(wedged));
            lapsed.test != [] && TestHealthy(Slow, lapsed, d, {}).ok != []
  {
    WedgeIsExact(c, e, d);
    var wedged := Next(Slow, c, e);
    KeptSingle(wedged.test, wedged.test);
    assert wedged.test[0] in wedged.test;
  }

  lemma WedgedRun(events: seq<Event>, e: Event, d: ConnId) returns (more: seq<Event>)
    requires Single(Run(Slow, events).cells) && Wedge(Run(Slow, events).cells, e) && d != e.id
    ensures var t := Run(Slow, events + [e] + more);
            t.cells.ok != [] && t.history == Run(Slow, events).history + [AwgHealthy(e.id)] + [AwgHealthy(d)]
  {
    var wedged := events + [e];
    var lapse := RecheckLapse(Run(Slow, wedged).cells);
    more := [lapse] + [GoodTest(d, {})];
    assert wedged + more == wedged + [lapse] + [GoodTest(d, {})];
    RunAppend(Slow, events, e);
    RunAppend(Slow, wedged, lapse);
    RunAppend(Slow, wedged + [lapse], GoodTest(d, {}));
    AfterWedge(Run(Slow, events).cells, e, d);
  }

  lemma RechecksStay(h: seq<Observation>, x: seq<Observation>)
    requires !NeverRechecked(h)
    ensures !NeverRechecked(h + x)
  {
    var l :| 0 <= l < |h| && h[l].DirectFailed? && h[l].rechecking;
    assert (h + x)[l] == h[l];
  }

  lemma {:induction false} HistoryOfLonger(events: seq<Event>, n: nat) returns (x: seq<Observation>)
    requires n <= |events|
    ensures Run(Slow, events).history == Run(Slow, events[..n]).history + x
  {
    if n == |events| {
      assert events[..n] == events;
      x := [];
    } else {
      var front := events[..|events| - 1];
      assert front[..n] == events[..n];
      var y := HistoryOfLonger(front, n);
      x := y + Seen(Run(Slow, front).cells, events[|events| - 1]);
    }
  }

  /** If the first wedge comes after an answered re-check, so does every later one. */
  lemma LaterWedgesLate(events: seq<Event>, e: Event, more: seq<Event>)
    requires WedgesLate(events) && !NeverRechecked(Run(Slow, events).history)
    ensures WedgesLate(events + [e] + more)
  {
    var all := events + [e] + more;
    assert all[..|events|] == events;
    forall n | 0 <= n < |all| ensures !EarlyAt(all, n) {
      if n < |events| {
        SameBefore(all, |events|, n);
      } else {
        RechecksRemain(all, |events|, n);
      }
    }
  }

  lemma RechecksRemain(events: seq<Event>, k: nat, n: nat)
    requires k <= n <= |events| && !NeverRechecked(Run(Slow, events[..k]).history)
    ensures !NeverRechecked(Run(Slow, events[..n]).history)
  {
    assert events[..n][..k] == events[..k];
    var x := HistoryOfLonger(events[..n], k);
    RechecksStay(Run(Slow, events[..k]).history, x);
  }

  /** If this run confirms, then on the SLOW history. */
  ghost predicate Sound(events: seq<Event>) { Run(Slow, events).cells.ok != [] ==> SlowHistory(Run(Slow, events).history) }

  /** Exactly when a first wedge does no harm: every continuation of the run is sound if and only if a re-check was
      answered before. */
  lemma FirstWedgeExactly(events: seq<Event>, e: Event)
    requires WedgesLate(events) && Wedge(Run(Slow, events).cells, e)
    ensures (forall more :: Sound(events + [e] + more)) <==> !NeverRechecked(Run(Slow, events).history)
  {
    if NeverRechecked(Run(Slow, events).history) {
      var more := EarlyWedgeConfirms(events, e, e.id + 1);
      assert !Sound(events + [e] + more);
    } else {
      forall more ensures Sound(events + [e] + more) {
        LaterWedgesLate(events, e, more);
        RunKeeps(Slow, events + [e] + more);
      }
    }
  }

  /** The condition of SlowSafety is exact: it holds of a run if and only if from each of its wedges on every run is
      sound. */
  lemma WedgesLateExactly(events: seq<Event>)
    ensures WedgesLate(events) <==>
            forall n, more :: 0 <= n < |events| && WedgesAt(events, n) ==> Sound(events[..n] + [events[n]] + more)
  {
    if WedgesLate(events) {
      forall n, more | 0 <= n < |events| && WedgesAt(events, n) ensures Sound(events[..n] + [events[n]] + more) {
        assert !EarlyAt(events, n);
        ShorterWedgesLate(events, n);
        FirstWedgeExactly(events[..n], events[n]);
      }
    } else {
      var n := FirstEarlyWedge(events);
      FirstWedgeExactly(events[..n], events[n]);
    }
  }

  lemma {:induction false} FirstEarlyWedge(events: seq<Event>) returns (n: nat)
    requires !WedgesLate(events)
    ensures n < |events| && WedgesLate(events[..n]) && EarlyAt(events, n)
  {
    var last := |events| - 1;
    if WedgesLate(events[..last]) {
      n := last;
      forall k | 0 <= k < last ensures !EarlyAt(events, k) { SameBefore(events, last, k); }
    } else {
      n := FirstEarlyWedge(events[..last]);
      SameBefore(events, last, n);
    }
  }

  /** After an early wedge one expiry and one healthy connection confirm without the SLOW history. */
  lemma EarlyWedgeConfirms(events: seq<Event>, e: Event, d: ConnId) returns (more: seq<Event>)
    requires WedgesLate(events) && Wedge(Run(Slow, events).cells, e) && d != e.id
    requires NeverRechecked(Run(Slow, events).history)
    ensures !Sound(events + [e] + more)
  {
    RunKeeps(Slow, events);
    more := WedgedRun(events, e, d);
    NoRecheckNoSlow(Run(Slow, events).history + [AwgHealthy(e.id)] + [AwgHealthy(d)]);
  }

  lemma NoRecheckNoSlow(h: seq<Observation>)
    requires NeverRechecked(h)
    ensures !SlowHistory(h)
  {
    forall m, c | 0 <= m < |h| ensures !ThenRecheck(h[..m], c) {
      assert forall l :: 0 <= l < m ==> h[..m][l] == h[l];
    }
  }
}
