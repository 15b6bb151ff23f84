/** Bringing the router in line with the VPN Direct policy: take everything of the old policy away, then put the new one
    in, the bypass rule in front of every managed prerouting rule. */
module DirectSync {
  import opened RuleOrder
  import Policy = DirectPolicy

  type Id = nat

  /** An address-list entry or static name, ours or not; or a rule. */
  datatype Body = Listed(ours: bool, value: string) | Mangled(rule: Rule)
  datatype Item = Item(id: Id, body: Body)

  datatype Table = AddressList | DnsStatic | Mangle
  datatype World = World(list: seq<Item>, dns: seq<Item>, mangle: seq<Item>, next: Id)

  const SCAN_LIMIT := 512

  function Get(w: World, t: Table): seq<Item> { match t case AddressList => w.list case DnsStatic => w.dns case Mangle => w.mangle }

  function Put(w: World, t: Table, items: seq<Item>): World {
    match t
    case AddressList => w.(list := items)
    case DnsStatic => w.(dns := items)
    case Mangle => w.(mangle := items)
  }

  /** What the synchronisation looks for in each table. */
  predicate Mine(b: Body) { match b case Listed(ours, _) => ours case Mangled(r) => r.comment.VpnDirect? }

  predicate TableOk(items: seq<Item>, next: Id, rules: bool) {
    && Distinct(items) && forall i :: 0 <= i < |items| ==> items[i].id < next && (items[i].body.Mangled? <==> rules)
  }

  /** Ids are given out once, and rules are in the rule table only. */
  predicate WellFormed(w: World) {
    TableOk(w.list, w.next, false) && TableOk(w.dns, w.next, false) && TableOk(w.mangle, w.next, true)
  }

  function MyIds(items: seq<Item>): seq<Id> {
    if items == [] then [] else (if Mine(items[0].body) then [items[0].id] else []) + MyIds(items[1..])
  }

  function Others(items: seq<Item>): seq<Item> {
    if items == [] then [] else (if Mine(items[0].body) then [] else [items[0]]) + Others(items[1..])
  }

  function WithoutId(items: seq<Item>, i: Id): seq<Item> {
    if items == [] then [] else (if items[0].id == i then [] else [items[0]]) + WithoutId(items[1..], i)
  }

  function WithoutIds(items: seq<Item>, ids: seq<Id>): seq<Item>
    decreases |ids|
  {
    if ids == [] then items else WithoutIds(WithoutId(items, ids[0]), ids[1..])
  }

  predicate Distinct(items: seq<Item>) { forall i, j :: 0 <= i < j < |items| ==> items[i].id != items[j].id }

  lemma {:induction false} WithoutIdMembers(items: seq<Item>, i: Id)
    ensures forall x :: x in WithoutId(items, i) <==> x in items && x.id != i
  {
    if items != [] {
      WithoutIdMembers(items[1..], i);
      assert items == [items[0]] + items[1..];
    }
  }

  lemma {:induction false} WithoutIdDistinct(items: seq<Item>, i: Id)
    requires Distinct(items)
    ensures Distinct(WithoutId(items, i))
  {
    if items != [] {
      TailDistinct(items);
      WithoutIdDistinct(items[1..], i);
      WithoutIdMembers(items[1..], i);
      var rest := WithoutId(items[1..], i);
      if items[0].id != i { ConsDistinct(items[0], items[1..], rest); } else { assert [] + rest == rest; }
    }
  }

  /** Taking one of ours away leaves the others alone. */
  lemma {:induction false} OthersStay(items: seq<Item>, i: Id)
    requires forall x :: x in items && x.id == i ==> Mine(x.body)
    ensures Others(WithoutId(items, i)) == Others(items)
  {
    if items != [] {
      OthersStay(items[1..], i);
      var rest := WithoutId(items[1..], i);
      if items[0].id != i {
        assert ([items[0]] + rest)[1..] == rest;
      } else {
        assert [] + rest == rest && [] + Others(items[1..]) == Others(items[1..]);
      }
    }
  }

  lemma TailDistinct(items: seq<Item>)
    requires items != []
    ensures Distinct(items) ==> Distinct(items[1..]) && forall x :: x in items[1..] ==> x.id != items[0].id
  {
    if Distinct(items) {
      forall x | x in items[1..] ensures x.id != items[0].id {
        var k :| 0 <= k < |items[1..]| && items[1..][k] == x;
        assert items[k + 1] == x;
      }
    }
  }

  lemma ConsDistinct(x: Item, tail: seq<Item>, rest: seq<Item>)
    requires Distinct(rest) && (forall y :: y in rest ==> y in tail) && forall y :: y in tail ==> y.id != x.id
    ensures Distinct([x] + rest)
  {
    var all := [x] + rest;
    forall i, j | 0 <= i < j < |all| ensures all[i].id != all[j].id {
      if i == 0 { assert all[j] == rest[j - 1] && rest[j - 1] in rest; }
    }
  }

  /** Removing the collected ids one after the other leaves exactly the others, in their order. */
  lemma {:induction false} RemovalLeavesOthers(items: seq<Item>)
    requires Distinct(items)
    ensures WithoutIds(items, MyIds(items)) == Others(items)
  {
    if items != [] {
      TailDistinct(items);
      RemovalLeavesOthers(items[1..]);
      if Mine(items[0].body) {
        NoSuchId(items[1..], items[0].id);
        assert MyIds(items)[1..] == MyIds(items[1..]) && [] + items[1..] == items[1..];
        assert Others(items) == Others(items[1..]);
      } else {
        MyIdsAreIds(items[1..]);
        assert MyIds(items) == MyIds(items[1..]);
        HeadStays(items[0], items[1..], MyIds(items[1..]));
        assert [items[0]] + items[1..] == items;
      }
    }
  }

  lemma {:induction false} NoSuchId(items: seq<Item>, i: Id)
    requires forall x :: x in items ==> x.id != i
    ensures WithoutId(items, i) == items
  {
    if items != [] { NoSuchId(items[1..], i); }
  }

  lemma {:induction false} MyIdsAreIds(items: seq<Item>)
    ensures forall i :: i in MyIds(items) ==> exists x :: x in items && x.id == i && Mine(x.body)
  {
    if items != [] {
      MyIdsAreIds(items[1..]);
      forall i | i in MyIds(items) ensures exists x :: x in items && x.id == i && Mine(x.body) {
        if i in MyIds(items[1..]) {
          var x :| x in items[1..] && x.id == i && Mine(x.body);
          assert x in items;
        } else {
          assert items[0] in items;
        }
      }
    }
  }

  lemma {:induction false} HeadStays(x: Item, items: seq<Item>, ids: seq<Id>)
    requires x.id !in ids
    ensures WithoutIds([x] + items, ids) == [x] + WithoutIds(items, ids)
    decreases |ids|
  {
    if ids != [] {
      assert ([x] + items)[1..] == items;
      assert WithoutId([x] + items, ids[0]) == [x] + WithoutId(items, ids[0]);
      HeadStays(x, WithoutId(items, ids[0]), ids[1..]);
    }
  }

  // ---- the router ---------------------------------------------------------------------------------------------------

  function RulesOf(items: seq<Item>): (rules: seq<Rule>)
    requires forall i :: 0 <= i < |items| ==> items[i].body.Mangled?
    ensures |rules| == |items| && forall i :: 0 <= i < |items| ==> rules[i] == items[i].body.rule
  {
    if items == [] then [] else [items[0].body.rule] + RulesOf(items[1..])
  }

  /** The values of ours, in order. */
  function Values(items: seq<Item>): seq<string> {
    if items == [] then []
    else (if Mine(items[0].body) && items[0].body.Listed? then [items[0].body.value] else []) + Values(items[1..])
  }

  /** A router that nobody else works on; commands may be refused, by number. */
  class Board {
    const refuses: nat -> bool
    var world: World
    var clock: nat

    ghost predicate Valid()
      reads this
    {
      WellFormed(world)
    }

    method Take() returns (taken: bool)
      modifies this`clock
      ensures clock == old(clock) + 1 && taken == !refuses(old(clock))
    {
      taken := !refuses(clock);
      clock := clock + 1;
    }

    /** The first 512 ids of ours. */
    method Collect(t: Table) returns (taken: bool, ids: seq<Id>)
      requires Valid()
      modifies this`clock
      ensures clock == old(clock) + 1 && taken == !refuses(old(clock))
      ensures ids == if |MyIds(Get(world, t))| <= SCAN_LIMIT then MyIds(Get(world, t)) else MyIds(Get(world, t))[..SCAN_LIMIT]
    {
      taken := Take();
      ids := MyIds(Get(world, t));
      if |ids| > SCAN_LIMIT { ids := ids[..SCAN_LIMIT]; }
    }

    method Remove(t: Table, i: Id) returns (taken: bool)
      requires Valid()
      modifies this
      ensures Valid() && clock == old(clock) + 1 && taken == !refuses(old(clock))
      ensures world == if taken then Put(old(world), t, WithoutId(Get(old(world), t), i)) else old(world)
    {
      taken := Take();
      if taken {
        RemoveWellFormed(world, t, i);
        world := Put(world, t, WithoutId(Get(world, t), i));
      }
    }

    /** Adds at the end, or a rule in front of the rule with the given id. */
    method Add(t: Table, body: Body, at: nat) returns (taken: bool)
      requires Valid() && (body.Mangled? <==> t.Mangle?) && at <= |Get(world, t)|
      modifies this
      ensures Valid() && clock == old(clock) + 1 && taken == !refuses(old(clock))
      ensures world == if taken then Inserted(old(world), t, body, at) else old(world)
    {
      taken := Take();
      if taken {
        InsertWellFormed(world, t, body, at);
        world := Inserted(world, t, body, at);
      }
    }
  }

  function Inserted(w: World, t: Table, body: Body, at: nat): World
    requires at <= |Get(w, t)|
  {
    var items := Get(w, t);
    Put(w, t, items[..at] + [Item(w.next, body)] + items[at..]).(next := w.next + 1)
  }

  lemma RemoveWellFormed(w: World, t: Table, i: Id)
    requires WellFormed(w)
    ensures WellFormed(Put(w, t, WithoutId(Get(w, t), i)))
  {
    RemoveOk(Get(w, t), i, w.next, t.Mangle?);
  }

  lemma RemoveOk(items: seq<Item>, i: Id, next: Id, rules: bool)
    requires TableOk(items, next, rules)
    ensures TableOk(WithoutId(items, i), next, rules)
  {
    WithoutIdDistinct(items, i);
    WithoutIdMembers(items, i);
    var left := WithoutId(items, i);
    forall k | 0 <= k < |left| ensures left[k].id < next && (left[k].body.Mangled? <==> rules) {
      assert left[k] in items;
      var j :| 0 <= j < |items| && items[j] == left[k];
    }
  }

  lemma InsertWellFormed(w: World, t: Table, body: Body, at: nat)
    requires WellFormed(w) && at <= |Get(w, t)| && (body.Mangled? <==> t.Mangle?)
    ensures WellFormed(Inserted(w, t, body, at))
  {
    InsertOk(Get(w, t), body, at, w.next, t.Mangle?);
  }

  lemma InsertOk(items: seq<Item>, body: Body, at: nat, next: Id, rules: bool)
    requires TableOk(items, next, rules) && at <= |items| && (body.Mangled? <==> rules)
    ensures TableOk(items[..at] + [Item(next, body)] + items[at..], next + 1, rules)
  {
    var out := items[..at] + [Item(next, body)] + items[at..];
    assert forall k :: 0 <= k < |out| ==> out[k] == if k < at then items[k] else if k == at then Item(next, body) else items[k - 1];
  }

  // ---- removing the old policy -------------------------------------------------------------------------------------------

  ghost predicate Accepted(refuses: nat -> bool, from: nat, to: nat) { forall n :: from <= n < to ==> !refuses(n) }

  lemma MineOnly(items: seq<Item>, now: seq<Item>, i: Id)
    requires Distinct(items) && i in MyIds(items) && forall x :: x in now ==> x in items
    ensures forall x :: x in now && x.id == i ==> Mine(x.body)
  {
    MyIdsAreIds(items);
    var y :| y in items && y.id == i && Mine(y.body);
    forall x | x in now && x.id == i ensures Mine(x.body) { SameId(items, x, y); }
  }

  lemma SameId(items: seq<Item>, x: Item, y: Item)
    requires Distinct(items) && x in items && y in items && x.id == y.id
    ensures x == y
  {}

  /** Print, then remove one by one; what a removal answers is ignored. */
  method RemoveMatching(b: Board, t: Table) returns (ok: bool)
    requires b.Valid()
    modifies b
    ensures b.Valid() && old(b.clock) < b.clock && b.world == Put(old(b.world), t, Get(b.world, t))
    ensures Others(Get(b.world, t)) == Others(Get(old(b.world), t))
    ensures Accepted(b.refuses, old(b.clock), b.clock) ==> ok
    ensures Accepted(b.refuses, old(b.clock), b.clock) && |MyIds(Get(old(b.world), t))| <= SCAN_LIMIT ==>
      Get(b.world, t) == Others(Get(old(b.world), t))
  {
    ghost var items := Get(b.world, t);
    var ids;
    ok, ids := b.Collect(t);
    if !ok { return; }
    RemovalLeavesOthers(items);
    assert forall k :: 0 <= k < |ids| ==> ids[k] in MyIds(items);
    RemoveEach(b, t, ids);
  }

  method RemoveEach(b: Board, t: Table, ids: seq<Id>)
    requires b.Valid() && forall k :: 0 <= k < |ids| ==> ids[k] in MyIds(Get(b.world, t))
    modifies b
    ensures b.Valid() && old(b.clock) <= b.clock && b.world == Put(old(b.world), t, Get(b.world, t))
    ensures Others(Get(b.world, t)) == Others(Get(old(b.world), t))
    ensures Accepted(b.refuses, old(b.clock), b.clock) ==> Get(b.world, t) == WithoutIds(Get(old(b.world), t), ids)
  {
    ghost var items := Get(b.world, t);
    for k := 0 to |ids|
      invariant b.Valid() && b.clock == old(b.clock) + k && b.world == Put(old(b.world), t, Get(b.world, t))
      invariant Others(Get(b.world, t)) == Others(items) && forall x :: x in Get(b.world, t) ==> x in items
      invariant Accepted(b.refuses, old(b.clock), b.clock) ==>
        WithoutIds(Get(b.world, t), ids[k..]) == WithoutIds(items, ids)
    {
      assert ids[k..][1..] == ids[k + 1..];
      var taken := RemoveOne(b, t, ids[k], items);
    }
  }

  method RemoveOne(b: Board, t: Table, i: Id, ghost items: seq<Item>) returns (taken: bool)
    requires b.Valid() && Distinct(items) && i in MyIds(items) && forall x :: x in Get(b.world, t) ==> x in items
    modifies b
    ensures b.Valid() && b.clock == old(b.clock) + 1 && b.world == Put(old(b.world), t, Get(b.world, t))
    ensures Others(Get(b.world, t)) == Others(Get(old(b.world), t)) && forall x :: x in Get(b.world, t) ==> x in items
    ensures !b.refuses(old(b.clock)) ==> Get(b.world, t) == WithoutId(Get(old(b.world), t), i)
  {
    ghost var now := Get(b.world, t);
    MineOnly(items, now, i);
    OthersStay(now, i);
    WithoutIdMembers(now, i);
    taken := b.Remove(t, i);
  }

  // ---- putting the new one in ---------------------------------------------------------------------------------------------

  function Of(policy: seq<Policy.Entry>, kind: Policy.Kind): seq<string> {
    if policy == [] then []
    else Of(policy[..|policy| - 1], kind)
         + (if policy[|policy| - 1].kind == kind then [policy[|policy| - 1].value] else [])
  }

  lemma {:induction false} ValueAppended(items: seq<Item>, x: Item)
    requires Mine(x.body) && x.body.Listed?
    ensures Values(items + [x]) == Values(items) + [x.body.value]
  {
    if items == [] {
      assert [] + [x] == [x] && [x][1..] == [];
    } else {
      ValueAppended(items[1..], x);
      assert (items + [x])[1..] == items[1..] + [x];
    }
  }

  lemma {:induction false} OthersAppended(items: seq<Item>, x: Item)
    requires Mine(x.body)
    ensures Others(items + [x]) == Others(items)
  {
    if items == [] {
      assert [] + [x] == [x] && [x][1..] == [];
    } else {
      OthersAppended(items[1..], x);
      assert (items + [x])[1..] == items[1..] + [x];
    }
  }

  lemma {:induction false} OthersHaveNoValues(items: seq<Item>)
    ensures Values(Others(items)) == [] && Others(Others(items)) == Others(items)
  {
    if items != [] {
      OthersHaveNoValues(items[1..]);
      var rest := Others(items[1..]);
      if !Mine(items[0].body) { assert ([items[0]] + rest)[1..] == rest; } else { assert [] + rest == rest; }
    }
  }

  lemma {:induction false} OtherRules(items: seq<Item>)
    requires forall i :: 0 <= i < |items| ==> items[i].body.Mangled?
    ensures forall i :: 0 <= i < |Others(items)| ==> Others(items)[i].body.Mangled?
    ensures RulesOf(Others(items)) == Without(RulesOf(items), VpnDirect)
  {
    if items != [] {
      OtherRules(items[1..]);
      assert RulesOf(items)[1..] == RulesOf(items[1..]);
      var rest := Others(items[1..]);
      if !Mine(items[0].body) { assert ([items[0]] + rest)[1..] == rest; } else { assert [] + rest == rest; }
    }
  }

  /** The mangle list after a synchronisation. */
  function WithBypass(rules: seq<Rule>, policy: seq<Policy.Entry>): seq<Rule> {
    if policy == [] then Without(rules, VpnDirect) else InsertBypass(Without(rules, VpnDirect))
  }

  /** The bypass rule, in front of the first managed prerouting rule. */
  method AddBypass(b: Board, configured: bool) returns (ok: bool)
    requires b.Valid()
    modifies b
    ensures b.Valid() && old(b.clock) <= b.clock && b.world == old(b.world).(mangle := b.world.mangle, next := b.world.next)
    ensures ok ==> RulesOf(b.world.mangle) == InsertBypass(RulesOf(old(b.world).mangle))
    ensures configured && Accepted(b.refuses, old(b.clock), b.clock) ==> ok
    ensures ok ==> configured
  {
    if !configured { return false; }
    ok := b.Take();
    if !ok { return; }
    var rules := RulesOf(b.world.mangle);
    var first := FirstManaged(rules);
    ok := b.Add(Mangle, Mangled(Rule(VpnDirect, true)), first);
    RulesOfInsert(old(b.world).mangle, first, Item(old(b.world).next, Mangled(Rule(VpnDirect, true))));
  }

  lemma {:induction false} RulesOfInsert(items: seq<Item>, at: nat, x: Item)
    requires at <= |items| && x.body.Mangled? && forall i :: 0 <= i < |items| ==> items[i].body.Mangled?
    ensures RulesOf(items[..at] + [x] + items[at..]) == InsertAt(RulesOf(items), at, x.body.rule)
  {
    var out, rules := items[..at] + [x] + items[at..], InsertAt(RulesOf(items), at, x.body.rule);
    forall k | 0 <= k < |out| ensures out[k].body.Mangled? && out[k].body.rule == rules[k] {
      assert out[k] == if k < at then items[k] else if k == at then x else items[k - 1];
    }
    assert RulesOf(out) == rules;
  }

  /** One entry of the policy. */
  method AddEntry(b: Board, e: Policy.Entry) returns (ok: bool)
    requires b.Valid()
    modifies b
    ensures b.Valid() && b.clock == old(b.clock) + 1 && ok == !b.refuses(old(b.clock)) && b.world.mangle == old(b.world).mangle
    ensures Others(b.world.list) == Others(old(b.world).list) && Others(b.world.dns) == Others(old(b.world).dns)
    ensures ok ==> Values(b.world.list) == Values(old(b.world).list) + (if e.kind.Ip? then [e.value] else [])
    ensures ok ==> Values(b.world.dns) == Values(old(b.world).dns) + (if e.kind.Domain? then [e.value] else [])
  {
    var t := if e.kind.Ip? then AddressList else DnsStatic;
    var items := Get(b.world, t);
    ghost var x := Item(b.world.next, Listed(true, e.value));
    ok := b.Add(t, Listed(true, e.value), |items|);
    ValueAppended(items, x);
    OthersAppended(items, x);
    assert items[..|items|] + [x] + items[|items|..] == items + [x];
  }

  method AddEntries(b: Board, policy: seq<Policy.Entry>) returns (ok: bool, domains: nat)
    requires b.Valid()
    modifies b
    ensures b.Valid() && old(b.clock) <= b.clock && b.world.mangle == old(b.world).mangle
    ensures Others(b.world.list) == Others(old(b.world).list) && Others(b.world.dns) == Others(old(b.world).dns)
    ensures ok ==> Values(b.world.list) == Values(old(b.world).list) + Of(policy, Policy.Ip)
    ensures ok ==> Values(b.world.dns) == Values(old(b.world).dns) + Of(policy, Policy.Domain)
    ensures Accepted(b.refuses, old(b.clock), b.clock) ==> ok
  {
    domains := 0;
    for i := 0 to |policy|
      invariant b.Valid() && b.clock == old(b.clock) + i && b.world.mangle == old(b.world).mangle
      invariant Others(b.world.list) == Others(old(b.world).list) && Others(b.world.dns) == Others(old(b.world).dns)
      invariant Values(b.world.list) == Values(old(b.world).list) + Of(policy[..i], Policy.Ip)
      invariant Values(b.world.dns) == Values(old(b.world).dns) + Of(policy[..i], Policy.Domain)
    {
      assert policy[..i + 1][..i] == policy[..i];
      ok := AddEntry(b, policy[i]);
      if !ok { return; }
      if policy[i].kind.Domain? { domains := domains + 1; }
    }
    assert policy[..|policy|] == policy;
    ok := true;
  }

  /** The router holds exactly this policy; everything else is as it was. */
  ghost predicate Synced(before: World, now: World, policy: seq<Policy.Entry>)
    requires WellFormed(before) && WellFormed(now)
  {
    && Others(now.list) == Others(before.list) && Values(now.list) == Of(policy, Policy.Ip)
    && Others(now.dns) == Others(before.dns) && Values(now.dns) == Of(policy, Policy.Domain)
    && RulesOf(now.mangle) == WithBypass(RulesOf(before.mangle), policy)
  }

  predicate Small(w: World) { forall t: Table :: |MyIds(Get(w, t))| <= SCAN_LIMIT }

  /** Everything of the old policy goes. */
  method RemoveOld(b: Board) returns (ok: bool)
    requires b.Valid()
    modifies b
    ensures b.Valid() && old(b.clock) < b.clock
    ensures Others(b.world.list) == Others(old(b.world).list) && Others(b.world.dns) == Others(old(b.world).dns)
    ensures Others(b.world.mangle) == Others(old(b.world).mangle)
    ensures Accepted(b.refuses, old(b.clock), b.clock) ==> ok
    ensures Accepted(b.refuses, old(b.clock), b.clock) && Small(old(b.world)) ==>
      && b.world.list == Others(old(b.world).list) && b.world.dns == Others(old(b.world).dns)
      && b.world.mangle == Others(old(b.world).mangle)
  {
    ghost var w := b.world;
    assert Get(w, AddressList) == w.list && Get(w, DnsStatic) == w.dns && Get(w, Mangle) == w.mangle;
    ok := RemoveMatching(b, AddressList);
    if !ok { return; }
    ok := RemoveMatching(b, DnsStatic);
    if !ok { return; }
    ok := RemoveMatching(b, Mangle);
  }

  lemma RemovedAll(w: World, now: World)
    requires WellFormed(w) && WellFormed(now)
    requires now.list == Others(w.list) && now.dns == Others(w.dns) && now.mangle == Others(w.mangle)
    ensures Values(now.list) == [] && Values(now.dns) == [] && RulesOf(now.mangle) == Without(RulesOf(w.mangle), VpnDirect)
  {
    OthersHaveNoValues(w.list);
    OthersHaveNoValues(w.dns);
    OtherRules(w.mangle);
  }

  /** Old policy out, new policy in. `removed` commands had been issued when the old policy was out, `last` when the last
      command had been issued whose answer counts: that to the flush of the DNS cache is ignored. */
  method SyncPolicy(b: Board, policy: seq<Policy.Entry>, configured: bool)
      returns (ok: bool, ghost removed: nat, ghost last: nat)
    requires b.Valid()
    modifies b
    ensures b.Valid() && old(b.clock) <= removed <= last <= b.clock <= last + 1
    ensures Others(b.world.list) == Others(old(b.world).list) && Others(b.world.dns) == Others(old(b.world).dns)
    ensures Accepted(b.refuses, old(b.clock), last) ==> (ok <==> configured || policy == [])
    ensures Accepted(b.refuses, old(b.clock), removed) && Small(old(b.world)) && ok ==>
      Synced(old(b.world), b.world, policy)
  {
    ghost var w, from := b.world, b.clock;
    ok := RemoveOld(b);
    removed, last := b.clock, b.clock;
    ghost var calm := Accepted(b.refuses, from, removed) && Small(w);
    if calm { RemovedAll(w, b.world); }
    if !ok || policy == [] { return; }
    ok, last := PutNew(b, policy, configured);
  }

  method PutNew(b: Board, policy: seq<Policy.Entry>, configured: bool) returns (ok: bool, ghost last: nat)
    requires b.Valid() && policy != []
    modifies b
    ensures b.Valid() && old(b.clock) <= last <= b.clock <= last + 1 && (ok ==> configured)
    ensures Others(b.world.list) == Others(old(b.world).list) && Others(b.world.dns) == Others(old(b.world).dns)
    ensures Accepted(b.refuses, old(b.clock), last) && configured ==> ok
    ensures ok ==> Values(b.world.list) == Values(old(b.world).list) + Of(policy, Policy.Ip)
    ensures ok ==> Values(b.world.dns) == Values(old(b.world).dns) + Of(policy, Policy.Domain)
    ensures ok ==> RulesOf(b.world.mangle) == InsertBypass(RulesOf(old(b.world).mangle))
  {
    ok := AddBypass(b, configured);
    last := b.clock;
    if !ok { return; }
    var domains;
    ok, domains := AddEntries(b, policy);
    last := b.clock;
    if ok && domains > 0 { var flushed := b.Take(); }
  }

  /** With the removals accepted and no more than 512 old objects in each table, a synchronisation that reports success
      leaves exactly the stored policy on the router, and the bypass rule if and only if that is not empty. It fails only
      if one of the commands up to `last` is refused or the target is missing. */
  method Sync(b: Board, store: Policy.Store, configured: bool) returns (ok: bool, ghost removed: nat, ghost last: nat)
    requires b.Valid() && store.Valid()
    modifies b
    ensures b.Valid() && store.Valid() && old(b.clock) <= removed <= last <= b.clock <= last + 1
    ensures Others(b.world.list) == Others(old(b.world).list) && Others(b.world.dns) == Others(old(b.world).dns)
    ensures Accepted(b.refuses, old(b.clock), last) ==> (ok <==> configured || store.policy == [])
    ensures Accepted(b.refuses, old(b.clock), removed) && Small(old(b.world)) && ok ==>
      Synced(old(b.world), b.world, store.policy)
  {
    var loaded, table := store.Load();
    ok, removed, last := SyncPolicy(b, table.entries[..table.count], configured);
  }

  // ---- what a synchronised router does --------------------------------------------------------------------------------

  lemma {:induction false} WithoutNothing(rules: seq<Rule>, c: Comment)
    requires forall i :: 0 <= i < |rules| ==> rules[i].comment != c
    ensures Without(rules, c) == rules
  {
    if rules != [] {
      assert forall i :: 0 <= i < |rules[1..]| ==> rules[1..][i] == rules[i + 1];
      WithoutNothing(rules[1..], c);
    }
  }

  lemma {:induction false} WithoutLeavesNone(rules: seq<Rule>, c: Comment)
    ensures forall i :: 0 <= i < |Without(rules, c)| ==> Without(rules, c)[i].comment != c
  {
    if rules != [] { WithoutLeavesNone(rules[1..], c); }
  }

  lemma {:induction false} WithoutJoin(a: seq<Rule>, b: seq<Rule>, c: Comment)
    ensures Without(a + b, c) == Without(a, c) + Without(b, c)
  {
    if a == [] {
      assert a + b == b && [] + Without(b, c) == Without(b, c);
    } else {
      WithoutJoin(a[1..], b, c);
      assert (a + b)[1..] == a[1..] + b;
      if a[0].comment != c { Regroup([a[0]], Without(a[1..], c), Without(b, c)); }
    }
  }

  lemma Regroup(a: seq<Rule>, b: seq<Rule>, c: seq<Rule>)
    ensures a + (b + c) == a + b + c
  {}

  lemma BypassTwice(rules: seq<Rule>)
    requires forall i :: 0 <= i < |rules| ==> !rules[i].comment.VpnDirect?
    ensures Without(InsertBypass(rules), VpnDirect) == rules
  {
    var k := FirstManaged(rules);
    WithoutMiddle(rules[..k], Rule(VpnDirect, true), rules[k..]);
    WithoutNothing(rules[..k], VpnDirect);
    WithoutNothing(rules[k..], VpnDirect);
    assert rules[..k] + rules[k..] == rules;
  }

  lemma WithoutMiddle(a: seq<Rule>, r: Rule, b: seq<Rule>)
    ensures Without(a + [r] + b, r.comment) == Without(a, r.comment) + Without(b, r.comment)
  {
    WithoutJoin(a + [r], b, r.comment);
    WithoutJoin(a, [r], r.comment);
    assert [r][1..] == [] && Without([r], r.comment) == [];
  }

  /** The same contents, under other ids. */
  ghost predicate SameButIds(w: World, v: World)
    requires WellFormed(w) && WellFormed(v)
  {
    && Values(v.list) == Values(w.list) && Others(v.list) == Others(w.list)
    && Values(v.dns) == Values(w.dns) && Others(v.dns) == Others(w.dns)
    && RulesOf(v.mangle) == RulesOf(w.mangle)
  }

  /** Doing it again changes ids only. */
  lemma SyncTwice(w0: World, w1: World, w2: World, policy: seq<Policy.Entry>)
    requires WellFormed(w0) && WellFormed(w1) && WellFormed(w2)
    requires Synced(w0, w1, policy) && Synced(w1, w2, policy)
    ensures SameButIds(w1, w2) && Synced(w0, w2, policy)
  {
    var left := Without(RulesOf(w0.mangle), VpnDirect);
    WithoutLeavesNone(RulesOf(w0.mangle), VpnDirect);
    if policy == [] { WithoutNothing(left, VpnDirect); } else { BypassTwice(left); }
  }

  lemma {:induction false} MyEntries(items: seq<Item>)
    requires forall i :: 0 <= i < |items| ==> items[i].body.Listed?
    ensures |MyIds(items)| == |Values(items)|
  {
    if items != [] { MyEntries(items[1..]); }
  }

  lemma {:induction false} MyRules(items: seq<Item>)
    requires forall i :: 0 <= i < |items| ==> items[i].body.Mangled?
    ensures |MyIds(items)| + |Without(RulesOf(items), VpnDirect)| == |items|
  {
    if items != [] {
      MyRules(items[1..]);
      assert RulesOf(items)[1..] == RulesOf(items[1..]);
    }
  }

  lemma {:induction false} OfIsSmaller(policy: seq<Policy.Entry>, kind: Policy.Kind)
    ensures |Of(policy, kind)| <= |policy|
  {
    if policy != [] { OfIsSmaller(policy[..|policy| - 1], kind); }
  }

  /** A synchronised router is small enough to be synchronised again: it has no more of ours than the policy, which is
      limited to 256 entries. */
  lemma SyncedIsSmall(before: World, now: World, policy: seq<Policy.Entry>)
    requires WellFormed(before) && WellFormed(now) && Synced(before, now, policy) && |policy| <= Policy.MAX_ENTRIES
    ensures Small(now)
  {
    MyEntries(now.list);
    MyEntries(now.dns);
    MyRules(now.mangle);
    OfIsSmaller(policy, Policy.Ip);
    OfIsSmaller(policy, Policy.Domain);
    var left := Without(RulesOf(before.mangle), VpnDirect);
    WithoutLeavesNone(RulesOf(before.mangle), VpnDirect);
    if policy == [] { WithoutNothing(left, VpnDirect); } else { BypassTwice(left); }
  }

  /** Two synchronisations in a row, both successful; `once` is what the first one left, and the removals of the second
      are the commands from `start` up to `again`. */
  method SyncAgain(b: Board, store: Policy.Store, configured: bool)
      returns (ok: bool, ghost once: World, ghost removed: nat, ghost start: nat, ghost again: nat)
    requires b.Valid() && store.Valid()
    modifies b
    ensures b.Valid() && WellFormed(once) && old(b.clock) <= removed <= start <= again <= b.clock
    ensures Accepted(b.refuses, old(b.clock), b.clock) ==> (ok <==> configured || store.policy == [])
    ensures Accepted(b.refuses, old(b.clock), removed) && Accepted(b.refuses, start, again) && Small(old(b.world)) && ok ==>
      Synced(old(b.world), once, store.policy) && SameButIds(once, b.world) && Synced(old(b.world), b.world, store.policy)
  {
    ghost var w, from, last := b.world, b.clock, 0;
    ok, removed, last := Sync(b, store, configured);
    once, start, again := b.world, b.clock, b.clock;
    if ok {
      ghost var calm := Accepted(b.refuses, from, removed) && Small(w);
      if calm { SyncedIsSmall(w, once, store.policy); }
      ok, again, last := Sync(b, store, configured);
      if calm && Accepted(b.refuses, start, again) && ok { SyncTwice(w, once, b.world, store.policy); }
    }
  }

  /** On an ordered rule list the synchronised bypass rule wins: every packet to a VPN Direct address goes to the
      target table, whatever the adaptive rules say, and the list stays ordered. */
  lemma SyncedBypasses(before: World, now: World, policy: seq<Policy.Entry>, p: Packet, lists: Lists, mark: Mark)
    requires WellFormed(before) && WellFormed(now) && Synced(before, now, policy) && policy != []
    requires Ordered(RulesOf(before.mangle)) && RuleOrder.Unique(RulesOf(before.mangle))
    ensures Ordered(RulesOf(now.mangle)) && RuleOrder.Unique(RulesOf(now.mangle))
    ensures p.dst in lists.direct && !p.local ==> Pass(RulesOf(now.mangle), p, lists, mark) == Outcome(mark, true)
  {
    var rules := RulesOf(before.mangle);
    var left := Without(rules, VpnDirect);
    WithoutKeepsOrder(rules, VpnDirect);
    WithoutLeavesNone(rules, VpnDirect);
    CountZero(left, VpnDirect);
    ApplyKeeps(left, Op.AddBypass);
    var k := FirstManaged(left);
    assert InsertBypass(left)[k] == Rule(VpnDirect, true);
    if p.dst in lists.direct && !p.local { DirectAlwaysBypasses(InsertBypass(left), p, lists, mark); }
  }
}
