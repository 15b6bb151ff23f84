/** The firewall's mangle list: which managed rules it may contain, the operations that change it, the order they
    keep, and what that order does to a packet. */
module RuleOrder {
  import opened Namespace

  datatype MarkKind = TestMark | OkMark

  /** A rule is known by its comment; `Foreign` is any rule of somebody else. */
  datatype Comment =
    | VpnDirect
    | Safety(network: nat)
    | FixedMark(kind: MarkKind, proto: Proto)
    | RouteOk
    | RouteTest
    | RouterDns(proto: Proto)
    | Lazy(proto: Proto, port: nat, kind: MarkKind)
    | Foreign(text: string)

  datatype Rule = Rule(comment: Comment, enabled: bool)

  /** Comments that start with "AUTO-AWG:". */
  predicate IsAuto(c: Comment) { c.FixedMark? || c.RouteOk? || c.RouteTest? || c.RouterDns? || c.Lazy? }

  /** Comments of the prerouting chain that start with "AUTO-AWG:" or "SUSANIN:". */
  predicate IsManagedPrerouting(c: Comment) { c.VpnDirect? || c.Safety? || (IsAuto(c) && !c.RouterDns?) }

  /** The rules a fresh install appends, in order. */
  const INSTALL_ORDER: seq<Comment> := [
    Safety(0), Safety(1), Safety(2),
    FixedMark(OkMark, Tcp), FixedMark(TestMark, Tcp), FixedMark(OkMark, Udp), FixedMark(TestMark, Udp),
    RouteOk, RouteTest, RouterDns(Udp), RouterDns(Tcp)]

  /** `a` must never stand behind `b`. */
  predicate Before(a: Comment, b: Comment) {
    || (a.VpnDirect? && IsManagedPrerouting(b) && !b.VpnDirect?)
    || (a.Safety? && (b.FixedMark? || b.RouteOk? || b.RouteTest?))
    || ((a.FixedMark? || a.Lazy?) && (b.RouteOk? || b.RouteTest?))
    || (a.RouteOk? && b.RouteTest?)
  }

  predicate Ordered(rules: seq<Rule>) {
    forall i, j :: 0 <= i < j < |rules| ==> !Before(rules[j].comment, rules[i].comment)
  }

  // ---- operations -----------------------------------------------------------------------------------

  function Count(rules: seq<Rule>, c: Comment): nat {
    if rules == [] then 0 else (if rules[0].comment == c then 1 else 0) + Count(rules[1..], c)
  }

  /** First position holding comment `c`, or the length. */
  function IndexOf(rules: seq<Rule>, c: Comment): (i: nat)
    ensures i <= |rules|
    ensures i < |rules| ==> rules[i].comment == c
    ensures forall k :: 0 <= k < i ==> rules[k].comment != c
    ensures i < |rules| <==> Count(rules, c) > 0
  {
    if rules == [] then 0 else if rules[0].comment == c then 0 else 1 + IndexOf(rules[1..], c)
  }

  /** First managed prerouting rule, or the length. */
  function FirstManaged(rules: seq<Rule>): (i: nat)
    ensures i <= |rules|
    ensures i < |rules| ==> IsManagedPrerouting(rules[i].comment)
    ensures forall k :: 0 <= k < i ==> !IsManagedPrerouting(rules[k].comment)
  {
    if rules == [] then 0 else if IsManagedPrerouting(rules[0].comment) then 0 else 1 + FirstManaged(rules[1..])
  }

  function InsertAt(rules: seq<Rule>, i: nat, r: Rule): seq<Rule>
    requires i <= |rules|
  {
    rules[..i] + [r] + rules[i..]
  }

  function Without(rules: seq<Rule>, c: Comment): seq<Rule> {
    if rules == [] then []
    else (if rules[0].comment == c then [] else [rules[0]]) + Without(rules[1..], c)
  }

  function RemoveAt(rules: seq<Rule>, i: nat): seq<Rule>
    requires i < |rules|
  {
    rules[..i] + rules[i + 1..]
  }

  /** A lazy rule goes immediately in front of the confirmed-route rule. */
  function InsertLazy(rules: seq<Rule>, c: Comment): seq<Rule> {
    InsertAt(rules, IndexOf(rules, RouteOk), Rule(c, true))
  }

  /** The bypass rule goes in front of the first managed prerouting rule, or last if there is none. */
  function InsertBypass(rules: seq<Rule>): seq<Rule> {
    InsertAt(rules, FirstManaged(rules), Rule(VpnDirect, true))
  }

  datatype Op =
    | Install(k: nat)                      // append rule k of the install order, disabled
    | Enable(i: nat, on: bool)
    | AddLazy(proto: Proto, port: nat, kind: MarkKind)
    | Remove(i: nat)                       // GC, cleanup, undo, duplicate removal, bypass removal
    | AddBypass                            // only after every older bypass rule is gone
    | ForeignAdd(i: nat, text: string)

  /** The circumstances under which the program issues the operation. */
  predicate Allowed(rules: seq<Rule>, op: Op) {
    match op
    case Install(k) => k < |INSTALL_ORDER| && forall n :: k <= n < |INSTALL_ORDER| ==> Count(rules, INSTALL_ORDER[n]) == 0
    case Enable(i, _) => i < |rules|
    case AddLazy(_, _, _) => Count(rules, RouteOk) == 1
    case Remove(i) => i < |rules|
    case AddBypass => Count(rules, VpnDirect) == 0
    case ForeignAdd(i, _) => i <= |rules|
  }

  function Apply(rules: seq<Rule>, op: Op): seq<Rule>
    requires Allowed(rules, op)
  {
    match op
    case Install(k) => rules + [Rule(INSTALL_ORDER[k], false)]
    case Enable(i, on) => rules[i := rules[i].(enabled := on)]
    case AddLazy(proto, port, kind) => InsertLazy(rules, Lazy(proto, port, kind))
    case Remove(i) => RemoveAt(rules, i)
    case AddBypass => InsertBypass(rules)
    case ForeignAdd(i, text) => InsertAt(rules, i, Rule(Foreign(text), true))
  }

  // ---- the order is kept ------------------------------------------------------------------------------

  /** No rule the install adds occurs twice, nor does the bypass rule. */
  predicate Unique(rules: seq<Rule>) {
    forall i, j :: 0 <= i < j < |rules| && !rules[i].comment.Lazy? && !rules[i].comment.Foreign? ==>
                     rules[i].comment != rules[j].comment
  }

  lemma {:induction false} CountZero(rules: seq<Rule>, c: Comment)
    ensures Count(rules, c) == 0 <==> forall i :: 0 <= i < |rules| ==> rules[i].comment != c
  {
    if rules != [] {
      CountZero(rules[1..], c);
      assert forall i :: 0 < i < |rules| ==> rules[i] == rules[1..][i - 1];
      if forall i :: 0 <= i < |rules| ==> rules[i].comment != c {
        assert rules[0].comment != c;
        forall i | 0 <= i < |rules[1..]| ensures rules[1..][i].comment != c { assert rules[1..][i] == rules[i + 1]; }
      }
    }
  }

  lemma {:induction false} CountOne(rules: seq<Rule>, c: Comment)
    requires Count(rules, c) == 1
    ensures IndexOf(rules, c) < |rules|
    ensures forall i :: 0 <= i < |rules| && rules[i].comment == c ==> i == IndexOf(rules, c)
  {
    if rules[0].comment == c {
      CountZero(rules[1..], c);
      assert forall i :: 0 < i < |rules| ==> rules[i] == rules[1..][i - 1];
    } else {
      CountOne(rules[1..], c);
      forall i | 0 <= i < |rules| && rules[i].comment == c ensures i == 1 + IndexOf(rules[1..], c) {
        assert rules[1..][i - 1] == rules[i];
      }
    }
  }

  lemma InsertKeepsOrder(rules: seq<Rule>, i: nat, r: Rule)
    requires Ordered(rules) && i <= |rules|
    requires forall k :: 0 <= k < i ==> !Before(r.comment, rules[k].comment)
    requires forall k :: i <= k < |rules| ==> !Before(rules[k].comment, r.comment)
    ensures Ordered(InsertAt(rules, i, r))
  {
    var out := InsertAt(rules, i, r);
    assert forall k :: 0 <= k < |out| ==> out[k] == if k < i then rules[k] else if k == i then r else rules[k - 1];
  }

  lemma InsertKeepsUnique(rules: seq<Rule>, i: nat, r: Rule)
    requires Unique(rules) && i <= |rules|
    requires r.comment.Lazy? || r.comment.Foreign? || forall k :: 0 <= k < |rules| ==> rules[k].comment != r.comment
    ensures Unique(InsertAt(rules, i, r))
  {
    var out := InsertAt(rules, i, r);
    assert forall k :: 0 <= k < |out| ==> out[k] == if k < i then rules[k] else if k == i then r else rules[k - 1];
  }

  lemma RemoveKeeps(rules: seq<Rule>, i: nat)
    requires Ordered(rules) && Unique(rules) && i < |rules|
    ensures Ordered(RemoveAt(rules, i)) && Unique(RemoveAt(rules, i))
  {
    var out := RemoveAt(rules, i);
    assert forall k :: 0 <= k < |out| ==> out[k] == if k < i then rules[k] else rules[k + 1];
  }

  lemma InstallKeeps(rules: seq<Rule>, k: nat)
    requires Ordered(rules) && Unique(rules) && Allowed(rules, Install(k))
    ensures Ordered(rules + [Rule(INSTALL_ORDER[k], false)]) && Unique(rules + [Rule(INSTALL_ORDER[k], false)])
  {
    var r := Rule(INSTALL_ORDER[k], false);
    assert rules + [r] == InsertAt(rules, |rules|, r);
    forall n | k <= n < |INSTALL_ORDER| ensures forall i :: 0 <= i < |rules| ==> rules[i].comment != INSTALL_ORDER[n] {
      CountZero(rules, INSTALL_ORDER[n]);
    }
    forall i | 0 <= i < |rules| ensures !Before(r.comment, rules[i].comment) {
      if Before(r.comment, rules[i].comment) { LaterInInstall(k, rules[i].comment); }
    }
    InsertKeepsOrder(rules, |rules|, r);
    InsertKeepsUnique(rules, |rules|, r);
  }

  function InstallIndex(c: Comment): (n: nat)
    requires (c.FixedMark? || c.RouteOk? || c.RouteTest?)
    ensures n < |INSTALL_ORDER| && INSTALL_ORDER[n] == c
  {
    match c
    case FixedMark(OkMark, Tcp) => 3
    case FixedMark(TestMark, Tcp) => 4
    case FixedMark(OkMark, Udp) => 5
    case FixedMark(TestMark, Udp) => 6
    case RouteOk => 7
    case RouteTest => 8
  }

  /** What must stand behind rule `k` of the install order is installed after it. */
  lemma LaterInInstall(k: nat, b: Comment)
    requires k < |INSTALL_ORDER| && Before(INSTALL_ORDER[k], b)
    ensures exists n :: k <= n < |INSTALL_ORDER| && INSTALL_ORDER[n] == b
  {
    var n := InstallIndex(b);
    assert INSTALL_ORDER[n] == b;
    assert k <= n;
  }

  lemma ApplyKeeps(rules: seq<Rule>, op: Op)
    requires Ordered(rules) && Unique(rules) && Allowed(rules, op)
    ensures Ordered(Apply(rules, op)) && Unique(Apply(rules, op))
  {
    match op
    case Install(k) => InstallKeeps(rules, k);
    case Enable(i, on) =>
    case Remove(i) => RemoveKeeps(rules, i);
    case AddLazy(proto, port, kind) =>
      CountOne(rules, RouteOk);
      var r := Rule(Lazy(proto, port, kind), true);
      InsertKeepsOrder(rules, IndexOf(rules, RouteOk), r);
      InsertKeepsUnique(rules, IndexOf(rules, RouteOk), r);
    case AddBypass =>
      CountZero(rules, VpnDirect);
      InsertKeepsOrder(rules, FirstManaged(rules), Rule(VpnDirect, true));
      InsertKeepsUnique(rules, FirstManaged(rules), Rule(VpnDirect, true));
    case ForeignAdd(i, text) =>
      InsertKeepsOrder(rules, i, Rule(Foreign(text), true));
      InsertKeepsUnique(rules, i, Rule(Foreign(text), true));
  }

  /** The operations can be issued one after the other. */
  predicate Legal(rules: seq<Rule>, ops: seq<Op>)
    decreases |ops|
  {
    ops == [] || (Allowed(rules, ops[0]) && Legal(Apply(rules, ops[0]), ops[1..]))
  }

  function Replay(rules: seq<Rule>, ops: seq<Op>): seq<Rule>
    requires Legal(rules, ops)
    decreases |ops|
  {
    if ops == [] then rules else Replay(Apply(rules, ops[0]), ops[1..])
  }

  /** Every list reachable from a router without managed rules is ordered: the bypass rule stands before every
      other managed prerouting rule, marking rules before routing rules, and no rule but a lazy one is there twice. */
  lemma ReachableIsOrdered(start: seq<Rule>, ops: seq<Op>)
    requires (forall i :: 0 <= i < |start| ==> start[i].comment.Foreign?) && Legal(start, ops)
    ensures Ordered(Replay(start, ops)) && Unique(Replay(start, ops))
  {
    OrderSurvives(start, ops);
  }

  lemma {:induction false} OrderSurvives(rules: seq<Rule>, ops: seq<Op>)
    requires Ordered(rules) && Unique(rules) && Legal(rules, ops)
    ensures Ordered(Replay(rules, ops)) && Unique(Replay(rules, ops))
    decreases |ops|
  {
    if ops != [] {
      ApplyKeeps(rules, ops[0]);
      OrderSurvives(Apply(rules, ops[0]), ops[1..]);
    }
  }

  lemma {:induction false} WithoutKeepsOrder(rules: seq<Rule>, c: Comment)
    requires Ordered(rules) && Unique(rules)
    ensures Ordered(Without(rules, c)) && Unique(Without(rules, c))
    ensures forall r :: r in Without(rules, c) ==> r in rules
  {
    if rules != [] {
      var tail := rules[1..];
      OrderedTail(rules);
      assert forall i :: 0 <= i < |tail| ==> tail[i] == rules[i + 1];
      WithoutKeepsOrder(tail, c);
      var rest := Without(tail, c);
      assert forall r :: r in rest ==> r in tail;
      if rules[0].comment != c { PrependKeepsOrder(rules[0], rest); }
      else { assert Without(rules, c) == rest; }
    }
  }

  lemma PrependKeepsOrder(r: Rule, rest: seq<Rule>)
    requires Ordered(rest) && Unique(rest)
    requires forall x :: x in rest ==> !Before(x.comment, r.comment) && (x.comment != r.comment || r.comment.Lazy? || r.comment.Foreign?)
    ensures Ordered([r] + rest) && Unique([r] + rest)
  {
    var out := [r] + rest;
    assert forall i :: 0 < i < |out| ==> out[i] == rest[i - 1] && out[i] in rest;
  }

  // ---- packets ------------------------------------------------------------------------------------------

  /** A packet that entered through the LAN interface list. */
  datatype Packet = Packet(proto: Proto, port: nat, dst: nat, isNew: bool, local: bool)

  /** The address lists a packet is matched against. */
  datatype Lists = Lists(
    direct: set<nat>, private: set<nat>,
    listed: set<(MarkKind, Proto, nat, nat)>,     // kind, protocol, port, address
    legacy: set<(MarkKind, Proto, nat)>)

  datatype Mark = NoMark | Marked(kind: MarkKind)

  /** Connection mark after the pass and whether the packet was sent to the target table. */
  datatype Outcome = Outcome(mark: Mark, routed: bool)

  /** The prerouting pass; rules of others are taken not to match the packet. */
  function Pass(rules: seq<Rule>, p: Packet, lists: Lists, mark: Mark): Outcome {
    if rules == [] then Outcome(mark, false)
    else if !rules[0].enabled then Pass(rules[1..], p, lists, mark)
    else match rules[0].comment
      case VpnDirect =>
        if p.dst in lists.direct && !p.local then Outcome(mark, true) else Pass(rules[1..], p, lists, mark)
      case Safety(_) =>
        if p.dst in lists.private then Outcome(mark, false) else Pass(rules[1..], p, lists, mark)
      case FixedMark(kind, proto) =>
        if mark.NoMark? && p.isNew && !p.local && p.proto == proto && (kind, proto, p.dst) in lists.legacy
        then Pass(rules[1..], p, lists, Marked(kind)) else Pass(rules[1..], p, lists, mark)
      case Lazy(proto, port, kind) =>
        if mark.NoMark? && p.isNew && !p.local && p.proto == proto && p.port == port &&
           (kind, proto, port, p.dst) in lists.listed
        then Pass(rules[1..], p, lists, Marked(kind)) else Pass(rules[1..], p, lists, mark)
      case RouteOk =>
        if mark == Marked(OkMark) then Outcome(mark, true) else Pass(rules[1..], p, lists, mark)
      case RouteTest =>
        if mark == Marked(TestMark) then Outcome(mark, true) else Pass(rules[1..], p, lists, mark)
      case _ => Pass(rules[1..], p, lists, mark)
  }

  lemma OrderedTail(rules: seq<Rule>)
    requires Ordered(rules) && rules != []
    ensures Ordered(rules[1..])
  {}

  /** An enabled bypass rule sends every packet for a VPN Direct address to the target table, and leaves its
      connection unmarked: no other managed rule gets to see it. */
  lemma {:induction false} DirectAlwaysBypasses(rules: seq<Rule>, p: Packet, lists: Lists, mark: Mark)
    requires Ordered(rules) && p.dst in lists.direct && !p.local
    requires Rule(VpnDirect, true) in rules
    ensures Pass(rules, p, lists, mark) == Outcome(mark, true)
  {
    if rules[0] != Rule(VpnDirect, true) {
      var i :| 0 < i < |rules| && rules[i] == Rule(VpnDirect, true);
      assert rules[i].comment.VpnDirect? && !Before(rules[i].comment, rules[0].comment);
      assert rules[1..][i - 1] == rules[i];
      OrderedTail(rules);
      DirectAlwaysBypasses(rules[1..], p, lists, mark);
    }
  }

  /** The per-port lists name the packet under `kind`, and nothing else catches it first. */
  predicate Eligible(p: Packet, lists: Lists) {
    p.isNew && !p.local && p.dst !in lists.direct && p.dst !in lists.private
  }

  /** Both routing rules are there and enabled. */
  predicate Routing(rules: seq<Rule>) { Rule(RouteOk, true) in rules && Rule(RouteTest, true) in rules }

  lemma {:induction false} MarkedIsRouted(rules: seq<Rule>, p: Packet, lists: Lists, mark: Mark)
    requires Eligible(p, lists) && mark.Marked?
    requires Rule(if mark.kind.OkMark? then RouteOk else RouteTest, true) in rules
    ensures Pass(rules, p, lists, mark) == Outcome(mark, true)
  {
    var r := Rule(if mark.kind.OkMark? then RouteOk else RouteTest, true);
    if rules[0] != r {
      assert r in rules[1..];
      MarkedIsRouted(rules[1..], p, lists, mark);
    }
  }

  lemma RouteBehind(rules: seq<Rule>, route: Comment)
    requires Ordered(rules) && rules != [] && Rule(route, true) in rules && (route.RouteOk? || route.RouteTest?)
    requires rules[0].comment.FixedMark? || rules[0].comment.Lazy?
    ensures Rule(route, true) in rules[1..]
  {
    assert rules[0] != Rule(route, true);
  }

  /** A new packet for a listed tuple is marked and routed in one and the same pass: the marking rule stands in
      front of the routing rules. */
  lemma {:induction false} ListedIsMarkedAndRouted(rules: seq<Rule>, p: Packet, lists: Lists, kind: MarkKind)
    requires Ordered(rules) && Routing(rules) && Eligible(p, lists)
    requires Rule(Lazy(p.proto, p.port, kind), true) in rules && (kind, p.proto, p.port, p.dst) in lists.listed
    ensures var o := Pass(rules, p, lists, NoMark);
            && o.routed && o.mark.Marked?
            && ((o.mark.kind, p.proto, p.port, p.dst) in lists.listed
                || (o.mark.kind, p.proto, p.dst) in lists.legacy)
  {
    var want := Rule(Lazy(p.proto, p.port, kind), true);
    var i :| 0 <= i < |rules| && rules[i] == want;
    OrderedTail(rules);
    assert !Before(rules[i].comment, rules[0].comment) || i == 0;
    var tail := rules[1..];
    var c := rules[0].comment;
    if c.FixedMark? || c.Lazy? {
      RouteBehind(rules, RouteOk);
      RouteBehind(rules, RouteTest);
      MarkedIsRouted(tail, p, lists, Marked(c.kind));
    }
    if rules[0] != want {
      assert tail[i - 1] == want;
      assert !c.RouteOk? && !c.RouteTest?;
      assert Rule(RouteOk, true) in tail && Rule(RouteTest, true) in tail;
      ListedIsMarkedAndRouted(tail, p, lists, kind);
    }
  }

  /** With every "AUTO-AWG:" rule disabled, an unmarked packet outside VPN Direct is left alone. */
  lemma {:induction false} DisabledMeansDirect(rules: seq<Rule>, p: Packet, lists: Lists, mark: Mark)
    requires forall i :: 0 <= i < |rules| && IsAuto(rules[i].comment) ==> !rules[i].enabled
    requires p.dst !in lists.direct
    ensures Pass(rules, p, lists, mark) == Outcome(mark, false)
  {
    if rules != [] {
      assert forall i :: 0 <= i < |rules[1..]| ==> rules[1..][i] == rules[i + 1];
      DisabledMeansDirect(rules[1..], p, lists, mark);
    }
  }

  /** A packet gains a mark only from an enabled marking rule whose list holds its destination. */
  lemma {:induction false} MarksAreJustified(rules: seq<Rule>, p: Packet, lists: Lists, kind: MarkKind)
    requires Pass(rules, p, lists, NoMark).mark == Marked(kind)
    ensures || (Rule(Lazy(p.proto, p.port, kind), true) in rules && (kind, p.proto, p.port, p.dst) in lists.listed)
            || (Rule(FixedMark(kind, p.proto), true) in rules && (kind, p.proto, p.dst) in lists.legacy)
  {
    if rules != [] {
      var c := rules[0].comment;
      if c.FixedMark? || c.Lazy? { MarkIsFirst(rules[1..], p, lists, c.kind); }
      if Pass(rules[1..], p, lists, NoMark).mark == Marked(kind) { MarksAreJustified(rules[1..], p, lists, kind); }
    }
  }

  /** A mark, once set, stays. */
  lemma {:induction false} MarkIsFirst(rules: seq<Rule>, p: Packet, lists: Lists, kind: MarkKind)
    ensures Pass(rules, p, lists, Marked(kind)).mark == Marked(kind)
  {
    if rules != [] { MarkIsFirst(rules[1..], p, lists, kind); }
  }
}
