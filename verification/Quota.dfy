/**
 * Plan quotas and node capacity: creating, resizing and deleting bots, each request atomic, over the
 * tables they read and write. Row ids of bots and nodes are their positions in the tables.
 */
module Quota {

  import opened Options

  type SubId = string
  type PlanId = string

  datatype Size = Size(memory: int, cpu: int, disk: int)

  datatype Limits = Limits(maxBots: int, size: Size)

  datatype Plan = Plan(limits: Limits, hardened: bool, templates: set<string>)

  datatype Overrides = Overrides(maxBots: Option<int>, memory: Option<int>, cpu: Option<int>, disk: Option<int>)

  datatype Status = Active | Suspended | Terminated

  datatype Sub = Sub(user: string, plan: PlanId, status: Status, overrides: Overrides)

  /** `online` stands for having been seen in the last 45 seconds. */
  datatype Node = Node(size: Size, overcommit: real, maintenance: bool, online: bool, runsc: bool)

  datatype Bot = Bot(sub: SubId, node: nat, size: Size, deleted: bool)

  datatype State = State(bots: seq<Bot>, subs: map<SubId, Sub>, plans: map<PlanId, Plan>, nodes: seq<Node>)

  datatype Refusal = BadSize | DiskShrinks | NotFound | BadSubscription | NotActive | NotInPlan
    | TooManyBots | OverMemory | OverCpu | OverDisk | NoRoom | NodeOffline

  datatype Outcome = Done(bot: nat) | Refused(why: Refusal)

  predicate ValidSize(size: Size) { size.memory >= 64 && size.cpu >= 50 && size.disk >= 128 }

  function Pick(o: Option<int>, v: int): int { if o.Some? then o.value else v }

  /** The plan's limits with the subscription's own overrides. */
  function Effective(sub: Sub, plan: Plan): Limits {
    Limits(Pick(sub.overrides.maxBots, plan.limits.maxBots),
           Size(Pick(sub.overrides.memory, plan.limits.size.memory),
                Pick(sub.overrides.cpu, plan.limits.size.cpu),
                Pick(sub.overrides.disk, plan.limits.size.disk)))
  }

  // ---------- Sums over the bots table ----------

  /** Which bots a sum is over: those of a subscription but for one, or those on a node. */
  datatype Scope = OnSub(sub: SubId, except: Option<nat>) | OnNode(node: nat)

  datatype Usage = Usage(bots: int, size: Size)

  const NOTHING := Usage(0, Size(0, 0, 0))

  function Plus(a: Size, b: Size): Size { Size(a.memory + b.memory, a.cpu + b.cpu, a.disk + b.disk) }

  function Minus(a: Size, b: Size): Size { Size(a.memory - b.memory, a.cpu - b.cpu, a.disk - b.disk) }

  predicate AtMost(a: Size, b: Size) { a.memory <= b.memory && a.cpu <= b.cpu && a.disk <= b.disk }

  function Add(a: Usage, b: Usage): Usage { Usage(a.bots + b.bots, Plus(a.size, b.size)) }

  predicate InScope(b: Bot, id: nat, sc: Scope) {
    !b.deleted && match sc
    case OnSub(s, except) => b.sub == s && except != Some(id)
    case OnNode(n) => b.node == n
  }

  function Part(b: Bot, id: nat, sc: Scope): Usage {
    if InScope(b, id, sc) then Usage(1, b.size) else NOTHING
  }

  /** The sum over the first bots of the table. */
  function UsedOf(bots: seq<Bot>, n: nat, sc: Scope): Usage
    requires n <= |bots|
  {
    if n == 0 then NOTHING else Add(UsedOf(bots, n - 1, sc), Part(bots[n - 1], n - 1, sc))
  }

  function Used(bots: seq<Bot>, sc: Scope): Usage { UsedOf(bots, |bots|, sc) }

  /** A sum depends only on each bot's part in it. */
  lemma {:induction false} UsedSame(a: seq<Bot>, b: seq<Bot>, n: nat, sc: Scope, sc': Scope)
    requires n <= |a| && n <= |b|
    requires forall k :: 0 <= k < n ==> Part(a[k], k, sc) == Part(b[k], k, sc')
    ensures UsedOf(a, n, sc) == UsedOf(b, n, sc')
  {
    if n > 0 { UsedSame(a, b, n - 1, sc, sc'); }
  }

  /** Changing one part changes the sum by the difference. */
  lemma {:induction false} UsedButOne(a: seq<Bot>, b: seq<Bot>, n: nat, i: nat, sc: Scope, sc': Scope)
    requires i < n && n <= |a| && n <= |b|
    requires forall k :: 0 <= k < n && k != i ==> Part(a[k], k, sc) == Part(b[k], k, sc')
    ensures Add(UsedOf(a, n, sc), Part(b[i], i, sc')) == Add(UsedOf(b, n, sc'), Part(a[i], i, sc))
  {
    hide Part;
    if n - 1 == i { UsedSame(a, b, i, sc, sc'); } else { UsedButOne(a, b, n - 1, i, sc, sc'); }
  }

  lemma UsedAppend(bots: seq<Bot>, b: Bot, sc: Scope)
    ensures Used(bots + [b], sc) == Add(Used(bots, sc), Part(b, |bots|, sc))
  {
    UsedSame(bots, bots + [b], |bots|, sc, sc);
  }

  lemma UsedUpdate(bots: seq<Bot>, i: nat, b: Bot, sc: Scope)
    requires i < |bots|
    ensures Add(Used(bots[i := b], sc), Part(bots[i], i, sc)) == Add(Used(bots, sc), Part(b, i, sc))
  {
    UsedButOne(bots, bots[i := b], |bots|, i, sc, sc);
  }

  /** Leaving one bot out of a sum takes away exactly its part. */
  lemma UsedExcept(bots: seq<Bot>, s: SubId, i: nat)
    requires i < |bots|
    ensures Add(Used(bots, OnSub(s, Some(i))), Part(bots[i], i, OnSub(s, None))) == Used(bots, OnSub(s, None))
  {
    UsedButOne(bots, bots, |bots|, i, OnSub(s, Some(i)), OnSub(s, None));
  }

  // ---------- Capacity ----------

  /** Memory and CPU may be overcommitted, rounded down; disk is real space. */
  function Capacity(n: Node): Size {
    Size((n.size.memory as real * n.overcommit).Floor, (n.size.cpu as real * n.overcommit).Floor, n.size.disk)
  }

  function Free(st: State, n: nat): Size
    requires n < |st.nodes|
  {
    Minus(Capacity(st.nodes[n]), Used(st.bots, OnNode(n)).size)
  }

  predicate Candidate(n: Node, hardened: bool) { !n.maintenance && n.online && (!hardened || n.runsc) }

  predicate HasRoom(st: State, n: nat, hardened: bool, size: Size) {
    n < |st.nodes| && Candidate(st.nodes[n], hardened) && AtMost(size, Free(st, n))
  }

  /** A fitting node with the most free memory, the first such. */
  predicate BestNode(st: State, n: nat, hardened: bool, size: Size) {
    && HasRoom(st, n, hardened, size)
    && (forall m :: 0 <= m < n && HasRoom(st, m, hardened, size) ==> Free(st, m).memory < Free(st, n).memory)
    && (forall m :: n < m < |st.nodes| && HasRoom(st, m, hardened, size) ==> Free(st, m).memory <= Free(st, n).memory)
  }

  predicate FitsPlan(st: State, sub: Sub, size: Size, used: Usage, adding: bool) {
    && sub.plan in st.plans
    && var limits := Effective(sub, st.plans[sub.plan]);
       (adding ==> used.bots + 1 <= limits.maxBots) && AtMost(Plus(used.size, size), limits.size)
  }

  // ---------- What the limits mean ----------

  /** Up to the subscription's own limit if it sets one, and else up to its plan's. */
  predicate UpTo(n: int, own: Option<int>, ofPlan: int) { (own.Some? ==> n <= own.value) && (own.None? ==> n <= ofPlan) }

  /** There is room for a bot of this size beside `used`: of each quantity, and for one more bot if it is a new one. */
  predicate Allows(sub: Sub, plan: Plan, used: Usage, size: Size, adding: bool) {
    && (adding ==> UpTo(used.bots + 1, sub.overrides.maxBots, plan.limits.maxBots))
    && UpTo(used.size.memory + size.memory, sub.overrides.memory, plan.limits.size.memory)
    && UpTo(used.size.cpu + size.cpu, sub.overrides.cpu, plan.limits.size.cpu)
    && UpTo(used.size.disk + size.disk, sub.overrides.disk, plan.limits.size.disk)
  }

  /**
   * A node that is online and not in maintenance, with room beside `used`: of memory and CPU times the node's
   * overcommit, and of disk as it is. A hardened bot needs one with gVisor.
   */
  predicate Takes(n: Node, hardened: bool, used: Size, size: Size) {
    && n.online && !n.maintenance && (hardened ==> n.runsc)
    && (used.memory + size.memory) as real <= n.size.memory as real * n.overcommit
    && (used.cpu + size.cpu) as real <= n.size.cpu as real * n.overcommit
    && used.disk + size.disk <= n.size.disk
  }

  lemma FitsPlanIff(st: State, sub: Sub, size: Size, used: Usage, adding: bool)
    ensures FitsPlan(st, sub, size, used, adding) <==> sub.plan in st.plans && Allows(sub, st.plans[sub.plan], used, size, adding)
  {
  }

  /** A limit the subscription sets itself is all that counts: what the plan says there changes nothing. */
  lemma OverrideDecides(sub: Sub, a: Plan, b: Plan, used: Usage, size: Size, adding: bool)
    requires sub.overrides.maxBots.None? ==> a.limits.maxBots == b.limits.maxBots
    requires sub.overrides.memory.None? ==> a.limits.size.memory == b.limits.size.memory
    requires sub.overrides.cpu.None? ==> a.limits.size.cpu == b.limits.size.cpu
    requires sub.overrides.disk.None? ==> a.limits.size.disk == b.limits.size.disk
    ensures Allows(sub, a, used, size, adding) <==> Allows(sub, b, used, size, adding)
    ensures Effective(sub, a) == Effective(sub, b)
  {
  }

  /** Whole amounts fit what a real number allows exactly if they fit it rounded down. */
  lemma FloorFits(n: int, r: real)
    ensures n <= r.Floor <==> n as real <= r
  {
  }

  lemma TakesIff(n: Node, hardened: bool, used: Size, size: Size)
    ensures Takes(n, hardened, used, size) <==> Candidate(n, hardened) && AtMost(size, Minus(Capacity(n), used))
  {
    FloorFits(used.memory + size.memory, n.size.memory as real * n.overcommit);
    FloorFits(used.cpu + size.cpu, n.size.cpu as real * n.overcommit);
  }

  lemma HasRoomIff(st: State, n: nat, hardened: bool, size: Size)
    ensures HasRoom(st, n, hardened, size) <==> n < |st.nodes| && Takes(st.nodes[n], hardened, Used(st.bots, OnNode(n)).size, size)
  {
    if n < |st.nodes| { TakesIff(st.nodes[n], hardened, Used(st.bots, OnNode(n)).size, size); }
    hide Used, Capacity, Takes;
  }

  // ---------- Requests ----------

  datatype Op =
    | Create(sub: SubId, node: nat, size: Size)
    | Resize(bot: nat, was: Size, size: Size)
    | Delete(bot: nat)
    | SetSub(id: SubId, sub': Sub)
    | SetPlan(id: PlanId, plan: Plan)
    | SetNode(node: nat, node': Node)

  predicate Present(st: State, i: nat) { i < |st.bots| && !st.bots[i].deleted }

  predicate Grows(was: Size, size: Size) { !AtMost(size, was) }

  function Step(st: State, op: Op): State {
    match op
    case Create(s, n, size) => st.(bots := st.bots + [Bot(s, n, size, false)])
    case Resize(i, _, size) => if i < |st.bots| then st.(bots := st.bots[i := st.bots[i].(size := size)]) else st
    case Delete(i) => if i < |st.bots| then st.(bots := st.bots[i := st.bots[i].(deleted := true)]) else st
    case SetSub(id, sub) => st.(subs := st.subs[id := sub])
    case SetPlan(id, plan) => st.(plans := st.plans[id := plan])
    case SetNode(n, node) => if n < |st.nodes| then st.(nodes := st.nodes[n := node]) else st
  }

  /** What a create and a resize have checked before they write. */
  predicate MayCreate(st: State, s: SubId, n: nat, size: Size) {
    && ValidSize(size) && s in st.subs && st.subs[s].status == Active && st.subs[s].plan in st.plans
    && FitsPlan(st, st.subs[s], size, Used(st.bots, OnSub(s, None)), true)
    && BestNode(st, n, st.plans[st.subs[s].plan].hardened, size)
  }

  /** `was` is the bot's size as it was loaded, before the transaction that checks and writes. */
  predicate MayResize(st: State, i: nat, was: Size, size: Size) {
    && ValidSize(size) && Present(st, i) && size.disk >= was.disk
    && var b := st.bots[i];
    && b.sub in st.subs && FitsPlan(st, st.subs[b.sub], size, Used(st.bots, OnSub(b.sub, Some(i))), false)
    && (Grows(was, size) ==>
          b.node < |st.nodes| && Candidate(st.nodes[b.node], false) && AtMost(size, Plus(Free(st, b.node), was)))
  }

  /** What is checked of each request. An administrator's changes may lower limits as they like. */
  predicate Enabled(st: State, op: Op) {
    match op
    case Create(s, n, size) => MayCreate(st, s, n, size)
    case Resize(i, was, size) => MayResize(st, i, was, size)
    case Delete(i) => Present(st, i)
    case SetSub(id, sub) => sub.plan in st.plans
    case SetPlan(id, plan) => true
    case SetNode(n, node) => n < |st.nodes|
  }

  // ---------- Over every run ----------

  /** What subscription `id` uses is within these limits. */
  predicate Fits(st: State, id: SubId, limits: Limits) {
    var used := Used(st.bots, OnSub(id, None));
    used.bots <= limits.maxBots && AtMost(used.size, limits.size)
  }

  /**
   * A step after which nothing is over its limits, if nothing was before: limits that are set are no lower
   * than what is used, and a bot that is resized has the room on its node now, whatever it had when loaded.
   */
  predicate LeavesRoom(st: State, op: Op) {
    match op
    case Create(_, _, _) => true
    case Resize(i, _, size) =>
      i < |st.bots| && st.bots[i].node < |st.nodes| ==> AtMost(size, Plus(Free(st, st.bots[i].node), st.bots[i].size))
    case Delete(_) => true
    case SetSub(id, sub) => sub.plan in st.plans && Fits(st, id, Effective(sub, st.plans[sub.plan]))
    case SetPlan(id, plan) => forall s :: s in st.subs && st.subs[s].plan == id ==> Fits(st, s, Effective(st.subs[s], plan))
    case SetNode(n, node) => AtMost(Used(st.bots, OnNode(n)).size, Capacity(node))
  }

  predicate SubWithin(st: State, id: SubId)
    requires id in st.subs
  {
    st.subs[id].plan in st.plans && Fits(st, id, Effective(st.subs[id], st.plans[st.subs[id].plan]))
  }

  predicate NodeWithin(st: State, n: nat)
    requires n < |st.nodes|
  {
    AtMost(Used(st.bots, OnNode(n)).size, Capacity(st.nodes[n]))
  }

  /** Every bot belongs to a subscription; every subscription fits its effective plan, and the bots on every node fit the node. */
  predicate WithinLimits(st: State) {
    && (forall i :: 0 <= i < |st.bots| ==> st.bots[i].sub in st.subs)
    && (forall id :: id in st.subs ==> SubWithin(st, id))
    && (forall n: nat :: n < |st.nodes| ==> NodeWithin(st, n))
  }

  lemma CreateWithin(st: State, s: SubId, n: nat, size: Size)
    requires WithinLimits(st) && MayCreate(st, s, n, size)
    ensures WithinLimits(Step(st, Create(s, n, size)))
  {
    hide Used, Capacity;
    var t := Step(st, Create(s, n, size));
    var b := Bot(s, n, size, false);
    forall id | id in t.subs
      ensures SubWithin(t, id)
    {
      assert SubWithin(st, id);
      UsedAppend(st.bots, b, OnSub(id, None));
    }
    forall m: nat | m < |t.nodes|
      ensures NodeWithin(t, m)
    {
      assert NodeWithin(st, m);
      UsedAppend(st.bots, b, OnNode(m));
    }
  }

  /** Changing one bot's size, or deleting it. */
  lemma ChangeWithin(st: State, i: nat, b: Bot)
    requires WithinLimits(st) && i < |st.bots| && b.sub == st.bots[i].sub && b.node == st.bots[i].node
    requires SubWithin(st.(bots := st.bots[i := b]), b.sub)
    requires b.node < |st.nodes| ==> NodeWithin(st.(bots := st.bots[i := b]), b.node)
    ensures WithinLimits(st.(bots := st.bots[i := b]))
  {
    hide Used, Capacity;
    var t := st.(bots := st.bots[i := b]);
    forall id | id in t.subs
      ensures SubWithin(t, id)
    {
      assert SubWithin(st, id);
      UsedUpdate(st.bots, i, b, OnSub(id, None));
    }
    forall m: nat | m < |t.nodes|
      ensures NodeWithin(t, m)
    {
      assert NodeWithin(st, m);
      UsedUpdate(st.bots, i, b, OnNode(m));
    }
  }

  lemma ResizeWithinIff(st: State, i: nat, was: Size, size: Size)
    requires WithinLimits(st) && MayResize(st, i, was, size)
    ensures WithinLimits(Step(st, Resize(i, was, size))) <==> LeavesRoom(st, Resize(i, was, size))
  {
    hide Used, Capacity;
    var now := st.bots[i];
    var b := now.(size := size);
    var t := Step(st, Resize(i, was, size));
    assert SubWithin(st, b.sub);
    UsedExcept(st.bots, b.sub, i);
    UsedUpdate(st.bots, i, b, OnSub(b.sub, None));
    if b.node < |st.nodes| {
      assert NodeWithin(st, b.node);
      UsedUpdate(st.bots, i, b, OnNode(b.node));
      assert NodeWithin(t, b.node) <==> LeavesRoom(st, Resize(i, was, size));
    }
    if LeavesRoom(st, Resize(i, was, size)) { ChangeWithin(st, i, b); }
  }

  /** A resize checked against the bot as it is now, or as it was when no larger, leaves room. */
  lemma FreshResizeLeavesRoom(st: State, i: nat, was: Size, size: Size)
    requires WithinLimits(st) && MayResize(st, i, was, size) && AtMost(was, st.bots[i].size)
    ensures LeavesRoom(st, Resize(i, was, size))
  {
    hide Used, Capacity;
    if st.bots[i].node < |st.nodes| { assert NodeWithin(st, st.bots[i].node); }
  }

  lemma DeleteWithin(st: State, i: nat)
    requires WithinLimits(st) && Present(st, i)
    requires AtMost(Size(0, 0, 0), st.bots[i].size)
    ensures WithinLimits(Step(st, Delete(i)))
  {
    hide Used, Capacity;
    var b := st.bots[i].(deleted := true);
    assert SubWithin(st, b.sub);
    UsedUpdate(st.bots, i, b, OnSub(b.sub, None));
    if b.node < |st.nodes| {
      assert NodeWithin(st, b.node);
      UsedUpdate(st.bots, i, b, OnNode(b.node));
    }
    ChangeWithin(st, i, b);
  }

  predicate Sized(st: State) { forall i :: 0 <= i < |st.bots| ==> ValidSize(st.bots[i].size) }

  lemma SetSubWithinIff(st: State, id: SubId, sub: Sub)
    requires WithinLimits(st) && Enabled(st, SetSub(id, sub))
    ensures WithinLimits(Step(st, SetSub(id, sub))) <==> LeavesRoom(st, SetSub(id, sub))
  {
    hide Used, Capacity, Effective;
    var t := Step(st, SetSub(id, sub));
    forall s | s in t.subs ensures SubWithin(t, s) <==> (s == id ==> LeavesRoom(st, SetSub(id, sub))) {
      if s != id { assert SubWithin(st, s); }
    }
    forall n: nat | n < |t.nodes| ensures NodeWithin(t, n) { assert NodeWithin(st, n); }
    assert id in t.subs;
    hide SubWithin, NodeWithin, LeavesRoom;
  }

  lemma SetPlanWithinIff(st: State, id: PlanId, plan: Plan)
    requires WithinLimits(st)
    ensures WithinLimits(Step(st, SetPlan(id, plan))) <==> LeavesRoom(st, SetPlan(id, plan))
  {
    hide Used, Capacity, Effective;
    var t := Step(st, SetPlan(id, plan));
    forall s | s in t.subs ensures SubWithin(t, s) <==> (st.subs[s].plan == id ==> Fits(st, s, Effective(st.subs[s], plan))) {
      assert SubWithin(st, s);
    }
    forall n: nat | n < |t.nodes| ensures NodeWithin(t, n) { assert NodeWithin(st, n); }
    hide SubWithin, NodeWithin, Fits;
  }

  lemma SetNodeWithinIff(st: State, n: nat, node: Node)
    requires WithinLimits(st) && n < |st.nodes|
    ensures WithinLimits(Step(st, SetNode(n, node))) <==> LeavesRoom(st, SetNode(n, node))
  {
    hide Used, Capacity, Effective;
    var t := Step(st, SetNode(n, node));
    forall s | s in t.subs ensures SubWithin(t, s) { assert SubWithin(st, s); }
    forall m: nat | m < |t.nodes| ensures NodeWithin(t, m) <==> (m == n ==> LeavesRoom(st, SetNode(n, node))) {
      assert NodeWithin(st, m);
    }
    assert NodeWithin(t, n) <==> LeavesRoom(st, SetNode(n, node));
    hide SubWithin, NodeWithin, LeavesRoom;
  }

  lemma StepSized(st: State, op: Op)
    requires Sized(st) && Enabled(st, op)
    ensures Sized(Step(st, op))
  {
  }

  /** Each request and each change keeps everything within its limits exactly if it leaves room. */
  lemma StepWithinIff(st: State, op: Op)
    requires WithinLimits(st) && Sized(st) && Enabled(st, op)
    ensures WithinLimits(Step(st, op)) <==> LeavesRoom(st, op)
    ensures Sized(Step(st, op))
  {
    StepSized(st, op);
    hide WithinLimits, Step, MayCreate, MayResize, Fits, Used, Capacity;
    match op
    case Create(s, n, size) => CreateWithin(st, s, n, size);
    case Resize(i, was, size) => ResizeWithinIff(st, i, was, size);
    case Delete(i) => DeleteWithin(st, i);
    case SetSub(id, sub) => SetSubWithinIff(st, id, sub);
    case SetPlan(id, plan) => SetPlanWithinIff(st, id, plan);
    case SetNode(n, node) => SetNodeWithinIff(st, n, node);
  }

  ghost predicate Run(st: State, ops: seq<Op>, t: State)
    decreases |ops|
  {
    if ops == [] then t == st else Enabled(st, ops[0]) && Run(Step(st, ops[0]), ops[1..], t)
  }

  ghost predicate AllLeaveRoom(st: State, ops: seq<Op>)
    decreases |ops|
  {
    ops != [] ==> LeavesRoom(st, ops[0]) && AllLeaveRoom(Step(st, ops[0]), ops[1..])
  }

  /** Within limits at the start and after every step. */
  ghost predicate AlwaysWithin(st: State, ops: seq<Op>)
    decreases |ops|
  {
    WithinLimits(st) && (ops != [] ==> AlwaysWithin(Step(st, ops[0]), ops[1..]))
  }

  /**
   * Over every run of creates, deletes, resizes (however long before they were loaded) and changes to plans,
   * subscriptions and nodes: every subscription's bots fit its effective plan in number, memory, CPU and
   * disk, and every node's bots fit its overcommitted memory and CPU and its real disk, at every moment
   * exactly if each step leaves room. Creates and deletes always do.
   */
  lemma {:induction false} StaysWithinLimitsIff(st: State, ops: seq<Op>, t: State)
    requires WithinLimits(st) && Sized(st) && Run(st, ops, t)
    ensures AlwaysWithin(st, ops) <==> AllLeaveRoom(st, ops)
    decreases |ops|
  {
    if ops != [] {
      StepWithinIff(st, ops[0]);
      hide WithinLimits, Sized, Step, Enabled, LeavesRoom;
      if WithinLimits(Step(st, ops[0])) {
        StaysWithinLimitsIff(Step(st, ops[0]), ops[1..], t);
      } else {
        assert !AlwaysWithin(Step(st, ops[0]), ops[1..]);
      }
    }
  }

  // ---------- With limits lowered below what is used ----------

  function Max(a: int, b: int): int { if a > b then a else b }

  /** No more than before, or within the limit, in each respect. */
  predicate Bounded(now: Usage, was: Usage, limits: Limits) {
    && now.bots <= Max(was.bots, limits.maxBots)
    && now.size.memory <= Max(was.size.memory, limits.size.memory)
    && now.size.cpu <= Max(was.size.cpu, limits.size.cpu)
    && now.size.disk <= Max(was.size.disk, limits.size.disk)
  }

  /**
   * "It blocks new allocations until usage fits again": whatever limits were set before, a create that is
   * accepted leaves its subscription within its effective plan as it is now, and a resize within its sizes.
   */
  lemma AllocationsFit(st: State, op: Op)
    requires Enabled(st, op) && (op.Create? || op.Resize?)
    ensures var id := if op.Create? then op.sub else st.bots[op.bot].sub;
            && id in st.subs && st.subs[id].plan in st.plans
            && var limits, used := Effective(st.subs[id], st.plans[st.subs[id].plan]), Used(Step(st, op).bots, OnSub(id, None));
            AtMost(used.size, limits.size) && (op.Create? ==> used.bots <= limits.maxBots)
  {
    hide Used, Capacity, Effective, BestNode;
    match op
    case Create(s, n, size) => UsedAppend(st.bots, Bot(s, n, size, false), OnSub(s, None));
    case Resize(i, was, size) =>
      var b := st.bots[i];
      UsedExcept(st.bots, b.sub, i);
      UsedUpdate(st.bots, i, b.(size := size), OnSub(b.sub, None));
  }

  /** No step lets a subscription's use grow over the limits in force, whether it is over them already or not. */
  lemma StepBounded(st: State, op: Op, id: SubId)
    requires Sized(st) && Enabled(st, op) && id in st.subs && st.subs[id].plan in st.plans
    ensures Bounded(Used(Step(st, op).bots, OnSub(id, None)), Used(st.bots, OnSub(id, None)), Effective(st.subs[id], st.plans[st.subs[id].plan]))
  {
    hide Used, Capacity, Effective, BestNode;
    match op
    case Create(s, n, size) => UsedAppend(st.bots, Bot(s, n, size, false), OnSub(id, None));
    case Resize(i, was, size) =>
      var b := st.bots[i];
      UsedExcept(st.bots, b.sub, i);
      UsedUpdate(st.bots, i, b.(size := size), OnSub(id, None));
    case Delete(i) => UsedUpdate(st.bots, i, st.bots[i].(deleted := true), OnSub(id, None));
    case _ =>
  }

  /** Along a run the subscription has a plan, and limits no higher than these. */
  ghost predicate CappedRun(st: State, ops: seq<Op>, id: SubId, cap: Limits)
    decreases |ops|
  {
    && id in st.subs && st.subs[id].plan in st.plans
    && NotOver(Effective(st.subs[id], st.plans[st.subs[id].plan]), cap)
    && (ops != [] ==> CappedRun(Step(st, ops[0]), ops[1..], id, cap))
  }

  predicate NotOver(limits: Limits, cap: Limits) { limits.maxBots <= cap.maxBots && AtMost(limits.size, cap.size) }

  /**
   * Over every run, with limits raised and lowered as an administrator likes: what a subscription uses never
   * exceeds the larger of what it used at the start and the highest limit it had, in any respect.
   */
  lemma {:induction false} UsageNeverGrowsOver(st: State, ops: seq<Op>, t: State, id: SubId, cap: Limits)
    requires Sized(st) && Run(st, ops, t) && CappedRun(st, ops, id, cap)
    ensures Bounded(Used(t.bots, OnSub(id, None)), Used(st.bots, OnSub(id, None)), cap)
    decreases |ops|
  {
    if ops != [] {
      StepBounded(st, ops[0], id);
      StepSized(st, ops[0]);
      hide Sized, Step, Enabled, Used, Effective;
      UsageNeverGrowsOver(Step(st, ops[0]), ops[1..], t, id, cap);
    }
  }

  // ---------- Two updates of one bot that overlap ----------

  /** The least size an update that was loaded at size `was` can set still fits the plan. */
  predicate LeastFits(st: State, i: nat, was: Size)
    requires i < |st.bots|
  {
    var b := st.bots[i];
    b.sub in st.subs && FitsPlan(st, st.subs[b.sub], Size(64, 50, was.disk), Used(st.bots, OnSub(b.sub, Some(i))), false)
  }

  /**
   * "Disk can grow but not shrink": of an update that was loaded at size `was`, some accepted size shrinks the
   * bot's disk exactly if the disk has grown since, and the plan leaves room for any update of it at all. It
   * does if nothing is over its limits.
   */
  lemma StaleUpdateShrinksIff(st: State, i: nat, was: Size)
    requires Sized(st) && Present(st, i) && ValidSize(was)
    ensures (exists size :: MayResize(st, i, was, size) && size.disk < st.bots[i].size.disk) <==>
              was.disk < st.bots[i].size.disk && LeastFits(st, i, was)
    ensures WithinLimits(st) && was.disk < st.bots[i].size.disk ==> LeastFits(st, i, was)
  {
    var b, least := st.bots[i], Size(64, 50, was.disk);
    UsedExcept(st.bots, b.sub, i);
    hide Used, Capacity, Effective;
    assert WithinLimits(st) ==> SubWithin(st, b.sub);
    if was.disk < b.size.disk && LeastFits(st, i, was) { assert MayResize(st, i, was, least); }
  }

  /** Every resize along a run was loaded with no less disk than its bot has when the resize is checked. */
  ghost predicate NoneStale(st: State, ops: seq<Op>)
    decreases |ops|
  {
    ops != [] ==>
      && (ops[0].Resize? && ops[0].bot < |st.bots| ==> ops[0].was.disk >= st.bots[ops[0].bot].size.disk)
      && NoneStale(Step(st, ops[0]), ops[1..])
  }

  /** Along such a run no bot's disk ever shrinks. */
  lemma {:induction false} DiskOnlyGrows(st: State, ops: seq<Op>, t: State)
    requires Run(st, ops, t) && NoneStale(st, ops)
    ensures |st.bots| <= |t.bots|
    ensures forall i :: 0 <= i < |st.bots| ==> st.bots[i].size.disk <= t.bots[i].size.disk
    decreases |ops|
  {
    if ops != [] {
      var next := Step(st, ops[0]);
      assert |st.bots| <= |next.bots| && forall i :: 0 <= i < |st.bots| ==> st.bots[i].size.disk <= next.bots[i].size.disk by {
        hide Used, Capacity, Effective, FitsPlan, BestNode;
      }
      hide Step, Enabled;
      DiskOnlyGrows(next, ops[1..], t);
    }
  }

  /** A node of 192 MB with two bots on it, the first of this size. */
  function TwoBots(memory: int): State {
    var plan := Plan(Limits(9, Size(999, 999, 999)), false, {});
    State([Bot("s", 0, Size(memory, 50, 128), false), Bot("s", 0, Size(128, 50, 128), false)],
          map["s" := Sub("u", "p", Active, Overrides(None, None, None, None))], map["p" := plan],
          [Node(Size(192, 100, 256), 1.0, false, true, false)])
  }

  /**
   * A bot of 128 MB is loaded to be updated without growing; before that is checked, it is resized to 64 MB and
   * the memory goes to another bot. The first update is still accepted, and the node is over its memory.
   */
  lemma StaleResizeOverbooks()
    ensures var was, st := Size(128, 50, 128), TwoBots(64);
            && WithinLimits(st) && MayResize(st, 0, was, was) && Step(st, Resize(0, was, was)) == TwoBots(128)
            && !WithinLimits(TwoBots(128))
  {
    TwoBotsWithinIff(64);
    TwoBotsWithinIff(128);
    StaleResizeAccepted(64);
    hide WithinLimits, MayResize;
    assert TwoBots(64).bots[0 := TwoBots(128).bots[0]] == TwoBots(128).bots;
  }

  lemma TwoBotsWithinIff(m: int)
    requires m <= 500
    ensures WithinLimits(TwoBots(m)) <==> m <= 64
  {
    var st := TwoBots(m);
    TwoBotsUsed(m, OnNode(0));
    TwoBotsUsed(m, OnSub("s", None));
    WholeCapacity(st.nodes[0]);
    hide Used, Capacity;
    assert SubWithin(st, "s") && (NodeWithin(st, 0) <==> m <= 64);
  }

  /** A resize that is none to the bot as it was loaded is accepted, however much smaller the bot is now. */
  lemma StaleResizeAccepted(m: int)
    ensures MayResize(TwoBots(m), 0, Size(128, 50, 128), Size(128, 50, 128))
  {
    var st, size := TwoBots(m), Size(128, 50, 128);
    var used := Used(st.bots, OnSub("s", Some(0)));
    TwoBotsUsed(m, OnSub("s", None));
    UsedExcept(st.bots, "s", 0);
    OnePart(st.bots[0], 0, "s");
    hide Used, Capacity, Part;
    AddCancels(used, Part(st.bots[0], 0, OnSub("s", None)), Usage(2, Size(m + 128, 100, 256)));
    assert FitsPlan(st, st.subs["s"], size, used, false);
  }

  lemma OnePart(b: Bot, i: nat, s: SubId)
    requires b.sub == s && !b.deleted
    ensures Part(b, i, OnSub(s, None)) == Usage(1, b.size)
  {
  }

  lemma AddCancels(a: Usage, b: Usage, c: Usage)
    requires Add(a, b) == c
    ensures a == Usage(c.bots - b.bots, Minus(c.size, b.size))
  {
  }

  lemma TwoBotsUsed(m: int, sc: Scope)
    requires sc == OnNode(0) || sc == OnSub("s", None)
    ensures Used(TwoBots(m).bots, sc) == Usage(2, Size(m + 128, 100, 256))
  {
    var bots := TwoBots(m).bots;
    assert UsedOf(bots, 0, sc) == NOTHING;
    assert UsedOf(bots, 1, sc) == Usage(1, bots[0].size);
  }

  lemma WholeCapacity(n: Node)
    requires n.overcommit == 1.0
    ensures Capacity(n) == n.size
  {
  }

  // ---------- The panel ----------

  class Panel {
    var bots: seq<Bot>
    var subs: map<SubId, Sub>
    var plans: map<PlanId, Plan>
    var nodes: seq<Node>

    ghost function View(): State
      reads this
    {
      State(bots, subs, plans, nodes)
    }

    constructor (st: State)
      ensures View() == st
    {
      bots, subs, plans, nodes := st.bots, st.subs, st.plans, st.nodes;
    }

    /** Whether a bot of this size fits the plan beside every other bot on the subscription, and if not, why. */
    method CheckQuota(sub: Sub, used: Usage, plan: Plan, size: Size, adding: bool) returns (why: Option<Refusal>)
      requires sub.plan in plans && plans[sub.plan] == plan
      ensures why.None? <==> FitsPlan(View(), sub, size, used, adding)
      ensures why.None? <==> Allows(sub, plan, used, size, adding)
      ensures why != Some(NoRoom)
      ensures var limits := Effective(sub, plan);
              && (why == Some(TooManyBots) ==> adding && used.bots >= limits.maxBots)
              && (why == Some(OverMemory) ==> used.size.memory + size.memory > limits.size.memory)
              && (why == Some(OverCpu) ==> used.size.cpu + size.cpu > limits.size.cpu)
              && (why == Some(OverDisk) ==> used.size.disk + size.disk > limits.size.disk)
    {
      FitsPlanIff(View(), sub, size, used, adding);
      hide Allows;
      var limits := Effective(sub, plan);
      if adding && used.bots + 1 > limits.maxBots { return Some(TooManyBots); }
      if used.size.memory + size.memory > limits.size.memory { return Some(OverMemory); }
      if used.size.cpu + size.cpu > limits.size.cpu { return Some(OverCpu); }
      if used.size.disk + size.disk > limits.size.disk { return Some(OverDisk); }
      why := None;
    }

    /** Picks a node: none only if none fits, else the first of those with the most free memory. */
    method Place(hardened: bool, size: Size) returns (best: Option<nat>)
      requires ValidSize(size)
      ensures best.Some? ==> BestNode(View(), best.value, hardened, size)
      ensures best.None? ==> forall n: nat :: !HasRoom(View(), n, hardened, size)
      ensures best.Some? <==> exists n: nat :: n < |nodes| && Takes(nodes[n], hardened, Used(bots, OnNode(n)).size, size)
      ensures best.Some? ==> best.value < |nodes| && Takes(nodes[best.value], hardened, Used(bots, OnNode(best.value)).size, size)
    {
      hide Used, Capacity, Takes;
      forall n: nat ensures HasRoom(View(), n, hardened, size) <==> n < |nodes| && Takes(nodes[n], hardened, Used(bots, OnNode(n)).size, size) {
        HasRoomIff(View(), n, hardened, size);
      }
      best := None;
      var bestFree := -1;
      for n := 0 to |nodes|
        invariant best.None? ==> bestFree == -1 && forall m: nat :: m < n ==> !HasRoom(View(), m, hardened, size)
        invariant best.Some? ==>
                    && best.value < n && HasRoom(View(), best.value, hardened, size) && bestFree == Free(View(), best.value).memory
                    && (forall m: nat :: m < best.value && HasRoom(View(), m, hardened, size) ==> Free(View(), m).memory < bestFree)
                    && (forall m: nat :: best.value < m < n && HasRoom(View(), m, hardened, size) ==> Free(View(), m).memory <= bestFree)
      {
        if Candidate(nodes[n], hardened) {
          var free := Minus(Capacity(nodes[n]), Used(bots, OnNode(n)).size);
          assert free == Free(View(), n);
          if AtMost(size, free) && free.memory > bestFree {
            best, bestFree := Some(n), free.memory;
          }
        }
      }
    }

    /** Everything createBot checks besides its quota and the room for it. */
    ghost predicate MaySubscribe(st: State, user: string, admin: bool, s: SubId, template: string)
    {
      && s in st.subs && (st.subs[s].user == user || admin) && st.subs[s].status == Active && st.subs[s].plan in st.plans
      && var templates := st.plans[st.subs[s].plan].templates; (templates == {} || template in templates)
    }

    method CreateBot(user: string, admin: bool, s: SubId, template: string, size: Size) returns (r: Outcome)
      modifies this`bots
      ensures r.Done? ==> exists n :: MayCreate(old(View()), s, n, size) && View() == Step(old(View()), Create(s, n, size))
      // Which requests are accepted, in terms of the rows.
      ensures r.Done? <==>
                && size.memory >= 64 && size.cpu >= 50 && size.disk >= 128
                && MaySubscribe(old(View()), user, admin, s, template)
                && Allows(subs[s], plans[subs[s].plan], Used(old(bots), OnSub(s, None)), size, true)
                && exists n: nat :: n < |nodes| && Takes(nodes[n], plans[subs[s].plan].hardened, Used(old(bots), OnNode(n)).size, size)
      ensures r.Done? ==> r.bot == |old(bots)| && MaySubscribe(old(View()), user, admin, s, template)
      ensures r.Refused? ==> View() == old(View())
      ensures r.Refused? ==> !MaySubscribe(View(), user, admin, s, template) || forall n :: !MayCreate(View(), s, n, size)
      ensures r == Refused(NoRoom) ==>
                && MaySubscribe(View(), user, admin, s, template)
                && forall n: nat :: !HasRoom(View(), n, plans[subs[s].plan].hardened, size)
    {
      hide Used, Capacity, Effective, Allows, Takes;
      if !ValidSize(size) { return Refused(BadSize); }
      if s !in subs || (subs[s].user != user && !admin) { return Refused(BadSubscription); }
      var sub := subs[s];
      if sub.status != Active { return Refused(NotActive); }
      if sub.plan !in plans { return Refused(NotFound); }
      var plan := plans[sub.plan];
      if plan.templates != {} && template !in plan.templates { return Refused(NotInPlan); }
      var why := CheckQuota(sub, Used(bots, OnSub(s, None)), plan, size, true);
      if why.Some? { return Refused(why.value); }
      var node := Place(plan.hardened, size);
      if node.None? { return Refused(NoRoom); }
      assert MayCreate(View(), s, node.value, size);
      r := Done(|bots|);
      bots := bots + [Bot(s, node.value, size, false)];
    }

    /** Whether a bot's own node has room for its new size, its size when it was loaded not counted. */
    method FitsNode(bot: Bot, size: Size) returns (why: Option<Refusal>)
      ensures why.None? <==>
                bot.node < |nodes| && Candidate(nodes[bot.node], false) && AtMost(size, Plus(Free(View(), bot.node), bot.size))
      ensures why.None? <==> bot.node < |nodes| && Takes(nodes[bot.node], false, Minus(Used(bots, OnNode(bot.node)).size, bot.size), size)
      ensures why == Some(NodeOffline) <==> bot.node >= |nodes| || !Candidate(nodes[bot.node], false)
    {
      if bot.node < |nodes| { TakesIff(nodes[bot.node], false, Minus(Used(bots, OnNode(bot.node)).size, bot.size), size); }
      hide Used, Capacity, Takes;
      for n := 0 to |nodes|
        invariant !(bot.node < n && Candidate(nodes[bot.node], false))
      {
        if Candidate(nodes[n], false) && n == bot.node {
          var free := Plus(Minus(Capacity(nodes[n]), Used(bots, OnNode(n)).size), bot.size);
          return if AtMost(size, free) then None else Some(NoRoom);
        }
      }
      why := Some(NodeOffline);
    }

    /** Loads a bot its caller may see. */
    method LoadBot(user: string, admin: bool, i: nat) returns (bot: Option<Bot>)
      ensures bot.Some? <==> Present(View(), i) && bots[i].sub in subs && (admin || subs[bots[i].sub].user == user)
      ensures bot.Some? ==> bot.value == bots[i]
    {
      if i >= |bots| || bots[i].deleted { return None; }
      if bots[i].sub !in subs || (subs[bots[i].sub].user != user && !admin) { return None; }
      bot := Some(bots[i]);
    }

    /** The second half of an update: `bot` is the row as it was loaded, other requests may have come between. */
    method UpdateLoaded(i: nat, bot: Bot, size: Size) returns (r: Outcome)
      requires i < |bots| && bots[i].sub == bot.sub && bots[i].node == bot.node
      modifies this`bots
      ensures r.Done? <==> MayResize(old(View()), i, bot.size, size)
      ensures View() == if r.Done? then Step(old(View()), Resize(i, bot.size, size)) else old(View())
      // The same in terms of the rows.
      ensures r.Done? <==>
                && size.memory >= 64 && size.cpu >= 50 && size.disk >= 128 && size.disk >= bot.size.disk && !old(bots)[i].deleted
                && bot.sub in subs && subs[bot.sub].plan in plans
                && Allows(subs[bot.sub], plans[subs[bot.sub].plan], Used(old(bots), OnSub(bot.sub, Some(i))), size, false)
                && (size.memory > bot.size.memory || size.cpu > bot.size.cpu || size.disk > bot.size.disk ==>
                      bot.node < |nodes| && Takes(nodes[bot.node], false, Minus(Used(old(bots), OnNode(bot.node)).size, bot.size), size))
    {
      hide Used, Capacity, Effective, Allows, Takes;
      if !ValidSize(size) { return Refused(BadSize); }
      if size.disk < bot.size.disk { return Refused(DiskShrinks); }
      if bot.sub !in subs || subs[bot.sub].plan !in plans { return Refused(NotFound); }
      var sub := subs[bot.sub];
      var why := CheckQuota(sub, Used(bots, OnSub(bot.sub, Some(i))), plans[sub.plan], size, false);
      if why.Some? { return Refused(why.value); }
      if Grows(bot.size, size) {
        why := FitsNode(bot, size);
        if why.Some? { return Refused(why.value); }
      }
      if bots[i].deleted { return Refused(NotFound); }
      bots := bots[i := bots[i].(size := size)];
      r := Done(i);
    }

    /** An update that nothing comes between. */
    method UpdateBot(user: string, admin: bool, i: nat, size: Size) returns (r: Outcome)
      modifies this`bots
      ensures r.Done? <==>
                && Present(old(View()), i) && MayResize(old(View()), i, old(bots)[i].size, size)
                && (admin || subs[old(bots)[i].sub].user == user)
      ensures View() == if r.Done? then Step(old(View()), Resize(i, old(bots)[i].size, size)) else old(View())
      ensures old(WithinLimits(View())) ==> WithinLimits(View())
    {
      var loaded := LoadBot(user, admin, i);
      if loaded.None? { return Refused(NotFound); }
      ghost var was := View();
      if WithinLimits(was) && MayResize(was, i, loaded.value.size, size) {
        FreshResizeLeavesRoom(was, i, loaded.value.size, size);
        ResizeWithinIff(was, i, loaded.value.size, size);
      }
      hide WithinLimits, MayResize, LeavesRoom;
      r := UpdateLoaded(i, loaded.value, size);
    }

    method DeleteBot(user: string, admin: bool, i: nat) returns (r: Outcome)
      modifies this`bots
      ensures r.Done? <==> Present(old(View()), i) && old(bots)[i].sub in subs && (admin || subs[old(bots)[i].sub].user == user)
      ensures View() == if r.Done? then Step(old(View()), Delete(i)) else old(View())
    {
      if i >= |bots| || bots[i].deleted { return Refused(NotFound); }
      var s := bots[i].sub;
      if s !in subs || (subs[s].user != user && !admin) { return Refused(NotFound); }
      bots := bots[i := bots[i].(deleted := true)];
      r := Done(i);
    }
  }
}
