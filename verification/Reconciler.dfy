/**
 * The agent's reconciler as a transition system over any number of bots and worker goroutines.
 *
 * A step is one stretch of code that no other goroutine can split: a request writes a slot while
 * holding the agent lock and pokes the worker in a later step; a worker parks, wakes, takes what is
 * pending, works through it one runtime call at a time, and retires under the agent lock.
 * `log` and `done` only record history: every Apply/Remove request, and every one carried out.
 */
module Reconciler {

  import opened Options
  import opened Proto
  import opened BotWorker

  datatype Req = Apply(spec: BotSpec) | Remove

  /** `at` is the 1-based position in the bot's request log. */
  datatype Carried = Carried(req: Req, at: nat)

  /** Where a worker goroutine stands. `upto` is the length of the bot's log when the batch was taken. */
  datatype Pc =
    | Parked
    | LoopHead
    | Batch(todo: Slots, upto: nat)
    | Applying(spec: BotSpec, restart: bool, upto: nat)
    | Removing(upto: nat)
    | Restarting
    | CrashRestarting
    | Retiring
    | Gone

  datatype Goroutine = Goroutine(bot: BotId, pc: Pc, w: State)

  /**
   * What the runtime has for a bot: the spec it was last converged on, if it was, and whether it has a
   * container, and whether that runs.
   */
  datatype RtBot = RtBot(spec: Option<BotSpec>, container: ContainerState)

  datatype ContainerState = NoContainer | Up | Down

  /**
   * `table` is the agent's worker map and `procs` every worker goroutine ever started. `poking` is the
   * worker that got a slot written and whose poke is still due; the agent lock is held meanwhile.
   */
  datatype System = System(
    table: map<BotId, nat>,
    procs: seq<Goroutine>,
    poking: Option<nat>,
    rt: map<BotId, RtBot>,
    log: map<BotId, seq<Req>>,
    done: map<BotId, seq<Carried>>)

  /** Everything one worker can touch: itself, its bot's history, and the runtime's view of its bot. */
  datatype Scope = Scope(p: Goroutine, log: seq<Req>, done: seq<Carried>, rt: Option<RtBot>)

  datatype Ask = AskApply(spec: BotSpec) | AskRemove | AskRestart | TellExit(ev: Event)

  datatype Act =
    | Wake
    | Fire
    | EndCrashRestart(inst: Instance, err: Option<string>, now: int, left: ContainerState)
    | TakeBatch
    | NextExit(now: int)
    | Begin
    | EndApply(fetched: bool, inst: Instance, err: Option<string>, now: int, after: Option<RtBot>)
    | EndRemove(err: Option<string>, after: Option<RtBot>)
    | EndRestart(inst: Instance, err: Option<string>, now: int, left: ContainerState)

  datatype Label =
    | Request(bot: BotId, ask: Ask)
    | Prime(bot: BotId, inst: Instance)
    | FinishPoke
    | RunStateChange(bot: BotId, container: ContainerState)
    | Work(i: nat, act: Act)
    | Retire(i: nat)

  // ---------- Steps of one worker ----------

  function Receive(v: Scope, ask: Ask): Scope {
    match ask
    case AskApply(spec) => v.(p := v.p.(w := PutApply(v.p.w, spec)), log := v.log + [Apply(spec)])
    case AskRemove => v.(p := v.p.(w := PutRemove(v.p.w)), log := v.log + [Remove])
    case AskRestart => v.(p := v.p.(w := PutRestart(v.p.w)))
    case TellExit(ev) => v.(p := v.p.(w := PutExit(v.p.w, ev)))
  }

  function GoTo(v: Scope, pc: Pc, w: State): Scope { v.(p := v.p.(pc := pc, w := w)) }

  function CarryOut(v: Scope, req: Req, at: nat): Scope { v.(done := v.done + [Carried(req, at)]) }

  function ContainerOf(inst: Instance): ContainerState {
    if inst.containerId == "" then NoContainer else if inst.running then Up else Down
  }

  function WithContainer(rt: Option<RtBot>, c: ContainerState): Option<RtBot> {
    if rt.Some? then Some(rt.value.(container := c)) else None
  }

  /** After a restart: the container it reports if it succeeds, anything if it fails. */
  function Restarted(rt: Option<RtBot>, inst: Instance, err: Option<string>, left: ContainerState): Option<RtBot> {
    WithContainer(rt, if err.None? then ContainerOf(inst) else left)
  }

  predicate CanAct(p: Goroutine, a: Act) {
    match a
    case Wake => p.pc.Parked? && p.w.kick
    case Fire => p.pc.Parked? && p.w.own.retry.deadline.Some?
    case EndCrashRestart(_, _, _, _) => p.pc.CrashRestarting?
    case TakeBatch => p.pc.LoopHead?
    case NextExit(_) => p.pc.Batch? && p.pc.todo.exits != []
    case Begin => p.pc.Batch? && p.pc.todo.exits == []
    case EndApply(_, _, _, _, _) => p.pc.Applying?
    case EndRemove(_, _) => p.pc.Removing?
    case EndRestart(_, _, _, _) => p.pc.Restarting?
  }

  function FireRetry(v: Scope): Scope {
    var w := StopRetry(v.p.w); // the timer has fired, and the worker forgets it
    if WantsCrashRestart(w) then GoTo(v, CrashRestarting, BeginOp(w, "")) else GoTo(v, LoopHead, w)
  }

  function TakePending(v: Scope): Scope {
    if !HasWork(v.p.w) then GoTo(v, Parked, v.p.w)
    else GoTo(v, Batch(v.p.w.slots, |v.log|), v.p.w.(slots := NO_SLOTS))
  }

  function HandleNextExit(v: Scope, now: int): Scope
    requires v.p.pc.Batch? && v.p.pc.todo.exits != []
  {
    var todo := v.p.pc.todo;
    GoTo(v, v.p.pc.(todo := todo.(exits := todo.exits[1..])), HandleExit(v.p.w, todo.exits[0], now))
  }

  /** The rest of the batch, up to the next runtime call. */
  function BeginNext(v: Scope): Scope
    requires v.p.pc.Batch?
  {
    var todo, upto, w := v.p.pc.todo, v.p.pc.upto, v.p.w;
    if todo.remove then GoTo(v, Removing(upto), BeginRemove(w))
    else if todo.apply.Some? then
      var spec := todo.apply.value;
      if SkipsApply(w, spec) then CarryOut(GoTo(v, Batch(todo.(apply := None), upto), BeginApply(w, spec)), Apply(spec), upto)
      else GoTo(v, Applying(spec, todo.restart, upto), BeginApply(w, spec))
    else if todo.restart then GoTo(v, Restarting, BeginRestart(w))
    else GoTo(v, LoopHead, w)
  }

  function FinishApplying(v: Scope, fetched: bool, inst: Instance, err: Option<string>, now: int, after: Option<RtBot>): Scope
    requires v.p.pc.Applying?
  {
    var Applying(spec, restart, upto) := v.p.pc;
    var w := if fetched then DeployStarted(v.p.w) else v.p.w;
    var u := GoTo(v, Batch(Slots(None, false, restart, []), upto), FinishApply(w, spec, inst, err, now));
    CarryOut(u.(rt := if err.None? then Some(RtBot(Some(spec), ContainerOf(inst))) else after), Apply(spec), upto)
  }

  function FinishRemoving(v: Scope, err: Option<string>, after: Option<RtBot>): Scope
    requires v.p.pc.Removing?
  {
    var u := GoTo(v, Retiring, FinishRemove(v.p.w, err));
    CarryOut(u.(rt := if err.None? then None else after), Remove, v.p.pc.upto)
  }

  function Perform(v: Scope, a: Act): Scope
    requires CanAct(v.p, a)
  {
    match a
    case Wake => GoTo(v, LoopHead, v.p.w.(kick := false))
    case Fire => FireRetry(v)
    case EndCrashRestart(inst, err, now, left) =>
      GoTo(v, LoopHead, FinishCrashRestart(v.p.w, inst, err, now)).(rt := Restarted(v.rt, inst, err, left))
    case TakeBatch => TakePending(v)
    case NextExit(now) => HandleNextExit(v, now)
    case Begin => BeginNext(v)
    case EndApply(fetched, inst, err, now, after) => FinishApplying(v, fetched, inst, err, now, after)
    case EndRemove(err, after) => FinishRemoving(v, err, after)
    case EndRestart(inst, err, now, left) =>
      GoTo(v, LoopHead, FinishRestart(v.p.w, inst, err, now)).(rt := Restarted(v.rt, inst, err, left))
  }

  // ---------- Steps of the agent ----------

  predicate At(s: System, i: nat) { i < |s.procs| }

  function LogOf(s: System, b: BotId): seq<Req> { if b in s.log then s.log[b] else [] }

  function DoneOf(s: System, b: BotId): seq<Carried> { if b in s.done then s.done[b] else [] }

  function RtOf(s: System, b: BotId): Option<RtBot> { if b in s.rt then Some(s.rt[b]) else None }

  function ScopeOf(s: System, i: nat): Scope
    requires At(s, i)
  {
    var b := s.procs[i].bot;
    Scope(s.procs[i], LogOf(s, b), DoneOf(s, b), RtOf(s, b))
  }

  /** `s` after worker `i` turned its scope into `v`. */
  function Install(s: System, i: nat, v: Scope): System
    requires At(s, i)
  {
    var b := s.procs[i].bot;
    s.(procs := s.procs[i := v.p], log := s.log[b := v.log], done := s.done[b := v.done],
       rt := if v.rt.Some? then s.rt[b := v.rt.value] else s.rt - {b})
  }

  predicate TableInRange(s: System) { forall b :: b in s.table ==> At(s, s.table[b]) }

  /** Starts a worker goroutine for `b`, parked. */
  function Spawn(s: System, b: BotId, w: State): System {
    s.(table := s.table[b := |s.procs|], procs := s.procs + [Goroutine(b, Parked, w)])
  }

  /** The bot's worker, started if there was none. */
  function Summon(s: System, b: BotId): (t: System)
    requires TableInRange(s)
    ensures TableInRange(t) && b in t.table
  {
    if b in s.table then s else Spawn(s, b, FRESH)
  }

  predicate FitsBot(b: BotId, ask: Ask) {
    ValidBotId(b) && (ask.AskApply? ==> ask.spec.botId == b && ValidSpec(ask.spec))
  }

  predicate Enabled(s: System, l: Label) {
    match l
    case Request(b, ask) => s.poking.None? && FitsBot(b, ask)
    case Prime(b, _) => s.poking.None? && ValidBotId(b) && b !in s.table
    case FinishPoke => s.poking.Some? && At(s, s.poking.value)
    case RunStateChange(b, _) => b in s.rt
    case Work(i, a) => At(s, i) && CanAct(s.procs[i], a)
    case Retire(i) => At(s, i) && s.procs[i].pc.Retiring? && s.poking.None?
  }

  function TryRetire(s: System, i: nat): System
    requires At(s, i)
  {
    var p := s.procs[i];
    if HasWork(p.w) then s.(procs := s.procs[i := p.(pc := LoopHead)])
    else s.(procs := s.procs[i := p.(pc := Gone)],
            table := if p.bot in s.table && s.table[p.bot] == i then s.table - {p.bot} else s.table)
  }

  function Step(s: System, l: Label): System
    requires Enabled(s, l) && TableInRange(s)
  {
    match l
    case Request(b, ask) =>
      var t := Summon(s, b);
      Install(t, t.table[b], Receive(ScopeOf(t, t.table[b]), ask)).(poking := Some(t.table[b]))
    case Prime(b, inst) => Spawn(s, b, Primed(inst))
    case FinishPoke =>
      var i := s.poking.value;
      s.(procs := s.procs[i := s.procs[i].(w := Poked(s.procs[i].w))], poking := None)
    case RunStateChange(b, c) => s.(rt := s.rt[b := s.rt[b].(container := c)])
    case Work(i, a) => Install(s, i, Perform(ScopeOf(s, i), a))
    case Retire(i) => TryRetire(s, i)
  }

  // ---------- What every step keeps ----------

  /** The request recorded in the slots, if any. */
  function Recorded(w: State): Option<Req> {
    if w.slots.remove then Some(Remove)
    else if w.slots.apply.Some? then Some(Apply(w.slots.apply.value))
    else None
  }

  /** The request taken from the slots and not yet carried out, if any. */
  function InHand(pc: Pc): Option<Req> {
    match pc
    case Batch(todo, _) =>
      if todo.remove then Some(Remove) else if todo.apply.Some? then Some(Apply(todo.apply.value)) else None
    case Applying(spec, _, _) => Some(Apply(spec))
    case Removing(_) => Some(Remove)
    case _ => None
  }

  function Taken(pc: Pc): nat {
    match pc
    case Batch(_, upto) => upto
    case Applying(_, _, upto) => upto
    case Removing(upto) => upto
    case _ => 0
  }

  predicate InOp(pc: Pc) { pc.Applying? || pc.Removing? || pc.Restarting? || pc.CrashRestarting? }

  function Covered(done: seq<Carried>): nat { if done == [] then 0 else done[|done| - 1].at }

  /** The spec a worker holds once everything in `done` was carried out. */
  function LastSpec(done: seq<Carried>): Option<BotSpec> {
    if done == [] || done[|done| - 1].req.Remove? then None else Some(done[|done| - 1].req.spec)
  }

  predicate NotBoth(slots: Slots) { !(slots.apply.Some? && slots.remove) }

  /** Facts about a goroutine alone. */
  predicate LocalOk(p: Goroutine) {
    && NotBoth(p.w.slots)
    && (p.pc.Batch? ==> NotBoth(p.pc.todo))
    && p.w.own.retry.armed == (if p.w.own.retry.deadline.Some? then 1 else 0)
    && p.w.op.active == InOp(p.pc)
    && (InOp(p.pc) ==> p.w.own.retry.deadline.None?)
  }

  /** What the worker believes about its spec agrees with what was carried out and with the runtime. */
  predicate Truthful(v: Scope) {
    && (v.p.pc.Applying? ==> v.p.w.own.spec == Some(v.p.pc.spec))
    && (!v.p.pc.Applying? ==>
          && v.p.w.own.spec == LastSpec(v.done)
          && (v.p.w.own.applied.None? || v.p.w.own.applied == v.p.w.own.spec))
    && (v.p.w.own.applied.Some? ==> v.rt.Some? && v.rt.value.spec == v.p.w.own.applied)
  }

  /** What was carried out is a selection of the log, in order. */
  predicate Selects(done: seq<Carried>, log: seq<Req>) {
    && (forall k :: 0 <= k < |done| ==> 0 < done[k].at <= |log| && log[done[k].at - 1] == done[k].req)
    && (forall j, k :: 0 <= j < k < |done| ==> done[j].at < done[k].at)
  }

  predicate Newest(log: seq<Req>, r: Req) { log != [] && log[|log| - 1] == r }

  /** How far a worker has got through its bot's log. */
  predicate Tracks(v: Scope) {
    var pend, hand, upto := Recorded(v.p.w), InHand(v.p.pc), Taken(v.p.pc);
    && (hand.Some? ==> Covered(v.done) < upto <= |v.log| && v.log[upto - 1] == hand.value)
    && (pend.Some? ==> Newest(v.log, pend.value) && Covered(v.done) < |v.log| && (hand.Some? ==> upto < |v.log|))
    && (pend.None? && hand.Some? ==> upto == |v.log|)
    && (pend.None? && hand.None? ==> Covered(v.done) == |v.log|)
    && (pend.None? && v.p.pc.Retiring? ==> Newest(v.log, Remove))
  }

  /** The whole log was carried out, and it is empty or ends in a removal: a bot without a worker. */
  predicate Settled(done: seq<Carried>, log: seq<Req>) {
    Selects(done, log) && Covered(done) == |log| && (log == [] || Newest(log, Remove))
  }

  /** A running worker; `due` says that a poke of it is still due. */
  predicate ScopeOk(v: Scope, due: bool) {
    && !v.p.pc.Gone?
    && LocalOk(v.p) && Truthful(v) && Selects(v.done, v.log) && Tracks(v)
    && (v.p.pc.Parked? && HasWork(v.p.w) ==> v.p.w.kick || due)
  }

  lemma ReceiveOk(v: Scope, ask: Ask, due: bool)
    requires ScopeOk(v, due)
    ensures ScopeOk(Receive(v, ask), true)
  {
    var u := Receive(v, ask);
    assert forall k :: 0 <= k < |v.log| ==> u.log[k] == v.log[k];
  }

  lemma CarryOutSelects(done: seq<Carried>, log: seq<Req>, req: Req, at: nat)
    requires Selects(done, log)
    requires Covered(done) < at <= |log| && log[at - 1] == req
    ensures Selects(done + [Carried(req, at)], log)
  {
    var d := done + [Carried(req, at)];
    forall j, k | 0 <= j < k < |d| ensures d[j].at < d[k].at {
      if k == |done| && j < |done| - 1 { assert done[j].at < done[|done| - 1].at; }
    }
  }

  /** Moving on without touching the slots or what is in hand. */
  lemma MoveOk(v: Scope, pc: Pc, w: State, rt: Option<RtBot>, due: bool)
    requires ScopeOk(v, due) && !v.p.pc.Applying?
    requires InHand(pc) == InHand(v.p.pc) && (InHand(pc).Some? ==> Taken(pc) == Taken(v.p.pc))
    requires !pc.Gone? && !pc.Retiring? && !pc.Applying? && (pc.Batch? ==> NotBoth(pc.todo))
    requires w.slots == v.p.w.slots && w.op.active == InOp(pc)
    requires w.own.spec == v.p.w.own.spec && w.own.applied == v.p.w.own.applied
    requires w.own.retry.armed == (if w.own.retry.deadline.Some? then 1 else 0)
    requires InOp(pc) ==> w.own.retry.deadline.None?
    requires rt.Some? == v.rt.Some? && (rt.Some? ==> rt.value.spec == v.rt.value.spec)
    requires pc.Parked? ==> !HasWork(w)
    ensures ScopeOk(GoTo(v, pc, w).(rt := rt), due)
  {
  }

  lemma FireOk(v: Scope, due: bool)
    requires ScopeOk(v, due) && CanAct(v.p, Fire)
    ensures ScopeOk(FireRetry(v), due)
  {
    var u := FireRetry(v);
    MoveOk(v, u.p.pc, u.p.w, v.rt, due);
  }

  lemma TakeOk(v: Scope, due: bool)
    requires ScopeOk(v, due) && CanAct(v.p, TakeBatch)
    ensures ScopeOk(TakePending(v), due)
  {
    if !HasWork(v.p.w) { MoveOk(v, Parked, v.p.w, v.rt, due); }
  }

  lemma ExitOk(v: Scope, now: int, due: bool)
    requires ScopeOk(v, due) && CanAct(v.p, NextExit(now))
    ensures ScopeOk(HandleNextExit(v, now), due)
  {
    var u := HandleNextExit(v, now);
    MoveOk(v, u.p.pc, u.p.w, v.rt, due);
  }

  lemma SkipApplyOk(v: Scope, due: bool)
    requires ScopeOk(v, due) && CanAct(v.p, Begin)
    requires !v.p.pc.todo.remove && v.p.pc.todo.apply.Some? && SkipsApply(v.p.w, v.p.pc.todo.apply.value)
    ensures ScopeOk(BeginNext(v), due)
  {
    CarryOutSelects(v.done, v.log, Apply(v.p.pc.todo.apply.value), v.p.pc.upto);
  }

  lemma BeginApplyOk(v: Scope, due: bool)
    requires ScopeOk(v, due) && CanAct(v.p, Begin)
    requires !v.p.pc.todo.remove && v.p.pc.todo.apply.Some? && !SkipsApply(v.p.w, v.p.pc.todo.apply.value)
    ensures ScopeOk(BeginNext(v), due)
  {
    hide Selects;
  }

  lemma BeginOk(v: Scope, due: bool)
    requires ScopeOk(v, due) && CanAct(v.p, Begin)
    ensures ScopeOk(BeginNext(v), due)
  {
    hide Selects, Newest;
    var todo, u := v.p.pc.todo, BeginNext(v);
    if todo.remove || todo.apply.None? {
      MoveOk(v, u.p.pc, u.p.w, v.rt, due);
    } else if SkipsApply(v.p.w, todo.apply.value) {
      SkipApplyOk(v, due);
    } else {
      BeginApplyOk(v, due);
    }
  }

  lemma EndApplyOk(v: Scope, fetched: bool, inst: Instance, err: Option<string>, now: int, after: Option<RtBot>, due: bool)
    requires ScopeOk(v, due) && v.p.pc.Applying?
    ensures ScopeOk(FinishApplying(v, fetched, inst, err, now, after), due)
  {
    var u := FinishApplying(v, fetched, inst, err, now, after);
    assert u.p.w.slots == v.p.w.slots && u.p.w.op == NO_OP && u.p.w.own.spec == v.p.w.own.spec;
    CarryOutSelects(v.done, v.log, Apply(v.p.pc.spec), v.p.pc.upto);
  }

  lemma EndRemoveOk(v: Scope, err: Option<string>, after: Option<RtBot>, due: bool)
    requires ScopeOk(v, due) && v.p.pc.Removing?
    ensures ScopeOk(FinishRemoving(v, err, after), due)
  {
    CarryOutSelects(v.done, v.log, Remove, v.p.pc.upto);
  }

  lemma PerformOk(v: Scope, a: Act, due: bool)
    requires ScopeOk(v, due) && CanAct(v.p, a)
    ensures ScopeOk(Perform(v, a), due)
  {
    match a
    case Wake =>
      MoveOk(v, LoopHead, v.p.w.(kick := false), v.rt, due);
    case Fire => FireOk(v, due);
    case EndCrashRestart(inst, err, now, left) =>
      MoveOk(v, LoopHead, FinishCrashRestart(v.p.w, inst, err, now), Restarted(v.rt, inst, err, left), due);
    case TakeBatch => TakeOk(v, due);
    case NextExit(now) => ExitOk(v, now, due);
    case Begin => BeginOk(v, due);
    case EndApply(fetched, inst, err, now, after) => EndApplyOk(v, fetched, inst, err, now, after, due);
    case EndRemove(err, after) => EndRemoveOk(v, err, after, due);
    case EndRestart(inst, err, now, left) =>
      MoveOk(v, LoopHead, FinishRestart(v.p.w, inst, err, now), Restarted(v.rt, inst, err, left), due);
  }

  // ---------- The invariant of the agent ----------

  predicate TableOk(s: System) {
    && TableInRange(s)
    && (forall b :: b in s.table ==> s.procs[s.table[b]].bot == b && !s.procs[s.table[b]].pc.Gone? && ValidBotId(b))
  }

  predicate ProcOk(s: System, i: nat)
    requires At(s, i)
  {
    var p := s.procs[i];
    if p.pc.Gone? then !HasWork(p.w)
    else p.bot in s.table && s.table[p.bot] == i && ScopeOk(ScopeOf(s, i), s.poking == Some(i))
  }

  predicate RestOk(s: System, b: BotId) {
    b !in s.table ==> Settled(DoneOf(s, b), LogOf(s, b))
  }

  ghost predicate Inv(s: System) {
    && TableOk(s)
    && (s.poking.Some? ==> At(s, s.poking.value) && !s.procs[s.poking.value].pc.Gone?)
    && (forall i: nat :: At(s, i) ==> ProcOk(s, i))
    && (forall b: BotId :: RestOk(s, b))
    && (forall b :: b in s.rt ==> ValidBotId(b))
  }

  /** An agent that just started, over whatever the runtime holds. */
  ghost predicate Init(s: System) {
    && s.table == map[] && s.procs == [] && s.poking == None && s.log == map[] && s.done == map[]
    && (forall b :: b in s.rt ==> ValidBotId(b))
  }

  lemma InitInv(s: System)
    requires Init(s)
    ensures Inv(s)
  {
  }

  /** Whether a poke of worker `i` is due. */
  predicate Due(s: System, i: nat) { s.poking == Some(i) }

  /** A running worker that keeps its own scope in order keeps the whole agent in order. */
  lemma InstallInv(s: System, i: nat, v: Scope, poking: Option<nat>)
    requires Inv(s) && At(s, i) && !s.procs[i].pc.Gone?
    requires v.p.bot == s.procs[i].bot && !v.p.pc.Gone? && ScopeOk(v, poking == Some(i))
    requires poking == s.poking || (s.poking.None? && poking == Some(i)) || (s.poking == Some(i) && poking.None?)
    ensures Inv(Install(s, i, v).(poking := poking))
  {
    hide ScopeOk;
    var t := Install(s, i, v).(poking := poking);
    assert ProcOk(s, i);
    assert ScopeOf(t, i) == v;
    forall j: nat | At(t, j)
      ensures ProcOk(t, j)
    {
      if j != i {
        assert ProcOk(s, j);
        if !s.procs[j].pc.Gone? { assert ScopeOf(t, j) == ScopeOf(s, j) && Due(t, j) == Due(s, j); }
      }
    }
    forall c: BotId
      ensures RestOk(t, c)
    {
      hide Settled;
      assert RestOk(s, c);
    }
  }

  predicate IsFresh(w: State) {
    && w.slots == NO_SLOTS && !w.op.active && w.own.retry == Retry(None, 0)
    && w.own.spec.None? && w.own.applied.None?
  }

  lemma FreshOk(v: Scope)
    requires Settled(v.done, v.log) && v.p.pc.Parked? && IsFresh(v.p.w)
    ensures ScopeOk(v, false)
  {
  }

  lemma SpawnInv(s: System, b: BotId, w: State)
    requires Inv(s) && ValidBotId(b) && b !in s.table && s.poking.None? && IsFresh(w)
    ensures Inv(Spawn(s, b, w))
  {
    hide ScopeOk, Settled;
    var n, t := |s.procs|, Spawn(s, b, w);
    assert RestOk(s, b);
    FreshOk(ScopeOf(t, n));
    forall j: nat | At(t, j)
      ensures ProcOk(t, j)
    {
      if j < n {
        assert ProcOk(s, j);
        if !s.procs[j].pc.Gone? { assert ScopeOf(t, j) == ScopeOf(s, j); }
      }
    }
    forall c: BotId
      ensures RestOk(t, c)
    {
      assert RestOk(s, c);
    }
  }

  lemma RequestInv(s: System, b: BotId, ask: Ask)
    requires Inv(s) && Enabled(s, Request(b, ask))
    ensures Inv(Step(s, Request(b, ask)))
  {
    hide ScopeOk;
    if b !in s.table { SpawnInv(s, b, FRESH); }
    var t := Summon(s, b);
    var i := t.table[b];
    assert ProcOk(t, i);
    var v := ScopeOf(t, i);
    ReceiveOk(v, ask, false);
    InstallInv(t, i, Receive(v, ask), Some(i));
  }

  lemma PerformKeeps(v: Scope, a: Act)
    requires CanAct(v.p, a)
    ensures Perform(v, a).p.bot == v.p.bot && !Perform(v, a).p.pc.Gone? && Perform(v, a).log == v.log
  {
  }

  lemma WorkInv(s: System, i: nat, a: Act)
    requires Inv(s) && Enabled(s, Work(i, a))
    ensures Inv(Step(s, Work(i, a)))
  {
    hide ScopeOk;
    assert ProcOk(s, i);
    var v := ScopeOf(s, i);
    PerformOk(v, a, Due(s, i));
    PerformKeeps(v, a);
    hide Perform;
    InstallInv(s, i, Perform(v, a), s.poking);
  }

  lemma PokedOk(v: Scope, due: bool)
    requires ScopeOk(v, due)
    ensures ScopeOk(v.(p := v.p.(w := Poked(v.p.w))), false)
  {
  }

  lemma FinishPokeInv(s: System)
    requires Inv(s) && Enabled(s, FinishPoke)
    ensures Inv(Step(s, FinishPoke))
  {
    hide ScopeOk;
    var i := s.poking.value;
    assert ProcOk(s, i);
    var v := ScopeOf(s, i);
    PokedOk(v, true);
    var u := v.(p := v.p.(w := Poked(v.p.w)));
    InstallInv(s, i, u, None);
    InstallScopes(s, i, u);
    forall b: BotId
      ensures SameRecord(Install(s, i, u).(poking := None), s, b)
    {
      assert SameRecord(Install(s, i, u), s, b);
    }
    SameStep(s, Install(s, i, u).(poking := None), Step(s, FinishPoke));
  }

  predicate SameRecord(s: System, t: System, b: BotId) {
    LogOf(t, b) == LogOf(s, b) && DoneOf(t, b) == DoneOf(s, b) && RtOf(t, b) == RtOf(s, b)
  }

  /** The invariant does not depend on how an empty history is written down. */
  lemma SameScopes(s: System, t: System)
    requires Inv(s)
    requires t.table == s.table && t.procs == s.procs && t.poking == s.poking
    requires forall b: BotId :: SameRecord(s, t, b)
    ensures Inv(t)
  {
    hide ScopeOk;
    hide Settled;
    forall i: nat | At(t, i)
      ensures ProcOk(t, i)
    {
      assert ProcOk(s, i);
      assert SameRecord(s, t, s.procs[i].bot);
    }
    forall b: BotId
      ensures RestOk(t, b)
    {
      assert RestOk(s, b) && SameRecord(s, t, b);
    }
    forall b | b in t.rt
      ensures ValidBotId(b)
    {
      assert SameRecord(s, t, b) && RtOf(s, b).Some?;
    }
  }

  /** A worker that only changes itself leaves every history and the runtime as they were. */
  lemma InstallScopes(s: System, i: nat, v: Scope)
    requires At(s, i) && v.log == LogOf(s, s.procs[i].bot) && v.done == DoneOf(s, s.procs[i].bot) && v.rt == RtOf(s, s.procs[i].bot)
    ensures forall b: BotId :: SameRecord(Install(s, i, v), s, b)
  {
    forall b: BotId
      ensures SameRecord(Install(s, i, v), s, b)
    {
    }
  }

  lemma SameStep(s: System, u: System, t: System)
    requires Inv(u) && t.table == u.table && t.procs == u.procs && t.poking == u.poking
    requires t.log == s.log && t.done == s.done && t.rt == s.rt
    requires forall b: BotId :: SameRecord(u, s, b)
    ensures Inv(t)
  {
    hide ScopeOk, Settled;
    forall b: BotId
      ensures SameRecord(u, t, b)
    {
      assert SameRecord(u, s, b);
    }
    SameScopes(u, t);
  }

  lemma WithContainerOk(v: Scope, c: ContainerState, due: bool)
    requires ScopeOk(v, due)
    ensures ScopeOk(v.(rt := WithContainer(v.rt, c)), due)
  {
  }

  lemma RunStateChangeInv(s: System, b: BotId, c: ContainerState)
    requires Inv(s) && Enabled(s, RunStateChange(b, c))
    ensures Inv(Step(s, RunStateChange(b, c)))
  {
    hide ScopeOk;
    var t := Step(s, RunStateChange(b, c));
    forall i: nat | At(t, i)
      ensures ProcOk(t, i)
    {
      assert ProcOk(s, i);
      if !s.procs[i].pc.Gone? {
        var v := ScopeOf(s, i);
        WithContainerOk(v, c, Due(s, i));
        assert ScopeOf(t, i) == if s.procs[i].bot == b then v.(rt := WithContainer(v.rt, c)) else v;
        assert Due(t, i) == Due(s, i);
      }
    }
    forall b': BotId
      ensures RestOk(t, b')
    {
      hide Settled;
      assert RestOk(s, b');
    }
  }

  lemma StayOk(v: Scope, due: bool)
    requires ScopeOk(v, due) && v.p.pc.Retiring? && HasWork(v.p.w)
    ensures ScopeOk(v.(p := v.p.(pc := LoopHead)), due)
  {
  }

  lemma LeaveOk(v: Scope, due: bool)
    requires ScopeOk(v, due) && v.p.pc.Retiring? && !HasWork(v.p.w)
    ensures Settled(v.done, v.log)
  {
  }

  lemma RetireInv(s: System, i: nat)
    requires Inv(s) && Enabled(s, Retire(i))
    ensures Inv(Step(s, Retire(i)))
  {
    assert ProcOk(s, i);
    var v := ScopeOf(s, i);
    if HasWork(v.p.w) {
      StayOk(v, Due(s, i));
      StayInv(s, i);
    } else {
      LeaveOk(v, Due(s, i));
      LeaveInv(s, i);
    }
  }

  lemma StayInv(s: System, i: nat)
    requires Inv(s) && Enabled(s, Retire(i)) && HasWork(s.procs[i].w)
    requires ScopeOk(ScopeOf(s, i).(p := s.procs[i].(pc := LoopHead)), Due(s, i))
    ensures Inv(Step(s, Retire(i)))
  {
    hide ScopeOk;
    var u := ScopeOf(s, i).(p := s.procs[i].(pc := LoopHead));
    InstallInv(s, i, u, s.poking);
    InstallScopes(s, i, u);
    SameStep(s, Install(s, i, u), Step(s, Retire(i)));
  }

  lemma LeaveInv(s: System, i: nat)
    requires Inv(s) && Enabled(s, Retire(i)) && !HasWork(s.procs[i].w)
    requires Settled(DoneOf(s, s.procs[i].bot), LogOf(s, s.procs[i].bot))
    ensures Inv(Step(s, Retire(i)))
  {
    hide ScopeOk;
    hide Settled;
    var t := Step(s, Retire(i));
    assert ProcOk(s, i);
    forall j: nat | At(t, j)
      ensures ProcOk(t, j)
    {
      assert ProcOk(s, j);
      if j != i && !s.procs[j].pc.Gone? { assert ScopeOf(t, j) == ScopeOf(s, j); }
    }
    forall c: BotId
      ensures RestOk(t, c)
    {
      assert RestOk(s, c);
    }
  }

  lemma StepInv(s: System, l: Label)
    requires Inv(s) && Enabled(s, l)
    ensures Inv(Step(s, l))
  {
    match l
    case Request(b, ask) => RequestInv(s, b, ask);
    case Prime(b, inst) => SpawnInv(s, b, Primed(inst));
    case FinishPoke => FinishPokeInv(s);
    case RunStateChange(b, c) => RunStateChangeInv(s, b, c);
    case Work(i, a) => WorkInv(s, i, a);
    case Retire(i) => RetireInv(s, i);
  }

  // ---------- Theorems over every run ----------

  /** A run of the agent from `s` to `t`: any steps, in any order, of any goroutines. */
  ghost predicate Run(s: System, ls: seq<Label>, t: System)
    decreases |ls|
  {
    if ls == [] then t == s
    else TableInRange(s) && Enabled(s, ls[0]) && Run(Step(s, ls[0]), ls[1..], t)
  }

  lemma {:induction false} RunInv(s: System, ls: seq<Label>, t: System)
    requires Inv(s) && Run(s, ls, t)
    ensures Inv(t)
    decreases |ls|
  {
    if ls != [] {
      StepInv(s, ls[0]);
      RunInv(Step(s, ls[0]), ls[1..], t);
    }
  }

  predicate Live(s: System, i: nat)
    requires At(s, i)
  {
    !s.procs[i].pc.Gone?
  }

  /**
   * In every interleaving: a bot has at most one running worker; a worker with something recorded in its
   * slots is running and is the one in the table; and if it is parked, a kick or a poke is on its way.
   */
  lemma NoRequestStranded(s0: System, ls: seq<Label>, s: System)
    requires Init(s0) && Run(s0, ls, s)
    ensures forall i: nat, j: nat | At(s, i) && At(s, j) && Live(s, i) && Live(s, j) ::
              s.procs[i].bot == s.procs[j].bot ==> i == j
    ensures forall i: nat | At(s, i) && HasWork(s.procs[i].w) ::
              && Live(s, i) && s.procs[i].bot in s.table && s.table[s.procs[i].bot] == i
              && (s.procs[i].pc.Parked? ==> s.procs[i].w.kick || s.poking == Some(i))
    ensures forall b | b in s.table :: At(s, s.table[b]) && Live(s, s.table[b])
  {
    InitInv(s0);
    RunInv(s0, ls, s);
    forall i: nat | At(s, i)
      ensures ProcOk(s, i)
    {
    }
  }

  /** Nothing recorded, nothing taken: the bot's worker, if it has one, owes nothing for an Apply or a Remove. */
  predicate BotIdle(s: System, b: BotId)
    requires TableInRange(s)
  {
    b in s.table ==> Recorded(s.procs[s.table[b]].w).None? && InHand(s.procs[s.table[b]].pc).None?
  }

  /**
   * The slots refine the request log. What a bot's workers carried out is a selection of the requests
   * in the order they came; an apply and a remove are never both recorded; and whenever the bot is idle,
   * the last request carried out is the newest one, the worker holds exactly its spec, and `applied` is
   * nothing or that spec.
   */
  lemma NewestRequestWins(s0: System, ls: seq<Label>, s: System, b: BotId)
    requires Init(s0) && Run(s0, ls, s)
    ensures TableInRange(s)
    ensures Selects(DoneOf(s, b), LogOf(s, b))
    ensures b in s.table ==> NotBoth(s.procs[s.table[b]].w.slots)
    ensures BotIdle(s, b) ==> CaughtUp(DoneOf(s, b), LogOf(s, b))
    ensures b !in s.table && LogOf(s, b) != [] ==> Newest(LogOf(s, b), Remove)
    ensures BotIdle(s, b) && b in s.table ==>
              var own := s.procs[s.table[b]].w.own;
              && own.spec == NewestSpec(LogOf(s, b))
              && (own.applied.None? || own.applied == own.spec)
  {
    hide ScopeOk;
    InitInv(s0);
    RunInv(s0, ls, s);
    assert RestOk(s, b);
    if b in s.table {
      var i := s.table[b];
      assert ProcOk(s, i);
      var v := ScopeOf(s, i);
      ScopeFacts(v, Due(s, i));
      if BotIdle(s, b) { IdleScope(v, Due(s, i)); }
    } else {
      SettledCaughtUp(DoneOf(s, b), LogOf(s, b));
    }
  }

  /** The last request carried out is the newest one in the log. */
  predicate CaughtUp(done: seq<Carried>, log: seq<Req>) {
    log != [] ==> done != [] && done[|done| - 1] == Carried(log[|log| - 1], |log|)
  }

  /** The spec of the newest request, unless that is a removal. */
  function NewestSpec(log: seq<Req>): Option<BotSpec> {
    if log != [] && log[|log| - 1].Apply? then Some(log[|log| - 1].spec) else None
  }

  lemma SettledCaughtUp(done: seq<Carried>, log: seq<Req>)
    requires Selects(done, log) && Covered(done) == |log|
    ensures CaughtUp(done, log) && LastSpec(done) == NewestSpec(log)
  {
  }

  lemma ScopeFacts(v: Scope, due: bool)
    requires ScopeOk(v, due)
    ensures Selects(v.done, v.log) && NotBoth(v.p.w.slots)
  {
  }

  lemma IdleScope(v: Scope, due: bool)
    requires ScopeOk(v, due) && Recorded(v.p.w).None? && InHand(v.p.pc).None?
    ensures CaughtUp(v.done, v.log) && v.p.w.own.spec == NewestSpec(v.log)
    ensures v.p.w.own.applied.None? || v.p.w.own.applied == v.p.w.own.spec
  {
    SettledCaughtUp(v.done, v.log);
  }

  // ---------- Draining ----------

  /** Steps the agent takes on its own, with the runtime calls an Apply, Remove or crash restart makes succeeding. */
  predicate IsDrain(l: Label) {
    match l
    case FinishPoke => true
    case Retire(_) => true
    case Work(_, EndApply(_, _, err, _, _)) => err.None?
    case Work(_, EndRemove(err, _)) => err.None?
    case Work(_, EndCrashRestart(_, err, _, _)) => err.None?
    case Work(_, _) => true
    case _ => false
  }

  predicate Quiet(p: Goroutine) {
    p.pc.Gone? || (p.pc.Parked? && !p.w.kick && p.w.own.retry.deadline.None?)
  }

  ghost predicate Quiescent(s: System) {
    s.poking.None? && forall i: nat :: At(s, i) ==> Quiet(s.procs[i])
  }

  /** Steps the agent takes on its own, whatever comes of them. */
  predicate IsOwn(l: Label) { l.FinishPoke? || l.Retire? || l.Work? }

  /** A crash restart that fails and still reports a stopped container: the one outcome that is tried again. */
  predicate TriesAgain(l: Label) {
    match l
    case Work(_, EndCrashRestart(inst, err, _, _)) => err.Some? && inst.containerId != "" && !inst.running
    case _ => false
  }

  function Cost(slots: Slots): nat {
    12 * |slots.exits| + (if slots.remove then 6 else 0) + (if slots.apply.Some? then 6 else 0) + (if slots.restart then 6 else 0)
  }

  function PcCost(pc: Pc): nat {
    match pc
    case Parked => 0
    case LoopHead => 1
    case Batch(todo, _) => 2 + Cost(todo)
    case Applying(_, restart, _) => 4 + (if restart then 6 else 0)
    case Removing(_) => 4
    case Restarting => 4
    case CrashRestarting => 8
    case Retiring => 3
    case Gone => 0
  }

  function TimerCost(w: State): nat {
    if w.own.retry.deadline.None? then 0 else if InState(w, Crashed) then 10 else 5
  }

  function ProcCost(p: Goroutine): nat {
    2 * Cost(p.w.slots) + PcCost(p.pc) + (if p.w.kick then 2 else 0) + TimerCost(p.w)
  }

  function TotalCost(ps: seq<Goroutine>): nat {
    if ps == [] then 0 else TotalCost(ps[..|ps| - 1]) + ProcCost(ps[|ps| - 1])
  }

  function SystemCost(s: System): nat { TotalCost(s.procs) + (if s.poking.Some? then 3 else 0) }

  lemma {:induction false} TotalCostUpdate(ps: seq<Goroutine>, i: nat, p: Goroutine)
    requires i < |ps|
    ensures TotalCost(ps[i := p]) + ProcCost(ps[i]) == TotalCost(ps) + ProcCost(p)
  {
    var n := |ps| - 1;
    if i < n {
      assert ps[i := p][..n] == ps[..n][i := p];
      TotalCostUpdate(ps[..n], i, p);
    } else {
      assert ps[i := p][..n] == ps[..n];
    }
  }

  lemma BeginCost(v: Scope)
    requires CanAct(v.p, Begin)
    ensures ProcCost(BeginNext(v).p) < ProcCost(v.p)
  {
  }

  lemma ObservedCost(w: State, inst: Instance, desired: string, err: Option<string>, now: int)
    ensures var u := Observe(w, inst, desired, err, now);
            && u.slots == w.slots && u.kick == w.kick && u.own.retry == w.own.retry
            && (InState(u, Crashed) ==> inst.containerId != "" && !inst.running)
  {
  }

  lemma CrashRestartCost(v: Scope, inst: Instance, err: Option<string>, now: int, left: ContainerState)
    requires v.p.pc.CrashRestarting? && v.p.w.own.retry.deadline.None?
    ensures ProcCost(Perform(v, EndCrashRestart(inst, err, now, left)).p) <
            ProcCost(v.p) + if TriesAgain(Work(0, EndCrashRestart(inst, err, now, left))) then 4 else 0
  {
    var w := EndOp(v.p.w).(own := v.p.w.own.(restarts := v.p.w.own.restarts + 1));
    ObservedCost(w, inst, RUNNING, err, now);
    hide Observe, Min, Max;
  }

  lemma PerformCost(v: Scope, a: Act)
    requires CanAct(v.p, a)
    requires InOp(v.p.pc) ==> v.p.w.own.retry.deadline.None?
    ensures ProcCost(Perform(v, a).p) < ProcCost(v.p) + if TriesAgain(Work(0, a)) then 4 else 0
  {
    hide Observed, ExitState, NextBackoff, Min, Max, CurrentDeploy, SkipsApply;
    match a
    case Begin =>
      BeginCost(v);
      hide BeginNext;
    case EndCrashRestart(inst, err, now, left) =>
      CrashRestartCost(v, inst, err, now, left);
      hide Perform;
    case _ =>
  }

  lemma WorkCost(s: System, i: nat, a: Act)
    requires Inv(s) && Enabled(s, Work(i, a))
    ensures SystemCost(Step(s, Work(i, a))) < SystemCost(s) + if TriesAgain(Work(i, a)) then 4 else 0
  {
    assert ProcOk(s, i);
    var v := ScopeOf(s, i);
    assert InOp(v.p.pc) ==> v.p.w.own.retry.deadline.None?;
    hide ScopeOk;
    PerformCost(v, a);
    hide Perform;
    hide ProcCost;
    TotalCostUpdate(s.procs, i, Perform(v, a).p);
  }

  lemma PokeCost(s: System)
    requires Enabled(s, FinishPoke) && TableInRange(s)
    ensures SystemCost(Step(s, FinishPoke)) < SystemCost(s)
  {
    var i := s.poking.value;
    TotalCostUpdate(s.procs, i, s.procs[i].(w := Poked(s.procs[i].w)));
    hide TotalCost;
  }

  lemma RetireCost(s: System, i: nat)
    requires Enabled(s, Retire(i)) && TableInRange(s)
    ensures SystemCost(Step(s, Retire(i))) < SystemCost(s)
  {
    hide TotalCost, TableInRange;
    var p := s.procs[i];
    var pc := if HasWork(p.w) then LoopHead else Gone;
    assert ProcCost(p.(pc := pc)) < ProcCost(p);
    hide ProcCost, HasWork;
    TotalCostUpdate(s.procs, i, p.(pc := pc));
  }

  lemma DrainStepCost(s: System, l: Label)
    requires Inv(s) && Enabled(s, l) && IsOwn(l)
    ensures SystemCost(Step(s, l)) < SystemCost(s) + if TriesAgain(l) then 4 else 0
  {
    hide ProcOk, RestOk, Step, SystemCost, Enabled;
    match l
    case FinishPoke => PokeCost(s);
    case Retire(i) => RetireCost(s, i);
    case Work(i, a) => WorkCost(s, i, a);
  }

  /** How many crash restarts of a run failed and are tried again. */
  function Retries(ls: seq<Label>): nat {
    if ls == [] then 0 else (if TriesAgain(ls[0]) then 1 else 0) + Retries(ls[1..])
  }

  /**
   * With no new requests the agent stops after boundedly many steps, whatever their order and whatever the
   * runtime calls come to: four more for every crash restart that fails and still reports a stopped container.
   */
  lemma {:induction false} DrainTerminates(s: System, ls: seq<Label>, t: System)
    requires Inv(s) && Run(s, ls, t)
    requires forall k :: 0 <= k < |ls| ==> IsOwn(ls[k])
    ensures |ls| + SystemCost(t) <= SystemCost(s) + 4 * Retries(ls)
    decreases |ls|
  {
    if ls != [] {
      DrainStepCost(s, ls[0]);
      StepInv(s, ls[0]);
      hide SystemCost, TriesAgain;
      DrainTerminates(Step(s, ls[0]), ls[1..], t);
    }
  }

  lemma NextAct(p: Goroutine) returns (a: Act)
    requires !Quiet(p) && !p.pc.Retiring?
    ensures CanAct(p, a) && IsDrain(Work(0, a))
  {
    match p.pc
    case Parked => a := if p.w.kick then Wake else Fire;
    case LoopHead => a := TakeBatch;
    case Batch(todo, _) => a := if todo.exits == [] then Begin else NextExit(0);
    case Applying(_, _, _) => a := EndApply(false, NO_INSTANCE, None, 0, None);
    case Removing(_) => a := EndRemove(None, None);
    case Restarting => a := EndRestart(NO_INSTANCE, None, 0, NoContainer);
    case CrashRestarting => a := EndCrashRestart(NO_INSTANCE, None, 0, NoContainer);
  }

  /** A step some goroutine can take, unless all are parked with nothing on its way. */
  lemma DrainContinues(s: System) returns (l: Label)
    requires Inv(s) && !Quiescent(s)
    ensures Enabled(s, l) && IsDrain(l)
  {
    hide TableOk, ProcOk, RestOk, CanAct;
    if s.poking.Some? { return FinishPoke; }
    var i: nat :| At(s, i) && !Quiet(s.procs[i]);
    hide Inv, Quiet;
    if s.procs[i].pc.Retiring? {
      l := Retire(i);
    } else {
      var a := NextAct(s.procs[i]);
      l := Work(i, a);
    }
  }

  /** When it has stopped, nothing is left undone anywhere. */
  lemma QuiescentMeansDone(s: System, b: BotId)
    requires Inv(s) && Quiescent(s)
    ensures forall i: nat | At(s, i) :: !HasWork(s.procs[i].w)
    ensures BotIdle(s, b) && CaughtUp(DoneOf(s, b), LogOf(s, b))
  {
    forall i: nat | At(s, i)
      ensures !HasWork(s.procs[i].w)
    {
      assert ProcOk(s, i);
    }
    assert RestOk(s, b);
    if b in s.table {
      assert ProcOk(s, s.table[b]) && Quiet(s.procs[s.table[b]]);
      IdleScope(ScopeOf(s, s.table[b]), Due(s, s.table[b]));
    } else {
      SettledCaughtUp(DoneOf(s, b), LogOf(s, b));
    }
  }

  // ---------- What reaches the runtime, and what it has then ----------

  /** Every spec asked for is for its bot, and passed the checks. */
  predicate LogValid(log: seq<Req>, b: BotId) {
    forall k :: 0 <= k < |log| && log[k].Apply? ==> log[k].spec.botId == b && ValidSpec(log[k].spec)
  }

  ghost predicate LogsValid(s: System) { forall b :: b in s.log ==> LogValid(s.log[b], b) }

  lemma RequestLogs(s: System, b: BotId, ask: Ask)
    requires TableOk(s) && TableInRange(s) && Enabled(s, Request(b, ask)) && LogsValid(s)
    ensures LogsValid(Step(s, Request(b, ask)))
  {
    hide ValidSpec, ValidBotId;
    var t := Summon(s, b);
    var v := ScopeOf(t, t.table[b]);
    assert t.procs[t.table[b]].bot == b && t.log == s.log;
    AskedLog(v, ask, b);
    hide Receive, LogValid;
  }

  lemma AskedLog(v: Scope, ask: Ask, b: BotId)
    requires FitsBot(b, ask) && LogValid(v.log, b)
    ensures LogValid(Receive(v, ask).log, b)
  {
    hide ValidSpec, ValidBotId, PutApply, PutRemove, PutRestart, PutExit;
  }

  lemma StepLogs(s: System, l: Label)
    requires TableOk(s) && TableInRange(s) && Enabled(s, l) && LogsValid(s)
    ensures LogsValid(Step(s, l))
  {
    match l
    case Request(b, ask) => RequestLogs(s, b, ask);
    case Work(i, a) =>
      PerformKeeps(ScopeOf(s, i), a);
      assert LogValid(LogOf(s, s.procs[i].bot), s.procs[i].bot);
      hide Perform, LogValid;
    case _ => hide LogValid, Perform, Receive;
  }

  /** Over every run: what a worker carries out is a spec of its own bot that passed the checks, or a removal. */
  lemma {:induction false} OnlyValidSpecsApplied(s0: System, ls: seq<Label>, s: System, b: BotId)
    requires Init(s0) && Run(s0, ls, s)
    ensures forall k :: 0 <= k < |DoneOf(s, b)| && DoneOf(s, b)[k].req.Apply? ==>
              DoneOf(s, b)[k].req.spec.botId == b && ValidSpec(DoneOf(s, b)[k].req.spec)
  {
    InitInv(s0);
    RunLogs(s0, ls, s);
    RunInv(s0, ls, s);
    DoneIsLogged(s, b);
    hide ValidSpec, Run, Inv, Init;
    forall k | 0 <= k < |DoneOf(s, b)| && DoneOf(s, b)[k].req.Apply?
      ensures DoneOf(s, b)[k].req.spec.botId == b && ValidSpec(DoneOf(s, b)[k].req.spec)
    {
      var at := DoneOf(s, b)[k].at;
      assert LogOf(s, b)[at - 1] == DoneOf(s, b)[k].req;
      assert b in s.log && LogValid(s.log[b], b);
    }
  }

  lemma DoneIsLogged(s: System, b: BotId)
    requires Inv(s)
    ensures Selects(DoneOf(s, b), LogOf(s, b))
  {
    assert RestOk(s, b);
    if b in s.table { assert ProcOk(s, s.table[b]); }
  }

  lemma {:induction false} RunLogs(s: System, ls: seq<Label>, t: System)
    requires Inv(s) && LogsValid(s) && Run(s, ls, t)
    ensures LogsValid(t)
    decreases |ls|
  {
    if ls != [] {
      StepInv(s, ls[0]);
      StepLogs(s, ls[0]);
      hide Inv, Step, Enabled, LogsValid, TableInRange;
      RunLogs(Step(s, ls[0]), ls[1..], t);
    }
  }

  /** The container an instance tells of. */
  predicate TellsOf(c: ContainerState, inst: Instance) {
    && (c.NoContainer? <==> inst.containerId == "")
    && (c.Up? <==> inst.containerId != "" && inst.running)
  }

  /**
   * What the runtime has of a bot only changes as a call on it returns: after an apply it has the bot on that spec,
   * after a removal nothing, after a restart another run state; each with the container it reports. After a call
   * that fails it may have anything, but for the spec, which a restart does not touch.
   */
  lemma RuntimeAfter(v: Scope, a: Act)
    requires CanAct(v.p, a)
    ensures var u := Perform(v, a);
            && (a.EndApply? && a.err.None? ==> u.rt.Some? && u.rt.value.spec == Some(v.p.pc.spec) && TellsOf(u.rt.value.container, a.inst))
            && (a.EndRemove? && a.err.None? ==> u.rt.None?)
            && ((a.EndApply? || a.EndRemove?) && a.err.Some? ==> u.rt == a.after)
            && (a.EndRestart? || a.EndCrashRestart? ==>
                  && u.rt.Some? == v.rt.Some?
                  && (v.rt.Some? ==> u.rt.value.spec == v.rt.value.spec
                                     && if a.err.None? then TellsOf(u.rt.value.container, a.inst) else u.rt.value.container == a.left))
            && (!a.EndApply? && !a.EndRemove? && !a.EndRestart? && !a.EndCrashRestart? ==> u.rt == v.rt)
  {
    hide Observed;
  }

  // ---------- One worker's steps on their own ----------

  /** What one worker does, step by step. */
  ghost predicate ScopeRun(v: Scope, acts: seq<Act>, u: Scope)
    decreases |acts|
  {
    if acts == [] then u == v else CanAct(v.p, acts[0]) && ScopeRun(Perform(v, acts[0]), acts[1..], u)
  }

  lemma ScopeCons(v: Scope, a: Act, acts: seq<Act>, u: Scope)
    requires CanAct(v.p, a) && ScopeRun(Perform(v, a), acts, u)
    ensures ScopeRun(v, [a] + acts, u)
  {
    hide Perform, CanAct;
    assert ([a] + acts)[1..] == acts;
  }

  lemma ScopeNone(v: Scope)
    ensures ScopeRun(v, [], v)
  {
  }

  lemma {:induction false} ScopeSnoc(v: Scope, acts: seq<Act>, u: Scope, a: Act)
    requires ScopeRun(v, acts, u) && CanAct(u.p, a)
    ensures ScopeRun(v, acts + [a], Perform(u, a))
    decreases |acts|
  {
    hide Perform, CanAct;
    if acts == [] {
      assert [] + [a] == [a] && [a][1..] == [];
      ScopeNone(Perform(v, a));
    } else {
      ScopeSnoc(Perform(v, acts[0]), acts[1..], u, a);
      ScopeCons(v, acts[0], acts[1..] + [a], Perform(u, a));
      assert [acts[0]] + (acts[1..] + [a]) == acts + [a];
    }
  }

  // ---------- What the slots mean ----------

  function ReceiveAll(v: Scope, asks: seq<Ask>): Scope {
    if asks == [] then v else Receive(ReceiveAll(v, asks[..|asks| - 1]), asks[|asks| - 1])
  }

  /** The newest of the requests to apply or remove. */
  function NewestAsk(asks: seq<Ask>): Option<Ask> {
    if asks == [] then None
    else
      var a := asks[|asks| - 1];
      if a.AskApply? || a.AskRemove? then Some(a) else NewestAsk(asks[..|asks| - 1])
  }

  /** The exits told, in order. */
  function ExitsTold(asks: seq<Ask>): seq<Event> {
    if asks == [] then []
    else ExitsTold(asks[..|asks| - 1]) + if asks[|asks| - 1].TellExit? then [asks[|asks| - 1].ev] else []
  }

  /** A restart was asked for, and no removal after it. */
  predicate RestartStands(asks: seq<Ask>) {
    exists k :: 0 <= k < |asks| && asks[k].AskRestart? && forall j :: k < j < |asks| ==> !asks[j].AskRemove?
  }

  /** A request the call in flight is not worth finishing for: a removal, or an apply of another deploy while one is fetched. */
  predicate Supersedes(op: Op, a: Ask) {
    a.AskRemove? || (a.AskApply? && op.deploy != "" && a.spec.deployId != op.deploy)
  }

  /** `u` is `v` with these requests in its slots. */
  predicate Queued(v: Scope, asks: seq<Ask>, u: Scope) {
    var newest := NewestAsk(asks);
    && u.p.w.slots.apply == (if newest.Some? && newest.value.AskApply? then Some(newest.value.spec) else None)
    && (u.p.w.slots.remove <==> newest == Some(AskRemove))
    && (u.p.w.slots.restart <==> RestartStands(asks))
    && u.p.w.slots.exits == ExitsTold(asks)
    && u.p.w.uid == (if newest.None? then v.p.w.uid else if newest.value.AskApply? then newest.value.spec.uid else 0)
    && (HasWork(u.p.w) <==> asks != [])
    && u.p.w.op == v.p.w.op.(cancelled := v.p.w.op.cancelled || (v.p.w.op.active && exists k :: 0 <= k < |asks| && Supersedes(v.p.w.op, asks[k])))
    && u.p.pc == v.p.pc && u.p.w.own == v.p.w.own && u.p.w.state == v.p.w.state
  }

  lemma QueuedStep(v: Scope, asks: seq<Ask>, u: Scope, a: Ask)
    requires Queued(v, asks, u)
    ensures Queued(v, asks + [a], Receive(u, a))
  {
    RestartStep(asks, a);
    SupersedeStep(v.p.w.op, asks, a);
    assert (asks + [a])[..|asks|] == asks;
    hide RestartStands, Supersedes;
  }

  /**
   * Any number of requests that reach a worker between two batches leave in its slots exactly what a queue of
   * them would come to: the newest of the applies and removals, a restart unless a removal came after it,
   * every exit in order. The call in flight is cancelled exactly if one of them supersedes it.
   */
  lemma {:induction false} RequestsCoalesce(v: Scope, asks: seq<Ask>)
    requires v.p.w.slots == NO_SLOTS
    ensures Queued(v, asks, ReceiveAll(v, asks))
  {
    if asks != [] {
      var n := |asks| - 1;
      RequestsCoalesce(v, asks[..n]);
      QueuedStep(v, asks[..n], ReceiveAll(v, asks[..n]), asks[n]);
      assert asks[..n] + [asks[n]] == asks;
      hide Queued, Receive;
    }
  }

  lemma RestartStep(asks: seq<Ask>, a: Ask)
    ensures RestartStands(asks + [a]) <==> a.AskRestart? || (!a.AskRemove? && RestartStands(asks))
  {
    var all, n := asks + [a], |asks|;
    assert all[n] == a && forall k :: 0 <= k < n ==> all[k] == asks[k];
    if RestartStands(asks) && !a.AskRemove? {
      var k :| 0 <= k < n && asks[k].AskRestart? && forall j :: k < j < n ==> !asks[j].AskRemove?;
      assert all[k].AskRestart?;
    }
    if a.AskRestart? { assert all[n].AskRestart?; }
    if RestartStands(all) && !a.AskRestart? {
      var k :| 0 <= k < |all| && all[k].AskRestart? && forall j :: k < j < |all| ==> !all[j].AskRemove?;
      assert asks[k].AskRestart? && !all[n].AskRemove?;
      forall j | k < j < n ensures !asks[j].AskRemove? { assert !all[j].AskRemove?; }
    }
  }

  lemma SupersedeStep(op: Op, asks: seq<Ask>, a: Ask)
    ensures (exists k :: 0 <= k < |asks + [a]| && Supersedes(op, (asks + [a])[k])) <==>
            Supersedes(op, a) || exists k :: 0 <= k < |asks| && Supersedes(op, asks[k])
  {
    hide Supersedes;
    var all := asks + [a];
    assert all[|asks|] == a && forall k :: 0 <= k < |asks| ==> all[k] == asks[k];
  }
}
