/**
 * A full sync: apply every valid spec, then remove every bot that is not in the set, while the
 * workers go on interleaving with it. From any state the agent can be in, once the sync has been
 * handed out and the workers have drained, the runtime holds exactly the synced bots.
 */
module SyncConvergence {

  import opened Options
  import opened Proto
  import opened BotWorker
  import opened Reconciler

  /** How far the sync has got: specs handed to workers, the runtime listed, removals still to hand out. */
  datatype Phase = Sending(next: nat) | Listed(ids: set<BotId>) | Removals(todo: set<BotId>)

  datatype Move =
    | Agent(l: Label)
    | SendNext
    | List(ids: set<BotId>)
    | Collect
    | RemoveNext(bot: BotId)

  function Keep(bots: seq<BotSpec>): set<BotId> {
    set k | 0 <= k < |bots| && ValidBotId(bots[k].botId) :: bots[k].botId
  }

  /** The spec each bot should end on: the last valid one for its id. */
  function Wanted(bots: seq<BotSpec>): map<BotId, BotSpec> {
    if bots == [] then map[]
    else
      var last, rest := bots[|bots| - 1], Wanted(bots[..|bots| - 1]);
      if ValidSpec(last) then rest[last.botId := last] else rest
  }

  function WorkerOf(s: System, b: BotId): Option<Goroutine>
    requires TableInRange(s)
  {
    if b in s.table then Some(s.procs[s.table[b]]) else None
  }

  /** What the runtime lists: every bot it has, except that a runtime call in flight may hide its bot. */
  predicate ListsAll(s: System, ids: set<BotId>)
    requires TableInRange(s)
  {
    forall b :: b in s.rt ==> b in ids || (WorkerOf(s, b).Some? && InOp(WorkerOf(s, b).value.pc))
  }

  predicate CanMove(s: System, ph: Phase, bots: seq<BotSpec>, m: Move)
    requires TableInRange(s)
  {
    match m
    case Agent(l) => IsDrain(l) && Enabled(s, l)
    case SendNext => ph.Sending? && ph.next < |bots| && (ValidSpec(bots[ph.next]) ==> s.poking.None?)
    case List(ids) => ph == Sending(|bots|) && ListsAll(s, ids)
    case Collect => ph.Listed? && s.poking.None?
    case RemoveNext(b) => ph.Removals? && b in ph.todo && (ValidBotId(b) ==> s.poking.None?)
  }

  function MoveTo(s: System, ph: Phase, bots: seq<BotSpec>, m: Move): (System, Phase)
    requires TableInRange(s) && CanMove(s, ph, bots, m)
  {
    match m
    case Agent(l) => (Step(s, l), ph)
    case SendNext =>
      var spec := bots[ph.next];
      (if ValidSpec(spec) then Step(s, Request(spec.botId, AskApply(spec))) else s, Sending(ph.next + 1))
    case List(ids) => (s, Listed(ids))
    case Collect => (s, Removals(ph.ids + s.table.Keys - Keep(bots)))
    case RemoveNext(b) =>
      (if ValidBotId(b) then Step(s, Request(b, AskRemove)) else s, Removals(ph.todo - {b}))
  }

  // ---------- What holds along the way ----------

  /** The newest Apply/Remove the worker still owes. */
  function Owed(p: Goroutine): Option<Req> {
    if Recorded(p.w).Some? then Recorded(p.w) else InHand(p.pc)
  }

  /** The bot is on its spec, or its worker owes exactly that. */
  predicate OnCourse(p: Option<Goroutine>, spec: BotSpec) {
    p.Some? && (Owed(p.value) == Some(Apply(spec)) || (Owed(p.value).None? && p.value.w.own.applied == Some(spec)))
  }

  /** The bot is gone, or its worker owes its removal. */
  predicate Going(p: Option<Goroutine>, rt: Option<RtBot>) {
    if p.None? then rt.None?
    else Owed(p.value) == Some(Remove) || (Owed(p.value).None? && rt.None?)
  }

  /** The bot will be among those to remove if the runtime has it. */
  predicate Seen(p: Option<Goroutine>, rt: Option<RtBot>, listed: bool) {
    rt.Some? ==> listed || (p.Some? && !p.value.pc.Retiring?)
  }

  /** Nothing about a restart or an exit is recorded, in hand or timed. */
  predicate NothingWaits(p: Goroutine) {
    && !p.w.slots.restart && p.w.slots.exits == [] && p.w.own.retry.deadline.None?
    && !p.pc.Restarting? && !p.pc.CrashRestarting?
    && (p.pc.Batch? ==> !p.pc.todo.restart && p.pc.todo.exits == [])
    && (p.pc.Applying? ==> !p.pc.restart)
  }

  /** The container is in the run state its spec asks for: not up if it is to be stopped, not down if it is to run. */
  predicate AsAsked(rt: RtBot) {
    rt.spec.Some? ==> if rt.spec.value.desired == STOPPED then !rt.container.Up? else !rt.container.Down?
  }

  /** The worker takes `want` to be applied, and so will skip it, while the container is not in the run state it asks for. */
  predicate Stale(p: Goroutine, rt: Option<RtBot>, want: BotSpec) {
    p.w.own.applied == Some(want) && rt.Some? && !AsAsked(rt.value)
  }

  /** An Apply that succeeds reports the container it was asked for: nothing exits at once. */
  predicate GoesAsAsked(s: System, l: Label) {
    match l
    case Work(i, EndApply(_, inst, _, _, _)) =>
      At(s, i) && s.procs[i].pc.Applying? ==> AsAsked(RtBot(Some(s.procs[i].pc.spec), ContainerOf(inst)))
    case _ => true
  }

  function Sent(ph: Phase, bots: seq<BotSpec>): seq<BotSpec> {
    if ph.Sending? && ph.next <= |bots| then bots[..ph.next] else bots
  }

  ghost predicate AllOnCourse(s: System, want: map<BotId, BotSpec>)
    requires TableInRange(s)
  {
    forall b :: b in want ==> OnCourse(WorkerOf(s, b), want[b])
  }

  ghost predicate AllSeen(s: System, keep: set<BotId>, ids: set<BotId>)
    requires TableInRange(s)
  {
    forall b: BotId :: b !in keep ==> Seen(WorkerOf(s, b), RtOf(s, b), b in ids)
  }

  ghost predicate AllGoing(s: System, keep: set<BotId>)
    requires TableInRange(s)
  {
    forall b: BotId :: b !in keep ==> Going(WorkerOf(s, b), RtOf(s, b))
  }

  ghost predicate SyncInv(s: System, ph: Phase, bots: seq<BotSpec>) {
    && Inv(s)
    && (ph.Sending? ==> ph.next <= |bots|)
    && AllOnCourse(s, Wanted(Sent(ph, bots)))
    && (ph.Listed? ==> AllSeen(s, Keep(bots), ph.ids))
    && (ph.Removals? ==> ph.todo !! Keep(bots) && AllGoing(s, Keep(bots) + ph.todo))
  }

  // ---------- One worker step ----------

  function BotOf(s: System, l: Label): BotId
    requires Enabled(s, l) && !l.RunStateChange?
  {
    match l
    case Request(b, _) => b
    case Prime(b, _) => b
    case FinishPoke => s.procs[s.poking.value].bot
    case Work(i, _) => s.procs[i].bot
    case Retire(i) => s.procs[i].bot
  }

  lemma FrameProc(s: System, t: System, i: nat, c: BotId)
    requires TableInRange(s) && TableInRange(t) && At(s, i)
    requires c in s.table ==> s.table[c] != i
    requires c in t.table <==> c in s.table
    requires c in s.table ==> t.table[c] == s.table[c]
    requires |t.procs| == |s.procs| && forall j: nat :: At(s, j) && j != i ==> t.procs[j] == s.procs[j]
    ensures WorkerOf(t, c) == WorkerOf(s, c)
  {
  }

  lemma InvInRange(s: System)
    requires Inv(s)
    ensures TableInRange(s) && TableOk(s)
  {
  }

  lemma FrameRequest(s: System, b: BotId, ask: Ask, c: BotId)
    requires TableOk(s) && Enabled(s, Request(b, ask)) && c != b
    ensures var t := Step(s, Request(b, ask));
            TableInRange(t) && WorkerOf(t, c) == WorkerOf(s, c) && RtOf(t, c) == RtOf(s, c) && LogOf(t, c) == LogOf(s, c)
  {
    hide Receive, FitsBot, ValidBotId;
    var t := Summon(s, b);
    assert WorkerOf(t, c) == WorkerOf(s, c);
    FrameProc(t, Step(s, Request(b, ask)), t.table[b], c);
  }

  lemma FrameWork(s: System, i: nat, a: Act, c: BotId)
    requires TableOk(s) && Enabled(s, Work(i, a)) && c != s.procs[i].bot
    ensures var t := Step(s, Work(i, a));
            TableInRange(t) && WorkerOf(t, c) == WorkerOf(s, c) && RtOf(t, c) == RtOf(s, c) && LogOf(t, c) == LogOf(s, c)
  {
    hide Perform;
    FrameProc(s, Step(s, Work(i, a)), i, c);
  }

  lemma FramePoke(s: System, c: BotId)
    requires TableOk(s) && Enabled(s, FinishPoke) && c != s.procs[s.poking.value].bot
    ensures var t := Step(s, FinishPoke);
            TableInRange(t) && WorkerOf(t, c) == WorkerOf(s, c) && RtOf(t, c) == RtOf(s, c) && LogOf(t, c) == LogOf(s, c)
  {
    FrameProc(s, Step(s, FinishPoke), s.poking.value, c);
  }

  lemma FrameRetire(s: System, i: nat, c: BotId)
    requires TableOk(s) && Enabled(s, Retire(i)) && c != s.procs[i].bot
    ensures var t := Step(s, Retire(i));
            TableInRange(t) && WorkerOf(t, c) == WorkerOf(s, c) && RtOf(t, c) == RtOf(s, c) && LogOf(t, c) == LogOf(s, c)
  {
    FrameProc(s, Step(s, Retire(i)), i, c);
  }

  lemma FramePrime(s: System, b: BotId, inst: Instance, c: BotId)
    requires TableOk(s) && Enabled(s, Prime(b, inst)) && c != b
    ensures var t := Step(s, Prime(b, inst));
            TableInRange(t) && WorkerOf(t, c) == WorkerOf(s, c) && RtOf(t, c) == RtOf(s, c) && LogOf(t, c) == LogOf(s, c)
  {
  }

  /** A step leaves every other bot as it was. */
  lemma StepFrame(s: System, l: Label, c: BotId)
    requires Inv(s) && Enabled(s, l) && !l.RunStateChange? && c != BotOf(s, l)
    ensures TableInRange(Step(s, l))
    ensures WorkerOf(Step(s, l), c) == WorkerOf(s, c) && RtOf(Step(s, l), c) == RtOf(s, c) && LogOf(Step(s, l), c) == LogOf(s, c)
  {
    InvInRange(s);
    hide Inv, TableOk, Step, Enabled;
    match l
    case Request(b, ask) => FrameRequest(s, b, ask, c);
    case Prime(b, inst) => FramePrime(s, b, inst, c);
    case FinishPoke => FramePoke(s, c);
    case Work(i, a) => FrameWork(s, i, a, c);
    case Retire(i) => FrameRetire(s, i, c);
    case RunStateChange(_, _) =>
  }

  /** The stepping worker is its bot's worker before and after, unless it retires. */
  lemma WorkSelf(s: System, i: nat, a: Act)
    requires Inv(s) && Enabled(s, Work(i, a))
    ensures var b, t := s.procs[i].bot, Step(s, Work(i, a));
            && TableInRange(t)
            && WorkerOf(s, b) == Some(s.procs[i]) && ScopeOk(ScopeOf(s, i), Due(s, i))
            && ScopeOf(s, i) == Scope(s.procs[i], LogOf(s, b), DoneOf(s, b), RtOf(s, b))
            && WorkerOf(t, b) == Some(Perform(ScopeOf(s, i), a).p) && RtOf(t, b) == Perform(ScopeOf(s, i), a).rt
            && LogOf(t, b) == LogOf(s, b)
  {
    StepInv(s, Work(i, a));
    PerformKeeps(ScopeOf(s, i), a);
    hide ScopeOk, Perform;
    assert ProcOk(s, i);
  }

  lemma BeginOnCourse(v: Scope, spec: BotSpec, due: bool)
    requires ScopeOk(v, due) && CanAct(v.p, Begin) && OnCourse(Some(v.p), spec)
    ensures OnCourse(Some(BeginNext(v).p), spec)
  {
  }

  lemma PerformOnCourse(v: Scope, a: Act, spec: BotSpec, due: bool)
    requires ScopeOk(v, due) && CanAct(v.p, a) && IsDrain(Work(0, a))
    requires OnCourse(Some(v.p), spec)
    ensures OnCourse(Some(Perform(v, a).p), spec)
  {
    match a
    case Begin =>
      BeginOnCourse(v, spec, due);
      hide BeginNext;
    case EndApply(fetched, inst, err, now, after) =>
    case _ =>
  }

  lemma PerformGoing(v: Scope, a: Act, due: bool)
    requires ScopeOk(v, due) && CanAct(v.p, a) && IsDrain(Work(0, a))
    requires Going(Some(v.p), v.rt)
    ensures Going(Some(Perform(v, a).p), Perform(v, a).rt)
  {
    match a
    case EndApply(fetched, inst, err, now, after) =>
    case _ =>
  }

  lemma PerformSeen(v: Scope, a: Act, listed: bool)
    requires CanAct(v.p, a) && IsDrain(Work(0, a))
    requires Seen(Some(v.p), v.rt, listed)
    ensures Seen(Some(Perform(v, a).p), Perform(v, a).rt, listed)
  {
    match a
    case EndApply(fetched, inst, err, now, after) =>
    case _ =>
  }

  lemma PerformNothingWaits(v: Scope, a: Act)
    requires CanAct(v.p, a) && IsDrain(Work(0, a)) && NothingWaits(v.p)
    ensures NothingWaits(Perform(v, a).p)
  {
    match a
    case EndApply(fetched, inst, err, now, after) =>
    case _ =>
  }

  lemma PerformNotStale(v: Scope, a: Act, want: BotSpec)
    requires CanAct(v.p, a) && IsDrain(Work(0, a)) && NothingWaits(v.p) && !Stale(v.p, v.rt, want)
    requires a.EndApply? ==> AsAsked(RtBot(Some(v.p.pc.spec), ContainerOf(a.inst)))
    ensures !Stale(Perform(v, a).p, Perform(v, a).rt, want)
  {
    match a
    case EndApply(fetched, inst, err, now, after) =>
    case _ =>
  }

  lemma PerformStale(v: Scope, a: Act, want: BotSpec)
    requires CanAct(v.p, a) && NothingWaits(v.p) && ApplyFree(v.p, Some(want)) && Stale(v.p, v.rt, want)
    ensures Stale(Perform(v, a).p, Perform(v, a).rt, want)
  {
  }

  lemma PokeSelf(s: System)
    requires Inv(s) && Enabled(s, FinishPoke)
    ensures var p, t := s.procs[s.poking.value], Step(s, FinishPoke);
            && TableInRange(t)
            && WorkerOf(s, p.bot) == Some(p) && WorkerOf(t, p.bot) == Some(p.(w := Poked(p.w)))
            && RtOf(t, p.bot) == RtOf(s, p.bot) && LogOf(t, p.bot) == LogOf(s, p.bot)
  {
    hide ScopeOk;
    assert ProcOk(s, s.poking.value);
  }

  /** A worker that retires has been told of nothing since its removal, and holds no spec. */
  lemma RetireSelf(s: System, i: nat)
    requires Inv(s) && Enabled(s, Retire(i))
    ensures var p, t := s.procs[i], Step(s, Retire(i));
            && TableInRange(t)
            && WorkerOf(s, p.bot) == Some(p)
            && WorkerOf(t, p.bot) == (if HasWork(p.w) then Some(p.(pc := LoopHead)) else None)
            && RtOf(t, p.bot) == RtOf(s, p.bot) && LogOf(t, p.bot) == LogOf(s, p.bot)
            && (Owed(p).None? ==> p.w.own.applied.None?)
  {
    assert ProcOk(s, i);
    if Owed(s.procs[i]).None? { IdleScope(ScopeOf(s, i), Due(s, i)); }
  }

  lemma RetiringOnCourse(p: Goroutine, spec: BotSpec)
    requires p.pc.Retiring? && OnCourse(Some(p), spec) && (Owed(p).None? ==> p.w.own.applied.None?)
    ensures HasWork(p.w) && OnCourse(Some(p.(pc := LoopHead)), spec)
  {
  }

  lemma PokedOnCourse(p: Goroutine, spec: BotSpec)
    requires OnCourse(Some(p), spec)
    ensures OnCourse(Some(p.(w := Poked(p.w))), spec)
  {
  }

  lemma OwnOnCourse(s: System, l: Label, spec: BotSpec)
    requires Inv(s) && Enabled(s, l) && IsDrain(l) && OnCourse(WorkerOf(s, BotOf(s, l)), spec)
    ensures TableInRange(Step(s, l)) && OnCourse(WorkerOf(Step(s, l), BotOf(s, l)), spec)
  {
    InvInRange(s);
    hide Inv, TableOk, ScopeOk, Perform, Step, OnCourse, Owed;
    match l
    case FinishPoke =>
      PokeSelf(s);
      PokedOnCourse(s.procs[s.poking.value], spec);
    case Retire(i) =>
      RetireSelf(s, i);
      RetiringOnCourse(s.procs[i], spec);
    case Work(i, a) => WorkOnCourse(s, i, a, spec);
    case _ =>
  }

  lemma WorkOnCourse(s: System, i: nat, a: Act, spec: BotSpec)
    requires Inv(s) && Enabled(s, Work(i, a)) && IsDrain(Work(i, a)) && TableInRange(s)
    requires OnCourse(WorkerOf(s, s.procs[i].bot), spec)
    ensures TableInRange(Step(s, Work(i, a))) && OnCourse(WorkerOf(Step(s, Work(i, a)), s.procs[i].bot), spec)
  {
    hide Inv, ScopeOk, Perform, Step, OnCourse;
    WorkSelf(s, i, a);
    PerformOnCourse(ScopeOf(s, i), a, spec, Due(s, i));
  }

  lemma DrainOnCourse(s: System, l: Label, b: BotId, spec: BotSpec)
    requires Inv(s) && Enabled(s, l) && IsDrain(l)
    requires OnCourse(WorkerOf(s, b), spec)
    ensures TableInRange(Step(s, l)) && OnCourse(WorkerOf(Step(s, l), b), spec)
  {
    hide Inv, OnCourse, Step, Enabled;
    if b != BotOf(s, l) { StepFrame(s, l, b); } else { OwnOnCourse(s, l, spec); }
  }

  lemma PokedGoing(p: Goroutine, rt: Option<RtBot>)
    requires Going(Some(p), rt)
    ensures Going(Some(p.(w := Poked(p.w))), rt)
  {
  }

  lemma RetiringGoing(p: Goroutine, rt: Option<RtBot>)
    requires p.pc.Retiring? && Going(Some(p), rt)
    ensures Going(if HasWork(p.w) then Some(p.(pc := LoopHead)) else None, rt)
  {
  }

  lemma OwnGoing(s: System, l: Label)
    requires Inv(s) && Enabled(s, l) && IsDrain(l) && Going(WorkerOf(s, BotOf(s, l)), RtOf(s, BotOf(s, l)))
    ensures TableInRange(Step(s, l)) && Going(WorkerOf(Step(s, l), BotOf(s, l)), RtOf(Step(s, l), BotOf(s, l)))
  {
    InvInRange(s);
    hide Inv, TableOk, ScopeOk, Perform, Step, Going, Owed;
    match l
    case FinishPoke =>
      PokeSelf(s);
      PokedGoing(s.procs[s.poking.value], RtOf(s, s.procs[s.poking.value].bot));
    case Retire(i) =>
      RetireSelf(s, i);
      RetiringGoing(s.procs[i], RtOf(s, s.procs[i].bot));
    case Work(i, a) =>
      WorkSelf(s, i, a);
      PerformGoing(ScopeOf(s, i), a, Due(s, i));
    case _ =>
  }

  lemma DrainGoing(s: System, l: Label, b: BotId)
    requires Inv(s) && Enabled(s, l) && IsDrain(l)
    requires Going(WorkerOf(s, b), RtOf(s, b))
    ensures TableInRange(Step(s, l)) && Going(WorkerOf(Step(s, l), b), RtOf(Step(s, l), b))
  {
    hide Inv, Going, Step, Enabled;
    if b != BotOf(s, l) { StepFrame(s, l, b); } else { OwnGoing(s, l); }
  }

  lemma DrainSeen(s: System, l: Label, b: BotId, listed: bool)
    requires Inv(s) && Enabled(s, l) && IsDrain(l)
    requires Seen(WorkerOf(s, b), RtOf(s, b), listed)
    ensures TableInRange(Step(s, l)) && Seen(WorkerOf(Step(s, l), b), RtOf(Step(s, l), b), listed)
  {
    InvInRange(s);
    hide Inv, TableOk, ScopeOk, Perform, Step, ProcCost;
    if b != BotOf(s, l) { StepFrame(s, l, b); return; }
    match l
    case FinishPoke => PokeSelf(s);
    case Retire(i) => RetireSelf(s, i);
    case Work(i, a) =>
      WorkSelf(s, i, a);
      PerformSeen(ScopeOf(s, i), a, listed);
    case _ =>
  }

  // ---------- One move of the sync ----------

  lemma RequestSelf(s: System, b: BotId, ask: Ask)
    requires Inv(s) && Enabled(s, Request(b, ask))
    ensures var t := Step(s, Request(b, ask));
            && TableInRange(t) && RtOf(t, b) == RtOf(s, b)
            && LogOf(t, b) == LogOf(s, b) + (if ask.AskApply? then [Apply(ask.spec)] else if ask.AskRemove? then [Remove] else [])
            && WorkerOf(t, b).Some?
            && WorkerOf(t, b).value.pc == (if WorkerOf(s, b).Some? then WorkerOf(s, b).value.pc else Parked)
            && WorkerOf(t, b).value.w ==
               var w := if WorkerOf(s, b).Some? then WorkerOf(s, b).value.w else FRESH;
               match ask
               case AskApply(spec) => PutApply(w, spec)
               case AskRemove => PutRemove(w)
               case AskRestart => PutRestart(w)
               case TellExit(ev) => PutExit(w, ev)
  {
    hide ScopeOk, ValidSpec, ValidBotId;
    if b !in s.table { SpawnInv(s, b, FRESH); }
  }

  lemma {:induction false} WantedAreKept(bots: seq<BotSpec>)
    ensures forall b :: b in Wanted(bots) ==> b in Keep(bots) && Wanted(bots)[b].botId == b && ValidSpec(Wanted(bots)[b])
  {
    if bots != [] {
      var n := |bots| - 1;
      WantedAreKept(bots[..n]);
      assert bots[..n] + [bots[n]] == bots;
      forall b | b in Keep(bots[..n])
        ensures b in Keep(bots)
      {
        var k :| 0 <= k < n && ValidBotId(bots[..n][k].botId) && bots[..n][k].botId == b;
        assert bots[k].botId == b;
      }
    }
  }

  lemma DrainAllOnCourse(s: System, l: Label, want: map<BotId, BotSpec>)
    requires Inv(s) && Enabled(s, l) && IsDrain(l) && AllOnCourse(s, want)
    ensures TableInRange(Step(s, l)) && AllOnCourse(Step(s, l), want)
  {
    StepInv(s, l);
    InvInRange(Step(s, l));
    hide Inv, TableOk, OnCourse, Step, Enabled, IsDrain;
    forall b | b in want
      ensures OnCourse(WorkerOf(Step(s, l), b), want[b])
    {
      DrainOnCourse(s, l, b, want[b]);
    }
  }

  lemma DrainAllSeen(s: System, l: Label, keep: set<BotId>, ids: set<BotId>)
    requires Inv(s) && Enabled(s, l) && IsDrain(l) && AllSeen(s, keep, ids)
    ensures TableInRange(Step(s, l)) && AllSeen(Step(s, l), keep, ids)
  {
    StepInv(s, l);
    InvInRange(Step(s, l));
    hide Inv, TableOk, Seen, Step, Enabled, IsDrain;
    forall b: BotId | b !in keep
      ensures Seen(WorkerOf(Step(s, l), b), RtOf(Step(s, l), b), b in ids)
    {
      DrainSeen(s, l, b, b in ids);
    }
  }

  lemma DrainAllGoing(s: System, l: Label, keep: set<BotId>)
    requires Inv(s) && Enabled(s, l) && IsDrain(l) && AllGoing(s, keep)
    ensures TableInRange(Step(s, l)) && AllGoing(Step(s, l), keep)
  {
    StepInv(s, l);
    InvInRange(Step(s, l));
    hide Inv, TableOk, Going, Step, Enabled, IsDrain;
    forall b: BotId | b !in keep
      ensures Going(WorkerOf(Step(s, l), b), RtOf(Step(s, l), b))
    {
      DrainGoing(s, l, b);
    }
  }

  lemma AgentMoveInv(s: System, ph: Phase, bots: seq<BotSpec>, l: Label)
    requires SyncInv(s, ph, bots) && IsDrain(l) && Enabled(s, l)
    ensures SyncInv(Step(s, l), ph, bots)
  {
    StepInv(s, l);
    hide Inv, Step, Enabled, IsDrain, AllOnCourse, AllSeen, AllGoing, Wanted, Keep;
    DrainAllOnCourse(s, l, Wanted(Sent(ph, bots)));
    if ph.Listed? { DrainAllSeen(s, l, Keep(bots), ph.ids); }
    if ph.Removals? { DrainAllGoing(s, l, Keep(bots) + ph.todo); }
  }

  lemma AskAllOnCourse(s: System, b0: BotId, ask: Ask, want: map<BotId, BotSpec>, want': map<BotId, BotSpec>)
    requires Inv(s) && Enabled(s, Request(b0, ask)) && AllOnCourse(s, want)
    requires forall b :: b in want' && b != b0 ==> b in want && want[b] == want'[b]
    requires b0 in want' ==> ask == AskApply(want'[b0])
    ensures TableInRange(Step(s, Request(b0, ask))) && AllOnCourse(Step(s, Request(b0, ask)), want')
  {
    var l := Request(b0, ask);
    var t := Step(s, l);
    StepInv(s, l);
    InvInRange(t);
    RequestSelf(s, b0, ask);
    hide Inv, TableOk, Step, Enabled;
    forall b | b in want'
      ensures OnCourse(WorkerOf(t, b), want'[b])
    {
      if b != b0 { StepFrame(s, l, b); }
    }
  }

  lemma {:induction false} WantedNext(bots: seq<BotSpec>, k: nat)
    requires k < |bots|
    ensures Wanted(bots[..k + 1]) == if ValidSpec(bots[k]) then Wanted(bots[..k])[bots[k].botId := bots[k]] else Wanted(bots[..k])
  {
    hide ValidSpec;
    assert bots[..k + 1][..k] == bots[..k];
  }

  lemma SendNextInv(s: System, ph: Phase, bots: seq<BotSpec>)
    requires SyncInv(s, ph, bots) && CanMove(s, ph, bots, SendNext)
    ensures var (t, ph') := MoveTo(s, ph, bots, SendNext); SyncInv(t, ph', bots)
  {
    InvInRange(s);
    hide Inv, TableOk, ValidSpec, ValidBotId, AllOnCourse, Wanted, Step, Enabled;
    var k, spec := ph.next, bots[ph.next];
    WantedNext(bots, k);
    if ValidSpec(spec) {
      ApplyEnabled(s, spec);
      SentInv(s, spec, Wanted(bots[..k]), Wanted(bots[..k + 1]));
    }
  }

  lemma ApplyEnabled(s: System, spec: BotSpec)
    requires s.poking.None? && ValidSpec(spec)
    ensures Enabled(s, Request(spec.botId, AskApply(spec)))
  {
  }

  lemma SentInv(s: System, spec: BotSpec, want: map<BotId, BotSpec>, want': map<BotId, BotSpec>)
    requires Inv(s) && Enabled(s, Request(spec.botId, AskApply(spec))) && TableInRange(s) && AllOnCourse(s, want)
    requires want' == want[spec.botId := spec]
    ensures var t := Step(s, Request(spec.botId, AskApply(spec))); Inv(t) && TableInRange(t) && AllOnCourse(t, want')
  {
    hide Inv, Enabled, AllOnCourse, Step;
    StepInv(s, Request(spec.botId, AskApply(spec)));
    AskAllOnCourse(s, spec.botId, AskApply(spec), want, want');
  }

  lemma ListInv(s: System, ph: Phase, bots: seq<BotSpec>, ids: set<BotId>)
    requires SyncInv(s, ph, bots) && CanMove(s, ph, bots, List(ids))
    ensures SyncInv(s, Listed(ids), bots)
  {
    InvInRange(s);
    hide Inv, AllOnCourse, Wanted, Keep;
    assert Sent(ph, bots) == bots;
  }

  lemma CollectInv(s: System, ph: Phase, bots: seq<BotSpec>)
    requires SyncInv(s, ph, bots) && CanMove(s, ph, bots, Collect)
    ensures SyncInv(s, MoveTo(s, ph, bots, Collect).1, bots)
  {
    InvInRange(s);
    hide Inv, TableOk, AllOnCourse, Wanted, Keep;
    var todo := ph.ids + s.table.Keys - Keep(bots);
    forall b: BotId | b !in Keep(bots) + todo
      ensures Going(WorkerOf(s, b), RtOf(s, b))
    {
      assert Seen(WorkerOf(s, b), RtOf(s, b), b in ph.ids);
    }
  }

  lemma AskedToGo(s: System, b: BotId)
    requires Inv(s) && Enabled(s, Request(b, AskRemove))
    ensures var t := Step(s, Request(b, AskRemove)); TableInRange(t) && Going(WorkerOf(t, b), RtOf(t, b))
  {
    RequestSelf(s, b, AskRemove);
    hide Inv, Step;
  }

  lemma AskAllGoing(s: System, b0: BotId, keep: set<BotId>)
    requires Inv(s) && Enabled(s, Request(b0, AskRemove)) && AllGoing(s, keep)
    ensures TableInRange(Step(s, Request(b0, AskRemove))) && AllGoing(Step(s, Request(b0, AskRemove)), keep - {b0})
  {
    var l := Request(b0, AskRemove);
    var t := Step(s, l);
    StepInv(s, l);
    InvInRange(t);
    AskedToGo(s, b0);
    hide Inv, TableOk, Step, Going, ValidBotId;
    forall b: BotId | b !in keep - {b0}
      ensures Going(WorkerOf(t, b), RtOf(t, b))
    {
      if b != b0 { StepFrame(s, l, b); }
    }
  }

  lemma RemoveNextInv(s: System, ph: Phase, bots: seq<BotSpec>, b0: BotId)
    requires SyncInv(s, ph, bots) && CanMove(s, ph, bots, RemoveNext(b0))
    ensures var (t, ph') := MoveTo(s, ph, bots, RemoveNext(b0)); SyncInv(t, ph', bots)
  {
    WantedAreKept(bots);
    assert Keep(bots) + (ph.todo - {b0}) == Keep(bots) + ph.todo - {b0};
    if ValidBotId(b0) {
      StepInv(s, Request(b0, AskRemove));
      hide Inv, ValidBotId, ValidSpec, AllOnCourse, AllGoing, Wanted, Keep;
      AskAllOnCourse(s, b0, AskRemove, Wanted(bots), Wanted(bots));
      AskAllGoing(s, b0, Keep(bots) + ph.todo);
    } else {
      assert b0 !in s.table && b0 !in s.rt;
    }
  }

  // ---------- Whole syncs ----------

  ghost predicate SyncRun(s: System, ph: Phase, bots: seq<BotSpec>, ms: seq<Move>, t: System, ph': Phase)
    decreases |ms|
  {
    if ms == [] then t == s && ph' == ph
    else
      && TableInRange(s) && CanMove(s, ph, bots, ms[0])
      && SyncRun(MoveTo(s, ph, bots, ms[0]).0, MoveTo(s, ph, bots, ms[0]).1, bots, ms[1..], t, ph')
  }

  lemma MoveInv(s: System, ph: Phase, bots: seq<BotSpec>, m: Move)
    requires SyncInv(s, ph, bots) && CanMove(s, ph, bots, m)
    ensures SyncInv(MoveTo(s, ph, bots, m).0, MoveTo(s, ph, bots, m).1, bots)
  {
    hide SyncInv, Step;
    match m
    case Agent(l) => AgentMoveInv(s, ph, bots, l);
    case SendNext => SendNextInv(s, ph, bots);
    case List(ids) => ListInv(s, ph, bots, ids);
    case Collect => CollectInv(s, ph, bots);
    case RemoveNext(b) => RemoveNextInv(s, ph, bots, b);
  }

  lemma {:induction false} SyncRunInv(s: System, ph: Phase, bots: seq<BotSpec>, ms: seq<Move>, t: System, ph': Phase)
    requires SyncInv(s, ph, bots) && SyncRun(s, ph, bots, ms, t, ph')
    ensures SyncInv(t, ph', bots)
    decreases |ms|
  {
    if ms != [] {
      hide SyncInv, MoveTo, CanMove;
      MoveInv(s, ph, bots, ms[0]);
      SyncRunInv(MoveTo(s, ph, bots, ms[0]).0, MoveTo(s, ph, bots, ms[0]).1, bots, ms[1..], t, ph');
    }
  }

  /**
   * From any state a run can reach, whatever workers were in the middle of: once a sync has handed out
   * its last removal and the workers have drained, with no other request and no failing Apply or Remove,
   * the runtime has every valid synced bot, converged on its spec, and no bot that was not in the set.
   */
  lemma SyncConverges(s: System, bots: seq<BotSpec>, ms: seq<Move>, t: System)
    requires Inv(s) && SyncRun(s, Sending(0), bots, ms, t, Removals({})) && Quiescent(t)
    ensures forall b :: b in Wanted(bots) ==> b in t.rt && t.rt[b].spec == Some(Wanted(bots)[b])
    ensures forall b :: b in t.rt ==> b in Keep(bots)
    ensures TableInRange(t) && forall b :: b in Wanted(bots) ==>
              WorkerOf(t, b).Some? && WorkerOf(t, b).value.w.own.applied == Some(Wanted(bots)[b])
  {
    assert bots[..0] == [];
    SyncRunInv(s, Sending(0), bots, ms, t, Removals({}));
    InvInRange(t);
    hide ScopeOk, Wanted, Keep;
    forall b | b in Wanted(bots)
      ensures b in t.rt && t.rt[b].spec == Some(Wanted(bots)[b])
      ensures WorkerOf(t, b).Some? && WorkerOf(t, b).value.w.own.applied == Some(Wanted(bots)[b])
    {
      assert OnCourse(WorkerOf(t, b), Wanted(bots)[b]);
      QuiescentApplied(t, b);
    }
    forall b | b in t.rt
      ensures b in Keep(bots)
    {
      if b !in Keep(bots) {
        assert Going(WorkerOf(t, b), RtOf(t, b));
        if b in t.table { QuiescentApplied(t, b); }
      }
    }
  }

  /** A drained worker owes nothing, and what it believes to have applied is what the runtime has. */
  lemma QuiescentApplied(s: System, b: BotId)
    requires Inv(s) && Quiescent(s) && b in s.table
    ensures Owed(s.procs[s.table[b]]).None?
    ensures var own := s.procs[s.table[b]].w.own;
            own.applied.Some? ==> b in s.rt && s.rt[b].spec == own.applied
  {
    var i := s.table[b];
    assert ProcOk(s, i) && Quiet(s.procs[i]);
  }

  // ---------- The sync itself comes to an end ----------

  function Stage(ph: Phase): nat { if ph.Sending? then 2 else if ph.Listed? then 1 else 0 }

  function Left(ph: Phase, bots: seq<BotSpec>): nat {
    if ph.Sending? then (if ph.next <= |bots| then |bots| - ph.next else 0) else if ph.Listed? then 0 else |ph.todo|
  }

  /** Every move brings the sync and the draining of the workers closer to their end. */
  lemma {:induction false} MoveDecreases(s: System, ph: Phase, bots: seq<BotSpec>, m: Move)
    requires SyncInv(s, ph, bots) && CanMove(s, ph, bots, m)
    ensures var (t, ph') := MoveTo(s, ph, bots, m);
            || Stage(ph') < Stage(ph)
            || (Stage(ph') == Stage(ph) && Left(ph', bots) < Left(ph, bots))
            || (ph' == ph && SystemCost(t) < SystemCost(s))
  {
    hide Inv, AllOnCourse, AllSeen, AllGoing, Wanted, Keep, Step, SystemCost;
    if m.Agent? {
      assert IsOwn(m.l) && !TriesAgain(m.l);
      DrainStepCost(s, m.l);
    }
  }

  /** Until it is over, some move can be made. */
  lemma SyncContinues(s: System, ph: Phase, bots: seq<BotSpec>) returns (m: Move)
    requires SyncInv(s, ph, bots)
    requires !(ph == Removals({}) && Quiescent(s))
    ensures TableInRange(s) && CanMove(s, ph, bots, m)
  {
    InvInRange(s);
    if !Quiescent(s) {
      var l := DrainContinues(s);
      return Agent(l);
    }
    hide Inv, TableOk, AllOnCourse, AllSeen, AllGoing, Wanted, Keep, ValidSpec, ValidBotId;
    match ph
    case Sending(k) => m := if k < |bots| then SendNext else List(s.rt.Keys);
    case Listed(ids) => m := Collect;
    case Removals(todo) => var b :| b in todo; m := RemoveNext(b);
  }

  // ---------- Requests behind the sync's back ----------

  lemma MoveKeepsInv(s: System, ph: Phase, bots: seq<BotSpec>, m: Move)
    requires Inv(s) && TableInRange(s) && CanMove(s, ph, bots, m)
    ensures Inv(MoveTo(s, ph, bots, m).0) && TableInRange(MoveTo(s, ph, bots, m).0)
  {
    match m
    case Agent(l) => StepInv(s, l);
    case SendNext =>
      if ValidSpec(bots[ph.next]) {
        assert Enabled(s, Request(bots[ph.next].botId, AskApply(bots[ph.next])));
        StepInv(s, Request(bots[ph.next].botId, AskApply(bots[ph.next])));
      }
    case RemoveNext(b) => if ValidBotId(b) { StepInv(s, Request(b, AskRemove)); }
    case _ =>
    hide TableOk, Step, ProcOk, RestOk;
  }

  /** Handing out the removals asks of each bot exactly what the list says: its removal, once, if it is on it. */
  lemma {:induction false} RemovalsAsk(s: System, ph: Phase, bots: seq<BotSpec>, ms: seq<Move>, t: System, b: BotId)
    requires Inv(s) && ph.Removals? && SyncRun(s, ph, bots, ms, t, Removals({})) && ValidBotId(b)
    ensures LogOf(t, b) == LogOf(s, b) + if b in ph.todo then [Remove] else []
    decreases |ms|
  {
    if ms == [] {
      assert LogOf(s, b) + [] == LogOf(s, b);
    } else {
      MoveKeepsInv(s, ph, bots, ms[0]);
      RemovalMoveAsks(s, ph, bots, ms[0], b);
      hide Inv, TableInRange, MoveTo, CanMove, ValidBotId;
      RemovalsAsk(MoveTo(s, ph, bots, ms[0]).0, MoveTo(s, ph, bots, ms[0]).1, bots, ms[1..], t, b);
    }
  }

  lemma RemovalMoveAsks(s: System, ph: Phase, bots: seq<BotSpec>, m: Move, b: BotId)
    requires Inv(s) && ph.Removals? && TableInRange(s) && CanMove(s, ph, bots, m) && ValidBotId(b)
    ensures var (t, ph') := MoveTo(s, ph, bots, m);
            && ph'.Removals?
            && LogOf(t, b) + (if b in ph'.todo then [Remove] else []) == LogOf(s, b) + (if b in ph.todo then [Remove] else [])
  {
    hide Inv, TableOk, Step, Wanted, Keep;
    match m
    case Agent(l) => DrainKeepsLog(s, l, b);
    case RemoveNext(b0) =>
      if b0 == b {
        RequestSelf(s, b, AskRemove);
        assert LogOf(s, b) + [Remove] + [] == LogOf(s, b) + [Remove];
      } else if ValidBotId(b0) {
        hide ValidBotId;
        StepFrame(s, Request(b0, AskRemove), b);
      }
  }

  /** The bot is on its spec, or its worker owes exactly that, unless it is still to be removed; or it is going. */
  predicate Decided(s: System, todo: set<BotId>, b: BotId, spec: BotSpec, listed: bool)
    requires TableInRange(s)
  {
    if listed then b in todo || Going(WorkerOf(s, b), RtOf(s, b)) else b !in todo && OnCourse(WorkerOf(s, b), spec)
  }

  lemma DrainDecided(s: System, l: Label, todo: set<BotId>, b: BotId, spec: BotSpec, listed: bool)
    requires Inv(s) && TableInRange(s) && Enabled(s, l) && IsDrain(l) && Decided(s, todo, b, spec, listed)
    ensures TableInRange(Step(s, l)) && Decided(Step(s, l), todo, b, spec, listed)
  {
    StepInv(s, l);
    InvInRange(Step(s, l));
    hide Inv, TableOk, Step, Enabled, IsDrain, Going, OnCourse;
    if listed {
      if b !in todo { DrainGoing(s, l, b); }
    } else {
      DrainOnCourse(s, l, b, spec);
    }
  }

  lemma RemoveNextDecided(s: System, b0: BotId, todo: set<BotId>, b: BotId, spec: BotSpec, listed: bool)
    requires Inv(s) && TableInRange(s) && Enabled(s, Request(b0, AskRemove)) && b0 in todo && Decided(s, todo, b, spec, listed)
    ensures var t := Step(s, Request(b0, AskRemove)); TableInRange(t) && Decided(t, todo - {b0}, b, spec, listed)
  {
    StepInv(s, Request(b0, AskRemove));
    InvInRange(Step(s, Request(b0, AskRemove)));
    if b0 == b { AskedToGo(s, b); } else { StepFrame(s, Request(b0, AskRemove), b); }
    hide Inv, TableOk, Step, Enabled, Going, OnCourse;
  }

  lemma RemovalMoveDecided(s: System, ph: Phase, bots: seq<BotSpec>, m: Move, b: BotId, spec: BotSpec, listed: bool)
    requires Inv(s) && ph.Removals? && TableInRange(s) && CanMove(s, ph, bots, m) && ValidBotId(b)
    requires Decided(s, ph.todo, b, spec, listed)
    ensures var (t, ph') := MoveTo(s, ph, bots, m);
            ph'.Removals? && TableInRange(t) && Decided(t, ph'.todo, b, spec, listed)
  {
    hide Inv, TableInRange, Step, Going, OnCourse, Wanted, Keep, ValidBotId;
    match m
    case Agent(l) => DrainDecided(s, l, ph.todo, b, spec, listed);
    case RemoveNext(b0) =>
      if ValidBotId(b0) {
        RemovalEnabled(s, b0);
        RemoveNextDecided(s, b0, ph.todo, b, spec, listed);
      } else {
        assert b0 != b;
      }
  }

  lemma RemovalEnabled(s: System, b: BotId)
    requires s.poking.None? && ValidBotId(b)
    ensures Enabled(s, Request(b, AskRemove))
  {
  }

  lemma {:induction false} RemovalRunDecided(s: System, ph: Phase, bots: seq<BotSpec>, ms: seq<Move>, t: System, b: BotId, spec: BotSpec, listed: bool)
    requires Inv(s) && TableInRange(s) && ph.Removals? && SyncRun(s, ph, bots, ms, t, Removals({})) && ValidBotId(b)
    requires Decided(s, ph.todo, b, spec, listed)
    ensures Inv(t) && TableInRange(t) && Decided(t, {}, b, spec, listed)
    decreases |ms|
  {
    if ms != [] {
      MoveKeepsInv(s, ph, bots, ms[0]);
      RemovalMoveDecided(s, ph, bots, ms[0], b, spec, listed);
      hide Inv, TableInRange, MoveTo, CanMove, ValidBotId, Decided;
      RemovalRunDecided(MoveTo(s, ph, bots, ms[0]).0, MoveTo(s, ph, bots, ms[0]).1, bots, ms[1..], t, b, spec, listed);
    }
  }

  /**
   * A bot applied by a request of its own while the removals are handed out is removed exactly if it is still
   * on the list; if not, the runtime ends with it on its spec.
   */
  lemma LateApplyRemovedIffListed(s: System, ph: Phase, bots: seq<BotSpec>, ms: seq<Move>, t: System, b: BotId, spec: BotSpec)
    requires Inv(s) && TableInRange(s) && ph.Removals? && SyncRun(s, ph, bots, ms, t, Removals({})) && Quiescent(t)
    requires OnCourse(WorkerOf(s, b), spec)
    ensures b in ph.todo ==> b !in t.rt
    ensures b !in ph.todo ==> b in t.rt && t.rt[b].spec == Some(spec)
  {
    InvInRange(s);
    assert ValidBotId(b);
    var listed := b in ph.todo;
    hide Inv, TableOk, TableInRange, ValidBotId, SyncRun, Quiescent, OnCourse, Going;
    RemovalRunDecided(s, ph, bots, ms, t, b, spec, listed);
    DecidedOutcome(t, b, spec, listed);
  }

  lemma DecidedOutcome(t: System, b: BotId, spec: BotSpec, listed: bool)
    requires Inv(t) && TableInRange(t) && Quiescent(t) && Decided(t, {}, b, spec, listed)
    ensures if listed then b !in t.rt else b in t.rt && t.rt[b].spec == Some(spec)
  {
    if b in t.table { QuiescentApplied(t, b); }
    hide Inv, Quiescent;
  }

  /**
   * The list holds every bot that has a worker and is not in the sync's set. So a bot applied after the sync
   * arrived and before the list was made is removed exactly if it is not in the set.
   */
  lemma ApplyDuringSyncRemovedIff(s: System, ids: set<BotId>, bots: seq<BotSpec>, ms: seq<Move>, t: System, b: BotId, spec: BotSpec)
    requires Inv(s) && TableInRange(s) && CanMove(s, Listed(ids), bots, Collect) && OnCourse(WorkerOf(s, b), spec)
    requires SyncRun(s, MoveTo(s, Listed(ids), bots, Collect).1, bots, ms, t, Removals({})) && Quiescent(t)
    ensures b in MoveTo(s, Listed(ids), bots, Collect).1.todo <==> b !in Keep(bots)
    ensures b !in t.rt <==> b !in Keep(bots)
    ensures b in Keep(bots) ==> t.rt[b].spec == Some(spec)
  {
    hide Inv, TableInRange, SyncRun, Quiescent, Keep;
    LateApplyRemovedIffListed(s, MoveTo(s, Listed(ids), bots, Collect).1, bots, ms, t, b, spec);
  }

  /** A request to apply puts its bot on course, whatever it was about. */
  lemma AskedOnCourse(s: System, b: BotId, spec: BotSpec)
    requires Inv(s) && Enabled(s, Request(b, AskApply(spec)))
    ensures var t := Step(s, Request(b, AskApply(spec))); Inv(t) && TableInRange(t) && OnCourse(WorkerOf(t, b), spec)
  {
    StepInv(s, Request(b, AskApply(spec)));
    RequestSelf(s, b, AskApply(spec));
    hide Inv, Step, ValidSpec, ValidBotId;
  }

  // ---------- Bots the sync leaves alone ----------

  lemma {:induction false} ValidIsWanted(bots: seq<BotSpec>, k: nat)
    requires k < |bots| && ValidSpec(bots[k])
    ensures bots[k].botId in Wanted(bots)
  {
    hide ValidSpec;
    var n := |bots| - 1;
    if k < n {
      assert bots[..n][k] == bots[k];
      ValidIsWanted(bots[..n], k);
    }
  }

  lemma DrainKeepsLog(s: System, l: Label, b: BotId)
    requires Inv(s) && Enabled(s, l) && IsDrain(l)
    ensures TableInRange(s) && LogOf(Step(s, l), b) == LogOf(s, b)
  {
    InvInRange(s);
    hide Inv, TableOk, ScopeOk, Perform, Step;
    if b != BotOf(s, l) { StepFrame(s, l, b); return; }
    match l
    case FinishPoke => PokeSelf(s);
    case Retire(i) => RetireSelf(s, i);
    case Work(i, a) => WorkSelf(s, i, a);
    case _ =>
  }

  lemma MoveKeepsLog(s: System, ph: Phase, bots: seq<BotSpec>, m: Move, b: BotId)
    requires SyncInv(s, ph, bots) && CanMove(s, ph, bots, m)
    requires b in Keep(bots) && b !in Wanted(bots)
    ensures LogOf(MoveTo(s, ph, bots, m).0, b) == LogOf(s, b)
  {
    hide Inv, AllOnCourse, AllSeen, AllGoing, Wanted, Keep, Step;
    match m
    case Agent(l) => DrainKeepsLog(s, l, b);
    case SendNext =>
      var spec := bots[ph.next];
      if ValidSpec(spec) {
        assert Enabled(s, Request(spec.botId, AskApply(spec)));
        ValidIsWanted(bots, ph.next);
        hide ValidSpec, Enabled;
        StepFrame(s, Request(spec.botId, AskApply(spec)), b);
      }
    case RemoveNext(b0) => if ValidBotId(b0) { StepFrame(s, Request(b0, AskRemove), b); }
    case _ =>
  }

  /** A well-named bot whose spec is invalid is neither applied nor removed: at every point of the sync it has been asked nothing. */
  lemma {:induction false} InvalidSpecLeftAlone(s: System, ph: Phase, bots: seq<BotSpec>, ms: seq<Move>, t: System, ph': Phase, b: BotId)
    requires SyncInv(s, ph, bots) && SyncRun(s, ph, bots, ms, t, ph')
    requires b in Keep(bots) && b !in Wanted(bots)
    ensures LogOf(t, b) == LogOf(s, b)
    decreases |ms|
  {
    if ms != [] {
      MoveInv(s, ph, bots, ms[0]);
      MoveKeepsLog(s, ph, bots, ms[0], b);
      hide SyncInv, MoveTo, CanMove;
      InvalidSpecLeftAlone(MoveTo(s, ph, bots, ms[0]).0, MoveTo(s, ph, bots, ms[0]).1, bots, ms[1..], t, ph', b);
    }
  }

  // ---------- Repeating a sync ----------

  /** No valid spec is given twice for one bot. */
  predicate DistinctIds(bots: seq<BotSpec>) {
    forall j, k :: 0 <= j < k < |bots| && ValidSpec(bots[j]) && ValidSpec(bots[k]) ==> bots[j].botId != bots[k].botId
  }

  predicate OnlyApply(spec: Option<BotSpec>, want: Option<BotSpec>) { spec.Some? ==> spec == want }

  /** The worker calls Apply neither now nor for anything it has been asked: a wanted spec is applied already, and no other is asked for. */
  predicate ApplyFree(p: Goroutine, want: Option<BotSpec>) {
    && !p.pc.Applying?
    && OnlyApply(p.w.slots.apply, want)
    && (p.pc.Batch? ==> OnlyApply(p.pc.todo.apply, want))
    && (want.Some? ==>
          && p.w.own.applied == want
          && !p.w.slots.remove && !(p.pc.Batch? && p.pc.todo.remove) && !p.pc.Removing? && !p.pc.Retiring?)
  }

  function WantOf(want: map<BotId, BotSpec>, b: BotId): Option<BotSpec> {
    if b in want then Some(want[b]) else None
  }

  /** The same of a bot, which must have a worker if it is wanted. */
  predicate BotApplyFree(p: Option<Goroutine>, want: Option<BotSpec>) {
    if p.Some? then ApplyFree(p.value, want) else want.None?
  }

  ghost predicate AllApplyFree(s: System, want: map<BotId, BotSpec>)
    requires TableInRange(s)
  {
    forall b: BotId :: BotApplyFree(WorkerOf(s, b), WantOf(want, b))
  }

  lemma PerformApplyFree(v: Scope, a: Act, want: Option<BotSpec>)
    requires CanAct(v.p, a) && ApplyFree(v.p, want)
    ensures ApplyFree(Perform(v, a).p, want)
  {
  }

  lemma OwnApplyFree(s: System, l: Label, want: Option<BotSpec>)
    requires Inv(s) && Enabled(s, l) && IsDrain(l) && BotApplyFree(WorkerOf(s, BotOf(s, l)), want)
    ensures TableInRange(Step(s, l)) && BotApplyFree(WorkerOf(Step(s, l), BotOf(s, l)), want)
  {
    InvInRange(s);
    hide Inv, TableOk, ScopeOk, Perform, Step;
    match l
    case FinishPoke => PokeSelf(s);
    case Retire(i) => RetireSelf(s, i);
    case Work(i, a) =>
      WorkSelf(s, i, a);
      PerformApplyFree(ScopeOf(s, i), a, want);
    case _ =>
  }

  lemma DrainAllApplyFree(s: System, l: Label, want: map<BotId, BotSpec>)
    requires Inv(s) && Enabled(s, l) && IsDrain(l) && AllApplyFree(s, want)
    ensures TableInRange(Step(s, l)) && AllApplyFree(Step(s, l), want)
  {
    StepInv(s, l);
    InvInRange(Step(s, l));
    hide Inv, TableOk, Step, Enabled, IsDrain, BotApplyFree;
    forall b: BotId
      ensures BotApplyFree(WorkerOf(Step(s, l), b), WantOf(want, b))
    {
      assert BotApplyFree(WorkerOf(s, b), WantOf(want, b));
      if b != BotOf(s, l) { StepFrame(s, l, b); } else { OwnApplyFree(s, l, WantOf(want, b)); }
    }
  }

  lemma AskedApplyFree(s: System, b: BotId, ask: Ask, want: Option<BotSpec>)
    requires Inv(s) && Enabled(s, Request(b, ask)) && BotApplyFree(WorkerOf(s, b), want)
    requires (ask.AskApply? && want == Some(ask.spec)) || (ask.AskRemove? && want.None?)
    ensures var t := Step(s, Request(b, ask)); TableInRange(t) && BotApplyFree(WorkerOf(t, b), want)
  {
    RequestSelf(s, b, ask);
    hide Inv, Step;
  }

  lemma AskAllApplyFree(s: System, b0: BotId, ask: Ask, want: map<BotId, BotSpec>)
    requires Inv(s) && Enabled(s, Request(b0, ask)) && AllApplyFree(s, want)
    requires (ask.AskApply? && b0 in want && want[b0] == ask.spec) || (ask.AskRemove? && b0 !in want)
    ensures TableInRange(Step(s, Request(b0, ask))) && AllApplyFree(Step(s, Request(b0, ask)), want)
  {
    var l := Request(b0, ask);
    StepInv(s, l);
    InvInRange(Step(s, l));
    hide Inv, TableOk, Step, BotApplyFree, ValidSpec, ValidBotId;
    forall b: BotId
      ensures BotApplyFree(WorkerOf(Step(s, l), b), WantOf(want, b))
    {
      assert BotApplyFree(WorkerOf(s, b), WantOf(want, b));
      if b != b0 { StepFrame(s, l, b); } else { AskedApplyFree(s, b, ask, WantOf(want, b)); }
    }
  }

  lemma {:induction false} WantedWhenDistinct(bots: seq<BotSpec>, k: nat)
    requires k < |bots| && ValidSpec(bots[k]) && DistinctIds(bots)
    ensures bots[k].botId in Wanted(bots) && Wanted(bots)[bots[k].botId] == bots[k]
  {
    hide ValidSpec;
    var n := |bots| - 1;
    if k < n {
      assert bots[..n][k] == bots[k];
      WantedWhenDistinct(bots[..n], k);
      assert ValidSpec(bots[n]) ==> bots[k].botId != bots[n].botId;
    }
  }

  lemma MoveApplyFree(s: System, ph: Phase, bots: seq<BotSpec>, m: Move)
    requires SyncInv(s, ph, bots) && CanMove(s, ph, bots, m) && DistinctIds(bots)
    requires AllApplyFree(s, Wanted(bots))
    ensures TableInRange(MoveTo(s, ph, bots, m).0) && AllApplyFree(MoveTo(s, ph, bots, m).0, Wanted(bots))
  {
    InvInRange(s);
    WantedAreKept(bots);
    hide Inv, TableOk, AllOnCourse, AllSeen, AllGoing, AllApplyFree, Wanted, Keep, Step;
    match m
    case Agent(l) => DrainAllApplyFree(s, l, Wanted(bots));
    case SendNext =>
      var spec := bots[ph.next];
      if ValidSpec(spec) {
        assert Enabled(s, Request(spec.botId, AskApply(spec)));
        WantedWhenDistinct(bots, ph.next);
        hide ValidSpec, Enabled, DistinctIds;
        AskAllApplyFree(s, spec.botId, AskApply(spec), Wanted(bots));
      }
    case RemoveNext(b) => if ValidBotId(b) { AskAllApplyFree(s, b, AskRemove, Wanted(bots)); }
    case _ =>
  }

  lemma {:induction false} SyncRunApplyFree(s: System, ph: Phase, bots: seq<BotSpec>, ms: seq<Move>, t: System, ph': Phase)
    requires SyncInv(s, ph, bots) && SyncRun(s, ph, bots, ms, t, ph') && DistinctIds(bots)
    requires AllApplyFree(s, Wanted(bots))
    ensures TableInRange(t) && AllApplyFree(t, Wanted(bots))
    decreases |ms|
  {
    if ms != [] {
      MoveInv(s, ph, bots, ms[0]);
      MoveApplyFree(s, ph, bots, ms[0]);
      hide SyncInv, MoveTo, CanMove, AllApplyFree, DistinctIds, Wanted;
      SyncRunApplyFree(MoveTo(s, ph, bots, ms[0]).0, MoveTo(s, ph, bots, ms[0]).1, bots, ms[1..], t, ph');
    }
  }

  lemma QuiescentIsApplyFree(s: System, want: map<BotId, BotSpec>, b: BotId)
    requires Inv(s) && Quiescent(s) && TableInRange(s)
    requires b in want ==> WorkerOf(s, b).Some? && WorkerOf(s, b).value.w.own.applied == Some(want[b])
    ensures BotApplyFree(WorkerOf(s, b), WantOf(want, b))
  {
    if b in s.table {
      QuiescentApplied(s, b);
      assert Quiet(s.procs[s.table[b]]);
    }
    hide Inv;
  }

  lemma ConvergedIsApplyFree(s: System, bots: seq<BotSpec>, ms: seq<Move>, t: System)
    requires Inv(s) && SyncRun(s, Sending(0), bots, ms, t, Removals({})) && Quiescent(t)
    ensures Inv(t) && AllApplyFree(t, Wanted(bots))
  {
    SyncConverges(s, bots, ms, t);
    assert bots[..0] == [];
    SyncRunInv(s, Sending(0), bots, ms, t, Removals({}));
    hide Inv, SyncRun, Quiescent, BotApplyFree, Wanted, Keep, AllOnCourse, AllGoing;
    forall b: BotId
      ensures BotApplyFree(WorkerOf(t, b), WantOf(Wanted(bots), b))
    {
      QuiescentIsApplyFree(t, Wanted(bots), b);
    }
  }

  /** Repeating a sync, once it has converged, makes no Apply call: at no point of it is any worker inside one. */
  lemma RepeatedSyncAppliesNothing(s: System, bots: seq<BotSpec>, ms: seq<Move>, t: System, again: seq<Move>, u: System, ph: Phase)
    requires Inv(s) && SyncRun(s, Sending(0), bots, ms, t, Removals({})) && Quiescent(t)
    requires DistinctIds(bots)
    requires SyncRun(t, Sending(0), bots, again, u, ph)
    ensures forall i: nat | At(u, i) :: !u.procs[i].pc.Applying?
  {
    ConvergedIsApplyFree(s, bots, ms, t);
    assert bots[..0] == [];
    SyncRunApplyFree(t, Sending(0), bots, again, u, ph);
    SyncRunInv(t, Sending(0), bots, again, u, ph);
    hide ScopeOk;
    forall i: nat | At(u, i)
      ensures !u.procs[i].pc.Applying?
    {
      assert ProcOk(u, i);
      var b := u.procs[i].bot;
      assert BotApplyFree(WorkerOf(u, b), WantOf(Wanted(bots), b));
    }
  }

  // ---------- Run state ----------

  /** What is tracked of one bot: whether the spec it is wanted on will be skipped on a container in another run state. */
  predicate Tracked(p: Option<Goroutine>, rt: Option<RtBot>, want: BotSpec, stale: bool) {
    if p.None? then !stale
    else
      && NothingWaits(p.value)
      && (stale ==> ApplyFree(p.value, Some(want)))
      && (Stale(p.value, rt, want) <==> stale)
  }

  lemma PerformTracked(v: Scope, a: Act, want: BotSpec, stale: bool)
    requires CanAct(v.p, a) && IsDrain(Work(0, a)) && Tracked(Some(v.p), v.rt, want, stale)
    requires a.EndApply? ==> AsAsked(RtBot(Some(v.p.pc.spec), ContainerOf(a.inst)))
    ensures Tracked(Some(Perform(v, a).p), Perform(v, a).rt, want, stale)
  {
    hide Perform, AsAsked, NothingWaits, ApplyFree, Stale;
    PerformNothingWaits(v, a);
    if stale {
      PerformStale(v, a, want);
      PerformApplyFree(v, a, Some(want));
    } else {
      PerformNotStale(v, a, want);
    }
  }

  lemma PokedTracked(p: Goroutine, rt: Option<RtBot>, want: BotSpec, stale: bool)
    requires Tracked(Some(p), rt, want, stale)
    ensures Tracked(Some(p.(w := Poked(p.w))), rt, want, stale)
  {
  }

  lemma RetiringTracked(p: Goroutine, rt: Option<RtBot>, want: BotSpec, stale: bool)
    requires p.pc.Retiring? && Tracked(Some(p), rt, want, stale)
    ensures Tracked(if HasWork(p.w) then Some(p.(pc := LoopHead)) else None, rt, want, stale)
  {
  }

  lemma OwnTracked(s: System, l: Label, want: BotSpec, stale: bool)
    requires Inv(s) && Enabled(s, l) && IsDrain(l) && GoesAsAsked(s, l)
    requires Tracked(WorkerOf(s, BotOf(s, l)), RtOf(s, BotOf(s, l)), want, stale)
    ensures TableInRange(Step(s, l)) && Tracked(WorkerOf(Step(s, l), BotOf(s, l)), RtOf(Step(s, l), BotOf(s, l)), want, stale)
  {
    InvInRange(s);
    hide Inv, TableOk, ScopeOk, Perform, Step, Tracked, AsAsked;
    match l
    case FinishPoke =>
      PokeSelf(s);
      PokedTracked(s.procs[s.poking.value], RtOf(s, s.procs[s.poking.value].bot), want, stale);
    case Retire(i) =>
      RetireSelf(s, i);
      RetiringTracked(s.procs[i], RtOf(s, s.procs[i].bot), want, stale);
    case Work(i, a) => WorkTracked(s, i, a, want, stale);
    case _ =>
  }

  lemma WorkTracked(s: System, i: nat, a: Act, want: BotSpec, stale: bool)
    requires Inv(s) && TableInRange(s) && Enabled(s, Work(i, a)) && IsDrain(Work(i, a)) && GoesAsAsked(s, Work(i, a))
    requires Tracked(WorkerOf(s, s.procs[i].bot), RtOf(s, s.procs[i].bot), want, stale)
    ensures var t := Step(s, Work(i, a)); TableInRange(t) && Tracked(WorkerOf(t, s.procs[i].bot), RtOf(t, s.procs[i].bot), want, stale)
  {
    hide Inv, ScopeOk, Perform, Step, Tracked, AsAsked;
    WorkSelf(s, i, a);
    PerformTracked(ScopeOf(s, i), a, want, stale);
  }

  lemma DrainTracked(s: System, l: Label, b: BotId, want: BotSpec, stale: bool)
    requires Inv(s) && Enabled(s, l) && IsDrain(l) && GoesAsAsked(s, l) && Tracked(WorkerOf(s, b), RtOf(s, b), want, stale)
    ensures TableInRange(Step(s, l)) && Tracked(WorkerOf(Step(s, l), b), RtOf(Step(s, l), b), want, stale)
  {
    hide Inv, Tracked, Step, Enabled, GoesAsAsked;
    if b != BotOf(s, l) { StepFrame(s, l, b); } else { OwnTracked(s, l, want, stale); }
  }

  lemma AskedTracked(s: System, b: BotId, spec: BotSpec, want: BotSpec, stale: bool)
    requires Inv(s) && Enabled(s, Request(b, AskApply(spec))) && (stale ==> spec == want)
    requires Tracked(WorkerOf(s, b), RtOf(s, b), want, stale)
    ensures var t := Step(s, Request(b, AskApply(spec))); TableInRange(t) && Tracked(WorkerOf(t, b), RtOf(t, b), want, stale)
  {
    RequestSelf(s, b, AskApply(spec));
    hide Inv, Step, AsAsked;
  }

  /** A run of drain steps in which every Apply ends as asked. */
  ghost predicate DrainRun(s: System, ls: seq<Label>, t: System)
    decreases |ls|
  {
    if ls == [] then t == s
    else TableInRange(s) && Enabled(s, ls[0]) && IsDrain(ls[0]) && GoesAsAsked(s, ls[0]) && DrainRun(Step(s, ls[0]), ls[1..], t)
  }

  lemma {:induction false} DrainRunTracked(s: System, ls: seq<Label>, t: System, b: BotId, want: BotSpec, stale: bool)
    requires Inv(s) && TableInRange(s) && DrainRun(s, ls, t)
    requires Tracked(WorkerOf(s, b), RtOf(s, b), want, stale) && OnCourse(WorkerOf(s, b), want)
    ensures Inv(t) && TableInRange(t) && Tracked(WorkerOf(t, b), RtOf(t, b), want, stale) && OnCourse(WorkerOf(t, b), want)
    decreases |ls|
  {
    if ls != [] {
      StepInv(s, ls[0]);
      hide Inv, Tracked, OnCourse, Step, Enabled, IsDrain, GoesAsAsked;
      DrainTracked(s, ls[0], b, want, stale);
      DrainOnCourse(s, ls[0], b, want);
      DrainRunTracked(Step(s, ls[0]), ls[1..], t, b, want, stale);
    }
  }

  /** A drained bot on course for a spec is on it, and in the run state it asks for unless the spec was skipped. */
  lemma QuiescentTracked(t: System, b: BotId, want: BotSpec, stale: bool)
    requires Inv(t) && TableInRange(t) && Quiescent(t)
    requires Tracked(WorkerOf(t, b), RtOf(t, b), want, stale) && OnCourse(WorkerOf(t, b), want)
    ensures b in t.rt && t.rt[b].spec == Some(want) && (AsAsked(t.rt[b]) <==> !stale)
  {
    QuiescentApplied(t, b);
    hide Inv, Quiescent, AsAsked;
  }

  /** A worker with nothing to do takes a spec that it skips on a container in another run state. */
  lemma IdleTracked(s: System, b: BotId, want: BotSpec)
    requires Inv(s) && TableInRange(s) && b in s.table
    requires NothingWaits(WorkerOf(s, b).value) && Owed(WorkerOf(s, b).value).None?
    ensures Tracked(WorkerOf(s, b), RtOf(s, b), want, Stale(WorkerOf(s, b).value, RtOf(s, b), want))
  {
    var i := s.table[b];
    assert ProcOk(s, i);
    IdleScope(ScopeOf(s, i), Due(s, i));
    hide AsAsked;
  }

  /**
   * After a manual restart, which runs the container whatever the spec says, an apply ends in the run state its
   * spec asks for exactly unless the spec is the one applied already and asks for a stopped bot.
   */
  lemma ApplyAfterRestart(s: System, i: nat, inst: Instance, now: int, left: ContainerState, spec: BotSpec, ls: seq<Label>, t: System)
    requires Inv(s) && TableInRange(s) && Enabled(s, Work(i, EndRestart(inst, None, now, left))) && ContainerOf(inst) == Up
    requires s.procs[i].w.slots == NO_SLOTS
    requires var u := Step(s, Work(i, EndRestart(inst, None, now, left)));
             var b := s.procs[i].bot;
             && TableInRange(u) && Enabled(u, Request(b, AskApply(spec)))
             && DrainRun(Step(u, Request(b, AskApply(spec))), ls, t) && Quiescent(t)
    ensures var b := s.procs[i].bot;
            && b in t.rt && t.rt[b].spec == Some(spec)
            && (AsAsked(t.rt[b]) <==> !(s.procs[i].w.own.applied == Some(spec) && spec.desired == STOPPED))
  {
    var l := Work(i, EndRestart(inst, None, now, left));
    var b := s.procs[i].bot;
    var u := Step(s, l);
    var stale := s.procs[i].w.own.applied == Some(spec) && spec.desired == STOPPED;
    StepInv(s, l);
    RestartTracked(s, i, inst, now, left, spec);
    hide Inv, Step, Enabled, Quiescent, Tracked, TableInRange, ValidSpec, AsAsked;
    AskedTracked(u, b, spec, spec, stale);
    AskedOnCourse(u, b, spec);
    DrainRunTracked(Step(u, Request(b, AskApply(spec))), ls, t, b, spec, stale);
    QuiescentTracked(t, b, spec, stale);
  }

  lemma RestartTracked(s: System, i: nat, inst: Instance, now: int, left: ContainerState, spec: BotSpec)
    requires Inv(s) && TableInRange(s) && Enabled(s, Work(i, EndRestart(inst, None, now, left))) && ContainerOf(inst) == Up
    requires s.procs[i].w.slots == NO_SLOTS
    ensures var u := Step(s, Work(i, EndRestart(inst, None, now, left)));
            var b := s.procs[i].bot;
            && TableInRange(u)
            && Tracked(WorkerOf(u, b), RtOf(u, b), spec, s.procs[i].w.own.applied == Some(spec) && spec.desired == STOPPED)
  {
    hide Inv, Step, ScopeOk, Perform, Tracked;
    WorkSelf(s, i, EndRestart(inst, None, now, left));
    RestartedTracked(ScopeOf(s, i), inst, now, left, spec, Due(s, i));
  }

  lemma RestartedTracked(v: Scope, inst: Instance, now: int, left: ContainerState, spec: BotSpec, due: bool)
    requires ScopeOk(v, due) && v.p.pc.Restarting? && v.p.w.slots == NO_SLOTS && ContainerOf(inst) == Up
    ensures var u := Perform(v, EndRestart(inst, None, now, left));
            Tracked(Some(u.p), u.rt, spec, v.p.w.own.applied == Some(spec) && spec.desired == STOPPED)
  {
    hide Observed, Selects, Newest, StateFromInstance;
  }

  // ---------- Run state after a sync ----------

  /** Along a sync's run every Apply that succeeds reports the container it was asked for. */
  ghost predicate SyncAsAsked(s: System, ph: Phase, bots: seq<BotSpec>, ms: seq<Move>)
    decreases |ms|
  {
    ms != [] ==>
      && TableInRange(s) && CanMove(s, ph, bots, ms[0])
      && (ms[0].Agent? ==> GoesAsAsked(s, ms[0].l))
      && SyncAsAsked(MoveTo(s, ph, bots, ms[0]).0, MoveTo(s, ph, bots, ms[0]).1, bots, ms[1..])
  }

  lemma MoveTracked(s: System, ph: Phase, bots: seq<BotSpec>, m: Move, b: BotId, want: BotSpec, stale: bool)
    requires SyncInv(s, ph, bots) && CanMove(s, ph, bots, m) && (m.Agent? ==> GoesAsAsked(s, m.l))
    requires b in Wanted(bots) && Wanted(bots)[b] == want && (stale ==> DistinctIds(bots))
    requires Tracked(WorkerOf(s, b), RtOf(s, b), want, stale)
    ensures var t := MoveTo(s, ph, bots, m).0; TableInRange(t) && Tracked(WorkerOf(t, b), RtOf(t, b), want, stale)
  {
    InvInRange(s);
    WantedAreKept(bots);
    hide Inv, TableOk, AllOnCourse, AllSeen, AllGoing, Tracked, Wanted, Keep, Step, GoesAsAsked;
    match m
    case Agent(l) => DrainTracked(s, l, b, want, stale);
    case SendNext =>
      var spec := bots[ph.next];
      if ValidSpec(spec) {
        ApplyEnabled(s, spec);
        if stale { WantedWhenDistinct(bots, ph.next); }
        hide ValidSpec, Enabled, DistinctIds;
        if spec.botId == b { AskedTracked(s, b, spec, want, stale); } else { StepFrame(s, Request(spec.botId, AskApply(spec)), b); }
      }
    case RemoveNext(b0) => if ValidBotId(b0) { StepFrame(s, Request(b0, AskRemove), b); }
    case _ =>
  }

  lemma {:induction false} SyncRunTracked(s: System, ph: Phase, bots: seq<BotSpec>, ms: seq<Move>, t: System, ph': Phase, b: BotId, want: BotSpec, stale: bool)
    requires SyncInv(s, ph, bots) && SyncRun(s, ph, bots, ms, t, ph') && SyncAsAsked(s, ph, bots, ms) && TableInRange(s)
    requires b in Wanted(bots) && Wanted(bots)[b] == want && (stale ==> DistinctIds(bots))
    requires Tracked(WorkerOf(s, b), RtOf(s, b), want, stale)
    ensures TableInRange(t) && Tracked(WorkerOf(t, b), RtOf(t, b), want, stale)
    decreases |ms|
  {
    if ms != [] {
      MoveInv(s, ph, bots, ms[0]);
      MoveTracked(s, ph, bots, ms[0], b, want, stale);
      hide SyncInv, MoveTo, CanMove, Tracked, DistinctIds, Wanted, GoesAsAsked;
      SyncRunTracked(MoveTo(s, ph, bots, ms[0]).0, MoveTo(s, ph, bots, ms[0]).1, bots, ms[1..], t, ph', b, want, stale);
    }
  }

  /**
   * The run state a synced bot ends in, if no restart and no exit of it was waiting when the sync arrived and
   * no container exits on its own: the one its spec asks for, unless its worker took that very spec to be
   * applied while the container was in another run state. If its worker owed nothing then, exactly unless.
   */
  lemma SyncSettlesRunState(s: System, bots: seq<BotSpec>, ms: seq<Move>, t: System, b: BotId)
    requires Inv(s) && TableInRange(s) && SyncRun(s, Sending(0), bots, ms, t, Removals({})) && SyncAsAsked(s, Sending(0), bots, ms)
    requires Quiescent(t) && b in Wanted(bots)
    requires b in s.table ==> NothingWaits(WorkerOf(s, b).value)
    ensures b in t.rt && t.rt[b].spec == Some(Wanted(bots)[b])
    ensures b !in s.table || !Stale(WorkerOf(s, b).value, RtOf(s, b), Wanted(bots)[b]) ==> AsAsked(t.rt[b])
    ensures DistinctIds(bots) && b in s.table && Owed(WorkerOf(s, b).value).None? ==>
              (AsAsked(t.rt[b]) <==> !Stale(WorkerOf(s, b).value, RtOf(s, b), Wanted(bots)[b]))
  {
    var want := Wanted(bots)[b];
    var stale := b in s.table && Stale(WorkerOf(s, b).value, RtOf(s, b), want);
    SyncConverges(s, bots, ms, t);
    if !stale || (DistinctIds(bots) && Owed(WorkerOf(s, b).value).None?) {
      if stale { IdleTracked(s, b, want); }
      SyncTracked(s, bots, ms, t, b, want, stale);
    }
    hide Inv, SyncRun, SyncAsAsked, Quiescent, Wanted, DistinctIds;
  }

  lemma SyncTracked(s: System, bots: seq<BotSpec>, ms: seq<Move>, t: System, b: BotId, want: BotSpec, stale: bool)
    requires Inv(s) && TableInRange(s) && SyncRun(s, Sending(0), bots, ms, t, Removals({})) && SyncAsAsked(s, Sending(0), bots, ms)
    requires Quiescent(t) && b in Wanted(bots) && Wanted(bots)[b] == want && (stale ==> DistinctIds(bots))
    requires Tracked(WorkerOf(s, b), RtOf(s, b), want, stale)
    ensures b in t.rt && (AsAsked(t.rt[b]) <==> !stale)
  {
    SyncConverges(s, bots, ms, t);
    assert bots[..0] == [];
    SyncRunTracked(s, Sending(0), bots, ms, t, Removals({}), b, want, stale);
    hide Inv, SyncRun, SyncAsAsked, Quiescent, Wanted, DistinctIds;
  }
}
