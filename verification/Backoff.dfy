/** Restarts after a crash: how long the worker waits, over every run and over a series of crashes. */
module Backoff {

  import opened Options
  import opened Proto
  import opened BotWorker
  import opened Reconciler

  predicate InRange(wait: int) { BACKOFF_MIN <= wait <= BACKOFF_MAX }

  /** The backoff is unset or in range, and in range whenever a retry timer is armed. */
  predicate BackoffOk(p: Goroutine) {
    && (p.w.own.backoff == 0 || InRange(p.w.own.backoff))
    && (p.w.own.retry.deadline.Some? ==> InRange(p.w.own.backoff) && !p.pc.Restarting?)
  }

  lemma PerformBackoff(v: Scope, a: Act)
    requires CanAct(v.p, a) && BackoffOk(v.p)
    ensures BackoffOk(Perform(v, a).p)
  {
    match a
    case EndApply(fetched, inst, err, now, after) =>
    case _ =>
  }

  lemma WorkBackoff(s: System, j: nat, a: Act, i: nat)
    requires TableInRange(s) && Enabled(s, Work(j, a)) && At(s, i)
    requires BackoffOk(s.procs[i]) && BackoffOk(s.procs[j])
    ensures BackoffOk(Step(s, Work(j, a)).procs[i])
  {
    PerformBackoff(ScopeOf(s, j), a);
    hide Perform, BackoffOk;
  }

  lemma RequestBackoff(s: System, b: BotId, ask: Ask, i: nat)
    requires TableInRange(s) && Enabled(s, Request(b, ask))
    requires forall j: nat | At(s, j) :: BackoffOk(s.procs[j])
    requires At(Step(s, Request(b, ask)), i)
    ensures BackoffOk(Step(s, Request(b, ask)).procs[i])
  {
    var t := Summon(s, b);
    assert BackoffOk(t.procs[i]);
  }

  lemma StepBackoff(s: System, l: Label, i: nat)
    requires TableInRange(s) && Enabled(s, l)
    requires forall j: nat | At(s, j) :: BackoffOk(s.procs[j])
    requires At(Step(s, l), i)
    ensures BackoffOk(Step(s, l).procs[i])
  {
    match l
    case Work(j, a) => WorkBackoff(s, j, a, i);
    case Request(b, ask) => RequestBackoff(s, b, ask, i);
    case _ => hide Perform;
  }

  /** Over every run, each worker has at most one retry timer armed, and the wait it was armed with lies in [1 s, 5 min]. */
  lemma {:induction false} WaitInRange(s: System, ls: seq<Label>, t: System)
    requires Inv(s) && Run(s, ls, t)
    requires forall i: nat | At(s, i) :: BackoffOk(s.procs[i])
    ensures forall i: nat | At(t, i) && Live(t, i) ::
              && BackoffOk(t.procs[i])
              && t.procs[i].w.own.retry.armed == (if t.procs[i].w.own.retry.deadline.Some? then 1 else 0)
    decreases |ls|
  {
    if ls == [] {
      forall i: nat | At(t, i) ensures ProcOk(t, i) {}
    } else {
      var u := Step(s, ls[0]);
      StepInv(s, ls[0]);
      forall i: nat | At(u, i) ensures BackoffOk(u.procs[i]) { StepBackoff(s, ls[0], i); }
      WaitInRange(u, ls[1..], t);
    }
  }

  /** A timer is only ever set to fire after the backoff in force: a step that changes the deadline sets it to now plus backoff, or clears it. */
  lemma DeadlineIsNowPlusBackoff(v: Scope, a: Act)
    requires CanAct(v.p, a)
    ensures var own := Perform(v, a).p.w.own;
            own.retry.deadline.Some? && own.retry != v.p.w.own.retry ==>
              && (a.NextExit? || a.EndCrashRestart?)
              && own.retry.deadline.value == a.now + own.backoff
  {
    match a
    case EndApply(fetched, inst, err, now, after) =>
    case _ =>
  }

  // ---------- A series of crashes ----------

  /** The container exits at `exitAt`, and the restart that follows finds it running at `upAt`. */
  datatype Crash = Crash(ev: Event, exitAt: int, inst: Instance, upAt: int)

  /** The exit is of the worker's container, and the restart succeeds. */
  predicate ComesBack(w: State, c: Crash) {
    && w.own.spec.Some? && w.own.spec.value.desired == RUNNING
    && (w.own.container == "" || c.ev.containerId == w.own.container)
    && c.inst.running && c.inst.containerId != ""
  }

  /** Sooner than ten minutes after the bot was seen to start. */
  predicate IsQuick(w: State, c: Crash) { c.exitAt - w.own.startedAt < HEALTHY_AFTER }

  function AfterCrash(w: State, c: Crash): State {
    FinishCrashRestart(BeginOp(StopRetry(HandleExit(w, c.ev, c.exitAt)), ""), c.inst, None, c.upAt)
  }

  function AfterCrashes(w: State, cs: seq<Crash>): State {
    if cs == [] then w else AfterCrash(AfterCrashes(w, cs[..|cs| - 1]), cs[|cs| - 1])
  }

  ghost predicate AllComeBack(w: State, cs: seq<Crash>) {
    cs == [] || (AllComeBack(w, cs[..|cs| - 1]) && ComesBack(AfterCrashes(w, cs[..|cs| - 1]), cs[|cs| - 1]))
  }

  /** How many crashes in a row, up to the last, came each quickly after the one before. */
  function Streak(w: State, cs: seq<Crash>): (n: nat)
    ensures cs != [] ==> n > 0
  {
    if cs == [] then 0
    else if IsQuick(AfterCrashes(w, cs[..|cs| - 1]), cs[|cs| - 1]) then Streak(w, cs[..|cs| - 1]) + 1
    else 1
  }

  function Pow2(n: nat): nat { if n == 0 then 1 else 2 * Pow2(n - 1) }

  /** The wait after `n` crashes in a row: none yet, or 2^(n-1) seconds, at most 300. */
  function WaitAfter(n: nat): int { if n == 0 then 0 else Min(Pow2(n - 1), 300) * SECOND }

  lemma MinDoubles(k: nat)
    requires k > 0
    ensures Min(Min(k, 300) * SECOND * 2, BACKOFF_MAX) == Min(2 * k, 300) * SECOND
  {
  }

  lemma {:induction false} Pow2Positive(n: nat)
    ensures Pow2(n) > 0
  {
    if n > 0 { Pow2Positive(n - 1); }
  }

  lemma WaitDoubles(n: nat)
    ensures WaitAfter(1) == BACKOFF_MIN
    ensures n > 0 ==> WaitAfter(n) >= BACKOFF_MIN && WaitAfter(n + 1) == Min(WaitAfter(n) * 2, BACKOFF_MAX)
  {
    if n > 0 {
      Pow2Positive(n - 1);
      MinDoubles(Pow2(n - 1));
    }
    assert Pow2(0) == 1;
  }

  /**
   * Over any series of crashes from a reset, each followed by a restart: the wait is 2^(n-1) seconds, at most
   * 300, after n crashes in a row that came quickly; a run of ten minutes begins a new row.
   */
  lemma {:induction false} BackoffDoubles(w: State, cs: seq<Crash>)
    requires w.own.backoff == 0 && w.own.spec.Some?
    requires AllComeBack(w, cs)
    ensures var r := AfterCrashes(w, cs);
            && r.own.spec == w.own.spec
            && r.own.restarts == w.own.restarts + |cs|
            && r.own.backoff == WaitAfter(Streak(w, cs))
            && (cs != [] ==> InState(r, Running) && r.own.startedAt == cs[|cs| - 1].upAt)
  {
    assert WaitAfter(0) == 0;
    hide AfterCrash, ComesBack, IsQuick, InState, Min, WaitAfter;
    if cs != [] {
      var n := |cs| - 1;
      BackoffDoubles(w, cs[..n]);
      var before, c := AfterCrashes(w, cs[..n]), cs[n];
      CrashStep(before, c);
      WaitDoubles(Streak(w, cs[..n]));
    }
  }

  /** One crash: the worker notes it, waits the next backoff, and its restart is what the timer runs. */
  lemma CrashStep(w: State, c: Crash)
    requires ComesBack(w, c)
    ensures var exited := HandleExit(w, c.ev, c.exitAt);
            && exited.own.retry.deadline == Some(c.exitAt + exited.own.backoff)
            && WantsCrashRestart(StopRetry(exited))
    ensures var r := AfterCrash(w, c);
            && r.own.backoff == (if w.own.backoff == 0 || !IsQuick(w, c) then BACKOFF_MIN else Min(w.own.backoff * 2, BACKOFF_MAX))
            && r.own.spec == w.own.spec && r.own.restarts == w.own.restarts + 1
            && InState(r, Running) && r.own.startedAt == c.upAt
  {
  }

  /**
   * "A failed start is treated like another crash" holds only when the runtime still reports a stopped
   * container: the timer that is then armed restarts the bot exactly in that case. A failure that
   * reports no container is seen as pending, so the timer fires and nothing is retried.
   */
  lemma FailedRestartRetriedIff(w: State, inst: Instance, err: string, now: int)
    requires WantsCrashRestart(w)
    ensures var r := FinishCrashRestart(w, inst, Some(err), now);
            && r.own.retry.deadline == Some(now + r.own.backoff) && InRange(r.own.backoff)
            && (WantsCrashRestart(StopRetry(r)) <==> inst.containerId != "" && !inst.running)
  {
  }

  // ---------- Since when a bot runs ----------

  /** The moment of a step at which something of the runtime is seen. */
  function TimeOf(a: Act, otherwise: int): int {
    match a
    case EndCrashRestart(_, _, now, _) => now
    case EndApply(_, _, _, now, _) => now
    case EndRestart(_, _, now, _) => now
    case _ => otherwise
  }

  /**
   * What is reported of an instance after a call: pending without a container, running if it is up; of one that is
   * down, stopped or crashed as the spec has it, and only of a crash how it ended; and the error of the call.
   */
  lemma WhatIsReported(inst: Instance, desired: string, err: Option<string>)
    requires desired in {"running", "stopped"}
    ensures var st := Observed(inst, desired, err);
            && (st.state == Pending <==> inst.containerId == "")
            && (st.state == Running <==> inst.containerId != "" && inst.running)
            && (st.state == Stopped <==> inst.containerId != "" && !inst.running && desired == "stopped")
            && (st.state == Crashed <==> inst.containerId != "" && !inst.running && desired == "running")
            && st.exitCode == (if st.state == Crashed then Some(inst.exitCode) else None)
            && (st.oomKilled <==> st.state == Crashed && inst.oomKilled)
            && st.deployId == inst.deployId && st.error == err
  {
  }

  /**
   * Before any spec is known: a container that is down has stopped if it ended well, and crashed if not.
   */
  lemma WhatIsPrimed(inst: Instance)
    ensures var w := Primed(inst);
            && w.own.container == inst.containerId && w.own.spec.None? && w.slots == NO_SLOTS
            && (InState(w, Stopped) <==> inst.containerId != "" && !inst.running && inst.exitCode == 0 && !inst.oomKilled)
            && (InState(w, Crashed) <==> inst.containerId != "" && !inst.running && (inst.exitCode != 0 || inst.oomKilled))
            && (InState(w, Running) <==> inst.containerId != "" && inst.running)
            && (InState(w, Pending) <==> inst.containerId == "")
  {
  }

  /** What is reported of an exit: nothing of an old container's; else how it ended, as stopped only if that was asked for. */
  lemma ExitIsReported(w: State, ev: Event, now: int)
    ensures var u := HandleExit(w, ev, now);
            if w.own.container !in {"", ev.containerId} then u == w
            else
              && (InState(u, Stopped) <==> w.own.spec.Some? && w.own.spec.value.desired == "stopped")
              && (InState(u, Crashed) <==> !InState(u, Stopped))
              && u.state.Some? && u.state.value.exitCode == Some(ev.exitCode) && u.state.value.oomKilled == ev.oomKilled
              && u.state.value.deployId == CurrentDeploy(w) && u.state.value.restarts == w.own.restarts && u.state.value.error.None?
  {
  }

  /** The count of restarts that is reported is the worker's own after every call; a crash restart adds one, whatever comes of it. */
  lemma RestartsAreReported(v: Scope, a: Act)
    requires CanAct(v.p, a)
    ensures var u := Perform(v, a);
            && u.p.w.own.restarts == v.p.w.own.restarts + (if a.EndCrashRestart? then 1 else 0)
            && (a.EndApply? || a.EndCrashRestart? || a.EndRestart? ==> u.p.w.state.Some? && u.p.w.state.value.restarts == u.p.w.own.restarts)
  {
    hide StateFromInstance;
    match a
    case EndApply(fetched, inst, err, now, after) =>
    case _ =>
  }

  /** A step of the worker begins a stretch of running if the bot did not run before it and does after it. */
  predicate Begins(before: State, after: State) { !InState(before, Running) && InState(after, Running) }

  /**
   * The time a bot was started is set when it is newly seen to run, and at a manual restart; never while it
   * just goes on running.
   */
  lemma StartedWhenBegins(v: Scope, a: Act)
    requires CanAct(v.p, a)
    ensures var u := Perform(v, a);
            u.p.w.own.startedAt ==
            if a.EndRestart? || Begins(v.p.w, u.p.w) then TimeOf(a, 0) else v.p.w.own.startedAt
  {
    match a
    case EndApply(fetched, inst, err, now, after) =>
    case _ =>
  }

  // ---------- Over every run ----------

  /** The next exit is of the worker's container, and of a bot that is not to be stopped. */
  predicate IsCrash(p: Goroutine) {
    && p.pc.Batch? && p.pc.todo.exits != []
    && (p.w.own.container == "" || p.pc.todo.exits[0].containerId == p.w.own.container)
    && p.w.own.spec.Some? && p.w.own.spec.value.desired != STOPPED
  }

  /** Of a worker's history: how many crashes in a row there were, and when its bot last began to run or was restarted by hand. */
  datatype Row = Row(n: nat, since: int)

  /**
   * How a step of the worker changes that: one crash more if it is less than ten minutes after the bot began to
   * run, or if a restart failed; a later crash begins a new row; a manual restart ends it. Nothing else does.
   */
  function RowAfter(v: Scope, a: Act, row: Row): Row
    requires CanAct(v.p, a)
  {
    var since := if a.EndRestart? || Begins(v.p.w, Perform(v, a).p.w) then TimeOf(a, 0) else row.since;
    match a
    case NextExit(now) =>
      Row(if !IsCrash(v.p) then row.n else if now - row.since < HEALTHY_AFTER then row.n + 1 else 1, since)
    case EndCrashRestart(_, err, _, _) => Row(if err.Some? then row.n + 1 else row.n, since)
    case EndRestart(_, _, _, _) => Row(0, since)
    case _ => Row(row.n, since)
  }

  /** The worker waits as after this row; before it was started, there was none. */
  predicate Keeps(w: State, row: Row) { w.own.backoff == WaitAfter(row.n) && w.own.startedAt == row.since }

  lemma ExitWaits(w: State, ev: Event, now: int, n: nat)
    requires w.own.backoff == WaitAfter(n)
    requires w.own.container == "" || ev.containerId == w.own.container
    requires w.own.spec.Some? && w.own.spec.value.desired != STOPPED
    ensures HandleExit(w, ev, now).own.backoff == WaitAfter(if now - w.own.startedAt < HEALTHY_AFTER then n + 1 else 1)
  {
    WaitDoubles(n);
    assert WaitAfter(0) == 0;
    hide WaitAfter;
  }

  lemma PerformWaits(v: Scope, a: Act, row: Row)
    requires CanAct(v.p, a) && Keeps(v.p.w, row)
    ensures Keeps(Perform(v, a).p.w, RowAfter(v, a, row))
  {
    StartedWhenBegins(v, a);
    PerformBacksOff(v, a, row);
    hide Perform, WaitAfter, Begins;
  }

  lemma PerformBacksOff(v: Scope, a: Act, row: Row)
    requires CanAct(v.p, a) && Keeps(v.p.w, row)
    ensures Perform(v, a).p.w.own.backoff == WaitAfter(RowAfter(v, a, row).n)
  {
    WaitDoubles(row.n);
    hide Begins;
    match a
    case NextExit(now) => if IsCrash(v.p) { ExitWaits(v.p.w, v.p.pc.todo.exits[0], now, row.n); }
    case _ =>
  }

  /** The row of worker `i` after a step of the agent. */
  function RowStep(s: System, l: Label, i: nat, row: Row): Row {
    if l.Work? && l.i == i && At(s, i) && CanAct(s.procs[i], l.act) then RowAfter(ScopeOf(s, i), l.act, row) else row
  }

  /** The row of worker `i` along a run. */
  ghost function RowAlong(s: System, ls: seq<Label>, i: nat, row: Row): Row
    decreases |ls|
  {
    if ls == [] || !TableInRange(s) || !Enabled(s, ls[0]) then row
    else RowAlong(Step(s, ls[0]), ls[1..], i, RowStep(s, ls[0], i, row))
  }

  const NO_ROW := Row(0, 0)

  predicate WaitsAfter(s: System, i: nat, row: Row) {
    if At(s, i) then Keeps(s.procs[i].w, row) else row == NO_ROW
  }

  lemma WorkWaits(s: System, i: nat, a: Act, row: Row)
    requires TableInRange(s) && Enabled(s, Work(i, a)) && WaitsAfter(s, i, row)
    ensures WaitsAfter(Step(s, Work(i, a)), i, RowAfter(ScopeOf(s, i), a, row))
  {
    hide RowAfter, WaitAfter, Keeps;
    PerformWaits(ScopeOf(s, i), a, row);
    hide Perform;
  }

  lemma AskWaits(s: System, b: BotId, ask: Ask, i: nat)
    requires TableInRange(s) && Enabled(s, Request(b, ask))
    ensures var t := Step(s, Request(b, ask));
            (At(s, i) ==> At(t, i) && t.procs[i].w.own == s.procs[i].w.own) && (!At(s, i) && At(t, i) ==> t.procs[i].w.own == FRESH.own)
  {
    var t := Summon(s, b);
    var v := ScopeOf(t, t.table[b]);
    assert Receive(v, ask).p.w.own == v.p.w.own;
    hide Receive;
  }

  lemma StepWaits(s: System, l: Label, i: nat, row: Row)
    requires TableInRange(s) && Enabled(s, l) && WaitsAfter(s, i, row)
    ensures WaitsAfter(Step(s, l), i, RowStep(s, l, i, row))
  {
    assert WaitAfter(0) == 0;
    hide RowAfter, WaitAfter;
    match l
    case Work(j, a) => if j == i { WorkWaits(s, i, a, row); } else { hide Perform; }
    case Request(b, ask) => AskWaits(s, b, ask, i); hide Step;
    case _ => hide Perform;
  }

  /**
   * Over every run, whatever the other goroutines do in between and whatever the runtime calls come to: a
   * worker's wait is 2^(n-1) seconds, at most 300, where n is its row of crashes and failed restarts; and what it
   * takes for the start of its bot is when that last began to run, or was last restarted by hand.
   */
  lemma {:induction false} WaitCountsCrashes(s: System, ls: seq<Label>, t: System, i: nat, row: Row)
    requires Run(s, ls, t) && WaitsAfter(s, i, row)
    ensures WaitsAfter(t, i, RowAlong(s, ls, i, row))
    decreases |ls|
  {
    if ls != [] {
      hide Step, Enabled, WaitsAfter, RowStep, TableInRange;
      StepWaits(s, ls[0], i, row);
      WaitCountsCrashes(Step(s, ls[0]), ls[1..], t, i, RowStep(s, ls[0], i, row));
    }
  }

  // ---------- The same as runs of the agent ----------

  function WorkLabels(i: nat, acts: seq<Act>): seq<Label> {
    if acts == [] then [] else [Work(i, acts[0])] + WorkLabels(i, acts[1..])
  }

  /** The steps of a worker are steps of the agent. */
  lemma {:induction false} WorkRun(s: System, i: nat, acts: seq<Act>, u: Scope) returns (t: System)
    requires Inv(s) && TableInRange(s) && At(s, i) && !s.procs[i].pc.Gone? && ScopeRun(ScopeOf(s, i), acts, u)
    ensures Run(s, WorkLabels(i, acts), t) && Inv(t) && At(t, i) && ScopeOf(t, i) == u
    ensures t.poking == s.poking && t.table == s.table
    decreases |acts|
  {
    if acts == [] { return s; }
    var l := Work(i, acts[0]);
    StepInv(s, l);
    WorkScope(s, i, acts[0]);
    assert ProcOk(s, i);
    PerformOk(ScopeOf(s, i), acts[0], Due(s, i));
    PerformKeeps(ScopeOf(s, i), acts[0]);
    hide Inv, Step, Perform, ScopeOk, CanAct;
    InvTable(Step(s, l));
    t := WorkRun(Step(s, l), i, acts[1..], u);
    assert WorkLabels(i, acts)[1..] == WorkLabels(i, acts[1..]);
  }

  lemma InvTable(s: System)
    requires Inv(s)
    ensures TableInRange(s)
  {
  }

  lemma WorkScope(s: System, i: nat, a: Act)
    requires Inv(s) && TableInRange(s) && Enabled(s, Work(i, a))
    ensures var t := Step(s, Work(i, a));
            && At(t, i) && ScopeOf(t, i) == Perform(ScopeOf(s, i), a)
            && t.poking == s.poking && t.table == s.table
            && t.procs[i].pc == Perform(ScopeOf(s, i), a).p.pc
  {
    PerformKeeps(ScopeOf(s, i), a);
    hide Inv, Perform;
  }

  /** The exit is told to the worker, which wakes, arms the timer and parks; the timer fires and the restart succeeds. */
  function CrashActs(c: Crash): seq<Act> {
    [Wake, TakeBatch, NextExit(c.exitAt), Begin, TakeBatch, Fire, EndCrashRestart(c.inst, None, c.upAt, Up), TakeBatch]
  }

  function CrashLabels(b: BotId, i: nat, c: Crash): seq<Label> {
    [Request(b, TellExit(c.ev)), FinishPoke] + WorkLabels(i, CrashActs(c))
  }

  function Told(v: Scope, ev: Event): Scope {
    var u := Receive(v, TellExit(ev));
    u.(p := u.p.(w := Poked(u.p.w)))
  }

  predicate IdleParked(p: Goroutine) { p.pc.Parked? && p.w.slots == NO_SLOTS && !p.w.kick }

  /** From the exit to the armed timer. */
  lemma ExitScope(v: Scope, c: Crash, rest: seq<Act>, u: Scope)
    requires IdleParked(v.p) && ComesBack(v.p.w, c)
    requires ScopeRun(v.(p := v.p.(w := HandleExit(v.p.w, c.ev, c.exitAt))), rest, u)
    ensures ScopeRun(Told(v, c.ev), [Wake, TakeBatch, NextExit(c.exitAt), Begin, TakeBatch] + rest, u)
  {
    var w := v.p.w;
    var exited := HandleExit(w, c.ev, c.exitAt);
    var told, none := Slots(None, false, false, [c.ev]), Slots(None, false, false, []);
    var v1 := GoTo(v, LoopHead, w.(slots := told));
    var v2 := GoTo(v, Batch(told, |v.log|), w);
    var v3 := GoTo(v, Batch(none, |v.log|), exited);
    var v4 := GoTo(v, LoopHead, exited);
    assert exited.slots == NO_SLOTS && [c.ev][1..] == [] && [] + [c.ev] == [c.ev];
    assert Perform(Told(v, c.ev), Wake) == v1 && Perform(v1, TakeBatch) == v2 && Perform(v2, NextExit(c.exitAt)) == v3;
    assert Perform(v3, Begin) == v4 && Perform(v4, TakeBatch) == GoTo(v, Parked, exited);
    hide HandleExit, ScopeRun, Perform;
    ScopeCons(v4, TakeBatch, rest, u);
    ScopeCons(v3, Begin, [TakeBatch] + rest, u);
    ScopeCons(v2, NextExit(c.exitAt), [Begin] + ([TakeBatch] + rest), u);
    ScopeCons(v1, TakeBatch, [NextExit(c.exitAt)] + ([Begin] + ([TakeBatch] + rest)), u);
    ScopeCons(Told(v, c.ev), Wake, [TakeBatch] + ([NextExit(c.exitAt)] + ([Begin] + ([TakeBatch] + rest))), u);
    assert [Wake] + ([TakeBatch] + ([NextExit(c.exitAt)] + ([Begin] + ([TakeBatch] + rest)))) ==
           [Wake, TakeBatch, NextExit(c.exitAt), Begin, TakeBatch] + rest;
  }

  /** From the armed timer to the restarted bot. */
  lemma FireScope(v: Scope, c: Crash) returns (u: Scope)
    requires IdleParked(v.p) && v.p.w.own.retry.deadline.Some? && WantsCrashRestart(StopRetry(v.p.w))
    ensures ScopeRun(v, [Fire, EndCrashRestart(c.inst, None, c.upAt, Up), TakeBatch], u)
    ensures IdleParked(u.p) && u.p.bot == v.p.bot
    ensures u.p.w == FinishCrashRestart(BeginOp(StopRetry(v.p.w), ""), c.inst, None, c.upAt)
  {
    var w := v.p.w;
    var up := FinishCrashRestart(BeginOp(StopRetry(w), ""), c.inst, None, c.upAt);
    var end := EndCrashRestart(c.inst, None, c.upAt, Up);
    var v1 := GoTo(v, CrashRestarting, BeginOp(StopRetry(w), ""));
    var v2 := Perform(v1, end);
    assert up.slots == NO_SLOTS && Perform(v, Fire) == v1 && v2.p == Goroutine(v.p.bot, LoopHead, up);
    u := GoTo(v2, Parked, up);
    assert Perform(v2, TakeBatch) == u;
    hide ScopeRun, Perform;
    ScopeNone(u);
    ScopeCons(v2, TakeBatch, [], u);
    ScopeCons(v1, end, [TakeBatch] + [], u);
    ScopeCons(v, Fire, [end] + ([TakeBatch] + []), u);
    assert [Fire] + ([end] + ([TakeBatch] + [])) == [Fire, end, TakeBatch];
  }

  lemma CrashScope(v: Scope, c: Crash) returns (u: Scope)
    requires IdleParked(v.p) && ComesBack(v.p.w, c)
    ensures ScopeRun(Told(v, c.ev), CrashActs(c), u)
    ensures IdleParked(u.p) && u.p.bot == v.p.bot && u.p.w == AfterCrash(v.p.w, c)
  {
    CrashStep(v.p.w, c);
    var exited := HandleExit(v.p.w, c.ev, c.exitAt);
    assert exited.slots == NO_SLOTS && !exited.kick;
    hide ScopeRun, HandleExit, FinishCrashRestart;
    u := FireScope(v.(p := v.p.(w := exited)), c);
    ExitScope(v, c, [Fire, EndCrashRestart(c.inst, None, c.upAt, Up), TakeBatch], u);
    assert CrashActs(c) == [Wake, TakeBatch, NextExit(c.exitAt), Begin, TakeBatch] + [Fire, EndCrashRestart(c.inst, None, c.upAt, Up), TakeBatch];
  }

  lemma AskScope(s: System, i: nat, ev: Event)
    requires Inv(s) && TableInRange(s) && At(s, i) && !s.procs[i].pc.Gone? && s.poking.None?
    ensures var l := Request(s.procs[i].bot, TellExit(ev));
            && Enabled(s, l) && var u := Step(s, l);
            At(u, i) && u.poking == Some(i) && ScopeOf(u, i) == Receive(ScopeOf(s, i), TellExit(ev))
  {
    hide ScopeOk, ValidBotId;
    assert ProcOk(s, i);
  }

  lemma PokeScope(s: System, i: nat)
    requires TableInRange(s) && At(s, i) && s.poking == Some(i)
    ensures Enabled(s, FinishPoke) && var t := Step(s, FinishPoke); var v := ScopeOf(s, i);
            At(t, i) && t.poking.None? && ScopeOf(t, i) == v.(p := v.p.(w := Poked(v.p.w)))
  {
  }

  lemma RunTwo(s: System, l: Label, m: Label)
    requires TableInRange(s) && Enabled(s, l) && TableInRange(Step(s, l)) && Enabled(Step(s, l), m)
    ensures Run(s, [l, m], Step(Step(s, l), m))
  {
    hide Step, Enabled, TableInRange;
    var u := Step(s, l);
    assert [l, m][1..] == [m] && [m][1..] == [];
    assert Run(Step(u, m), [], Step(u, m));
    assert Run(u, [m], Step(u, m));
  }

  lemma ToldScope(s: System, i: nat, ev: Event) returns (t: System)
    requires Inv(s) && TableInRange(s) && At(s, i) && !s.procs[i].pc.Gone? && s.poking.None?
    ensures Run(s, [Request(s.procs[i].bot, TellExit(ev)), FinishPoke], t) && Inv(t) && TableInRange(t)
    ensures At(t, i) && ScopeOf(t, i) == Told(ScopeOf(s, i), ev) && t.poking.None?
  {
    hide Inv, Step, Enabled, TableInRange, Run;
    var l := Request(s.procs[i].bot, TellExit(ev));
    AskScope(s, i, ev);
    StepInv(s, l);
    InvTable(Step(s, l));
    PokeScope(Step(s, l), i);
    StepInv(Step(s, l), FinishPoke);
    t := Step(Step(s, l), FinishPoke);
    InvTable(t);
    RunTwo(s, l, FinishPoke);
  }

  lemma RunCons(s: System, l: Label, ls: seq<Label>, t: System)
    requires TableInRange(s) && Enabled(s, l) && Run(Step(s, l), ls, t)
    ensures Run(s, [l] + ls, t)
  {
    hide Step, Enabled, TableInRange;
    assert ([l] + ls)[1..] == ls;
  }

  lemma {:induction false} RunConcat(s: System, a: seq<Label>, u: System, b: seq<Label>, t: System)
    requires Run(s, a, u) && Run(u, b, t)
    ensures Run(s, a + b, t)
    decreases |a|
  {
    hide Step, Enabled, TableInRange;
    if a == [] {
      assert a + b == b;
    } else {
      var u1 := Step(s, a[0]);
      assert Run(u1, a[1..], u) && TableInRange(s) && Enabled(s, a[0]);
      hide Run;
      RunConcat(u1, a[1..], u, b, t);
      RunCons(s, a[0], a[1..] + b, t);
      assert [a[0]] + (a[1..] + b) == a + b;
    }
  }

  /** A crash is a run of the agent, with any other bots and workers about. */
  lemma CrashRun(s: System, i: nat, c: Crash) returns (t: System)
    requires Inv(s) && TableInRange(s) && At(s, i) && s.poking.None?
    requires IdleParked(s.procs[i]) && ComesBack(s.procs[i].w, c)
    ensures Run(s, CrashLabels(s.procs[i].bot, i, c), t) && Inv(t) && TableInRange(t) && t.poking.None?
    ensures At(t, i) && IdleParked(t.procs[i]) && t.procs[i].bot == s.procs[i].bot && t.procs[i].w == AfterCrash(s.procs[i].w, c)
  {
    hide Inv, Run, ScopeRun, AfterCrash, ComesBack, CrashActs;
    var u := CrashScope(ScopeOf(s, i), c);
    var told := ToldScope(s, i, c.ev);
    assert told.procs[i].pc.Parked?;
    t := WorkRun(told, i, CrashActs(c), u);
    InvTable(t);
    RunConcat(s, [Request(s.procs[i].bot, TellExit(c.ev)), FinishPoke], told, WorkLabels(i, CrashActs(c)), t);
    assert t.procs[i] == ScopeOf(t, i).p;
  }

  function SeriesLabels(b: BotId, i: nat, cs: seq<Crash>): seq<Label> {
    if cs == [] then [] else SeriesLabels(b, i, cs[..|cs| - 1]) + CrashLabels(b, i, cs[|cs| - 1])
  }

  /**
   * Every such series is a run of the agent, from any state with the worker idle and whatever other bots
   * there are: so the wait its worker last armed the timer with is that, and the bot runs again.
   */
  lemma {:induction false} BackoffDoublesInRuns(s: System, i: nat, cs: seq<Crash>) returns (t: System)
    requires Inv(s) && TableInRange(s) && At(s, i) && s.poking.None? && IdleParked(s.procs[i])
    requires s.procs[i].w.own.backoff == 0 && s.procs[i].w.own.spec.Some? && AllComeBack(s.procs[i].w, cs)
    ensures Run(s, SeriesLabels(s.procs[i].bot, i, cs), t) && Inv(t) && TableInRange(t) && t.poking.None?
    ensures At(t, i) && IdleParked(t.procs[i]) && t.procs[i].bot == s.procs[i].bot
    ensures t.procs[i].w == AfterCrashes(s.procs[i].w, cs)
    ensures t.procs[i].w.own.backoff == WaitAfter(Streak(s.procs[i].w, cs)) && (cs != [] ==> InState(t.procs[i].w, Running))
  {
    BackoffDoubles(s.procs[i].w, cs);
    hide Inv, AfterCrash, ComesBack, CrashLabels, WaitAfter;
    if cs == [] { return s; }
    var n := |cs| - 1;
    var u := BackoffDoublesInRuns(s, i, cs[..n]);
    t := CrashRun(u, i, cs[n]);
    hide Run;
    RunConcat(s, SeriesLabels(s.procs[i].bot, i, cs[..n]), u, CrashLabels(s.procs[i].bot, i, cs[n]), t);
  }
}
