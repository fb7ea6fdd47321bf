/**
 * One bot's worker: the request slots other goroutines write, and the fields its own goroutine owns.
 *
 * The functions give the effect of each stretch of code that runs without another goroutine being
 * able to act on the same fields; the class carries the same fields and its methods are proved to
 * have exactly those effects. Wall-clock time, and the outcome of each runtime call, are parameters.
 */
module BotWorker {

  import opened Options
  import opened Proto

  const SECOND := 1_000_000_000
  const BACKOFF_MIN := SECOND
  const BACKOFF_MAX := 300 * SECOND
  const HEALTHY_AFTER := 600 * SECOND

  datatype RunState = Pending | Installing | Running | Stopped | Crashed

  datatype BotState = BotState(
    state: RunState,
    deployId: string,
    exitCode: Option<int>,
    oomKilled: bool,
    restarts: int,
    error: Option<string>)

  /** Intent recorded by other goroutines and not yet picked up. */
  datatype Slots = Slots(apply: Option<BotSpec>, remove: bool, restart: bool, exits: seq<Event>)

  const NO_SLOTS := Slots(None, false, false, [])

  /** The runtime call in flight, and whether its context was cancelled. */
  datatype Op = Op(active: bool, deploy: string, cancelled: bool)

  const NO_OP := Op(false, "", false)

  /** The retry timer: the one the worker remembers, and how many are armed in all. */
  datatype Retry = Retry(deadline: Option<int>, armed: int)

  /**
   * What the worker's goroutine owns: `spec` is the newest spec picked up, `applied` the last one that
   * applied without error; `backoff`, `startedAt` and `retry` drive restarts after a crash.
   */
  datatype Own = Own(
    spec: Option<BotSpec>,
    applied: Option<BotSpec>,
    container: string,
    backoff: int,
    startedAt: int,
    retry: Retry,
    restarts: int)

  datatype State = State(
    slots: Slots,
    op: Op,
    state: Option<BotState>,
    uid: int,
    kick: bool,
    own: Own)

  const FRESH := State(NO_SLOTS, NO_OP, None, 0, false, Own(None, None, "", 0, 0, Retry(None, 0), 0))

  function Min(a: int, b: int): int { if a < b then a else b }

  function Max(a: int, b: int): int { if a > b then a else b }

  // ---------- Requests: record intent, then poke ----------

  function PutApply(w: State, spec: BotSpec): State {
    w.(slots := w.slots.(apply := Some(spec), remove := false), uid := spec.uid,
       op := if w.op.active && w.op.deploy != "" && spec.deployId != w.op.deploy then w.op.(cancelled := true) else w.op)
  }

  function PutRemove(w: State): State {
    w.(slots := w.slots.(apply := None, restart := false, remove := true), uid := 0,
       op := if w.op.active then w.op.(cancelled := true) else w.op)
  }

  function PutRestart(w: State): State { w.(slots := w.slots.(restart := true)) }

  function PutExit(w: State, ev: Event): State { w.(slots := w.slots.(exits := w.slots.exits + [ev])) }

  function Poked(w: State): State { w.(kick := true) }

  predicate HasWork(w: State) {
    w.slots.apply.Some? || w.slots.remove || w.slots.restart || w.slots.exits != []
  }

  // ---------- The worker goroutine ----------

  function BeginOp(w: State, deployId: string): State { w.(op := Op(true, deployId, false)) }

  function EndOp(w: State): State { w.(op := NO_OP) }

  function Disarmed(r: Retry): Retry {
    if r.deadline.Some? then Retry(None, r.armed - 1) else r
  }

  function Armed(r: Retry, at: int): Retry { Retry(Some(at), r.armed + 1) }

  function StopRetry(w: State): State { w.(own := w.own.(retry := Disarmed(w.own.retry))) }

  function SetState(w: State, st: BotState): State {
    w.(state := Some(st.(restarts := w.own.restarts)))
  }

  predicate InState(w: State, s: RunState) {
    w.state.Some? && w.state.value.state == s
  }

  function CurrentDeploy(w: State): string {
    if w.state.Some? then w.state.value.deployId else ""
  }

  /** The observed state when no worker has an opinion yet. */
  function StateFromInstance(inst: Instance, desired: string): BotState {
    var st := BotState(Pending, inst.deployId, None, false, 0, None);
    if inst.containerId == "" then st
    else if inst.running then st.(state := Running)
    else if desired == STOPPED || (desired == "" && inst.exitCode == 0 && !inst.oomKilled) then st.(state := Stopped)
    else st.(state := Crashed, exitCode := Some(inst.exitCode), oomKilled := inst.oomKilled)
  }

  /** The state reported for an instance after a runtime call. */
  function Observed(inst: Instance, desired: string, err: Option<string>): BotState {
    var st0 := StateFromInstance(inst, desired);
    // It went down between the call and the look at it; its exit is told separately.
    var st1 := if inst.containerId != "" && !inst.running && desired == RUNNING && err.None?
               then st0.(state := Crashed) else st0;
    var st2 := if st1.state == Running || st1.state == Stopped || st1.state == Pending
               then st1.(exitCode := None, oomKilled := false) else st1;
    if err.Some? then st2.(error := err) else st2
  }

  function Observe(w: State, inst: Instance, desired: string, err: Option<string>, now: int): State {
    var st := Observed(inst, desired, err);
    var started := if st.state == Running && !InState(w, Running) then now else w.own.startedAt;
    SetState(w.(own := w.own.(container := inst.containerId, startedAt := started)), st)
  }

  /** The runtime hook that fires when a deploy begins fetching, inside Apply. */
  function DeployStarted(w: State): State {
    if InState(w, Running) then w
    else SetState(w, BotState(Installing, CurrentDeploy(w), None, false, 0, None))
  }

  predicate SkipsApply(w: State, spec: BotSpec) {
    w.own.applied == Some(spec)
  }

  function BeginApply(w: State, spec: BotSpec): State {
    var w1 := w.(own := w.own.(spec := Some(spec)));
    if SkipsApply(w, spec) then w1 else BeginOp(StopRetry(w1), spec.deployId)
  }

  function FinishApply(w: State, spec: BotSpec, inst: Instance, err: Option<string>, now: int): State {
    var w1 := EndOp(w).(own := w.own.(applied := if err.None? then Some(spec) else None));
    Observe(w1, inst, spec.desired, err, now)
  }

  function NextBackoff(w: State, now: int): int {
    if w.own.backoff == 0 || now - w.own.startedAt >= HEALTHY_AFTER then BACKOFF_MIN
    else Min(w.own.backoff * 2, BACKOFF_MAX)
  }

  function ExitState(w: State, ev: Event, s: RunState): BotState {
    BotState(s, CurrentDeploy(w), Some(ev.exitCode), ev.oomKilled, 0, None)
  }

  function HandleExit(w: State, ev: Event, now: int): State {
    if w.own.container != "" && ev.containerId != w.own.container then w // not the container the worker knows
    else if w.own.spec.Some? && w.own.spec.value.desired == STOPPED then SetState(w, ExitState(w, ev, Stopped))
    else if w.own.spec.None? then SetState(w, ExitState(w, ev, Crashed))
    else
      var wait := NextBackoff(w, now);
      SetState(w, ExitState(w, ev, Crashed)).(
        own := w.own.(backoff := wait, retry := Armed(Disarmed(w.own.retry), now + wait)))
  }

  predicate WantsCrashRestart(w: State) {
    w.own.spec.Some? && w.own.spec.value.desired == RUNNING && InState(w, Crashed)
  }

  function FinishCrashRestart(w: State, inst: Instance, err: Option<string>, now: int): State {
    var w1 := Observe(EndOp(w).(own := w.own.(restarts := w.own.restarts + 1)), inst, RUNNING, err, now);
    if err.None? then w1
    else
      var wait := Min(Max(w.own.backoff * 2, BACKOFF_MIN), BACKOFF_MAX);
      w1.(own := w1.own.(backoff := wait, retry := Armed(w1.own.retry, now + wait)))
  }

  function BeginRestart(w: State): State { BeginOp(StopRetry(w), "") }

  function FinishRestart(w: State, inst: Instance, err: Option<string>, now: int): State {
    var desired := if err.None? || w.own.spec.None? then RUNNING else w.own.spec.value.desired;
    Observe(EndOp(w).(own := w.own.(backoff := 0, startedAt := now)), inst, desired, err, now)
  }

  function BeginRemove(w: State): State { BeginOp(StopRetry(w), "") }

  function FinishRemove(w: State, err: Option<string>): State {
    var w1 := EndOp(w).(own := w.own.(spec := None, applied := None, container := ""));
    if err.None? then w1
    else SetState(w1, BotState(Stopped, "", None, false, 0, Some("remove failed: " + err.value)))
  }

  /** A worker primed from what the runtime already has, before any spec was received. */
  function Primed(inst: Instance): State {
    FRESH.(own := FRESH.own.(container := inst.containerId), state := Some(StateFromInstance(inst, "")))
  }

  // ---------- The worker object ----------

  class Worker {
    const id: BotId
    // Guarded by the worker's lock.
    var slots: Slots
    var op: Op
    var state: Option<BotState>
    var uid: int
    var kick: bool
    // Owned by the worker's goroutine.
    var own: Own

    ghost function View(): State
      reads this
    {
      State(slots, op, state, uid, kick, own)
    }

    constructor (id: BotId)
      ensures this.id == id && View() == FRESH
    {
      this.id := id;
      slots, op, state, uid, kick := NO_SLOTS, NO_OP, None, 0, false;
      own := Own(None, None, "", 0, 0, Retry(None, 0), 0);
    }

    method Poke()
      modifies this`kick
      ensures kick
    {
      kick := true;
    }

    method Apply(spec: BotSpec)
      modifies this
      ensures View() == Poked(PutApply(old(View()), spec))
    {
      slots := slots.(apply := Some(spec), remove := false);
      uid := spec.uid;
      if op.active && op.deploy != "" && spec.deployId != op.deploy {
        op := op.(cancelled := true);
      }
      Poke();
    }

    method Remove()
      modifies this
      ensures View() == Poked(PutRemove(old(View())))
    {
      slots := slots.(apply := None, restart := false, remove := true);
      uid := 0;
      if op.active {
        op := op.(cancelled := true);
      }
      Poke();
    }

    method Restart()
      modifies this
      ensures View() == Poked(PutRestart(old(View())))
    {
      slots := slots.(restart := true);
      Poke();
    }

    method Exited(ev: Event)
      modifies this
      ensures View() == Poked(PutExit(old(View()), ev))
    {
      slots := slots.(exits := slots.exits + [ev]);
      Poke();
    }

    method TakeBatch() returns (batch: Slots)
      modifies this`slots
      ensures batch == old(slots) && View() == old(View()).(slots := NO_SLOTS)
    {
      batch := slots;
      slots := NO_SLOTS;
    }

    method CancelRetry()
      modifies this`own
      ensures own == old(own).(retry := Disarmed(old(own).retry))
    {
      if own.retry.deadline.Some? {
        own := own.(retry := Retry(None, own.retry.armed - 1));
      }
    }

    method Report(st: BotState)
      modifies this`state
      ensures state == Some(st.(restarts := own.restarts))
    {
      state := Some(st.(restarts := own.restarts));
    }

    method ObserveInstance(inst: Instance, desired: string, err: Option<string>, now: int)
      modifies this`own, this`state
      ensures View() == Observe(old(View()), inst, desired, err, now)
    {
      var prev := state;
      if inst.containerId != own.container {
        own := own.(container := inst.containerId);
      }
      var st := Observed(inst, desired, err);
      if st.state == Running && !(prev.Some? && prev.value.state == Running) {
        own := own.(startedAt := now);
      }
      Report(st);
    }

    method NoteDeployStarted()
      modifies this`state
      ensures View() == DeployStarted(old(View()))
    {
      if state.Some? && state.value.state == Running { return; }
      Report(BotState(Installing, if state.Some? then state.value.deployId else "", None, false, 0, None));
    }

    method StartCall(deployId: string)
      modifies this`op, this`own
      ensures View() == BeginOp(StopRetry(old(View())), deployId)
    {
      CancelRetry();
      op := Op(true, deployId, false);
    }

    method StartApply(spec: BotSpec) returns (skip: bool)
      modifies this
      ensures skip == SkipsApply(old(View()), spec)
      ensures View() == BeginApply(old(View()), spec)
    {
      own := own.(spec := Some(spec));
      if own.applied.Some? && own.applied.value == spec {
        return true;
      }
      StartCall(spec.deployId);
      skip := false;
    }

    method EndApply(spec: BotSpec, inst: Instance, err: Option<string>, now: int)
      modifies this
      ensures View() == FinishApply(old(View()), spec, inst, err, now)
    {
      op := NO_OP;
      if err.None? {
        own := own.(applied := Some(spec));
      } else {
        own := own.(applied := None);
      }
      ObserveInstance(inst, spec.desired, err, now);
    }

    method OnExit(ev: Event, now: int)
      modifies this
      ensures View() == HandleExit(old(View()), ev, now)
    {
      if own.container != "" && ev.containerId != own.container {
        return;
      }
      var deploy := if state.Some? then state.value.deployId else "";
      if own.spec.Some? && own.spec.value.desired == STOPPED {
        Report(BotState(Stopped, deploy, Some(ev.exitCode), ev.oomKilled, 0, None));
        return;
      }
      Report(BotState(Crashed, deploy, Some(ev.exitCode), ev.oomKilled, 0, None));
      if own.spec.None? {
        return;
      }
      var wait := BACKOFF_MIN;
      if !(own.backoff == 0 || now - own.startedAt >= HEALTHY_AFTER) {
        wait := Min(own.backoff * 2, BACKOFF_MAX);
      }
      CancelRetry();
      own := own.(backoff := wait, retry := Armed(own.retry, now + wait));
    }

    method EndCrashRestart(inst: Instance, err: Option<string>, now: int)
      modifies this
      ensures View() == FinishCrashRestart(old(View()), inst, err, now)
    {
      op := NO_OP;
      own := own.(restarts := own.restarts + 1);
      ObserveInstance(inst, RUNNING, err, now);
      if err.Some? {
        var wait := Min(Max(own.backoff * 2, BACKOFF_MIN), BACKOFF_MAX);
        own := own.(backoff := wait, retry := Armed(own.retry, now + wait));
      }
    }

    method EndRestart(inst: Instance, err: Option<string>, now: int)
      modifies this
      ensures View() == FinishRestart(old(View()), inst, err, now)
    {
      op := NO_OP;
      own := own.(backoff := 0, startedAt := now);
      var desired := RUNNING;
      if own.spec.Some? && err.Some? {
        desired := own.spec.value.desired;
      }
      ObserveInstance(inst, desired, err, now);
    }

    method EndRemove(err: Option<string>)
      modifies this
      ensures View() == FinishRemove(old(View()), err)
    {
      op := NO_OP;
      own := own.(spec := None, applied := None, container := "");
      if err.Some? {
        Report(BotState(Stopped, "", None, false, 0, Some("remove failed: " + err.value)));
      }
    }
  }
}
