/**
 * The worker's own code, a batch and a timer at a time, on the worker object: whatever the runtime
 * answers, it is a run of the steps the reconciler is made of.
 */
module WorkerLoop {

  import opened Options
  import opened Proto
  import opened BotWorker
  import opened Reconciler

  /** What a runtime call comes to; `fetched` says that a deploy began, `at` is when it is looked at. */
  datatype Answer = Answer(inst: Instance, err: Option<string>, fetched: bool, at: int)

  datatype Turn = Idle | Worked | Removed

  /** The scope of a worker object, between two of its steps. */
  ghost predicate Stands(v: Scope, w: Worker, pc: Pc)
    reads w
  {
    v.p.pc == pc && v.p.w == w.View()
  }

  /** Handles the exits of a batch, in order. */
  method HandleExits(w: Worker, batch: Slots, ghost upto: nat, now: int, ghost v: Scope, ghost acts0: seq<Act>, ghost v0: Scope)
    returns (ghost acts: seq<Act>, ghost u: Scope)
    requires Stands(v, w, Batch(batch, upto)) && ScopeRun(v0, acts0, v)
    modifies w
    ensures Stands(u, w, Batch(batch.(exits := []), upto)) && ScopeRun(v0, acts, u)
    ensures w.slots == old(w.slots) && w.own.spec == old(w.own.spec) && w.own.applied == old(w.own.applied)
  {
    acts, u := acts0, v;
    var left := batch;
    assert batch.(exits := batch.exits) == batch;
    while left.exits != []
      invariant left == batch.(exits := left.exits)
      invariant Stands(u, w, Batch(left, upto)) && ScopeRun(v0, acts, u)
      invariant w.slots == old(w.slots) && w.own.spec == old(w.own.spec) && w.own.applied == old(w.own.applied)
      decreases |left.exits|
    {
      hide ScopeRun, HandleExit;
      ScopeSnoc(v0, acts, u, NextExit(now));
      u := Perform(u, NextExit(now));
      acts := acts + [NextExit(now)];
      ExitKeeps(w.View(), left.exits[0], now);
      w.OnExit(left.exits[0], now);
      left := left.(exits := left.exits[1..]);
    }
  }

  lemma ExitKeeps(w: State, ev: Event, now: int)
    ensures HandleExit(w, ev, now).slots == w.slots
    ensures HandleExit(w, ev, now).own.spec == w.own.spec && HandleExit(w, ev, now).own.applied == w.own.applied
  {
  }

  /** Deletes the bot; the worker forgets it whether or not that works. */
  method DoRemove(w: Worker, batch: Slots, ghost upto: nat, err: Option<string>, ghost v: Scope, ghost acts0: seq<Act>, ghost v0: Scope)
    returns (ghost acts: seq<Act>, ghost u: Scope)
    requires Stands(v, w, Batch(batch, upto)) && batch.exits == [] && batch.remove && ScopeRun(v0, acts0, v)
    modifies w
    ensures Stands(u, w, Retiring) && ScopeRun(v0, acts, u)
    ensures w.slots == old(w.slots) && w.own.spec.None? && w.own.applied.None? && w.own.container == ""
  {
    hide ScopeRun;
    ScopeSnoc(v0, acts0, v, Begin);
    w.StartCall("");
    ghost var v1 := Perform(v, Begin);
    assert v1 == GoTo(v, Pc.Removing(upto), w.View());
    ScopeSnoc(v0, acts0 + [Begin], v1, EndRemove(err, None));
    w.EndRemove(err);
    acts, u := acts0 + [Begin] + [EndRemove(err, None)], Perform(v1, EndRemove(err, None));
  }

  /** Applies a spec, unless it is the one applied last. */
  method DoApply(w: Worker, batch: Slots, ghost upto: nat, spec: BotSpec, answer: Answer, ghost v: Scope, ghost acts0: seq<Act>, ghost v0: Scope)
    returns (ghost acts: seq<Act>, ghost u: Scope)
    requires Stands(v, w, Batch(batch, upto)) && batch.exits == [] && !batch.remove && batch.apply == Some(spec) && ScopeRun(v0, acts0, v)
    modifies w
    ensures Stands(u, w, Batch(Slots(None, false, batch.restart, []), upto)) && ScopeRun(v0, acts, u)
    ensures w.slots == old(w.slots) && w.own.spec == Some(spec)
    ensures w.own.applied == if old(w.own).applied == Some(spec) || answer.err.None? then Some(spec) else None
  {
    hide ScopeRun, Observed;
    ScopeSnoc(v0, acts0, v, Begin);
    ghost var v1 := Perform(v, Begin);
    var skip := w.StartApply(spec);
    if skip {
      acts, u := acts0 + [Begin], v1;
      return;
    }
    assert v1 == GoTo(v, Pc.Applying(spec, batch.restart, upto), w.View());
    var Answer(inst, err, fetched, at) := answer;
    ghost var end := EndApply(fetched, inst, err, at, None);
    ScopeSnoc(v0, acts0 + [Begin], v1, end);
    if fetched { w.NoteDeployStarted(); }
    w.EndApply(spec, inst, err, at);
    acts, u := acts0 + [Begin] + [end], Perform(v1, end);
  }

  /** Restarts the bot if that was asked for, and ends the batch. */
  method DoRestart(w: Worker, wanted: bool, ghost upto: nat, answer: Answer, ghost v: Scope, ghost acts0: seq<Act>, ghost v0: Scope)
    returns (ghost acts: seq<Act>, ghost u: Scope)
    requires Stands(v, w, Batch(Slots(None, false, wanted, []), upto)) && ScopeRun(v0, acts0, v)
    modifies w
    ensures Stands(u, w, LoopHead) && ScopeRun(v0, acts, u)
    ensures w.slots == old(w.slots) && w.own.spec == old(w.own.spec) && w.own.applied == old(w.own.applied)
    ensures wanted ==> w.own.backoff == 0 && w.own.retry.deadline.None? && w.own.startedAt == answer.at
  {
    hide ScopeRun, Observed;
    ScopeSnoc(v0, acts0, v, Begin);
    ghost var v1 := Perform(v, Begin);
    if !wanted {
      acts, u := acts0 + [Begin], v1;
      return;
    }
    w.StartCall("");
    assert v1 == GoTo(v, Pc.Restarting, w.View());
    var Answer(inst, err, _, at) := answer;
    ghost var end := EndRestart(inst, err, at, NoContainer);
    ScopeSnoc(v0, acts0 + [Begin], v1, end);
    w.EndRestart(inst, err, at);
    acts, u := acts0 + [Begin] + [end], Perform(v1, end);
  }

  /**
   * One turn of the worker's inner loop: takes what is pending and works through it, a removal alone or an
   * apply and then a restart. It is a run of the worker's steps; afterwards the worker holds the batch's
   * spec, which counts as applied exactly if it was skipped as applied before or its call succeeded, and
   * after a removal it holds none.
   */
  method WorkBatch(w: Worker, now: int, apply: Answer, removeErr: Option<string>, restart: Answer, ghost v: Scope)
    returns (turn: Turn, ghost acts: seq<Act>, ghost u: Scope)
    requires Stands(v, w, LoopHead)
    modifies w
    ensures ScopeRun(v, acts, u)
    ensures Stands(u, w, if turn.Idle? then Parked else if turn.Removed? then Retiring else LoopHead)
    ensures turn.Idle? <==> !old(HasWork(w.View()))
    ensures turn.Removed? <==> old(w.slots).remove
    ensures w.slots == NO_SLOTS
    ensures turn.Idle? ==> w.View() == old(w.View())
    ensures turn.Removed? ==> w.own.spec.None? && w.own.applied.None? && w.own.container == ""
    ensures turn.Worked? ==>
              var asked := old(w.slots).apply;
              && w.own.spec == (if asked.Some? then asked else old(w.own).spec)
              && w.own.applied == (if asked.None? || old(w.own).applied == asked then old(w.own).applied
                                   else if apply.err.None? then asked else None)
    ensures turn.Worked? && old(w.slots).restart ==> w.own.backoff == 0 && w.own.retry.deadline.None? && w.own.startedAt == restart.at
  {
    ghost var upto := |v.log|;
    hide HandleExit, Observed, Observe, StateFromInstance, ScopeRun;
    var batch := w.TakeBatch();
    ScopeNone(v);
    ScopeSnoc(v, [], v, Reconciler.TakeBatch);
    acts, u := [] + [Reconciler.TakeBatch], Perform(v, Reconciler.TakeBatch);
    if batch.apply.None? && !batch.remove && !batch.restart && batch.exits == [] {
      return Idle, acts, u;
    }
    acts, u := HandleExits(w, batch, upto, now, u, acts, v);
    var rest := batch.(exits := []);
    if batch.remove {
      acts, u := DoRemove(w, rest, upto, removeErr, u, acts, v);
      return Removed, acts, u;
    }
    if batch.apply.Some? {
      acts, u := DoApply(w, rest, upto, batch.apply.value, apply, u, acts, v);
    }
    acts, u := DoRestart(w, batch.restart, upto, restart, u, acts, v);
    turn := Worked;
  }

  /**
   * The retry timer fires: the bot is restarted if it is to run and has crashed. It is a run of the
   * worker's steps; the timer is armed again exactly if that restart fails.
   */
  method FireTimer(w: Worker, answer: Answer, ghost v: Scope) returns (restarts: bool, ghost acts: seq<Act>, ghost u: Scope)
    requires Stands(v, w, Parked) && w.own.retry.deadline.Some?
    modifies w
    ensures ScopeRun(v, acts, u) && Stands(u, w, LoopHead)
    ensures restarts == old(WantsCrashRestart(w.View()))
    ensures w.own.restarts == old(w.own.restarts) + if restarts then 1 else 0
    ensures w.own.retry.deadline.Some? <==> restarts && answer.err.Some?
    ensures w.slots == old(w.slots) && w.own.spec == old(w.own.spec) && w.own.applied == old(w.own.applied)
  {
    hide ScopeRun, Observed;
    ScopeNone(v);
    ScopeSnoc(v, [], v, Fire);
    ghost var v1 := Perform(v, Fire);
    acts, u := [] + [Fire], v1;
    restarts := w.own.spec.Some? && w.own.spec.value.desired == RUNNING && w.state.Some? && w.state.value.state == Crashed;
    if !restarts {
      w.CancelRetry();
      return;
    }
    w.StartCall("");
    var Answer(inst, err, _, at) := answer;
    ghost var end := EndCrashRestart(inst, err, at, NoContainer);
    assert v1 == GoTo(v, Pc.CrashRestarting, w.View());
    ScopeSnoc(v, acts, v1, end);
    w.EndCrashRestart(inst, err, at);
    acts, u := acts + [end], Perform(v1, end);
  }

  /**
   * Requests that reach a worker, one after another. They leave in its slots what a queue of them would come
   * to, and wake it; the call in flight is cancelled exactly if one of them supersedes it.
   */
  method ReceiveRequests(w: Worker, asks: seq<Ask>, ghost v: Scope)
    requires v.p.w == w.View() && w.slots == NO_SLOTS
    modifies w
    ensures w.View() == ReceiveAll(v, asks).p.w.(kick := old(w.kick) || asks != [])
    ensures var newest := NewestAsk(asks);
            && w.slots.apply == (if newest.Some? && newest.value.AskApply? then Some(newest.value.spec) else None)
            && (w.slots.remove <==> newest == Some(AskRemove))
            && (w.slots.restart <==> RestartStands(asks))
            && w.slots.exits == ExitsTold(asks)
    ensures w.op.cancelled <==> old(w.op).cancelled || (old(w.op).active && exists k :: 0 <= k < |asks| && Supersedes(old(w.op), asks[k]))
    ensures w.own == old(w.own) && w.state == old(w.state)
    ensures var newest := NewestAsk(asks);
            w.uid == if newest.None? then old(w.uid) else if newest.value.AskApply? then newest.value.spec.uid else 0
  {
    assert asks[..|asks|] == asks;
    for k := 0 to |asks|
      invariant w.View() == ReceiveAll(v, asks[..k]).p.w.(kick := old(w.kick) || k > 0)
    {
      assert asks[..k + 1][..k] == asks[..k] && asks[..k + 1][k] == asks[k];
      match asks[k]
      case AskApply(spec) => w.Apply(spec);
      case AskRemove => w.Remove();
      case AskRestart => w.Restart();
      case TellExit(ev) => w.Exited(ev);
    }
    RequestsCoalesce(v, asks);
  }

  /**
   * Whatever reaches a worker between two turns, the next turn does what the newest request asks: it ends
   * removed exactly if that is a removal, and else holds the newest spec asked for, and the one before if
   * there is none; a restart that no removal overtook is carried out, too.
   */
  method Serve(w: Worker, asks: seq<Ask>, now: int, apply: Answer, removeErr: Option<string>, restart: Answer, ghost v: Scope)
    returns (turn: Turn)
    requires Stands(v, w, LoopHead) && w.slots == NO_SLOTS
    modifies w
    ensures turn.Idle? <==> asks == []
    ensures turn.Removed? <==> NewestAsk(asks) == Some(AskRemove)
    ensures turn.Removed? ==> w.own.spec.None? && w.own.applied.None?
    ensures forall spec :: NewestAsk(asks) == Some(AskApply(spec)) ==>
              w.own.spec == Some(spec) && (w.own.applied == Some(spec) <==> old(w.own).applied == Some(spec) || apply.err.None?)
    ensures turn.Worked? && NewestAsk(asks).None? ==> w.own.spec == old(w.own).spec && w.own.applied == old(w.own).applied
    ensures turn.Worked? && RestartStands(asks) ==> w.own.backoff == 0 && w.own.startedAt == restart.at
    ensures w.slots == NO_SLOTS
  {
    hide Supersedes, RestartStands, ExitsTold;
    RequestsCoalesce(v, asks);
    ReceiveRequests(w, asks, v);
    NewestIs(asks);
    ghost var u := ReceiveAll(v, asks);
    hide ReceiveAll, ScopeRun, NewestAsk;
    ghost var acts, end;
    turn, acts, end := WorkBatch(w, now, apply, removeErr, restart, u.(p := u.p.(w := w.View())));
  }

  lemma {:induction false} NewestIs(asks: seq<Ask>)
    ensures NewestAsk(asks).Some? ==> NewestAsk(asks).value.AskApply? || NewestAsk(asks).value.AskRemove?
  {
    if asks != [] { NewestIs(asks[..|asks| - 1]); }
  }
}
