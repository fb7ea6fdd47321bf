/**
 * Terminating a subscription while bots are being created on it: statement by statement, the row lock
 * createBot holds on the subscription being all that orders them. One subscription and one terminating
 * request; any number of createBot transactions, of deletions, and of other status changes.
 */
module Termination {

  import opened Options

  datatype Status = Active | Suspended | Terminated

  /** A createBot transaction; only one that found the subscription active holds its row lock. */
  datatype Creator = Starting | Locked | Inserted | Ended

  /** The terminating request; after a failure, another one may be made. */
  datatype Terminator = Waiting | Checked | StatusSet | Deleting(todo: set<nat>) | Finished | Aborted

  /** Another request that changes the status: it first looks whether the subscription is terminated. */
  datatype Changer = New | Passed | Over

  /**
   * `deleted` says of each committed bot whether it is deleted. `revived` records that another request
   * set the status after the terminating one last did.
   */
  datatype System = System(
    status: Status,
    lock: Option<nat>,
    creators: seq<Creator>,
    terminator: Terminator,
    changers: seq<Changer>,
    deleted: seq<bool>,
    revived: bool)

  datatype Label =
    | Arrive | Lock(i: nat) | Insert(i: nat) | Commit(i: nat) | Rollback(i: nat)
    | Check | SetTerminated | StopBots | DeleteNext(b: nat) | Finish | Abort | TryAgain
    | ChangerArrives | ChangerChecks(j: nat) | ChangerSets(j: nat, to: Status)
    | UserDeletes(b: nat)

  predicate Holds(c: Creator) { c.Locked? || c.Inserted? }

  predicate Begun(t: Terminator) { t.StatusSet? || t.Deleting? || t.Finished? }

  predicate Enabled(s: System, l: Label) {
    match l
    case Arrive => true
    case Lock(i) => i < |s.creators| && s.creators[i].Starting? && s.lock.None?
    case Insert(i) => i < |s.creators| && s.creators[i].Locked?
    case Commit(i) => i < |s.creators| && s.creators[i].Inserted?
    case Rollback(i) => i < |s.creators| && Holds(s.creators[i])
    case Check => s.terminator.Waiting?
    case SetTerminated => s.terminator.Checked? && s.lock.None?
    case StopBots => s.terminator.StatusSet?
    case DeleteNext(b) => s.terminator.Deleting? && b in s.terminator.todo && b < |s.deleted|
    case Finish => s.terminator == Deleting({})
    case Abort => !s.terminator.Finished?
    case TryAgain => s.terminator.Aborted?
    case ChangerArrives => true
    case ChangerChecks(j) => j < |s.changers| && s.changers[j].New?
    case ChangerSets(j, to) => j < |s.changers| && s.changers[j].Passed? && s.lock.None? && to != Terminated
    case UserDeletes(b) => b < |s.deleted|
  }

  /** The bots the stopping statement returns: those committed and not deleted. */
  function Undeleted(s: System): set<nat> { set b | 0 <= b < |s.deleted| && !s.deleted[b] }

  function Step(s: System, l: Label): System
    requires Enabled(s, l)
  {
    match l
    case Arrive => s.(creators := s.creators + [Starting])
    case Lock(i) =>
      if s.status.Active? then s.(lock := Some(i), creators := s.creators[i := Locked])
      else s.(creators := s.creators[i := Ended])
    case Insert(i) => s.(creators := s.creators[i := Inserted])
    case Commit(i) => s.(lock := None, creators := s.creators[i := Ended], deleted := s.deleted + [false])
    case Rollback(i) => s.(lock := None, creators := s.creators[i := Ended])
    case Check => s.(terminator := if s.status.Terminated? then Aborted else Checked)
    case SetTerminated => s.(status := Terminated, terminator := StatusSet, revived := false)
    case StopBots => s.(terminator := Deleting(Undeleted(s)))
    case DeleteNext(b) => s.(deleted := s.deleted[b := true], terminator := Deleting(s.terminator.todo - {b}))
    case Finish => s.(terminator := Finished)
    case Abort => s.(terminator := Aborted)
    case TryAgain => s.(terminator := Waiting)
    case ChangerArrives => s.(changers := s.changers + [New])
    case ChangerChecks(j) => s.(changers := s.changers[j := if s.status.Terminated? then Over else Passed])
    case ChangerSets(j, to) => s.(status := to, changers := s.changers[j := Over], revived := s.revived || Begun(s.terminator))
    case UserDeletes(b) => s.(deleted := s.deleted[b := true])
  }

  ghost predicate Run(s: System, ls: seq<Label>, t: System)
    decreases |ls|
  {
    if ls == [] then t == s else Enabled(s, ls[0]) && Run(Step(s, ls[0]), ls[1..], t)
  }

  predicate Init(s: System) {
    && s.lock.None? && s.creators == [] && s.changers == [] && s.terminator.Waiting? && !s.revived
  }

  predicate NoBots(s: System) { forall b :: 0 <= b < |s.deleted| ==> s.deleted[b] }

  /** The lock is held by the one transaction that is past taking it, and while it is the status stays. */
  predicate LockOk(s: System) {
    && (s.lock.Some? ==> s.status.Active?)
    && (s.lock.Some? ==> s.lock.value < |s.creators| && Holds(s.creators[s.lock.value]))
    && (forall i: nat :: i < |s.creators| && Holds(s.creators[i]) ==> s.lock == Some(i))
  }

  /** Once the status is set, and as long as nothing sets it back, no transaction gets in, and every bot is deleted or about to be. */
  predicate TerminationOk(s: System) {
    Begun(s.terminator) && !s.revived ==>
      && s.status.Terminated? && s.lock.None?
      && (s.terminator.Deleting? ==> forall b :: 0 <= b < |s.deleted| && !s.deleted[b] ==> b in s.terminator.todo)
      && (s.terminator.Finished? ==> NoBots(s))
  }

  predicate Inv(s: System) { LockOk(s) && TerminationOk(s) }

  lemma StepInv(s: System, l: Label)
    requires Inv(s) && Enabled(s, l)
    ensures Inv(Step(s, l))
  {
    match l
    case StopBots =>
      forall b | 0 <= b < |s.deleted| && !s.deleted[b] ensures b in Undeleted(s) {}
    case _ =>
  }

  lemma {:induction false} RunInv(s: System, ls: seq<Label>, t: System)
    requires Inv(s) && Run(s, ls, t)
    ensures Inv(t)
    decreases |ls|
  {
    if ls != [] {
      StepInv(s, ls[0]);
      RunInv(Step(s, ls[0]), ls[1..], t);
    }
  }

  /**
   * However createBot transactions and deletions interleave with it: once the terminating request is
   * through, and nothing set the status back, the subscription has no bot, and none is on its way.
   */
  lemma TerminatedHasNoBots(s0: System, ls: seq<Label>, s: System)
    requires Init(s0) && Run(s0, ls, s)
    requires s.terminator.Finished? && !s.revived
    ensures NoBots(s) && s.status.Terminated?
    ensures forall i: nat :: i < |s.creators| ==> !Holds(s.creators[i])
  {
    RunInv(s0, ls, s);
  }

  predicate CreatorEnded(s: System, i: nat) { i < |s.creators| && s.creators[i].Ended? }

  predicate ChangerOver(s: System, j: nat) { j < |s.changers| && s.changers[j].Over? }

  lemma {:induction false} StaysEnded(s: System, ls: seq<Label>, t: System, i: nat)
    requires Run(s, ls, t)
    ensures CreatorEnded(s, i) ==> CreatorEnded(t, i)
    ensures ChangerOver(s, i) ==> ChangerOver(t, i)
    decreases |ls|
  {
    if ls != [] { StaysEnded(Step(s, ls[0]), ls[1..], t, i); }
  }

  /**
   * A createBot that finds the subscription not active is refused for good, as is a status change that finds it
   * terminated; and one that set the status does so only once.
   */
  lemma RefusedForGood(s: System, l: Label, ls: seq<Label>, t: System)
    requires Enabled(s, l) && Run(Step(s, l), ls, t)
    ensures l.Lock? && s.status != Active ==> CreatorEnded(t, l.i)
    ensures l.ChangerChecks? && s.status == Terminated ==> ChangerOver(t, l.j)
    ensures l.ChangerSets? ==> ChangerOver(t, l.j)
  {
    var k := if l.Lock? then l.i else if l.ChangerChecks? || l.ChangerSets? then l.j else 0;
    StaysEnded(Step(s, l), ls, t, k);
    hide Run;
  }

  // ---------- And for ever after ----------

  predicate SomePassed(s: System) { exists j: nat :: j < |s.changers| && s.changers[j].Passed? }

  /** Terminated, without a bot, and with no request left that has already passed the look at the status. */
  predicate Sealed(s: System) {
    s.terminator.Finished? && s.status.Terminated? && NoBots(s) && LockOk(s) && s.lock.None? && !SomePassed(s)
  }

  lemma SealedStep(s: System, l: Label)
    requires Sealed(s) && Enabled(s, l)
    ensures Sealed(Step(s, l))
  {
    var t := Step(s, l);
    forall j: nat | j < |t.changers|
      ensures !t.changers[j].Passed?
    {
      assert j < |s.changers| ==> !s.changers[j].Passed?;
    }
  }

  lemma {:induction false} SealedForEver(s: System, ls: seq<Label>, t: System)
    requires Sealed(s) && Run(s, ls, t)
    ensures NoBots(t)
    decreases |ls|
  {
    if ls != [] {
      SealedStep(s, ls[0]);
      SealedForEver(Step(s, ls[0]), ls[1..], t);
    }
  }

  ghost predicate CanGetBot(s: System) { exists ls, t :: Run(s, ls, t) && !NoBots(t) }

  lemma OneStep(s: System, l: Label, ls: seq<Label>, t: System)
    requires Enabled(s, l) && Run(Step(s, l), ls, t)
    ensures Run(s, [l] + ls, t)
  {
    assert ([l] + ls)[1..] == ls;
  }

  /** A request that passed its look at the status before can set the subscription active again, and a bot can be created. */
  lemma PassedRevives(s: System, j: nat)
    requires LockOk(s) && s.lock.None? && j < |s.changers| && s.changers[j].Passed?
    ensures CanGetBot(s)
  {
    var i := |s.creators|;
    var s1 := Step(s, ChangerSets(j, Active));
    var s2 := Step(s1, Arrive);
    var s3 := Step(s2, Lock(i));
    var s4 := Step(s3, Insert(i));
    var t := Step(s4, Commit(i));
    assert Run(t, [], t);
    OneStep(s4, Commit(i), [], t);
    OneStep(s3, Insert(i), [Commit(i)] + [], t);
    OneStep(s2, Lock(i), [Insert(i)] + ([Commit(i)] + []), t);
    OneStep(s1, Arrive, [Lock(i)] + ([Insert(i)] + ([Commit(i)] + [])), t);
    OneStep(s, ChangerSets(j, Active), [Arrive] + ([Lock(i)] + ([Insert(i)] + ([Commit(i)] + []))), t);
    assert !t.deleted[|s.deleted|];
  }

  /**
   * "No later createBot gives it one" holds exactly if no other status change is under way that looked at the
   * status before it was terminated; without such requests it always holds.
   */
  lemma StaysTerminatedIff(s0: System, ls: seq<Label>, s: System)
    requires Init(s0) && Run(s0, ls, s)
    requires s.terminator.Finished? && !s.revived
    ensures CanGetBot(s) <==> SomePassed(s)
  {
    RunInv(s0, ls, s);
    if SomePassed(s) {
      var j: nat :| j < |s.changers| && s.changers[j].Passed?;
      PassedRevives(s, j);
    } else if CanGetBot(s) {
      var ms, t :| Run(s, ms, t) && !NoBots(t);
      SealedForEver(s, ms, t);
    }
  }

  /** It does happen: a change that looked before the termination sets the subscription active after it, and it gets a bot. */
  lemma RevivalHappens() returns (s0: System, ls: seq<Label>, s: System)
    ensures Init(s0) && s0.status == Active && NoBots(s0) && Run(s0, ls, s)
    ensures s.terminator.Finished? && !s.revived && s.status.Terminated? && NoBots(s) && CanGetBot(s)
  {
    s0 := System(Active, None, [], Waiting, [], [], false);
    var s1 := Step(s0, ChangerArrives);
    var s2 := Step(s1, ChangerChecks(0));
    var s3 := Step(s2, Check);
    var s4 := Step(s3, SetTerminated);
    var s5 := Step(s4, StopBots);
    s := Step(s5, Finish);
    assert Undeleted(s4) == {};
    assert Run(s, [], s);
    OneStep(s5, Finish, [], s);
    OneStep(s4, StopBots, [Finish] + [], s);
    OneStep(s3, SetTerminated, [StopBots] + ([Finish] + []), s);
    OneStep(s2, Check, [SetTerminated] + ([StopBots] + ([Finish] + [])), s);
    OneStep(s1, ChangerChecks(0), [Check] + ([SetTerminated] + ([StopBots] + ([Finish] + []))), s);
    OneStep(s0, ChangerArrives, [ChangerChecks(0)] + ([Check] + ([SetTerminated] + ([StopBots] + ([Finish] + [])))), s);
    ls := [ChangerArrives] + ([ChangerChecks(0)] + ([Check] + ([SetTerminated] + ([StopBots] + ([Finish] + [])))));
    PassedRevives(s, 0);
  }

  predicate OnlyCreates(ls: seq<Label>) { forall k :: 0 <= k < |ls| ==> !ls[k].ChangerArrives? }

  lemma {:induction false} NoChangers(s: System, ls: seq<Label>, t: System)
    requires s.changers == [] && !s.revived && Run(s, ls, t) && OnlyCreates(ls)
    ensures t.changers == [] && !t.revived
    decreases |ls|
  {
    if ls != [] { NoChangers(Step(s, ls[0]), ls[1..], t); }
  }

  /** With createBot transactions and deletions alone, the subscription has no bot when the request is through, nor ever after. */
  lemma TerminatedForGood(s0: System, ls: seq<Label>, s: System, more: seq<Label>, t: System)
    requires Init(s0) && Run(s0, ls, s) && OnlyCreates(ls) && s.terminator.Finished?
    requires Run(s, more, t)
    ensures NoBots(s) && NoBots(t)
  {
    NoChangers(s0, ls, s);
    TerminatedHasNoBots(s0, ls, s);
    StaysTerminatedIff(s0, ls, s);
    assert !NoBots(t) ==> CanGetBot(s);
  }

  // ---------- A termination that fails half-way ----------

  ghost predicate CanFinish(s: System) { exists ls, t :: Run(s, ls, t) && t.terminator.Finished? }

  lemma FinishStep(s: System, l: Label)
    requires Enabled(s, l) && CanFinish(Step(s, l))
    ensures CanFinish(s)
  {
    hide Step;
    var ls, t :| Run(Step(s, l), ls, t) && t.terminator.Finished?;
    OneStep(s, l, ls, t);
  }

  /** Deletes what is listed, one after another. */
  lemma {:induction false} DeletingFinishes(s: System, todo: set<nat>)
    requires s.terminator == Deleting(todo) && forall b :: b in todo ==> b < |s.deleted|
    ensures CanFinish(s)
    decreases |todo|
  {
    if todo == {} {
      var t := Step(s, Finish);
      assert Run(t, [], t);
      FinishStep(s, Finish);
    } else {
      var b :| b in todo;
      DeletingFinishes(Step(s, DeleteNext(b)), todo - {b});
      FinishStep(s, DeleteNext(b));
    }
  }

  /** A request that passes its look at the status can be carried through. */
  lemma OpenFinishes(s: System)
    requires LockOk(s) && !s.status.Terminated? && s.terminator.Waiting?
    ensures CanFinish(s)
  {
    if s.lock.Some? {
      var i := s.lock.value;
      var t := Step(s, Rollback(i));
      UnlockedFinishes(t);
      FinishStep(s, Rollback(i));
    } else {
      UnlockedFinishes(s);
    }
  }

  lemma UnlockedFinishes(s: System)
    requires !s.status.Terminated? && s.terminator.Waiting? && s.lock.None?
    ensures CanFinish(s)
  {
    var s1 := Step(s, Check);
    var s2 := Step(s1, SetTerminated);
    var s3 := Step(s2, StopBots);
    DeletingFinishes(s3, Undeleted(s2));
    FinishStep(s2, StopBots);
    FinishStep(s1, SetTerminated);
    FinishStep(s, Check);
  }

  /** Terminated, with nobody left who could change that or add a bot, and no terminating request past its look at the status. */
  predicate Stuck(s: System) {
    s.status.Terminated? && LockOk(s) && !SomePassed(s) && (s.terminator.Waiting? || s.terminator.Aborted?)
  }

  lemma StuckStep(s: System, l: Label)
    requires Stuck(s) && Enabled(s, l)
    ensures Stuck(Step(s, l)) && (!l.UserDeletes? ==> Step(s, l).deleted == s.deleted)
  {
    var u := Step(s, l);
    forall j: nat | j < |u.changers|
      ensures !u.changers[j].Passed?
    {
      assert j < |s.changers| ==> !s.changers[j].Passed?;
    }
  }

  /** That happens, too: a termination fails before its one bot is deleted, which then only its owner can do. */
  lemma FailureHappens() returns (s0: System, ls: seq<Label>, s: System)
    ensures Init(s0) && s0.status == Active && s0.deleted == [false] && Run(s0, ls, s)
    ensures s.terminator.Aborted? && !CanFinish(s) && s.deleted == [false]
    ensures Enabled(s, UserDeletes(0)) && NoBots(Step(s, UserDeletes(0)))
  {
    s0 := System(Active, None, [], Waiting, [], [false], false);
    var s1 := Step(s0, Check);
    var s2 := Step(s1, SetTerminated);
    var s3 := Step(s2, StopBots);
    s := Step(s3, Abort);
    assert Run(s, [], s);
    OneStep(s3, Abort, [], s);
    OneStep(s2, StopBots, [Abort] + [], s);
    OneStep(s1, SetTerminated, [StopBots] + ([Abort] + []), s);
    OneStep(s0, Check, [SetTerminated] + ([StopBots] + ([Abort] + [])), s);
    ls := [Check] + ([SetTerminated] + ([StopBots] + ([Abort] + [])));
    RetryCanFinishIff(s0, ls, s);
  }

  predicate UserDeletesNothing(ls: seq<Label>) { forall k :: 0 <= k < |ls| ==> !ls[k].UserDeletes? }

  lemma {:induction false} StuckForEver(s: System, ls: seq<Label>, t: System)
    requires Stuck(s) && Run(s, ls, t)
    ensures !t.terminator.Finished? && (UserDeletesNothing(ls) ==> t.deleted == s.deleted)
    decreases |ls|
  {
    if ls != [] {
      StuckStep(s, ls[0]);
      hide Stuck, Step, Enabled;
      StuckForEver(Step(s, ls[0]), ls[1..], t);
    } else {
      assert !s.terminator.Finished?;
    }
  }

  /**
   * After a termination failed, wherever it did, a later request can still be carried through exactly if the
   * status had not been set, or another status change that passed its look before can set it back.
   */
  lemma RetryCanFinishIff(s0: System, ls: seq<Label>, s: System)
    requires Init(s0) && Run(s0, ls, s) && s.terminator.Aborted?
    ensures CanFinish(s) <==> !s.status.Terminated? || SomePassed(s)
  {
    RunInv(s0, ls, s);
    if !s.status.Terminated? {
      OpenFinishes(Step(s, TryAgain));
      FinishStep(s, TryAgain);
    } else if SomePassed(s) {
      var j: nat :| j < |s.changers| && s.changers[j].Passed?;
      var u := Step(s, ChangerSets(j, Active));
      OpenFinishes(Step(u, TryAgain));
      FinishStep(u, TryAgain);
      FinishStep(s, ChangerSets(j, Active));
    } else if CanFinish(s) {
      var ms, t :| Run(s, ms, t) && t.terminator.Finished?;
      StuckForEver(s, ms, t);
    }
  }

  /** If it cannot, the bots that were not deleted stay, whatever else happens, unless their owner deletes them. */
  lemma FailedTerminationStays(s0: System, ls: seq<Label>, s: System, more: seq<Label>, t: System)
    requires Init(s0) && Run(s0, ls, s) && s.terminator.Aborted? && !CanFinish(s)
    requires Run(s, more, t) && UserDeletesNothing(more)
    ensures t.deleted == s.deleted
  {
    RunInv(s0, ls, s);
    RetryCanFinishIff(s0, ls, s);
    StuckForEver(s, more, t);
  }
}
