/**
 * The panel's deploy records: starting a deploy, and the agents' progress reports, in any order. A deploy's
 * id is its position in the table; each handler runs as one step.
 */
module Deploys {

  import opened Options

  type BotId = string

  datatype Status = Queued | Fetching | Installing | Live | Failed | Superseded

  datatype Deploy = Deploy(bot: BotId, number: int, status: Status)

  /** The deploys table, and each bot's current deploy. */
  datatype Panel = Panel(deploys: seq<Deploy>, current: map<BotId, Option<nat>>)

  /** A progress report; `id` is none if it is no deploy id at all. */
  datatype Progress = Progress(bot: BotId, id: Option<nat>, phase: string)

  datatype Op = Start(bot: BotId) | Report(ev: Progress)

  function StatusOf(phase: string): Option<Status> {
    match phase
    case "fetching" => Some(Fetching)
    case "installing" => Some(Installing)
    case "live" => Some(Live)
    case "failed" => Some(Failed)
    case _ => None
  }

  predicate IsPending(s: Status) { s.Queued? || s.Fetching? || s.Installing? }

  // ---------- The SQL statements ----------

  function MaxNumber(ds: seq<Deploy>, b: BotId): int {
    if ds == [] then 0
    else
      var d, before := ds[|ds| - 1], MaxNumber(ds[..|ds| - 1], b);
      if d.bot == b && d.number > before then d.number else before
  }

  function Created(ds: seq<Deploy>, b: BotId): seq<Deploy> { ds + [Deploy(b, MaxNumber(ds, b) + 1, Queued)] }

  function WithStatus(ds: seq<Deploy>, id: nat, s: Status): seq<Deploy> {
    if id < |ds| then ds[id := ds[id].(status := s)] else ds
  }

  function SupersededRow(d: Deploy, i: nat, b: BotId, except: nat, live: bool): Deploy {
    if d.bot == b && i != except && (if live then d.status.Live? else IsPending(d.status)) then d.(status := Superseded) else d
  }

  /** The bot's live deploys, or its pending ones, but for one, become superseded. */
  function SupersedeAll(ds: seq<Deploy>, b: BotId, except: nat, live: bool): (r: seq<Deploy>)
    ensures |r| == |ds|
    ensures forall i :: 0 <= i < |ds| ==> r[i] == SupersededRow(ds[i], i, b, except, live)
  {
    seq(|ds|, i requires 0 <= i < |ds| => SupersededRow(ds[i], i, b, except, live))
  }

  /** The live deploy of a bot with the highest number. */
  predicate IsLastLive(ds: seq<Deploy>, b: BotId, id: Option<nat>) {
    match id
    case None => forall i :: 0 <= i < |ds| && ds[i].bot == b ==> !ds[i].status.Live?
    case Some(k) =>
      && k < |ds| && ds[k].bot == b && ds[k].status.Live?
      && forall i :: 0 <= i < |ds| && ds[i].bot == b && ds[i].status.Live? ==> ds[i].number <= ds[k].number
  }

  // ---------- The handlers ----------

  function SetCurrent(p: Panel, b: BotId, id: Option<nat>): Panel {
    if b in p.current then p.(current := p.current[b := id]) else p
  }

  function Started(p: Panel, b: BotId): Panel {
    var id := |p.deploys|;
    Panel(SupersedeAll(Created(p.deploys, b), b, id, false), p.current[b := Some(id)])
  }

  /** The effect of a report with a deploy id and a known phase. */
  ghost predicate Reported(p: Panel, b: BotId, id: nat, s: Status, t: Panel) {
    var ds := WithStatus(p.deploys, id, s);
    match s
    case Live => t == p.(deploys := SupersedeAll(ds, b, id, true))
    case Failed => exists last :: IsLastLive(ds, b, last) && t == SetCurrent(p.(deploys := ds), b, last)
    case _ => t == p.(deploys := ds)
  }

  ghost predicate Next(p: Panel, op: Op, t: Panel) {
    match op
    case Start(b) => t == if b in p.current then Started(p, b) else p
    case Report(ev) =>
      if ev.id.None? || StatusOf(ev.phase).None? then t == p
      else Reported(p, ev.bot, ev.id.value, StatusOf(ev.phase).value, t)
  }

  class Table {
    var deploys: seq<Deploy>
    var current: map<BotId, Option<nat>>

    ghost function View(): Panel
      reads this
    {
      Panel(deploys, current)
    }

    constructor (p: Panel)
      ensures View() == p
    {
      deploys, current := p.deploys, p.current;
    }

    method CreateDeploy(b: BotId) returns (id: nat)
      modifies this`deploys
      ensures id == |old(deploys)| && deploys == Created(old(deploys), b)
    {
      var max := 0;
      for i := 0 to |deploys|
        invariant max == MaxNumber(deploys[..i], b)
      {
        assert deploys[..i + 1][..i] == deploys[..i];
        if deploys[i].bot == b && deploys[i].number > max { max := deploys[i].number; }
      }
      assert deploys[..|deploys|] == deploys;
      id := |deploys|;
      deploys := deploys + [Deploy(b, max + 1, Queued)];
    }

    method Supersede(b: BotId, except: nat, live: bool)
      modifies this`deploys
      ensures deploys == SupersedeAll(old(deploys), b, except, live)
    {
      for i := 0 to |deploys|
        invariant |deploys| == |old(deploys)|
        invariant forall j :: 0 <= j < i ==> deploys[j] == SupersededRow(old(deploys)[j], j, b, except, live)
        invariant forall j :: i <= j < |deploys| ==> deploys[j] == old(deploys)[j]
      {
        deploys := deploys[i := SupersededRow(deploys[i], i, b, except, live)];
      }
    }

    method LastLiveDeploy(b: BotId) returns (id: Option<nat>)
      ensures IsLastLive(deploys, b, id)
    {
      id := None;
      for i := 0 to |deploys|
        invariant IsLastLive(deploys[..i], b, id)
      {
        var d := deploys[i];
        if d.bot == b && d.status.Live? && (id.None? || d.number > deploys[id.value].number) { id := Some(i); }
      }
      assert deploys[..|deploys|] == deploys;
    }

    /** Records a deploy, supersedes those still on their way, and makes it the bot's current one; all or nothing. */
    method StartDeploy(b: BotId) returns (id: Option<nat>)
      modifies this
      ensures Next(old(View()), Start(b), View())
      ensures id == if b in old(current) then Some(|old(deploys)|) else None
    {
      if b !in current { return None; }
      var new_ := CreateDeploy(b);
      Supersede(b, new_, false);
      current := current[b := Some(new_)];
      id := Some(new_);
    }

    method OnDeployProgress(ev: Progress)
      modifies this
      ensures Next(old(View()), Report(ev), View())
    {
      if ev.id.None? { return; }
      var id, status := ev.id.value, StatusOf(ev.phase);
      if status.None? { return; }
      if id < |deploys| { deploys := deploys[id := deploys[id].(status := status.value)]; }
      match status.value
      case Live => Supersede(ev.bot, id, true);
      case Failed =>
        var prev := LastLiveDeploy(ev.bot);
        assert IsLastLive(WithStatus(old(deploys), id, Failed), ev.bot, prev);
        if ev.bot in current { current := current[ev.bot := prev]; }
      case _ =>
    }
  }

  // ---------- What a report and a start do ----------

  /** The rows but one are as they were. */
  predicate OthersKept(was: seq<Deploy>, now: seq<Deploy>, id: nat) {
    |now| == |was| && forall i :: 0 <= i < |was| && i != id ==> now[i] == was[i]
  }

  /**
   * A report about the bot's own deploy, by its phase. Live: the deploy is live, the only one of the bot, and
   * stays current if it was. Failed: it has failed, and the bot goes back to its last live deploy, or to none.
   * On its way: only that it is. Anything else is ignored.
   */
  lemma OwnReport(p: Panel, ev: Progress, t: Panel)
    requires Next(p, Report(ev), t)
    requires ev.id.Some? && ev.id.value < |p.deploys| && p.deploys[ev.id.value].bot == ev.bot
    ensures |t.deploys| == |p.deploys|
    ensures forall i :: 0 <= i < |p.deploys| ==> t.deploys[i].bot == p.deploys[i].bot && t.deploys[i].number == p.deploys[i].number
    ensures ev.phase == "live" ==>
              && t.current == p.current && t.deploys[ev.id.value].status == Live
              && forall i :: 0 <= i < |p.deploys| && i != ev.id.value ==>
                   if p.deploys[i].bot == ev.bot && p.deploys[i].status == Live then t.deploys[i].status == Superseded else t.deploys[i] == p.deploys[i]
    ensures ev.phase == "failed" ==>
              && t.deploys[ev.id.value].status == Failed && OthersKept(p.deploys, t.deploys, ev.id.value)
              && t.current.Keys == p.current.Keys && (forall b :: b in p.current && b != ev.bot ==> t.current[b] == p.current[b])
              && (ev.bot in p.current ==> IsLastLive(t.deploys, ev.bot, t.current[ev.bot]))
    ensures ev.phase == "fetching" ==>
              t.current == p.current && t.deploys[ev.id.value].status == Fetching && OthersKept(p.deploys, t.deploys, ev.id.value)
    ensures ev.phase == "installing" ==>
              t.current == p.current && t.deploys[ev.id.value].status == Installing && OthersKept(p.deploys, t.deploys, ev.id.value)
    ensures ev.phase !in {"fetching", "installing", "live", "failed"} ==> t == p
  {
    hide IsLastLive;
  }

  /**
   * A new deploy is the bot's current one, queued, with a number above all its others; those of the bot that were
   * still on their way are superseded, and one that is live stays so, as does everything of other bots.
   */
  lemma NewDeploy(p: Panel, b: BotId, t: Panel)
    requires Next(p, Start(b), t)
    ensures b !in p.current ==> t == p
    ensures b in p.current ==>
              && |t.deploys| == |p.deploys| + 1 && t.current == p.current[b := Some(|p.deploys|)]
              && t.deploys[|p.deploys|].bot == b && t.deploys[|p.deploys|].status == Queued
              && (forall i :: 0 <= i < |p.deploys| && p.deploys[i].bot == b ==> p.deploys[i].number < t.deploys[|p.deploys|].number)
              && forall i :: 0 <= i < |p.deploys| ==>
                   if p.deploys[i].bot == b && p.deploys[i].status in {Queued, Fetching, Installing} then t.deploys[i] == p.deploys[i].(status := Superseded)
                   else t.deploys[i] == p.deploys[i]
  {
    MaxNumberIs(p.deploys, b);
  }

  lemma {:induction false} MaxNumberIs(ds: seq<Deploy>, b: BotId)
    ensures MaxNumber(ds, b) >= 0
    ensures forall i :: 0 <= i < |ds| && ds[i].bot == b ==> ds[i].number <= MaxNumber(ds, b)
    ensures MaxNumber(ds, b) == 0 || exists i :: 0 <= i < |ds| && ds[i].bot == b && ds[i].number == MaxNumber(ds, b)
  {
    if ds != [] {
      var n := |ds| - 1;
      MaxNumberIs(ds[..n], b);
      if MaxNumber(ds, b) > 0 && MaxNumber(ds, b) == MaxNumber(ds[..n], b) {
        var i :| 0 <= i < n && ds[..n][i].bot == b && ds[..n][i].number == MaxNumber(ds[..n], b);
        assert ds[i].bot == b && ds[i].number == MaxNumber(ds, b);
      }
    }
  }

  // ---------- Over every run ----------

  function CountOf(ds: seq<Deploy>, n: nat, b: BotId): nat
    requires n <= |ds|
  {
    if n == 0 then 0 else CountOf(ds, n - 1, b) + if ds[n - 1].bot == b then 1 else 0
  }

  /** Each bot's deploys are numbered 1, 2, 3, ... in the order they were created. */
  predicate Numbered(ds: seq<Deploy>) {
    forall i: nat :: i < |ds| ==> ds[i].number == CountOf(ds, i, ds[i].bot) + 1
  }

  predicate OneLive(ds: seq<Deploy>) {
    forall i, j :: 0 <= i < j < |ds| && ds[i].bot == ds[j].bot ==> !(ds[i].status.Live? && ds[j].status.Live?)
  }

  /** A bot's current deploy is none, or one of its own that has not failed. */
  predicate CurrentOk(p: Panel, b: BotId)
    requires b in p.current
  {
    p.current[b].Some? ==>
      var id := p.current[b].value;
      id < |p.deploys| && p.deploys[id].bot == b && !p.deploys[id].status.Failed?
  }

  predicate Ok(p: Panel) {
    && Numbered(p.deploys)
    && OneLive(p.deploys)
    && forall b :: b in p.current ==> CurrentOk(p, b)
  }

  lemma {:induction false} CountSame(a: seq<Deploy>, c: seq<Deploy>, n: nat, b: BotId)
    requires n <= |a| && n <= |c| && forall i :: 0 <= i < n ==> a[i].bot == c[i].bot
    ensures CountOf(a, n, b) == CountOf(c, n, b)
  {
    if n > 0 { CountSame(a, c, n - 1, b); }
  }

  lemma {:induction false} CountMonotone(ds: seq<Deploy>, m: nat, n: nat, b: BotId)
    requires m <= n <= |ds|
    ensures CountOf(ds, m, b) <= CountOf(ds, n, b)
  {
    if m < n { CountMonotone(ds, m, n - 1, b); }
  }

  lemma {:induction false} MaxIsCount(ds: seq<Deploy>, b: BotId)
    requires Numbered(ds)
    ensures MaxNumber(ds, b) == CountOf(ds, |ds|, b)
  {
    if ds != [] {
      var n := |ds| - 1;
      var less := ds[..n];
      forall i: nat | i < n ensures less[i].number == CountOf(less, i, less[i].bot) + 1 { CountSame(less, ds, i, ds[i].bot); }
      MaxIsCount(less, b);
      CountSame(less, ds, n, b);
    }
  }

  /** Changing statuses changes no number. */
  lemma SameNumbers(ds: seq<Deploy>, es: seq<Deploy>)
    requires Numbered(ds) && |es| == |ds|
    requires forall i :: 0 <= i < |ds| ==> es[i].bot == ds[i].bot && es[i].number == ds[i].number
    ensures Numbered(es)
  {
    forall i: nat | i < |es| ensures es[i].number == CountOf(es, i, es[i].bot) + 1 { CountSame(ds, es, i, ds[i].bot); }
  }

  lemma CreatedNumbered(ds: seq<Deploy>, b: BotId)
    requires Numbered(ds)
    ensures Numbered(Created(ds, b))
  {
    var es := Created(ds, b);
    MaxIsCount(ds, b);
    forall i: nat | i < |es| ensures es[i].number == CountOf(es, i, es[i].bot) + 1 { CountSame(ds, es, i, es[i].bot); }
  }

  /** Numbers in creation order are different, and higher for later deploys. */
  lemma NumberedOrdered(ds: seq<Deploy>, i: nat, j: nat)
    requires Numbered(ds) && i < j < |ds| && ds[i].bot == ds[j].bot
    ensures ds[i].number < ds[j].number
  {
    CountMonotone(ds, i + 1, j, ds[i].bot);
  }

  lemma {:induction false} StartOk(p: Panel, b: BotId)
    requires Ok(p) && b in p.current
    ensures Ok(Started(p, b))
  {
    CreatedNumbered(p.deploys, b);
    var t := Started(p, b);
    SameNumbers(Created(p.deploys, b), t.deploys);
  }

  lemma {:induction false} LiveReportOk(p: Panel, b: BotId, id: nat)
    requires Ok(p) && (id < |p.deploys| ==> p.deploys[id].bot == b)
    ensures Ok(p.(deploys := SupersedeAll(WithStatus(p.deploys, id, Live), b, id, true)))
  {
    SameNumbers(p.deploys, SupersedeAll(WithStatus(p.deploys, id, Live), b, id, true));
    hide Numbered;
  }

  lemma {:induction false} OtherReportOk(p: Panel, b: BotId, id: nat, s: Status)
    requires Ok(p) && (id < |p.deploys| ==> p.deploys[id].bot == b) && !s.Live?
    ensures Numbered(WithStatus(p.deploys, id, s)) && OneLive(WithStatus(p.deploys, id, s))
    ensures forall c :: c in p.current && (s.Failed? ==> c != b) ==> CurrentOk(p.(deploys := WithStatus(p.deploys, id, s)), c)
  {
    SameNumbers(p.deploys, WithStatus(p.deploys, id, s));
    hide Numbered;
    forall c | c in p.current && (s.Failed? ==> c != b)
      ensures CurrentOk(p.(deploys := WithStatus(p.deploys, id, s)), c)
    {
      assert CurrentOk(p, c);
    }
  }

  lemma {:induction false} ReportOk(p: Panel, b: BotId, id: nat, s: Status, t: Panel)
    requires Ok(p) && Reported(p, b, id, s, t)
    requires id < |p.deploys| ==> p.deploys[id].bot == b
    ensures Ok(t)
  {
    if s.Live? {
      LiveReportOk(p, b, id);
    } else {
      OtherReportOk(p, b, id, s);
      hide Numbered, OneLive;
      var ds := WithStatus(p.deploys, id, s);
      if s.Failed? {
        var last :| IsLastLive(ds, b, last) && t == SetCurrent(p.(deploys := ds), b, last);
        forall c | c in t.current
          ensures CurrentOk(t, c)
        {
          if c != b { assert CurrentOk(p.(deploys := ds), c); }
        }
      }
    }
  }

  /** With at most one live deploy, the last live deploy is the live one, and none if there is none. */
  lemma LastLiveIsTheLiveOne(p: Panel, b: BotId, id: Option<nat>)
    requires Ok(p)
    ensures IsLastLive(p.deploys, b, id) <==>
              && (id.Some? ==> id.value < |p.deploys| && p.deploys[id.value].bot == b)
              && forall i: nat :: i < |p.deploys| && p.deploys[i].bot == b ==> (p.deploys[i].status.Live? <==> id == Some(i))
  {
  }

  /**
   * "The newest deploy is the current one until it fails" is false: a failed report for any other deploy of
   * the bot, superseded ones included, takes the bot off a deploy that is still on its way, and leaves that one pending.
   */
  lemma {:induction false} LateFailureAbandonsNewest(p: Panel, b: BotId, id: nat, t: Panel)
    requires b in p.current && p.current[b].Some?
    requires p.current[b].value < |p.deploys| && IsPending(p.deploys[p.current[b].value].status)
    requires id < |p.deploys| && p.deploys[id].bot == b
    requires Reported(p, b, id, Failed, t)
    ensures t.current[b] != p.current[b]
    ensures var newest := p.current[b].value; IsPending(t.deploys[newest].status) <==> id != newest
  {
  }

  /**
   * Which reports that name another bot than their deploy's break this: exactly those that make a second deploy
   * of its bot live, or fail the one its bot is on.
   */
  predicate Breaks(p: Panel, id: nat, s: Status)
    requires id < |p.deploys|
  {
    var b := p.deploys[id].bot;
    if s.Live? then exists j :: 0 <= j < |p.deploys| && j != id && p.deploys[j].bot == b && p.deploys[j].status.Live?
    else s.Failed? && b in p.current && p.current[b] == Some(id)
  }

  lemma {:induction false} MismatchBreaksIff(p: Panel, b: BotId, id: nat, s: Status, t: Panel)
    requires Ok(p) && Reported(p, b, id, s, t)
    requires id < |p.deploys| && p.deploys[id].bot != b
    ensures Ok(t) <==> !Breaks(p, id, s)
  {
    if s.Live? {
      LiveMismatch(p, b, id);
    } else {
      SameNumbers(p.deploys, WithStatus(p.deploys, id, s));
      NotLiveMismatch(p, b, id, s, t);
    }
  }

  lemma LiveMismatch(p: Panel, b: BotId, id: nat)
    requires Ok(p) && id < |p.deploys| && p.deploys[id].bot != b
    ensures Ok(p.(deploys := SupersedeAll(WithStatus(p.deploys, id, Live), b, id, true))) <==> !Breaks(p, id, Live)
  {
    var es := SupersedeAll(WithStatus(p.deploys, id, Live), b, id, true);
    var t := p.(deploys := es);
    SameNumbers(p.deploys, es);
    hide Numbered;
    forall c | c in t.current ensures CurrentOk(t, c) { assert CurrentOk(p, c); }
    if Breaks(p, id, Live) {
      var j :| 0 <= j < |p.deploys| && j != id && p.deploys[j].bot == p.deploys[id].bot && p.deploys[j].status.Live?;
      assert es[j].status.Live? && es[id].status.Live? && es[j].bot == es[id].bot;
    } else {
      forall i, j | 0 <= i < j < |es| && es[i].bot == es[j].bot ensures !(es[i].status.Live? && es[j].status.Live?) {
        assert i != id && j != id ==> !(p.deploys[i].status.Live? && p.deploys[j].status.Live?);
      }
    }
  }

  lemma NotLiveMismatch(p: Panel, b: BotId, id: nat, s: Status, t: Panel)
    requires Ok(p) && Reported(p, b, id, s, t) && !s.Live?
    requires id < |p.deploys| && p.deploys[id].bot != b && Numbered(WithStatus(p.deploys, id, s))
    ensures Ok(t) <==> !Breaks(p, id, s)
  {
    hide Numbered;
    var ds := WithStatus(p.deploys, id, s);
    assert OneLive(ds);
    hide OneLive;
    if s.Failed? {
      var last :| IsLastLive(ds, b, last) && t == SetCurrent(p.(deploys := ds), b, last);
      forall c | c in t.current && c != b ensures CurrentOk(t, c) <==> p.current[c] != Some(id) { assert CurrentOk(p, c); }
      forall c | c in t.current && c != p.deploys[id].bot ensures CurrentOk(t, c) { assert CurrentOk(p, c); }
      assert b in t.current ==> CurrentOk(t, b);
    } else {
      forall c | c in t.current ensures CurrentOk(t, c) { assert CurrentOk(p, c); }
    }
  }

  /** The report is about a deploy of the bot it names, or does no harm to the bot whose deploy it is. */
  predicate Harmless(p: Panel, op: Op) {
    op.Report? && op.ev.id.Some? && op.ev.id.value < |p.deploys| && StatusOf(op.ev.phase).Some? ==>
      p.deploys[op.ev.id.value].bot == op.ev.bot || !Breaks(p, op.ev.id.value, StatusOf(op.ev.phase).value)
  }

  lemma StepOkIff(p: Panel, op: Op, t: Panel)
    requires Ok(p) && Next(p, op, t)
    ensures Ok(t) <==> Harmless(p, op)
  {
    hide Ok, Started, Reported, Breaks;
    match op
    case Start(b) => if b in p.current { StartOk(p, b); }
    case Report(ev) =>
      if ev.id.Some? && StatusOf(ev.phase).Some? {
        var id, s := ev.id.value, StatusOf(ev.phase).value;
        if id < |p.deploys| && p.deploys[id].bot != ev.bot { MismatchBreaksIff(p, ev.bot, id, s, t); } else { ReportOk(p, ev.bot, id, s, t); }
      }
  }

  ghost predicate Run(p: Panel, ops: seq<Op>, ps: seq<Panel>) {
    && |ps| == |ops| + 1 && ps[0] == p
    && forall k :: 0 <= k < |ops| ==> Next(ps[k], ops[k], ps[k + 1])
  }

  lemma {:induction false} HarmlessStaysOk(p: Panel, ops: seq<Op>, ps: seq<Panel>, k: nat)
    requires Ok(p) && Run(p, ops, ps) && k <= |ops| && forall j :: 0 <= j < |ops| ==> Harmless(ps[j], ops[j])
    ensures Ok(ps[k])
  {
    if k > 0 {
      HarmlessStaysOk(p, ops, ps, k - 1);
      assert Next(ps[k - 1], ops[k - 1], ps[k - 1 + 1]) && Harmless(ps[k - 1], ops[k - 1]);
      StepOkIff(ps[k - 1], ops[k - 1], ps[k]);
    }
  }

  /**
   * Under any order of reports and new deploys: each bot's deploys are numbered 1 to n in the order they were
   * created, at most one of them is live, and the bot's current deploy is none or one of its own that has not
   * failed, at every moment exactly if every report is harmless. A report about the bot's own deploy always is.
   */
  lemma DeploysStayOkIff(p: Panel, ops: seq<Op>, ps: seq<Panel>)
    requires Ok(p) && Run(p, ops, ps)
    ensures (forall k :: 0 <= k <= |ops| ==> Ok(ps[k])) <==> (forall k :: 0 <= k < |ops| ==> Harmless(ps[k], ops[k]))
  {
    hide Ok, Harmless, Next;
    if forall k :: 0 <= k < |ops| ==> Harmless(ps[k], ops[k]) {
      forall k | 0 <= k <= |ops| ensures Ok(ps[k]) { HarmlessStaysOk(p, ops, ps, k); }
    }
    if forall k :: 0 <= k <= |ops| ==> Ok(ps[k]) {
      forall k | 0 <= k < |ops| ensures Harmless(ps[k], ops[k]) {
        assert Ok(ps[k]) && Ok(ps[k + 1]) && Next(ps[k], ops[k], ps[k + 1]);
        StepOkIff(ps[k], ops[k], ps[k + 1]);
      }
    }
  }
}
