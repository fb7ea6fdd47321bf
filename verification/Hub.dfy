/**
 * From the panel's tables to a node: the spec built from each bot's row, the set sent when an agent
 * connects, and what the node's runtime ends up with.
 */
module Hub {

  import opened Options
  import opened Proto
  import opened BotWorker
  import opened Reconciler
  import opened SyncConvergence

  /** A bot's row, with what is joined to it; `env` is none if a value cannot be decrypted. */
  datatype Row = Row(
    id: string,
    name: string,
    uidSeq: int,
    template: string,
    memoryMb: int,
    cpuMillicores: int,
    diskMb: int,
    pidsMax: int,
    hardened: bool,
    stopped: bool,
    subscriptionActive: bool,
    ownerSuspended: bool,
    currentDeploy: Option<string>,
    artifactSha256: Option<string>,
    env: Option<map<string, string>>)

  type Templates = map<string, Template>

  const UID_BASE := 100000

  predicate IsHexDigit(c: char) { '0' <= c <= '9' || 'a' <= c <= 'f' }

  predicate IsUuid(s: string) {
    && |s| == 36
    && forall i :: 0 <= i < 36 ==> if i == 8 || i == 13 || i == 18 || i == 23 then s[i] == '-' else IsHexDigit(s[i])
  }

  predicate IsEnvKey(k: string) {
    k != "" && forall i :: 0 <= i < |k| ==> IsAlphaNum(k[i]) || k[i] == '_'
  }

  /** What the tables' constraints and the checks before every write make sure of. */
  predicate ValidRow(r: Row) {
    && IsUuid(r.id) && 1 <= r.uidSeq <= MAX_UID - UID_BASE
    && r.memoryMb >= 64 && r.cpuMillicores >= 50 && r.diskMb >= 128 && 16 <= r.pidsMax <= 4096
    && (r.currentDeploy.Some? ==> IsUuid(r.currentDeploy.value))
    && (r.artifactSha256.Some? ==> |r.artifactSha256.value| == 64)
    && (r.env.Some? ==> forall k :: k in r.env.value ==> IsEnvKey(k))
  }

  /** The built-in templates have an image and a start command. */
  predicate GoodTemplates(ts: Templates) {
    forall k :: k in ts ==> ts[k].image != "" && !ContainsAny(ts[k].image, " \t\n?#") && !IsBlank(ts[k].start)
  }

  predicate CanBuild(r: Row, ts: Templates) { r.template in ts && r.env.Some? }

  function BuildSpec(r: Row, ts: Templates): BotSpec
    requires CanBuild(r, ts)
  {
    var deployed := r.currentDeploy.Some? && r.artifactSha256.Some?;
    BotSpec(
      r.id, r.name, UID_BASE + r.uidSeq,
      if deployed then r.currentDeploy.value else "",
      if deployed then "/agent/v1/artifacts/" + r.currentDeploy.value else "",
      if deployed then r.artifactSha256.value else "",
      ts[r.template],
      Limits(r.memoryMb, r.cpuMillicores, r.diskMb, r.pidsMax),
      r.hardened, r.env.value,
      if r.stopped || !r.subscriptionActive || r.ownerSuspended then STOPPED else RUNNING)
  }

  // ---------- What a spec says of its bot ----------

  /** A bot is to run exactly if it is not stopped itself, its subscription is active and its owner is not suspended. */
  predicate IsToRun(r: Row) { !r.stopped && r.subscriptionActive && !r.ownerSuspended }

  /** There is something to deploy: a current deploy, and the artifact it was made from. */
  predicate HasDeploy(r: Row) { r.currentDeploy.Some? && r.artifactSha256.Some? }

  /** What the node is told about a bot, in terms of the bot's row. */
  predicate Tells(spec: BotSpec, r: Row, ts: Templates) {
    && spec.botId == r.id && spec.name == r.name && spec.uid == 100000 + r.uidSeq
    && spec.desired == (if IsToRun(r) then "running" else "stopped")
    && spec.limits.memoryMb == r.memoryMb && spec.limits.cpuMillicores == r.cpuMillicores
    && spec.limits.diskMb == r.diskMb && spec.limits.pids == r.pidsMax
    && spec.hardened == r.hardened && r.env == Some(spec.env)
    && r.template in ts && spec.template == ts[r.template]
    && (spec.deployId != "" ==> HasDeploy(r) && spec.artifactSha256 == r.artifactSha256.value && spec.artifactPath == "/agent/v1/artifacts/" + spec.deployId)
    && (HasDeploy(r) ==> spec.deployId == r.currentDeploy.value)
    && (!HasDeploy(r) ==> spec.artifactPath == "" && spec.artifactSha256 == "")
  }

  /** One of the specs tells about this row; this spec tells about one of the rows. */
  predicate IsTold(r: Row, specs: seq<BotSpec>, ts: Templates) { exists k :: 0 <= k < |specs| && Tells(specs[k], r, ts) }

  predicate TellsOne(spec: BotSpec, rows: seq<Row>, ts: Templates) { exists i :: 0 <= i < |rows| && Tells(spec, rows[i], ts) }

  lemma BuiltTells(r: Row, ts: Templates)
    requires CanBuild(r, ts)
    ensures Tells(BuildSpec(r, ts), r, ts)
  {
  }

  lemma UuidIsBotId(s: string)
    requires IsUuid(s)
    ensures ValidBotId(s)
  {
  }

  lemma EnvKeyIsClean(k: string)
    requires IsEnvKey(k)
    ensures !ContainsAny(k, "=\0")
  {
  }

  predicate NulFree(env: map<string, string>) { forall k :: k in env ==> !ContainsAny(env[k], "\0") }

  /**
   * "A spec the panel builds passes the agent's checks" holds exactly if no environment value has a NUL in
   * it: names are checked on both sides, values only by the agent.
   */
  lemma BuiltSpecValidIff(r: Row, ts: Templates)
    requires ValidRow(r) && GoodTemplates(ts) && CanBuild(r, ts)
    ensures ValidSpec(BuildSpec(r, ts)) <==> NulFree(r.env.value)
  {
    UuidIsBotId(r.id);
    if r.currentDeploy.Some? { UuidIsBotId(r.currentDeploy.value); }
    forall k | k in r.env.value ensures k != "" && !ContainsAny(k, "=\0") { EnvKeyIsClean(k); }
    hide ValidBotId, ContainsAny, IsBlank;
  }

  /** The specs of the rows that can be built; the others are left out. */
  function Specs(rows: seq<Row>, ts: Templates): seq<BotSpec> {
    if rows == [] then []
    else
      var r, before := rows[|rows| - 1], Specs(rows[..|rows| - 1], ts);
      if CanBuild(r, ts) then before + [BuildSpec(r, ts)] else before
  }

  // ---------- What a node ends up with ----------

  predicate DistinctRows(rows: seq<Row>) { forall i, j :: 0 <= i < j < |rows| ==> rows[i].id != rows[j].id }

  lemma {:induction false} SpecOfRow(rows: seq<Row>, ts: Templates, i: nat)
    requires i < |rows| && CanBuild(rows[i], ts)
    ensures exists k :: 0 <= k < |Specs(rows, ts)| && Specs(rows, ts)[k] == BuildSpec(rows[i], ts)
  {
    hide BuildSpec;
    var n := |rows| - 1;
    if i < n {
      SpecOfRow(rows[..n], ts, i);
      var k :| 0 <= k < |Specs(rows[..n], ts)| && Specs(rows[..n], ts)[k] == BuildSpec(rows[..n][i], ts);
      assert Specs(rows, ts)[k] == BuildSpec(rows[i], ts);
    } else {
      assert Specs(rows, ts)[|Specs(rows, ts)| - 1] == BuildSpec(rows[i], ts);
    }
  }

  /** Bots have different uids: their numbers are a sequence's. */
  predicate DistinctUids(rows: seq<Row>) { forall i, j :: 0 <= i < j < |rows| ==> rows[i].uidSeq != rows[j].uidSeq }

  /**
   * The set sent to a node: one spec of each row whose template is known and whose environment can be
   * decrypted, and nothing else. No two bots share a uid.
   */
  method SyncSet(rows: seq<Row>, ts: Templates) returns (specs: seq<BotSpec>)
    ensures specs == Specs(rows, ts)
    ensures forall i :: 0 <= i < |rows| && rows[i].template in ts && rows[i].env.Some? ==>
              IsTold(rows[i], specs, ts)
    ensures forall k :: 0 <= k < |specs| ==> TellsOne(specs[k], rows, ts)
    ensures DistinctRows(rows) ==> forall j, k :: 0 <= j < k < |specs| ==> specs[j].botId != specs[k].botId
    ensures DistinctUids(rows) ==> forall j, k :: 0 <= j < k < |specs| ==> specs[j].uid != specs[k].uid
  {
    hide BuildSpec, CanBuild;
    specs := [];
    for i := 0 to |rows|
      invariant specs == Specs(rows[..i], ts)
    {
      assert rows[..i + 1][..i] == rows[..i];
      if CanBuild(rows[i], ts) { specs := specs + [BuildSpec(rows[i], ts)]; }
    }
    assert rows[..|rows|] == rows;
    SpecsTell(rows, ts);
    if DistinctRows(rows) { SpecsDistinct(rows, ts); }
    if DistinctUids(rows) { UidsDistinct(rows, ts); }
  }

  lemma SpecsTell(rows: seq<Row>, ts: Templates)
    ensures forall i :: 0 <= i < |rows| && rows[i].template in ts && rows[i].env.Some? ==>
              IsTold(rows[i], Specs(rows, ts), ts)
    ensures forall k :: 0 <= k < |Specs(rows, ts)| ==> TellsOne(Specs(rows, ts)[k], rows, ts)
  {
    hide BuildSpec, Tells;
    forall i | 0 <= i < |rows| && rows[i].template in ts && rows[i].env.Some?
      ensures IsTold(rows[i], Specs(rows, ts), ts)
    {
      SpecOfRow(rows, ts, i);
      BuiltTells(rows[i], ts);
    }
    forall k | 0 <= k < |Specs(rows, ts)|
      ensures TellsOne(Specs(rows, ts)[k], rows, ts)
    {
      RowOfSpec(rows, ts, k);
      var i :| 0 <= i < |rows| && CanBuild(rows[i], ts) && Specs(rows, ts)[k] == BuildSpec(rows[i], ts);
      BuiltTells(rows[i], ts);
      assert Tells(Specs(rows, ts)[k], rows[i], ts);
    }
  }

  lemma {:induction false} RowOfSpec(rows: seq<Row>, ts: Templates, k: nat)
    requires k < |Specs(rows, ts)|
    ensures exists i :: 0 <= i < |rows| && CanBuild(rows[i], ts) && Specs(rows, ts)[k] == BuildSpec(rows[i], ts)
  {
    hide BuildSpec;
    var n := |rows| - 1;
    var before := Specs(rows[..n], ts);
    if k < |before| {
      RowOfSpec(rows[..n], ts, k);
      var i :| 0 <= i < n && CanBuild(rows[..n][i], ts) && before[k] == BuildSpec(rows[..n][i], ts);
      assert CanBuild(rows[i], ts) && Specs(rows, ts)[k] == BuildSpec(rows[i], ts);
    } else {
      assert CanBuild(rows[n], ts) && Specs(rows, ts)[k] == BuildSpec(rows[n], ts);
    }
  }

  lemma {:induction false} SpecsDistinct(rows: seq<Row>, ts: Templates)
    requires DistinctRows(rows)
    ensures forall j, k :: 0 <= j < k < |Specs(rows, ts)| ==> Specs(rows, ts)[j].botId != Specs(rows, ts)[k].botId
  {
    if rows != [] {
      var n := |rows| - 1;
      SpecsDistinct(rows[..n], ts);
      var before := Specs(rows[..n], ts);
      forall j | 0 <= j < |before| && CanBuild(rows[n], ts)
        ensures before[j].botId != rows[n].id
      {
        RowOfSpec(rows[..n], ts, j);
        var i :| 0 <= i < n && CanBuild(rows[..n][i], ts) && before[j] == BuildSpec(rows[..n][i], ts);
        assert rows[i].id != rows[n].id;
      }
    }
  }

  lemma {:induction false} UidsDistinct(rows: seq<Row>, ts: Templates)
    requires DistinctUids(rows)
    ensures forall j, k :: 0 <= j < k < |Specs(rows, ts)| ==> Specs(rows, ts)[j].uid != Specs(rows, ts)[k].uid
  {
    if rows != [] {
      var n := |rows| - 1;
      UidsDistinct(rows[..n], ts);
      var before := Specs(rows[..n], ts);
      forall j | 0 <= j < |before| && CanBuild(rows[n], ts)
        ensures before[j].uid != BuildSpec(rows[n], ts).uid
      {
        RowOfSpec(rows[..n], ts, j);
        var i :| 0 <= i < n && CanBuild(rows[..n][i], ts) && before[j] == BuildSpec(rows[..n][i], ts);
        assert rows[i].uidSeq != rows[n].uidSeq;
      }
    }
  }

  /** A wanted bot is one a valid spec was sent for. */
  lemma {:induction false} WantedFrom(bots: seq<BotSpec>, b: BotId)
    requires b in Wanted(bots)
    ensures exists k :: 0 <= k < |bots| && bots[k].botId == b && ValidSpec(bots[k])
  {
    hide ValidSpec;
    var n := |bots| - 1;
    if ValidSpec(bots[n]) && bots[n].botId == b {
      assert bots[n].botId == b;
    } else {
      WantedFrom(bots[..n], b);
      var k :| 0 <= k < n && bots[..n][k].botId == b && ValidSpec(bots[..n][k]);
      assert bots[k].botId == b;
    }
  }

  /** A row whose bot can be run: its spec can be built, and has no NUL in its environment. */
  predicate IsSound(r: Row, ts: Templates) { r.template in ts && r.env.Some? && NulFree(r.env.value) }

  /**
   * From the panel's rows to the node's runtime: once a sync of all rows of a node has drained without a
   * failure, each bot whose spec can be built and has no NUL in its environment is there on a spec that tells
   * just what its row says, and every bot there is one of the rows whose spec can be built. So a bot whose
   * template is gone or whose environment cannot be decrypted is removed, with its disk.
   */
  lemma NodeHoldsItsRows(s: System, rows: seq<Row>, ts: Templates, ms: seq<Move>, t: System)
    requires DistinctRows(rows) && GoodTemplates(ts) && forall i :: 0 <= i < |rows| ==> ValidRow(rows[i])
    requires Inv(s) && SyncRun(s, Sending(0), Specs(rows, ts), ms, t, Removals({})) && Quiescent(t)
    ensures forall i :: 0 <= i < |rows| && IsSound(rows[i], ts) ==>
              rows[i].id in t.rt && t.rt[rows[i].id].spec.Some? && Tells(t.rt[rows[i].id].spec.value, rows[i], ts)
    ensures forall b :: b in t.rt ==> exists i :: 0 <= i < |rows| && rows[i].id == b && rows[i].template in ts && rows[i].env.Some?
    ensures forall i :: 0 <= i < |rows| && !(rows[i].template in ts && rows[i].env.Some?) ==> rows[i].id !in t.rt
  {
    hide Inv, SyncRun, Quiescent, Specs, Wanted, Keep, BuildSpec, ValidRow, GoodTemplates, NulFree, DistinctRows, Tells;
    SyncConverges(s, Specs(rows, ts), ms, t);
    forall i | 0 <= i < |rows| && IsSound(rows[i], ts)
      ensures rows[i].id in t.rt && t.rt[rows[i].id].spec.Some? && Tells(t.rt[rows[i].id].spec.value, rows[i], ts)
    {
      RowIsWanted(rows, ts, i);
      BuiltTells(rows[i], ts);
    }
    forall b | b in t.rt
      ensures exists i :: 0 <= i < |rows| && rows[i].id == b && CanBuild(rows[i], ts)
    {
      KeptRow(rows, ts, b);
    }
    forall i | 0 <= i < |rows| && !CanBuild(rows[i], ts)
      ensures rows[i].id !in t.rt
    {
      UnbuiltIsNotKept(rows, ts, i);
    }
  }

  /**
   * And its run state: unless a restart or an exit was waiting, or its worker took its spec as applied while the
   * container was in another run state, a bot is not down in the end if it is to run, and not up if it is not.
   */
  lemma NodeRunsItsRows(s: System, rows: seq<Row>, ts: Templates, ms: seq<Move>, t: System, i: nat)
    requires DistinctRows(rows) && GoodTemplates(ts) && i < |rows| && ValidRow(rows[i]) && IsSound(rows[i], ts)
    requires Inv(s) && TableInRange(s) && SyncRun(s, Sending(0), Specs(rows, ts), ms, t, Removals({})) && Quiescent(t)
    requires SyncAsAsked(s, Sending(0), Specs(rows, ts), ms)
    requires rows[i].id in s.table ==>
               && NothingWaits(WorkerOf(s, rows[i].id).value)
               && forall want :: Tells(want, rows[i], ts) ==> !Stale(WorkerOf(s, rows[i].id).value, RtOf(s, rows[i].id), want)
    ensures rows[i].id in t.rt
    ensures if !rows[i].stopped && rows[i].subscriptionActive && !rows[i].ownerSuspended then !t.rt[rows[i].id].container.Down?
            else !t.rt[rows[i].id].container.Up?
  {
    RowIsWanted(rows, ts, i);
    BuiltTells(rows[i], ts);
    hide Inv, SyncRun, Quiescent, Specs, Wanted, Keep, BuildSpec, ValidRow, GoodTemplates, NulFree, DistinctRows, SyncAsAsked, NothingWaits, Stale;
    SyncSettlesRunState(s, Specs(rows, ts), ms, t, rows[i].id);
  }

  lemma UnbuiltIsNotKept(rows: seq<Row>, ts: Templates, i: nat)
    requires DistinctRows(rows) && i < |rows| && !CanBuild(rows[i], ts)
    ensures rows[i].id !in Keep(Specs(rows, ts))
  {
    hide Specs, Keep, CanBuild;
    if rows[i].id in Keep(Specs(rows, ts)) { KeptRow(rows, ts, rows[i].id); }
  }

  lemma RowIsWanted(rows: seq<Row>, ts: Templates, i: nat)
    requires DistinctRows(rows) && GoodTemplates(ts) && i < |rows| && ValidRow(rows[i])
    requires CanBuild(rows[i], ts) && NulFree(rows[i].env.value)
    ensures rows[i].id in Wanted(Specs(rows, ts)) && Wanted(Specs(rows, ts))[rows[i].id] == BuildSpec(rows[i], ts)
  {
    BuiltSpecValidIff(rows[i], ts);
    SpecOfRow(rows, ts, i);
    SpecsDistinct(rows, ts);
    hide ValidSpec, Specs, Wanted, ValidRow, GoodTemplates, NulFree;
    var k :| 0 <= k < |Specs(rows, ts)| && Specs(rows, ts)[k] == BuildSpec(rows[i], ts);
    WantedWhenDistinct(Specs(rows, ts), k);
  }

  lemma KeptRow(rows: seq<Row>, ts: Templates, b: BotId)
    requires b in Keep(Specs(rows, ts))
    ensures exists i :: 0 <= i < |rows| && rows[i].id == b && CanBuild(rows[i], ts)
  {
    hide Specs, ValidBotId;
    var k :| 0 <= k < |Specs(rows, ts)| && Specs(rows, ts)[k].botId == b;
    RowOfSpec(rows, ts, k);
  }

  /** A bot whose environment has a NUL in it is asked nothing by the sync: it stays as it was. */
  lemma NulLeavesBotAlone(s: System, rows: seq<Row>, ts: Templates, ms: seq<Move>, t: System, ph: Phase, i: nat)
    requires DistinctRows(rows) && GoodTemplates(ts) && i < |rows| && ValidRow(rows[i])
    requires CanBuild(rows[i], ts) && !NulFree(rows[i].env.value)
    requires Inv(s) && SyncRun(s, Sending(0), Specs(rows, ts), ms, t, ph)
    ensures LogOf(t, rows[i].id) == LogOf(s, rows[i].id)
  {
    hide Inv, SyncRun, SyncInv, Specs, Wanted, Keep, ValidSpec, ValidBotId, ValidRow, GoodTemplates, NulFree, DistinctRows;
    StartsInv(s, Specs(rows, ts));
    NulIsKept(rows, ts, i);
    InvalidSpecLeftAlone(s, Sending(0), Specs(rows, ts), ms, t, ph, rows[i].id);
  }

  lemma NulIsKept(rows: seq<Row>, ts: Templates, i: nat)
    requires DistinctRows(rows) && GoodTemplates(ts) && i < |rows| && ValidRow(rows[i])
    requires CanBuild(rows[i], ts) && !NulFree(rows[i].env.value)
    ensures rows[i].id in Keep(Specs(rows, ts)) && rows[i].id !in Wanted(Specs(rows, ts))
  {
    var bots, b := Specs(rows, ts), rows[i].id;
    BuiltSpecValidIff(rows[i], ts);
    UuidIsBotId(b);
    SpecOfRow(rows, ts, i);
    SpecsDistinct(rows, ts);
    hide Specs, Wanted, ValidSpec, ValidBotId, ValidRow, GoodTemplates, NulFree, DistinctRows;
    var k :| 0 <= k < |bots| && bots[k] == BuildSpec(rows[i], ts);
    assert ValidBotId(bots[k].botId);
    if b in Wanted(bots) { WantedFrom(bots, b); }
  }

  lemma StartsInv(s: System, bots: seq<BotSpec>)
    requires Inv(s)
    ensures SyncInv(s, Sending(0), bots)
  {
    assert bots[..0] == [];
    hide Inv;
  }
}
