/**
 * The Docker runtime for one bot: Apply converges volume, code, container and run state onto a spec;
 * Restart and Remove are the other two calls a worker makes. Every engine call may fail, per call
 * site, and a started container may exit at once.
 */
module DockerRuntime {

  import opened Options
  import opened Proto
  import opened BotVolume

  const DEFAULT_PIDS := 128

  /** What of a container's configuration depends on the spec; it carries a digest of this as a label. */
  datatype Config = Config(
    hostname: string,
    uid: int,
    env: map<string, string>,
    start: string,
    image: string,
    botId: BotId,
    deployId: string,
    memoryMb: int,
    cpuMillicores: int,
    pids: int,
    hardened: bool)

  datatype Container = Container(id: string, specLabel: Option<Config>, config: Config, running: bool, exitCode: int, oomKilled: bool)

  /** Changes made through the engine, and whole deploys. */
  datatype Effect = DeployAttempted | ContainerStopped | ContainerRemoved | ContainerCreated | ContainerStarted

  datatype Outcome = ReportedLive | ReportedFailed

  datatype EngineSite =
    | InspectByName | StopOld | RemoveOld | CheckImage | PullForRun | CreateContainer | InspectNew
    | StartContainer | StopContainer | InspectEnd
    | FindMount | Unmount | DeleteImage | DeleteMountDir

  /** `refused`: nothing was attempted; `volume`, `deploy`, `converge`, `shrink`: which part failed. */
  datatype Errors = Errors(refused: bool, volume: bool, deploy: bool, converge: bool, shrink: bool)

  const NO_ERRORS := Errors(false, false, false, false, false)

  function BotEnv(env: map<string, string>): map<string, string> {
    env - {"HOME", "DATA_DIR"}
  }

  function ConfigOf(spec: BotSpec, deployId: string, hostname: string): Config {
    Config(hostname, spec.uid, BotEnv(spec.env), spec.template.start, spec.template.image, spec.botId, deployId,
           spec.limits.memoryMb, spec.limits.cpuMillicores,
           if spec.limits.pids == 0 then DEFAULT_PIDS else spec.limits.pids, spec.hardened)
  }

  /**
   * The container is set up for this spec and deploy. Its environment is the spec's, but for the two variables that
   * are always set to the bot's own directories; no limit on processes means 128.
   */
  ghost predicate SetUpFor(c: Config, spec: BotSpec, deployId: string, hostname: string) {
    && c.deployId == deployId && c.botId == spec.botId && c.uid == spec.uid && c.hostname == hostname
    && c.image == spec.template.image && c.start == spec.template.start && c.hardened == spec.hardened
    && c.memoryMb == spec.limits.memoryMb && c.cpuMillicores == spec.limits.cpuMillicores
    && c.pids == (if spec.limits.pids != 0 then spec.limits.pids else 128)
    && (forall k :: k in c.env <==> k in spec.env && k != "HOME" && k != "DATA_DIR")
    && (forall k :: k in c.env ==> c.env[k] == spec.env[k])
  }

  lemma ConfigOfIs(c: Config, spec: BotSpec, deployId: string, hostname: string)
    ensures SetUpFor(c, spec, deployId, hostname) <==> c == ConfigOf(spec, deployId, hostname)
  {
    if SetUpFor(c, spec, deployId, hostname) { assert c.env == BotEnv(spec.env); }
  }

  /** A container was made in between. */
  predicate Made(before: seq<Effect>, now: seq<Effect>) { before <= now && ContainerCreated in now[|before|..] }

  lemma MadeSince(first: seq<Effect>, before: seq<Effect>, now: seq<Effect>)
    requires first <= before && Made(before, now)
    ensures Made(first, now)
  {
  }

  class Docker {
    const vol: Volume
    const runsc: bool
    const hostname: string -> string
    const fails: EngineSite -> bool
    /** Whether a container exits by itself right after it was started. */
    const exitsAtOnce: bool
    /** The id the engine gives the next container. */
    const newId: string
    var container: Option<Container>
    ghost var effects: seq<Effect>

    /** A label is only ever written together with the configuration it digests. */
    ghost predicate Valid()
      reads this`container
    {
      && newId != ""
      && (container.Some? ==> container.value.id != "")
      && (container.Some? && container.value.specLabel.Some? ==> container.value.specLabel.value == container.value.config)
    }

    ghost predicate NoRunFaults() {
      && !fails(InspectByName) && !fails(StopOld) && !fails(RemoveOld) && !fails(CheckImage) && !fails(PullForRun)
      && !fails(CreateContainer) && !fails(InspectNew) && !fails(StartContainer) && !fails(StopContainer) && !fails(InspectEnd)
    }

    ghost predicate NoRemoveFaults() {
      && !fails(InspectByName) && !fails(StopOld) && !fails(RemoveOld)
      && !fails(FindMount) && !fails(Unmount) && !fails(DeleteImage) && !fails(DeleteMountDir)
    }

    /** The container is what `spec` asks for when the code of `deployId` is deployed. */
    ghost predicate Matches(spec: BotSpec, deployId: string)
      reads this`container
    {
      if deployId == "" then container.None?
      else
        && IsFor(spec, deployId)
        && (container.value.running <==> spec.desired == RUNNING)
    }

    /** The container was made for this spec and deploy, and says so. */
    ghost predicate IsFor(spec: BotSpec, deployId: string)
      reads this`container
    {
      && container.Some? && container.value.specLabel.Some?
      && SetUpFor(container.value.specLabel.value, spec, deployId, hostname(spec.name))
      && SetUpFor(container.value.config, spec, deployId, hostname(spec.name))
    }

    constructor (vol: Volume, runsc: bool, hostname: string -> string, fails: EngineSite -> bool,
                 exitsAtOnce: bool, newId: string, container: Option<Container>)
      requires newId != ""
      requires container.Some? ==> container.value.id != ""
      requires container.Some? && container.value.specLabel.Some? ==> container.value.specLabel.value == container.value.config
      ensures Valid() && this.vol == vol && this.fails == fails && this.container == container
      ensures effects == []
    {
      this.vol, this.runsc, this.hostname, this.fails, this.exitsAtOnce, this.newId, this.container :=
        vol, runsc, hostname, fails, exitsAtOnce, newId, container;
      effects := [];
    }

    method Destroy() returns (ok: bool)
      requires Valid() && container.Some?
      modifies this`container, this`effects
      ensures Valid()
      ensures ok <==> !fails(StopOld) && !fails(RemoveOld)
      ensures ok ==> container.None?
      ensures fails(StopOld) ==> container == old(container) && effects == old(effects)
      ensures !fails(StopOld) && fails(RemoveOld) ==> container == Some(old(container).value.(running := false))
      ensures !fails(StopOld) ==>
                effects == old(effects) + (if old(container).value.running then [ContainerStopped] else []) + if ok then [ContainerRemoved] else []
    {
      if fails(StopOld) { return false; }
      if container.value.running {
        container := Some(container.value.(running := false));
        effects := effects + [ContainerStopped];
      }
      if fails(RemoveOld) { return false; }
      container := None;
      effects := effects + [ContainerRemoved];
      ok := true;
    }

    /** What the engine reports at the end of a call; no container id if it cannot be asked. */
    method Inspect(deployId: string) returns (inst: Instance, ok: bool)
      requires Valid() && container.Some?
      ensures ok <==> !fails(InspectEnd)
      ensures inst == if ok then
                        Instance(container.value.id, deployId, container.value.running, container.value.exitCode, container.value.oomKilled)
                      else NO_INSTANCE.(deployId := deployId)
    {
      if fails(InspectEnd) { return NO_INSTANCE.(deployId := deployId), false; }
      var c := container.value;
      return Instance(c.id, deployId, c.running, c.exitCode, c.oomKilled), true;
    }

    method Start() returns (ok: bool)
      requires Valid() && container.Some?
      modifies this`container, this`effects
      ensures Valid() && container.Some? && (ok <==> !fails(StartContainer))
      ensures ok ==> container == Some(old(container).value.(running := !exitsAtOnce))
      ensures !ok ==> container == old(container)
      ensures effects == old(effects) + if ok then [ContainerStarted] else []
    {
      if fails(StartContainer) { return false; }
      container := Some(container.value.(running := !exitsAtOnce));
      effects := effects + [ContainerStarted];
      ok := true;
    }

    method Stop() returns (ok: bool)
      requires Valid() && container.Some?
      modifies this`container, this`effects
      ensures Valid() && (ok <==> !fails(StopContainer))
      ensures ok ==> container == Some(old(container).value.(running := false))
      ensures !ok ==> container == old(container)
      ensures effects == old(effects) + if ok then [ContainerStopped] else []
    {
      if fails(StopContainer) { return false; }
      container := Some(container.value.(running := false));
      effects := effects + [ContainerStopped];
      ok := true;
    }

    method Create(cfg: Config) returns (ok: bool)
      requires Valid() && container.None?
      modifies this`container, this`effects
      ensures Valid()
      ensures ok <==> !fails(CheckImage) && !fails(PullForRun) && !fails(CreateContainer)
      ensures ok ==> container == Some(Container(newId, Some(cfg), cfg, false, 0, false))
      ensures !ok ==> container.None?
      ensures effects == old(effects) + if ok then [ContainerCreated] else []
    {
      if fails(CheckImage) || fails(PullForRun) || fails(CreateContainer) { return false; }
      container := Some(Container(newId, Some(cfg), cfg, false, 0, false));
      effects := effects + [ContainerCreated];
      ok := true;
    }

    /** Gets hold of a container made for `cfg`, replacing one made for anything else. */
    method Obtain(cfg: Config) returns (ok: bool)
      requires Valid()
      modifies this`container, this`effects
      ensures Valid()
      ensures NoRunFaults() ==> ok
      ensures ok ==> container.Some? && container.value.specLabel == Some(cfg) && container.value.config == cfg
      ensures old(container).Some? && old(container).value.specLabel == Some(cfg) ==> container == old(container) && effects == old(effects)
      ensures old(effects) <= effects
      // A container is made exactly if there was none, or one made for another configuration.
      ensures ok ==> (Made(old(effects), effects) <==> old(container).None? || old(container).value.specLabel != Some(cfg))
    {
      if container.Some? && container.value.specLabel != Some(cfg) {
        var destroyed := Destroy();
        if !destroyed { return false; }
      }
      if container.None? {
        ghost var before := effects;
        var created := Create(cfg);
        if !created || fails(InspectNew) { return false; }
        assert effects[|before|] == ContainerCreated;
      }
      ok := true;
    }

    /** Starts or stops the container as `desired` asks, once. */
    method SetRunning(desired: string) returns (ok: bool)
      requires Valid() && container.Some? && (desired == RUNNING || desired == STOPPED)
      modifies this`container, this`effects
      ensures Valid()
      ensures NoRunFaults() ==> ok
      ensures container.Some? && container.value.(running := false) == old(container).value.(running := false)
      ensures ok && !exitsAtOnce ==> (container.value.running <==> desired == RUNNING)
      ensures (old(container).value.running <==> desired == RUNNING) ==> container == old(container) && effects == old(effects)
      ensures old(effects) <= effects && ContainerCreated !in effects[|old(effects)|..]
    {
      ok := true;
      if desired == RUNNING && !container.value.running {
        ok := Start();
      } else if desired == STOPPED && container.value.running {
        ok := Stop();
      }
    }

    /**
     * Makes the container match `spec` with the code of `deployId`. From any container, if the engine
     * calls succeed and containers stay up, the result matches; a container that already matches is
     * not touched; and one with the right configuration is never destroyed, whatever fails.
     */
    method Converge(spec: BotSpec, deployId: string) returns (inst: Instance, ok: bool)
      requires Valid() && (spec.desired == RUNNING || spec.desired == STOPPED)
      modifies this`container, this`effects
      ensures Valid()
      ensures NoRunFaults() ==> ok
      ensures ok && !exitsAtOnce ==> Matches(spec, deployId)
      ensures ok ==> (deployId == "" <==> container.None?)
      ensures ok && deployId != "" ==> IsFor(spec, deployId)
      ensures ok ==> inst == if container.None? then NO_INSTANCE.(deployId := deployId)
                             else Instance(container.value.id, deployId, container.value.running, container.value.exitCode, container.value.oomKilled)
      ensures !ok ==> inst == NO_INSTANCE.(deployId := deployId)
      ensures old(Matches(spec, deployId)) ==> container == old(container) && effects == old(effects)
      ensures deployId != "" && old(IsFor(spec, deployId)) ==>
                container.Some? && container.value.id == old(container).value.id && container.value.config == old(container).value.config
      ensures old(effects) <= effects
      // A container is made exactly if there was none, or one made for another spec or deploy.
      ensures ok && deployId != "" ==> (Made(old(effects), effects) <==> !old(IsFor(spec, deployId)))
      ensures ok && deployId != "" && old(container.Some? && container.value.config.deployId != deployId) ==>
                Made(old(effects), effects)
    {
      if container.Some? {
        ConfigOfIs(container.value.config, spec, deployId, hostname(spec.name));
        if container.value.specLabel.Some? { ConfigOfIs(container.value.specLabel.value, spec, deployId, hostname(spec.name)); }
      }
      ConfigOfIs(ConfigOf(spec, deployId, hostname(spec.name)), spec, deployId, hostname(spec.name));
      hide ConfigOf, SetUpFor;
      inst := NO_INSTANCE.(deployId := deployId);
      if fails(InspectByName) { return inst, false; }
      if deployId == "" {
        ok := true;
        if container.Some? { ok := Destroy(); }
        return inst, ok;
      }
      var obtained := Obtain(ConfigOf(spec, deployId, hostname(spec.name)));
      if !obtained { return inst, false; }
      ghost var before := effects;
      var settled := SetRunning(spec.desired);
      assert effects[|old(effects)|..] == before[|old(effects)|..] + effects[|before|..];
      if !settled { return inst, false; }
      inst, ok := Inspect(deployId);
    }

    /** The deploy whose code should run after applying `spec` over the recorded one. */
    ghost function WantedDeploy(spec: BotSpec, record: string): string {
      if spec.deployId != "" then spec.deployId else record
    }

    ghost predicate Runnable(spec: BotSpec) { ValidSpec(spec) && (spec.hardened ==> runsc) }

    ghost predicate NeedsInstall(spec: BotSpec) { !IsBlank(spec.template.install) }

    ghost predicate NoFaults(spec: BotSpec) {
      && vol.NoEnsureFaults() && !vol.fails(ReadRecord) && SwapSucceeds(vol.fails, NeedsInstall(spec)) && RecordSucceeds(vol.fails)
      && NoRunFaults() && !exitsAtOnce
    }

    /** The volume and the code in it: everything of Apply before the container. `current` is the deploy to run. */
    method ApplyCode(spec: BotSpec) returns (current: string, attempted: bool, e: Errors)
      requires spec.limits.diskMb > 0
      modifies this`effects, vol`image, vol`fsSize, vol`mounted, vol`layout, vol`history
      ensures !e.refused && !e.converge
      ensures vol.NoEnsureFaults() && old(vol.Mountable()) ==> !e.volume
      ensures e.deploy <==> attempted && !(SwapSucceeds(vol.fails, NeedsInstall(spec)) && RecordSucceeds(vol.fails))
      ensures e.volume ==> current == ""
      ensures attempted <==> !e.volume && spec.deployId != "" && spec.deployId != old(vol.RecordRead())
      ensures !e.volume ==> (e.shrink <==> old(vol.image).Some? && old(vol.image).value > spec.limits.diskMb * MIB)
      ensures !e.volume ==> current == if attempted && !e.deploy then spec.deployId else old(vol.RecordRead())
      ensures vol.Dirs().record == if attempted && !e.deploy then spec.deployId else old(vol.Dirs()).record
      ensures old(vol.image).Some? ==> vol.image.Some? && vol.image.value >= old(vol.image).value
      ensures effects == old(effects) + if attempted then [DeployAttempted] else []
      ensures attempted && !e.deploy ==> vol.Dirs().app == Some(Whole(spec.deployId))
      ensures !attempted && old(vol.Dirs()).app.Some? ==> vol.Dirs().app == old(vol.Dirs()).app
      ensures !attempted && old(vol.Dirs()).app.None? ==> vol.Dirs().app.None? || vol.Dirs().app == Some(Whole(""))
      ensures e.deploy && !SwapSucceeds(vol.fails, NeedsInstall(spec)) && old(vol.Dirs()).app.Some? ==>
                (vol.Dirs().app == old(vol.Dirs()).app <==> !LosesApp(vol.fails, NeedsInstall(spec), old(vol.Dirs()).app))
    {
      var ensured := vol.EnsureVolume(spec.limits.diskMb);
      if ensured.VolumeFailed? {
        return "", false, NO_ERRORS.(volume := true);
      }
      e := NO_ERRORS.(shrink := ensured.ShrinkRefused?);
      current := vol.ReadDeployID();
      attempted := spec.deployId != "" && spec.deployId != current;
      if attempted {
        effects := effects + [DeployAttempted];
        var deployed := vol.Deploy(spec.deployId, !IsBlank(spec.template.install));
        if deployed {
          current := spec.deployId;
        } else {
          e := e.(deploy := true);
        }
      }
    }

    /**
     * Converges the bot onto `spec`. With nothing failing, from any record and any container, it ends
     * with the wanted deploy recorded and the container matching it; the only error is a refused
     * shrink. Applying the same spec again then changes nothing.
     */
    method Apply(spec: BotSpec) returns (inst: Instance, e: Errors, report: Option<Outcome>)
      requires Valid()
      modifies this`container, this`effects
      modifies vol`image, vol`fsSize, vol`mounted, vol`layout, vol`history
      ensures Valid()
      // Nothing happens for a spec that cannot run here.
      ensures e.refused <==> !Runnable(spec)
      ensures e.refused ==> container == old(container) && effects == old(effects) && vol.layout == old(vol.layout) && vol.image == old(vol.image)
      // Self-stabilisation.
      ensures Runnable(spec) && NoFaults(spec) && old(vol.Mountable()) ==>
                && e == NO_ERRORS.(shrink := old(vol.image).Some? && old(vol.image).value > spec.limits.diskMb * MIB)
                && vol.Dirs().record == WantedDeploy(spec, old(vol.Dirs()).record)
                && Matches(spec, vol.Dirs().record)
      // The same spec once more: no deploy, no container touched.
      ensures old(Matches(spec, vol.RecordRead()) && (spec.deployId == "" || spec.deployId == vol.RecordRead())) ==>
                container == old(container) && effects == old(effects) && report.None? && vol.Dirs().record == old(vol.Dirs()).record
      // The disk image never shrinks.
      ensures old(vol.image).Some? ==> vol.image.Some? && vol.image.value >= old(vol.image).value
      // A deploy that fails leaves the recorded code in place, and the container still converges on it.
      ensures Runnable(spec) && e.deploy && !e.volume && !SwapSucceeds(vol.fails, NeedsInstall(spec)) && old(vol.Dirs()).app.Some? ==>
                && (vol.Dirs().app == old(vol.Dirs()).app <==> !LosesApp(vol.fails, NeedsInstall(spec), old(vol.Dirs()).app))
                && vol.Dirs().record == old(vol.Dirs()).record
                && (!e.converge && !exitsAtOnce ==> Matches(spec, old(vol.RecordRead())))
      // A record that cannot be read looks like none: without a deploy in the spec, the container goes.
      ensures Runnable(spec) && !e.volume && vol.fails(ReadRecord) && spec.deployId == "" ==> e.converge || container.None?
      // The code that runs is the wanted deploy's exactly if it was fetched now or app/ held it before.
      ensures Runnable(spec) && NoFaults(spec) && old(vol.Mountable()) && spec.deployId != "" ==>
                (vol.Dirs().app == Some(Whole(spec.deployId)) <==>
                   spec.deployId != old(vol.Dirs()).record || old(vol.Dirs()).app == Some(Whole(spec.deployId)))
      // Without an image nothing is recorded: a bot new to the node, or removed from it, is always deployed.
      ensures Runnable(spec) && !e.volume && spec.deployId != "" && old(vol.image.None? && !vol.mounted) ==>
                report.Some? && (report == Some(ReportedLive) <==> !e.deploy && !e.converge)
      // One outcome is reported per attempted deploy: live only with the code recorded and the container converged.
      ensures report.Some? <==> Runnable(spec) && !e.volume && spec.deployId != "" && spec.deployId != old(vol.RecordRead())
      ensures report == Some(ReportedLive) <==> report.Some? && !e.deploy && !e.converge
      ensures report == Some(ReportedLive) ==> vol.Dirs().record == spec.deployId && vol.Dirs().app == Some(Whole(spec.deployId))
      // What runs then is a container made for this spec and deploy; one of any other deploy is replaced.
      ensures report == Some(ReportedLive) ==> IsFor(spec, spec.deployId)
      ensures report == Some(ReportedLive) && old(container.None? || container.value.config.deployId != spec.deployId) ==>
                Made(old(effects), effects)
      // Without a container to show for it, the caller is told so.
      ensures e.converge || e.refused || e.volume ==> inst.containerId == ""
    {
      if !ValidSpec(spec) || (spec.hardened && !runsc) {
        return NO_INSTANCE, NO_ERRORS.(refused := true), None;
      }
      assert spec.limits.diskMb > 0 && (spec.desired == RUNNING || spec.desired == STOPPED);
      hide ValidSpec, IsBlank, ConfigOf, SwapSucceeds, RecordSucceeds, NoRunFaults, Matches, Valid, IsFor, LosesApp, Made;
      var current, attempted;
      current, attempted, e := ApplyCode(spec);
      if e.volume {
        return NO_INSTANCE, e, None;
      }
      report := if e.deploy then Some(ReportedFailed) else None;
      ghost var before := effects;
      var ok;
      inst, ok := Converge(spec, current);
      if Made(before, effects) { MadeSince(old(effects), before, effects); }
      if attempted && !e.deploy {
        report := Some(if ok then ReportedLive else ReportedFailed);
      }
      e := e.(converge := !ok);
    }

    /**
     * Stops the container if it runs and starts it again. Whenever this fails, the caller is told of
     * no container, even if there is one.
     */
    method Restart() returns (inst: Instance, ok: bool)
      requires Valid()
      modifies this`container, this`effects
      ensures Valid()
      ensures !ok ==> inst.containerId == ""
      ensures ok ==> container.Some? && inst.containerId == container.value.id && inst.running == container.value.running == !exitsAtOnce
      ensures old(container).None? ==> !ok && container.None?
      ensures container.Some? == old(container).Some?
      ensures container.Some? ==> container.value.(running := false) == old(container).value.(running := false)
      ensures NoRunFaults() && old(container).Some? ==> ok
      // It is stopped first if it runs, and only then, and started then.
      ensures ok ==> effects == old(effects) + (if old(container).value.running then [ContainerStopped] else []) + [ContainerStarted]
      ensures ok <==>
                && old(container).Some? && !fails(InspectByName) && (old(container).value.running ==> !fails(StopContainer))
                && !fails(StartContainer) && !fails(InspectEnd)
    {
      if fails(InspectByName) || container.None? { return NO_INSTANCE, false; }
      if container.value.running {
        var stopped := Stop();
        if !stopped { return NO_INSTANCE, false; }
      }
      var started := Start();
      if !started { return NO_INSTANCE, false; }
      inst, ok := Inspect(container.value.config.deployId);
    }

    /** Deletes the container, then the volume: the image goes only once nothing runs on it and it is unmounted. */
    method Remove() returns (ok: bool)
      requires Valid()
      modifies this`container, this`effects, vol`image, vol`mounted, vol`layout
      ensures Valid()
      ensures ok ==> container.None? && vol.image.None? && !vol.mounted
      ensures old(vol.image).Some? && vol.image.None? ==> container.None? && !vol.mounted
      // The code and the record go with the image, and not before.
      ensures ok ==> vol.Dirs() == BARE
      ensures vol.image.Some? ==> vol.layout == old(vol.layout)
      ensures NoRemoveFaults() ==> ok
      ensures ok <==>
                && !fails(InspectByName) && (old(container).Some? ==> !fails(StopOld) && !fails(RemoveOld))
                && !fails(FindMount) && (old(vol.mounted) ==> !fails(Unmount))
                && (old(vol.image).Some? ==> !fails(DeleteImage)) && !fails(DeleteMountDir)
      // Removing what is not there succeeds.
      ensures old(container.None? && vol.image.None? && !vol.mounted) && !fails(InspectByName) && !fails(FindMount) && !fails(DeleteMountDir) ==> ok
    {
      if fails(InspectByName) { return false; }
      if container.Some? {
        var gone := Destroy();
        if !gone { return false; }
      }
      if fails(FindMount) { return false; }
      if vol.mounted {
        if fails(Unmount) { return false; }
        vol.mounted := false;
      }
      if vol.image.Some? {
        if fails(DeleteImage) { return false; }
        vol.image, vol.layout := None, BARE;
      }
      if fails(DeleteMountDir) { return false; }
      ok := true;
    }

    /**
     * A bot that is removed and applied again, as after being off this node: whatever was deployed before,
     * even the same deploy, it is deployed anew; and no container is left over for a spec without one.
     */
    method RemoveAndApply(spec: BotSpec) returns (removed: bool, inst: Instance, e: Errors, report: Option<Outcome>)
      requires Valid()
      modifies this`container, this`effects
      modifies vol`image, vol`fsSize, vol`mounted, vol`layout, vol`history
      ensures Valid()
      ensures NoRemoveFaults() ==> removed
      ensures removed ==> (report.Some? <==> Runnable(spec) && !e.volume && spec.deployId != "")
      ensures removed && report == Some(ReportedLive) ==> vol.Dirs().app == Some(Whole(spec.deployId))
      ensures removed && Runnable(spec) && NoFaults(spec) ==>
                && e == NO_ERRORS && Matches(spec, spec.deployId)
                && vol.Dirs().record == spec.deployId && (spec.deployId != "" ==> vol.Dirs().app == Some(Whole(spec.deployId)))
    {
      hide Valid, Matches, NoRunFaults, NoRemoveFaults, NoFaults, Runnable, SwapSucceeds, RecordSucceeds, LosesApp;
      removed := Remove();
      if !removed { return false, NO_INSTANCE, NO_ERRORS, None; }
      assert vol.image.None? && !vol.mounted && vol.Mountable();
      inst, e, report := Apply(spec);
    }
  }
}
