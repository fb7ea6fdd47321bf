/**
 * A bot's volume: its disk image, and the directories a deploy is swapped through.
 *
 * Every filesystem or tool call may fail; which ones do is given by `fails`, per call site, so a
 * contract can say exactly which failures it tolerates. `history` records the directories after every
 * call, so a property of all of it also holds wherever the agent is stopped.
 */
module BotVolume {

  import opened Options
  import opened Proto

  const MIB := 1_048_576

  /** The contents of a directory: the complete tree of a deploy (none yet for the empty id), or something less. */
  datatype Tree = Whole(deployId: string) | Partial

  /** app/, .mechon/prev, .mechon/next and the deploy id recorded in .mechon/deploy. */
  datatype Layout = Layout(app: Option<Tree>, prev: Option<Tree>, next: Option<Tree>, record: string)

  /** The directories of a filesystem that was just made: none, and nothing recorded. */
  const BARE := Layout(None, None, None, "")

  datatype Site =
    // ensureVolume
    | StatImage | CreateImage | SizeImage | FormatImage | DropImage | MakeMountDir | ReadMounts | MountImage | ReadMountsAgain
    | GrowImage | RefreshLoop | ResizeFs | ChmodRoot | MakeApp | OwnApp | MakeData | OwnData | MakeMeta
    // deploy
    | ClearNext | MakeNext | OwnNext | Fetch | PullImage | Install | ClearPrev | AppToPrev | NextToApp | PrevBackToApp | CleanUp
    // writeDeployID
    | WriteTemp | CommitRecord
    // readDeployID
    | ReadRecord

  datatype EnsureResult = Ensured | ShrinkRefused | VolumeFailed

  function Max(a: int, b: int): int { if a > b then a else b }

  /** The calls of a deploy that must succeed for the new code to be swapped in. */
  predicate SwapSucceeds(fails: Site -> bool, install: bool) {
    && !fails(ClearNext) && !fails(MakeNext) && !fails(OwnNext) && !fails(Fetch) && !fails(PullImage)
    && (install ==> !fails(Install))
    && !fails(ClearPrev) && !fails(AppToPrev) && !fails(NextToApp)
  }

  predicate RecordSucceeds(fails: Site -> bool) { !fails(WriteTemp) && !fails(CommitRecord) }

  /** What was in app/ is still whole in app/ or prev/. */
  predicate KeepsCode(l: Layout, was: Layout) {
    l.app == was.app || l.prev == was.app
  }

  /** The record is the old one, or names the new deploy once that is what app/ holds. */
  predicate HonestRecord(l: Layout, was: Layout, deployId: string) {
    l.record == was.record || (l.record == deployId && l.app == Some(Whole(deployId)))
  }

  /** The one pattern of failures that takes app/ away: the second move and the moving back both fail. */
  predicate LosesApp(fails: Site -> bool, install: bool, app: Option<Tree>) {
    && app.Some?
    && !fails(ClearNext) && !fails(MakeNext) && !fails(OwnNext) && !fails(Fetch) && !fails(PullImage) && (install ==> !fails(Install))
    && !fails(ClearPrev) && !fails(AppToPrev) && fails(NextToApp) && fails(PrevBackToApp)
  }

  /** The code the record names is whole in app/ or prev/. */
  predicate RecordedCodeIsThere(l: Layout) {
    l.app == Some(Whole(l.record)) || l.prev == Some(Whole(l.record))
  }

  /** The directories after each call of a deploy: next/ emptied, made, filled and installed, prev/ emptied, then the moves, then the record. */
  function Stages(l: Layout, deployId: string, install: bool): seq<Layout> {
    var bare := l.(next := None);
    var whole := l.(next := Some(Whole(deployId)));
    var partial := l.(next := Some(Partial));
    var moved := Layout(Some(Whole(deployId)), l.app, None, l.record);
    [bare, partial] + (if install then [partial, whole] else [whole]) + [whole.(prev := None)]
    + (if l.app.Some? then [whole.(app := None, prev := l.app)] else []) + [moved, moved.(record := deployId)]
  }

  lemma StagesAre(l: Layout, deployId: string, install: bool, before: seq<Layout>)
    ensures var whole, partial := l.(next := Some(Whole(deployId))), l.(next := Some(Partial));
            var moved := Layout(Some(Whole(deployId)), l.app, None, l.record);
            before + Stages(l, deployId, install) ==
            before + [l.(next := None)] + [partial] + (if install then [partial, whole] else [whole]) + [whole.(prev := None)]
            + (if l.app.Some? then [whole.(app := None, prev := l.app)] else []) + [moved] + [moved.(record := deployId)]
  {
  }

  class Volume {
    /** Which calls fail, and what a failed recursive removal leaves behind. */
    const fails: Site -> bool
    const debris: Site -> Option<Tree>
    /** Whether the mount is backed by a loop device. */
    const onLoop: bool

    var image: Option<int>
    var fsSize: int
    var mounted: bool
    var layout: Layout
    ghost var history: seq<Layout>

    constructor (fails: Site -> bool, debris: Site -> Option<Tree>, onLoop: bool,
                 image: Option<int>, fsSize: int, mounted: bool, layout: Layout)
      ensures this.fails == fails && this.debris == debris && this.onLoop == onLoop
      ensures this.image == image && this.fsSize == fsSize && this.mounted == mounted && this.layout == layout
      ensures history == []
    {
      this.fails, this.debris, this.onLoop := fails, debris, onLoop;
      this.image, this.fsSize, this.mounted, this.layout := image, fsSize, mounted, layout;
      this.history := [];
    }

    /** A mounted image, or one with a filesystem to mount, or none at all. */
    ghost predicate Mountable()
      reads this
    {
      (image.Some? ==> mounted || fsSize > 0) && (image.None? ==> !mounted)
    }

    ghost predicate NoEnsureFaults() {
      && !fails(StatImage) && !fails(CreateImage) && !fails(SizeImage) && !fails(FormatImage)
      && !fails(MakeMountDir) && !fails(ReadMounts) && !fails(MountImage) && !fails(ReadMountsAgain)
      && !fails(GrowImage) && onLoop && !fails(RefreshLoop) && !fails(ResizeFs)
      && !fails(ChmodRoot) && !fails(MakeApp) && !fails(OwnApp) && !fails(MakeData) && !fails(OwnData) && !fails(MakeMeta)
    }

    /** The directories a mounted volume has or will have: with no image there is nothing in them yet. */
    ghost function Dirs(): Layout
      reads this`image, this`mounted, this`layout
    {
      if image.None? && !mounted then BARE else layout
    }

    /** A new image, with an empty filesystem in it. Nothing of an older one is left unless that is still mounted. */
    method CreateVolume(want: int) returns (ok: bool)
      requires image.None? && want > 0
      modifies this`image, this`fsSize, this`layout
      ensures layout == old(layout) || (!mounted && layout == BARE)
      ensures Dirs() == old(Dirs())
      ensures ok ==> image == Some(want) && fsSize == want
      ensures !ok && (fails(CreateImage) || !fails(DropImage)) ==> image.None?
      ensures ok <==> !fails(CreateImage) && !fails(SizeImage) && !fails(FormatImage)
      // What is left if clearing up fails, too, has no filesystem in it.
      ensures !ok && !fails(CreateImage) && fails(DropImage) ==> image == Some(if fails(SizeImage) then 0 else want) && fsSize == 0
      ensures fails(CreateImage) ==> fsSize == old(fsSize)
    {
      if fails(CreateImage) { return false; }
      image, fsSize := Some(0), 0;
      if !mounted { layout := BARE; }
      if fails(SizeImage) {
        if !fails(DropImage) { image := None; }
        return false;
      }
      image := Some(want);
      if fails(FormatImage) {
        if !fails(DropImage) { image := None; }
        return false;
      }
      fsSize := want;
      ok := true;
    }

    /** Extends the image, then the filesystem in it. */
    method Grow(want: int) returns (ok: bool)
      requires image.Some? && image.value < want
      modifies this`image, this`fsSize
      ensures image == Some(want) || image == old(image)
      ensures ok ==> image == Some(want) && fsSize == want
      ensures !ok ==> fsSize == old(fsSize)
      ensures ok <==> !fails(GrowImage) && onLoop && !fails(RefreshLoop) && !fails(ResizeFs)
      ensures image == Some(want) <==> !fails(GrowImage)
    {
      if fails(GrowImage) { return false; }
      image := Some(want);
      if !onLoop || fails(RefreshLoop) || fails(ResizeFs) { return false; }
      fsSize := want;
      ok := true;
    }

    method Mount() returns (ok: bool)
      modifies this`mounted
      ensures ok <==> !fails(ReadMounts) && (old(mounted) || (!fails(MountImage) && fsSize > 0 && !fails(ReadMountsAgain)))
      ensures mounted <==> old(mounted) || (!fails(ReadMounts) && !fails(MountImage) && fsSize > 0)
    {
      if fails(ReadMounts) { return false; }
      if !mounted {
        if fails(MountImage) || fsSize <= 0 { return false; }
        mounted := true;
        if fails(ReadMountsAgain) { return false; }
      }
      ok := true;
    }

    /** The volume's own directories; only a missing app/ changes what a deploy sees. */
    method LayOut() returns (ok: bool)
      modifies this`layout, this`history
      ensures layout == if old(layout).app.None? && !fails(ChmodRoot) && !fails(MakeApp) then old(layout).(app := Some(Whole(""))) else old(layout)
      ensures ok <==>
                && !fails(ChmodRoot) && (old(layout).app.None? ==> !fails(MakeApp))
                && !fails(OwnApp) && !fails(MakeData) && !fails(OwnData) && !fails(MakeMeta)
      ensures history == old(history) + if layout == old(layout) then [] else [layout]
    {
      if fails(ChmodRoot) { return false; }
      if layout.app.None? {
        if fails(MakeApp) { return false; }
        layout := layout.(app := Some(Whole("")));
        history := history + [layout];
      }
      if fails(OwnApp) || fails(MakeData) || fails(OwnData) || fails(MakeMeta) { return false; }
      ok := true;
    }

    /**
     * Brings the disk image, its mount and its directories to what a spec asks for. Whatever fails, an
     * existing image is never made smaller; otherwise it ends as large as asked, or larger if it was.
     * The filesystem has the asked size exactly when this call made or grew it, or when it had it
     * before: an earlier growth that extended the image but failed to resize is not taken up again.
     */
    method EnsureVolume(diskMb: int) returns (r: EnsureResult)
      requires diskMb > 0
      modifies this`image, this`fsSize, this`mounted, this`layout, this`history
      ensures old(image).Some? ==> image.Some? && image.value >= old(image).value
      ensures !r.VolumeFailed? ==>
                && mounted && layout.app.Some?
                && image == Some(if old(image).Some? then Max(old(image).value, diskMb * MIB) else diskMb * MIB)
      ensures !r.VolumeFailed? ==> (r.ShrinkRefused? <==> old(image).Some? && old(image).value > diskMb * MIB)
      ensures r.Ensured? ==> (fsSize == diskMb * MIB <==>
                                old(image).None? || old(image).value < diskMb * MIB || old(fsSize) == diskMb * MIB)
      ensures NoEnsureFaults() && old(Mountable()) ==> !r.VolumeFailed?
      // It fails exactly if a call that this volume needs does.
      ensures !r.VolumeFailed? <==>
                && !fails(StatImage) && (old(image).None? ==> !fails(CreateImage) && !fails(SizeImage) && !fails(FormatImage))
                && !fails(MakeMountDir) && !fails(ReadMounts)
                && (old(mounted) || (!fails(MountImage) && (old(image).None? || old(fsSize) > 0) && !fails(ReadMountsAgain)))
                && (old(image).Some? && old(image).value < diskMb * MIB ==> !fails(GrowImage) && onLoop && !fails(RefreshLoop) && !fails(ResizeFs))
                && !fails(ChmodRoot) && (old(Dirs()).app.None? ==> !fails(MakeApp))
                && !fails(OwnApp) && !fails(MakeData) && !fails(OwnData) && !fails(MakeMeta)
      ensures Dirs() == old(Dirs()) || (old(Dirs()).app.None? && Dirs() == old(Dirs()).(app := Some(Whole(""))))
      // A fresh image has no code and no record.
      ensures !r.VolumeFailed? && old(image.None? && !mounted) ==> layout == BARE.(app := Some(Whole("")))
      ensures old(mounted && image == Some(diskMb * MIB) && fsSize == diskMb * MIB && layout.app.Some?) ==>
                unchanged(this`image) && unchanged(this`fsSize) && unchanged(this`mounted) && unchanged(this`layout)
    {
      var want := diskMb * MIB;
      var st := image;
      if fails(StatImage) { return VolumeFailed; }
      if st.None? {
        var created := CreateVolume(want);
        if !created { return VolumeFailed; }
      }
      if fails(MakeMountDir) { return VolumeFailed; }
      var up := Mount();
      if !up { return VolumeFailed; }
      var shrink := false;
      if st.Some? {
        if st.value < want {
          var grown := Grow(want);
          if !grown { return VolumeFailed; }
        } else if st.value > want {
          shrink := true;
        }
      }
      var laid := LayOut();
      if !laid { return VolumeFailed; }
      r := if shrink then ShrinkRefused else Ensured;
    }

    /** The deploy id as it is read: nothing if it cannot be, or if the volume is yet to be made. */
    ghost function RecordRead(): string
      reads this`image, this`mounted, this`layout
    {
      if fails(ReadRecord) then "" else Dirs().record
    }

    method ReadDeployID() returns (id: string)
      requires image.Some? || mounted
      ensures id == RecordRead()
    {
      if fails(ReadRecord) { return ""; }
      id := layout.record;
    }

    /** One filesystem call of a deploy. */
    method Put(l: Layout)
      modifies this`layout, this`history
      ensures layout == l && history == old(history) + [l]
    {
      layout := l;
      history := history + [l];
    }

    /** Builds the new tree in next/, from empty. */
    method BuildNext(deployId: string, install: bool) returns (ok: bool)
      modifies this`layout, this`history
      ensures ok <==> !fails(MakeNext) && !fails(OwnNext) && !fails(Fetch) && !fails(PullImage) && (install ==> !fails(Install))
      ensures layout == old(layout).(next := layout.next)
      ensures ok ==> layout.next == Some(Whole(deployId))
      ensures ok ==>
                var partial := old(layout).(next := Some(Partial));
                history == old(history) + [partial] + if install then [partial, layout] else [layout]
      ensures old(history) <= history
      ensures forall k :: |old(history)| <= k < |history| ==> history[k] == old(layout).(next := history[k].next)
    {
      if fails(MakeNext) { return false; }
      Put(layout.(next := Some(Partial)));
      if fails(OwnNext) { return false; }
      if fails(Fetch) { return false; }
      Put(layout.(next := Some(if install then Partial else Whole(deployId))));
      if fails(PullImage) { return false; }
      if install {
        if fails(Install) { return false; }
        Put(layout.(next := Some(Whole(deployId))));
      }
      ok := true;
    }

    /** app/ to prev/, next/ to app/; puts the old tree back if the second move fails. */
    method Swap() returns (ok: bool)
      requires layout.next.Some?
      modifies this`layout, this`history
      ensures ok <==> !fails(ClearPrev) && !fails(AppToPrev) && !fails(NextToApp)
      ensures ok ==> layout == Layout(old(layout).next, old(layout).app, None, old(layout).record)
      ensures ok ==>
                history == old(history) + [old(layout).(prev := None)]
                + (if old(layout).app.Some? then [old(layout).(app := None, prev := old(layout).app)] else []) + [layout]
      ensures !ok ==>
                var lost := old(layout).app.Some? && !fails(ClearPrev) && !fails(AppToPrev) && fails(NextToApp) && fails(PrevBackToApp);
                layout == if lost then old(layout).(app := None, prev := old(layout).app)
                          else old(layout).(prev := if fails(ClearPrev) then debris(ClearPrev) else None)
      ensures old(history) <= history && (history == old(history) ==> layout == old(layout))
      ensures forall k :: |old(history)| <= k < |history| ==>
                && history[k].record == old(layout).record
                && KeepsCode(history[k], old(layout))
                && (history[k].app == old(layout).app || history[k].app.None? || (ok && k == |history| - 1))
      ensures forall k :: |old(history)| <= k < |history| - 1 ==> history[k].next == old(layout).next
      ensures history != old(history) ==> history[|history| - 1] == layout
    {
      if fails(ClearPrev) {
        Put(layout.(prev := debris(ClearPrev)));
        return false;
      }
      Put(layout.(prev := None));
      if fails(AppToPrev) { return false; }
      if layout.app.Some? {
        Put(layout.(app := None, prev := layout.app));
      }
      if fails(NextToApp) {
        if !fails(PrevBackToApp) && layout.prev.Some? {
          Put(layout.(app := layout.prev, prev := None));
        }
        return false;
      }
      Put(layout.(app := layout.next, next := None));
      ok := true;
    }

    /**
     * Fetches and installs the new code in next/ and swaps it into app/. After every call, the old
     * tree is whole in app/ or prev/, and the record never names code that is not in app/.
     */
    method Deploy(deployId: string, install: bool) returns (ok: bool)
      modifies this`layout, this`history
      ensures ok <==> SwapSucceeds(fails, install) && RecordSucceeds(fails)
      ensures old(history) <= history
      ensures forall k :: |old(history)| <= k < |history| ==>
                KeepsCode(history[k], old(layout)) && HonestRecord(history[k], old(layout), deployId)
      // Once the new code is in app/ it stays there.
      ensures forall j, k :: |old(history)| <= j < k < |history| && history[j].app == Some(Whole(deployId)) != old(layout).app ==>
                history[k].app == Some(Whole(deployId))
      ensures ok ==> layout == Layout(Some(Whole(deployId)), old(layout).app, None, deployId)
      ensures !ok ==> layout.record == old(layout).record
      // A deploy that fails before the swap is through leaves app/ exactly unless the moving back fails too;
      // the old code is whole in prev/ then.
      ensures !SwapSucceeds(fails, install) ==>
                (layout.app == old(layout).app <==> !LosesApp(fails, install, old(layout).app))
                && (LosesApp(fails, install, old(layout).app) ==> layout.app.None? && layout.prev == old(layout).app)
      ensures old(layout).app == Some(Whole(old(layout).record)) ==>
                forall k :: |old(history)| <= k < |history| ==> RecordedCodeIsThere(history[k])
      ensures !SwapSucceeds(fails, install) ==>
                layout.next == if fails(ClearNext) then debris(ClearNext) else if fails(CleanUp) then debris(CleanUp) else None
      // The states a deploy passes if all goes well.
      ensures ok ==> history == old(history) + Stages(old(layout), deployId, install)
      // Only the record can be stale: the new code is in app/, under the old id.
      ensures SwapSucceeds(fails, install) && !RecordSucceeds(fails) ==>
                layout == Layout(Some(Whole(deployId)), old(layout).app, None, old(layout).record)
    {
      hide Stages;
      ghost var was, before := layout, history;
      if fails(ClearNext) {
        Put(layout.(next := debris(ClearNext)));
        return false;
      }
      Put(layout.(next := None));
      var built := BuildNext(deployId, install);
      if !built {
        DropNext();
        return false;
      }
      var swapped := Swap();
      if !swapped {
        DropNext();
        return false;
      }
      if fails(WriteTemp) || fails(CommitRecord) { return false; }
      Put(layout.(record := deployId));
      StagesAre(was, deployId, install, before);
      ok := true;
    }

    method DropNext()
      modifies this`layout, this`history
      ensures layout == old(layout).(next := if fails(CleanUp) then debris(CleanUp) else None)
      ensures history == old(history) + [layout]
    {
      Put(layout.(next := if fails(CleanUp) then debris(CleanUp) else None));
    }
  }
}
