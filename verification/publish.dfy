/** publish_db: refuse, drain, swap, merge, retry. Every remote step may fail, and may also have
    taken effect and still be reported as failed. */
module Publishing {
  import opened Options
  import opened BrollIndex
  import opened Drain
  import opened MergeSpec
  import opened MergeTheorems
  import opened Conservation
  import opened LiveFile
  import opened SwapScript

  const RC_DRAIN_UNMERGED := 3
  const RC_DROPPED := 255

  datatype Flags = Flags(dryRun: bool, drains: bool, restepsAfterSwap: bool,
                         allowSchemaSkew: bool, allowShrink: bool, allowLoss: bool)

  /** A program run in the container: whether it ran, at which write it raised (never, if negative),
      and whether its answer came back. */
  datatype ContainerRun = ContainerRun(ran: bool, fuse: int, reported: bool)

  /** The swap script: whether it ran, which of its commands were refused, and whether its exit code
      came back. A script cut off is one whose next commands were all refused. */
  datatype SwapRun = SwapRun(ran: bool, no: Refused, reported: bool)

  /** What the outside world answers during one publish. */
  datatype World = World(
    sourceExists: bool, snapshotOk: bool, sourceVersion: Option<int>, liveVersion: Option<int>, shrinks: bool,
    stagingMade: bool, transferred: bool, sizeMatches: bool,
    drain: ContainerRun, swap: SwapRun, merge: ContainerRun)

  /** What a database file holds up to its last checkpoint, and what its -wal holds on top of it. */
  datatype Content = Main(checkpointed: Db) | Wal(committed: Db) | Shm

  /** The database a path opens as: its log's last commit when the log is with it. */
  function Opened(files: Files<Content>, path: string): Option<Db> {
    if path !in files || !files[path].Main? then None
    else if path + WAL in files && files[path + WAL].Wal? then Some(files[path + WAL].committed)
    else Some(files[path].checkpointed)
  }

  /** schema_refusal: only a proven skew refuses, and an older file only where the app cannot step it. */
  predicate SchemaRefused(source: Option<int>, live: Option<int>, restepsAfterSwap: bool) {
    source.Some? && live.Some? &&
    (source.value > live.value || (source.value < live.value && !restepsAfterSwap))
  }

  /** The refusals made before anything on the NAS is touched. */
  predicate RefusedEarly(flags: Flags, w: World) {
    || !w.sourceExists
    || !w.snapshotOk
    || (SchemaRefused(w.sourceVersion, w.liveVersion, flags.restepsAfterSwap) && !flags.allowSchemaSkew)
    || (w.shrinks && !flags.allowShrink)
    || !w.stagingMade
    || (!flags.dryRun && (!w.transferred || !w.sizeMatches))
  }

  /** These are the early refusals, and there is no other: a version that cannot be read on either side
      never refuses, nor does a shrink, a skew or an older file the operator or the app takes care of. */
  lemma RefusedEarlyExactlyWhen(flags: Flags, w: World)
    ensures RefusedEarly(flags, w) <==>
            || !w.sourceExists || !w.snapshotOk || !w.stagingMade
            || (&& !flags.allowSchemaSkew && w.sourceVersion.Some? && w.liveVersion.Some?
                && (w.sourceVersion.value > w.liveVersion.value
                    || (w.sourceVersion.value < w.liveVersion.value && !flags.restepsAfterSwap)))
            || (w.shrinks && !flags.allowShrink)
            || (!flags.dryRun && !(w.transferred && w.sizeMatches))
  {
  }

  predicate Answered(run: ContainerRun) {
    run.ran && run.reported
  }

  predicate Refuses(flags: Flags, w: World) {
    RefusedEarly(flags, w) || (!flags.dryRun && flags.drains && !Answered(w.drain) && !flags.allowLoss)
  }

  /** The publish gets as far as the swap script, and the script runs. */
  predicate Swaps(flags: Flags, w: World) {
    !Refuses(flags, w) && !flags.dryRun && w.swap.ran
  }

  /** The live file holds rows that exist nowhere else. */
  predicate HoldsLedger(flags: Flags, live: Option<Db>) {
    flags.drains && live.Some? && live.value.HasIngest()
  }

  /** Whatever the live path can come to open as keeps its schema. */
  ghost predicate SoundAt(files: Files<Content>, path: string) {
    && (path in files && files[path].Main? ==> Valid(files[path].checkpointed))
    && (path + WAL in files && files[path + WAL].Wal? ==> Valid(files[path + WAL].committed))
  }

  ghost predicate BundlesSound(bundles: map<string, Bundle>) {
    forall s :: s in bundles ==> Coherent(bundles[s])
  }

  /** What the live file can be once the swap has happened: the candidate, with or without the merge. */
  ghost predicate SwappedOrMerged(candidate: Db, b: Bundle, live: Option<Db>) {
    live.Some? && (live.value == candidate || MergedOnce(candidate, b, live.value))
  }

  function PrevPath(target: string, stamp: string): string {
    target + ".prev-" + stamp
  }

  /** A time stamp ends in a digit, so the names a publish makes up are no sidecar's. */
  predicate StampOk(stamp: string) {
    stamp != "" && '0' <= stamp[|stamp| - 1] <= '9'
  }

  lemma PathsApart(target: string, stamp: string)
    requires !IsSidecar(target) && StampOk(stamp)
    ensures Apart(target, target + ".prev-" + stamp, target + ".new")
  {
    var prev, next := PrevPath(target, stamp), target + NEW;
    assert prev[|prev| - 1] == stamp[|stamp| - 1] && next[|next| - 1] == 'w';
    assert !IsSidecar(prev) && !IsSidecar(next);
    assert prev[|target| + 1] == 'p' && next[|target| + 1] == 'n';
    GroupsApart(target, prev);
    GroupsApart(target, next);
    GroupsApart(prev, next);
    GroupsApart(next, prev);
  }

  lemma SameGroupOpensTheSame(before: Files<Content>, from: string, after: Files<Content>, to: string)
    requires Relocated(before, from, after, to)
    ensures Opened(after, to) == Opened(before, from)
    ensures SoundAt(before, from) ==> SoundAt(after, to)
  {
    hide Valid;
    assert At(after, to) == At(before, from) && At(after, to + WAL) == At(before, from + WAL);
    assert from in before ==> before[from] in At(after, to);
    assert to in after ==> after[to] in At(before, from);
    assert from + WAL in before ==> before[from + WAL] in At(after, to + WAL);
    assert to + WAL in after ==> after[to + WAL] in At(before, from + WAL);
  }

  lemma FewerFilesAreSound(before: Files<Content>, after: Files<Content>, path: string)
    requires At(after, path) <= At(before, path) && At(after, path + WAL) <= At(before, path + WAL)
    requires SoundAt(before, path)
    ensures SoundAt(after, path)
  {
    hide Valid;
    assert path in after ==> after[path] in At(before, path);
    assert path + WAL in after ==> after[path + WAL] in At(before, path + WAL);
  }

  class Nas {
    const target: string
    const disk: Disk<Content>
    var bundles: map<string, Bundle>

    constructor (target: string, disk: Disk<Content>)
      ensures this.target == target && this.disk == disk && bundles == map[]
    {
      this.target, this.disk, bundles := target, disk, map[];
    }

    /** The database the live path opens as. */
    function Live(): Option<Db>
      reads this, disk
    {
      Opened(disk.files, target)
    }

    ghost predicate Sound()
      reads this, disk
    {
      !IsSidecar(target) && SoundAt(disk.files, target) && BundlesSound(bundles)
    }

    /** take_drain: a bundle in hand, nothing to drain, or no answer. A run that was not reported may
        still have written its bundle. */
    method TakeDrain(stamp: string, run: ContainerRun) returns (answer: Option<DrainAnswer>)
      requires Sound()
      modifies this`bundles
      ensures Sound()
      ensures forall s :: s in old(bundles) && s != stamp ==> s in bundles && bundles[s] == old(bundles[s])
      ensures answer.Some? == Answered(run)
      ensures answer.Some? ==> answer.value == if Live().None? then NoLive
                                               else if !Live().value.HasIngest() then PredatesIngest
                                               else Taken(ExportOf(Live().value))
      ensures answer.Some? && answer.value.Taken? ==> stamp in bundles && bundles[stamp] == answer.value.bundle
    {
      answer := None;
      if run.ran {
        var exported := Drain.TakeDrain(Live());
        if exported.Taken? {
          ExportIsCoherent(Live().value);
          bundles := bundles[stamp := exported.bundle];
        }
        answer := if run.reported then Some(exported) else None;
      }
    }

    /** The program itself, against a copy of the live file's contents. */
    method RunApply(db: Db, b: Bundle, fuse: int) returns (committed: bool, merged: Db)
      requires Valid(db) && Coherent(b)
      ensures committed ==> Valid(merged) && MergedOnce(db, b, merged)
      ensures fuse < 0 ==> committed
    {
      var con := new LiveIndex.Open(db);
      var outcome := con.Apply(b, fuse);
      merged := con.Contents();
      committed := outcome.Committed?;
      if committed {
        ghost var m, cmaps :| Merged(db, b, m, cmaps, merged);
        MergeKeepsTheSchema(db, b, m, cmaps, merged);
      }
    }

    /** apply_drain: true exactly when the caller was told the merge committed. The commit goes to the
        live file's log. */
    method ApplyBundle(b: Bundle, run: ContainerRun) returns (told: bool)
      requires Sound() && Live().Some? && Coherent(b)
      modifies disk
      ensures Sound() && Live().Some?
      ensures disk.files == old(disk.files) || MergedOnce(old(Live().value), b, Live().value)
      ensures At(disk.files, target) == At(old(disk.files), target)
      ensures forall f :: f != target + WAL ==> At(disk.files, f) == At(old(disk.files), f)
      ensures told ==> Answered(run) && MergedOnce(old(Live().value), b, Live().value)
      ensures !run.ran ==> disk.files == old(disk.files)
      // A run that raises nothing merges, and whether the caller hears of it is another matter.
      ensures run.ran && run.fuse < 0 ==> MergedOnce(old(Live().value), b, Live().value) && told == run.reported
      ensures run.reported && !told ==> disk.files == old(disk.files)
    {
      hide Valid, Coherent, MergedOnce;
      told := false;
      if run.ran {
        var db := Live().value;
        var merged;
        told, merged := RunApply(db, b, run.fuse);
        if told {
          disk.Write(target + WAL, Wal(merged));
          told := run.reported;
        }
      }
    }

    /** The swap step: the script, and the answer that comes back or does not. */
    method Swap(candidate: Db, stamp: string, run: SwapRun) returns (rc: int)
      requires Sound() && Valid(candidate) && StampOk(stamp) && Empty(disk.files, target + ".prev-" + stamp)
      modifies disk
      ensures Sound()
      ensures !run.ran ==> rc == 255 && disk.files == old(disk.files)
      ensures run.ran ==>
                rc == if run.reported then ExitCode(run.no, ThereAt(old(disk.files), target)) else 255
      ensures run.ran && Installs(run.no, ThereAt(old(disk.files), target)) ==>
                && At(disk.files, target) == {Main(candidate)} && Live() == Some(candidate)
                && Opened(disk.files, target + ".prev-" + stamp) == old(Live())
                && Relocated(old(disk.files), target, disk.files, target + ".prev-" + stamp)
      ensures run.ran && LiveStays(run.no, ThereAt(old(disk.files), target)) ==> Live() == old(Live())
      ensures run.ran && LeavesNone(run.no, ThereAt(old(disk.files), target)) ==> Live() == None
      ensures run.ran && Main(candidate) !in At(old(disk.files), target) ==>
                (Relocated(old(disk.files), target, disk.files, target) <==>
                 LiveStays(run.no, ThereAt(old(disk.files), target)))
      ensures Held(old(disk.files), target, disk.files, target + ".prev-" + stamp)
    {
      hide Valid, Coherent;
      if !run.ran {
        return RC_DROPPED;
      }
      ghost var before := disk.files;
      ghost var there := ThereAt(before, target);
      PathsApart(target, stamp);
      rc := disk.SwapIn(Main(candidate), target, PrevPath(target, stamp), run.no);
      if Installs(run.no, there) {
        OpensAsCandidate(disk.files, target, candidate);
        SameGroupOpensTheSame(before, target, disk.files, PrevPath(target, stamp));
      } else {
        FewerFilesAreSound(before, disk.files, target);
        if LiveStays(run.no, there) {
          StaysPut(before, disk.files, target);
          SameGroupOpensTheSame(before, target, disk.files, target);
        }
      }
      if !run.reported {
        rc := RC_DROPPED;
      }
    }

    /** `publish_db --which <index>`: one publish from start to exit code. */
    method Publish(candidate: Db, flags: Flags, w: World, stamp: string) returns (rc: int)
      requires Sound() && Valid(candidate) && StampOk(stamp) && Empty(disk.files, target + ".prev-" + stamp)
      modifies this, disk
      ensures Sound()
      // Bundles are never deleted, and a ledger is in one before anything is renamed.
      ensures forall s :: s in old(bundles) && s != stamp ==> s in bundles && bundles[s] == old(bundles[s])
      ensures !flags.dryRun && !RefusedEarly(flags, w) && HoldsLedger(flags, old(Live())) && Answered(w.drain) ==>
                stamp in bundles && bundles[stamp] == ExportOf(old(Live()).value)
      ensures Swaps(flags, w) && HoldsLedger(flags, old(Live())) && !flags.allowLoss ==> Answered(w.drain)
      // Each refusal made before the NAS is touched is exit 1; nothing is renamed and no bundle is written.
      ensures !w.sourceExists || !w.snapshotOk || !w.stagingMade ==> RefusedUntouched(rc, old(disk.files), old(bundles))
      ensures w.sourceVersion.Some? && w.liveVersion.Some? && !flags.allowSchemaSkew
              && (w.sourceVersion.value > w.liveVersion.value
                  || (w.sourceVersion.value < w.liveVersion.value && !flags.restepsAfterSwap)) ==>
                RefusedUntouched(rc, old(disk.files), old(bundles))
      ensures w.shrinks && !flags.allowShrink ==> RefusedUntouched(rc, old(disk.files), old(bundles))
      ensures !flags.dryRun && (!w.transferred || !w.sizeMatches) ==>
                RefusedUntouched(rc, old(disk.files), old(bundles))
      // A drain that could not be taken is exit 1 unless the operator allows the loss.
      ensures !flags.dryRun && flags.drains && !(w.drain.ran && w.drain.reported) && !flags.allowLoss ==>
                rc == 1 && disk.files == old(disk.files)
      // The exit code, exactly.
      ensures rc == 1 <==>
                || Refuses(flags, w)
                || (Swaps(flags, w) && w.swap.reported && ExitCode(w.swap.no, ThereAt(old(disk.files), target)) == 1)
      ensures rc == 0 || rc == 3 <==>
                && !Refuses(flags, w)
                && (flags.dryRun ||
                    (Swaps(flags, w) && w.swap.reported && ExitCode(w.swap.no, ThereAt(old(disk.files), target)) == 0))
      ensures !Refuses(flags, w) && !flags.dryRun && !(w.swap.ran && w.swap.reported) ==> rc == 255
      ensures rc == 3 ==>
                && HoldsLedger(flags, old(Live())) && Answered(w.drain)
                && !(Answered(w.merge) && w.merge.fuse < 0)
      // No file changes unless the swap script runs; then the live files change unless its refusals keep them.
      ensures !Swaps(flags, w) ==> disk.files == old(disk.files)
      ensures Swaps(flags, w) && Main(candidate) !in At(old(disk.files), target) ==>
                (Relocated(old(disk.files), target, disk.files, target) <==>
                 LiveStays(w.swap.no, ThereAt(old(disk.files), target)))
      // So exit 1 with the live files changed has exactly these causes.
      ensures Main(candidate) !in At(old(disk.files), target) ==>
                (rc == 1 && !Relocated(old(disk.files), target, disk.files, target) <==>
                 && Swaps(flags, w) && w.swap.reported
                 && ExitCode(w.swap.no, ThereAt(old(disk.files), target)) == 1
                 && !LiveStays(w.swap.no, ThereAt(old(disk.files), target)))
      // And so has every failure that is announced with the live index still in place: besides the script's
      // own, an answer lost on the way from a script that did not keep it.
      ensures Main(candidate) !in At(old(disk.files), target) ==>
                (rc != 0 && rc != 3 && !Relocated(old(disk.files), target, disk.files, target) <==>
                 && Swaps(flags, w)
                 && !(w.swap.reported && ExitCode(w.swap.no, ThereAt(old(disk.files), target)) == 0)
                 && !LiveStays(w.swap.no, ThereAt(old(disk.files), target)))
      ensures Swaps(flags, w) && LiveStays(w.swap.no, ThereAt(old(disk.files), target)) ==> Live() == old(Live())
      ensures Swaps(flags, w) && LeavesNone(w.swap.no, ThereAt(old(disk.files), target)) ==> Live() == None
      // Whatever happens, the content of the old live files is at their path or under `prev`.
      ensures Held(old(disk.files), target, disk.files, target + ".prev-" + stamp)
      // The candidate's rename went through: the old database is whole under `prev`, and the live one is
      // the candidate with the drained rows in it at most once.
      ensures Swaps(flags, w) && Installs(w.swap.no, ThereAt(old(disk.files), target)) ==>
                && Opened(disk.files, target + ".prev-" + stamp) == old(Live())
                && (if HoldsLedger(flags, old(Live())) && Answered(w.drain)
                    then SwappedOrMerged(candidate, ExportOf(old(Live()).value), Live())
                    else Live() == Some(candidate))
                && (rc != 0 && rc != 3 ==> Live() == Some(candidate))
      // Exit 0: the candidate is live with every drained row merged, unless there was nothing to drain or
      // the operator said the loss out loud.
      ensures rc == 0 && !flags.dryRun ==> Installs(w.swap.no, ThereAt(old(disk.files), target))
      ensures rc == 0 && !flags.dryRun && HoldsLedger(flags, old(Live())) && Answered(w.drain) ==>
                MergedOnce(candidate, ExportOf(old(Live()).value), Live().value)
    {
      hide Valid, Coherent, MergedOnce, SoundAt, BundlesSound;
      rc := 1;
      if RefusedEarly(flags, w) {
        return;
      }
      if flags.dryRun {
        return 0;
      }
      var drain: DrainAnswer := NoLive;
      if flags.drains {
        var answer := TakeDrain(stamp, w.drain);
        if answer.None? && !flags.allowLoss {
          return;
        }
        drain := if answer.Some? then answer.value else NoLive;
      }
      rc := Swap(candidate, stamp, w.swap);
      if rc != 0 {
        return;
      }
      if drain.Taken? {
        BundleIsCoherent(stamp);
        var told := ApplyBundle(drain.bundle, w.merge);
        assert Main(candidate) in At(disk.files, target);
        if !told {
          return RC_DRAIN_UNMERGED;
        }
      }
    }

    ghost predicate RefusedUntouched(rc: int, files: Files<Content>, held: map<string, Bundle>)
      reads this, disk
    {
      rc == 1 && disk.files == files && bundles == held
    }

    lemma BundleIsCoherent(stamp: string)
      requires Sound() && stamp in bundles
      ensures Coherent(bundles[stamp])
    {
      hide Coherent, Valid;
    }

    /** `--apply-drain <bundle>`. */
    method ApplyDrain(stamp: string, dryRun: bool, run: ContainerRun) returns (rc: int)
      requires Sound() && Live().Some?
      modifies disk
      ensures Sound() && Live().Some?
      ensures rc == 0 || rc == 1
      ensures dryRun ==> rc == 0 && disk.files == old(disk.files)
      ensures stamp !in bundles || (!dryRun && !run.ran) ==> disk.files == old(disk.files)
      ensures !dryRun && (stamp !in bundles || !run.ran) ==> rc == 1
      ensures stamp in bundles ==>
                disk.files == old(disk.files) || MergedOnce(old(Live().value), bundles[stamp], Live().value)
      ensures rc == 0 && !dryRun ==> stamp in bundles && MergedOnce(old(Live().value), bundles[stamp], Live().value)
      // A run that raises nothing merges; exit 1 then says no more than that its answer was lost.
      ensures !dryRun && stamp in bundles && run.ran && run.fuse < 0 ==>
                MergedOnce(old(Live().value), bundles[stamp], Live().value) && (rc == 1 <==> !run.reported)
      // Exit 1 leaves the file alone when the program's answer came back.
      ensures run.reported && rc == 1 ==> disk.files == old(disk.files)
    {
      hide Valid, Coherent, MergedOnce, SoundAt;
      rc := if dryRun then 0 else 1;
      if !dryRun && stamp in bundles {
        BundleIsCoherent(stamp);
        var told := ApplyBundle(bundles[stamp], run);
        rc := if told then 0 else 1;
      }
    }

    /** From a publish that put its candidate in place, `--apply-drain` until it answers 0 or the operator
        stops. Whatever the attempts did or reported, the file is the candidate with the bundle in it at
        most once; exactly once when the last answer was 0, which one clean attempt is enough for. */
    method PublishAndRetry(candidate: Db, flags: Flags, w: World, stamp: string, retries: seq<ContainerRun>)
      returns (rc: int)
      requires Sound() && Valid(candidate) && StampOk(stamp) && Empty(disk.files, target + ".prev-" + stamp)
      requires Swaps(flags, w) && HoldsLedger(flags, Live()) && Answered(w.drain)
      requires Installs(w.swap.no, ThereAt(disk.files, target))
      modifies this, disk
      ensures stamp in bundles && bundles[stamp] == ExportOf(old(Live()).value)
      ensures SwappedOrMerged(candidate, bundles[stamp], Live())
      ensures rc == 0 ==> MergedOnce(candidate, bundles[stamp], Live().value)
      ensures ContainerRun(true, -1, true) in retries ==> rc == 0
    {
      hide Valid, Merged, MergedOnce, Coherent, SoundAt, ExitCode, LiveStays, LeavesNone;
      rc := Publish(candidate, flags, w, stamp);
      var i := 0;
      while i < |retries| && rc != 0
        invariant 0 <= i <= |retries|
        invariant Sound() && Live().Some?
        invariant stamp in bundles && bundles[stamp] == ExportOf(old(Live()).value)
        invariant SwappedOrMerged(candidate, bundles[stamp], Live())
        invariant rc == 0 ==> MergedOnce(candidate, bundles[stamp], Live().value)
        invariant rc != 0 ==> ContainerRun(true, -1, true) !in retries[..i]
      {
        ghost var before := Live().value;
        rc := ApplyDrain(stamp, false, retries[i]);
        if before != candidate && Live().value != before {
          CandidateIsIndexed(candidate);
          BundleIsCoherent(stamp);
          MergedTwice(candidate, bundles[stamp], before, Live().value);
        }
        i := i + 1;
      }
    }
  }

  lemma OpensAsCandidate(files: Files<Content>, path: string, candidate: Db)
    requires At(files, path) == {Main(candidate)} && path + WAL !in files && Valid(candidate)
    ensures Opened(files, path) == Some(candidate) && SoundAt(files, path)
  {
    hide Valid;
    assert Main(candidate) in At(files, path);
  }

  lemma StaysPut(before: Files<Content>, after: Files<Content>, target: string)
    requires OnlyCandidateDiffers(before, after, target)
    requires Group(target) !! Group(target + NEW)
    ensures Relocated(before, target, after, target)
  {
  }

  lemma CandidateIsIndexed(candidate: Db)
    requires Valid(candidate)
    ensures Indexed(candidate.videos)
  {
  }

  /** "The live index is unchanged by this command" at an input where it is not: the program committed
      and its answer was lost. */
  method LostAnswer(nas: Nas, stamp: string) returns (rc: int)
    requires nas.Sound() && nas.Live().Some? && stamp in nas.bundles
    requires Missing(nas.Live().value.videos, nas.bundles[stamp]) != {}
    modifies nas.disk
    ensures rc == 1
    ensures nas.Live().Some? && MergedOnce(old(nas.Live().value), nas.bundles[stamp], nas.Live().value)
    ensures nas.Live() != old(nas.Live())
  {
    hide Valid, Coherent, SoundAt, MergedOnce;
    ghost var before := nas.Live().value;
    rc := nas.ApplyDrain(stamp, false, ContainerRun(true, -1, false));
    nas.BundleIsCoherent(stamp);
    MergeAddsClips(before, nas.bundles[stamp], nas.Live().value);
  }

  lemma MergeAddsClips(pre: Db, b: Bundle, post: Db)
    requires MergedOnce(pre, b, post) && Missing(pre.videos, b) != {}
    ensures post != pre
  {
    hide Merged, Missing;
    var m, cmaps :| Merged(pre, b, m, cmaps, post);
    VideosOf(pre, b, m, cmaps, post);
    var id :| id in Missing(pre.videos, b);
    MintedIsNew(pre.videos, b, DefaultsIn(pre.schema, VideoT), m, post.videos, id);
  }

  lemma VideosOf(pre: Db, b: Bundle, m: IdMap, cmaps: PerChild<IdMap>, post: Db)
    requires Merged(pre, b, m, cmaps, post)
    ensures VideosMerged(pre.videos, b, DefaultsIn(pre.schema, VideoT), m, post.videos)
  {
    hide VideosMerged, AllChildrenMerged, VectorsMerged, LedgersMerged;
  }

  lemma MintedIsNew(pre: Videos, b: Bundle, defaults: Cols, m: IdMap, post: Videos, id: Id)
    requires VideosMerged(pre, b, defaults, m, post) && id in Missing(pre, b)
    ensures post != pre
  {
    assert m.to[id] in m.back && m.to[id] in post.at;
  }
}
