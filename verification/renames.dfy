/** The remote scripts that move database files: sequences of renames, each database with the
    -wal and -shm files beside it. */
module SwapScript {
  const WAL := "-wal"
  const SHM := "-shm"
  const NEW := ".new"

  predicate EndsWith(s: string, tail: string) {
    |tail| <= |s| && s[|s| - |tail|..] == tail
  }

  /** is_sidecar_name */
  predicate IsSidecar(path: string) {
    EndsWith(path, WAL) || EndsWith(path, SHM)
  }

  type Files<C> = map<string, C>

  ghost function At<C>(files: Files<C>, path: string): set<C> {
    if path in files then {files[path]} else {}
  }

  /** One answer for a database file and for each of its sidecars. */
  datatype Trio = Trio(main: bool, wal: bool, shm: bool)

  const NONE := Trio(false, false, false)

  /** Which of a database's three files exist. */
  function ThereAt<C>(files: Files<C>, path: string): Trio {
    Trio(path in files, path + WAL in files, path + SHM in files)
  }

  /** A database path and its two sidecars hold in `after` what `from` and its sidecars held in `before`. */
  ghost predicate Relocated<C>(before: Files<C>, from: string, after: Files<C>, to: string) {
    && At(after, to) == At(before, from)
    && At(after, to + WAL) == At(before, from + WAL)
    && At(after, to + SHM) == At(before, from + SHM)
  }

  /** The same with renames that may not have happened: every file is at its old path or at its new one. */
  ghost predicate Held<C>(before: Files<C>, from: string, after: Files<C>, to: string) {
    && (At(after, from) == At(before, from) || At(after, to) == At(before, from))
    && (At(after, from + WAL) == At(before, from + WAL) || At(after, to + WAL) == At(before, from + WAL))
    && (At(after, from + SHM) == At(before, from + SHM) || At(after, to + SHM) == At(before, from + SHM))
  }

  ghost predicate Empty<C>(files: Files<C>, path: string) {
    path !in files && path + WAL !in files && path + SHM !in files
  }

  function Group(path: string): set<string> {
    {path, path + WAL, path + SHM}
  }

  /** Three databases whose nine paths do not collide. */
  ghost predicate Apart(t: string, p: string, a: string) {
    && Group(t) !! Group(p) && Group(t) !! Group(a) && Group(p) !! Group(a)
    && SelfApart(t) && SelfApart(p) && SelfApart(a)
  }

  ghost predicate SelfApart(t: string) {
    t != t + WAL && t != t + SHM && t + WAL != t + SHM
  }

  lemma SuffixEnds(t: string)
    ensures EndsWith(t + WAL, WAL) && EndsWith(t + SHM, SHM)
    ensures |t + WAL| == |t| + 4 && |t + SHM| == |t| + 4
    ensures (t + WAL)[|t| + 3] == 'l' && (t + SHM)[|t| + 3] == 'm'
    ensures (t + WAL)[..|t|] == t && (t + SHM)[..|t|] == t
  {
  }

  /** Distinct names, none of them a sidecar's, are enough: the check do_rollback makes on --from-prev. */
  lemma GroupsApart(t: string, p: string)
    requires t != p && !IsSidecar(t) && !IsSidecar(p)
    ensures Group(t) !! Group(p) && SelfApart(t)
  {
    SuffixEnds(t);
    SuffixEnds(p);
    assert t + WAL != p + WAL && t + SHM != p + SHM;
    assert t + WAL != p + SHM && t + SHM != p + WAL by {
      if |t| == |p| {
        assert (t + WAL)[|t| + 3] != (p + SHM)[|t| + 3];
        assert (t + SHM)[|t| + 3] != (p + WAL)[|t| + 3];
      }
    }
  }

  lemma SameFiles<C>(f: Files<C>, g: Files<C>)
    requires forall path :: At(f, path) == At(g, path)
    ensures f == g
  {
    forall path
      ensures path in f <==> path in g
      ensures path in f && path in g ==> f[path] == g[path]
    {
      assert At(f, path) == At(g, path);
      if path in f && path in g {
        assert f[path] in At(g, path);
      }
    }
  }

  // ---- which renames are refused ----

  /** No file that is there has its rename refused. */
  predicate Allows(refuse: Trio, there: Trio) {
    && (there.main ==> !refuse.main)
    && (there.wal ==> !refuse.wal)
    && (there.shm ==> !refuse.shm)
  }

  /** The first file that is there has its rename refused, so nothing moves. */
  predicate Blocks(refuse: Trio, there: Trio) {
    if there.main then refuse.main else if there.wal then refuse.wal else there.shm && refuse.shm
  }

  /** Which commands of the swap script fail. */
  datatype Refused = Refused(copy: bool, check: bool, aside: Trio, install: bool, back: Trio, cleanup: bool)

  /** The candidate's rename is reached and goes through. */
  predicate Installs(no: Refused, there: Trio) {
    !no.copy && !no.check && Allows(no.aside, there) && !no.install
  }

  /** The live files end where they were: nothing was renamed, or everything was renamed back. */
  predicate LiveStays(no: Refused, there: Trio) {
    || no.copy || no.check
    || (if Allows(no.aside, there) then no.install && Allows(no.back, there) else Blocks(no.aside, there))
  }

  /** No live file is left. */
  predicate LeavesNone(no: Refused, there: Trio) {
    if no.copy || no.check then !there.main
    else if !Allows(no.aside, there) then !there.main || !no.aside.main
    else no.install && (!there.main || no.back.main)
  }

  function ExitCode(no: Refused, there: Trio): int {
    if no.copy then 1
    else if no.check then 8
    else if !Allows(no.aside, there) then 1
    else if no.install then (if Allows(no.back, there) then 9 else 1)
    else if no.cleanup then 1 else 0
  }

  /** What each exit code says of the commands and of the files that were there. */
  lemma ExitCodesMean(no: Refused, there: Trio)
    ensures ExitCode(no, there) in {0, 1, 8, 9}
    ensures ExitCode(no, there) == 8 <==> !no.copy && no.check
    ensures ExitCode(no, there) == 0 <==>
            && !no.copy && !no.check && !no.install && !no.cleanup
            && !(there.main && no.aside.main) && !(there.wal && no.aside.wal) && !(there.shm && no.aside.shm)
    ensures ExitCode(no, there) == 9 <==>
            && !no.copy && !no.check && no.install
            && !(there.main && (no.aside.main || no.back.main))
            && !(there.wal && (no.aside.wal || no.back.wal))
            && !(there.shm && (no.aside.shm || no.back.shm))
  {
  }

  /** "Every failure leaves the live index in place" holds except in exactly three families: the
      clean-up refused once the candidate is live, a sidecar's rename refused once another file was set
      aside, and a way back that is refused. */
  lemma FailureKeepsLiveExactlyWhen(no: Refused, there: Trio)
    ensures ExitCode(no, there) != 0 && !LiveStays(no, there) <==>
            && !no.copy && !no.check
            && (if !Allows(no.aside, there) then !Blocks(no.aside, there)
                else if no.install then !Allows(no.back, there)
                else no.cleanup)
  {
  }

  /** The three families, at an input each: the clean-up; the -wal of a live file in WAL mode; the way back. */
  lemma FailureLosesLiveFile()
    ensures var no := Refused(false, false, NONE, false, NONE, true);
            ExitCode(no, Trio(true, false, false)) == 1 && Installs(no, Trio(true, false, false))
    ensures var no := Refused(false, false, Trio(false, true, false), false, NONE, false);
            ExitCode(no, Trio(true, true, true)) == 1 && LeavesNone(no, Trio(true, true, true))
    ensures var no := Refused(false, false, NONE, true, Trio(true, false, false), false);
            ExitCode(no, Trio(true, true, true)) == 1 && LeavesNone(no, Trio(true, true, true))
  {
  }

  ghost predicate OnlyCandidateDiffers<C>(before: Files<C>, after: Files<C>, target: string) {
    forall f :: f != target + NEW ==> At(after, f) == At(before, f)
  }

  /** The candidate is live with no sidecar beside it, and what was live is under `prev`. */
  ghost predicate InPlace<C>(before: Files<C>, after: Files<C>, candidate: C, target: string, prev: string) {
    && At(after, target) == {candidate}
    && target + WAL !in after && target + SHM !in after
    && Relocated(before, target, after, prev)
  }

  /** Nothing outside the live group, the set-aside group and the candidate's path changed. */
  ghost predicate Elsewhere<C>(before: Files<C>, after: Files<C>, target: string, prev: string) {
    forall f :: f !in Group(target) && f !in Group(prev) && f != target + NEW ==> At(after, f) == At(before, f)
  }

  lemma ThereAndBack<C>(before: Files<C>, aside: Files<C>, after: Files<C>, target: string, prev: string)
    requires Group(target) !! Group(prev) && Empty(before, prev) && Empty(after, prev)
    requires Relocated(before, target, aside, prev) && Relocated(aside, prev, after, target)
    requires forall f :: f !in Group(target) && f !in Group(prev) ==> At(aside, f) == At(before, f)
    requires forall f :: f !in Group(target) && f !in Group(prev) ==> At(after, f) == At(aside, f)
    ensures forall f :: At(after, f) == At(before, f)
  {
  }

  class Disk<C> {
    var files: Files<C>

    constructor (files: Files<C>)
      ensures this.files == files
    {
      this.files := files;
    }

    /** A program other than `mv` writes or removes one file. */
    method Write(path: string, content: C)
      modifies this
      ensures files == old(files)[path := content]
    {
      files := files[path := content];
    }

    method Remove(path: string)
      modifies this
      ensures files == old(files) - {path}
    {
      files := files - {path};
    }

    /** `mv src dst`; a source that is not there, or a refused rename, is a failure that changes nothing. */
    method Move(src: string, dst: string, refused: bool) returns (ok: bool)
      modifies this
      ensures ok == (src in old(files) && !refused)
      ensures files == if ok then (old(files) - {src})[dst := old(files)[src]] else old(files)
    {
      ok := src in files && !refused;
      if ok {
        files := (files - {src})[dst := files[src]];
      }
    }

    /** `if [ -e src ]; then mv src dst; fi` */
    method MoveIfThere(src: string, dst: string, refused: bool) returns (ok: bool)
      modifies this
      ensures ok == (src !in old(files) || !refused)
      ensures files == if src in old(files) && ok then (old(files) - {src})[dst := old(files)[src]] else old(files)
    {
      ok := true;
      if src in files {
        ok := Move(src, dst, refused);
      }
    }

    /** A database's three files in one direction; the first refused rename ends the script. */
    method MoveGroup(src: string, dst: string, refuse: Trio) returns (ok: bool)
      requires Group(src) !! Group(dst) && SelfApart(src) && SelfApart(dst)
      modifies this
      ensures ok == Allows(refuse, ThereAt(old(files), src))
      ensures ok ==> Empty(files, src)
      ensures src in files <==> src in old(files) && refuse.main
      ensures At(files, src) <= At(old(files), src) && At(files, src + WAL) <= At(old(files), src + WAL)
      ensures Empty(old(files), dst) ==> Held(old(files), src, files, dst)
      ensures Empty(old(files), dst) ==> (dst in files <==> src in old(files) && !refuse.main)
      ensures Empty(old(files), dst) ==> (ok <==> Relocated(old(files), src, files, dst))
      ensures Empty(old(files), dst) ==>
                At(files, dst) <= At(old(files), src) && At(files, dst + WAL) <= At(old(files), src + WAL)
      ensures Blocks(refuse, ThereAt(old(files), src)) || Empty(old(files), src) ==> files == old(files)
      ensures !ok ==> (Relocated(old(files), src, files, src) <==> Blocks(refuse, ThereAt(old(files), src)))
      ensures forall f :: f !in Group(src) && f !in Group(dst) ==> At(files, f) == At(old(files), f)
    {
      ok := MoveIfThere(src, dst, refuse.main);
      if ok {
        ok := MoveIfThere(src + WAL, dst + WAL, refuse.wal);
        if ok {
          ok := MoveIfThere(src + SHM, dst + SHM, refuse.shm);
        }
      }
    }

    /** build_rollback_script: put `prev` back, keep what is live as `aside`. */
    method Rollback(target: string, prev: string, aside: string, away: Trio, back: Trio) returns (rc: int)
      requires Group(target) !! Group(aside) && SelfApart(target) && SelfApart(aside)
      requires prev == target || Apart(target, prev, aside)
      modifies this
      ensures rc == 6 <==> prev !in old(files)
      ensures rc == 6 ==> files == old(files)
      ensures rc == 0 <==>
                && prev in old(files) && prev != target
                && Allows(away, ThereAt(old(files), target)) && Allows(back, ThereAt(old(files), prev))
      ensures rc == 0 || rc == 1 || rc == 6
      // Each database travels with its own sidecars, and nothing stale stays beside the restored one.
      ensures rc == 0 ==> Relocated(old(files), prev, files, target) && Empty(files, prev)
      ensures rc == 0 && Empty(old(files), aside) ==> Relocated(old(files), target, files, aside)
      // Wherever the script stops, no file's content is lost.
      ensures Empty(old(files), aside) ==> Held(old(files), target, files, aside)
      ensures Empty(old(files), aside) && prev != target ==> Held(old(files), prev, files, target)
      // Asked to restore the live file itself, it sets that file aside and has nothing to put back.
      ensures prev == target && target in old(files) && Allows(away, ThereAt(old(files), target)) ==>
                rc == 1 && Empty(files, target)
      ensures forall f :: f !in Group(target) && f !in Group(prev) && f !in Group(aside) ==>
                At(files, f) == At(old(files), f)
    {
      if prev !in files {
        return 6;
      }
      var ok := MoveGroup(target, aside, away);
      if ok && prev in files {
        ok := MoveGroup(prev, target, back);
        rc := if ok then 0 else 1;
      } else {
        rc := 1;
      }
    }

    /** do_rollback with --from-prev: a sidecar's name is refused, which is what keeps the nine paths
        of the script apart. */
    method DoRollback(target: string, fromPrev: string, aside: string, away: Trio, back: Trio) returns (rc: int)
      requires target != aside && fromPrev != aside && !IsSidecar(target) && !IsSidecar(aside)
      modifies this
      ensures IsSidecar(fromPrev) ==> rc == 1 && files == old(files)
      ensures rc == 6 <==> !IsSidecar(fromPrev) && fromPrev !in old(files)
      ensures rc == 6 ==> files == old(files)
      ensures rc == 0 <==>
                && !IsSidecar(fromPrev) && fromPrev in old(files) && fromPrev != target
                && Allows(away, ThereAt(old(files), target)) && Allows(back, ThereAt(old(files), fromPrev))
      ensures rc == 0 ==> Relocated(old(files), fromPrev, files, target) && Empty(files, fromPrev)
      ensures rc == 0 && Empty(old(files), aside) ==> Relocated(old(files), target, files, aside)
      ensures !IsSidecar(fromPrev) && Empty(old(files), aside) ==>
                Held(old(files), target, files, aside)
                    && (fromPrev != target ==> Held(old(files), fromPrev, files, target))
      ensures fromPrev == target && target in old(files) && Allows(away, ThereAt(old(files), target)) ==>
                rc == 1 && Empty(files, target)
    {
      if IsSidecar(fromPrev) {
        return 1;
      }
      GroupsApart(target, aside);
      GroupsApart(aside, target);
      GroupsApart(fromPrev, aside);
      if fromPrev != target {
        GroupsApart(target, fromPrev);
      }
      rc := Rollback(target, fromPrev, aside, away, back);
    }

    /** Rolling back the rollback: the same script with the two names swapped restores every file,
        when there was a live file to set aside; without one it refuses and changes nothing more. */
    method RollbackTwice(target: string, prev: string, aside: string) returns (rc: int)
      requires Apart(target, prev, aside) && prev in files && Empty(files, aside)
      modifies this
      ensures target in old(files) ==> rc == 0 && files == old(files)
      ensures target !in old(files) ==> rc == 6 && Relocated(old(files), prev, files, target)
    {
      rc := Rollback(target, prev, aside, NONE, NONE);
      rc := Rollback(target, aside, prev, NONE, NONE);
      if rc == 0 {
        SameFiles(old(files), files);
      }
    }

    /** The renames, once the verified candidate lies beside the live file. */
    method Exchange(target: string, prev: string, no: Refused) returns (rc: int)
      requires Apart(target, prev, target + NEW) && Empty(files, prev) && target + NEW in files
      requires !no.copy && !no.check
      modifies this
      ensures rc == ExitCode(no, ThereAt(old(files), target))
      ensures Installs(no, ThereAt(old(files), target)) ==>
                InPlace(old(files), files, old(files)[target + NEW], target, prev)
      ensures !Installs(no, ThereAt(old(files), target)) ==>
                At(files, target) <= At(old(files), target) && At(files, target + WAL) <= At(old(files), target + WAL)
      ensures LiveStays(no, ThereAt(old(files), target)) ==> OnlyCandidateDiffers(old(files), files, target)
      ensures old(files)[target + NEW] !in At(old(files), target) ==>
                (Relocated(old(files), target, files, target) <==> LiveStays(no, ThereAt(old(files), target)))
      ensures target !in files <==> LeavesNone(no, ThereAt(old(files), target))
      ensures Held(old(files), target, files, prev)
      ensures Elsewhere(old(files), files, target, prev)
    {
      var ok := MoveGroup(target, prev, no.aside);
      if !ok {
        return 1;
      }
      label aside:
      ok := Move(target + NEW, target, no.install);
      if !ok {
        ok := MoveGroup(prev, target, no.back);
        rc := if ok then 9 else 1;
        if ok {
          ThereAndBack(old(files), old@aside(files), files, target, prev);
        }
        return;
      }
      rc := if no.cleanup then 1 else 0;
    }

    /** build_db_swap_script: copy beside the live file, verify, set the live file aside with its
        sidecars, rename the candidate in, and put the old files back if that rename fails. */
    method SwapIn(candidate: C, target: string, prev: string, no: Refused) returns (rc: int)
      requires Apart(target, prev, target + NEW) && Empty(files, prev)
      modifies this
      ensures rc == ExitCode(no, ThereAt(old(files), target))
      // The candidate is live, alone, and the old files are kept, exactly when its rename goes through.
      ensures Installs(no, ThereAt(old(files), target)) ==> InPlace(old(files), files, candidate, target, prev)
      ensures !Installs(no, ThereAt(old(files), target)) ==>
                At(files, target) <= At(old(files), target) && At(files, target + WAL) <= At(old(files), target + WAL)
      // The live files are where they were exactly when the refusals say so, and then nothing else moved.
      ensures LiveStays(no, ThereAt(old(files), target)) ==> OnlyCandidateDiffers(old(files), files, target)
      ensures candidate !in At(old(files), target) ==>
                (Relocated(old(files), target, files, target) <==> LiveStays(no, ThereAt(old(files), target)))
      ensures target !in files <==> LeavesNone(no, ThereAt(old(files), target))
      // Whatever is refused, no live file's content is lost, and no other database is touched.
      ensures Held(old(files), target, files, prev)
      ensures Elsewhere(old(files), files, target, prev)
    {
      Remove(target + NEW);
      if no.copy {
        return 1;
      }
      Write(target + NEW, candidate);
      if no.check {
        return 8;
      }
      assert ThereAt(files, target) == ThereAt(old(files), target);
      rc := Exchange(target, prev, no);
    }
  }
}
