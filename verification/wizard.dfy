/** OnboardWizard as the UI thread runs it: handlers that update fields, and the pump that drains
    the worker queue. */
module Wizard {
  import opened Options
  import opened WizardModel
  import opened WizardSafety
  import opened WizardRuns

  /** The account of a worker's step: the install is still one, and a completion is queued exactly when
      the worker ends. */
  ghost predicate Accounted(s: State, t: State) {
    && Count(IsWorker, t.threads) + Count(IsCompletion, t.queue) == Count(IsWorker, s.threads)
        + Count(IsCompletion, s.queue)
    && Count(IsCompletion, t.queue) == Count(IsCompletion, s.queue) + (if |t.threads| < |s.threads| then 1 else 0)
    && s.queue <= t.queue && |t.queue| <= |s.queue| + 1
  }

  lemma AdvanceIsAccounted(s: State, i: nat, role: Role, stage: Stage)
    requires i < |s.threads| && s.threads[i].Worker?
    ensures Accounted(s, Advanced(s, i, role, stage))
  {
    CountReplace(IsWorker, s.threads, i, Worker(role, stage));
    hide Count;
  }

  lemma EndIsAccounted(s: State, i: nat, cb: Callback)
    requires i < |s.threads| && s.threads[i].Worker? && IsCompletion(cb)
    ensures Accounted(s, Finished(s, i, cb))
  {
    CountSplit(IsWorker, s.threads, i);
    CountAppend(IsCompletion, s.queue, cb);
    hide Count;
  }

  lemma WorkerAccounts(s: State, i: nat, ok: bool, written: bool)
    requires i < |s.threads| && s.threads[i].Worker?
    ensures Accounted(s, WorkerStep(s, i, ok, written))
  {
    hide Count;
    var role := s.threads[i].role;
    match s.threads[i].stage
    case Starting =>
      AdvanceIsAccounted(s, i, role, Preflighted);
      EndIsAccounted(s, i, InstallFailed);
    case Preflighted =>
      AdvanceIsAccounted(s, i, role, SlateRecorded);
      EndIsAccounted(s, i, InstallFailed);
    case SlateRecorded =>
      AdvanceIsAccounted(s, i, role, SlateDone);
      EndIsAccounted(s, i, InstallFailed);
    case SlateDone =>
      EndIsAccounted(s, i, if ok then ShowFinish else InstallFailed);
  }

  class OnboardWizard {
    var alive: bool
    var page: Page
    var nextPage: nat
    var uiQueue: seq<Callback>
    var threads: seq<Thread>
    var verifyPage: Option<nat>
    var verified: bool
    var installing: bool
    var installPage: nat
    var roleChecking: bool
    var role: Role
    var machine: Machine

    function Snapshot(): State
      reads this
    {
      State(alive, page, nextPage, uiQueue, threads, verifyPage, verified, installing, installPage, roleChecking,
          role, machine)
    }

    /** A computer nothing has been installed on; the wizard is not running. */
    constructor ()
      ensures Fresh(Snapshot()) && Inv(Snapshot())
    {
      alive, page, nextPage := false, Page(0, Welcome), 1;
      uiQueue, threads, verifyPage := [], [], None;
      verified, installing, installPage, roleChecking, role := false, false, 0, false, Editor;
      machine := Machine(None, 0, None, false);
    }

    /** _new_page: the old frame is destroyed, so whatever was asked on it is now asked on no page. */
    method NewPage(kind: PageKind)
      modifies this`page, this`nextPage
      ensures Snapshot() == Show(old(Snapshot()), kind)
      ensures page.kind == kind && page.id == old(nextPage) < nextPage
    {
      page := Page(nextPage, kind);
      nextPage := nextPage + 1;
    }

    /** The process is over: everything but the machine goes with it. */
    method Gone()
      modifies this
      ensures Snapshot() == Dead(old(Snapshot()))
    {
      alive, uiQueue, threads := false, [], [];
      verifyPage, verified, installing, roleChecking := None, false, false, false;
    }

    /** __init__ */
    method Start(licenceAccepted: bool)
      requires Inv(Snapshot())
      modifies this
      ensures Snapshot() == Step(old(Snapshot()), Launch(licenceAccepted)) && Inv(Snapshot())
    {
      hide Inv, BreadcrumbRole;
      StepKeeps(Snapshot(), Launch(licenceAccepted));
      if alive {
        return;
      }
      Gone();
      alive := true;
      var found := BreadcrumbRole(machine.crumb);
      if found.Some? {
        role := found.value;
      }
      if machine.crumb.Some? {
        NewPage(Interrupted);
      } else {
        NewPage(if licenceAccepted then Welcome else Licence);
      }
    }

    /** A navigation button of the page on screen. */
    method OnNavigate(kind: PageKind)
      requires alive && Inv(Snapshot()) && Button(page.kind, kind, role, installing)
      modifies this`page, this`nextPage
      ensures Snapshot() == Step(old(Snapshot()), Go(kind)) && Inv(Snapshot())
    {
      ButtonKeeps(Snapshot(), kind);
      NewPage(kind);
    }

    /** _on_role_next */
    method OnRoleNext(urlGiven: bool)
      requires alive && page.kind == RolePage && Inv(Snapshot())
      modifies this`roleChecking, this`threads
      ensures Snapshot() == Step(old(Snapshot()), RoleNext(urlGiven)) && Inv(Snapshot())
    {
      RoleNextKeeps(Snapshot(), urlGiven);
      if !urlGiven {
        return;
      }
      if roleChecking {
        return;
      }
      roleChecking := true;
      threads := threads + [RoleCheck(role)];
    }

    /** _on_verify */
    method OnVerify(filled: bool)
      requires alive && page.kind == Signin && Inv(Snapshot())
      modifies this`verifyPage, this`threads
      ensures Snapshot() == Step(old(Snapshot()), PressVerify(filled)) && Inv(Snapshot())
    {
      VerifyKeeps(Snapshot(), filled);
      if verifyPage == Some(page.id) {
        return;
      }
      if !filled {
        return;
      }
      verifyPage := Some(page.id);
      threads := threads + [Verify(page.id)];
    }

    /** _on_begin_install */
    method OnBeginInstall(refused: bool)
      requires alive && page.kind == Install && Inv(Snapshot())
      modifies this`installing, this`installPage, this`threads
      ensures Snapshot() == Step(old(Snapshot()), BeginInstall(refused)) && Inv(Snapshot())
    {
      InstallKeeps(Snapshot(), refused);
      if installing || refused {
        return;
      }
      installing, installPage := true, page.id;
      threads := threads + [Worker(role, Starting)];
    }

    /** The callback of the role check. */
    method OnRoleChecked(refused: bool, asked: Role, edited: bool)
      modifies this`roleChecking, this`page, this`nextPage
      ensures Snapshot() == RoleDone(old(Snapshot()), refused, asked, edited)
      ensures page == old(page) || (old(page.kind) == RolePage && role == asked && !refused && !edited)
      ensures page != old(page) ==> page.id == old(nextPage) && (page.kind == Signin <==> role == Base)
    {
      roleChecking := false;
      if page.kind != RolePage {
        return;
      }
      if edited || role != asked {
        return;
      }
      if refused {
        return;
      }
      if asked == Base {
        NewPage(Signin);
      } else {
        NewPage(Tailscale);
      }
    }

    /** The callback of a sign-in request made on frame `asked`. */
    method OnVerified(asked: nat, ok: bool)
      modifies this`verifyPage, this`verified, this`page, this`nextPage
      ensures Snapshot() == VerifyDone(old(Snapshot()), asked, ok)
      ensures verifyPage != Some(asked) && (old(verifyPage) != Some(asked) ==> verifyPage == old(verifyPage))
      ensures old(page.id) != asked || !ok ==> page == old(page) && verified == old(verified)
      ensures old(page.id) == asked && ok ==> verified && page == Page(old(nextPage), Privacy)
    {
      if verifyPage == Some(asked) {
        verifyPage := None;
      }
      if page.id != asked {
        return;
      }
      if !ok {
        return;
      }
      verified := true;
      NewPage(Privacy);
    }

    /** show_finish and show_finish_base, with the _install_finished they both start with. */
    method OnFinish()
      modifies this`installing, this`machine, this`page, this`nextPage
      ensures Snapshot() == InstallDone(old(Snapshot()))
      ensures !installing && BreadcrumbRole(machine.crumb) == None && machine.open == None
      ensures machine.touched == old(machine.touched) && page == Page(old(nextPage), Finish)
    {
      installing := false;
      machine := machine.(crumb := None, open := None);
      NewPage(Finish);
    }

    /** One queued callback. */
    method RunCallback(cb: Callback, edited: bool)
      modifies this
      ensures Snapshot() == Ran(old(Snapshot()), cb, edited)
    {
      match cb {
        case RoleChecked(refused, asked) => OnRoleChecked(refused, asked, edited);
        case Verified(asked, ok) => OnVerified(asked, ok);
        case InstallFailed => installing := false;
        case ShowFinish => OnFinish();
      }
    }

    /** _drain: everything on the queue, first in first out, each callback on the fields as they are when
        its turn comes. Afterwards an install is running exactly when its worker is. */
    method Drain(edits: seq<bool>)
      requires alive && Inv(Snapshot()) && |edits| == |uiQueue|
      modifies this
      ensures Snapshot() == Drained(old(Snapshot()), edits)
      ensures alive && Inv(Snapshot()) && uiQueue == [] && threads == old(threads)
      ensures installing <==> Count(IsWorker, threads) == 1
    {
      hide Inv, Ran;
      DrainSettles(Snapshot(), edits);
      ghost var start := Snapshot();
      var k := 0;
      while uiQueue != []
        invariant k <= |edits| && |uiQueue| == |edits| - k
        invariant Drained(Snapshot(), edits[k..]) == Drained(start, edits)
        decreases |uiQueue|
      {
        PumpOne(edits[k]);
        assert edits[k..][1..] == edits[k + 1..];
        k := k + 1;
      }
    }

    /** A worker thread makes its next step: it changes the machine or the queue, never the page. */
    method RunThread(i: nat, ok: bool, written: bool)
      requires alive && Inv(Snapshot()) && i < |threads|
      modifies this`threads, this`uiQueue, this`machine
      ensures Snapshot() == Step(old(Snapshot()), ThreadStep(i, ok, written)) && Inv(Snapshot())
    {
      hide Inv;
      ThreadStepKeeps(Snapshot(), i, ok, written);
      match threads[i] {
        case RoleCheck(asked) => PutAndEnd(i, RoleChecked(!ok, asked));
        case Verify(asked) => PutAndEnd(i, Verified(asked, ok));
        case Worker(_, _) => RunWorker(i, ok, written);
      }
    }

    /** _worker_editor and _worker_base, one step: the two refusals, the breadcrumb, the clean slate, the rest. */
    method RunWorker(i: nat, ok: bool, written: bool)
      requires i < |threads| && threads[i].Worker?
      modifies this`threads, this`uiQueue, this`machine
      ensures Snapshot() == WorkerStep(old(Snapshot()), i, ok, written)
      // A worker and the completion it will queue are one install: the step keeps their number, queues
      // that completion exactly when it ends the worker, and uses up one of the worker's steps.
      ensures Accounted(old(Snapshot()), Snapshot())
      ensures Sum(threads) < old(Sum(threads))
    {
      ghost var before := Snapshot();
      WorkerAccounts(before, i, ok, written);
      WorkerStepUses(before, i, ok, written);
      StepWorker(i, ok, written);
      hide WorkerStep, Accounted;
      assert Snapshot() == WorkerStep(before, i, ok, written);
    }

    method StepWorker(i: nat, ok: bool, written: bool)
      requires i < |threads| && threads[i].Worker?
      modifies this`threads, this`uiQueue, this`machine
      ensures Snapshot() == WorkerStep(old(Snapshot()), i, ok, written)
    {
      var runAs := threads[i].role;
      match threads[i].stage {
        case Starting =>
          if ok {
            threads := threads[i := Worker(runAs, Preflighted)];
          } else {
            PutAndEnd(i, InstallFailed);
          }
        case Preflighted =>
          if ok {
            machine := Recorded(machine, runAs, written);
            threads := threads[i := Worker(runAs, SlateRecorded)];
          } else {
            PutAndEnd(i, InstallFailed);
          }
        case SlateRecorded =>
          machine := machine.(touched := machine.touched + 1);
          if ok {
            threads := threads[i := Worker(runAs, SlateDone)];
          } else {
            PutAndEnd(i, InstallFailed);
          }
        case SlateDone => PutAndEnd(i, if ok then ShowFinish else InstallFailed);
      }
    }

    /** _safe_after, as the last act of a thread. */
    method PutAndEnd(i: nat, cb: Callback)
      requires i < |threads|
      modifies this`threads, this`uiQueue
      ensures Snapshot() == Finished(old(Snapshot()), i, cb)
    {
      uiQueue := uiQueue + [cb];
      threads := threads[..i] + threads[i + 1..];
    }

    /** _on_close_request */
    method OnCloseRequest(closeAnyway: bool)
      requires alive && Inv(Snapshot())
      modifies this
      ensures Snapshot() == Step(old(Snapshot()), Close(closeAnyway)) && Inv(Snapshot())
    {
      hide Inv;
      StepKeeps(Snapshot(), Close(closeAnyway));
      if installing && !closeAnyway {
        return;
      }
      Gone();
    }

    /** One event of a run, by the handler it goes to; a control that is not on screen cannot be used. */
    method Perform(e: Event)
      requires Inv(Snapshot())
      modifies this
      ensures Snapshot() == Step(old(Snapshot()), e) && Inv(Snapshot())
    {
      hide Inv, ThreadStepped, Relaunched, Ran;
      StepKeeps(Snapshot(), e);
      if !alive {
        if e.Launch? {
          Start(e.licenceAccepted);
        }
        return;
      }
      match e {
        case Launch(_) =>
        case Go(kind) =>
          if Button(page.kind, kind, role, installing) {
            OnNavigate(kind);
          }
        case PickRole(picked) =>
          if page.kind == RolePage {
            role := picked;
          }
        case RoleNext(urlGiven) =>
          if page.kind == RolePage {
            OnRoleNext(urlGiven);
          }
        case PressVerify(filled) =>
          if page.kind == Signin {
            OnVerify(filled);
          }
        case BeginInstall(refused) =>
          if page.kind == Install {
            OnBeginInstall(refused);
          }
        case ThreadStep(i, ok, written) => RunAnyThread(i, ok, written);
        case Pump(edited) => PumpOne(edited);
        case Close(confirmed) => OnCloseRequest(confirmed);
        case Crash => Gone();
      }
    }

    method RunAnyThread(i: nat, ok: bool, written: bool)
      requires alive && Inv(Snapshot())
      modifies this`threads, this`uiQueue, this`machine
      ensures Snapshot() == ThreadStepped(old(Snapshot()), i, ok, written)
    {
      hide Inv;
      if i < |threads| {
        RunThread(i, ok, written);
      }
    }

    /** One turn of the loop in _drain. */
    method PumpOne(edited: bool)
      modifies this
      ensures Snapshot() == Pumped(old(Snapshot()), edited)
    {
      hide Ran;
      if uiQueue != [] {
        var cb := uiQueue[0];
        uiQueue := uiQueue[1..];
        RunCallback(cb, edited);
      }
    }

    /** Any run, event by event: what the theorems say of `After` is said of these handlers. */
    method Run(events: seq<Event>)
      requires Inv(Snapshot())
      modifies this
      ensures Snapshot() == After(old(Snapshot()), events) && Inv(Snapshot())
    {
      hide Inv, Step;
      ghost var start := Snapshot();
      for k := 0 to |events|
        invariant Snapshot() == After(start, events[..k]) && Inv(Snapshot())
      {
        assert events[..k + 1][..k] == events[..k];
        Perform(events[k]);
      }
      assert events[..|events|] == events;
    }
  }
}
