/** What holds of whole runs of the wizard: role checks, the finish page, attempts that are refused, and
    how an install comes to an end. */
module WizardRuns {
  import opened Options
  import opened WizardModel
  import opened WizardSafety

  // ---- one role check at a time ----

  predicate IsCheck(t: Thread) {
    t.RoleCheck?
  }

  predicate IsChecked(cb: Callback) {
    cb.RoleChecked?
  }

  /** Role checks still running, or answered and not yet run. */
  function Checks(s: State): nat {
    Count(IsCheck, s.threads) + Count(IsChecked, s.queue)
  }

  ghost predicate RoleTracked(s: State) {
    Checks(s) == if s.roleChecking then 1 else 0
  }

  lemma FinishedChecks(s: State, i: nat, cb: Callback)
    requires i < |s.threads| && s.threads[i].RoleCheck? == cb.RoleChecked?
    ensures Checks(Finished(s, i, cb)) == Checks(s)
  {
    CountSplit(IsCheck, s.threads, i);
    CountAppend(IsChecked, s.queue, cb);
  }

  lemma AdvancedChecks(s: State, i: nat, role: Role, stage: Stage)
    requires i < |s.threads| && s.threads[i].Worker?
    ensures Checks(Advanced(s, i, role, stage)) == Checks(s)
  {
    CountReplace(IsCheck, s.threads, i, Worker(role, stage));
  }

  lemma WorkerKeepsChecks(s: State, i: nat, ok: bool, written: bool)
    requires i < |s.threads| && s.threads[i].Worker?
    ensures Checks(WorkerStep(s, i, ok, written)) == Checks(s)
    ensures WorkerStep(s, i, ok, written).roleChecking == s.roleChecking
  {
    hide Count, Checks;
    var role := s.threads[i].role;
    match s.threads[i].stage
    case Starting =>
      AdvancedChecks(s, i, role, Preflighted);
      FinishedChecks(s, i, InstallFailed);
    case Preflighted =>
      var recorded := s.(machine := Recorded(s.machine, role, written));
      SameChecks(s, recorded);
      AdvancedChecks(recorded, i, role, SlateRecorded);
      FinishedChecks(s, i, InstallFailed);
    case SlateRecorded =>
      var touched := s.(machine := s.machine.(touched := s.machine.touched + 1));
      SameChecks(s, touched);
      AdvancedChecks(touched, i, role, SlateDone);
      FinishedChecks(touched, i, InstallFailed);
    case SlateDone =>
      FinishedChecks(s, i, if ok then ShowFinish else InstallFailed);
  }

  lemma SameChecks(s: State, t: State)
    requires t.threads == s.threads && t.queue == s.queue
    ensures Checks(t) == Checks(s)
  {
  }

  lemma ThreadKeepsChecks(s: State, i: nat, ok: bool, written: bool)
    requires RoleTracked(s)
    ensures RoleTracked(ThreadStepped(s, i, ok, written))
  {
    if i < |s.threads| {
      match s.threads[i]
      case RoleCheck(role) => FinishedChecks(s, i, RoleChecked(!ok, role));
      case Verify(page) => FinishedChecks(s, i, Verified(page, ok));
      case Worker(_, _) => WorkerKeepsChecks(s, i, ok, written);
    }
  }

  lemma PumpKeepsChecks(s: State, edited: bool)
    requires RoleTracked(s)
    ensures RoleTracked(Pumped(s, edited))
  {
    if s.queue != [] {
      var popped := s.(queue := s.queue[1..]);
      assert Checks(s) == Checks(popped) + (if IsChecked(s.queue[0]) then 1 else 0);
      assert Checks(Pumped(s, edited)) == Checks(popped);
    }
  }

  lemma StepKeepsChecks(s: State, e: Event)
    requires RoleTracked(s)
    ensures RoleTracked(Step(s, e))
  {
    if s.alive {
      match e
      case RoleNext(_) => CountAppend(IsCheck, s.threads, RoleCheck(s.role));
      case PressVerify(_) => CountAppend(IsCheck, s.threads, Verify(s.page.id));
      case BeginInstall(_) => CountAppend(IsCheck, s.threads, Worker(s.role, Starting));
      case ThreadStep(i, ok, written) => ThreadKeepsChecks(s, i, ok, written);
      case Pump(edited) => PumpKeepsChecks(s, edited);
      case _ =>
    }
  }

  /** Over every run: one address check while `_role_checking` is set, none otherwise. */
  lemma {:induction false} OneRoleCheckAtATime(s0: State, events: seq<Event>)
    requires Fresh(s0)
    ensures RoleTracked(After(s0, events))
    decreases |events|
  {
    if events != [] {
      var before := events[..|events| - 1];
      OneRoleCheckAtATime(s0, before);
      StepKeepsChecks(After(s0, before), events[|events| - 1]);
    }
  }

  /** An answered check moves the wizard on from a role page nobody edited, to the page of its role, or
      not at all; and it never touches a sign-in, an install or the machine. */
  lemma RoleAnswerMovesOnExactlyWhen(s: State, edited: bool)
    requires s.alive && Inv(s) && s.queue != [] && s.queue[0].RoleChecked?
    ensures var t, cb := Pumped(s, edited), s.queue[0];
            && !t.roleChecking
            && (t.page != s.page <==> s.page.kind == RolePage && !edited && s.role == cb.role && !cb.refused)
            && (t.page != s.page ==> t.page.kind == (if s.role == Base then Signin else Tailscale) && !s.installing)
            && t.machine == s.machine && t.verified == s.verified && Installs(t) == Installs(s)
            && forall page :: InFlight(t, page) == InFlight(s, page)
  {
    PopCounts(s);
    var popped := s.(queue := s.queue[1..]);
    assert Installs(Pumped(s, edited)) == Installs(popped);
    assert forall page :: InFlight(Pumped(s, edited), page) == InFlight(popped, page);
  }

  // ---- the finish page ----

  /** On the finish page nothing is half done: no install, no breadcrumb, no open slate. */
  ghost predicate Settled(s: State) {
    s.alive && s.page.kind == Finish ==> !s.installing && s.machine.crumb == None && s.machine.open == None
  }

  lemma NoInstallNoWorker(s: State, i: nat)
    requires InstallTracked(s) && i < |s.threads| && s.threads[i].Worker?
    ensures s.installing
  {
    CountAtLeast(IsWorker, s.threads, i, i);
  }

  lemma NoInstallNoCompletion(s: State)
    requires InstallTracked(s) && s.queue != [] && IsCompletion(s.queue[0])
    ensures s.installing
  {
  }

  lemma ThreadsLeaveFinishAlone(s: State, i: nat, ok: bool, written: bool)
    requires s.alive && Inv(s) && s.page.kind == Finish
    ensures ThreadStepped(s, i, ok, written).machine == s.machine
    ensures ThreadStepped(s, i, ok, written).page == s.page
            && ThreadStepped(s, i, ok, written).installing == s.installing
  {
    hide SigninsTracked, Installs;
    if i < |s.threads| && s.threads[i].Worker? {
      NoInstallNoWorker(s, i);
    }
  }

  lemma PumpLeavesFinishAlone(s: State, edited: bool)
    requires s.alive && Inv(s) && s.page.kind == Finish
    ensures var t := Pumped(s, edited); t.machine == s.machine && t.page == s.page && t.installing == s.installing
  {
    if s.queue != [] {
      if s.queue[0].Verified? {
        AnswersAreForSigninPages(s);
      } else if IsCompletion(s.queue[0]) {
        NoInstallNoCompletion(s);
      }
    }
    hide SigninsTracked, Installs;
  }

  /** Nothing but closing leads off the finish page, and nothing on it changes the machine. */
  lemma FinishStays(s: State, e: Event)
    requires s.alive && Inv(s) && s.page.kind == Finish
    ensures var t := Step(s, e);
            t.machine == s.machine && (t.alive ==> t.page == s.page && t.installing == s.installing)
  {
    match e
    case ThreadStep(i, ok, written) => ThreadsLeaveFinishAlone(s, i, ok, written);
    case Pump(edited) => PumpLeavesFinishAlone(s, edited);
    case _ =>
  }

  /** The finish page is only ever entered by its own callback, which settles everything. */
  lemma FinishIsEntered(s: State, e: Event)
    requires !(s.alive && s.page.kind == Finish) && Step(s, e).alive && Step(s, e).page.kind == Finish
    ensures Settled(Step(s, e))
  {
  }

  /** Over every run: the finish page means a finished install, and it is the last page of that run. */
  lemma {:induction false} FinishIsFinal(s0: State, events: seq<Event>, e: Event)
    requires Fresh(s0)
    ensures Settled(After(s0, events))
    ensures var s := After(s0, events);
            s.alive && s.page.kind == Finish ==>
              && Installs(s) == 0
              && Step(s, e).machine == s.machine
              && (Step(s, e).alive ==> Step(s, e).page == s.page)
    decreases |events|
  {
    ReachableKeeps(s0, events);
    var s := After(s0, events);
    if events != [] {
      var before := events[..|events| - 1];
      var last := events[|events| - 1];
      ReachableKeeps(s0, before);
      FinishIsFinal(s0, before, last);
      SettledAgain(After(s0, before), last);
    }
    if s.alive && s.page.kind == Finish {
      hide Step, Installs;
      FinishStays(s, e);
    }
  }

  lemma SettledAgain(s: State, e: Event)
    requires Inv(s) && Settled(s)
    ensures Settled(Step(s, e))
  {
    hide Step, Inv;
    if Step(s, e).alive && Step(s, e).page.kind == Finish {
      if s.alive && s.page.kind == Finish {
        FinishStays(s, e);
      } else {
        FinishIsEntered(s, e);
      }
    }
  }

  // ---- an install ends ----

  /** Steps an install worker has before it: four at first. */
  function StepsLeft(t: Thread): (n: nat)
    ensures t.Worker? <==> n > 0
    ensures n <= 4
  {
    match t
    case Worker(_, stage) =>
      (match stage case Starting => 4 case Preflighted => 3 case SlateRecorded => 2 case SlateDone => 1)
    case _ => 0
  }

  function Sum(threads: seq<Thread>): nat {
    if threads == [] then 0 else StepsLeft(threads[0]) + Sum(threads[1..])
  }

  lemma {:induction false} SumConcat(xs: seq<Thread>, ys: seq<Thread>)
    ensures Sum(xs + ys) == Sum(xs) + Sum(ys)
  {
    hide StepsLeft;
    if xs == [] {
      assert xs + ys == ys;
    } else {
      assert (xs + ys)[1..] == xs[1..] + ys;
      SumConcat(xs[1..], ys);
    }
  }

  lemma SumOne(t: Thread)
    ensures Sum([t]) == StepsLeft(t)
  {
  }

  lemma {:induction false} SumSplit(xs: seq<Thread>, i: nat)
    requires i < |xs|
    ensures Sum(xs) == Sum(xs[..i] + xs[i + 1..]) + StepsLeft(xs[i])
  {
    hide StepsLeft, Sum;
    assert xs == xs[..i] + ([xs[i]] + xs[i + 1..]);
    SumConcat(xs[..i], [xs[i]] + xs[i + 1..]);
    SumConcat([xs[i]], xs[i + 1..]);
    SumConcat(xs[..i], xs[i + 1..]);
    SumOne(xs[i]);
  }

  lemma SumReplace(xs: seq<Thread>, i: nat, t: Thread)
    requires i < |xs|
    ensures Sum(xs[i := t]) == Sum(xs) - StepsLeft(xs[i]) + StepsLeft(t)
  {
    SumSplit(xs, i);
    SumSplit(xs[i := t], i);
    assert xs[i := t][..i] + xs[i := t][i + 1..] == xs[..i] + xs[i + 1..];
  }

  /** At most one worker: at most four steps, and none exactly when no worker runs. */
  lemma SumIsBounded(threads: seq<Thread>)
    ensures Sum(threads) <= 4 * Count(IsWorker, threads)
    ensures Sum(threads) == 0 <==> Count(IsWorker, threads) == 0
  {
    if threads != [] {
      SumIsBounded(threads[1..]);
    }
  }

  predicate StepsWorker(s: State, e: Event) {
    s.alive && e.ThreadStep? && e.i < |s.threads| && s.threads[e.i].Worker?
  }

  /** How many steps of install workers a run makes. */
  function WorkerSteps(s: State, events: seq<Event>): nat
    decreases |events|
  {
    if events == [] then 0
    else
      var before := events[..|events| - 1];
      WorkerSteps(s, before) + (if StepsWorker(After(s, before), events[|events| - 1]) then 1 else 0)
  }

  lemma WorkerStepUses(s: State, i: nat, ok: bool, written: bool)
    requires i < |s.threads| && s.threads[i].Worker?
    ensures Sum(WorkerStep(s, i, ok, written).threads) < Sum(s.threads)
  {
    SumSplit(s.threads, i);
    var role := s.threads[i].role;
    match s.threads[i].stage
    case Starting => AdvanceUses(s.threads, i, Worker(role, Preflighted));
    case Preflighted => AdvanceUses(s.threads, i, Worker(role, SlateRecorded));
    case SlateRecorded => AdvanceUses(s.threads, i, Worker(role, SlateDone));
    case SlateDone =>
  }

  lemma AdvanceUses(threads: seq<Thread>, i: nat, t: Thread)
    requires i < |threads| && StepsLeft(t) < StepsLeft(threads[i])
    ensures Sum(threads[i := t]) < Sum(threads)
  {
    SumReplace(threads, i, t);
  }

  /** During an install nothing adds to its worker's steps, and each step of the worker uses one up. */
  lemma StepUses(s: State, e: Event)
    requires s.alive && s.installing
    ensures Sum(Step(s, e).threads) + (if StepsWorker(s, e) then 1 else 0) <= Sum(s.threads)
  {
    match e
    case ThreadStep(i, ok, written) =>
      if i < |s.threads| {
        if s.threads[i].Worker? {
          WorkerStepUses(s, i, ok, written);
        } else {
          SumSplit(s.threads, i);
        }
      }
    case RoleNext(_) => SumConcat(s.threads, [RoleCheck(s.role)]);
    case PressVerify(_) => SumConcat(s.threads, [Verify(s.page.id)]);
    case _ =>
  }

  lemma {:induction false} StepsUsed(s: State, events: seq<Event>)
    requires forall k :: 0 <= k < |events| ==> After(s, events[..k]).alive && After(s, events[..k]).installing
    ensures WorkerSteps(s, events) + Sum(After(s, events).threads) <= Sum(s.threads)
    decreases |events|
  {
    hide Step, StepsWorker, Sum;
    if events != [] {
      var n := |events| - 1;
      var before := events[..n];
      forall k | 0 <= k < |before|
        ensures After(s, before[..k]).alive && After(s, before[..k]).installing
      {
        assert before[..k] == events[..k];
      }
      StepsUsed(s, before);
      StepUses(After(s, before), events[n]);
    }
  }

  /** Draining the queue leaves an install running exactly when its worker still is. */
  lemma {:induction false} DrainSettles(s: State, edits: seq<bool>)
    requires s.alive && Inv(s) && |edits| == |s.queue|
    ensures var t := Drained(s, edits);
            && t.alive && Inv(t) && t.queue == [] && t.threads == s.threads
            && (t.installing <==> Count(IsWorker, s.threads) == 1)
    decreases |s.queue|
  {
    if s.queue != [] {
      PumpKeeps(s, edits[0]);
      hide Inv, Ran;
      DrainSettles(Pumped(s, edits[0]), edits[1..]);
    }
  }

  /** Every queued callback run in order, each on the fields as they are when its turn comes. */
  function Drained(s: State, edits: seq<bool>): State
    decreases |edits|
  {
    if s.queue == [] || edits == [] then s else Drained(Pumped(s, edits[0]), edits[1..])
  }

  /** An install takes at most four steps of its worker, whatever is clicked, answered or drained in
      between; once it has taken them the worker is gone, and draining the queue lowers `_installing`. */
  lemma InstallEnds(s0: State, prior: seq<Event>, events: seq<Event>, edits: seq<bool>)
    requires Fresh(s0)
    requires var s := After(s0, prior);
             forall k :: 0 <= k <= |events| ==> After(s, events[..k]).alive && After(s, events[..k]).installing
    ensures WorkerSteps(After(s0, prior), events) <= 4
    ensures var t := After(After(s0, prior), events);
            WorkerSteps(After(s0, prior), events) == 4 && |edits| == |t.queue| ==>
              Count(IsWorker, t.threads) == 0 && !Drained(t, edits).installing
  {
    var s := After(s0, prior);
    var t := After(s, events);
    ReachableKeeps(s0, prior);
    AfterKeeps(s, events);
    assert events[..0] == [] && events[..|events|] == events;
    StepsUsed(s, events);
    SumIsBounded(s.threads);
    SumIsBounded(t.threads);
    if |edits| == |t.queue| {
      DrainSettles(t, edits);
    }
    hide Step, Drained, WorkerSteps, SigninsTracked, Sum;
  }

  lemma {:induction false} AfterKeeps(s: State, events: seq<Event>)
    requires Inv(s)
    ensures Inv(After(s, events))
    decreases |events|
  {
    hide Inv, Step;
    if events != [] {
      AfterKeeps(s, events[..|events| - 1]);
      StepKeeps(After(s, events[..|events| - 1]), events[|events| - 1]);
    }
  }

  // ---- an attempt that is refused ----

  /** From the press of INSTALL on, before its clean slate: the machine is as it was, and so is the page. */
  ghost predicate Preparing(s: State, machine: Machine, page: Page) {
    && s.alive && s.machine == machine && s.page == page
    && (s.installing ==> ShowFinish !in s.queue)
    && (s.installing ==> forall t :: t in s.threads && t.Worker? ==> t.stage == Starting || t.stage == Preflighted)
  }

  /** Neither a close or crash, nor the step with which a worker starts its clean slate. */
  predicate KeepsPreparing(s: State, e: Event) {
    && !e.Crash? && !(e.Close? && e.confirmed)
    && !(StepsWorker(s, e) && e.ok && s.threads[e.i].stage == Preflighted)
  }

  lemma ThreadKeepsPreparing(s: State, i: nat, ok: bool, written: bool, machine: Machine, page: Page)
    requires Preparing(s, machine, page) && s.installing && i < |s.threads|
    requires s.threads[i].Worker? && s.threads[i].stage == Preflighted ==> !ok
    ensures Preparing(ThreadStepped(s, i, ok, written), machine, page)
  {
    assert s.threads[i] in s.threads;
    var t := ThreadStepped(s, i, ok, written);
    forall u | u in t.threads && u.Worker?
      ensures u.stage == Starting || u.stage == Preflighted
    {
      assert u in s.threads || u.stage == Preflighted;
    }
  }

  lemma PumpKeepsPreparing(s: State, edited: bool, machine: Machine, page: Page)
    requires Inv(s) && Preparing(s, machine, page) && s.installing
    ensures Preparing(Pumped(s, edited), machine, page)
  {
    if s.queue != [] {
      assert s.queue[0] in s.queue;
      if s.queue[0].Verified? {
        AnswersAreForSigninPages(s);
      }
      hide SigninsTracked, Installs;
    }
  }

  lemma StepKeepsPreparing(s: State, e: Event, machine: Machine, page: Page)
    requires Inv(s) && Preparing(s, machine, page) && s.installing && KeepsPreparing(s, e)
    ensures Preparing(Step(s, e), machine, page)
  {
    match e
    case ThreadStep(i, ok, written) =>
      if i < |s.threads| {
        ThreadKeepsPreparing(s, i, ok, written, machine, page);
      }
    case Pump(edited) => PumpKeepsPreparing(s, edited, machine, page);
    case _ => hide SigninsTracked, Installs, Pumped, ThreadStepped;
  }

  lemma {:induction false} AttemptKeepsPreparing(s: State, events: seq<Event>, machine: Machine, page: Page)
    requires Inv(s) && Preparing(s, machine, page)
    requires forall k :: 0 <= k < |events| ==>
               After(s, events[..k]).installing && KeepsPreparing(After(s, events[..k]), events[k])
    ensures Preparing(After(s, events), machine, page)
    decreases |events|
  {
    hide Step, Inv, Preparing, KeepsPreparing;
    if events != [] {
      var n := |events| - 1;
      var before := events[..n];
      forall k | 0 <= k < |before|
        ensures After(s, before[..k]).installing && KeepsPreparing(After(s, before[..k]), before[k])
      {
        assert before[..k] == events[..k];
      }
      AttemptKeepsPreparing(s, before, machine, page);
      AfterKeeps(s, before);
      StepKeepsPreparing(After(s, before), events[n], machine, page);
    }
  }

  lemma PressPrepares(s: State)
    requires Inv(s) && s.alive && s.page.kind == Install && !s.installing
    ensures var t := Step(s, BeginInstall(false));
            t.installing && Inv(t) && Preparing(t, s.machine, s.page)
  {
    InstallKeeps(s, false);
    forall i | 0 <= i < |s.threads| && s.threads[i].Worker?
      ensures false
    {
      NoInstallNoWorker(s, i);
    }
    if ShowFinish in s.queue {
      var i :| 0 <= i < |s.queue| && s.queue[i] == ShowFinish;
      CountAtLeast(IsCompletion, s.queue, i, i);
    }
  }

  /** An attempt refused before its clean slate, from the press of INSTALL up to and including the pump of
      its refusal, over any other events: the machine is untouched and the page is still that install
      page, which gets its button back when `_installing` falls. */
  lemma RefusalsTouchNothing(s0: State, prior: seq<Event>, events: seq<Event>)
    requires Fresh(s0)
    requires var s := After(s0, prior); s.alive && s.page.kind == Install && !s.installing
    requires var t := Step(After(s0, prior), BeginInstall(false));
             forall k :: 0 <= k < |events| ==>
               After(t, events[..k]).installing && KeepsPreparing(After(t, events[..k]), events[k])
    ensures var s := After(s0, prior);
            var u := After(Step(s, BeginInstall(false)), events);
            u.alive && u.machine == s.machine && u.page == s.page
    ensures var s := After(s0, prior);
            var u := After(Step(s, BeginInstall(false)), events);
            !u.installing ==> Installs(u) == 0 && Step(u, BeginInstall(false)).installing
  {
    var s := After(s0, prior);
    ReachableKeeps(s0, prior);
    hide Inv, Preparing, KeepsPreparing;
    PressPrepares(s);
    var t := Step(s, BeginInstall(false));
    AttemptKeepsPreparing(t, events, s.machine, s.page);
    AfterKeeps(t, events);
    hide Step, After;
    PreparedPage(After(t, events), s.machine, s.page);
  }

  lemma PreparedPage(u: State, machine: Machine, page: Page)
    requires Inv(u) && Preparing(u, machine, page) && page.kind == Install
    ensures u.alive && u.machine == machine && u.page == page
    ensures !u.installing ==> Installs(u) == 0 && Step(u, BeginInstall(false)).installing
  {
    hide SigninsTracked, Installs;
  }
}
