/** What every reachable state of the wizard keeps, over any sequence of launches, clicks, thread
    steps, queue pumps, closes and crashes. */
module WizardSafety {
  import opened Options
  import opened WizardModel

  function Count<T>(f: T -> bool, xs: seq<T>): nat {
    if xs == [] then 0 else (if f(xs[0]) then 1 else 0) + Count(f, xs[1..])
  }

  lemma CountConcat<T>(f: T -> bool, xs: seq<T>, ys: seq<T>)
    ensures Count(f, xs + ys) == Count(f, xs) + Count(f, ys)
  {
    if xs == [] {
      assert xs + ys == ys;
    } else {
      assert (xs + ys)[1..] == xs[1..] + ys;
      CountConcat(f, xs[1..], ys);
    }
  }

  lemma CountAtLeast<T>(f: T -> bool, xs: seq<T>, i: nat, j: nat)
    requires i < |xs| && j < |xs| && f(xs[i]) && f(xs[j])
    ensures Count(f, xs) >= 1
    ensures i != j ==> Count(f, xs) >= 2
  {
    CountSplit(f, xs, i);
    if i != j {
      var rest := xs[..i] + xs[i + 1..];
      var k := if j < i then j else j - 1;
      assert rest[k] == xs[j];
      CountSplit(f, rest, k);
    }
  }

  lemma CountAppend<T>(f: T -> bool, xs: seq<T>, x: T)
    ensures Count(f, xs + [x]) == Count(f, xs) + (if f(x) then 1 else 0)
  {
    CountConcat(f, xs, [x]);
  }

  lemma CountSplit<T>(f: T -> bool, xs: seq<T>, i: nat)
    requires i < |xs|
    ensures Count(f, xs) == Count(f, xs[..i] + xs[i + 1..]) + (if f(xs[i]) then 1 else 0)
  {
    assert xs == xs[..i] + ([xs[i]] + xs[i + 1..]);
    CountConcat(f, xs[..i], [xs[i]] + xs[i + 1..]);
    CountConcat(f, [xs[i]], xs[i + 1..]);
    CountConcat(f, xs[..i], xs[i + 1..]);
  }

  lemma CountReplace<T>(f: T -> bool, xs: seq<T>, i: nat, x: T)
    requires i < |xs|
    ensures Count(f, xs[i := x]) == Count(f, xs) - (if f(xs[i]) then 1 else 0) + (if f(x) then 1 else 0)
  {
    CountSplit(f, xs, i);
    CountSplit(f, xs[i := x], i);
    assert xs[i := x][..i] + xs[i := x][i + 1..] == xs[..i] + xs[i + 1..];
  }

  predicate IsWorker(t: Thread) {
    t.Worker?
  }

  predicate IsCompletion(cb: Callback) {
    cb.InstallFailed? || cb.ShowFinish?
  }

  function Verifies(page: nat): Thread -> bool {
    (t: Thread) => t == Verify(page)
  }

  function Answers(page: nat): Callback -> bool {
    (cb: Callback) => cb.Verified? && cb.page == page
  }

  /** Running install workers plus completion callbacks not yet run. */
  function Installs(s: State): nat {
    Count(IsWorker, s.threads) + Count(IsCompletion, s.queue)
  }

  /** Sign-in requests for this page still running, or answered and not yet run. */
  function InFlight(s: State, page: nat): nat {
    Count(Verifies(page), s.threads) + Count(Answers(page), s.queue)
  }

  /** One install at a time, on the page that started it. */
  ghost predicate InstallTracked(s: State) {
    && Installs(s) == (if s.installing then 1 else 0)
    && (s.installing ==> s.page == Page(s.installPage, Install))
  }

  /** One sign-in at a time for the current page; `_verify_page` says whether there is one. */
  ghost predicate SigninTracked(s: State, page: nat) {
    && InFlight(s, page) <= 1
    && (s.verifyPage == Some(page) ==> InFlight(s, page) == 1)
    && (page >= s.nextPage ==> InFlight(s, page) == 0 && s.verifyPage != Some(page))
    && (page == s.page.id && InFlight(s, page) == 1 ==> s.verifyPage == Some(page) && s.page.kind == Signin)
  }

  ghost predicate SigninsTracked(s: State) {
    forall page :: SigninTracked(s, page)
  }

  /** Nobody gets past sign-in unverified. */
  ghost predicate Gated(s: State) {
    s.page.kind in {Privacy, Install, Finish} ==> s.verified
  }

  /** A clean slate with no finish page since is on disk, under the role of the latest one. */
  ghost predicate CrumbHolds(m: Machine) {
    m.open.Some? && m.recorded ==> BreadcrumbRole(m.crumb) == m.open
  }

  /** A worker that is past its breadcrumb is the one the machine's open slate belongs to. */
  ghost predicate SlateOwned(s: State) {
    forall t :: t in s.threads && t.Worker? && (t.stage == SlateRecorded || t.stage == SlateDone) ==>
        s.machine.open == Some(t.role)
  }

  ghost predicate Inv(s: State) {
    && (s.alive ==> s.page.id < s.nextPage && Gated(s))
    && (!s.alive ==> s.threads == [] && s.queue == [] && s.verifyPage == None && !s.installing)
    && (s.alive ==> InstallTracked(s))
    && (s.alive ==> SigninsTracked(s))
    && CrumbHolds(s.machine)
    && SlateOwned(s)
  }

  // ---- how one change moves the counts ----

  lemma SpawnCounts(s: State, t: Thread)
    ensures Installs(Spawn(s, t)) == Installs(s) + (if t.Worker? then 1 else 0)
    ensures forall page :: InFlight(Spawn(s, t), page) == InFlight(s, page) + (if t == Verify(page) then 1 else 0)
  {
    CountAppend(IsWorker, s.threads, t);
    forall page: nat {
      CountAppend(Verifies(page), s.threads, t);
    }
  }

  lemma FinishCounts(s: State, i: nat, cb: Callback)
    requires i < |s.threads|
    ensures Installs(Finished(s, i, cb)) == Installs(s) - (if s.threads[i].Worker? then 1 else 0)
            + (if IsCompletion(cb) then 1 else 0)
    ensures forall page: nat :: InFlight(Finished(s, i, cb), page) ==
              InFlight(s, page) - (if s.threads[i] == Verify(page) then 1 else 0)
                  + (if cb.Verified? && cb.page == page then 1 else 0)
  {
    CountSplit(IsWorker, s.threads, i);
    CountAppend(IsCompletion, s.queue, cb);
    forall page: nat
      ensures InFlight(Finished(s, i, cb), page) ==
              InFlight(s, page) - (if s.threads[i] == Verify(page) then 1 else 0)
                  + (if cb.Verified? && cb.page == page then 1 else 0)
    {
      CountSplit(Verifies(page), s.threads, i);
      CountAppend(Answers(page), s.queue, cb);
    }
  }

  lemma AdvanceCounts(s: State, i: nat, role: Role, stage: Stage)
    requires i < |s.threads| && s.threads[i].Worker?
    ensures Installs(Advanced(s, i, role, stage)) == Installs(s)
    ensures forall page :: InFlight(Advanced(s, i, role, stage), page) == InFlight(s, page)
  {
    CountReplace(IsWorker, s.threads, i, Worker(role, stage));
    forall page: nat {
      CountReplace(Verifies(page), s.threads, i, Worker(role, stage));
    }
  }

  lemma PopCounts(s: State)
    requires s.queue != []
    ensures var t := s.(queue := s.queue[1..]);
            && Installs(s) == Installs(t) + (if IsCompletion(s.queue[0]) then 1 else 0)
            && forall page: nat :: InFlight(s, page) == InFlight(t, page)
                + (if s.queue[0].Verified? && s.queue[0].page == page then 1 else 0)
  {
  }

  // ---- each event keeps the invariant ----

  /** Counts, page and flag unchanged: so is what is known about sign-ins. */
  lemma SigninsCarryOver(s: State, t: State)
    requires SigninsTracked(s) && s.page.id < s.nextPage <= t.nextPage && t.verifyPage == s.verifyPage
    requires t.page == s.page || t.page.id >= s.nextPage
    requires t.page.id < t.nextPage
    requires forall page :: InFlight(t, page) == InFlight(s, page)
    ensures SigninsTracked(t)
  {
    forall page
      ensures SigninTracked(t, page)
    {
      assert SigninTracked(s, page);
    }
  }

  lemma FinishKeepsSignins(s: State, i: nat, cb: Callback)
    requires SigninsTracked(s) && i < |s.threads|
    requires if s.threads[i].Verify? then cb.Verified? && cb.page == s.threads[i].page else !cb.Verified?
    ensures SigninsTracked(Finished(s, i, cb))
  {
    FinishCounts(s, i, cb);
    forall page
      ensures SigninTracked(Finished(s, i, cb), page)
    {
      assert SigninTracked(s, page);
    }
  }

  /** While an install worker runs it is the only one. */
  lemma OneWorker(s: State, i: nat, j: nat)
    requires s.alive && InstallTracked(s) && i < |s.threads| && j < |s.threads| && s.threads[i].Worker?
             && s.threads[j].Worker?
    ensures i == j
  {
    CountAtLeast(IsWorker, s.threads, i, j);
  }

  /** When a completion is waiting no install worker runs. */
  lemma NoWorkerLeft(s: State)
    requires s.alive && InstallTracked(s) && s.queue != [] && IsCompletion(s.queue[0])
    ensures forall t :: t in s.threads ==> !t.Worker?
  {
    CountAtLeast(IsCompletion, s.queue, 0, 0);
    forall t | t in s.threads && t.Worker?
      ensures false
    {
      var i :| 0 <= i < |s.threads| && s.threads[i] == t;
      CountAtLeast(IsWorker, s.threads, i, i);
    }
  }

  lemma OnlyWorker(s: State, i: nat)
    requires s.alive && InstallTracked(s) && i < |s.threads| && s.threads[i].Worker?
    ensures forall t :: t in s.threads && t.Worker? ==> t == s.threads[i]
  {
    forall t | t in s.threads && t.Worker?
      ensures t == s.threads[i]
    {
      var j :| 0 <= j < |s.threads| && s.threads[j] == t;
      OneWorker(s, i, j);
    }
  }

  lemma MachineChangeKeeps(s: State, m: Machine)
    requires s.alive && Inv(s) && CrumbHolds(m)
    requires SlateOwned(s.(machine := m))
    ensures Inv(s.(machine := m))
  {
    assert forall page :: InFlight(s.(machine := m), page) == InFlight(s, page);
    SigninsCarryOver(s, s.(machine := m));
  }

  lemma WorkerStepKeeps(s: State, i: nat, ok: bool, written: bool)
    requires s.alive && Inv(s) && i < |s.threads| && s.threads[i].Worker?
    ensures Inv(WorkerStep(s, i, ok, written))
  {
    var role := s.threads[i].role;
    match s.threads[i].stage {
      case Starting => EndOrAdvance(s, i, ok, Preflighted, InstallFailed);
      case Preflighted =>
        BreadcrumbRoundTrip(role);
        OnlyWorker(s, i);
        MachineChangeKeeps(s, Recorded(s.machine, role, written));
        EndOrAdvance(if ok then s.(machine := Recorded(s.machine, role, written))
            else s, i, ok, SlateRecorded, InstallFailed);
      case SlateRecorded =>
        MachineChangeKeeps(s, s.machine.(touched := s.machine.touched + 1));
        EndOrAdvance(s.(machine := s.machine.(touched := s.machine.touched + 1)), i, ok, SlateDone, InstallFailed);
      case SlateDone =>
        EndOrAdvance(s, i, false, SlateDone, ShowFinish);
        EndOrAdvance(s, i, false, SlateDone, InstallFailed);
    }
  }

  lemma EndOrAdvance(s: State, i: nat, advance: bool, stage: Stage, cb: Callback)
    requires s.alive && Inv(s) && i < |s.threads| && s.threads[i].Worker? && IsCompletion(cb)
    requires advance && (stage == SlateRecorded || stage == SlateDone) ==> s.machine.open == Some(s.threads[i].role)
    ensures Inv(if advance then Advanced(s, i, s.threads[i].role, stage) else Finished(s, i, cb))
  {
    if advance {
      AdvanceCounts(s, i, s.threads[i].role, stage);
      assert forall t :: t in Advanced(s, i, s.threads[i].role, stage).threads ==>
          t in s.threads || t == Worker(s.threads[i].role, stage);
      SigninsCarryOver(s, Advanced(s, i, s.threads[i].role, stage));
    } else {
      FinishCounts(s, i, cb);
      FinishKeepsSignins(s, i, cb);
    }
  }

  lemma ThreadStepKeeps(s: State, i: nat, ok: bool, written: bool)
    requires s.alive && Inv(s)
    ensures Inv(ThreadStepped(s, i, ok, written))
  {
    if i < |s.threads| {
      hide SigninsTracked;
      match s.threads[i]
      case RoleCheck(role) =>
        FinishCounts(s, i, RoleChecked(!ok, role));
        FinishKeepsSignins(s, i, RoleChecked(!ok, role));
      case Verify(page) =>
        FinishCounts(s, i, Verified(page, ok));
        FinishKeepsSignins(s, i, Verified(page, ok));
      case Worker(role, stage) => WorkerStepKeeps(s, i, ok, written);
    }
  }

  /** An answered sign-in is run: that page has one request fewer, and the flag is cleared if it was that page's. */
  lemma AnswerKeepsSignins(s: State, edited: bool)
    requires s.queue != [] && s.queue[0].Verified? && SigninsTracked(s) && s.page.id < s.nextPage
    ensures SigninsTracked(Pumped(s, edited))
  {
    PopCounts(s);
    var t := Pumped(s, edited);
    forall page
      ensures SigninTracked(t, page)
    {
      assert SigninTracked(s, page);
      assert SigninTracked(s, s.queue[0].page);
      assert InFlight(t, page) == InFlight(s.(queue := s.queue[1..]), page);
      hide InFlight, Verifies, Answers;
    }
  }

  lemma OtherKeepsSignins(s: State, edited: bool)
    requires s.queue != [] && !s.queue[0].Verified? && SigninsTracked(s) && s.page.id < s.nextPage
    ensures SigninsTracked(Pumped(s, edited))
  {
    PopCounts(s);
    var t := Pumped(s, edited);
    assert forall page :: InFlight(t, page) == InFlight(s.(queue := s.queue[1..]), page);
    SigninsCarryOver(s, t);
  }

  /** A sign-in answer that arrives during an install is for a page that is no longer current. */
  lemma AnswersAreForSigninPages(s: State)
    requires s.queue != [] && s.queue[0].Verified? && SigninsTracked(s)
    ensures s.page.id == s.queue[0].page ==> s.page.kind == Signin
  {
    PopCounts(s);
    assert SigninTracked(s, s.queue[0].page);
  }

  lemma PumpKeeps(s: State, edited: bool)
    requires s.alive && Inv(s)
    ensures Inv(Pumped(s, edited))
  {
    if s.queue != [] {
      PopCounts(s);
      if s.queue[0].Verified? {
        AnswerKeepsSignins(s, edited);
        AnswersAreForSigninPages(s);
      } else {
        OtherKeepsSignins(s, edited);
        if IsCompletion(s.queue[0]) {
          NoWorkerLeft(s);
        }
      }
      assert Installs(Pumped(s, edited)) == Installs(s.(queue := s.queue[1..]));
      hide SigninsTracked, InFlight;
    }
  }

  lemma ButtonKeeps(s: State, kind: PageKind)
    requires s.alive && Inv(s) && Button(s.page.kind, kind, s.role, s.installing)
    ensures Inv(Show(s, kind))
  {
    assert forall page :: InFlight(Show(s, kind), page) == InFlight(s, page);
    SigninsCarryOver(s, Show(s, kind));
  }

  lemma VerifyKeeps(s: State, filled: bool)
    requires s.alive && Inv(s)
    ensures Inv(VerifyPressed(s, filled))
  {
    var t := VerifyPressed(s, filled);
    if t != s {
      SpawnCounts(s.(verifyPage := Some(s.page.id)), Verify(s.page.id));
      assert Installs(s.(verifyPage := Some(s.page.id))) == Installs(s);
      forall page
        ensures SigninTracked(t, page)
      {
        assert InFlight(s.(verifyPage := Some(s.page.id)), page) == InFlight(s, page);
        assert SigninTracked(s, page);
      }
    }
  }

  lemma InstallKeeps(s: State, refused: bool)
    requires s.alive && Inv(s)
    ensures Inv(InstallPressed(s, refused))
  {
    var t := InstallPressed(s, refused);
    if t != s {
      var u := s.(installing := true, installPage := s.page.id);
      SpawnCounts(u, Worker(s.role, Starting));
      assert Installs(u) == Installs(s);
      assert forall page :: InFlight(u, page) == InFlight(s, page);
      SigninsCarryOver(s, t);
    }
  }

  lemma RoleNextKeeps(s: State, urlGiven: bool)
    requires s.alive && Inv(s)
    ensures Inv(RoleNextPressed(s, urlGiven))
  {
    var t := RoleNextPressed(s, urlGiven);
    if t != s {
      var u := s.(roleChecking := true);
      SpawnCounts(u, RoleCheck(s.role));
      assert Installs(u) == Installs(s);
      assert forall page :: InFlight(u, page) == InFlight(s, page);
      SigninsCarryOver(s, t);
    }
  }

  lemma PickKeeps(s: State, role: Role)
    requires s.alive && Inv(s)
    ensures Inv(s.(role := role))
  {
    assert forall page :: InFlight(s.(role := role), page) == InFlight(s, page);
    SigninsCarryOver(s, s.(role := role));
  }

  lemma LaunchKeeps(s: State, licenceAccepted: bool)
    requires !s.alive && Inv(s)
    ensures Inv(Relaunched(s, licenceAccepted))
  {
  }

  lemma StepKeeps(s: State, e: Event)
    requires Inv(s)
    ensures Inv(Step(s, e))
  {
    if !s.alive {
      if e.Launch? {
        LaunchKeeps(s, e.licenceAccepted);
      }
    } else {
      match e
      case Go(kind) => if Button(s.page.kind, kind, s.role, s.installing) { ButtonKeeps(s, kind); }
      case PickRole(role) => PickKeeps(s, role);
      case RoleNext(urlGiven) => RoleNextKeeps(s, urlGiven);
      case PressVerify(filled) => VerifyKeeps(s, filled);
      case BeginInstall(refused) => InstallKeeps(s, refused);
      case ThreadStep(i, ok, written) => ThreadStepKeeps(s, i, ok, written);
      case Pump(edited) => PumpKeeps(s, edited);
      case _ =>
    }
  }

  /** The state after any sequence of events on a computer with this history. */
  function After(s: State, events: seq<Event>): State
    decreases |events|
  {
    if events == [] then s else Step(After(s, events[..|events| - 1]), events[|events| - 1])
  }

  /** Before the first launch: no wizard runs, and no clean slate has begun. */
  ghost predicate Fresh(s: State) {
    && !s.alive && s.threads == [] && s.queue == [] && s.verifyPage == None
    && !s.installing && !s.roleChecking && s.machine.open == None
  }

  lemma {:induction false} ReachableKeeps(s: State, events: seq<Event>)
    requires Fresh(s)
    ensures Inv(After(s, events))
    decreases |events|
  {
    if events != [] {
      ReachableKeeps(s, events[..|events| - 1]);
      StepKeeps(After(s, events[..|events| - 1]), events[|events| - 1]);
    }
  }

  // ---- what that means, for every run from a computer with no history ----

  /** Install workers and their undelivered completions: one while `_installing` is set, none otherwise;
      and the page on screen is the install page that started it. */
  lemma {:induction false} OneInstallAtATime(s0: State, events: seq<Event>)
    requires Fresh(s0)
    ensures var s := After(s0, events);
            s.alive ==>
                Installs(s) == (if s.installing then 1 else 0)
                && (s.installing ==> s.page == Page(s.installPage, Install))
  {
    ReachableKeeps(s0, events);
  }

  /** Sign-in: at most one request per page; for the page on screen, one exactly when `_verify_page`
      is that page; and no page behind sign-in without a verified account. */
  lemma {:induction false} OneSigninAtATime(s0: State, events: seq<Event>, page: nat)
    requires Fresh(s0)
    ensures var s := After(s0, events);
            s.alive ==>
              && InFlight(s, page) <= 1
              && (InFlight(s, s.page.id) == 1 <==> s.verifyPage == Some(s.page.id))
              && (s.page.kind in {Privacy, Install, Finish} ==> s.verified)
  {
    ReachableKeeps(s0, events);
    var s := After(s0, events);
    if s.alive {
      assert SigninTracked(s, page) && SigninTracked(s, s.page.id);
    }
  }

  /** An answer for a page that has been left changes nothing but the bookkeeping of its own request. */
  lemma LateAnswersAreDropped(s: State, edited: bool)
    requires s.alive && Inv(s) && s.queue != [] && s.queue[0].Verified? && s.queue[0].page != s.page.id
    ensures Pumped(s, edited) == s.(queue := s.queue[1..], verifyPage := if s.verifyPage ==
            Some(s.queue[0].page) then None else s.verifyPage)
    ensures InFlight(s, s.page.id) == InFlight(Pumped(s, edited), s.page.id)
  {
    PopCounts(s);
    assert InFlight(Pumped(s, edited), s.page.id) == InFlight(s.(queue := s.queue[1..]), s.page.id);
  }

  /** Whenever a clean slate has begun and no finish page has been reached since, its breadcrumb (where
      it could be written) is on disk under that run's role, and the next launch opens on it. */
  lemma {:induction false} InterruptedInstallIsRemembered(s0: State, events: seq<Event>, licenceAccepted: bool)
    requires Fresh(s0)
    ensures var s := After(s0, events);
            s.machine.open.Some? && s.machine.recorded ==>
              && BreadcrumbRole(s.machine.crumb) == s.machine.open
              && (!s.alive ==>
                    && Step(s, Launch(licenceAccepted)).page.kind == Interrupted
                    && Step(s, Launch(licenceAccepted)).role == s.machine.open.value)
  {
    ReachableKeeps(s0, events);
  }

  /** The computer is only ever touched after a breadcrumb for that very run went down. */
  lemma {:induction false} RecordedBeforeTouched(s0: State, events: seq<Event>, e: Event)
    requires Fresh(s0)
    ensures var s := After(s0, events);
            Step(s, e).machine.touched != s.machine.touched ==>
              && e.ThreadStep? && e.i < |s.threads| && s.threads[e.i].Worker?
              && s.machine.open == Some(s.threads[e.i].role)
              && (s.machine.recorded ==> BreadcrumbRole(s.machine.crumb) == Some(s.threads[e.i].role))
  {
    ReachableKeeps(s0, events);
    var s := After(s0, events);
    OnlyASlateTouches(s, e);
    hide Step, After, InstallTracked, SigninsTracked;
    if Step(s, e).machine.touched != s.machine.touched {
      assert s.threads[e.i] in s.threads;
    }
  }

  lemma OnlyASlateTouches(s: State, e: Event)
    ensures Step(s, e).machine.touched != s.machine.touched ==>
              e.ThreadStep? && e.i < |s.threads| && s.threads[e.i].Worker? && s.threads[e.i].stage == SlateRecorded
  {
  }
}
