/** What must have happened in a run of the wizard for it to be where it is, in terms of the events alone. */
module WizardHistory {
  import opened Options
  import opened WizardModel
  import opened WizardSafety

  // ---- what happened since the launch ----

  /** An event of this kind happened in the launch that is running now. */
  function Happened(s0: State, events: seq<Event>, kind: (State, Event) -> bool): bool
    decreases |events|
  {
    if events == [] then false
    else
      var before := events[..|events| - 1];
      && After(s0, events).alive
      && (Happened(s0, before, kind) || kind(After(s0, before), events[|events| - 1]))
  }

  /** Outright: at some place in the run, and the wizard has been running ever since. */
  lemma {:induction false} HappenedMeans(s0: State, events: seq<Event>, kind: (State, Event) -> bool)
    ensures Happened(s0, events, kind) ==>
              exists k :: 0 <= k < |events| && kind(After(s0, events[..k]), events[k])
                          && forall j :: k < j <= |events| ==> After(s0, events[..j]).alive
    decreases |events|
  {
    hide After;
    if Happened(s0, events, kind) {
      var n := |events| - 1;
      var before := events[..n];
      assert events[..n + 1] == events;
      if kind(After(s0, before), events[n]) {
        assert forall j :: n < j <= |events| ==> After(s0, events[..j]).alive;
      } else {
        HappenedMeans(s0, before, kind);
        var k :| 0 <= k < n && kind(After(s0, before[..k]), before[k])
                 && forall j :: k < j <= n ==> After(s0, before[..j]).alive;
        assert before[..k] == events[..k] && before[k] == events[k];
        forall j | k < j <= |events|
          ensures After(s0, events[..j]).alive
        {
          if j <= n {
            assert before[..j] == events[..j];
          }
        }
      }
    }
  }

  /** Evidence that appears only through such an event, and never survives the process, proves one. */
  lemma {:induction false} EvidenceProves(s0: State, events: seq<Event>, kind: (State, Event) -> bool,
                                          evidence: State -> bool)
    requires Fresh(s0)
    requires forall s, e :: Inv(s) && Step(s, e).alive && evidence(Step(s, e)) ==>
               kind(s, e) || (s.alive && evidence(s))
    ensures After(s0, events).alive && evidence(After(s0, events)) ==> Happened(s0, events, kind)
    decreases |events|
  {
    if events != [] {
      var before := events[..|events| - 1];
      ReachableKeeps(s0, before);
      EvidenceProves(s0, before, kind, evidence);
      hide Step, Inv;
    }
  }

  predicate Has(f: Callback -> bool, queue: seq<Callback>) {
    Count(f, queue) > 0
  }

  lemma HasAfterFinish(f: Callback -> bool, s: State, i: nat, cb: Callback)
    requires i < |s.threads|
    ensures Has(f, Finished(s, i, cb).queue) <==> Has(f, s.queue) || f(cb)
  {
    CountAppend(f, s.queue, cb);
  }

  lemma HasBeforePop(f: Callback -> bool, queue: seq<Callback>)
    requires queue != []
    ensures Has(f, queue) <==> f(queue[0]) || Has(f, queue[1..])
  {
  }

  /** Thread `e.i` makes a successful step. */
  predicate Succeeds(s: State, e: Event) {
    s.alive && e.ThreadStep? && e.i < |s.threads| && e.ok
  }

  // ---- what a worker hands over ----

  /** A failed step of an install worker ends it with InstallFailed, a successful last step with ShowFinish,
      any other leaves the queue alone; no step touches the page or the flag, and a failed one leaves the
      breadcrumb. */
  lemma WorkerHandsOver(s: State, i: nat, ok: bool, written: bool)
    requires i < |s.threads| && s.threads[i].Worker?
    ensures var t := ThreadStepped(s, i, ok, written);
            && t == s.(threads := t.threads, queue := t.queue, machine := t.machine)
            && t.queue == (if !ok then s.queue + [InstallFailed]
                           else if s.threads[i].stage == SlateDone then s.queue + [ShowFinish] else s.queue)
            && |t.threads| == |s.threads| - (if ok && s.threads[i].stage != SlateDone then 0 else 1)
            && (!ok ==> t.machine.crumb == s.machine.crumb && t.machine.open == s.machine.open)
  {
    match s.threads[i].stage
    case Starting =>
    case Preflighted =>
    case SlateRecorded =>
    case SlateDone =>
  }

  /** A clean slate that begins is known from then on, under its role, and known to be on disk exactly when its
      breadcrumb could be written. */
  lemma SlateBegins(s: State, i: nat, written: bool)
    requires i < |s.threads| && s.threads[i].Worker? && s.threads[i].stage == Preflighted
    ensures var m := ThreadStepped(s, i, true, written).machine;
            && m.open == Some(s.threads[i].role) && m.recorded == written && m.touched == s.machine.touched
            && (!written ==> m.crumb == s.machine.crumb)
            && (written ==> m.crumb == Some(if s.threads[i].role == Base then "clean_slate:base"
                                            else "clean_slate:editor"))
  {
    CrumbText();
    hide Breadcrumb;
  }

  /** A step that succeeds takes a worker to the next of its stages under its own role, and the computer is
      touched by the clean slate alone, whether that succeeds or not. */
  lemma WorkerGoesOn(s: State, i: nat, ok: bool, written: bool)
    requires i < |s.threads| && s.threads[i].Worker?
    ensures var t, w := ThreadStepped(s, i, ok, written), s.threads[i];
            && t.machine.touched == s.machine.touched + (if w.stage == SlateRecorded then 1 else 0)
            && (ok && w.stage == Starting ==> t.threads == s.threads[i := Worker(w.role, Preflighted)])
            && (ok && w.stage == Preflighted ==> t.threads == s.threads[i := Worker(w.role, SlateRecorded)])
            && (ok && w.stage == SlateRecorded ==> t.threads == s.threads[i := Worker(w.role, SlateDone)])
            && (!ok || w.stage == SlateDone ==> t.threads == s.threads[..i] + s.threads[i + 1..])
  {
    hide Breadcrumb;
    match s.threads[i].stage
    case Starting =>
    case Preflighted =>
    case SlateRecorded =>
    case SlateDone =>
  }

  /** The callbacks of a worker do as they say: one hands the page back with everything as it was, the other
      shows the finish page and takes the breadcrumb away. */
  lemma CompletionsDoAsTheySay(s: State, edited: bool)
    requires s.queue != []
    ensures s.queue[0] == InstallFailed ==> Pumped(s, edited) == s.(queue := s.queue[1..], installing := false)
    ensures s.queue[0] == ShowFinish ==>
              var t := Pumped(s, edited);
              && t.page.kind == Finish && t.page.id == s.nextPage && !t.installing && t.machine.crumb == None
              && t.machine.touched == s.machine.touched && t.threads == s.threads
  {
  }

  // ---- the pages are earned ----

  predicate AddressAccepted(s: State, e: Event) {
    Succeeds(s, e) && s.threads[e.i].RoleCheck?
  }

  predicate IsAcceptance(cb: Callback) {
    cb.RoleChecked? && !cb.refused
  }

  predicate PastTheAddress(s: State) {
    s.page.kind in {Tailscale, Signin, Privacy, Install, Finish} || Has(IsAcceptance, s.queue)
  }

  lemma AddressThread(s: State, i: nat, ok: bool, written: bool)
    requires i < |s.threads|
    ensures var t := ThreadStepped(s, i, ok, written);
            t.page == s.page && (Has(IsAcceptance, t.queue) ==>
                Has(IsAcceptance, s.queue) || (ok && s.threads[i].RoleCheck?))
  {
    match s.threads[i]
    case RoleCheck(role) => HasAfterFinish(IsAcceptance, s, i, RoleChecked(!ok, role));
    case Verify(page) => HasAfterFinish(IsAcceptance, s, i, Verified(page, ok));
    case Worker(_, _) =>
      WorkerHandsOver(s, i, ok, written);
      NoWorkerCallback(IsAcceptance, s.queue);
      hide Has, WorkerStep, ThreadStepped;
  }

  lemma NoWorkerCallback(f: Callback -> bool, queue: seq<Callback>)
    requires !f(InstallFailed) && !f(ShowFinish)
    ensures Has(f, queue + [InstallFailed]) == Has(f, queue) && Has(f, queue + [ShowFinish]) == Has(f, queue)
  {
    CountAppend(f, queue, InstallFailed);
    CountAppend(f, queue, ShowFinish);
  }

  lemma AddressPump(s: State, edited: bool)
    requires s.alive && Inv(s) && PastTheAddress(Pumped(s, edited))
    ensures PastTheAddress(s)
  {
    if s.queue != [] {
      HasBeforePop(IsAcceptance, s.queue);
      if s.queue[0].Verified? {
        AnswersAreForSigninPages(s);
      } else if s.queue[0].ShowFinish? {
        assert s.installing;
      }
      hide Has, SigninsTracked, Installs;
    }
  }

  lemma AddressStep(s: State, e: Event)
    requires Inv(s) && Step(s, e).alive && PastTheAddress(Step(s, e))
    ensures AddressAccepted(s, e) || (s.alive && PastTheAddress(s))
  {
    if s.alive {
      match e
      case ThreadStep(i, ok, written) =>
        if i < |s.threads| {
          AddressThread(s, i, ok, written);
        }
      case Pump(edited) => AddressPump(s, edited);
      case _ => hide Has, SigninsTracked, Installs;
    }
  }

  /** Over every run: nobody is past the role page without an address that was checked and accepted. */
  lemma AddressIsCheckedFirst(s0: State, events: seq<Event>)
    requires Fresh(s0)
    ensures var s := After(s0, events);
            s.alive && s.page.kind in {Tailscale, Signin, Privacy, Install, Finish} ==>
              Happened(s0, events, AddressAccepted)
  {
    forall s, e | Inv(s) && Step(s, e).alive && PastTheAddress(Step(s, e))
      ensures AddressAccepted(s, e) || (s.alive && PastTheAddress(s))
    {
      AddressStep(s, e);
    }
    hide Step, Inv, AddressAccepted;
    EvidenceProves(s0, events, AddressAccepted, PastTheAddress);
  }

  predicate AccountAccepted(s: State, e: Event) {
    Succeeds(s, e) && s.threads[e.i].Verify?
  }

  predicate IsWelcome(cb: Callback) {
    cb.Verified? && cb.ok
  }

  predicate SignedIn(s: State) {
    s.verified || Has(IsWelcome, s.queue)
  }

  lemma AccountThread(s: State, i: nat, ok: bool, written: bool)
    requires i < |s.threads|
    ensures var t := ThreadStepped(s, i, ok, written);
            t.verified == s.verified && (Has(IsWelcome, t.queue) ==>
                Has(IsWelcome, s.queue) || (ok && s.threads[i].Verify?))
  {
    match s.threads[i]
    case RoleCheck(role) => HasAfterFinish(IsWelcome, s, i, RoleChecked(!ok, role));
    case Verify(page) => HasAfterFinish(IsWelcome, s, i, Verified(page, ok));
    case Worker(_, _) =>
      WorkerHandsOver(s, i, ok, written);
      NoWorkerCallback(IsWelcome, s.queue);
      hide Has, WorkerStep, ThreadStepped;
  }

  lemma AccountStep(s: State, e: Event)
    requires Inv(s) && Step(s, e).alive && SignedIn(Step(s, e))
    ensures AccountAccepted(s, e) || (s.alive && SignedIn(s))
  {
    if s.alive {
      match e
      case ThreadStep(i, ok, written) =>
        if i < |s.threads| {
          AccountThread(s, i, ok, written);
        }
      case Pump(edited) =>
        if s.queue != [] {
          HasBeforePop(IsWelcome, s.queue);
          hide Has, Inv;
        }
      case _ => hide Has, Inv;
    }
  }

  /** Over every run: nobody is past the sign-in page without a sign-in the dashboard accepted. */
  lemma AccountIsAcceptedFirst(s0: State, events: seq<Event>)
    requires Fresh(s0)
    ensures var s := After(s0, events);
            s.alive && (s.verified || s.page.kind in {Privacy, Install, Finish}) ==>
                Happened(s0, events, AccountAccepted)
  {
    ReachableKeeps(s0, events);
    forall s, e | Inv(s) && Step(s, e).alive && SignedIn(Step(s, e))
      ensures AccountAccepted(s, e) || (s.alive && SignedIn(s))
    {
      AccountStep(s, e);
    }
    hide Step, AccountAccepted, InstallTracked, SigninsTracked;
    EvidenceProves(s0, events, AccountAccepted, SignedIn);
  }

  /** An accepted sign-in on the page on screen leads to the privacy page, a refused one keeps the page. */
  lemma AnswerOnItsOwnPage(s: State, edited: bool)
    requires s.queue != [] && s.queue[0].Verified? && s.queue[0].page == s.page.id
    ensures var t := Pumped(s, edited);
            && t.verifyPage != Some(s.page.id) && t.machine == s.machine && t.threads == s.threads
            && (if s.queue[0].ok then t.verified && t.page == Page(s.nextPage, Privacy)
                else t.page == s.page && t.verified == s.verified)
  {
  }

  // ---- the finish page is earned ----

  /** The last step of an install worker, and it succeeded. */
  predicate InstallSucceeded(s: State, e: Event) {
    Succeeds(s, e) && s.threads[e.i].Worker? && s.threads[e.i].stage == SlateDone
  }

  predicate IsFinish(cb: Callback) {
    cb.ShowFinish?
  }

  predicate Finishing(s: State) {
    s.page.kind == Finish || Has(IsFinish, s.queue)
  }

  lemma FinishThread(s: State, i: nat, ok: bool, written: bool)
    requires i < |s.threads|
    ensures var t := ThreadStepped(s, i, ok, written);
            && t.page == s.page
            && (Has(IsFinish, t.queue) ==>
                  Has(IsFinish, s.queue) || (ok && s.threads[i].Worker? && s.threads[i].stage == SlateDone))
  {
    match s.threads[i]
    case RoleCheck(role) => HasAfterFinish(IsFinish, s, i, RoleChecked(!ok, role));
    case Verify(page) => HasAfterFinish(IsFinish, s, i, Verified(page, ok));
    case Worker(_, stage) =>
      WorkerHandsOver(s, i, ok, written);
      CountAppend(IsFinish, s.queue, InstallFailed);
      hide WorkerStep, ThreadStepped;
  }

  lemma FinishStep(s: State, e: Event)
    requires Inv(s) && Step(s, e).alive && Finishing(Step(s, e))
    ensures InstallSucceeded(s, e) || (s.alive && Finishing(s))
  {
    if s.alive {
      match e
      case ThreadStep(i, ok, written) =>
        if i < |s.threads| {
          FinishThread(s, i, ok, written);
        }
      case Pump(edited) =>
        if s.queue != [] {
          HasBeforePop(IsFinish, s.queue);
          hide Has, Inv;
        }
      case _ => hide Has, Inv;
    }
  }

  /** A clean slate is carried out: the computer is touched by a successful step of a worker. */
  predicate SlateCarriedOut(s: State, e: Event) {
    Succeeds(s, e) && s.threads[e.i].Worker? && s.threads[e.i].stage == SlateRecorded
    && Step(s, e).machine.touched == s.machine.touched + 1
  }

  predicate IsPastSlate(t: Thread) {
    t.Worker? && t.stage == SlateDone
  }

  predicate SomePastSlate(s: State) {
    Count(IsPastSlate, s.threads) > 0
  }

  lemma SlateThread(s: State, i: nat, ok: bool, written: bool)
    requires i < |s.threads| && Count(IsPastSlate, ThreadStepped(s, i, ok, written).threads) > 0
    ensures Count(IsPastSlate, s.threads) > 0
            || (ok && s.threads[i].Worker? && s.threads[i].stage == SlateRecorded
                && ThreadStepped(s, i, ok, written).machine.touched == s.machine.touched + 1)
  {
    hide Count;
    CountSplit(IsPastSlate, s.threads, i);
    if s.threads[i].Worker? {
      var role := s.threads[i].role;
      match s.threads[i].stage
      case Starting => CountReplace(IsPastSlate, s.threads, i, Worker(role, Preflighted));
      case Preflighted => CountReplace(IsPastSlate, s.threads, i, Worker(role, SlateRecorded));
      case SlateRecorded =>
      case SlateDone =>
    }
  }

  lemma SlateStep(s: State, e: Event)
    requires Inv(s) && Step(s, e).alive && SomePastSlate(Step(s, e))
    ensures SlateCarriedOut(s, e) || (s.alive && SomePastSlate(s))
  {
    if s.alive {
      match e
      case ThreadStep(i, ok, written) =>
        if i < |s.threads| {
          SlateThread(s, i, ok, written);
        }
      case RoleNext(_) => CountAppend(IsPastSlate, s.threads, RoleCheck(s.role));
      case PressVerify(_) => CountAppend(IsPastSlate, s.threads, Verify(s.page.id));
      case BeginInstall(_) => CountAppend(IsPastSlate, s.threads, Worker(s.role, Starting));
      case _ => hide Count, Inv;
    }
  }

  lemma SlateIsCarriedOutFirst(s0: State, events: seq<Event>, i: nat)
    requires Fresh(s0)
    requires var s := After(s0, events); s.alive && i < |s.threads| && IsPastSlate(s.threads[i])
    ensures Happened(s0, events, SlateCarriedOut)
  {
    forall s, e | Inv(s) && Step(s, e).alive && SomePastSlate(Step(s, e))
      ensures SlateCarriedOut(s, e) || (s.alive && SomePastSlate(s))
    {
      SlateStep(s, e);
    }
    CountAtLeast(IsPastSlate, After(s0, events).threads, i, i);
    hide Step, Inv, SlateCarriedOut, After;
    EvidenceProves(s0, events, SlateCarriedOut, SomePastSlate);
  }

  lemma SuccessIsPastSlate(s: State, e: Event)
    requires InstallSucceeded(s, e)
    ensures s.alive && e.i < |s.threads| && IsPastSlate(s.threads[e.i])
  {
  }

  /** Over every run: the finish page is on screen, or about to be, only if the worker's last step succeeded,
      in this launch and after a clean slate that was carried out. A failed install never gets there. */
  lemma FinishIsEarned(s0: State, events: seq<Event>)
    requires Fresh(s0)
    requires var s := After(s0, events); s.alive && (s.page.kind == Finish || Has(IsFinish, s.queue))
    ensures exists k ::
              && 0 <= k < |events| && InstallSucceeded(After(s0, events[..k]), events[k])
              && Happened(s0, events[..k], SlateCarriedOut)
              && forall j :: k < j <= |events| ==> After(s0, events[..j]).alive
  {
    forall s, e | Inv(s) && Step(s, e).alive && Finishing(Step(s, e))
      ensures InstallSucceeded(s, e) || (s.alive && Finishing(s))
    {
      FinishStep(s, e);
    }
    hide Step, Inv, InstallSucceeded, After, Happened;
    EvidenceProves(s0, events, InstallSucceeded, Finishing);
    HappenedMeans(s0, events, InstallSucceeded);
    var k :| 0 <= k < |events| && InstallSucceeded(After(s0, events[..k]), events[k])
             && forall j :: k < j <= |events| ==> After(s0, events[..j]).alive;
    SuccessIsPastSlate(After(s0, events[..k]), events[k]);
    SlateIsCarriedOutFirst(s0, events[..k], events[k].i);
  }

  // ---- the breadcrumb, from the events ----

  /** A clean slate begins, as this role, and its breadcrumb can be written. */
  predicate WritesCrumb(s: State, e: Event, role: Role) {
    Succeeds(s, e) && s.threads[e.i] == Worker(role, Preflighted) && e.written
  }

  /** The pump shows the finish page. */
  predicate ShowsFinish(s: State, e: Event) {
    s.alive && e.Pump? && s.queue != [] && s.queue[0].ShowFinish?
  }

  /** The breadcrumb is written by the start of a clean slate and removed by the finish page: a failure, a
      close, a crash, a launch and everything else leave it. */
  lemma CrumbChangesOnly(s: State, e: Event)
    ensures Step(s, e).machine.crumb != s.machine.crumb ==>
              WritesCrumb(s, e, Base) || WritesCrumb(s, e, Editor) || ShowsFinish(s, e)
    ensures WritesCrumb(s, e, Base) ==> Step(s, e).machine.crumb == Some("clean_slate:base")
    ensures WritesCrumb(s, e, Editor) ==> Step(s, e).machine.crumb == Some("clean_slate:editor")
    ensures ShowsFinish(s, e) ==> Step(s, e).machine.crumb == None
  {
    CrumbText();
    hide Breadcrumb;
    if s.alive {
      match e
      case ThreadStep(i, ok, written) =>
        if i < |s.threads| && s.threads[i].Worker? {
          WorkerCrumb(s, i, ok, written);
          assert s.threads[i].role == Base || s.threads[i].role == Editor;
          assert s.threads[i] == Worker(s.threads[i].role, s.threads[i].stage);
        }
      case _ =>
    }
  }

  lemma CrumbText()
    ensures Breadcrumb(Base) == "clean_slate:base" && Breadcrumb(Editor) == "clean_slate:editor"
  {
  }

  lemma WorkerCrumb(s: State, i: nat, ok: bool, written: bool)
    requires i < |s.threads| && s.threads[i].Worker?
    ensures WorkerStep(s, i, ok, written).machine.crumb ==
            if ok && s.threads[i].stage == Preflighted && written then Some(Breadcrumb(s.threads[i].role))
            else s.machine.crumb
  {
    hide Breadcrumb;
    match s.threads[i].stage
    case Starting =>
    case Preflighted =>
    case SlateRecorded =>
    case SlateDone =>
  }

  lemma {:induction false} CrumbLasts(s0: State, events: seq<Event>, k: nat)
    requires k <= |events|
    requires forall j :: k <= j < |events| ==>
               var s := After(s0, events[..j]);
               !WritesCrumb(s, events[j], Base) && !WritesCrumb(s, events[j], Editor) && !ShowsFinish(s, events[j])
    ensures After(s0, events).machine.crumb == After(s0, events[..k]).machine.crumb
    decreases |events|
  {
    if k == |events| {
      assert events[..k] == events;
    } else {
      var n := |events| - 1;
      var before := events[..n];
      forall j | k <= j < n
        ensures before[..j] == events[..j] && before[j] == events[j]
      {
      }
      assert before[..k] == events[..k];
      hide Step, WritesCrumb, ShowsFinish;
      CrumbLasts(s0, before, k);
      CrumbChangesOnly(After(s0, before), events[n]);
    }
  }

  /** Over every run, launches, crashes and retries included: the latest clean slate whose breadcrumb could be
      written, with no finish page since, is on disk under its role, and the next launch opens on it. */
  lemma LatestSlateIsOnDisk(s0: State, events: seq<Event>, k: nat, role: Role, licenceAccepted: bool)
    requires k < |events| && WritesCrumb(After(s0, events[..k]), events[k], role)
    requires forall j :: k < j < |events| ==>
               var s := After(s0, events[..j]);
               !WritesCrumb(s, events[j], Base) && !WritesCrumb(s, events[j], Editor) && !ShowsFinish(s, events[j])
    ensures var s := After(s0, events);
            && s.machine.crumb == Some(if role == Base then "clean_slate:base" else "clean_slate:editor")
            && (!s.alive ==>
                  var next := Step(s, Launch(licenceAccepted));
                  next.alive && next.page.kind == Interrupted && next.role == role && next.machine == s.machine)
  {
    CrumbText();
    BreadcrumbRoundTrip(role);
    hide Step, WritesCrumb, ShowsFinish, BreadcrumbRole, Breadcrumb;
    CrumbLasts(s0, events, k + 1);
    assert events[..k + 1][..k] == events[..k];
    CrumbChangesOnly(After(s0, events[..k]), events[k]);
    OneOfTwo(After(s0, events[..k]), events[k], role);
    var s := After(s0, events);
    assert s.machine.crumb == Some(Breadcrumb(role));
    if !s.alive {
      LaunchOpens(s, licenceAccepted);
    }
  }

  lemma OneOfTwo(s: State, e: Event, role: Role)
    requires WritesCrumb(s, e, role)
    ensures role == Base ==> WritesCrumb(s, e, Base)
    ensures role == Editor ==> WritesCrumb(s, e, Editor)
  {
    hide Succeeds;
  }

  // ---- launches, presses and closes ----

  /** A launch starts from the computer alone: nothing of an earlier run is left, and the first page is the
      interrupted install if there is a breadcrumb, else the licence until it has been accepted. */
  lemma LaunchOpens(s: State, licenceAccepted: bool)
    requires !s.alive
    ensures var t := Step(s, Launch(licenceAccepted));
            && t.alive && t.machine == s.machine
            && t.queue == [] && t.threads == [] && t.verifyPage == None
            && !t.verified && !t.installing && !t.roleChecking
            && t.page.id == s.nextPage
            && t.page.kind == (if s.machine.crumb != None then Interrupted
                               else if licenceAccepted then Welcome else Licence)
            && t.role == (if BreadcrumbRole(s.machine.crumb).Some? then BreadcrumbRole(s.machine.crumb).value
                else s.role)
  {
  }

  /** INSTALL starts a worker for the role on the radio exactly on the install page, with none running and
      nothing refused; VERIFY a request for its page exactly when that page has none and the fields are
      filled; NEXT an address check exactly when none runs and there is an address. */
  lemma PressesStartExactlyWhen(s: State, given: bool)
    requires s.alive
    ensures if s.page.kind == Install && !s.installing && given
            then Step(s, BeginInstall(!given)) ==
                 s.(installing := true, installPage := s.page.id, threads := s.threads + [Worker(s.role, Starting)])
            else Step(s, BeginInstall(!given)) == s
    ensures if s.page.kind == Signin && s.verifyPage != Some(s.page.id) && given
            then Step(s, PressVerify(given)) ==
                 s.(verifyPage := Some(s.page.id), threads := s.threads + [Verify(s.page.id)])
            else Step(s, PressVerify(given)) == s
    ensures if s.page.kind == RolePage && !s.roleChecking && given
            then Step(s, RoleNext(given)) == s.(roleChecking := true, threads := s.threads + [RoleCheck(s.role)])
            else Step(s, RoleNext(given)) == s
  {
  }

  /** The radio is the role page's. */
  lemma PickingARole(s: State, role: Role)
    requires s.alive
    ensures Step(s, PickRole(role)) == if s.page.kind == RolePage then s.(role := role) else s
  {
  }

  /** The window closes unless an install runs and the answer is no; the computer keeps what it has. */
  lemma ClosingAsksExactlyDuringAnInstall(s: State, closeAnyway: bool)
    requires s.alive
    ensures Step(s, Close(closeAnyway)).alive <==> s.installing && !closeAnyway
    ensures Step(s, Close(closeAnyway)).alive ==> Step(s, Close(closeAnyway)) == s
    ensures Step(s, Close(closeAnyway)).machine == s.machine && Step(s, Crash).machine == s.machine
  {
  }

  /** Which buttons lead to a page, page by page. BACK leaves the install page exactly while no install runs, no
      button leads off the finish page, and none leads onto it or back to the interrupted install. */
  lemma ButtonsLeadWhere(s: State, kind: PageKind)
    requires s.alive && s.page.id < s.nextPage
    ensures Step(s, Go(kind)).page != s.page <==>
            || (kind == Licence && s.page.kind == Interrupted)
            || (kind == Welcome && s.page.kind in {Interrupted, Licence, RolePage})
            || (kind == RolePage && (s.page.kind in {Welcome, Tailscale} || (s.page.kind == Signin && s.role == Base)))
            || (kind == Tailscale && s.page.kind == Signin && s.role == Editor)
            || (kind == Signin && s.page.kind in {Tailscale, Privacy})
            || (kind == Privacy && s.page.kind == Install && !s.installing)
            || (kind == Install && s.page.kind == Privacy)
    ensures Step(s, Go(kind)).page != s.page ==>
              Step(s, Go(kind)) == s.(page := Page(s.nextPage, kind), nextPage := s.nextPage + 1)
    ensures Step(s, Go(kind)).page == s.page ==> Step(s, Go(kind)) == s
  {
  }
}
