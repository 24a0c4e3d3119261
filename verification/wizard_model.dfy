/** The onboarding wizard as a step system: one UI thread, worker threads that only put callbacks
    on a queue, pages with identity, and a machine that outlives every run of the wizard. */
module WizardModel {
  import opened Options
  import opened Texts

  datatype Role = Base | Editor

  datatype PageKind = Interrupted | Licence | Welcome | RolePage | Tailscale | Signin | Privacy | Install | Finish

  /** A page is the frame it is drawn in: showing the same kind again makes a new page. */
  datatype Page = Page(id: nat, kind: PageKind)

  /** How far an install worker has got. */
  datatype Stage = Starting | Preflighted | SlateRecorded | SlateDone

  datatype Thread = RoleCheck(role: Role) | Verify(page: nat) | Worker(role: Role, stage: Stage)

  datatype Callback = RoleChecked(refused: bool, role: Role) | Verified(page: nat,
      ok: bool) | InstallFailed | ShowFinish

  /** What stays on the computer. `touched` counts clean-slate passes. The last two are bookkeeping of
      this model: the role of the latest clean slate with no finish page since, and whether its
      breadcrumb could be written. */
  datatype Machine = Machine(crumb: Option<string>, touched: nat, open: Option<Role>, recorded: bool)

  datatype State = State(
    alive: bool, page: Page, nextPage: nat, queue: seq<Callback>, threads: seq<Thread>,
    verifyPage: Option<nat>, verified: bool, installing: bool, installPage: nat, roleChecking: bool, role: Role,
    machine: Machine)

  datatype Event =
    | Launch(licenceAccepted: bool)
    | Go(kind: PageKind)
    | PickRole(role: Role)
    | RoleNext(urlGiven: bool)
    | PressVerify(filled: bool)
    | BeginInstall(refused: bool)
    | ThreadStep(i: nat, ok: bool, written: bool)
    | Pump(edited: bool)
    | Close(confirmed: bool)
    | Crash

  // ---- the breadcrumb ----

  const SLATE_PHASE := "clean_slate"

  function RoleName(role: Role): string {
    match role case Base => "base" case Editor => "editor"
  }

  function Breadcrumb(role: Role): string {
    SLATE_PHASE + ":" + RoleName(role)
  }

  /** The part after the first colon; nothing when there is none. */
  function AfterColon(s: string): string {
    if s == "" then "" else if s[0] == ':' then s[1..] else AfterColon(s[1..])
  }

  function LowerChar(c: char): char {
    if 'A' <= c <= 'Z' then c - 'A' + 'a' else c
  }

  function Lower(s: string): string {
    seq(|s|, i requires 0 <= i < |s| => LowerChar(s[i]))
  }

  /** breadcrumb_role */
  function BreadcrumbRole(crumb: Option<string>): Option<Role> {
    if crumb.None? then None
    else
      var role := Lower(Strip(AfterColon(crumb.value)));
      if role == "base" then Some(Base) else if role == "editor" then Some(Editor) else None
  }

  lemma AfterColonSkips(phase: string, role: string)
    requires forall i :: 0 <= i < |phase| ==> phase[i] != ':'
    ensures AfterColon(phase + ":" + role) == role
  {
    if phase == "" {
      assert (phase + ":" + role)[1..] == role;
    } else {
      assert (phase + ":" + role)[1..] == phase[1..] + ":" + role;
      AfterColonSkips(phase[1..], role);
    }
  }

  /** The role written into the breadcrumb is the role read back from it. */
  lemma BreadcrumbRoundTrip(role: Role)
    ensures BreadcrumbRole(Some(Breadcrumb(role))) == Some(role)
  {
    AfterColonSkips(SLATE_PHASE, RoleName(role));
    var name := RoleName(role);
    StripKeeps(name);
    assert Lower(name) == name;
    hide AfterColon, StripLeft, StripRight, Strip;
  }

  lemma AfterNoColon(text: string)
    requires forall i :: 0 <= i < |text| ==> text[i] != ':'
    ensures AfterColon(text) == ""
  {
    if text != "" {
      AfterNoColon(text[1..]);
    }
  }

  /** What follows the first colon is the role when it is `base` or `editor`; anything else names nobody. */
  lemma OnlyRolesAreRead(phase: string, word: string)
    requires forall i :: 0 <= i < |phase| ==> phase[i] != ':'
    requires forall i :: 0 <= i < |word| ==> 'a' <= word[i] <= 'z'
    ensures BreadcrumbRole(None) == None && BreadcrumbRole(Some(phase)) == None
    ensures BreadcrumbRole(Some(phase + ":" + word)) ==
            if word == "base" then Some(Base) else if word == "editor" then Some(Editor) else None
  {
    AfterNoColon(phase);
    AfterColonSkips(phase, word);
    StripKeeps(word);
    StripKeeps("");
    assert Lower(word) == word && Lower("") == "";
    hide AfterColon, Strip;
  }

  /** Capitals do not matter. */
  lemma CaseDoesNotMatter(phase: string, word: string, name: string)
    requires forall i :: 0 <= i < |phase| ==> phase[i] != ':'
    requires |word| == |name| && forall i :: 0 <= i < |name| ==>
               'a' <= name[i] <= 'z' && (word[i] == name[i] || word[i] == name[i] - 'a' + 'A')
    ensures BreadcrumbRole(Some(phase + ":" + word)) == BreadcrumbRole(Some(phase + ":" + name))
  {
    AfterColonSkips(phase, word);
    AfterColonSkips(phase, name);
    StripKeeps(word);
    StripKeeps(name);
    assert Lower(word) == Lower(name);
    hide AfterColon, Strip;
  }

  // ---- pages ----

  /** The navigation buttons of a page, the ones that start a thread apart. */
  predicate Button(from: PageKind, to: PageKind, role: Role, installing: bool) {
    match from
    case Interrupted => to == Licence || to == Welcome
    case Licence => to == Welcome
    case Welcome => to == RolePage
    case RolePage => to == Welcome
    case Tailscale => to == RolePage || to == Signin
    case Signin => to == if role == Base then RolePage else Tailscale
    case Privacy => to == Signin || to == Install
    case Install => to == Privacy && !installing
    case Finish => false
  }

  function Show(s: State, kind: PageKind): State {
    s.(page := Page(s.nextPage, kind), nextPage := s.nextPage + 1)
  }

  function Dead(s: State): State {
    s.(alive := false, queue := [], threads := [], verifyPage := None, verified := false, installing := false,
        roleChecking := false)
  }

  function Relaunched(s: State, licenceAccepted: bool): State {
    var found := BreadcrumbRole(s.machine.crumb);
    var first := if s.machine.crumb.Some? then Interrupted else if licenceAccepted then Welcome else Licence;
    Show(Dead(s).(alive := true, role := if found.Some? then found.value else s.role), first)
  }

  function Spawn(s: State, t: Thread): State {
    s.(threads := s.threads + [t])
  }

  /** Thread `i` is over and leaves `cb` on the queue. */
  function Finished(s: State, i: nat, cb: Callback): State
    requires i < |s.threads|
  {
    s.(threads := s.threads[..i] + s.threads[i + 1..], queue := s.queue + [cb])
  }

  function Advanced(s: State, i: nat, role: Role, stage: Stage): State
    requires i < |s.threads|
  {
    s.(threads := s.threads[i := Worker(role, stage)])
  }

  /** _worker_editor and _worker_base: two refusals before the clean slate, the breadcrumb, the clean
      slate, the rest; exactly one callback whichever way it ends. */
  function WorkerStep(s: State, i: nat, ok: bool, written: bool): State
    requires i < |s.threads| && s.threads[i].Worker?
  {
    var role := s.threads[i].role;
    match s.threads[i].stage
    case Starting => if ok then Advanced(s, i, role, Preflighted) else Finished(s, i, InstallFailed)
    case Preflighted =>
      if ok then Advanced(s.(machine := Recorded(s.machine, role, written)), i, role, SlateRecorded)
      else Finished(s, i, InstallFailed)
    case SlateRecorded =>
      var t := s.(machine := s.machine.(touched := s.machine.touched + 1));
      if ok then Advanced(t, i, role, SlateDone) else Finished(t, i, InstallFailed)
    case SlateDone => Finished(s, i, if ok then ShowFinish else InstallFailed)
  }

  /** The clean slate begins: its breadcrumb goes down first, when it can be written. */
  function Recorded(m: Machine, role: Role, written: bool): Machine {
    m.(crumb := if written then Some(Breadcrumb(role)) else m.crumb, open := Some(role), recorded := written)
  }

  function ThreadStepped(s: State, i: nat, ok: bool, written: bool): State {
    if i >= |s.threads| then s
    else
      match s.threads[i]
      case RoleCheck(role) => Finished(s, i, RoleChecked(!ok, role))
      case Verify(page) => Finished(s, i, Verified(page, ok))
      case Worker(_, _) => WorkerStep(s, i, ok, written)
  }

  function RoleDone(s: State, refused: bool, role: Role, edited: bool): State {
    var t := s.(roleChecking := false);
    if s.page.kind != RolePage || edited || s.role != role || refused then t
    else Show(t, if role == Base then Signin else Tailscale)
  }

  /** A sign-in result acts only when the page it was asked on is still the current one. */
  function VerifyDone(s: State, page: nat, ok: bool): State {
    var t := if s.verifyPage == Some(page) then s.(verifyPage := None) else s;
    if s.page.id != page || !ok then t
    else Show(t.(verified := true), Privacy)
  }

  function InstallDone(s: State): State {
    Show(s.(installing := false, machine := s.machine.(crumb := None, open := None)), Finish)
  }

  function Ran(s: State, cb: Callback, edited: bool): (t: State)
    ensures t.queue == s.queue && t.threads == s.threads && t.alive == s.alive
  {
    match cb
    case RoleChecked(refused, role) => RoleDone(s, refused, role, edited)
    case Verified(page, ok) => VerifyDone(s, page, ok)
    case InstallFailed => s.(installing := false)
    case ShowFinish => InstallDone(s)
  }

  function Pumped(s: State, edited: bool): State {
    if s.queue == [] then s else Ran(s.(queue := s.queue[1..]), s.queue[0], edited)
  }

  function RoleNextPressed(s: State, urlGiven: bool): State {
    if s.page.kind != RolePage || !urlGiven || s.roleChecking then s
    else Spawn(s.(roleChecking := true), RoleCheck(s.role))
  }

  function VerifyPressed(s: State, filled: bool): State {
    if s.page.kind != Signin || s.verifyPage == Some(s.page.id) || !filled then s
    else Spawn(s.(verifyPage := Some(s.page.id)), Verify(s.page.id))
  }

  function InstallPressed(s: State, refused: bool): State {
    if s.page.kind != Install || s.installing || refused then s
    else Spawn(s.(installing := true, installPage := s.page.id), Worker(s.role, Starting))
  }

  function Step(s: State, e: Event): State {
    if !s.alive then (if e.Launch? then Relaunched(s, e.licenceAccepted) else s)
    else
      match e
      case Launch(_) => s
      case Go(kind) => if Button(s.page.kind, kind, s.role, s.installing) then Show(s, kind) else s
      case PickRole(role) => if s.page.kind == RolePage then s.(role := role) else s
      case RoleNext(urlGiven) => RoleNextPressed(s, urlGiven)
      case PressVerify(filled) => VerifyPressed(s, filled)
      case BeginInstall(refused) => InstallPressed(s, refused)
      case ThreadStep(i, ok, written) => ThreadStepped(s, i, ok, written)
      case Pump(edited) => Pumped(s, edited)
      case Close(confirmed) => if s.installing && !confirmed then s else Dead(s)
      case Crash => Dead(s)
  }
}
