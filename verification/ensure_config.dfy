/** ensure_config: which keys one run of the installer forces or seeds, and what the file holds after
    any number of runs. */
module EnsureConfig {
  import opened Options
  import opened Texts
  import opened ConfigText
  import opened ConfigMerge
  import opened ConfigTheorems

  // ---- TOML basic strings ----

  function Escaped(value: string): string {
    if value == "" then ""
    else (if value[0] == '\\' || value[0] == '"' then ['\\', value[0]] else [value[0]]) + Escaped(value[1..])
  }

  /** _toml_string */
  function TomlString(value: string): string {
    "\"" + Escaped(value) + "\""
  }

  /** What a TOML basic string may hold unescaped, quotes and backslashes apart: no control character but
      the tab, and so no line break. */
  predicate Plain(c: char) {
    c == '\t' || (' ' <= c && c != 127 as char)
  }

  predicate PlainText(value: string) {
    forall i :: 0 <= i < |value| ==> Plain(value[i])
  }

  /** A TOML reader past the opening quote: the content up to the first quote that no backslash
      protects, and what follows it. None: the string is not closed, or holds what it may not. */
  function ReadBasic(s: string): Option<(string, string)> {
    if s == "" || !Plain(s[0]) then None
    else if s[0] == '"' then Some(("", s[1..]))
    else if s[0] == '\\' then
      if |s| > 1 && (s[1] == '\\' || s[1] == '"') then Cons(s[1], ReadBasic(s[2..])) else None
    else Cons(s[0], ReadBasic(s[1..]))
  }

  function Cons(c: char, read: Option<(string, string)>): Option<(string, string)> {
    if read.None? then None else Some(([c] + read.value.0, read.value.1))
  }

  /** _toml_string escapes backslashes and quotes and nothing else. So a value is read back, and nothing
      after its closing quote is, exactly when it has no control character: with one there is no string. */
  lemma {:induction false} TomlRoundTrip(value: string, rest: string)
    ensures ReadBasic(Escaped(value) + "\"" + rest) == if PlainText(value) then Some((value, rest)) else None
  {
    var s := Escaped(value) + "\"" + rest;
    if value == "" {
      assert s[1..] == rest;
    } else {
      TomlRoundTrip(value[1..], rest);
      assert PlainText(value) <==> Plain(value[0]) && PlainText(value[1..]);
      var tail := Escaped(value[1..]) + "\"" + rest;
      if value[0] == '\\' || value[0] == '"' {
        assert s == ['\\', value[0]] + tail;
        assert s[2..] == tail;
      } else {
        assert s == [value[0]] + tail;
        assert s[1..] == tail;
      }
      assert [value[0]] + value[1..] == value;
    }
  }

  /** A value that is not empty is never taken for a blank one, even when it holds a `#`. */
  lemma TomlIsNotBlank(value: string)
    requires value != ""
    ensures !BlankLiteral(StripRight(UpToHash(TomlString(value))))
  {
    var s := TomlString(value);
    KeptByTheCut(s, 0);
    var l := StripRight(UpToHash(s));
    assert l[0] == l[..1][0] == s[..1][0] == '"';
    assert s[1] == Escaped(value)[0] != '"';
    if |l| > 1 {
      assert l[1] == s[1];
    }
  }

  // ---- the two dicts of one call ----

  const EDITOR_NAME := "editor_name"
  const DASHBOARD_URL := "dashboard_url"
  const MODE := "mode"
  const DASHBOARD_TOKEN := "dashboard_token"
  const REPORT_TOKEN := "report_token"
  const LOCAL_ROOT := "local_root"
  const CANONICAL_PREFIX := "canonical_prefix"
  const REMOTE := "remote"
  const REMOTE_ROOT := "remote_root"
  const NEUTRAL_REMOTE_NAME := "ccsync_sftp"

  datatype Switches = Switches(resolveProject: bool, localManifest: bool, mediaTree: bool, inputIdle: bool)

  /** One call. The site's values, the local root and the canonical prefix arrive already resolved. */
  datatype Call = Call(
    base: bool, editorName: string, dashboardUrl: string, dashboardToken: string, reportToken: string,
    switches: Option<Switches>, localRoot: string, prefix: string, siteRemote: string, siteRemoteRoot: string)

  /** `entries[key] = value` */
  function Put(entries: seq<Entry>, key: string, value: string): seq<Entry> {
    if entries == [] then [Entry(key, value)]
    else if entries[0].key == key then [Entry(key, value)] + entries[1..]
    else [entries[0]] + Put(entries[1..], key, value)
  }

  function Get(entries: seq<Entry>, key: string): Option<string> {
    if entries == [] then None
    else if entries[0].key == key then Some(entries[0].value)
    else Get(entries[1..], key)
  }

  function TomlBool(b: bool): string {
    if b then "true" else "false"
  }

  function WithSwitches(entries: seq<Entry>, switches: Option<Switches>): seq<Entry> {
    if switches.None? then entries
    else
      var s := switches.value;
      Put(Put(Put(Put(entries,
        "report_resolve_project", TomlBool(s.resolveProject)),
        "report_local_manifest", TomlBool(s.localManifest)),
        "report_media_tree", TomlBool(s.mediaTree)),
        "report_input_idle", TomlBool(s.inputIdle))
  }

  function WithTokens(entries: seq<Entry>, call: Call): seq<Entry> {
    var one := if Strip(call.dashboardToken) != "" then
        Put(entries, DASHBOARD_TOKEN, TomlString(call.dashboardToken)) else entries;
    if Strip(call.reportToken) != "" then Put(one, REPORT_TOKEN, TomlString(Strip(call.reportToken))) else one
  }

  function WithRoots(entries: seq<Entry>, lines: seq<string>, call: Call): seq<Entry> {
    if call.base then
      Put(Put(entries, LOCAL_ROOT, TomlString(call.localRoot)), CANONICAL_PREFIX, TomlString(call.localRoot))
    else
      var two := Put(Put(entries, CANONICAL_PREFIX, TomlString(call.prefix)), LOCAL_ROOT, TomlString(call.localRoot));
      var site := Strip(call.siteRemote);
      if site != "" then Put(two, REMOTE, TomlString(site))
      else if Unset(lines, REMOTE) then Put(two, REMOTE, TomlString(NEUTRAL_REMOTE_NAME))
      else two
  }

  function Identity(call: Call): seq<Entry> {
    Put(Put(Put([],
      EDITOR_NAME, TomlString(call.editorName)),
      DASHBOARD_URL, TomlString(call.dashboardUrl)),
      MODE, TomlString(if call.base then "base" else "editor"))
  }

  function Forced(lines: seq<string>, call: Call): seq<Entry> {
    WithRoots(WithSwitches(WithTokens(Identity(call), call), call.switches), lines, call)
  }

  function Defaults(call: Call): seq<Entry> {
    var one := if Strip(call.dashboardToken) != "" then [] else Put([], DASHBOARD_TOKEN, TomlString(""));
    var root := Strip(call.siteRemoteRoot);
    if !call.base && root != "" then Put(one, REMOTE_ROOT, TomlString(root)) else one
  }

  lemma PutIn(entries: seq<Entry>, key: string, value: string)
    ensures forall e :: e in Put(entries, key, value) ==> e == Entry(key, value) || e in entries
  {
    if entries != [] && entries[0].key != key {
      PutIn(entries[1..], key, value);
    }
  }

  lemma DictCons(e: Entry, rest: seq<Entry>)
    requires Dict(rest) && KeyOk(e.key) && forall f :: f in rest ==> f.key != e.key
    ensures Dict([e] + rest)
  {
    hide KeyOk;
  }

  lemma PutIsDict(entries: seq<Entry>, key: string, value: string)
    requires Dict(entries) && KeyOk(key)
    ensures Dict(Put(entries, key, value))
  {
    if entries == [] {
      assert [Entry(key, value)] + [] == [Entry(key, value)];
    } else {
      DictTail(entries);
      hide KeyOk;
      if entries[0].key == key {
        DictCons(Entry(key, value), entries[1..]);
      } else {
        PutIsDict(entries[1..], key, value);
        PutIn(entries[1..], key, value);
        DictEntry(entries, entries[0]);
        DictCons(entries[0], Put(entries[1..], key, value));
      }
    }
  }

  lemma GetPut(entries: seq<Entry>, key: string, value: string, k: string)
    ensures Get(Put(entries, key, value), k) == if k == key then Some(value) else Get(entries, k)
  {
    if entries != [] && entries[0].key != key {
      GetPut(entries[1..], key, value, k);
    }
  }

  lemma GetIsMembership(entries: seq<Entry>, key: string)
    requires Dict(entries)
    ensures HasKey(entries, key) <==> Get(entries, key).Some?
    ensures Get(entries, key).Some? ==> Entry(key, Get(entries, key).value) in entries
    ensures forall e :: e in entries && e.key == key ==> Get(entries, key) == Some(e.value)
  {
    if entries != [] {
      DictTail(entries);
      GetIsMembership(entries[1..], key);
      assert entries == [entries[0]] + entries[1..];
      if HasKey(entries, key) && entries[0].key != key {
        var i :| 0 <= i < |entries| && entries[i].key == key;
        assert entries[1..][i - 1].key == key;
      }
    }
  }

  lemma IdentityKeysAreBare()
    ensures KeyOk(EDITOR_NAME) && KeyOk(DASHBOARD_URL) && KeyOk(MODE)
  {
  }

  lemma TokenKeysAreBare()
    ensures KeyOk(DASHBOARD_TOKEN) && KeyOk(REPORT_TOKEN)
  {
  }

  lemma RootKeysAreBare()
    ensures KeyOk(LOCAL_ROOT) && KeyOk(CANONICAL_PREFIX) && KeyOk(REMOTE) && KeyOk(REMOTE_ROOT)
  {
  }

  lemma SwitchKeysAreBare()
    ensures KeyOk("report_resolve_project") && KeyOk("report_local_manifest")
    ensures KeyOk("report_media_tree") && KeyOk("report_input_idle")
  {
  }

  lemma SwitchesAreADict(entries: seq<Entry>, switches: Option<Switches>)
    requires Dict(entries)
    ensures Dict(WithSwitches(entries, switches))
  {
    hide Dict, KeyOk, Put;
    SwitchKeysAreBare();
    if switches.Some? {
      var s := switches.value;
      PutIsDict(entries, "report_resolve_project", TomlBool(s.resolveProject));
      var one := Put(entries, "report_resolve_project", TomlBool(s.resolveProject));
      PutIsDict(one, "report_local_manifest", TomlBool(s.localManifest));
      var two := Put(one, "report_local_manifest", TomlBool(s.localManifest));
      PutIsDict(two, "report_media_tree", TomlBool(s.mediaTree));
      var three := Put(two, "report_media_tree", TomlBool(s.mediaTree));
      PutIsDict(three, "report_input_idle", TomlBool(s.inputIdle));
    }
  }

  lemma IdentityIsADict(call: Call)
    ensures Dict(Identity(call))
  {
    IdentityKeysAreBare();
    hide Dict, KeyOk, Put;
    assert Dict([]) by { EmptyIsADict(); }
    PutIsDict([], EDITOR_NAME, TomlString(call.editorName));
    var one := Put([], EDITOR_NAME, TomlString(call.editorName));
    PutIsDict(one, DASHBOARD_URL, TomlString(call.dashboardUrl));
    var two := Put(one, DASHBOARD_URL, TomlString(call.dashboardUrl));
    PutIsDict(two, MODE, TomlString(if call.base then "base" else "editor"));
  }

  lemma EmptyIsADict()
    ensures Dict([])
  {
  }

  lemma TokensAreADict(entries: seq<Entry>, call: Call)
    requires Dict(entries)
    ensures Dict(WithTokens(entries, call))
  {
    TokenKeysAreBare();
    hide Dict, KeyOk, Put, Strip;
    PutIsDict(entries, DASHBOARD_TOKEN, TomlString(call.dashboardToken));
    var one := if Strip(call.dashboardToken) != "" then
        Put(entries, DASHBOARD_TOKEN, TomlString(call.dashboardToken)) else entries;
    PutIsDict(one, REPORT_TOKEN, TomlString(Strip(call.reportToken)));
  }

  lemma RootsAreADict(entries: seq<Entry>, lines: seq<string>, call: Call)
    requires Dict(entries)
    ensures Dict(WithRoots(entries, lines, call))
  {
    RootKeysAreBare();
    hide Dict, KeyOk, Put, Strip, Unset;
    PutIsDict(entries, LOCAL_ROOT, TomlString(call.localRoot));
    PutIsDict(Put(entries, LOCAL_ROOT, TomlString(call.localRoot)), CANONICAL_PREFIX, TomlString(call.localRoot));
    PutIsDict(entries, CANONICAL_PREFIX, TomlString(call.prefix));
    var one := Put(entries, CANONICAL_PREFIX, TomlString(call.prefix));
    PutIsDict(one, LOCAL_ROOT, TomlString(call.localRoot));
    var two := Put(one, LOCAL_ROOT, TomlString(call.localRoot));
    PutIsDict(two, REMOTE, TomlString(Strip(call.siteRemote)));
    PutIsDict(two, REMOTE, TomlString(NEUTRAL_REMOTE_NAME));
  }

  lemma BothAreDicts(lines: seq<string>, call: Call)
    ensures Dict(Forced(lines, call)) && Dict(Defaults(call))
  {
    TokenKeysAreBare();
    RootKeysAreBare();
    hide Dict, KeyOk, Put, Strip, Identity, WithTokens, WithSwitches, WithRoots;
    IdentityIsADict(call);
    TokensAreADict(Identity(call), call);
    SwitchesAreADict(WithTokens(Identity(call), call), call.switches);
    RootsAreADict(WithSwitches(WithTokens(Identity(call), call), call.switches), lines, call);
    EmptyIsADict();
    PutIsDict([], DASHBOARD_TOKEN, TomlString(""));
    var one := if Strip(call.dashboardToken) != "" then [] else Put([], DASHBOARD_TOKEN, TomlString(""));
    PutIsDict(one, REMOTE_ROOT, TomlString(Strip(call.siteRemoteRoot)));
  }

  // ---- what a call does to each key ----

  lemma IdentityForces(call: Call, key: string)
    ensures Get(Identity(call), key) ==
            if key == MODE then Some(TomlString(if call.base then "base" else "editor"))
            else if key == DASHBOARD_URL then Some(TomlString(call.dashboardUrl))
            else if key == EDITOR_NAME then Some(TomlString(call.editorName))
            else None
  {
    NothingYet(key);
    hide Put, Get, TomlString;
    var one := Put([], EDITOR_NAME, TomlString(call.editorName));
    var two := Put(one, DASHBOARD_URL, TomlString(call.dashboardUrl));
    GetPut([], EDITOR_NAME, TomlString(call.editorName), key);
    GetPut(one, DASHBOARD_URL, TomlString(call.dashboardUrl), key);
    GetPut(two, MODE, TomlString(if call.base then "base" else "editor"), key);
  }

  function SwitchValue(s: Switches, key: string): Option<string> {
    if key == "report_input_idle" then Some(TomlBool(s.inputIdle))
    else if key == "report_media_tree" then Some(TomlBool(s.mediaTree))
    else if key == "report_local_manifest" then Some(TomlBool(s.localManifest))
    else if key == "report_resolve_project" then Some(TomlBool(s.resolveProject))
    else None
  }

  lemma SwitchesForce(entries: seq<Entry>, switches: Option<Switches>, key: string)
    ensures Get(WithSwitches(entries, switches), key) ==
            if switches.Some? && SwitchValue(switches.value, key).Some? then SwitchValue(switches.value, key)
                else Get(entries, key)
  {
    hide Put, Get;
    if switches.Some? {
      var s := switches.value;
      var one := Put(entries, "report_resolve_project", TomlBool(s.resolveProject));
      var two := Put(one, "report_local_manifest", TomlBool(s.localManifest));
      var three := Put(two, "report_media_tree", TomlBool(s.mediaTree));
      GetPut(entries, "report_resolve_project", TomlBool(s.resolveProject), key);
      GetPut(one, "report_local_manifest", TomlBool(s.localManifest), key);
      GetPut(two, "report_media_tree", TomlBool(s.mediaTree), key);
      GetPut(three, "report_input_idle", TomlBool(s.inputIdle), key);
    }
  }

  function TokenValue(call: Call, key: string): Option<string> {
    if key == REPORT_TOKEN && Strip(call.reportToken) != "" then Some(TomlString(Strip(call.reportToken)))
    else if key == DASHBOARD_TOKEN && Strip(call.dashboardToken) != "" then Some(TomlString(call.dashboardToken))
    else None
  }

  lemma TokensForce(entries: seq<Entry>, call: Call, key: string)
    ensures Get(WithTokens(entries, call), key) ==
            if TokenValue(call, key).Some? then TokenValue(call, key) else Get(entries, key)
  {
    hide Put, Get, Strip, TomlString;
    GetPut(entries, DASHBOARD_TOKEN, TomlString(call.dashboardToken), key);
    var one := if Strip(call.dashboardToken) != "" then
        Put(entries, DASHBOARD_TOKEN, TomlString(call.dashboardToken)) else entries;
    GetPut(one, REPORT_TOKEN, TomlString(Strip(call.reportToken)), key);
  }

  function RootValue(lines: seq<string>, call: Call, key: string): Option<string> {
    if key == LOCAL_ROOT then Some(TomlString(call.localRoot))
    else if key == CANONICAL_PREFIX then Some(TomlString(if call.base then call.localRoot else call.prefix))
    else if key != REMOTE || call.base then None
    else if Strip(call.siteRemote) != "" then Some(TomlString(Strip(call.siteRemote)))
    else if Unset(lines, REMOTE) then Some(TomlString(NEUTRAL_REMOTE_NAME))
    else None
  }

  lemma RootsForce(entries: seq<Entry>, lines: seq<string>, call: Call, key: string)
    ensures Get(WithRoots(entries, lines, call), key) ==
            if RootValue(lines, call, key).Some? then RootValue(lines, call, key) else Get(entries, key)
  {
    hide Put, Get, Strip, TomlString, Unset;
    GetPut(entries, LOCAL_ROOT, TomlString(call.localRoot), key);
    GetPut(Put(entries, LOCAL_ROOT, TomlString(call.localRoot)), CANONICAL_PREFIX, TomlString(call.localRoot), key);
    GetPut(entries, CANONICAL_PREFIX, TomlString(call.prefix), key);
    var one := Put(entries, CANONICAL_PREFIX, TomlString(call.prefix));
    GetPut(one, LOCAL_ROOT, TomlString(call.localRoot), key);
    var two := Put(one, LOCAL_ROOT, TomlString(call.localRoot));
    GetPut(two, REMOTE, TomlString(Strip(call.siteRemote)), key);
    GetPut(two, REMOTE, TomlString(NEUTRAL_REMOTE_NAME), key);
  }

  /** What a call forces for a key; None: nothing. */
  function ForcedValue(lines: seq<string>, call: Call, key: string): Option<string> {
    if RootValue(lines, call, key).Some? then RootValue(lines, call, key)
    else if call.switches.Some? && SwitchValue(call.switches.value, key).Some? then
        SwitchValue(call.switches.value, key)
    else if TokenValue(call, key).Some? then TokenValue(call, key)
    else if key == MODE then Some(TomlString(if call.base then "base" else "editor"))
    else if key == DASHBOARD_URL then Some(TomlString(call.dashboardUrl))
    else if key == EDITOR_NAME then Some(TomlString(call.editorName))
    else None
  }

  function SeededValue(call: Call, key: string): Option<string> {
    if key == REMOTE_ROOT && !call.base && Strip(call.siteRemoteRoot) != "" then
        Some(TomlString(Strip(call.siteRemoteRoot)))
    else if key == DASHBOARD_TOKEN && Strip(call.dashboardToken) == "" then Some(TomlString(""))
    else None
  }

  /** The two dicts of a call, key by key, and no key besides. */
  lemma {:induction false} CallSets(lines: seq<string>, call: Call, key: string)
    ensures Get(Forced(lines, call), key) == ForcedValue(lines, call, key)
    ensures Get(Defaults(call), key) == SeededValue(call, key)
  {
    hide Put, Get, Strip, TomlString, Unset, Identity, WithTokens, WithSwitches, WithRoots, RootValue, SwitchValue,
        TokenValue;
    IdentityForces(call, key);
    TokensForce(Identity(call), call, key);
    SwitchesForce(WithTokens(Identity(call), call), call.switches, key);
    RootsForce(WithSwitches(WithTokens(Identity(call), call), call.switches), lines, call, key);
    NothingYet(key);
    GetPut([], DASHBOARD_TOKEN, TomlString(""), key);
    var one := if Strip(call.dashboardToken) != "" then [] else Put([], DASHBOARD_TOKEN, TomlString(""));
    GetPut(one, REMOTE_ROOT, TomlString(Strip(call.siteRemoteRoot)), key);
  }

  lemma NothingYet(key: string)
    ensures Get([], key) == None
  {
  }

  function AfterCall(lines: seq<string>, call: Call): seq<string> {
    Merged(lines, Wanted(lines, Forced(lines, call), Defaults(call)))
  }

  /** The first line that assigns `key`: what a reader of the file sees. */
  function Line(lines: seq<string>, key: string): Option<string> {
    if First(lines, key) < |lines| then Some(lines[First(lines, key)]) else None
  }

  /** In terms of one key: forced, seeded because unset, or left alone. */
  lemma CallWants(lines: seq<string>, call: Call, key: string)
    requires KeyOk(key)
    ensures var wanted := Wanted(lines, Forced(lines, call), Defaults(call));
            var value := if ForcedValue(lines, call, key).Some? then ForcedValue(lines, call, key)
                         else if Unset(lines, key) then SeededValue(call, key)
                         else None;
            && Dict(wanted)
            && (value.Some? ==> Entry(key, value.value) in wanted)
            && (value.None? ==> forall e :: e in wanted ==> e.key != key)
  {
    hide Unset, Forced, Defaults, Strip, KeyOk, ForcedValue, SeededValue, Dict;
    BothAreDicts(lines, call);
    WantedIsDict(lines, Forced(lines, call), Defaults(call));
    WantedExactly(lines, Forced(lines, call), Defaults(call));
    CallSets(lines, call, key);
    GetIsMembership(Forced(lines, call), key);
    GetIsMembership(Defaults(call), key);
  }

  /** One call and one key: its line afterwards. */
  lemma CallWrites(lines: seq<string>, call: Call, key: string)
    requires KeyOk(key)
    ensures Line(AfterCall(lines, call), key) ==
            if ForcedValue(lines, call, key).Some? then
                Some(Assignment(Entry(key, ForcedValue(lines, call, key).value)))
            else if Unset(lines, key) && SeededValue(call, key).Some? then
                Some(Assignment(Entry(key, SeededValue(call, key).value)))
            else Line(lines, key)
    ensures ForcedValue(lines, call, key).None? && !Unset(lines, key) ==> !Unset(AfterCall(lines, call), key)
  {
    hide Unset, Forced, Defaults, KeyOk, ForcedValue, SeededValue, Dict, Wanted, Merged, First;
    CallWants(lines, call, key);
    var wanted := Wanted(lines, Forced(lines, call), Defaults(call));
    if ForcedValue(lines, call, key).Some? {
      WantedIsSet(lines, wanted, Entry(key, ForcedValue(lines, call, key).value));
    } else if !Unset(lines, key) {
      SetStaysSet(lines, wanted, key);
    } else if SeededValue(call, key).Some? {
      WantedIsSet(lines, wanted, Entry(key, SeededValue(call, key).value));
    } else {
      FirstIs(lines, key);
      OtherKeysStay(lines, wanted, key);
    }
  }

  // ---- the keys the installer owns, line by line ----

  lemma WritesPlainly(lines: seq<string>, call: Call, key: string, value: string)
    requires KeyOk(key) && ForcedValue(lines, call, key) == Some(value)
    ensures Line(AfterCall(lines, call), key) == Some(key + " = " + value)
  {
    hide KeyOk, ForcedValue, AfterCall, Line;
    CallWrites(lines, call, key);
  }

  /** Who the editor is, where the dashboard is and what this machine is for. */
  lemma IdentityLines(lines: seq<string>, call: Call)
    ensures var after := AfterCall(lines, call);
            && Line(after, "editor_name") == Some("editor_name" + " = " + TomlString(call.editorName))
            && Line(after, "dashboard_url") == Some("dashboard_url" + " = " + TomlString(call.dashboardUrl))
            && Line(after, "mode") == Some("mode" + " = " + TomlString(if call.base then "base" else "editor"))
  {
    IdentityKeysAreBare();
    ForcedIdentity(lines, call);
    hide AfterCall, Line, TomlString, KeyOk, ForcedValue;
    WritesPlainly(lines, call, "editor_name", TomlString(call.editorName));
    WritesPlainly(lines, call, "dashboard_url", TomlString(call.dashboardUrl));
    WritesPlainly(lines, call, "mode", TomlString(if call.base then "base" else "editor"));
  }

  lemma ForcedIdentity(lines: seq<string>, call: Call)
    ensures ForcedValue(lines, call, "editor_name") == Some(TomlString(call.editorName))
    ensures ForcedValue(lines, call, "dashboard_url") == Some(TomlString(call.dashboardUrl))
    ensures ForcedValue(lines, call, "mode") == Some(TomlString(if call.base then "base" else "editor"))
  {
    hide TomlString, Strip, Unset;
  }

  /** Where the tree is: on a base rig one root is both, on an editor's machine the site's prefix and the
      local root are two. */
  lemma RootLines(lines: seq<string>, call: Call)
    ensures var after := AfterCall(lines, call);
            && Line(after, "local_root") == Some("local_root" + " = " + TomlString(call.localRoot))
            && Line(after, "canonical_prefix") ==
               Some("canonical_prefix" + " = " + TomlString(if call.base then call.localRoot else call.prefix))
    ensures !call.base && Strip(call.siteRemote) != "" ==>
              Line(AfterCall(lines, call), "remote") == Some("remote" + " = " + TomlString(Strip(call.siteRemote)))
    ensures !call.base && Strip(call.siteRemote) == "" && Unset(lines, "remote") ==>
              Line(AfterCall(lines, call), "remote") == Some("remote" + " = " + TomlString("ccsync_sftp"))
    ensures call.base || (Strip(call.siteRemote) == "" && !Unset(lines, "remote")) ==>
              Line(AfterCall(lines, call), "remote") == Line(lines, "remote")
  {
    RootKeysAreBare();
    ForcedRoots(lines, call);
    hide AfterCall, Line, TomlString, KeyOk, ForcedValue, Strip, Unset, SeededValue;
    WritesPlainly(lines, call, "local_root", TomlString(call.localRoot));
    WritesPlainly(lines, call, "canonical_prefix", TomlString(if call.base then call.localRoot else call.prefix));
    if !call.base && Strip(call.siteRemote) != "" {
      WritesPlainly(lines, call, "remote", TomlString(Strip(call.siteRemote)));
    } else if !call.base && Unset(lines, "remote") {
      WritesPlainly(lines, call, "remote", TomlString("ccsync_sftp"));
    } else {
      CallWrites(lines, call, "remote");
    }
  }

  lemma ForcedRoots(lines: seq<string>, call: Call)
    ensures ForcedValue(lines, call, "local_root") == Some(TomlString(call.localRoot))
    ensures ForcedValue(lines, call, "canonical_prefix") ==
            Some(TomlString(if call.base then call.localRoot else call.prefix))
    ensures ForcedValue(lines, call, "remote") ==
            if call.base then None
            else if Strip(call.siteRemote) != "" then Some(TomlString(Strip(call.siteRemote)))
            else if Unset(lines, "remote") then Some(TomlString("ccsync_sftp"))
            else None
    ensures SeededValue(call, "remote") == None
  {
    hide TomlString, Strip, Unset;
  }

  /** The privacy answers: each switch under its own key, or none of the four when the page was not shown. */
  lemma SwitchLines(lines: seq<string>, call: Call, s: Switches)
    requires call.switches == Some(s)
    ensures var after := AfterCall(lines, call);
            && Line(after, "report_resolve_project") ==
               Some("report_resolve_project" + " = " + (if s.resolveProject then "true" else "false"))
            && Line(after, "report_local_manifest") ==
               Some("report_local_manifest" + " = " + (if s.localManifest then "true" else "false"))
            && Line(after, "report_media_tree") ==
               Some("report_media_tree" + " = " + (if s.mediaTree then "true" else "false"))
            && Line(after, "report_input_idle") ==
               Some("report_input_idle" + " = " + (if s.inputIdle then "true" else "false"))
  {
    SwitchKeysAreBare();
    ForcedSwitches(lines, call, s);
    hide AfterCall, Line, KeyOk, ForcedValue;
    WritesPlainly(lines, call, "report_resolve_project", TomlBool(s.resolveProject));
    WritesPlainly(lines, call, "report_local_manifest", TomlBool(s.localManifest));
    WritesPlainly(lines, call, "report_media_tree", TomlBool(s.mediaTree));
    WritesPlainly(lines, call, "report_input_idle", TomlBool(s.inputIdle));
  }

  lemma ForcedSwitches(lines: seq<string>, call: Call, s: Switches)
    requires call.switches == Some(s)
    ensures ForcedValue(lines, call, "report_resolve_project") == Some(if s.resolveProject then "true" else "false")
    ensures ForcedValue(lines, call, "report_local_manifest") == Some(if s.localManifest then "true" else "false")
    ensures ForcedValue(lines, call, "report_media_tree") == Some(if s.mediaTree then "true" else "false")
    ensures ForcedValue(lines, call, "report_input_idle") == Some(if s.inputIdle then "true" else "false")
  {
    hide TomlString, Strip, Unset;
  }

  lemma SwitchesUntouched(lines: seq<string>, call: Call, key: string)
    requires call.switches == None
    requires key in {"report_resolve_project", "report_local_manifest", "report_media_tree", "report_input_idle"}
    ensures Line(AfterCall(lines, call), key) == Line(lines, key)
  {
    SwitchKeysAreBare();
    NothingForSwitches(lines, call, key);
    hide AfterCall, Line, KeyOk, ForcedValue, SeededValue;
    CallWrites(lines, call, key);
  }

  lemma NothingForSwitches(lines: seq<string>, call: Call, key: string)
    requires call.switches == None
    requires key in {"report_resolve_project", "report_local_manifest", "report_media_tree", "report_input_idle"}
    ensures ForcedValue(lines, call, key) == None && SeededValue(call, key) == None
  {
    hide TomlString, Strip, Unset;
  }

  /** A key the installer knows nothing of keeps its line, or its absence. */
  lemma OtherKeysKeepTheirLine(lines: seq<string>, call: Call, key: string)
    requires KeyOk(key)
    requires key !in {"editor_name", "dashboard_url", "mode", "dashboard_token", "report_token", "local_root",
                      "canonical_prefix", "remote", "remote_root", "report_resolve_project",
                      "report_local_manifest", "report_media_tree", "report_input_idle"}
    ensures Line(AfterCall(lines, call), key) == Line(lines, key)
  {
    assert ForcedValue(lines, call, key) == None && SeededValue(call, key) == None by {
      hide TomlString, Strip, Unset;
    }
    hide AfterCall, Line, KeyOk, ForcedValue, SeededValue;
    CallWrites(lines, call, key);
  }

  /** A key whose line is a basic string that is not empty is set. */
  lemma {:induction false} StringIsSet(lines: seq<string>, key: string, value: string)
    requires KeyOk(key) && value != "" && Line(lines, key) == Some(Assignment(Entry(key, TomlString(value))))
    ensures !Unset(lines, key)
  {
    hide StripLeft, StripRight, UpToHash, BlankLiteral, Assigned, KeyOk, TomlString, Assignment;
    AssignmentAssigns(Entry(key, TomlString(value)));
    StringIsQuoted(value);
    ValueAfterBlank(TomlString(value));
    TomlIsNotBlank(value);
    assert Captured(lines, First(lines, key), " " + TomlString(value)) == StripRight(UpToHash(TomlString(value)));
  }

  lemma ValueAfterBlank(value: string)
    requires value != "" && !IsBlank(value[0])
    ensures StripLeft(" " + value) == value
  {
    var rest := " " + value;
    assert SkipBlanks(rest, 0) == SkipBlanks(rest, 1) == 1;
  }

  lemma StringIsQuoted(value: string)
    ensures TomlString(value) != "" && TomlString(value)[0] == '"'
  {
  }

  /** The converse: the empty string, as this installer writes it, counts as unset. */
  lemma EmptyStringIsUnset(lines: seq<string>, key: string)
    requires KeyOk(key) && Line(lines, key) == Some(Assignment(Entry(key, TomlString(""))))
    ensures Unset(lines, key)
  {
    EmptyIsTwoQuotes();
    hide StripLeft, StripRight, UpToHash, BlankLiteral, Assigned, KeyOk, TomlString, Assignment;
    AssignmentAssigns(Entry(key, TomlString("")));
    ValueAfterBlank(TomlString(""));
    assert Captured(lines, First(lines, key), " " + TomlString("")) == StripRight(UpToHash(TomlString("")));
  }

  lemma EmptyIsTwoQuotes()
    ensures TomlString("") != "" && !IsBlank(TomlString("")[0])
    ensures BlankLiteral(StripRight(UpToHash(TomlString(""))))
  {
    var s := TomlString("");
    assert s == "\"\"";
    KeptByTheCut(s, 1);
    assert s[..2] == s;
  }

  // ---- any number of runs ----

  function AfterCalls(lines: seq<string>, calls: seq<Call>): seq<string>
    decreases |calls|
  {
    if calls == [] then lines else AfterCall(AfterCalls(lines, calls[..|calls| - 1]), calls[|calls| - 1])
  }

  lemma OneMoreCall(lines: seq<string>, calls: seq<Call>, i: nat)
    requires i < |calls|
    ensures AfterCalls(lines, calls[..i + 1]) == AfterCall(AfterCalls(lines, calls[..i]), calls[i])
  {
    hide AfterCall;
    assert calls[..i + 1][..i] == calls[..i];
  }

  function LastToken(calls: seq<Call>): Option<string>
    decreases |calls|
  {
    if calls == [] then None
    else
      var call := calls[|calls| - 1];
      if Strip(call.dashboardToken) != "" then Some(call.dashboardToken) else LastToken(calls[..|calls| - 1])
  }

  function LastReportToken(calls: seq<Call>): Option<string>
    decreases |calls|
  {
    if calls == [] then None
    else
      var call := calls[|calls| - 1];
      if Strip(call.reportToken) != "" then Some(Strip(call.reportToken)) else LastReportToken(calls[..|calls| - 1])
  }

  /** dashboard_token is the last token that was not blank; without one, the one the file had; without
      that, an empty string. And a token once set is never unset again. */
  lemma {:induction false} DashboardTokenHistory(lines: seq<string>, calls: seq<Call>)
    requires calls != []
    ensures Line(AfterCalls(lines, calls), DASHBOARD_TOKEN) ==
            if LastToken(calls).Some? then Some(Assignment(Entry(DASHBOARD_TOKEN, TomlString(LastToken(calls).value))))
            else if !Unset(lines, DASHBOARD_TOKEN) then Line(lines, DASHBOARD_TOKEN)
            else Some(Assignment(Entry(DASHBOARD_TOKEN, TomlString(""))))
    ensures LastToken(calls).Some? || !Unset(lines, DASHBOARD_TOKEN) ==>
            !Unset(AfterCalls(lines, calls), DASHBOARD_TOKEN)
    decreases |calls|
  {
    TokenKeysAreBare();
    hide Unset, AfterCall, Line, TomlString, Assignment, KeyOk;
    var before := calls[..|calls| - 1];
    var call := calls[|calls| - 1];
    if before != [] {
      DashboardTokenHistory(lines, before);
    }
    var was := AfterCalls(lines, before);
    CallWrites(was, call, DASHBOARD_TOKEN);
    if Strip(call.dashboardToken) != "" {
      StringIsSet(AfterCall(was, call), DASHBOARD_TOKEN, call.dashboardToken);
    }
  }

  /** report_token is the last one that was not blank, or the line the file had: a blank never erases it. */
  lemma {:induction false} ReportTokenHistory(lines: seq<string>, calls: seq<Call>)
    ensures Line(AfterCalls(lines, calls), REPORT_TOKEN) ==
            if LastReportToken(calls).Some? then
                Some(Assignment(Entry(REPORT_TOKEN, TomlString(LastReportToken(calls).value))))
            else Line(lines, REPORT_TOKEN)
    decreases |calls|
  {
    TokenKeysAreBare();
    hide Unset, AfterCall, Line, TomlString, Assignment, KeyOk;
    if calls != [] {
      var before := calls[..|calls| - 1];
      ReportTokenHistory(lines, before);
      CallWrites(AfterCalls(lines, before), calls[|calls| - 1], REPORT_TOKEN);
    }
  }

  /** A remote_root that is set, by an admin or by an earlier run, never changes again. */
  lemma {:induction false} RemoteRootHistory(lines: seq<string>, calls: seq<Call>)
    requires !Unset(lines, REMOTE_ROOT)
    ensures Line(AfterCalls(lines, calls), REMOTE_ROOT) == Line(lines, REMOTE_ROOT)
    ensures !Unset(AfterCalls(lines, calls), REMOTE_ROOT)
    decreases |calls|
  {
    RootKeysAreBare();
    hide Unset, AfterCall, Line, TomlString, Assignment, KeyOk;
    if calls != [] {
      var before := calls[..|calls| - 1];
      RemoteRootHistory(lines, before);
      CallWrites(AfterCalls(lines, before), calls[|calls| - 1], REMOTE_ROOT);
    }
  }

  /** The first editor run on a site that has a root sets it, for good. */
  lemma FirstRootStays(lines: seq<string>, call: Call, calls: seq<Call>)
    requires Unset(lines, REMOTE_ROOT) && !call.base && Strip(call.siteRemoteRoot) != ""
    ensures Line(AfterCalls(AfterCall(lines, call), calls), REMOTE_ROOT)
            == Some(Assignment(Entry(REMOTE_ROOT, TomlString(Strip(call.siteRemoteRoot)))))
  {
    RootKeysAreBare();
    hide Unset, AfterCall, TomlString, Assignment, KeyOk;
    CallWrites(lines, call, REMOTE_ROOT);
    StringIsSet(AfterCall(lines, call), REMOTE_ROOT, Strip(call.siteRemoteRoot));
    RemoteRootHistory(AfterCall(lines, call), calls);
  }

  /** The name of the remote this machine has is replaced by the site's name and by nothing else. */
  lemma {:induction false} RemoteHistory(lines: seq<string>, calls: seq<Call>)
    requires !Unset(lines, REMOTE)
    requires forall i :: 0 <= i < |calls| ==> Strip(calls[i].siteRemote) == ""
    ensures Line(AfterCalls(lines, calls), REMOTE) == Line(lines, REMOTE)
    ensures !Unset(AfterCalls(lines, calls), REMOTE)
    decreases |calls|
  {
    RootKeysAreBare();
    hide Unset, AfterCall, Line, TomlString, Assignment, Strip, KeyOk;
    if calls != [] {
      var before := calls[..|calls| - 1];
      RemoteHistory(lines, before);
      CallWrites(AfterCalls(lines, before), calls[|calls| - 1], REMOTE);
    }
  }

  // ---- the file ----

  datatype Stored = Missing | Unreadable | Readable(lines: seq<string>)

  class ConfigFile {
    var stored: Stored

    /** A call starts from the file's lines, or from the companion's default text when there are none
        to be read. */
    function Lines(defaultText: seq<string>): seq<string>
      reads this
    {
      if stored.Readable? then stored.lines else defaultText
    }

    method EnsureConfig(call: Call, defaultText: seq<string>)
      modifies this
      ensures old(stored).Readable? ==> stored == Readable(AfterCall(old(stored).lines, call))
      ensures !old(stored).Readable? ==> stored == Readable(AfterCall(defaultText, call))
    {
      var text := Lines(defaultText);
      BothAreDicts(text, call);
      var merged := MergeConfigText(text, Forced(text, call), Defaults(call));
      stored := Readable(merged);
    }

    /** Re-running the installer, any number of times. */
    method Rerun(calls: seq<Call>, defaultText: seq<string>)
      modifies this
      ensures calls != [] ==> stored == Readable(AfterCalls(old(Lines(defaultText)), calls))
    {
      hide AfterCall;
      ghost var start := Lines(defaultText);
      for i := 0 to |calls|
        invariant Lines(defaultText) == AfterCalls(start, calls[..i])
        invariant i > 0 ==> stored.Readable?
      {
        EnsureConfig(calls[i], defaultText);
        OneMoreCall(start, calls, i);
      }
      assert calls[..|calls|] == calls;
    }
  }
}
