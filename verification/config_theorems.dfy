/** What merge_config_text promises about the text it returns. */
module ConfigTheorems {
  import opened Texts
  import opened ConfigText
  import opened ConfigMerge

  /** Where a key was assigned first, it still is. */
  lemma FirstStays(lines: seq<string>, wanted: seq<Entry>, key: string)
    requires Dict(wanted) && KeyOk(key) && First(lines, key) < |lines|
    ensures First(Merged(lines, wanted), key) == First(lines, key)
  {
    hide First, Assigns, Written, Unmet, Appended;
    FirstIs(lines, key);
    var n := First(lines, key);
    var merged := Merged(lines, wanted);
    forall i | 0 <= i <= n
      ensures merged[i] == Written(lines, wanted, i)
      ensures Assigns(merged[i], key) <==> i == n
    {
      SameKeysLineByLine(lines, wanted, i, key);
    }
    FirstAt(merged, key, n);
  }

  /** The number of lines added above the appended assignments. */
  function Preamble(above: seq<string>): (n: nat) {
    if above != [] && Strip(above[|above| - 1]) != "" then 2 else 1
  }

  lemma AssignmentsAt(entries: seq<Entry>)
    ensures |Assignments(entries)| == |entries|
    ensures forall i :: 0 <= i < |entries| ==> Assignments(entries)[i] == Assignment(entries[i])
  {
    hide Assignment;
    if entries != [] {
      AssignmentsAt(entries[..|entries| - 1]);
    }
  }

  lemma AppendedAt(above: seq<string>, missing: seq<Entry>)
    requires missing != []
    ensures var tail := Appended(above, missing);
            && |tail| == Preamble(above) + |missing|
            && (forall i :: 0 <= i < Preamble(above) ==> tail[i] == "" || tail[i] == HEADER)
            && (forall i :: 0 <= i < |missing| ==> tail[Preamble(above) + i] == Assignment(missing[i]))
  {
    hide Assignment, Strip;
    AssignmentsAt(missing);
  }

  /** The appended lines assign the missing keys, once each, and no other. */
  lemma AppendedAssigns(above: seq<string>, missing: seq<Entry>, i: nat, key: string)
    requires Dict(missing) && missing != [] && KeyOk(key) && i < |Appended(above, missing)|
    ensures var p := Preamble(above);
            if i < p then !Assigns(Appended(above, missing)[i], key)
            else i - p < |missing| && (Assigns(Appended(above, missing)[i], key) <==> missing[i - p].key == key)
  {
    hide Assigns, Appended, Preamble;
    AppendedAt(above, missing);
    PlainLinesAssignNothing(key);
    if i >= Preamble(above) {
      AssignmentAssignsOnly(missing[i - Preamble(above)], key);
    }
  }

  lemma MissingIsDict(lines: seq<string>, wanted: seq<Entry>)
    requires Dict(wanted)
    ensures Dict(Unmet(lines, wanted, |lines|))
  {
    hide First;
    if wanted != [] {
      MissingIsDict(lines, wanted[1..]);
      UnmetIn(lines, wanted[1..], |lines|);
    }
  }

  /** A key no line assigned and nobody wants stays absent. */
  lemma AbsentStays(lines: seq<string>, wanted: seq<Entry>, key: string)
    requires Dict(wanted) && KeyOk(key) && First(lines, key) == |lines| && forall e :: e in wanted ==> e.key != key
    ensures First(Merged(lines, wanted), key) == |Merged(lines, wanted)|
  {
    hide First, Assigns, Written, Unmet, Appended;
    FirstIs(lines, key);
    var above, missing := Rewritten(lines, wanted), Unmet(lines, wanted, |lines|);
    MissingIsDict(lines, wanted);
    UnmetIn(lines, wanted, |lines|);
    var merged := Merged(lines, wanted);
    forall i | 0 <= i < |merged|
      ensures !Assigns(merged[i], key)
    {
      if i < |lines| {
        SameKeysLineByLine(lines, wanted, i, key);
      } else {
        NotAppended(above, missing, i - |lines|, key);
      }
    }
    FirstAt(merged, key, |merged|);
  }

  lemma NotAppended(above: seq<string>, missing: seq<Entry>, i: nat, key: string)
    requires Dict(missing) && KeyOk(key) && i < |Appended(above, missing)| && forall e :: e in missing ==> e.key != key
    ensures !Assigns(Appended(above, missing)[i], key)
  {
    if missing != [] {
      AppendedAssigns(above, missing, i, key);
      hide Assigns, Appended;
      if i >= Preamble(above) {
        assert missing[i - Preamble(above)] in missing;
      }
    }
  }

  /** A missing key's assignment is appended. */
  lemma MissingIsAppended(lines: seq<string>, wanted: seq<Entry>, e: Entry)
    requires Dict(wanted) && e in wanted && First(lines, e.key) == |lines|
    ensures var merged := Merged(lines, wanted);
            First(merged, e.key) < |merged| && merged[First(merged, e.key)] == Assignment(e)
  {
    hide First, Assigns, Written, Unmet, Appended;
    FirstIs(lines, e.key);
    DictEntry(wanted, e);
    var above, missing := Rewritten(lines, wanted), Unmet(lines, wanted, |lines|);
    MissingIsDict(lines, wanted);
    UnmetIn(lines, wanted, |lines|);
    var merged := Merged(lines, wanted);
    var k :| 0 <= k < |missing| && missing[k] == e;
    AppendedAt(above, missing);
    var n := |lines| + Preamble(above) + k;
    forall i | 0 <= i <= n
      ensures Assigns(merged[i], e.key) <==> i == n
    {
      if i < |lines| {
        SameKeysLineByLine(lines, wanted, i, e.key);
      } else {
        AppendedAssigns(above, missing, i - |lines|, e.key);
      }
    }
    FirstAt(merged, e.key, n);
  }

  /** Every key that is set ends up set: its first assignment reads exactly `key = value`. */
  lemma WantedIsSet(lines: seq<string>, wanted: seq<Entry>, e: Entry)
    requires Dict(wanted) && e in wanted
    ensures var merged := Merged(lines, wanted);
            First(merged, e.key) < |merged| && merged[First(merged, e.key)] == Assignment(e)
    ensures Merged(lines, wanted)[First(Merged(lines, wanted), e.key)] == e.key + " = " + e.value
  {
    DictEntry(wanted, e);
    if First(lines, e.key) < |lines| {
      FirstStays(lines, wanted, e.key);
      WrittenIs(lines, wanted, First(lines, e.key), e);
    } else {
      MissingIsAppended(lines, wanted, e);
    }
  }

  /** Every other line keeps its place and its content. */
  lemma OtherLinesStay(lines: seq<string>, wanted: seq<Entry>, i: nat)
    requires i < |lines| && forall e :: e in wanted ==> First(lines, e.key) != i
    ensures Merged(lines, wanted)[i] == lines[i]
  {
    WrittenKeeps(lines, wanted, i);
  }

  /** A key that is not set keeps its line, or its absence. */
  lemma OtherKeysStay(lines: seq<string>, wanted: seq<Entry>, key: string)
    requires Dict(wanted) && KeyOk(key) && forall e :: e in wanted ==> e.key != key
    ensures var merged := Merged(lines, wanted);
            if First(lines, key) < |lines| then
              First(merged, key) == First(lines, key) < |merged|
                  && merged[First(merged, key)] == lines[First(lines, key)]
            else First(merged, key) == |merged|
  {
    hide Assigns;
    var n := First(lines, key);
    if n < |lines| {
      FirstStays(lines, wanted, key);
      forall e | e in wanted
        ensures First(lines, e.key) != n
      {
        DictEntry(wanted, e);
        if First(lines, e.key) == n {
          AssignsOneKey(lines[n], e.key, key);
        }
      }
      WrittenKeeps(lines, wanted, n);
    } else {
      AbsentStays(lines, wanted, key);
    }
  }

  /** No key is doubled: besides the lines that assigned it before, only a key nobody assigned gets a line. */
  lemma NoKeyIsDoubled(lines: seq<string>, wanted: seq<Entry>, key: string, i: nat)
    requires Dict(wanted) && KeyOk(key) && i < |Merged(lines, wanted)|
    ensures var merged := Merged(lines, wanted);
            Assigns(merged[i], key) <==>
            if i < |lines| then Assigns(lines[i], key) else First(lines, key) == |lines| && i == First(merged, key)
  {
    if i < |lines| {
      SameKeysLineByLine(lines, wanted, i, key);
    } else {
      MissingIsDict(lines, wanted);
      UnmetIn(lines, wanted, |lines|);
      AppendedLine(lines, wanted, key, i);
    }
  }

  lemma AppendedLine(lines: seq<string>, wanted: seq<Entry>, key: string, i: nat)
    requires Dict(wanted) && KeyOk(key) && |lines| <= i < |Merged(lines, wanted)|
    requires Dict(Unmet(lines, wanted, |lines|))
    requires forall e :: e in Unmet(lines, wanted, |lines|) <==> e in wanted && First(lines, e.key) >= |lines|
    ensures Assigns(Merged(lines, wanted)[i], key) <==>
            First(lines, key) == |lines| && i == First(Merged(lines, wanted), key)
  {
    hide First, Assigns, Written, Unmet, Appended;
    var above, missing := Rewritten(lines, wanted), Unmet(lines, wanted, |lines|);
    var merged := Merged(lines, wanted);
    AppendedNeedsMissing(above, missing);
    AppendedAssigns(above, missing, i - |lines|, key);
    FirstIs(lines, key);
    FirstIs(merged, key);
    var p := |lines| + Preamble(above);
    if Assigns(merged[i], key) {
      assert missing[i - p] in missing;
      MissingIsAppended(lines, wanted, missing[i - p]);
      var n := First(merged, key);
      if n < |lines| {
        SameKeysLineByLine(lines, wanted, n, key);
      } else {
        AppendedAssigns(above, missing, n - |lines|, key);
      }
    }
  }

  lemma AppendedNeedsMissing(above: seq<string>, missing: seq<Entry>)
    ensures Appended(above, missing) != [] ==> missing != []
  {
  }

  /** What is set: everything forced, and exactly the defaults of keys that were absent or blank. */
  lemma WantedExactly(lines: seq<string>, forced: seq<Entry>, defaults: seq<Entry>)
    requires Dict(defaults)
    ensures forall e :: e in Wanted(lines, forced, defaults) <==>
              e in forced || (e in defaults && !HasKey(forced, e.key) && Unset(lines, e.key))
  {
    hide Unset;
    if defaults != [] {
      var n := |defaults| - 1;
      var d := defaults[n];
      WantedExactly(lines, forced, defaults[..n]);
      assert defaults == defaults[..n] + [d];
      KeysOf(lines, forced, defaults[..n], d.key);
    }
  }

  lemma KeysOf(lines: seq<string>, forced: seq<Entry>, defaults: seq<Entry>, key: string)
    requires forall e :: e in defaults ==> e.key != key
    ensures HasKey(Wanted(lines, forced, defaults), key) <==> HasKey(forced, key)
  {
    hide Unset;
    if defaults != [] {
      var n := |defaults| - 1;
      assert defaults[n] in defaults;
      KeysOf(lines, forced, defaults[..n], key);
      KeyAppended(Wanted(lines, forced, defaults[..n]), defaults[n], key);
    }
  }

  lemma KeyAppended(entries: seq<Entry>, e: Entry, key: string)
    requires e.key != key
    ensures HasKey(entries + [e], key) <==> HasKey(entries, key)
  {
    if HasKey(entries, key) {
      var i :| 0 <= i < |entries| && entries[i].key == key;
      assert (entries + [e])[i].key == key;
    }
  }

  // ---- blank or not ----

  /** Text with a visible character in the middle of it survives the cut and the stripping up to there. */
  lemma KeptByTheCut(s: string, q: nat)
    requires q < |s| && !IsBlank(s[0]) && !IsBlank(s[q]) && forall i :: 0 <= i <= q ==> s[i] != '#'
    ensures var l := StripRight(UpToHash(s)); |l| > q && l[..q + 1] == s[..q + 1] && Strip(l) == l
  {
    var l := StripRight(UpToHash(s));
    StripKeeps(l);
  }

  /** A line that assigns something captures at least that key and its equals sign. */
  lemma KeyIsNotBlank(line: string, key: string)
    requires KeyOk(key) && Assigns(line, key)
    ensures StripLeft(line) != "" && !BlankLiteral(StripRight(UpToHash(StripLeft(line))))
  {
    var s := StripLeft(line);
    var t := s[|key|..];
    var q := |key| + SkipBlanks(t, 0);
    assert s[q] == '=';
    forall i | 0 <= i < q
      ensures s[i] != '#'
    {
      if i < |key| {
        assert s[i] == key[i];
      } else {
        assert s[i] == t[i - |key|];
      }
    }
    assert s[0] == key[0];
    KeptByTheCut(s, q);
    var l := StripRight(UpToHash(s));
    assert l[q] == s[..q + 1][q];
  }

  /** A literal that is not blank does not become blank: the lines it may run on to change only by
      being reassigned, and an assignment is never blank. */
  lemma CaptureStaysSet(lines: seq<string>, wanted: seq<Entry>, i: nat, rest: string)
    requires Dict(wanted) && i < |lines| && !BlankLiteral(Captured(lines, i, rest))
    ensures !BlankLiteral(Captured(Merged(lines, wanted), i, rest))
    decreases |lines| - i
  {
    if StripLeft(rest) == "" && i + 1 < |lines| {
      NextLine(lines, wanted, i + 1);
      if Merged(lines, wanted)[i + 1] == lines[i + 1] {
        CaptureStaysSet(lines, wanted, i + 1, lines[i + 1]);
      }
    }
  }

  /** A rewritten line captures itself, and not as a blank. */
  lemma NextLine(lines: seq<string>, wanted: seq<Entry>, i: nat)
    requires Dict(wanted) && i < |lines|
    ensures var merged := Merged(lines, wanted);
            merged[i] == lines[i] || !BlankLiteral(Captured(merged, i, merged[i]))
  {
    var j := Owner(lines, wanted, i);
    if j < |wanted| {
      AssignmentAssigns(wanted[j]);
      KeyIsNotBlank(Assignment(wanted[j]), wanted[j].key);
    }
  }

  /** A key that is set and not in this call keeps its line and stays set. */
  lemma SetStaysSet(lines: seq<string>, wanted: seq<Entry>, key: string)
    requires Dict(wanted) && KeyOk(key) && !Unset(lines, key) && forall e :: e in wanted ==> e.key != key
    ensures First(Merged(lines, wanted), key) == First(lines, key) < |lines| <= |Merged(lines, wanted)|
    ensures Merged(lines, wanted)[First(lines, key)] == lines[First(lines, key)]
    ensures !Unset(Merged(lines, wanted), key)
  {
    hide Captured, BlankLiteral, Assigned, First;
    FirstIs(lines, key);
    OtherKeysStay(lines, wanted, key);
    var n := First(lines, key);
    CaptureStaysSet(lines, wanted, n, Assigned(lines[n], key).value);
  }

  // ---- a second run ----

  /** The second run sets no key the first one did not. */
  lemma NothingNewIsWanted(lines: seq<string>, forced: seq<Entry>, defaults: seq<Entry>, e: Entry)
    requires Dict(forced) && Dict(defaults)
    requires e in Wanted(Merged(lines, Wanted(lines, forced, defaults)), forced, defaults)
    ensures e in Wanted(lines, forced, defaults)
  {
    hide Unset, Merged;
    var wanted := Wanted(lines, forced, defaults);
    WantedExactly(lines, forced, defaults);
    WantedExactly(Merged(lines, wanted), forced, defaults);
    if e !in wanted {
      StillSet(lines, forced, defaults, e);
    }
  }

  lemma {:induction false} StillSet(lines: seq<string>, forced: seq<Entry>, defaults: seq<Entry>, e: Entry)
    requires Dict(forced) && Dict(defaults) && e in defaults && !HasKey(forced, e.key) && !Unset(lines, e.key)
    ensures !Unset(Merged(lines, Wanted(lines, forced, defaults)), e.key)
  {
    hide Unset, Merged;
    var wanted := Wanted(lines, forced, defaults);
    WantedIsDict(lines, forced, defaults);
    WantedExactly(lines, forced, defaults);
    DictEntry(defaults, e);
    forall f | f in wanted
      ensures f.key != e.key
    {
      if f in forced {
        var i :| 0 <= i < |forced| && forced[i] == f;
      } else if f.key == e.key {
        DictEntry(defaults, f);
      }
    }
    SetStaysSet(lines, wanted, e.key);
  }

  lemma NobodyIsMissing(lines: seq<string>, wanted: seq<Entry>)
    requires forall e :: e in wanted ==> First(lines, e.key) < |lines|
    ensures Unmet(lines, wanted, |lines|) == []
  {
    hide First;
    if wanted != [] {
      assert wanted[0] in wanted;
      NobodyIsMissing(lines, wanted[1..]);
    }
  }

  /** Merging entries whose first assignments already read `key = value` changes nothing. */
  lemma NothingToDo(lines: seq<string>, wanted: seq<Entry>)
    requires Dict(wanted)
    requires forall e :: e in wanted ==> First(lines, e.key) < |lines| && lines[First(lines, e.key)] == Assignment(e)
    ensures Merged(lines, wanted) == lines
  {
    forall i | 0 <= i < |lines|
      ensures Written(lines, wanted, i) == lines[i]
    {
      var j := Owner(lines, wanted, i);
      if j < |wanted| {
        assert wanted[j] in wanted;
      }
    }
    NobodyIsMissing(lines, wanted);
  }

  /** merge_config_text is idempotent. */
  lemma MergeIsIdempotent(lines: seq<string>, forced: seq<Entry>, defaults: seq<Entry>)
    requires Dict(forced) && Dict(defaults)
    ensures var merged := Merged(lines, Wanted(lines, forced, defaults));
            Merged(merged, Wanted(merged, forced, defaults)) == merged
  {
    hide Merged, Written, First;
    var wanted := Wanted(lines, forced, defaults);
    var merged := Merged(lines, wanted);
    WantedIsDict(lines, forced, defaults);
    WantedIsDict(merged, forced, defaults);
    forall e | e in Wanted(merged, forced, defaults)
      ensures First(merged, e.key) < |merged| && merged[First(merged, e.key)] == Assignment(e)
    {
      NothingNewIsWanted(lines, forced, defaults, e);
      WantedIsSet(lines, wanted, e);
    }
    NothingToDo(merged, Wanted(merged, forced, defaults));
  }
}
