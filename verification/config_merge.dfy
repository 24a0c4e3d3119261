/** merge_config_text as the loops it is, and what it does to a file. */
module ConfigMerge {
  import opened Texts
  import opened ConfigText

  // ---- the loops ----

  lemma UnmetAtStart(lines: seq<string>, wanted: seq<Entry>)
    ensures Unmet(lines, wanted, 0) == wanted
  {
    if wanted != [] {
      UnmetAtStart(lines, wanted[1..]);
    }
  }

  lemma UnmetIn(lines: seq<string>, wanted: seq<Entry>, n: nat)
    ensures forall e :: e in Unmet(lines, wanted, n) <==> e in wanted && First(lines, e.key) >= n
  {
    if wanted != [] {
      UnmetIn(lines, wanted[1..], n);
      assert wanted == [wanted[0]] + wanted[1..];
    }
  }

  lemma DictTail(wanted: seq<Entry>)
    requires Dict(wanted) && wanted != []
    ensures Dict(wanted[1..]) && forall e :: e in wanted[1..] ==> e.key != wanted[0].key
  {
  }

  lemma DictEntry(wanted: seq<Entry>, e: Entry)
    requires Dict(wanted) && e in wanted
    ensures KeyOk(e.key) && forall f :: f in wanted && f.key == e.key ==> f == e
  {
  }

  /** No waiting key is assigned by line `i`: the same keys wait after it. */
  lemma UnmetSkips(lines: seq<string>, wanted: seq<Entry>, i: nat)
    requires i < |lines| && forall e :: e in Unmet(lines, wanted, i) ==> !Assigns(lines[i], e.key)
    ensures Unmet(lines, wanted, i + 1) == Unmet(lines, wanted, i)
  {
    hide Assigns, First;
    if wanted != [] {
      FirstIs(lines, wanted[0].key);
      UnmetIn(lines, wanted, i);
      assert forall e :: e in Unmet(lines, wanted[1..], i) ==> e in Unmet(lines, wanted, i);
      UnmetSkips(lines, wanted[1..], i);
      assert wanted[0] in wanted;
    }
  }

  function Without(entries: seq<Entry>, k: nat): seq<Entry>
    requires k < |entries|
  {
    entries[..k] + entries[k + 1..]
  }

  lemma WithoutLater(e: Entry, rest: seq<Entry>, k: nat)
    requires 0 < k <= |rest|
    ensures Without([e] + rest, k) == [e] + Without(rest, k - 1)
  {
  }

  /** The line assigns the first entry: it assigns no other one. */
  lemma NoOtherKey(lines: seq<string>, wanted: seq<Entry>, i: nat)
    requires Dict(wanted) && wanted != [] && i < |lines| && Assigns(lines[i], wanted[0].key)
    ensures forall e :: e in wanted[1..] ==> !Assigns(lines[i], e.key)
  {
    hide Assigns;
    DictTail(wanted);
    forall e | e in wanted[1..]
      ensures !Assigns(lines[i], e.key)
    {
      DictEntry(wanted[1..], e);
      if Assigns(lines[i], e.key) {
        AssignsOneKey(lines[i], e.key, wanted[0].key);
      }
    }
  }

  /** The waiting key that line `i` assigns stops waiting, and only that one. */
  lemma {:induction false} UnmetDrops(lines: seq<string>, wanted: seq<Entry>, i: nat, k: nat)
    requires Dict(wanted) && i < |lines| && k < |Unmet(lines, wanted, i)|
    requires Assigns(lines[i], Unmet(lines, wanted, i)[k].key)
    ensures Unmet(lines, wanted, i + 1) == Without(Unmet(lines, wanted, i), k)
  {
    hide Assigns, First, Without;
    if wanted == [] {
    } else {
      FirstIs(lines, wanted[0].key);
      DictTail(wanted);
      var rest := Unmet(lines, wanted[1..], i);
      UnmetIn(lines, wanted[1..], i);
      if Assigns(lines[i], wanted[0].key) {
        NoOtherKey(lines, wanted, i);
      }
      if First(lines, wanted[0].key) < i {
        UnmetDrops(lines, wanted[1..], i, k);
      } else if k == 0 {
        UnmetSkips(lines, wanted[1..], i);
        WithoutFirst(wanted[0], rest);
      } else {
        assert rest[k - 1] in rest;
        UnmetDrops(lines, wanted[1..], i, k - 1);
        WithoutLater(wanted[0], rest, k);
      }
    }
  }

  lemma WithoutFirst(e: Entry, rest: seq<Entry>)
    ensures Without([e] + rest, 0) == rest
  {
  }

  lemma WrittenIs(lines: seq<string>, wanted: seq<Entry>, i: nat, e: Entry)
    requires Dict(wanted) && i < |lines| && e in wanted && First(lines, e.key) == i
    ensures Written(lines, wanted, i) == Assignment(e)
  {
    var j :| 0 <= j < |wanted| && wanted[j] == e;
    var k := Owner(lines, wanted, i);
    AssignsOneKey(lines[i], e.key, wanted[k].key);
  }

  lemma WrittenKeeps(lines: seq<string>, wanted: seq<Entry>, i: nat)
    requires i < |lines| && forall e :: e in wanted ==> First(lines, e.key) != i
    ensures Written(lines, wanted, i) == lines[i]
  {
    assert forall k :: 0 <= k < |wanted| ==> wanted[k] in wanted;
  }

  lemma WantedIsDict(lines: seq<string>, forced: seq<Entry>, defaults: seq<Entry>)
    requires Dict(forced) && Dict(defaults)
    ensures Dict(Wanted(lines, forced, defaults))
  {
    if defaults != [] {
      WantedIsDict(lines, forced, defaults[..|defaults| - 1]);
    }
  }

  /** The waiting keys are looked at in order, and the first that the line assigns takes it over. */
  method FirstAssigned(line: string, remaining: seq<Entry>) returns (k: nat)
    ensures k <= |remaining|
    ensures k < |remaining| ==> Assigns(line, remaining[k].key)
    ensures forall j :: 0 <= j < k ==> !Assigns(line, remaining[j].key)
  {
    k := 0;
    while k < |remaining|
      invariant k <= |remaining|
      invariant forall j :: 0 <= j < k ==> !Assigns(line, remaining[j].key)
    {
      if Assigns(line, remaining[k].key) {
        break;
      }
      k := k + 1;
    }
  }

  method Seed(text: seq<string>, forced: seq<Entry>, defaults: seq<Entry>) returns (remaining: seq<Entry>)
    ensures remaining == Wanted(text, forced, defaults)
  {
    remaining := forced;
    for d := 0 to |defaults|
      invariant remaining == Wanted(text, forced, defaults[..d])
    {
      assert defaults[..d + 1][..d] == defaults[..d];
      if !HasKey(remaining, defaults[d].key) && Unset(text, defaults[d].key) {
        remaining := remaining + [defaults[d]];
      }
    }
    assert defaults[..|defaults|] == defaults;
  }

  method Overwrite(text: seq<string>, wanted: seq<Entry>) returns (lines: seq<string>, remaining: seq<Entry>)
    requires Dict(wanted)
    ensures lines == Rewritten(text, wanted) && remaining == Unmet(text, wanted, |text|)
  {
    hide Assigns, First, Written;
    UnmetAtStart(text, wanted);
    lines, remaining := text, wanted;
    for i := 0 to |text|
      invariant |lines| == |text|
      invariant forall k :: 0 <= k < i ==> lines[k] == Written(text, wanted, k)
      invariant forall k :: i <= k < |text| ==> lines[k] == text[k]
      invariant remaining == Unmet(text, wanted, i)
    {
      UnmetIn(text, wanted, i);
      var k := FirstAssigned(lines[i], remaining);
      if k < |remaining| {
        var e := remaining[k];
        UnmetDrops(text, wanted, i, k);
        NextIsFirst(text, wanted, i, e);
        lines := lines[i := Assignment(e)];
        remaining := Without(remaining, k);
      } else {
        UnmetSkips(text, wanted, i);
        NobodysLine(text, wanted, i);
      }
    }
  }

  lemma NextIsFirst(text: seq<string>, wanted: seq<Entry>, i: nat, e: Entry)
    requires Dict(wanted) && i < |text| && e in Unmet(text, wanted, i) && Assigns(text[i], e.key)
    ensures Written(text, wanted, i) == Assignment(e)
  {
    UnmetIn(text, wanted, i);
    FirstIs(text, e.key);
    hide Assigns, First;
    WrittenIs(text, wanted, i, e);
  }

  lemma {:induction false} NobodysLine(text: seq<string>, wanted: seq<Entry>, i: nat)
    requires i < |text| && forall e :: e in Unmet(text, wanted, i) ==> !Assigns(text[i], e.key)
    ensures Written(text, wanted, i) == text[i]
  {
    UnmetIn(text, wanted, i);
    hide Assigns;
    WrittenKeeps(text, wanted, i);
  }

  lemma NoAssignment()
    ensures Assignments([]) == []
  {
  }

  lemma OneMoreAssignment(entries: seq<Entry>, k: nat)
    requires k < |entries|
    ensures Assignments(entries[..k + 1]) == Assignments(entries[..k]) + [Assignment(entries[k])]
  {
    assert entries[..k + 1][..k] == entries[..k];
  }

  method Append(above: seq<string>, remaining: seq<Entry>) returns (lines: seq<string>)
    ensures lines == above + Appended(above, remaining)
  {
    hide Assignment, Strip, Assignments;
    lines := above;
    if remaining != [] {
      if lines != [] && Strip(lines[|lines| - 1]) != "" {
        lines := lines + [""];
      }
      lines := lines + [HEADER];
      ghost var start := lines;
      NoAssignment();
      for k := 0 to |remaining|
        invariant lines == start + Assignments(remaining[..k])
      {
        OneMoreAssignment(remaining, k);
        lines := lines + [Assignment(remaining[k])];
      }
      assert remaining[..|remaining|] == remaining;
    }
  }

  method MergeConfigText(text: seq<string>, forced: seq<Entry>, defaults: seq<Entry>) returns (lines: seq<string>)
    requires Dict(forced) && Dict(defaults)
    ensures lines == Merged(text, Wanted(text, forced, defaults))
  {
    WantedIsDict(text, forced, defaults);
    var wanted := Seed(text, forced, defaults);
    var remaining;
    lines, remaining := Overwrite(text, wanted);
    lines := Append(lines, remaining);
  }

  // ---- what the merged text is ----

  /** Line by line, the merged text assigns the keys the old one did. */
  lemma SameKeysLineByLine(lines: seq<string>, wanted: seq<Entry>, i: nat, key: string)
    requires Dict(wanted) && i < |lines| && KeyOk(key)
    ensures Assigns(Written(lines, wanted, i), key) <==> Assigns(lines[i], key)
  {
    var j := Owner(lines, wanted, i);
    if j < |wanted| {
      AssignmentAssignsOnly(wanted[j], key);
      if Assigns(lines[i], key) {
        AssignsOneKey(lines[i], key, wanted[j].key);
      }
    }
  }

}
