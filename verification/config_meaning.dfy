/** What lines and literals mean, and what the end of a merged text looks like, character by character. */
module ConfigMeaning {
  import opened Options
  import opened Texts
  import opened ConfigText
  import opened ConfigMerge
  import opened ConfigTheorems

  // ---- what assigns a key ----

  /** White space, the key, white space, an equals sign: what follows it is what the key is assigned. */
  lemma AssignmentShape(a: string, key: string, b: string, rest: string)
    requires KeyOk(key) && AllBlank(a) && AllBlank(b)
    ensures Assigned(a + key + b + "=" + rest, key) == Some(rest)
  {
    var tail := b + ("=" + rest);
    assert a + key + b + "=" + rest == a + (key + tail);
    StripLeftDrops(a, key + tail);
    assert (key + tail)[..|key|] == key && (key + tail)[|key|..] == tail;
    assert !IsBlank(("=" + rest)[0]);
    StripLeftDrops(b, "=" + rest);
    assert ("=" + rest)[1..] == rest;
    hide StripLeft, KeyOk;
  }

  /** And no other line assigns it. */
  lemma OnlyThatShapeAssigns(line: string, key: string)
    requires Assigns(line, key)
    ensures exists a, b :: AllBlank(a) && AllBlank(b) && line == a + key + b + "=" + Assigned(line, key).value
  {
    var s := StripLeft(line);
    var t := s[|key|..];
    var u := StripLeft(t);
    var a, b := line[..|line| - |s|], t[..|t| - |u|];
    BlankBefore(line);
    BlankBefore(t);
    hide StripLeft, AllBlank;
    Pieces(line, key, a, s, b, t, u);
  }

  lemma BlankBefore(s: string)
    ensures |StripLeft(s)| <= |s| && s == s[..|s| - |StripLeft(s)|] + StripLeft(s)
    ensures AllBlank(s[..|s| - |StripLeft(s)|])
  {
  }

  lemma Pieces(line: string, key: string, a: string, s: string, b: string, t: string, u: string)
    requires line == a + s && s == key + t && t == b + u && u != "" && u[0] == '='
    ensures line == a + key + b + "=" + u[1..]
  {
    assert u == "=" + u[1..];
  }

  // ---- what counts as blank ----

  /** The two blank literals, and no text at all. */
  lemma BlankLiterals(text: string)
    requires text != "" ==> !IsBlank(text[0]) && !IsBlank(text[|text| - 1])
    ensures BlankLiteral(text) <==> text == "" || text == "\"\"" || text == "''"
  {
    StripKeeps(text);
  }

  /** Nothing but white space, or a comment, possibly after white space. */
  predicate NothingMore(s: string) {
    exists n :: 0 <= n <= |s| && AllBlank(s[..n]) && (n == |s| || s[n] == '#')
  }

  lemma CutBefore(literal: string, more: string)
    requires literal != "" && !IsBlank(literal[0]) && !IsBlank(literal[|literal| - 1])
    requires (forall i :: 0 <= i < |literal| ==> literal[i] != '#') && NothingMore(more)
    ensures StripRight(UpToHash(literal + more)) == literal
  {
    var n :| 0 <= n <= |more| && AllBlank(more[..n]) && (n == |more| || more[n] == '#');
    var s := literal + more;
    assert forall i :: 0 <= i < |literal| ==> s[i] == literal[i];
    assert forall i :: |literal| <= i < |s| ==> s[i] == more[i - |literal|];
    assert forall i :: 0 <= i < n ==> more[i] == more[..n][i];
    assert forall i :: 0 <= i < |literal| + n ==> s[i] != '#';
    assert n < |more| ==> s[|literal| + n] == '#';
    assert HashFrom(s, 0) == |literal| + n;
    assert UpToHash(s) == literal + more[..n];
    StripRightDrops(literal, more[..n]);
  }

  /** A key whose first assignment reads `key = literal`, a comment after it or not, is unset exactly when the
      literal is an empty string in either quotes. */
  lemma UnsetExactlyWhen(lines: seq<string>, key: string, literal: string, more: string)
    requires KeyOk(key) && First(lines, key) < |lines|
    requires lines[First(lines, key)] == key + " = " + literal + more
    requires literal != "" && !IsBlank(literal[0]) && !IsBlank(literal[|literal| - 1])
    requires (forall i :: 0 <= i < |literal| ==> literal[i] != '#') && NothingMore(more)
    ensures Unset(lines, key) <==> literal == "\"\"" || literal == "''"
  {
    hide StripLeft, StripRight, UpToHash, BlankLiteral, KeyOk, NothingMore, First, Captured, Assigned;
    var rest := literal + more;
    Regroup(key, literal, more);
    PlainShape(key, rest);
    CutBefore(literal, more);
    BlankLiterals(literal);
    LiteralIs(lines, key, rest, literal);
  }

  lemma Regroup(key: string, literal: string, more: string)
    requires literal != ""
    ensures key + " = " + literal + more == key + " = " + (literal + more)
    ensures literal + more != "" && (literal + more)[0] == literal[0]
  {
  }

  lemma LiteralIs(lines: seq<string>, key: string, rest: string, literal: string)
    requires First(lines, key) < |lines| && Assigned(lines[First(lines, key)], key) == Some(" " + rest)
    requires rest != "" && StripLeft(" " + rest) == rest && StripRight(UpToHash(rest)) == literal
    ensures Literal(lines, key) == Some(literal)
  {
    hide StripLeft, StripRight, UpToHash, First, Assigned;
  }

  lemma PlainShape(key: string, rest: string)
    requires KeyOk(key) && rest != "" && !IsBlank(rest[0])
    ensures Assigned(key + " = " + rest, key) == Some(" " + rest)
    ensures StripLeft(" " + rest) == rest
  {
    AssignmentAssigns(Entry(key, rest));
    StripLeftDrops(" ", rest);
  }

  lemma BlankStripsAway(s: string)
    ensures AllBlank(s) <==> StripLeft(s) == ""
  {
    if AllBlank(s) {
      StripLeftDrops(s, "");
      assert s + "" == s;
    } else {
      var i :| 0 <= i < |s| && !IsBlank(s[i]);
      assert SkipBlanks(s, 0) <= i;
    }
  }

  lemma {:induction false} ReadsOn(lines: seq<string>, i: nat, rest: string, j: nat)
    requires i < j < |lines| && AllBlank(rest)
    requires forall k :: i < k < j ==> AllBlank(lines[k])
    ensures Captured(lines, i, rest) == Captured(lines, j, lines[j])
    decreases j - i
  {
    BlankStripsAway(rest);
    hide StripLeft, StripRight, UpToHash;
    if i + 1 < j {
      ReadsOn(lines, i + 1, lines[i + 1], j);
    }
  }

  lemma {:induction false} ReadsToTheEnd(lines: seq<string>, i: nat, rest: string)
    requires i < |lines| && AllBlank(rest)
    requires forall k :: i < k < |lines| ==> AllBlank(lines[k])
    ensures Captured(lines, i, rest) == ""
    decreases |lines| - i
  {
    BlankStripsAway(rest);
    if i + 1 < |lines| {
      hide StripLeft;
      ReadsToTheEnd(lines, i + 1, lines[i + 1]);
    }
  }

  /** A key with nothing after its equals sign takes the next line that is not blank for its literal, whatever
      that line is there for; with no such line it is unset. */
  lemma BareKeyTakesTheNextLine(lines: seq<string>, key: string, rest: string, j: nat)
    requires First(lines, key) < j <= |lines|
    requires Assigned(lines[First(lines, key)], key) == Some(rest) && AllBlank(rest)
    requires forall k :: First(lines, key) < k < j ==> AllBlank(lines[k])
    requires j < |lines| ==> !AllBlank(lines[j])
    ensures Literal(lines, key) == Some(if j == |lines| then "" else StripRight(UpToHash(StripLeft(lines[j]))))
    ensures j == |lines| ==> Unset(lines, key)
  {
    hide StripLeft, StripRight, UpToHash, Assigned, First, Captured, AllBlank, BlankLiteral;
    if j == |lines| {
      ReadsToTheEnd(lines, First(lines, key), rest);
      BlankLiterals("");
    } else {
      ReadsOn(lines, First(lines, key), rest, j);
      BlankStripsAway(lines[j]);
      CapturedHere(lines, j, lines[j]);
    }
  }

  lemma CapturedHere(lines: seq<string>, i: nat, rest: string)
    requires i < |lines| && StripLeft(rest) != ""
    ensures Captured(lines, i, rest) == StripRight(UpToHash(StripLeft(rest)))
  {
    hide StripLeft, StripRight, UpToHash;
  }

  /** A key no line assigns is unset. */
  lemma AbsentIsUnset(lines: seq<string>, key: string)
    requires forall i :: 0 <= i < |lines| ==> !Assigns(lines[i], key)
    ensures Unset(lines, key)
  {
    FirstAt(lines, key, |lines|);
  }

  // ---- the end of the merged text ----

  /** The lines after the old ones: none when every wanted key had a line; else a blank one if the text ends
      in one that is not, the installer's mark, and `key = value` for each key that had none. */
  lemma TailReads(lines: seq<string>, wanted: seq<Entry>)
    requires Dict(wanted)
    ensures var merged := Merged(lines, wanted);
            var missing := Unmet(lines, wanted, |lines|);
            var gap := if lines != [] && Strip(merged[|lines| - 1]) != "" then 1 else 0;
            if missing == [] then |merged| == |lines|
            else
              && |merged| == |lines| + gap + 1 + |missing|
              && (gap == 1 ==> merged[|lines|] == "")
              && merged[|lines| + gap] == "# -- set by the CCSync installer --"
              && forall i :: 0 <= i < |missing| ==>
                   merged[|lines| + gap + 1 + i] == missing[i].key + " = " + missing[i].value
  {
    hide Written, Strip, Unmet, Dict;
    var missing := Unmet(lines, wanted, |lines|);
    if missing != [] {
      AssignmentsAt(missing);
    }
  }

  lemma UnmetConcat(lines: seq<string>, a: seq<Entry>, b: seq<Entry>, n: nat)
    ensures Unmet(lines, a + b, n) == Unmet(lines, a, n) + Unmet(lines, b, n)
  {
    hide First;
    if a == [] {
      assert a + b == b;
    } else {
      assert (a + b)[1..] == a[1..] + b;
      UnmetConcat(lines, a[1..], b, n);
    }
  }

  /** Keys that had no line are added in the order they are wanted in. */
  lemma AddedInOrder(lines: seq<string>, wanted: seq<Entry>, i: nat, j: nat)
    requires Dict(wanted) && i < j < |wanted|
    requires First(lines, wanted[i].key) == |lines| && First(lines, wanted[j].key) == |lines|
    ensures var merged := Merged(lines, wanted);
            First(merged, wanted[i].key) < First(merged, wanted[j].key) < |merged|
  {
    var a, b, c := wanted[..i], wanted[i + 1..j], wanted[j + 1..];
    assert wanted == a + ([wanted[i]] + (b + ([wanted[j]] + c)));
    var n := |lines|;
    hide First, Merged, Unmet, Dict, Preamble, Rewritten;
    UnmetConcat(lines, a, [wanted[i]] + (b + ([wanted[j]] + c)), n);
    UnmetConcat(lines, [wanted[i]], b + ([wanted[j]] + c), n);
    UnmetConcat(lines, b, [wanted[j]] + c, n);
    UnmetConcat(lines, [wanted[j]], c, n);
    var missing := Unmet(lines, wanted, n);
    var p := |Unmet(lines, a, n)|;
    var q := p + 1 + |Unmet(lines, b, n)|;
    assert missing[p] == wanted[i] && missing[q] == wanted[j];
    AddedAt(lines, wanted, p);
    AddedAt(lines, wanted, q);
  }

  lemma AddedAt(lines: seq<string>, wanted: seq<Entry>, k: nat)
    requires Dict(wanted) && k < |Unmet(lines, wanted, |lines|)|
    ensures var e := Unmet(lines, wanted, |lines|)[k];
            First(Merged(lines, wanted), e.key) == |lines| + Preamble(Rewritten(lines, wanted)) + k
            && |lines| + Preamble(Rewritten(lines, wanted)) + k < |Merged(lines, wanted)|
  {
    hide First, Assigns, Written, Unmet, Appended;
    var above, missing := Rewritten(lines, wanted), Unmet(lines, wanted, |lines|);
    var e := missing[k];
    MissingIsDict(lines, wanted);
    UnmetIn(lines, wanted, |lines|);
    assert e in missing;
    DictEntry(wanted, e);
    FirstIs(lines, e.key);
    var merged := Merged(lines, wanted);
    AppendedAt(above, missing);
    var n := |lines| + Preamble(above) + k;
    forall i | 0 <= i <= n
      ensures Assigns(merged[i], e.key) <==> i == n
    {
      if i < |lines| {
        SameKeysLineByLine(lines, wanted, i, e.key);
      } else {
        AppendedAssigns(above, missing, i - |lines|, e.key);
      }
    }
    FirstAt(merged, e.key, n);
  }

  /** What is forced comes first, in its order. */
  lemma ForcedComesFirst(lines: seq<string>, forced: seq<Entry>, defaults: seq<Entry>)
    ensures forced <= Wanted(lines, forced, defaults)
  {
    hide Unset;
    if defaults != [] {
      ForcedComesFirst(lines, forced, defaults[..|defaults| - 1]);
    }
  }
}
