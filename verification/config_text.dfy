/** merge_config_text: forcing `key = value` lines into TOML text, seen as a list of lines. */
module ConfigText {
  import opened Options
  import opened Texts

  datatype Entry = Entry(key: string, value: string)

  const HEADER := "# -- set by the CCSync installer --"

  /** A bare TOML key. */
  ghost predicate KeyOk(key: string) {
    key != "" && forall i :: 0 <= i < |key| ==> !IsBlank(key[i]) && key[i] != '=' && key[i] != '#'
  }

  /** What stands after the equals sign when `line` assigns `key`. */
  function Assigned(line: string, key: string): Option<string> {
    var s := StripLeft(line);
    if |key| > |s| || s[..|key|] != key then None
    else
      var t := StripLeft(s[|key|..]);
      if t != "" && t[0] == '=' then Some(t[1..]) else None
  }

  predicate Assigns(line: string, key: string) {
    Assigned(line, key).Some?
  }

  function Assignment(e: Entry): string {
    e.key + " = " + e.value
  }

  function FirstFrom(lines: seq<string>, key: string, i: nat): (n: nat)
    requires i <= |lines|
    ensures i <= n <= |lines|
    ensures n < |lines| ==> Assigns(lines[n], key)
    ensures forall k :: i <= k < n ==> !Assigns(lines[k], key)
    decreases |lines| - i
  {
    if i == |lines| || Assigns(lines[i], key) then i else FirstFrom(lines, key, i + 1)
  }

  /** The first line that assigns `key`, or the number of lines. */
  function First(lines: seq<string>, key: string): nat {
    FirstFrom(lines, key, 0)
  }

  lemma FirstIs(lines: seq<string>, key: string)
    ensures var n := First(lines, key);
            && n <= |lines|
            && (n < |lines| ==> Assigns(lines[n], key))
            && (forall k :: 0 <= k < n ==> !Assigns(lines[k], key))
  {
  }

  /** Only one line is the first. */
  lemma FirstAt(lines: seq<string>, key: string, n: nat)
    requires n <= |lines|
    requires n < |lines| ==> Assigns(lines[n], key)
    requires forall k :: 0 <= k < n ==> !Assigns(lines[k], key)
    ensures First(lines, key) == n
  {
    hide Assigns;
  }

  // ---- the literal a key is assigned ----

  function HashFrom(s: string, i: nat): (n: nat)
    requires i <= |s|
    ensures i <= n <= |s|
    ensures n < |s| ==> s[n] == '#'
    ensures forall k :: i <= k < n ==> s[k] != '#'
    decreases |s| - i
  {
    if i < |s| && s[i] != '#' then HashFrom(s, i + 1) else i
  }

  function UpToHash(s: string): string {
    s[..HashFrom(s, 0)]
  }

  /** _existing_literal, from the equals sign on: with nothing left on its line it takes the next line
      that is not blank. */
  function Captured(lines: seq<string>, i: nat, rest: string): string
    requires i < |lines|
    decreases |lines| - i
  {
    var s := StripLeft(rest);
    if s == "" && i + 1 < |lines| then Captured(lines, i + 1, lines[i + 1]) else StripRight(UpToHash(s))
  }

  function Literal(lines: seq<string>, key: string): Option<string> {
    var n := First(lines, key);
    if n == |lines| then None else Some(Captured(lines, n, Assigned(lines[n], key).value))
  }

  predicate BlankLiteral(literal: string) {
    Strip(literal) == "" || Strip(literal) == "\"\"" || Strip(literal) == "''"
  }

  /** _literal_is_blank */
  predicate Unset(lines: seq<string>, key: string) {
    var literal := Literal(lines, key);
    literal.None? || BlankLiteral(literal.value)
  }

  // ---- entries in the order they were put in ----

  predicate HasKey(entries: seq<Entry>, key: string) {
    exists i :: 0 <= i < |entries| && entries[i].key == key
  }

  /** A dict: every key once, every key a bare key. */
  ghost predicate Dict(entries: seq<Entry>) {
    && (forall i :: 0 <= i < |entries| ==> KeyOk(entries[i].key))
    && (forall i, j :: 0 <= i < j < |entries| ==> entries[i].key != entries[j].key)
  }

  /** What one call sets: everything forced, and the defaults of keys that are absent or blank. */
  function Wanted(lines: seq<string>, forced: seq<Entry>, defaults: seq<Entry>): seq<Entry> {
    if defaults == [] then forced
    else
      var before := Wanted(lines, forced, defaults[..|defaults| - 1]);
      var d := defaults[|defaults| - 1];
      if HasKey(before, d.key) || !Unset(lines, d.key) then before else before + [d]
  }

  /** The entries whose key no line before `n` assigns. */
  function Unmet(lines: seq<string>, wanted: seq<Entry>, n: nat): seq<Entry> {
    if wanted == [] then []
    else
      var rest := Unmet(lines, wanted[1..], n);
      if First(lines, wanted[0].key) >= n then [wanted[0]] + rest else rest
  }

  // ---- the text afterwards ----

  function OwnerFrom(lines: seq<string>, wanted: seq<Entry>, i: nat, j: nat): (k: nat)
    requires j <= |wanted|
    ensures j <= k <= |wanted|
    ensures k < |wanted| ==> First(lines, wanted[k].key) == i
    ensures forall l :: j <= l < k ==> First(lines, wanted[l].key) != i
    decreases |wanted| - j
  {
    if j == |wanted| || First(lines, wanted[j].key) == i then j else OwnerFrom(lines, wanted, i, j + 1)
  }

  /** The entry whose first assignment is line `i`, or the number of entries. */
  function Owner(lines: seq<string>, wanted: seq<Entry>, i: nat): nat {
    OwnerFrom(lines, wanted, i, 0)
  }

  function Written(lines: seq<string>, wanted: seq<Entry>, i: nat): string
    requires i < |lines|
  {
    var j := Owner(lines, wanted, i);
    if j < |wanted| then Assignment(wanted[j]) else lines[i]
  }

  function Rewritten(lines: seq<string>, wanted: seq<Entry>): seq<string> {
    seq(|lines|, i requires 0 <= i < |lines| => Written(lines, wanted, i))
  }

  function Assignments(entries: seq<Entry>): seq<string> {
    if entries == [] then []
    else Assignments(entries[..|entries| - 1]) + [Assignment(entries[|entries| - 1])]
  }

  function Appended(above: seq<string>, missing: seq<Entry>): seq<string> {
    if missing == [] then []
    else
      (if above != [] && Strip(above[|above| - 1]) != "" then [""] else []) + [HEADER] + Assignments(missing)
  }

  /** Every wanted key's first assignment rewritten in place, the keys nobody assigns added at the end. */
  function Merged(lines: seq<string>, wanted: seq<Entry>): seq<string> {
    Rewritten(lines, wanted) + Appended(Rewritten(lines, wanted), Unmet(lines, wanted, |lines|))
  }

  // ---- one line assigns one key ----

  predicate EndsKey(c: char) {
    IsBlank(c) || c == '='
  }

  function KeyLength(s: string): (n: nat)
    ensures n <= |s|
  {
    if s == "" || EndsKey(s[0]) then 0 else 1 + KeyLength(s[1..])
  }

  lemma {:induction false} KeyLengthIs(key: string, rest: string)
    requires forall i :: 0 <= i < |key| ==> !EndsKey(key[i])
    requires rest != "" && EndsKey(rest[0])
    ensures KeyLength(key + rest) == |key|
  {
    if key == "" {
      assert key + rest == rest;
    } else {
      assert (key + rest)[1..] == key[1..] + rest;
      KeyLengthIs(key[1..], rest);
    }
  }

  lemma KeyOfLine(line: string, key: string)
    requires KeyOk(key) && Assigns(line, key)
    ensures key == StripLeft(line)[..KeyLength(StripLeft(line))]
  {
    var s := StripLeft(line);
    var rest := s[|key|..];
    assert s == key + rest;
    assert EndsKey(rest[0]) by {
      if |StripLeft(rest)| == |rest| {
        assert StripLeft(rest) == rest;
      }
    }
    KeyLengthIs(key, rest);
  }

  lemma AssignsOneKey(line: string, key: string, other: string)
    requires KeyOk(key) && KeyOk(other) && Assigns(line, key) && Assigns(line, other)
    ensures key == other
  {
    KeyOfLine(line, key);
    KeyOfLine(line, other);
  }

  lemma AfterKey(value: string)
    ensures StripLeft(" = " + value) == "= " + value
    ensures ("= " + value)[1..] == " " + value
  {
    var rest := " = " + value;
    assert rest[0] == ' ' && rest[1] == '=';
    assert SkipBlanks(rest, 0) == SkipBlanks(rest, 1) == 1;
    assert rest[1..] == "= " + value;
  }

  lemma SplitAt(a: string, b: string, c: string)
    ensures (a + b + c)[..|a|] == a && (a + b + c)[|a|..] == b + c
  {
  }

  lemma AssignmentAssigns(e: Entry)
    requires KeyOk(e.key)
    ensures Assigned(Assignment(e), e.key) == Some(" " + e.value)
  {
    var s := Assignment(e);
    assert StripLeft(s) == s by {
      assert s[0] == e.key[0];
      StripLeftKeeps(s);
    }
    SplitAt(e.key, " = ", e.value);
    AfterKey(e.value);
    assert s == e.key + " = " + e.value;
    hide StripLeft, SkipBlanks, KeyOk, Assignment;
  }

  lemma AssignmentAssignsOnly(e: Entry, key: string)
    requires KeyOk(e.key) && KeyOk(key)
    ensures Assigns(Assignment(e), key) <==> key == e.key
  {
    AssignmentAssigns(e);
    hide Assigned;
    if Assigns(Assignment(e), key) {
      AssignsOneKey(Assignment(e), key, e.key);
    }
  }

  lemma PlainLinesAssignNothing(key: string)
    requires KeyOk(key)
    ensures !Assigns(HEADER, key) && !Assigns("", key)
  {
    HeaderIsNoKey();
    EmptyAssignsNothing(key);
    hide KeyLength, StripLeft, KeyOk, Assigned;
    if Assigns(HEADER, key) {
      KeyOfLine(HEADER, key);
    }
  }

  lemma EmptyAssignsNothing(key: string)
    requires KeyOk(key)
    ensures !Assigns("", key)
  {
    StripLeftKeeps("");
  }

  lemma HeaderIsNoKey()
    ensures !KeyOk(StripLeft(HEADER)[..KeyLength(StripLeft(HEADER))])
  {
    assert HEADER[0] == '#' && HEADER[1] == ' ';
    StripLeftKeeps(HEADER);
    assert KeyLength(HEADER) == 1;
    assert HEADER[..1][0] == '#';
  }
}
