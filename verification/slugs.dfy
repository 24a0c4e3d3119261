/** Project slugs and the unix groups named after them. */
module Slugs {
  import opened Options
  import opened Texts

  predicate IsAlnum(c: char) {
    'a' <= c <= 'z' || '0' <= c <= '9'
  }

  predicate IsSlugChar(c: char) {
    IsAlnum(c) || c == '-'
  }

  predicate SlugChars(s: string) {
    forall i :: 0 <= i < |s| ==> IsSlugChar(s[i])
  }

  /** validate_slug: None is its ValueError. */
  function ValidateSlug(slug: string): Option<string> {
    var s := Strip(slug);
    if s != "" && SlugChars(s) then Some(s) else None
  }

  // ---- slugify ----

  function RunEnd(s: string, i: nat): (n: nat)
    requires i <= |s|
    ensures i <= n <= |s|
    ensures n < |s| ==> !IsAlnum(s[n])
    ensures forall k :: i <= k < n ==> IsAlnum(s[k])
    decreases |s| - i
  {
    if i < |s| && IsAlnum(s[i]) then RunEnd(s, i + 1) else i
  }

  /** The runs of a-z and 0-9, in order; what lies between them is dropped. */
  function Parts(s: string): seq<string>
    decreases |s|
  {
    if s == "" then []
    else if IsAlnum(s[0]) then
      var n := RunEnd(s, 1);
      [s[..n]] + Parts(s[n..])
    else Parts(s[1..])
  }

  function Join(parts: seq<string>): string {
    if parts == [] then "" else if |parts| == 1 then parts[0] else parts[0] + "-" + Join(parts[1..])
  }

  function Slashed(text: string): string {
    seq(|text|, i requires 0 <= i < |text| => if text[i] == '\\' then '/' else text[i])
  }

  /** slugify, for any notion of lower case. None is its ValueError. */
  function Slugify(text: string, lower: string -> string): Option<string> {
    var slug := Join(Parts(lower(Strip(Slashed(text)))));
    if slug == "" then None else Some(slug)
  }

  /** A path spelled with either slash, or with both, has one slug. */
  lemma EitherSlash(text: string, other: string, lower: string -> string)
    requires |text| == |other|
    requires forall i :: 0 <= i < |text| ==>
               text[i] == other[i] || (text[i] in {'/', '\\'} && other[i] in {'/', '\\'})
    ensures Slugify(text, lower) == Slugify(other, lower)
  {
    assert Slashed(text) == Slashed(other);
    hide Slashed, Join, Parts, Strip;
  }

  /** Lower-casing leaves slug characters as they are. */
  ghost predicate KeepsSlugs(lower: string -> string) {
    forall s :: SlugChars(s) ==> lower(s) == s
  }

  /** Words of a-z and 0-9 with single dashes between them. */
  predicate Tidy(s: string) {
    && s != "" && SlugChars(s)
    && s[0] != '-' && s[|s| - 1] != '-'
    && forall i :: 0 <= i < |s| - 1 ==> s[i] != '-' || s[i + 1] != '-'
  }

  predicate Words(parts: seq<string>) {
    forall i :: 0 <= i < |parts| ==> parts[i] != "" && forall k :: 0 <= k < |parts[i]| ==> IsAlnum(parts[i][k])
  }

  lemma PartsAreWords(s: string)
    ensures Words(Parts(s))
    decreases |s|
  {
    if s != "" {
      if IsAlnum(s[0]) {
        PartsAreWords(s[RunEnd(s, 1)..]);
      } else {
        PartsAreWords(s[1..]);
      }
    }
  }

  lemma NoParts(s: string)
    ensures Parts(s) == [] <==> forall i :: 0 <= i < |s| ==> !IsAlnum(s[i])
    decreases |s|
  {
    if s != "" && !IsAlnum(s[0]) {
      NoParts(s[1..]);
      assert forall i :: 0 < i < |s| ==> s[i] == s[1..][i - 1];
    }
  }

  lemma {:induction false} JoinIsTidy(parts: seq<string>)
    requires Words(parts) && parts != []
    ensures Tidy(Join(parts))
  {
    if |parts| > 1 {
      assert Words(parts[1..]);
      JoinIsTidy(parts[1..]);
      TidyDash(parts[0], Join(parts[1..]));
    }
  }

  lemma TidyDash(word: string, rest: string)
    requires word != "" && (forall k :: 0 <= k < |word| ==> IsAlnum(word[k])) && Tidy(rest)
    ensures Tidy(word + "-" + rest)
  {
    var s := word + "-" + rest;
    assert forall i :: |word| < i < |s| ==> s[i] == rest[i - |word| - 1];
    forall i | 0 <= i < |s| - 1
      ensures s[i] != '-' || s[i + 1] != '-'
    {
      if i > |word| {
        assert s[i] == rest[i - |word| - 1] && s[i + 1] == rest[i - |word|];
      }
    }
  }

  /** A tidy slug falls apart into its words and is put together again. */
  lemma {:induction false} TidyIsJoined(s: string)
    requires Tidy(s)
    ensures Join(Parts(s)) == s
    decreases |s|
  {
    var n := RunEnd(s, 1);
    var rest := s[n..];
    if n == |s| {
      assert s[..n] == s && Parts(rest) == [];
    } else {
      assert s[n] == '-';
      var tail := s[n + 1..];
      assert rest[1..] == tail && Parts(rest) == Parts(tail);
      assert Tidy(tail) by {
        assert tail[0] == s[n + 1] && tail[|tail| - 1] == s[|s| - 1];
        assert forall i :: 0 <= i < |tail| ==> tail[i] == s[n + 1 + i];
      }
      TidyIsJoined(tail);
      assert s == s[..n] + "-" + tail;
    }
  }

  /** Whatever slugify returns passes validate_slug and is tidy: no leading, trailing or doubled dash. */
  lemma SlugifyIsValid(text: string, lower: string -> string)
    ensures var slug := Slugify(text, lower);
            slug.Some? ==> Tidy(slug.value) && ValidateSlug(slug.value) == slug
  {
    var parts := Parts(lower(Strip(Slashed(text))));
    PartsAreWords(lower(Strip(Slashed(text))));
    if parts != [] {
      JoinIsTidy(parts);
      StripKeeps(Join(parts));
    }
  }

  /** slugify fails exactly on text without a letter or digit it could keep. */
  lemma SlugifyFailsExactlyWhenNothingIsKept(text: string, lower: string -> string)
    ensures Slugify(text, lower).None? <==>
            var s := lower(Strip(Slashed(text))); forall i :: 0 <= i < |s| ==> !IsAlnum(s[i])
  {
    var s := lower(Strip(Slashed(text)));
    PartsAreWords(s);
    NoParts(s);
    if Parts(s) != [] {
      JoinIsTidy(Parts(s));
    }
  }

  /** The fixed points of slugify are exactly the tidy slugs, and so is everything it returns. */
  lemma SlugifyFixedPoints(s: string, lower: string -> string)
    requires KeepsSlugs(lower)
    ensures Slugify(s, lower) == Some(s) <==> Tidy(s)
  {
    SlugifyIsValid(s, lower);
    if Tidy(s) {
      assert Slashed(s) == s;
      StripKeeps(s);
      TidyIsJoined(s);
    }
  }

  lemma SlugifyTwice(text: string, lower: string -> string)
    requires KeepsSlugs(lower) && Slugify(text, lower).Some?
    ensures Slugify(Slugify(text, lower).value, lower) == Slugify(text, lower)
  {
    SlugifyIsValid(text, lower);
    SlugifyFixedPoints(Slugify(text, lower).value, lower);
  }

  /** The letters and digits of a text, in order. */
  function Letters(s: string): string {
    if s == "" then "" else (if IsAlnum(s[0]) then [s[0]] else "") + Letters(s[1..])
  }

  lemma {:induction false} LettersConcat(a: string, b: string)
    ensures Letters(a + b) == Letters(a) + Letters(b)
  {
    hide IsAlnum;
    if a == "" {
      assert a + b == b;
    } else {
      assert (a + b)[0] == a[0] && (a + b)[1..] == a[1..] + b;
      LettersConcat(a[1..], b);
      var first := if IsAlnum(a[0]) then [a[0]] else "";
      assert first + (Letters(a[1..]) + Letters(b)) == first + Letters(a[1..]) + Letters(b);
    }
  }

  lemma {:induction false} LettersOfParts(s: string)
    ensures Letters(Join(Parts(s))) == Letters(s)
    decreases |s|
  {
    if s == "" {
    } else if IsAlnum(s[0]) {
      var w, rest := s[..RunEnd(s, 1)], s[RunEnd(s, 1)..];
      LettersOfParts(rest);
      assert s == w + rest;
      LettersConcat(w, rest);
      if Parts(rest) != [] {
        assert Letters("-") == "";
        LettersConcat(w, "-");
        LettersConcat(w + "-", Join(Parts(rest)));
        assert Letters(w) + "" == Letters(w);
      }
    } else {
      LettersOfParts(s[1..]);
    }
  }

  /** Nothing but the separators is lost: the slug has the text's letters and digits, in their order. */
  lemma SlugifyKeepsEveryLetter(text: string, lower: string -> string)
    ensures var slug := Slugify(text, lower);
            slug.Some? ==> Letters(slug.value) == Letters(lower(Strip(Slashed(text))))
  {
    LettersOfParts(lower(Strip(Slashed(text))));
  }

  // ---- group names ----

  const GROUP_PREFIX := "proj-"
  const GROUP_MAXLEN := 32

  /** The first six hex digits of a hash of the slug; nothing else is known of it. */
  ghost predicate IsDigest(digest: string -> string) {
    forall s :: |digest(s)| == 6 && SlugChars(digest(s)) && digest(s)[0] != '-' && digest(s)[5] != '-'
  }

  function DropDashes(s: string): (r: string)
    ensures |r| <= |s| && r == s[..|r|]
    ensures r != "" ==> r[|r| - 1] != '-'
    ensures forall i :: |r| <= i < |s| ==> s[i] == '-'
  {
    if s != "" && s[|s| - 1] == '-' then DropDashes(s[..|s| - 1]) else s
  }

  function Head(slug: string): string {
    var name := GROUP_PREFIX + slug;
    DropDashes(name[..if |name| < GROUP_MAXLEN - 7 then |name| else GROUP_MAXLEN - 7])
  }

  /** project_group_name; None is the ValueError of validate_slug. */
  function GroupName(slug: string, digest: string -> string): Option<string> {
    var valid := ValidateSlug(slug);
    if valid.None? then None
    else
      var name := GROUP_PREFIX + valid.value;
      if |name| <= GROUP_MAXLEN then Some(name) else Some(Head(valid.value) + "-" + digest(valid.value))
  }

  lemma HeadBegins(slug: string)
    ensures |Head(slug)| >= 4 && Head(slug)[..4] == "proj"
    ensures |Head(slug)| <= GROUP_MAXLEN - 7
    ensures |Head(slug)| > 4 ==> Head(slug)[4] == '-'
  {
    var name := GROUP_PREFIX + slug;
    assert name[3] == 'j' && name[..4] == "proj" && name[4] == '-';
  }

  /** Every valid slug has a group: `proj-` first, 32 characters at most, slug characters only. */
  lemma GroupNameFits(slug: string, digest: string -> string)
    requires IsDigest(digest)
    ensures GroupName(slug, digest).Some? <==> ValidateSlug(slug).Some?
    ensures var name := GroupName(slug, digest);
            name.Some? ==>
                |name.value| <= GROUP_MAXLEN && |name.value| > 5 && name.value[..5] == GROUP_PREFIX
                && SlugChars(name.value)
  {
    var valid := ValidateSlug(slug);
    if valid.Some? {
      var name := GROUP_PREFIX + valid.value;
      assert SlugChars(GROUP_PREFIX);
      if |name| > GROUP_MAXLEN {
        HeadBegins(valid.value);
        var g := Head(valid.value) + "-" + digest(valid.value);
        assert g[..4] == "proj" && g[4] == '-';
        assert g[..5] == g[..4] + [g[4]];
      }
    }
  }

  /** The valid slugs, character by character; white space around one is dropped first. */
  lemma ValidSlugs(slug: string)
    requires slug != "" ==> !IsBlank(slug[0]) && !IsBlank(slug[|slug| - 1])
    ensures ValidateSlug(slug) == Some(slug) <==>
            slug != "" && forall i :: 0 <= i < |slug| ==>
                'a' <= slug[i] <= 'z' || '0' <= slug[i] <= '9' || slug[i] == '-'
    ensures ValidateSlug(slug) == Some(slug) || ValidateSlug(slug) == None
  {
    StripKeeps(slug);
  }

  /** The name, outright: `proj-` and the slug while that fits; beyond, as much of it as leaves room, without
      the dashes that stretch ends in, then a dash and the digest. */
  lemma GroupNameIs(slug: string, digest: string -> string, n: nat)
    requires ValidateSlug(slug) == Some(slug) && 0 < n <= 5 + |slug|
    ensures |slug| <= 27 ==> GroupName(slug, digest) == Some("proj-" + slug)
    ensures |slug| > 27 && n <= 25 && ("proj-" + slug)[n - 1] != '-'
            && (forall i :: n <= i < 25 ==> ("proj-" + slug)[i] == '-') ==>
              GroupName(slug, digest) == Some(("proj-" + slug)[..n] + "-" + digest(slug))
  {
    var name := "proj-" + slug;
    if |slug| > 27 && n <= 25 && name[n - 1] != '-' && forall i :: n <= i < 25 ==> name[i] == '-' {
      DropsTo(name[..25], n);
      assert name[..25][..n] == name[..n];
    }
  }

  lemma DropsTo(s: string, n: nat)
    requires 0 < n <= |s| && s[n - 1] != '-' && forall i :: n <= i < |s| ==> s[i] == '-'
    ensures DropDashes(s) == s[..n]
  {
    assert |DropDashes(s)| == n;
  }

  /** Slugs of at most 27 characters never share a group. */
  lemma ShortNamesAreInjective(a: string, b: string, digest: string -> string)
    requires ValidateSlug(a).Some? && ValidateSlug(b).Some?
    requires |ValidateSlug(a).value| <= 27 && |ValidateSlug(b).value| <= 27
    requires GroupName(a, digest) == GroupName(b, digest)
    ensures ValidateSlug(a) == ValidateSlug(b)
  {
    var x, y := ValidateSlug(a).value, ValidateSlug(b).value;
    assert x == (GROUP_PREFIX + x)[5..] && y == (GROUP_PREFIX + y)[5..];
  }

  /** Longer ones share a group exactly when they share the readable head and the digest. */
  lemma LongNamesMeet(a: string, b: string, digest: string -> string)
    requires IsDigest(digest) && ValidateSlug(a).Some? && ValidateSlug(b).Some?
    requires |ValidateSlug(a).value| > 27 && |ValidateSlug(b).value| > 27
    ensures var x, y := ValidateSlug(a).value, ValidateSlug(b).value;
            GroupName(a, digest) == GroupName(b, digest) <==> Head(x) == Head(y) && digest(x) == digest(y)
  {
    var x, y := ValidateSlug(a).value, ValidateSlug(b).value;
    var g, h := Head(x) + "-" + digest(x), Head(y) + "-" + digest(y);
    assert g[|g| - 6..] == digest(x) && g[..|g| - 7] == Head(x);
    assert h[|h| - 6..] == digest(y) && h[..|h| - 7] == Head(y);
  }

  /** A long slug's group is also the group of one short slug: the name without its prefix. So the name
      tells slugs apart only within the short ones. */
  lemma LongNameIsAShortOne(slug: string, digest: string -> string)
    requires IsDigest(digest) && ValidateSlug(slug).Some? && |ValidateSlug(slug).value| > 27
    ensures var other := GroupName(slug, digest).value[5..];
            |other| <= 27 && GroupName(other, digest) == GroupName(slug, digest)
  {
    GroupNameFits(slug, digest);
    HeadBegins(ValidateSlug(slug).value);
    var name := GroupName(slug, digest).value;
    assert name[|name| - 1] == digest(ValidateSlug(slug).value)[5];
    NameWithoutPrefix(name, digest);
    hide Strip, Head;
  }

  lemma NameWithoutPrefix(name: string, digest: string -> string)
    requires 5 < |name| <= GROUP_MAXLEN && name[..5] == GROUP_PREFIX && SlugChars(name)
    ensures GroupName(name[5..], digest) == Some(name)
  {
    var other := name[5..];
    assert forall i :: 0 <= i < |other| ==> other[i] == name[i + 5];
    StripKeeps(other);
    assert GROUP_PREFIX + other == name;
  }
}
