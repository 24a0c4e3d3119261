/** Versions of the licence document, their order, and the acceptance record. */
module Eula {
  import opened Options
  import opened Texts
  import opened Decimals

  // ---- from text to numbers ----

  function DotFrom(s: string, i: nat): (n: nat)
    requires i <= |s|
    ensures i <= n <= |s|
    ensures n < |s| ==> s[n] == '.'
    ensures forall k :: i <= k < n ==> s[k] != '.'
    decreases |s| - i
  {
    if i < |s| && s[i] != '.' then DotFrom(s, i + 1) else i
  }

  /** split(".") */
  function Chunks(s: string): (chunks: seq<string>)
    ensures chunks != []
    decreases |s|
  {
    var n := DotFrom(s, 0);
    if n == |s| then [s] else [s[..n]] + Chunks(s[n + 1..])
  }

  function DigitsEnd(s: string, i: nat): (n: nat)
    requires i <= |s|
    ensures i <= n <= |s|
    ensures n < |s| ==> !IsDigit(s[n])
    ensures forall k :: i <= k < n ==> IsDigit(s[k])
    decreases |s| - i
  {
    if i < |s| && IsDigit(s[i]) then DigitsEnd(s, i + 1) else i
  }

  /** A chunk counts by the digits it starts with; with none, as zero. */
  function Component(chunk: string): nat {
    var s := Strip(chunk);
    Read(s[..DigitsEnd(s, 0)])
  }

  function Components(chunks: seq<string>): (parts: seq<nat>)
    ensures |parts| == |chunks|
  {
    if chunks == [] then [] else Components(chunks[..|chunks| - 1]) + [Component(chunks[|chunks| - 1])]
  }

  function Version(text: string): seq<nat> {
    Components(Chunks(Strip(text)))
  }

  method LeadingDigits(chunk: string) returns (digits: string)
    ensures digits == chunk[..DigitsEnd(chunk, 0)]
  {
    digits := "";
    for j := 0 to |chunk|
      invariant digits == chunk[..j]
      invariant DigitsEnd(chunk, 0) == DigitsEnd(chunk, j)
    {
      if !IsDigit(chunk[j]) {
        break;
      }
      digits := digits + [chunk[j]];
    }
  }

  lemma NoComponents()
    ensures Components([]) == []
  {
  }

  lemma NextComponent(chunks: seq<string>, i: nat, digits: string)
    requires i < |chunks| && digits == Strip(chunks[i])[..DigitsEnd(Strip(chunks[i]), 0)]
    ensures AllDigits(digits)
    ensures Components(chunks[..i + 1]) == Components(chunks[..i]) + [if digits != "" then Read(digits) else 0]
  {
    hide Strip;
    assert chunks[..i + 1][..i] == chunks[..i];
  }

  /** eula_version_tuple */
  method EulaVersionTuple(version: string) returns (parts: seq<nat>)
    ensures parts == Version(version)
  {
    hide Chunks, Strip, Components, DigitsEnd, Read, AllDigits;
    var chunks := Chunks(Strip(version));
    parts := [];
    NoComponents();
    for i := 0 to |chunks|
      invariant parts == Components(chunks[..i])
    {
      var digits := LeadingDigits(Strip(chunks[i]));
      NextComponent(chunks, i, digits);
      parts := parts + [if digits != "" then Read(digits) else 0];
    }
    assert chunks[..|chunks|] == chunks;
  }

  // ---- the order ----

  function Zeros(n: nat): (z: seq<nat>)
    ensures |z| == n && forall i :: 0 <= i < n ==> z[i] == 0
  {
    seq(n, _ => 0)
  }

  function Max(a: nat, b: nat): nat {
    if a < b then b else a
  }

  /** Python's `>=` on two tuples of one length. */
  predicate NotBelow(a: seq<nat>, b: seq<nat>)
    requires |a| == |b|
  {
    a == [] || a[0] > b[0] || (a[0] == b[0] && NotBelow(a[1..], b[1..]))
  }

  /** eula_version_at_least, on numbers */
  predicate AtLeast(a: seq<nat>, b: seq<nat>) {
    var width := Max(|a|, |b|);
    NotBelow(a + Zeros(width - |a|), b + Zeros(width - |b|))
  }

  /** A component, with the zeros no version ends in. */
  function At(a: seq<nat>, i: nat): nat {
    if i < |a| then a[i] else 0
  }

  /** The first place where the two differ has the larger number in `a`. */
  ghost predicate Above(a: seq<nat>, b: seq<nat>, i: nat) {
    At(a, i) > At(b, i) && forall j :: 0 <= j < i ==> At(a, j) == At(b, j)
  }

  ghost predicate SameVersion(a: seq<nat>, b: seq<nat>) {
    forall i: nat :: At(a, i) == At(b, i)
  }

  lemma AboveShift(a: seq<nat>, b: seq<nat>, i: nat)
    requires a != [] && b != [] && a[0] == b[0]
    ensures Above(a, b, i + 1) <==> Above(a[1..], b[1..], i)
  {
    var c, d := a[1..], b[1..];
    assert forall j: nat :: At(c, j) == At(a, j + 1) && At(d, j) == At(b, j + 1);
    if Above(c, d, i) {
      forall j | 0 <= j < i + 1
        ensures At(a, j) == At(b, j)
      {
        if j > 0 {
          assert At(c, j - 1) == At(d, j - 1);
        }
      }
    }
    if Above(a, b, i + 1) {
      forall j | 0 <= j < i
        ensures At(c, j) == At(d, j)
      {
        assert At(a, j + 1) == At(b, j + 1);
      }
    }
  }

  lemma {:induction false} NotBelowMeans(a: seq<nat>, b: seq<nat>)
    requires |a| == |b|
    ensures NotBelow(a, b) <==> a == b || exists i: nat :: Above(a, b, i)
  {
    if a == [] {
    } else if a[0] != b[0] {
      if a[0] > b[0] {
        assert Above(a, b, 0);
      }
      assert At(a, 0) != At(b, 0);
    } else {
      NotBelowMeans(a[1..], b[1..]);
      assert a == [a[0]] + a[1..] && b == [b[0]] + b[1..];
      forall i: nat | Above(a[1..], b[1..], i)
        ensures Above(a, b, i + 1)
      {
        AboveShift(a, b, i);
      }
      forall i: nat | Above(a, b, i)
        ensures i > 0 && Above(a[1..], b[1..], i - 1)
      {
        assert i > 0;
        AboveShift(a, b, i - 1);
      }
    }
  }

  lemma PadsToTheSame(a: seq<nat>, n: nat)
    ensures forall i: nat :: At(a + Zeros(n), i) == At(a, i)
  {
  }

  /** At least: the same number in every place, or a larger one in the first place that differs,
      whatever the number of components. */
  lemma AtLeastMeans(a: seq<nat>, b: seq<nat>)
    ensures AtLeast(a, b) <==> SameVersion(a, b) || exists i: nat :: Above(a, b, i)
  {
    var w := Max(|a|, |b|);
    var c, d := a + Zeros(w - |a|), b + Zeros(w - |b|);
    PadsToTheSame(a, w - |a|);
    PadsToTheSame(b, w - |b|);
    NotBelowMeans(c, d);
    assert forall i: nat :: Above(a, b, i) <==> Above(c, d, i);
    assert c == d <==> SameVersion(a, b) by {
      if SameVersion(a, b) {
        forall i | 0 <= i < w
          ensures c[i] == d[i]
        {
          assert At(a, i) == At(b, i) && At(c, i) == At(a, i) && At(d, i) == At(b, i);
        }
      }
    }
  }

  // ---- a total preorder that ignores trailing zeros ----

  lemma Reflexive(a: seq<nat>)
    ensures AtLeast(a, a)
  {
    AtLeastMeans(a, a);
  }

  /** Looking for the first place that differs, from place `i` on. */
  lemma FirstDifference(a: seq<nat>, b: seq<nat>, i: nat)
    requires forall j :: 0 <= j < i ==> At(a, j) == At(b, j)
    ensures SameVersion(a, b) || exists k: nat :: Above(a, b, k) || Above(b, a, k)
    decreases Max(|a|, |b|) - i
  {
    if i >= Max(|a|, |b|) {
      assert SameVersion(a, b);
    } else if At(a, i) != At(b, i) {
      assert Above(a, b, i) || Above(b, a, i);
    } else {
      FirstDifference(a, b, i + 1);
    }
  }

  lemma Total(a: seq<nat>, b: seq<nat>)
    ensures AtLeast(a, b) || AtLeast(b, a)
  {
    FirstDifference(a, b, 0);
    AtLeastMeans(a, b);
    AtLeastMeans(b, a);
    hide AtLeast, Above;
  }

  lemma Transitive(a: seq<nat>, b: seq<nat>, c: seq<nat>)
    requires AtLeast(a, b) && AtLeast(b, c)
    ensures AtLeast(a, c)
  {
    AtLeastMeans(a, b);
    AtLeastMeans(b, c);
    AtLeastMeans(a, c);
    hide AtLeast, At;
    if SameVersion(a, b) {
      if i: nat :| Above(b, c, i) {
        assert Above(a, c, i);
      }
    } else {
      var i: nat :| Above(a, b, i);
      if SameVersion(b, c) {
        assert Above(a, c, i);
      } else {
        var k: nat :| Above(b, c, k);
        assert Above(a, c, if i < k then i else k);
      }
    }
  }

  lemma NotBothAbove(a: seq<nat>, b: seq<nat>, i: nat, k: nat)
    requires Above(a, b, i)
    ensures !Above(b, a, k) && !SameVersion(a, b)
  {
    hide At;
    assert At(a, i) != At(b, i);
  }

  /** Each at least the other: the same version, up to trailing zeros. */
  lemma BothWaysMeansSame(a: seq<nat>, b: seq<nat>)
    ensures AtLeast(a, b) && AtLeast(b, a) <==> SameVersion(a, b)
  {
    AtLeastMeans(a, b);
    AtLeastMeans(b, a);
    hide AtLeast, At;
    if i: nat :| Above(a, b, i) {
      forall k: nat {
        NotBothAbove(a, b, i, k);
      }
    }
  }

  lemma TrailingZerosDoNotCount(a: seq<nat>, b: seq<nat>, n: nat)
    ensures AtLeast(a + Zeros(n), b) == AtLeast(a, b)
    ensures AtLeast(b, a + Zeros(n)) == AtLeast(b, a)
  {
    PadsToTheSame(a, n);
    AtLeastMeans(a + Zeros(n), b);
    AtLeastMeans(a, b);
    AtLeastMeans(b, a + Zeros(n));
    AtLeastMeans(b, a);
    hide AtLeast, At;
    assert forall i: nat :: Above(a + Zeros(n), b, i) <==> Above(a, b, i);
    assert forall i: nat :: Above(b, a + Zeros(n), i) <==> Above(b, a, i);
  }

  // ---- versions as they are written ----

  function Dotted(parts: seq<nat>): (s: string)
    requires parts != []
    ensures s != "" && IsDigit(s[0]) && IsDigit(s[|s| - 1])
  {
    if |parts| == 1 then Show(parts[0]) else Show(parts[0]) + "." + Dotted(parts[1..])
  }

  lemma DotAfter(head: string, tail: string)
    requires AllDigits(head)
    ensures Chunks(head + "." + tail) == [head] + Chunks(tail)
  {
    var s := head + "." + tail;
    assert s[|head|] == '.';
    assert forall k :: 0 <= k < |head| ==> s[k] == head[k] != '.';
    assert DotFrom(s, 0) == |head|;
    assert s[..|head|] == head && s[|head| + 1..] == tail;
  }

  lemma NoDot(s: string)
    requires AllDigits(s)
    ensures Chunks(s) == [s]
  {
    assert DotFrom(s, 0) == |s|;
  }

  lemma {:induction false} ChunksOfDotted(parts: seq<nat>)
    requires parts != []
    ensures |Chunks(Dotted(parts))| == |parts|
    ensures forall i :: 0 <= i < |parts| ==> Chunks(Dotted(parts))[i] == Show(parts[i])
  {
    hide Chunks;
    if |parts| == 1 {
      NoDot(Show(parts[0]));
    } else {
      ChunksOfDotted(parts[1..]);
      DotAfter(Show(parts[0]), Dotted(parts[1..]));
    }
  }

  lemma ComponentOfNumber(n: nat)
    ensures Component(Show(n)) == n
  {
    var s := Show(n);
    StripKeeps(s);
    assert DigitsEnd(s, 0) == |s|;
    assert s[..|s|] == s;
    ReadShow(n);
  }

  /** What follows a chunk's number does not count: "2-beta" is 2. */
  lemma SuffixDoesNotCount(n: nat, suffix: string)
    requires suffix != "" && !IsDigit(suffix[0]) && !IsBlank(suffix[|suffix| - 1])
    ensures Component(Show(n) + suffix) == n
  {
    var s := Show(n) + suffix;
    StripKeeps(s);
    assert forall k :: 0 <= k < |Show(n)| ==> s[k] == Show(n)[k];
    assert s[|Show(n)|] == suffix[0];
    assert DigitsEnd(s, 0) == |Show(n)|;
    assert s[..|Show(n)|] == Show(n);
    ReadShow(n);
  }

  /** A chunk that does not begin with a digit is zero. */
  lemma NoNumberIsZero(chunk: string)
    requires Strip(chunk) != "" ==> !IsDigit(Strip(chunk)[0])
    ensures Component(chunk) == 0
  {
    assert DigitsEnd(Strip(chunk), 0) == 0;
  }

  lemma ComponentsAre(chunks: seq<string>, parts: seq<nat>)
    requires |chunks| == |parts| && forall i :: 0 <= i < |parts| ==> Component(chunks[i]) == parts[i]
    ensures Components(chunks) == parts
  {
    hide Component;
    if chunks != [] {
      var n := |chunks| - 1;
      ComponentsAre(chunks[..n], parts[..n]);
      assert parts == parts[..n] + [parts[n]];
    }
  }

  /** A version written out is read back as the same numbers: "1.10" is (1, 10), above "1.9". */
  lemma VersionRoundTrip(parts: seq<nat>)
    requires parts != []
    ensures Version(Dotted(parts)) == parts
  {
    var s := Dotted(parts);
    StripKeeps(s);
    ChunksOfDotted(parts);
    forall i | 0 <= i < |parts|
      ensures Component(Chunks(s)[i]) == parts[i]
    {
      ComponentOfNumber(parts[i]);
    }
    ComponentsAre(Chunks(s), parts);
  }

  /** Stripping twice is stripping once. */
  lemma StripTwice(s: string)
    ensures Strip(Strip(s)) == Strip(s)
  {
    StripKeeps(Strip(s));
  }

  // ---- the acceptance record ----

  class AcceptanceFile {
    /** The version in the record; None when there is no readable record. */
    var version: Option<string>

    /** record_eula_acceptance */
    method Record(accepted: string)
      modifies this
      ensures version == Some(accepted)
      ensures forall want :: Accepted(want) <==>
              want != "" && Strip(accepted) != "" && AtLeast(Version(accepted), Version(want))
    {
      version := Some(accepted);
      StripTwice(accepted);
    }

    /** eula_accepted; `want` is the bundled document's version unless the caller names one. */
    predicate Accepted(want: string)
      reads this
    {
      if want == "" || version.None? then false
      else
        var have := Strip(version.value);
        have != "" && AtLeast(Version(have), Version(want))
    }

    /** Nothing is accepted without a record, without a version in it, or of a document that was not found. */
    lemma NothingIsAccepted(want: string)
      requires want == "" || version == None || Strip(version.value) == ""
      ensures !Accepted(want)
    {
    }

    /** Accepting a document accepts every older one: nobody is asked again for less. */
    lemma OlderIsAccepted(newer: string, older: string)
      requires Accepted(newer) && older != "" && AtLeast(Version(newer), Version(older))
      ensures Accepted(older)
    {
      Transitive(Version(Strip(version.value)), Version(newer), Version(older));
    }
  }

  /** What a recorded version accepts, in numbers: exactly the versions that are not above it. */
  lemma AcceptedUpTo(file: AcceptanceFile, parts: seq<nat>, want: seq<nat>)
    requires parts != [] && want != [] && file.version == Some(Dotted(parts))
    ensures file.Accepted(Dotted(want)) <==> SameVersion(parts, want) || exists i: nat :: Above(parts, want, i)
  {
    StripKeeps(Dotted(parts));
    VersionRoundTrip(parts);
    VersionRoundTrip(want);
    AtLeastMeans(parts, want);
    hide AtLeast, Version;
  }
}
