/**
  The meaning of the plugin's version comparator: a version string such as
  `v2.5.2-2` is reduced to its list of numeric components (`[2, 5, 2]`), and
  one version is greater than another when, after padding the shorter list
  with zeros, it is greater in the left-to-right (lexicographic) order.
  The lemmas show that this is a strict order that ignores the build suffix,
  any number of leading `v`s and trailing zero components.
*/
module Version {
  import opened Wrappers
  import opened Builtins

  /** The part of a version string that takes part in the ordering: `s.lstrip('v').split('-')[0]`. */
  function Core(s: string): (r: string)
    ensures '-' !in r
  {
    Split(LStrip(s, 'v'), '-')[0]
  }

  /** `[int(x) for x in pieces]`: every piece must be a non-empty run of digits. */
  function ParseParts(pieces: seq<string>): (r: Option<seq<nat>>)
    ensures r.Some? <==> forall i :: 0 <= i < |pieces| ==> ParseDigits(pieces[i]).Some?
    ensures r.Some? ==> |r.value| == |pieces|
    ensures r.Some? ==> forall i :: 0 <= i < |pieces| ==> r.value[i] == ParseDigits(pieces[i]).value
  {
    if pieces == [] then Some([])
    else
      match (ParseDigits(pieces[0]), ParseParts(pieces[1..]))
      case (Some(n), Some(rest)) => Some([n] + rest)
      case _ => None
  }

  /** The component list of a version string, or `None` where Python's `int` raises ValueError. */
  function Parse(s: string): (r: Option<seq<nat>>)
    ensures r.Some? ==> |r.value| == |Split(Core(s), '.')| >= 1
  {
    ParseParts(Split(Core(s), '.'))
  }

  function Max(a: nat, b: nat): nat {
    if a >= b then a else b
  }

  function Zeros(k: nat): seq<nat> {
    seq(k, _ => 0)
  }

  /** `parts.extend([0] * (n - len(parts)))`. */
  function Pad(x: seq<nat>, n: nat): (r: seq<nat>)
    requires |x| <= n
    ensures |r| == n
  {
    x + Zeros(n - |x|)
  }

  /** The left-to-right loop over two lists of equal length: true iff the first is strictly greater. */
  function LexGreater(a: seq<nat>, b: seq<nat>): (r: bool)
    requires |a| == |b|
    ensures r ==> |a| > 0 && a[0] >= b[0]
  {
    if a == [] then false
    else if a[0] > b[0] then true
    else if a[0] < b[0] then false
    else LexGreater(a[1..], b[1..])
  }

  /** `x` is greater than `y` once both are padded with zeros to the longer length. */
  function PartsGreater(x: seq<nat>, y: seq<nat>): (r: bool)
    ensures r ==> !SameParts(x, y)
  {
    var m := Max(|x|, |y|);
    LexIrreflexive(Pad(x, m));
    LexGreater(Pad(x, m), Pad(y, m))
  }

  /** `x` and `y` are equal once both are padded with zeros to the longer length. */
  predicate SameParts(x: seq<nat>, y: seq<nat>) {
    var m := Max(|x|, |y|);
    Pad(x, m) == Pad(y, m)
  }

  /**
    What `is_version_greater_than(current, target)` computes: `None` when
    either string fails to parse, otherwise whether `current` is strictly
    greater than `target`.
  */
  function VersionGreater(current: string, target: string): (r: Option<bool>)
    ensures r.None? <==> Parse(current).None? || Parse(target).None?
    ensures r.Some? ==> r.value == PartsGreater(Parse(current).value, Parse(target).value)
  {
    match (Parse(current), Parse(target))
    case (Some(x), Some(y)) => Some(PartsGreater(x, y))
    case _ => None
  }

  /** Two version strings that both parse and denote the same padded component list. */
  predicate SameVersion(a: string, b: string) {
    Parse(a).Some? && Parse(b).Some? && SameParts(Parse(a).value, Parse(b).value)
  }

  /** Index `k` is the first place where `a` and `b` differ. */
  predicate FirstDiff(a: seq<nat>, b: seq<nat>, k: int) {
    |a| == |b| && 0 <= k < |a| && (forall j :: 0 <= j < k ==> a[j] == b[j]) && a[k] != b[k]
  }

  // ---------------------------------------------------------------------
  // The lexicographic order on equally long lists
  // ---------------------------------------------------------------------

  /** The result is decided by the first index at which the lists differ. */
  lemma {:induction false} LexFirstDifference(a: seq<nat>, b: seq<nat>)
    requires |a| == |b|
    ensures LexGreater(a, b) <==> exists k :: FirstDiff(a, b, k) && a[k] > b[k]
  {
    if a == [] {
    } else if a[0] > b[0] {
      assert FirstDiff(a, b, 0);
    } else if a[0] < b[0] {
    } else {
      LexFirstDifference(a[1..], b[1..]);
      if LexGreater(a, b) {
        var k :| FirstDiff(a[1..], b[1..], k) && a[1..][k] > b[1..][k];
        assert FirstDiff(a, b, k + 1);
      }
      forall k | FirstDiff(a, b, k) && a[k] > b[k]
        ensures FirstDiff(a[1..], b[1..], k - 1) && a[1..][k - 1] > b[1..][k - 1]
      {
        assert k != 0;
      }
    }
  }

  lemma {:induction false} LexIrreflexive(a: seq<nat>)
    ensures !LexGreater(a, a)
  {
    if a != [] {
      LexIrreflexive(a[1..]);
    }
  }

  lemma {:induction false} LexAsymmetric(a: seq<nat>, b: seq<nat>)
    requires |a| == |b|
    ensures !(LexGreater(a, b) && LexGreater(b, a))
  {
    if a != [] && a[0] == b[0] {
      LexAsymmetric(a[1..], b[1..]);
    }
  }

  lemma {:induction false} LexTotal(a: seq<nat>, b: seq<nat>)
    requires |a| == |b| && a != b
    ensures LexGreater(a, b) || LexGreater(b, a)
  {
    if a[0] == b[0] {
      assert a == [a[0]] + a[1..] && b == [b[0]] + b[1..];
      LexTotal(a[1..], b[1..]);
    }
  }

  lemma {:induction false} LexTransitive(a: seq<nat>, b: seq<nat>, c: seq<nat>)
    requires |a| == |b| == |c|
    requires LexGreater(a, b) && LexGreater(b, c)
    ensures LexGreater(a, c)
  {
    if a[0] == b[0] && b[0] == c[0] {
      LexTransitive(a[1..], b[1..], c[1..]);
    }
  }

  /** Appending the same number of zeros to both lists does not change the comparison. */
  lemma {:induction false} LexZeroTail(a: seq<nat>, b: seq<nat>, k: nat)
    requires |a| == |b|
    ensures LexGreater(a + Zeros(k), b + Zeros(k)) == LexGreater(a, b)
  {
    if a == [] {
      assert a + Zeros(k) == Zeros(k) && b + Zeros(k) == Zeros(k);
      LexIrreflexive(Zeros(k));
    } else {
      assert (a + Zeros(k))[1..] == a[1..] + Zeros(k);
      assert (b + Zeros(k))[1..] == b[1..] + Zeros(k);
      LexZeroTail(a[1..], b[1..], k);
    }
  }

  /** Padding to any common width at least the longer length gives the same answers. */
  lemma PartsAtWidth(x: seq<nat>, y: seq<nat>, n: nat)
    requires Max(|x|, |y|) <= n
    ensures PartsGreater(x, y) == LexGreater(Pad(x, n), Pad(y, n))
    ensures SameParts(x, y) <==> Pad(x, n) == Pad(y, n)
  {
    var m := Max(|x|, |y|);
    assert Pad(x, n) == Pad(x, m) + Zeros(n - m);
    assert Pad(y, n) == Pad(y, m) + Zeros(n - m);
    LexZeroTail(Pad(x, m), Pad(y, m), n - m);
    if Pad(x, n) == Pad(y, n) {
      assert Pad(x, m) == Pad(x, n)[..m] == Pad(y, n)[..m] == Pad(y, m);
    }
  }

  // ---------------------------------------------------------------------
  // The comparator is a strict order on version strings
  // ---------------------------------------------------------------------

  /** A version is never greater than itself; it compares as "not greater" once it parses. */
  lemma VersionIrreflexive(s: string)
    ensures VersionGreater(s, s) != Some(true)
    ensures Parse(s).Some? ==> VersionGreater(s, s) == Some(false)
  {
    if Parse(s).Some? {
      var x := Parse(s).value;
      LexIrreflexive(Pad(x, |x|));
    }
  }

  /** Never both `a > b` and `b > a`. */
  lemma VersionAsymmetric(a: string, b: string)
    ensures !(VersionGreater(a, b) == Some(true) && VersionGreater(b, a) == Some(true))
  {
    if Parse(a).Some? && Parse(b).Some? {
      var x, y := Parse(a).value, Parse(b).value;
      var m := Max(|x|, |y|);
      LexAsymmetric(Pad(x, m), Pad(y, m));
    }
  }

  /**
    For two versions that parse, exactly one holds: `a > b`, `b > a`, or the
    padded component lists are equal.
  */
  lemma VersionTrichotomy(a: string, b: string)
    requires Parse(a).Some? && Parse(b).Some?
    ensures SameVersion(a, b) <==> VersionGreater(a, b) == Some(false) && VersionGreater(b, a) == Some(false)
    ensures !SameVersion(a, b) <==> (VersionGreater(a, b) == Some(true)) != (VersionGreater(b, a) == Some(true))
  {
    var x, y := Parse(a).value, Parse(b).value;
    var m := Max(|x|, |y|);
    LexAsymmetric(Pad(x, m), Pad(y, m));
    if Pad(x, m) == Pad(y, m) {
      LexIrreflexive(Pad(x, m));
    } else {
      LexTotal(Pad(x, m), Pad(y, m));
    }
  }

  /** `a > b` and `b > c` give `a > c`, whatever the lengths of the three component lists. */
  lemma VersionTransitive(a: string, b: string, c: string)
    requires VersionGreater(a, b) == Some(true) && VersionGreater(b, c) == Some(true)
    ensures VersionGreater(a, c) == Some(true)
  {
    var x, y, z := Parse(a).value, Parse(b).value, Parse(c).value;
    var n := Max(Max(|x|, |y|), |z|);
    PartsAtWidth(x, y, n);
    PartsAtWidth(y, z, n);
    PartsAtWidth(x, z, n);
    LexTransitive(Pad(x, n), Pad(y, n), Pad(z, n));
  }

  // ---------------------------------------------------------------------
  // What the comparison ignores
  // ---------------------------------------------------------------------

  /** Everything from the first `-` on is thrown away. */
  lemma CoreBuildSuffix(s: string, build: string)
    ensures Core(s + "-" + build) == Core(s)
  {
    assert s + "-" + build == s + ("-" + build);
    LStripAppend(s, "-" + build, 'v');
    var l := LStrip(s, 'v');
    assert l + ("-" + build) == l + ['-'] + build;
    SplitConcat(l, build, '-');
  }

  /** Any number of leading `v`s is thrown away. */
  lemma CoreLeadingV(k: nat, s: string)
    ensures Core(seq(k, _ => 'v') + s) == Core(s)
  {
    LStripRepeated(k, s, 'v');
  }

  /** A build suffix on either side never changes the result: `v2.5.1-2` compares like `v2.5.1`. */
  lemma BuildSuffixIgnored(s: string, build: string, t: string)
    ensures VersionGreater(s + "-" + build, t) == VersionGreater(s, t)
    ensures VersionGreater(t, s + "-" + build) == VersionGreater(t, s)
  {
    CoreBuildSuffix(s, build);
  }

  /** Leading `v`s on either side never change the result: `v2.5.1` compares like `2.5.1`. */
  lemma LeadingVIgnored(k: nat, s: string, t: string)
    ensures VersionGreater(seq(k, _ => 'v') + s, t) == VersionGreater(s, t)
    ensures VersionGreater(t, seq(k, _ => 'v') + s) == VersionGreater(t, s)
  {
    CoreLeadingV(k, s);
  }

  /** A zero component at the end pads to the same list: `2.5` compares like `2.5.0`. */
  lemma PartsTrailingZero(x: seq<nat>, y: seq<nat>)
    ensures PartsGreater(x + [0], y) == PartsGreater(x, y)
    ensures PartsGreater(y, x + [0]) == PartsGreater(y, x)
    ensures SameParts(x + [0], y) <==> SameParts(x, y)
  {
    var n := Max(|x| + 1, |y|);
    assert Pad(x + [0], n) == Pad(x, n);
    PartsAtWidth(x, y, n);
    PartsAtWidth(y, x, n);
    PartsAtWidth(x + [0], y, n);
    PartsAtWidth(y, x + [0], n);
  }

  /** Without a build suffix, only the leading `v`s are removed. */
  lemma CoreWithoutSuffix(s: string)
    requires '-' !in s
    ensures Core(s) == LStrip(s, 'v')
  {
    var l := LStrip(s, 'v');
    assert '-' !in l by {
      forall i | 0 <= i < |l| ensures l[i] != '-' {
        assert l[i] == s[|s| - |l| + i];
      }
    }
    SplitNoSep(l, '-');
  }

  /** `[int(x) for x in pieces + ['0']]` extends the list by a zero. */
  lemma ParsePartsAppendZero(pieces: seq<string>)
    requires ParseParts(pieces).Some?
    ensures ParseParts(pieces + ["0"]) == Some(ParseParts(pieces).value + [0])
  {
    assert ParseDigits("0") == Some(0);
    var p := pieces + ["0"];
    assert p[|pieces|] == "0";
    forall i | 0 <= i < |p| ensures ParseDigits(p[i]).Some? {
      if i < |pieces| { assert p[i] == pieces[i]; }
    }
    var x := ParseParts(pieces).value;
    var r := ParseParts(p).value;
    forall i | 0 <= i < |p| ensures r[i] == (x + [0])[i] {
      if i < |pieces| { assert p[i] == pieces[i]; }
    }
    assert r == x + [0];
  }

  /** Without a build suffix, the core of `s + ".0"` is the core of `s` followed by `.0`. */
  lemma CoreAppendZero(s: string)
    requires '-' !in s
    ensures Core(s + ".0") == LStrip(s, 'v') + ".0"
  {
    var z := ".0";
    assert z[0] != '-' && z[1] != '-';
    assert forall i :: 0 <= i < |s + z| ==> (s + z)[i] == if i < |s| then s[i] else z[i - |s|];
    CoreWithoutSuffix(s + z);
    LStripAppend(s, z, 'v');
  }

  /** Splitting `l + ".0"` at dots gives the pieces of `l` and one more piece, `"0"`. */
  lemma SplitAppendZero(l: string)
    ensures Split(l + ".0", '.') == Split(l, '.') + ["0"]
  {
    assert l + ".0" == l + ['.'] + "0";
    SplitConcat(l, "0", '.');
    SplitNoSep("0", '.');
  }

  /** Appending `.0` to a version without a build suffix adds a zero component. */
  lemma ParseAppendZero(s: string)
    requires '-' !in s && Parse(s).Some?
    ensures Parse(s + ".0") == Some(Parse(s).value + [0])
  {
    CoreAppendZero(s);
    SplitAppendZero(LStrip(s, 'v'));
    CoreWithoutSuffix(s);
    ParsePartsAppendZero(Split(LStrip(s, 'v'), '.'));
  }

  /** Appending `.0` to a version without a build suffix adds a zero component and changes no comparison. */
  lemma TrailingZeroIgnored(s: string, t: string)
    requires '-' !in s && Parse(s).Some?
    ensures Parse(s + ".0") == Some(Parse(s).value + [0])
    ensures VersionGreater(s + ".0", t) == VersionGreater(s, t)
    ensures VersionGreater(t, s + ".0") == VersionGreater(t, s)
  {
    ParseAppendZero(s);
    if Parse(t).Some? {
      PartsTrailingZero(Parse(s).value, Parse(t).value);
    }
  }

  // ---------------------------------------------------------------------
  // Printing and parsing
  // ---------------------------------------------------------------------

  /** `'.'.join(str(p) for p in parts)`: the canonical string of a component list. */
  function Format(parts: seq<nat>): string
    requires |parts| >= 1
  {
    Join(Components(parts), '.')
  }

  /** `[str(p) for p in parts]`. */
  function Components(parts: seq<nat>): (r: seq<string>)
    ensures |r| == |parts|
    ensures forall i :: 0 <= i < |parts| ==> r[i] == NatToDigits(parts[i])
  {
    if parts == [] then [] else [NatToDigits(parts[0])] + Components(parts[1..])
  }

  /** Every component list is recovered from its string, with any `v` prefix and any build suffix. */
  lemma ParseFormat(parts: seq<nat>, k: nat, build: string)
    requires |parts| >= 1
    ensures Parse(Format(parts)) == Some(parts)
    ensures Parse(seq(k, _ => 'v') + Format(parts) + "-" + build) == Some(parts)
  {
    var pieces := Components(parts);
    var f := Format(parts);
    JoinOfDigits(pieces, '.');
    assert LStrip(f, 'v') == f;
    assert '-' !in f;
    SplitNoSep(f, '-');
    assert Core(f) == f;
    forall i | 0 <= i < |pieces|
      ensures '.' !in pieces[i] && ParseDigits(pieces[i]) == Some(parts[i])
    {
      ParseDigitsRoundTrip(parts[i]);
    }
    SplitJoin(pieces, '.');
    assert ParseParts(pieces).value == parts;
    CoreBuildSuffix(seq(k, _ => 'v') + f, build);
    CoreLeadingV(k, f);
  }

  /** A version string written as `v`s, a formatted component list and a build suffix parses to that list. */
  lemma ParseWritten(s: string, k: nat, parts: seq<nat>, build: string)
    requires |parts| >= 1
    requires s == seq(k, _ => 'v') + Format(parts) || s == seq(k, _ => 'v') + Format(parts) + "-" + build
    ensures Parse(s) == Some(parts)
  {
    ParseFormat(parts, k, build);
    CoreLeadingV(k, Format(parts));
  }

  lemma Format2510()
    ensures Format([2, 5, 10]) == "2.5.10"
  {
    assert NatToDigits(10) == "10";
    assert Components([2, 5, 10]) == ["2", "5", "10"];
    assert Join(["2", "5", "10"], '.') == "2.5.10";
  }

  lemma Format259()
    ensures Format([2, 5, 9]) == "2.5.9"
  {
    assert Components([2, 5, 9]) == ["2", "5", "9"];
    assert Join(["2", "5", "9"], '.') == "2.5.9";
  }

  lemma Format251()
    ensures Format([2, 5, 1]) == "2.5.1"
  {
    assert Components([2, 5, 1]) == ["2", "5", "1"];
    assert Join(["2", "5", "1"], '.') == "2.5.1";
  }

  lemma Format250()
    ensures Format([2, 5, 0]) == "2.5.0"
  {
    assert Components([2, 5, 0]) == ["2", "5", "0"];
    assert Join(["2", "5", "0"], '.') == "2.5.0";
  }

  lemma Format25()
    ensures Format([2, 5]) == "2.5"
  {
    assert Components([2, 5]) == ["2", "5"];
    assert Join(["2", "5"], '.') == "2.5";
  }

  lemma Format2500()
    ensures Format([2, 5, 0, 0]) == "2.5.0.0"
  {
    assert Components([2, 5, 0, 0]) == ["2", "5", "0", "0"];
    assert Join(["2", "5", "0", "0"], '.') == "2.5.0.0";
  }

  lemma ParseV2510(s: string)
    requires s == "v2.5.10"
    ensures Parse(s) == Some([2, 5, 10])
  {
    Format2510();
    ParseWritten(s, 1, [2, 5, 10], "");
  }

  lemma ParseV259Build1(s: string)
    requires s == "v2.5.9-1"
    ensures Parse(s) == Some([2, 5, 9])
  {
    Format259();
    ParseWritten(s, 1, [2, 5, 9], "1");
  }

  lemma ParseV251(s: string)
    requires s == "v2.5.1"
    ensures Parse(s) == Some([2, 5, 1])
  {
    Format251();
    ParseWritten(s, 1, [2, 5, 1], "");
  }

  /** `v2.5.1` with any build suffix parses to `[2, 5, 1]`. */
  lemma ParseV251Build(s: string, build: string)
    requires s == "v2.5.1-" + build
    ensures Parse(s) == Some([2, 5, 1])
  {
    Format251();
    assert s == seq(1, _ => 'v') + Format([2, 5, 1]) + "-" + build;
    ParseWritten(s, 1, [2, 5, 1], build);
  }

  lemma ParseV250(s: string)
    requires s == "v2.5.0"
    ensures Parse(s) == Some([2, 5, 0])
  {
    Format250();
    ParseWritten(s, 1, [2, 5, 0], "");
  }

  lemma ParsePlain25(s: string)
    requires s == "2.5"
    ensures Parse(s) == Some([2, 5])
  {
    Format25();
    ParseWritten(s, 0, [2, 5], "");
  }

  lemma ParsePlain2500(s: string)
    requires s == "2.5.0.0"
    ensures Parse(s) == Some([2, 5, 0, 0])
  {
    Format2500();
    ParseWritten(s, 0, [2, 5, 0, 0], "");
  }

  lemma ParsePlain251(s: string)
    requires s == "2.5.1"
    ensures Parse(s) == Some([2, 5, 1])
  {
    Format251();
    ParseWritten(s, 0, [2, 5, 1], "");
  }

  /** Lists of equal length need no padding. */
  lemma PartsGreaterSameLength(x: seq<nat>, y: seq<nat>)
    requires |x| == |y|
    ensures PartsGreater(x, y) == LexGreater(x, y)
  {
    assert Pad(x, |x|) == x && Pad(y, |y|) == y;
  }

  /** A common first component is skipped. */
  lemma LexCommonHead(h: nat, a: seq<nat>, b: seq<nat>)
    requires |a| == |b|
    ensures LexGreater([h] + a, [h] + b) == LexGreater(a, b)
  {
    assert ([h] + a)[1..] == a && ([h] + b)[1..] == b;
  }

  /** Once both strings are known to parse, the comparison is the one on their components. */
  lemma GreaterByParts(a: string, b: string, x: seq<nat>, y: seq<nat>)
    requires Parse(a) == Some(x) && Parse(b) == Some(y)
    ensures VersionGreater(a, b) == Some(PartsGreater(x, y))
  {
  }

  /** The components `[2, 5, 10]` are greater than `[2, 5, 9]`. */
  lemma TenAfterNineParts()
    ensures PartsGreater([2, 5, 10], [2, 5, 9])
  {
    PartsGreaterSameLength([2, 5, 10], [2, 5, 9]);
    LexCommonHead(2, [5, 10], [5, 9]);
    LexCommonHead(5, [10], [9]);
    assert [2] + [5, 10] == [2, 5, 10] && [2] + [5, 9] == [2, 5, 9];
    assert [5] + [10] == [5, 10] && [5] + [9] == [5, 9];
  }

  /** `v2.5.10` > `v2.5.9-1`: the first difference, 10 > 9, is in the third component. */
  lemma ExampleTenAfterNine(a: string, b: string)
    requires a == "v2.5.10" && b == "v2.5.9-1"
    ensures VersionGreater(a, b) == Some(true)
  {
    ParseV2510(a);
    ParseV259Build1(b);
    TenAfterNineParts();
    GreaterByParts(a, b, [2, 5, 10], [2, 5, 9]);
  }

  /** `[2, 5, 1]` is greater than `[2, 5, 0]` and not the other way round. */
  lemma PatchLevelParts()
    ensures PartsGreater([2, 5, 1], [2, 5, 0]) && !PartsGreater([2, 5, 0], [2, 5, 1])
  {
    PartsGreaterSameLength([2, 5, 1], [2, 5, 0]);
    PartsGreaterSameLength([2, 5, 0], [2, 5, 1]);
    LexCommonHead(2, [5, 1], [5, 0]);
    LexCommonHead(5, [1], [0]);
    LexCommonHead(2, [5, 0], [5, 1]);
    LexCommonHead(5, [0], [1]);
    assert [2] + [5, 1] == [2, 5, 1] && [2] + [5, 0] == [2, 5, 0];
    assert [5] + [1] == [5, 1] && [5] + [0] == [5, 0];
  }

  /** `v2.5.1` > `v2.5.0` and not the other way round. */
  lemma ExamplePatchLevel(a: string, b: string)
    requires a == "v2.5.1" && b == "v2.5.0"
    ensures VersionGreater(a, b) == Some(true)
    ensures VersionGreater(b, a) == Some(false)
  {
    ParseV251(a);
    ParseV250(b);
    PatchLevelParts();
    GreaterByParts(a, b, [2, 5, 1], [2, 5, 0]);
    GreaterByParts(b, a, [2, 5, 0], [2, 5, 1]);
  }

  /** No component list is greater than itself. */
  lemma PartsIrreflexive(x: seq<nat>)
    ensures !PartsGreater(x, x)
  {
    PartsGreaterSameLength(x, x);
    LexIrreflexive(x);
  }

  /** `v2.5.1-2` and `v2.5.1` are equal, so neither is greater than the other. */
  lemma ExampleBuildNumber(a: string, b: string)
    requires a == "v2.5.1-2" && b == "v2.5.1"
    ensures VersionGreater(a, b) == Some(false)
    ensures VersionGreater(b, a) == Some(false)
  {
    ParseV251Build(a, "2");
    ParseV251(b);
    SameComponentsNotGreater(a, b, [2, 5, 1]);
  }

  /** Any two builds of v2.5.1, such as `v2.5.1-9` and `v2.5.1-1`, are equal: neither is greater. */
  lemma ExampleBuilds(c: string, d: string, buildC: string, buildD: string)
    requires c == "v2.5.1-" + buildC && d == "v2.5.1-" + buildD
    ensures VersionGreater(c, d) == Some(false)
    ensures VersionGreater(d, c) == Some(false)
  {
    ParseV251Build(c, buildC);
    ParseV251Build(d, buildD);
    SameComponentsNotGreater(c, d, [2, 5, 1]);
  }

  /** Two strings that parse to the same components are each not greater than the other. */
  lemma SameComponentsNotGreater(x: string, y: string, parts: seq<nat>)
    requires Parse(x) == Some(parts) && Parse(y) == Some(parts)
    ensures VersionGreater(x, y) == Some(false) && VersionGreater(y, x) == Some(false)
  {
    PartsIrreflexive(parts);
    GreaterByParts(x, y, parts, parts);
    GreaterByParts(y, x, parts, parts);
  }

  /** `[2, 5]` pads to `[2, 5, 0, 0]`, so neither is greater; `[2, 5, 1]` is greater than `[2, 5]`. */
  lemma PaddingParts()
    ensures SameParts([2, 5], [2, 5, 0, 0])
    ensures !PartsGreater([2, 5], [2, 5, 0, 0]) && !PartsGreater([2, 5, 0, 0], [2, 5])
    ensures PartsGreater([2, 5, 1], [2, 5])
  {
    assert Pad([2, 5], 4) == [2, 5, 0, 0] && Pad([2, 5, 0, 0], 4) == [2, 5, 0, 0];
    LexIrreflexive([2, 5, 0, 0]);
    assert Pad([2, 5], 3) == [2, 5, 0] && Pad([2, 5, 1], 3) == [2, 5, 1];
    LexCommonHead(2, [5, 1], [5, 0]);
    LexCommonHead(5, [1], [0]);
    assert [2] + [5, 1] == [2, 5, 1] && [2] + [5, 0] == [2, 5, 0];
    assert [5] + [1] == [5, 1] && [5] + [0] == [5, 0];
  }

  /** `2.5` and `2.5.0.0` are the same version, neither greater, and `2.5.1` is greater than `2.5`. */
  lemma ExamplePadding(a: string, b: string, c: string)
    requires a == "2.5" && b == "2.5.0.0" && c == "2.5.1"
    ensures SameVersion(a, b)
    ensures VersionGreater(a, b) == Some(false) && VersionGreater(b, a) == Some(false)
    ensures VersionGreater(c, a) == Some(true)
  {
    ParsePlain25(a);
    ParsePlain2500(b);
    ParsePlain251(c);
    PaddingParts();
    GreaterByParts(a, b, [2, 5], [2, 5, 0, 0]);
    GreaterByParts(b, a, [2, 5, 0, 0], [2, 5]);
    GreaterByParts(c, a, [2, 5, 1], [2, 5]);
  }
}
