/**
 * Python string operations the core relies on, written out over `seq<char>`:
 * `str.strip()`, the `in` test, `str.split(sep)[k]`, `str.replace` and the
 * decimal rendering of integers with and without `,` thousands separators.
 */
module Text {
  import opened Wrappers

  // ---------------------------------------------------------------------------
  // Whitespace and strip()

  /** The characters for which Python's `str.isspace()` holds. */
  predicate IsSpace(c: char) {
    var n := c as int;
    (9 <= n <= 13) || (28 <= n <= 32) || n == 0x85 || n == 0xA0 || n == 0x1680
    || (0x2000 <= n <= 0x200A) || n == 0x2028 || n == 0x2029 || n == 0x202F
    || n == 0x205F || n == 0x3000
  }

  /** The first index at or after `i` holding a non-whitespace character, or `|s|`. */
  function SkipSpaces(s: string, i: nat): (k: nat)
    requires i <= |s|
    ensures i <= k <= |s| && (k < |s| ==> !IsSpace(s[k]))
    ensures forall m :: i <= m < k ==> IsSpace(s[m])
    decreases |s| - i
  {
    if i < |s| && IsSpace(s[i]) then SkipSpaces(s, i + 1) else i
  }

  /** The end of `s[lo..j]` once its trailing whitespace is dropped. */
  function SkipSpacesBack(s: string, lo: nat, j: nat): (k: nat)
    requires lo <= j <= |s|
    ensures lo <= k <= j && (k > lo ==> !IsSpace(s[k - 1]))
    ensures forall m :: k <= m < j ==> IsSpace(s[m])
    decreases j
  {
    if j > lo && IsSpace(s[j - 1]) then SkipSpacesBack(s, lo, j - 1) else j
  }

  /**
   * Python's `s.strip()`: the middle part of `s` left once the whitespace at
   * both ends is removed; it neither starts nor ends with whitespace.
   */
  function Strip(s: string): (r: string)
    ensures r == [] || (!IsSpace(r[0]) && !IsSpace(r[|r| - 1]))
    ensures exists i, j :: (0 <= i <= j <= |s| && r == s[i..j] &&
      (forall m :: 0 <= m < i ==> IsSpace(s[m])) && (forall m :: j <= m < |s| ==> IsSpace(s[m])))
  {
    var i := SkipSpaces(s, 0);
    var j := SkipSpacesBack(s, i, |s|);
    s[i..j]
  }

  // ---------------------------------------------------------------------------
  // Occurrences of a pattern, Python's `pat in s`

  predicate OccursAt(s: string, pat: string, i: int) {
    0 <= i && i + |pat| <= |s| && s[i..i + |pat|] == pat
  }

  ghost predicate Contains(s: string, pat: string) {
    exists i :: OccursAt(s, pat, i)
  }

  /** The first index at or after `k` where `pat` occurs in `s`. */
  function FindFrom(s: string, pat: string, k: nat): (r: Option<nat>)
    decreases |s| - k
    ensures r.Some? ==> k <= r.value && OccursAt(s, pat, r.value)
    ensures r.Some? ==> forall j :: k <= j < r.value ==> !OccursAt(s, pat, j)
    ensures r.None? ==> forall j :: k <= j ==> !OccursAt(s, pat, j)
  {
    if k + |pat| > |s| then None
    else if s[k..k + |pat|] == pat then Some(k)
    else FindFrom(s, pat, k + 1)
  }

  /** Python's `s.find(pat)`, with `None` for -1: the leftmost occurrence. */
  function Find(s: string, pat: string): (r: Option<nat>)
    ensures r.Some? <==> Contains(s, pat)
    ensures r.Some? ==> OccursAt(s, pat, r.value) && forall j :: 0 <= j < r.value ==> !OccursAt(s, pat, j)
  {
    FindFrom(s, pat, 0)
  }

  /** Inside a slice, the occurrences are those of the whole string, shifted. */
  lemma SliceOccurrence(s: string, pat: string, lo: nat, hi: nat, j: nat)
    requires lo <= hi <= |s| && j + |pat| <= hi - lo
    ensures OccursAt(s[lo..hi], pat, j) <==> OccursAt(s, pat, lo + j)
  {
    var t := s[lo..hi];
    forall m | j <= m < j + |pat| ensures t[m] == s[lo + m] {
    }
    assert t[j..j + |pat|] == s[lo + j..lo + j + |pat|];
  }

  /** A slice of a string free of `pat` is free of `pat`. */
  lemma NotContainsSlice(s: string, pat: string, lo: nat, hi: nat)
    requires lo <= hi <= |s| && !Contains(s, pat)
    ensures !Contains(s[lo..hi], pat)
  {
    forall j | 0 <= j && j + |pat| <= hi - lo ensures !OccursAt(s[lo..hi], pat, j) {
      SliceOccurrence(s, pat, lo, hi, j);
    }
  }

  // ---------------------------------------------------------------------------
  // str.split(sep)[0] and str.split(sep)[1]

  /**
   * Python's `s.split(sep)[0]`: everything before the first `sep`, or all
   * of `s` when `sep` does not occur.
   */
  function Before(s: string, sep: string): (r: string)
    requires |sep| > 0
    ensures |r| <= |s| && r == s[..|r|]
    ensures !Contains(r, sep)
    ensures r == s <==> !Contains(s, sep)
    ensures r != s ==> OccursAt(s, sep, |r|)
    ensures forall j :: 0 <= j < |r| ==> !OccursAt(s, sep, j)
  {
    match Find(s, sep)
    case None => s
    case Some(i) =>
      forall j | 0 <= j && j + |sep| <= i ensures !OccursAt(s[..i], sep, j) {
        SliceOccurrence(s, sep, 0, i, j);
      }
      s[..i]
  }

  /** Where the next `pat` at or after `k` starts, or `|s|` when there is none. */
  function NextOrEnd(s: string, pat: string, k: nat): (e: nat)
    requires k <= |s|
    ensures k <= e <= |s| && (e == |s| || OccursAt(s, pat, e))
    ensures forall j :: k <= j < e ==> !OccursAt(s, pat, j)
  {
    match FindFrom(s, pat, k)
    case None => |s|
    case Some(j) => j
  }

  /** The text from `k` up to the next `pat` holds no complete `pat`. */
  lemma UpToNextIsFree(s: string, pat: string, k: nat)
    requires |pat| > 0 && k <= |s|
    ensures !Contains(s[k..NextOrEnd(s, pat, k)], pat)
  {
    var e := NextOrEnd(s, pat, k);
    forall j | 0 <= j && j + |pat| <= e - k ensures !OccursAt(s[k..e], pat, j) {
      SliceOccurrence(s, pat, k, e, j);
    }
  }

  /**
   * Python's `s.split(sep)[1]`, defined when `sep` occurs: the text between
   * the first `sep` and the next one, or up to the end of `s`.
   */
  function SecondPiece(s: string, sep: string): (r: string)
    requires |sep| > 0 && Contains(s, sep)
    ensures !Contains(r, sep)
  {
    var a := Find(s, sep).value + |sep|;
    UpToNextIsFree(s, sep, a);
    s[a..NextOrEnd(s, sep, a)]
  }

  // ---------------------------------------------------------------------------
  // str.replace(pat, rep)

  /** `s[k..].replace(pat, rep)`: every occurrence, scanning left to right from `k`. */
  function ReplaceFrom(s: string, pat: string, rep: string, k: nat): (r: string)
    requires |pat| > 0 && k <= |s|
    decreases |s| - k
  {
    match FindFrom(s, pat, k)
    case None => s[k..]
    case Some(i) => s[k..i] + rep + ReplaceFrom(s, pat, rep, i + |pat|)
  }

  /**
   * Python's `s.replace(pat, rep)`. A text without the pattern comes back as
   * it is; a one-character pattern is rewritten as `rep` wherever it occurs,
   * every other character kept in its place.
   */
  function Replace(s: string, pat: string, rep: string): (r: string)
    requires |pat| > 0
    ensures !Contains(s, pat) ==> r == s
    ensures |pat| == 1 ==> r == EachCharReplaced(s, pat[0], rep)
  {
    if |pat| == 1 then
      assert pat == [pat[0]];
      ReplaceFromEach(s, pat[0], rep, 0);
      ReplaceFrom(s, pat, rep, 0)
    else ReplaceFrom(s, pat, rep, 0)
  }

  /** The text read character by character: each `c` becomes `rep`, every other character stays. */
  function EachCharReplaced(s: string, c: char, rep: string): string {
    if s == [] then [] else (if s[0] == c then rep else [s[0]]) + EachCharReplaced(s[1..], c, rep)
  }

  /** Rewriting character by character distributes over concatenation. */
  lemma {:induction false} EachCharReplacedAppend(a: string, b: string, c: char, rep: string)
    ensures EachCharReplaced(a + b, c, rep) == EachCharReplaced(a, c, rep) + EachCharReplaced(b, c, rep)
    decreases |a|
  {
    if a == [] {
      assert a + b == b;
    } else {
      assert (a + b)[0] == a[0] && (a + b)[1..] == a[1..] + b;
      EachCharReplacedAppend(a[1..], b, c, rep);
    }
  }

  /** A text without `c` is left as it is. */
  lemma {:induction false} EachCharReplacedFree(s: string, c: char, rep: string)
    requires c !in s
    ensures EachCharReplaced(s, c, rep) == s
    decreases |s|
  {
    if s != [] {
      assert c !in s[1..];
      EachCharReplacedFree(s[1..], c, rep);
      assert s == [s[0]] + s[1..];
    }
  }

  /** The left-to-right scan for a one-character pattern rewrites the rest of the text character by character. */
  lemma {:induction false} ReplaceFromEach(s: string, c: char, rep: string, k: nat)
    requires k <= |s|
    ensures ReplaceFrom(s, [c], rep, k) == EachCharReplaced(s[k..], c, rep)
    decreases |s| - k
  {
    match FindFrom(s, [c], k)
    case None =>
      CharAbsentBetween(s, c, k, |s|);
      assert s[k..|s|] == s[k..];
      EachCharReplacedFree(s[k..], c, rep);
    case Some(i) =>
      CharAbsentBetween(s, c, k, i);
      ReplaceFromEach(s, c, rep, i + 1);
      ReplaceStep(s, [c], rep, k, i);
      EachCharReplacedAt(s, c, rep, k, i);
  }

  /** No occurrence of `[c]` starts in `k..i`, so `c` is not in `s[k..i]`. */
  lemma CharAbsentBetween(s: string, c: char, k: nat, i: nat)
    requires k <= i <= |s|
    requires forall j :: k <= j < i ==> !OccursAt(s, [c], j)
    ensures c !in s[k..i]
  {
    forall m | k <= m < i ensures s[m] != c {
      assert s[m..m + 1] == [s[m]];
      assert !OccursAt(s, [c], m);
    }
  }

  /** With the first `c` of `s[k..]` at `i`, the rewrite of `s[k..]` is the text before it, `rep`, then the rewrite after it. */
  lemma EachCharReplacedAt(s: string, c: char, rep: string, k: nat, i: nat)
    requires k <= i < |s| && s[i] == c && c !in s[k..i]
    ensures EachCharReplaced(s[k..], c, rep) == s[k..i] + rep + EachCharReplaced(s[i + 1..], c, rep)
  {
    var tail := s[i..];
    assert s[k..] == s[k..i] + tail;
    assert tail[0] == c && tail[1..] == s[i + 1..];
    EachCharReplacedFree(s[k..i], c, rep);
    EachCharReplacedAppend(s[k..i], tail, c, rep);
  }

  /** One step of `ReplaceFrom`: the text up to the next occurrence, `rep`, then the rest. */
  lemma ReplaceStep(s: string, pat: string, rep: string, k: nat, i: nat)
    requires |pat| > 0 && k <= |s| && FindFrom(s, pat, k) == Some(i)
    ensures ReplaceFrom(s, pat, rep, k) == s[k..i] + rep + ReplaceFrom(s, pat, rep, i + |pat|)
  {
  }

  /** Replacing a one-character pattern by a text without that character removes it. */
  lemma {:induction false} ReplaceCharRemoves(s: string, c: char, rep: string, k: nat)
    requires c !in rep && k <= |s|
    ensures c !in ReplaceFrom(s, [c], rep, k)
    decreases |s| - k
  {
    match FindFrom(s, [c], k)
    case None =>
      forall m | k <= m < |s| ensures s[m] != c {
        assert s[m..m + 1] == [s[m]];
        assert !OccursAt(s, [c], m);
      }
    case Some(i) =>
      ReplaceStep(s, [c], rep, k, i);
      ReplaceCharRemoves(s, c, rep, i + 1);
      forall m | k <= m < i ensures s[m] != c {
        assert s[m..m + 1] == [s[m]];
        assert !OccursAt(s, [c], m);
      }
      assert c !in s[k..i];
  }

  /** Replacing a one-character pattern leaves a text without that character alone. */
  lemma ReplaceCharAbsent(s: string, c: char, rep: string)
    requires c !in s
    ensures Replace(s, [c], rep) == s
  {
    forall j | 0 <= j < |s| ensures !OccursAt(s, [c], j) {
      assert s[j..j + 1] == [s[j]];
    }
  }

  const Fence := "```"

  /**
   * Joining a fence-free text that does not end in a backtick to a
   * fence-free text cannot create a fence.
   */
  lemma JoinNoFence(p: string, q: string)
    requires !Contains(p, Fence) && !Contains(q, Fence)
    requires |p| == 0 || p[|p| - 1] != '`'
    ensures !Contains(p + q, Fence)
  {
    var w := p + q;
    forall j | 0 <= j && j + 3 <= |w| ensures !OccursAt(w, Fence, j) {
      if j + 3 <= |p| {
        assert w[j..j + 3] == p[j..j + 3];
        assert !OccursAt(p, Fence, j);
      } else if j >= |p| {
        assert w[j..j + 3] == q[j - |p|..j - |p| + 3];
        assert !OccursAt(q, Fence, j - |p|);
      } else {
        assert w[j..j + 3][|p| - 1 - j] == p[|p| - 1];
      }
    }
  }

  /**
   * The text between `k` and the next fence holds no fence, and does not end
   * in a backtick: that backtick would start an earlier fence.
   */
  lemma BeforeNextFence(s: string, k: nat, i: nat)
    requires k <= |s| && FindFrom(s, Fence, k) == Some(i)
    ensures !Contains(s[k..i], Fence)
    ensures |s[k..i]| == 0 || s[k..i][|s[k..i]| - 1] != '`'
  {
    forall j | 0 <= j && j + 3 <= i - k ensures !OccursAt(s[k..i], Fence, j) {
      SliceOccurrence(s, Fence, k, i, j);
    }
    if i > k {
      NoBacktickBeforeFence(s, i);
      assert s[k..i][i - k - 1] == s[i - 1];
    }
  }

  /** The character before the first of a run of fences is no backtick. */
  lemma NoBacktickBeforeFence(s: string, i: nat)
    requires 0 < i && OccursAt(s, Fence, i) && !OccursAt(s, Fence, i - 1)
    ensures s[i - 1] != '`'
  {
    assert s[i] == s[i..i + 3][0] && s[i + 1] == s[i..i + 3][1];
    assert s[i - 1..i + 2] == [s[i - 1], s[i], s[i + 1]];
  }

  /**
   * `s[k..].replace("```", "")` contains no "```": the removal never joins
   * two backtick runs into a new fence.
   */
  lemma {:induction false} RemoveFencesFrom(s: string, k: nat)
    requires k <= |s|
    ensures !Contains(ReplaceFrom(s, Fence, "", k), Fence)
    decreases |s| - k
  {
    match FindFrom(s, Fence, k)
    case None =>
      NoFenceAfter(s, k);
    case Some(i) =>
      RemoveFencesFrom(s, i + 3);
      RemoveOneFence(s, k, i);
  }

  /** Past the last fence, the rest of the text is fence-free. */
  lemma NoFenceAfter(s: string, k: nat)
    requires k <= |s| && FindFrom(s, Fence, k).None?
    ensures !Contains(ReplaceFrom(s, Fence, "", k), Fence)
  {
    forall j | 0 <= j && j + 3 <= |s| - k ensures !OccursAt(s[k..], Fence, j) {
      SliceOccurrence(s, Fence, k, |s|, j);
    }
  }

  /** Removing the next fence keeps the result fence-free when the rest after it is. */
  lemma RemoveOneFence(s: string, k: nat, i: nat)
    requires k <= |s| && FindFrom(s, Fence, k) == Some(i)
    requires !Contains(ReplaceFrom(s, Fence, "", i + 3), Fence)
    ensures !Contains(ReplaceFrom(s, Fence, "", k), Fence)
  {
    RemoveStep(s, k, i);
    BeforeNextFence(s, k, i);
    JoinNoFence(s[k..i], ReplaceFrom(s, Fence, "", i + 3));
  }

  /** One step of removing fences: the text up to the next fence, then the rest with its fences removed. */
  lemma RemoveStep(s: string, k: nat, i: nat)
    requires k <= |s| && FindFrom(s, Fence, k) == Some(i)
    ensures ReplaceFrom(s, Fence, "", k) == s[k..i] + ReplaceFrom(s, Fence, "", i + 3)
  {
    ReplaceStep(s, Fence, "", k, i);
    assert s[k..i] + "" == s[k..i];
  }

  /** `s.replace("```", "")` contains no "```". */
  lemma RemoveFencesLeavesNone(s: string)
    ensures !Contains(Replace(s, Fence, ""), Fence)
  {
    RemoveFencesFrom(s, 0);
  }

  /** Stripping a text without `pat` yields a text without `pat`. */
  lemma StripKeepsAbsence(s: string, pat: string)
    requires !Contains(s, pat)
    ensures !Contains(Strip(s), pat)
  {
    var i, j :| 0 <= i <= j <= |s| && Strip(s) == s[i..j];
    NotContainsSlice(s, pat, i, j);
  }

  // ---------------------------------------------------------------------------
  // Decimal rendering: str(n) and format(n, ",")

  predicate IsDigit(c: char) {
    '0' <= c <= '9'
  }

  function DigitChar(d: nat): (c: char)
    requires d < 10
    ensures IsDigit(c)
  {
    ('0' as int + d) as char
  }

  /** Python's `str(n)` for a natural number. */
  function Decimal(n: nat): (r: string)
    ensures |r| >= 1 && forall k :: 0 <= k < |r| ==> IsDigit(r[k])
    ensures |r| > 1 ==> r[0] != '0'
  {
    if n < 10 then [DigitChar(n)] else Decimal(n / 10) + [DigitChar(n % 10)]
  }

  /** Three digits with leading zeros, as in the groups after the first one. */
  function Pad3(n: nat): (r: string)
    requires n < 1000
    ensures |r| == 3 && forall k :: 0 <= k < 3 ==> IsDigit(r[k])
  {
    [DigitChar(n / 10 / 10), DigitChar(n / 10 % 10), DigitChar(n % 10)]
  }

  /** Python's `format(n, ",")` for a natural number. */
  function Grouped(n: nat): (r: string)
    ensures |r| >= 1 && IsDigit(r[0]) && IsDigit(r[|r| - 1])
  {
    if n < 1000 then Decimal(n) else Grouped(n / 1000) + "," + Pad3(n % 1000)
  }

  function WithoutCommas(s: string): (r: string)
    ensures ',' !in r
  {
    if s == [] then [] else (if s[0] == ',' then [] else [s[0]]) + WithoutCommas(s[1..])
  }

  lemma {:induction false} WithoutCommasAppend(a: string, b: string)
    ensures WithoutCommas(a + b) == WithoutCommas(a) + WithoutCommas(b)
    decreases |a|
  {
    if a == [] {
      assert a + b == b;
    } else {
      var head := if a[0] == ',' then [] else [a[0]];
      assert (a + b)[0] == a[0];
      assert (a + b)[1..] == a[1..] + b;
      WithoutCommasAppend(a[1..], b);
      calc {
        WithoutCommas(a + b);
        head + WithoutCommas(a[1..] + b);
        head + (WithoutCommas(a[1..]) + WithoutCommas(b));
        (head + WithoutCommas(a[1..])) + WithoutCommas(b);
        WithoutCommas(a) + WithoutCommas(b);
      }
    }
  }

  lemma {:induction false} WithoutCommasNoComma(s: string)
    requires ',' !in s
    ensures WithoutCommas(s) == s
    decreases |s|
  {
    if s != [] {
      assert s[0] in s;
      assert forall c :: c in s[1..] ==> c in s;
      WithoutCommasNoComma(s[1..]);
    }
  }

  lemma Div10(x: int, y: int, z: int)
    requires x == 10 * y + z && 0 <= z < 10
    ensures x / 10 == y && x % 10 == z
  {
  }

  /** The last three digits of `str(n)` are `n % 1000`, zero-padded. */
  lemma DecimalSplit(n: nat)
    requires n >= 1000
    ensures Decimal(n) == Decimal(n / 1000) + Pad3(n % 1000)
  {
    var q, r := n / 1000, n % 1000;
    var r1, c := r / 10, r % 10;
    var a, b := r1 / 10, r1 % 10;
    assert n == 1000 * q + r;
    Div10(r, r1, c);
    Div10(r1, a, b);
    Div10(n, 100 * q + r1, c);
    Div10(n / 10, 10 * q + a, b);
    Div10(10 * q + a, q, a);
    assert Decimal(n) == Decimal(n / 10) + [DigitChar(c)];
    assert Decimal(n / 10) == Decimal(10 * q + a) + [DigitChar(b)];
    assert Decimal(10 * q + a) == Decimal(q) + [DigitChar(a)];
    assert Pad3(r) == [DigitChar(a), DigitChar(b), DigitChar(c)];
  }

  /** Dropping the separators from `format(n, ",")` gives back `str(n)`. */
  lemma {:induction false} GroupedIsDecimal(n: nat)
    ensures WithoutCommas(Grouped(n)) == Decimal(n)
    decreases n
  {
    if n < 1000 {
      WithoutCommasNoComma(Decimal(n));
    } else {
      GroupedIsDecimal(n / 1000);
      GroupedStepIsDecimal(n);
    }
  }

  /** The step of `GroupedIsDecimal`: one more group of three digits behind a separator. */
  lemma GroupedStepIsDecimal(n: nat)
    requires n >= 1000 && WithoutCommas(Grouped(n / 1000)) == Decimal(n / 1000)
    ensures WithoutCommas(Grouped(n)) == Decimal(n)
  {
    var g, p := Grouped(n / 1000), Pad3(n % 1000);
    assert Grouped(n) == g + "," + p;
    WithoutCommasDropsSeparator(g, p);
    WithoutCommasNoComma(p);
    DecimalSplit(n);
  }

  /** A separator between two texts leaves nothing behind. */
  lemma WithoutCommasDropsSeparator(a: string, b: string)
    ensures WithoutCommas(a + "," + b) == WithoutCommas(a) + WithoutCommas(b)
  {
    assert WithoutCommas(",") == [] by {
      assert ","[1..] == [];
    }
    WithoutCommasAppend(a + ",", b);
    WithoutCommasAppend(a, ",");
  }

  /** The separators of a grouped number inside text that has no commas of its own are its only ones. */
  lemma GroupedAmidText(pre: string, n: nat, post: string)
    requires ',' !in pre && ',' !in post
    ensures WithoutCommas(pre + Grouped(n) + post) == pre + Decimal(n) + post
  {
    GroupedIsDecimal(n);
    WithoutCommasNoComma(pre);
    WithoutCommasNoComma(post);
    WithoutCommasAppend(pre + Grouped(n), post);
    WithoutCommasAppend(pre, Grouped(n));
  }

  /** The same for a grouped number at the end of the text. */
  lemma GroupedAfterText(pre: string, n: nat)
    requires ',' !in pre
    ensures WithoutCommas(pre + Grouped(n)) == pre + Decimal(n)
  {
    GroupedIsDecimal(n);
    WithoutCommasNoComma(pre);
    WithoutCommasAppend(pre, Grouped(n));
  }

  /** The same for two grouped numbers with comma-free text before and between them. */
  lemma GroupedPairAmidText(pre: string, m: nat, mid: string, n: nat)
    requires ',' !in pre && ',' !in mid
    ensures WithoutCommas(pre + Grouped(m) + mid + Grouped(n)) == pre + Decimal(m) + mid + Decimal(n)
  {
    GroupedAmidText(pre, m, mid);
    GroupedIsDecimal(n);
    WithoutCommasAppend(pre + Grouped(m) + mid, Grouped(n));
  }

  /** Python's `format(n, ",")` for any integer: a minus sign, then the groups. */
  function Thousands(n: int): (r: string)
    ensures |r| >= 1 && IsDigit(r[|r| - 1])
    ensures n < 0 <==> r[0] == '-'
  {
    if n < 0 then "-" + Grouped(-n) else Grouped(n)
  }
}
