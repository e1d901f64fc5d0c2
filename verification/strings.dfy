/** String primitives with the ECMAScript meaning the application relies on:
    `toLowerCase` (ASCII part), the `\s` whitespace class, `trim`,
    `includes`, global `replace` of a literal pattern and the `<`
    ordering of strings.

    The recursive definitions walk an index rather than slicing, so that the
    verifier can evaluate them on string literals. */
module Strings {

  import opened Seqs

  /** The characters matched by `\s` and removed by `trim` (WhiteSpace and
      LineTerminator of ECMA-262). */
  predicate IsSpace(c: char) {
    || c == '\t' || c == '\n' || c == '\U{000B}' || c == '\U{000C}' || c == '\r'
    || c == ' ' || c == '\U{00A0}' || c == '\U{1680}'
    || ('\U{2000}' <= c <= '\U{200A}')
    || c == '\U{2028}' || c == '\U{2029}' || c == '\U{202F}' || c == '\U{205F}'
    || c == '\U{3000}' || c == '\U{FEFF}'
  }

  predicate IsUpper(c: char) { 'A' <= c <= 'Z' }

  /** `toLowerCase` restricted to the ASCII letters. */
  function LowerChar(c: char): (r: char)
    ensures IsUpper(c) ==> r as int == c as int + 32
    ensures !IsUpper(c) ==> r == c
    ensures !IsUpper(r)
  {
    if IsUpper(c) then (c as int + 32) as char else c
  }

  function LowerFrom(s: string, i: nat): string
    requires i <= |s|
    decreases |s| - i
  {
    if i == |s| then [] else [LowerChar(s[i])] + LowerFrom(s, i + 1)
  }

  lemma {:induction false} LowerFromSpec(s: string, i: nat)
    requires i <= |s|
    ensures |LowerFrom(s, i)| == |s| - i
    ensures forall k :: 0 <= k < |s| - i ==> LowerFrom(s, i)[k] == LowerChar(s[i + k])
    decreases |s| - i
  {
    if i < |s| {
      LowerFromSpec(s, i + 1);
      var r := LowerFrom(s, i);
      assert r == [LowerChar(s[i])] + LowerFrom(s, i + 1);
      forall k | 0 <= k < |s| - i
        ensures r[k] == LowerChar(s[i + k])
      {
        if k > 0 {
          assert r[k] == LowerFrom(s, i + 1)[k - 1];
        }
      }
    }
  }

  /** `s.toLowerCase()`: same length, every character lowered. */
  function ToLower(s: string): (r: string)
    ensures |r| == |s|
    ensures forall k :: 0 <= k < |s| ==> r[k] == LowerChar(s[k])
  {
    LowerFromSpec(s, 0);
    LowerFrom(s, 0)
  }

  lemma ToLowerConcat(a: string, b: string)
    ensures ToLower(a + b) == ToLower(a) + ToLower(b)
  {
  }

  lemma ToLowerIdempotent(s: string)
    ensures ToLower(ToLower(s)) == ToLower(s)
  {
  }

  function StripFrom(s: string, i: nat): string
    requires i <= |s|
    decreases |s| - i
  {
    if i == |s| then []
    else if IsSpace(s[i]) then StripFrom(s, i + 1)
    else [s[i]] + StripFrom(s, i + 1)
  }

  lemma {:induction false} StripFromSpec(s: string, i: nat)
    requires i <= |s|
    ensures forall c :: c in StripFrom(s, i) <==> c in s[i..] && !IsSpace(c)
    ensures |StripFrom(s, i)| <= |s| - i
    decreases |s| - i
  {
    if i < |s| {
      StripFromSpec(s, i + 1);
      assert s[i..] == [s[i]] + s[i + 1..];
    }
  }

  lemma {:induction false} StripFromOffset(x: string, b: string, j: nat)
    requires j <= |b|
    ensures StripFrom(x + b, |x| + j) == StripFrom(b, j)
    decreases |b| - j
  {
    if j < |b| {
      StripFromOffset(x, b, j + 1);
    }
  }

  lemma {:induction false} StripFromConcat(a: string, b: string, i: nat)
    requires i <= |a|
    ensures StripFrom(a + b, i) == StripFrom(a, i) + StripFrom(b, 0)
    decreases |a| - i
  {
    if i == |a| {
      StripFromOffset(a, b, 0);
    } else {
      StripFromConcat(a, b, i + 1);
    }
  }

  function NotSpace(): char -> bool {
    (c: char) => !IsSpace(c)
  }

  /** The index walk from `i` on is the filter of the suffix from `i`. */
  lemma {:induction false} StripFromFilter(s: string, i: nat)
    requires i <= |s|
    ensures StripFrom(s, i) == Filter(s[i..], NotSpace())
    decreases |s| - i
  {
    if i < |s| {
      StripFromFilter(s, i + 1);
      assert s[i..][0] == s[i] && s[i..][1..] == s[i + 1..];
    }
  }

  /** `s.replace(/\s/g, '')`: the non-space characters of `s`, in order and
      with their repetitions, i.e. `s.filter(c => !/\s/.test(c))`. */
  function StripSpaces(s: string): (r: string)
    ensures r == Filter(s, NotSpace())
    ensures IsSubseq(r, s)
    ensures forall c :: c in r <==> c in s && !IsSpace(c)
    ensures |r| <= |s|
  {
    StripFromSpec(s, 0);
    StripFromFilter(s, 0);
    FilterIsSubseq(s, NotSpace());
    assert s[0..] == s;
    StripFrom(s, 0)
  }

  /** Removing whitespace distributes over concatenation. */
  lemma StripConcat(a: string, b: string)
    ensures StripSpaces(a + b) == StripSpaces(a) + StripSpaces(b)
  {
    StripFromConcat(a, b, 0);
  }

  /** `p` occurs in `s` at position `i`, comparing from offset `j` on. */
  predicate MatchFrom(s: string, p: string, i: nat, j: nat)
    requires i + |p| <= |s| && j <= |p|
    decreases |p| - j
  {
    j == |p| || (s[i + j] == p[j] && MatchFrom(s, p, i, j + 1))
  }

  predicate MatchAt(s: string, p: string, i: nat)
    requires i + |p| <= |s|
  {
    MatchFrom(s, p, i, 0)
  }

  lemma {:induction false} MatchFromSlice(s: string, p: string, i: nat, j: nat)
    requires i + |p| <= |s| && j <= |p|
    ensures MatchFrom(s, p, i, j) <==> s[i + j..i + |p|] == p[j..]
    decreases |p| - j
  {
    if j < |p| {
      MatchFromSlice(s, p, i, j + 1);
      assert s[i + j..i + |p|] == [s[i + j]] + s[i + j + 1..i + |p|];
      assert p[j..] == [p[j]] + p[j + 1..];
    }
  }

  lemma MatchAtSlice(s: string, p: string, i: nat)
    requires i + |p| <= |s|
    ensures MatchAt(s, p, i) <==> s[i..i + |p|] == p
  {
    MatchFromSlice(s, p, i, 0);
  }

  /** `p` occurs in `s` at some position `i` or later. */
  predicate ContainsFrom(s: string, p: string, i: nat)
    decreases |s| - i
  {
    i + |p| <= |s| && (MatchAt(s, p, i) || ContainsFrom(s, p, i + 1))
  }

  /** `s.includes(p)`. */
  predicate Contains(s: string, p: string) {
    ContainsFrom(s, p, 0)
  }

  predicate OccursAt(s: string, p: string, k: int) {
    0 <= k && k + |p| <= |s| && s[k..k + |p|] == p
  }

  lemma {:induction false} ContainsFromOccurs(s: string, p: string, i: nat)
    ensures ContainsFrom(s, p, i) <==> exists k :: i <= k && OccursAt(s, p, k)
    decreases |s| - i
  {
    if i + |p| <= |s| {
      MatchAtSlice(s, p, i);
      ContainsFromOccurs(s, p, i + 1);
      if MatchAt(s, p, i) {
        assert OccursAt(s, p, i);
      }
      if exists k :: i <= k && OccursAt(s, p, k) {
        var k :| i <= k && OccursAt(s, p, k);
        if k > i {
          assert ContainsFrom(s, p, i + 1);
        }
      }
    }
  }

  /** `includes` in the index form: some window of `s` equals `p`. */
  lemma ContainsOccurs(s: string, p: string)
    ensures Contains(s, p) <==> exists k :: OccursAt(s, p, k)
  {
    ContainsFromOccurs(s, p, 0);
  }

  /** Lowering both sides keeps an occurrence: a case-sensitive match is
      also a case-insensitive one. */
  lemma ContainsLower(s: string, p: string)
    requires Contains(s, p)
    ensures Contains(ToLower(s), ToLower(p))
  {
    ContainsOccurs(s, p);
    var k :| OccursAt(s, p, k);
    var ls, lp := ToLower(s), ToLower(p);
    forall j | 0 <= j < |lp|
      ensures ls[k..k + |lp|][j] == lp[j]
    {
      assert s[k..k + |p|][j] == p[j];
    }
    assert OccursAt(ls, lp, k);
    ContainsOccurs(ls, lp);
  }

  lemma ContainsEmpty(s: string)
    ensures Contains(s, "")
  {
    ContainsOccurs(s, "");
    assert OccursAt(s, "", 0);
  }

  lemma ContainsSelf(s: string)
    ensures Contains(s, s)
  {
    ContainsOccurs(s, s);
    assert OccursAt(s, s, 0);
  }

  /** Occurrence is transitive: whatever occurs in `p` occurs in any string
      `p` occurs in. */
  lemma ContainsTransitive(s: string, p: string, q: string)
    requires Contains(s, p) && Contains(p, q)
    ensures Contains(s, q)
  {
    ContainsOccurs(s, p);
    ContainsOccurs(p, q);
    ContainsOccurs(s, q);
    var k :| OccursAt(s, p, k);
    var m :| OccursAt(p, q, m);
    forall t | 0 <= t < |q|
      ensures s[k + m + t] == q[t]
    {
      assert s[k..k + |p|][m + t] == p[m + t];
      assert p[m..m + |q|][t] == q[t];
    }
    assert s[k + m..k + m + |q|] == q;
    assert OccursAt(s, q, k + m);
  }

  lemma ContainsPrefix(a: string, b: string, p: string)
    requires Contains(a, p)
    ensures Contains(a + b, p)
  {
    ContainsOccurs(a, p);
    ContainsOccurs(a + b, p);
    var k :| OccursAt(a, p, k);
    assert (a + b)[k..k + |p|] == a[k..k + |p|];
    assert OccursAt(a + b, p, k);
  }

  lemma ContainsSuffix(a: string, b: string, p: string)
    requires Contains(b, p)
    ensures Contains(a + b, p)
  {
    ContainsOccurs(b, p);
    ContainsOccurs(a + b, p);
    var k :| OccursAt(b, p, k);
    assert (a + b)[|a| + k..|a| + k + |p|] == b[k..k + |p|];
    assert OccursAt(a + b, p, |a| + k);
  }

  /** Every character covered by an occurrence of `p` is a character of `p`. */
  lemma OccurrenceChar(s: string, p: string, k: int, i: int)
    ensures OccursAt(s, p, k) && k <= i < k + |p| ==> s[i] in p
  {
    if OccursAt(s, p, k) && k <= i < k + |p| {
      assert s[k..k + |p|][i - k] == p[i - k];
    }
  }

  /** Every character of an occurring pattern is a character of the text;
      so a text lacking one of `p`'s characters does not contain `p`. */
  lemma ContainsChar(s: string, p: string, c: char)
    ensures c in p && Contains(s, p) ==> c in s
  {
    if c in p && Contains(s, p) {
      ContainsOccurs(s, p);
      var k :| OccursAt(s, p, k);
      var j :| 0 <= j < |p| && p[j] == c;
      assert s[k..k + |p|][j] == c;
      assert s[k + j] == c;
    }
  }

  /** A character that `p` does not use cannot lie inside an occurrence of
      `p`: an occurrence in `a + [c] + b` lies wholly in `a` or in `b`. */
  lemma ContainsAcrossSeparator(a: string, c: char, b: string, p: string)
    ensures c !in p ==> (Contains(a + [c] + b, p) <==> Contains(a, p) || Contains(b, p))
  {
    if c !in p {
      var s := a + [c] + b;
      if Contains(s, p) {
        ContainsOccurs(s, p);
        ContainsOccurs(a, p);
        ContainsOccurs(b, p);
        var k :| OccursAt(s, p, k);
        if k + |p| <= |a| {
          assert s[k..k + |p|] == a[k..k + |p|];
          assert OccursAt(a, p, k);
        } else if k > |a| {
          var m := k - |a| - 1;
          assert s[k..k + |p|] == b[m..m + |p|];
          assert OccursAt(b, p, m);
        } else {
          OccurrenceChar(s, p, k, |a|);
          assert false;
        }
      }
      if Contains(a, p) {
        ContainsPrefix(a, [c] + b, p);
        assert a + ([c] + b) == s;
      }
      if Contains(b, p) {
        ContainsSuffix(a + [c], b, p);
      }
    }
  }

  /** Copies `s` from `i` on, replacing every left-to-right, non-overlapping
      occurrence of `pat` by `rep`. */
  function ReplaceFrom(s: string, pat: string, rep: string, i: nat): string
    requires |pat| > 0 && i <= |s|
    decreases |s| - i
  {
    if i == |s| then []
    else if i + |pat| <= |s| && MatchAt(s, pat, i) then rep + ReplaceFrom(s, pat, rep, i + |pat|)
    else [s[i]] + ReplaceFrom(s, pat, rep, i + 1)
  }

  lemma {:induction false} ReplaceFromAbsent(s: string, pat: string, rep: string, i: nat)
    requires |pat| > 0 && i <= |s|
    ensures !ContainsFrom(s, pat, i) ==> ReplaceFrom(s, pat, rep, i) == s[i..]
    decreases |s| - i
  {
    if i < |s| {
      ReplaceFromAbsent(s, pat, rep, i + 1);
      assert s[i..] == [s[i]] + s[i + 1..];
    }
  }

  lemma {:induction false} MatchFromOffset(x: string, b: string, p: string, j: nat, k: nat)
    requires j + |p| <= |b| && k <= |p|
    ensures MatchFrom(x + b, p, |x| + j, k) == MatchFrom(b, p, j, k)
    decreases |p| - k
  {
    if k < |p| {
      MatchFromOffset(x, b, p, j, k + 1);
    }
  }

  /** Replacing in `x + b` from inside `b` is replacing in `b`. */
  lemma {:induction false} ReplaceFromOffset(x: string, b: string, pat: string, rep: string, j: nat)
    requires |pat| > 0 && j <= |b|
    ensures ReplaceFrom(x + b, pat, rep, |x| + j) == ReplaceFrom(b, pat, rep, j)
    decreases |b| - j
  {
    if j < |b| {
      if j + |pat| <= |b| {
        MatchFromOffset(x, b, pat, j, 0);
        if MatchAt(b, pat, j) {
          ReplaceFromOffset(x, b, pat, rep, j + |pat|);
        } else {
          ReplaceFromOffset(x, b, pat, rep, j + 1);
        }
      } else {
        ReplaceFromOffset(x, b, pat, rep, j + 1);
      }
    }
  }

  lemma {:induction false} MatchFromPrefix(a: string, t: string, p: string, i: nat, k: nat)
    requires i + |p| <= |a| && k <= |p|
    ensures MatchFrom(a + t, p, i, k) == MatchFrom(a, p, i, k)
    decreases |p| - k
  {
    if k < |p| {
      MatchFromPrefix(a, t, p, i, k + 1);
    }
  }

  /** A window that covers a character `p` does not use is no match. */
  lemma {:induction false} MatchFromStraddle(a: string, c: char, b: string, p: string, i: nat, k: nat)
    requires c !in p && i <= |a| < i + |p| && i + |p| <= |a| + 1 + |b| && k <= |a| - i
    ensures !MatchFrom(a + [c] + b, p, i, k)
    decreases |a| - i - k
  {
    var s := a + [c] + b;
    if k < |a| - i {
      MatchFromStraddle(a, c, b, p, i, k + 1);
    } else {
      assert s[i + k] == c;
    }
  }

  /** A character the pattern does not use splits the replacement: no
      occurrence can straddle it. */
  lemma {:induction false} ReplaceFromSeparator(a: string, c: char, b: string, pat: string, rep: string, i: nat)
    requires |pat| > 0 && c !in pat && i <= |a|
    ensures ReplaceFrom(a + [c] + b, pat, rep, i) == ReplaceFrom(a, pat, rep, i) + [c] + ReplaceFrom(b, pat, rep, 0)
    decreases |a| - i, 1
  {
    var s := a + [c] + b;
    if i == |a| {
      if |a| + |pat| <= |s| {
        MatchFromStraddle(a, c, b, pat, i, 0);
      }
      assert s == (a + [c]) + b;
      ReplaceFromOffset(a + [c], b, pat, rep, 0);
      assert ReplaceFrom(s, pat, rep, i) == [c] + ReplaceFrom(s, pat, rep, i + 1);
    } else if i + |pat| <= |a| {
      ReplaceFromSeparatorInside(a, c, b, pat, rep, i);
    } else {
      ReplaceFromSeparatorStraddle(a, c, b, pat, rep, i);
    }
  }

  lemma {:induction false} ReplaceFromSeparatorInside(a: string, c: char, b: string, pat: string, rep: string, i: nat)
    requires |pat| > 0 && c !in pat && i + |pat| <= |a|
    ensures ReplaceFrom(a + [c] + b, pat, rep, i) == ReplaceFrom(a, pat, rep, i) + [c] + ReplaceFrom(b, pat, rep, 0)
    decreases |a| - i, 0
  {
    var t := [c] + b;
    var s := a + t;
    assert s == a + [c] + b;
    var tail := [c] + ReplaceFrom(b, pat, rep, 0);
    MatchFromPrefix(a, t, pat, i, 0);
    if MatchAt(a, pat, i) {
      ReplaceFromSeparator(a, c, b, pat, rep, i + |pat|);
      assert ReplaceFrom(s, pat, rep, i) == rep + ReplaceFrom(s, pat, rep, i + |pat|);
      assert ReplaceFrom(a, pat, rep, i) == rep + ReplaceFrom(a, pat, rep, i + |pat|);
    } else {
      ReplaceFromSeparator(a, c, b, pat, rep, i + 1);
      assert ReplaceFrom(s, pat, rep, i) == [a[i]] + ReplaceFrom(s, pat, rep, i + 1);
      assert ReplaceFrom(a, pat, rep, i) == [a[i]] + ReplaceFrom(a, pat, rep, i + 1);
    }
  }

  lemma {:induction false} ReplaceFromSeparatorStraddle(a: string, c: char, b: string, pat: string, rep: string, i: nat)
    requires |pat| > 0 && c !in pat && i < |a| < i + |pat|
    ensures ReplaceFrom(a + [c] + b, pat, rep, i) == ReplaceFrom(a, pat, rep, i) + [c] + ReplaceFrom(b, pat, rep, 0)
    decreases |a| - i, 0
  {
    var s := a + [c] + b;
    var rb := ReplaceFrom(b, pat, rep, 0);
    if i + |pat| <= |s| {
      MatchFromStraddle(a, c, b, pat, i, 0);
    }
    assert s[i] == a[i];
    var ra := ReplaceFrom(a, pat, rep, i + 1);
    var rs := ReplaceFrom(s, pat, rep, i + 1);
    assert ReplaceFrom(s, pat, rep, i) == [a[i]] + rs;
    assert ReplaceFrom(a, pat, rep, i) == [a[i]] + ra;
    ReplaceFromSeparator(a, c, b, pat, rep, i + 1);
    assert rs == ra + [c] + rb;
    assert [a[i]] + (ra + [c] + rb) == [a[i]] + ra + [c] + rb;
  }

  lemma ReplaceAllSeparator(a: string, c: char, b: string, pat: string, rep: string)
    requires |pat| > 0 && c !in pat
    ensures ReplaceAll(a + [c] + b, pat, rep) == ReplaceAll(a, pat, rep) + [c] + ReplaceAll(b, pat, rep)
  {
    ReplaceFromSeparator(a, c, b, pat, rep, 0);
  }

  /** `s.replace(/pat/g, rep)` for a literal, non-empty pattern. */
  function ReplaceAll(s: string, pat: string, rep: string): (r: string)
    requires |pat| > 0
    ensures !Contains(s, pat) ==> r == s
  {
    ReplaceFromAbsent(s, pat, rep, 0);
    ReplaceFrom(s, pat, rep, 0)
  }

  function TrimStart(s: string): (r: string)
    ensures |r| <= |s| && r == s[|s| - |r|..]
    ensures |r| > 0 ==> !IsSpace(r[0])
    ensures forall k :: 0 <= k < |s| - |r| ==> IsSpace(s[k])
  {
    if |s| > 0 && IsSpace(s[0]) then TrimStart(s[1..]) else s
  }

  function TrimEnd(s: string): (r: string)
    ensures |r| <= |s| && r == s[..|r|]
    ensures |r| > 0 ==> !IsSpace(r[|r| - 1])
    ensures forall k :: |r| <= k < |s| ==> IsSpace(s[k])
  {
    if |s| > 0 && IsSpace(s[|s| - 1]) then TrimEnd(s[..|s| - 1]) else s
  }

  /** `r` is the window of `s` starting at `i`, and everything outside it is
      whitespace. */
  predicate TrimWindow(s: string, r: string, i: int) {
    && 0 <= i <= |s| - |r|
    && r == s[i..i + |r|]
    && (forall k :: 0 <= k < i ==> IsSpace(s[k]))
    && (forall k :: i + |r| <= k < |s| ==> IsSpace(s[k]))
  }

  /** `s.trim()`: the longest window of `s` that neither starts nor ends with
      whitespace, everything outside it being whitespace. */
  function Trim(s: string): (r: string)
    ensures exists i :: TrimWindow(s, r, i)
    ensures |r| > 0 ==> !IsSpace(r[0]) && !IsSpace(r[|r| - 1])
  {
    var t := TrimStart(s);
    var r := TrimEnd(t);
    var i := |s| - |t|;
    assert TrimWindow(s, r, i);
    r
  }

  /** A string with no whitespace at either end is its own trim. */
  lemma TrimNoEdgeSpace(s: string)
    requires |s| > 0 ==> !IsSpace(s[0]) && !IsSpace(s[|s| - 1])
    ensures Trim(s) == s
  {
  }

  /** A string trims to '' exactly when it is all whitespace. */
  lemma TrimBlank(s: string)
    ensures Trim(s) == "" <==> forall k :: 0 <= k < |s| ==> IsSpace(s[k])
  {
    var r := Trim(s);
    var i :| TrimWindow(s, r, i);
    if r != "" {
      assert s[i] == r[0];
    }
  }

  /** `s.length`: ECMAScript strings count UTF-16 code units, so a
      character outside the Basic Multilingual Plane counts twice. */
  function Utf16Length(s: string): (n: nat)
    ensures |s| <= n <= 2 * |s|
  {
    if |s| == 0 then 0
    else (if s[0] as int > 0xFFFF then 2 else 1) + Utf16Length(s[1..])
  }

  /** The ECMAScript `a < b` on strings: lexicographic, a proper prefix
      ordering first. ECMAScript compares UTF-16 code units and this compares
      characters (code points); the two orders agree unless a character
      above U+FFFF meets one in U+E000..U+FFFF, which never happens for the
      "yyyy-MM-dd" days the application compares. */
  predicate LexLess(a: string, b: string)
    decreases |a|
  {
    if |b| == 0 then false
    else if |a| == 0 then true
    else if a[0] != b[0] then a[0] < b[0]
    else LexLess(a[1..], b[1..])
  }

  lemma {:induction false} LexLessIrreflexive(a: string)
    ensures !LexLess(a, a)
    decreases |a|
  {
    if |a| > 0 {
      LexLessIrreflexive(a[1..]);
    }
  }

  lemma {:induction false} LexLessTransitive(a: string, b: string, c: string)
    requires LexLess(a, b) && LexLess(b, c)
    ensures LexLess(a, c)
    decreases |a|
  {
    if |a| > 0 && a[0] == b[0] && b[0] == c[0] {
      LexLessTransitive(a[1..], b[1..], c[1..]);
    }
  }

  lemma {:induction false} LexLessTotal(a: string, b: string)
    ensures a == b || LexLess(a, b) || LexLess(b, a)
    decreases |a|
  {
    if |a| > 0 && |b| > 0 && a[0] == b[0] {
      LexLessTotal(a[1..], b[1..]);
      if a[1..] == b[1..] {
        assert a == [a[0]] + a[1..] && b == [b[0]] + b[1..];
      }
    }
  }
}
