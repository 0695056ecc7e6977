/** The few Python string operations that hosted.py relies on, over `seq<char>`. */
module Text {

  /** Python's `str.isspace()` for one character. */
  predicate IsSpace(c: char) {
    c == ' ' || ('\t' <= c <= '\r') || ('\U{1c}' <= c <= '\U{1f}') || c == '\U{85}' || c == '\U{a0}'
    || c == '\U{1680}' || ('\U{2000}' <= c <= '\U{200a}') || c == '\U{2028}' || c == '\U{2029}'
    || c == '\U{202f}' || c == '\U{205f}' || c == '\U{3000}'
  }

  predicate IsUpper(c: char) { 'A' <= c <= 'Z' }

  /** `c.lower()` for one character; only the ASCII letters are mapped. */
  function ToLower(c: char): (d: char)
    ensures !IsUpper(d)
    ensures IsUpper(c) ==> d as int == c as int + 32
    ensures !IsUpper(c) ==> d == c
  {
    if IsUpper(c) then (c as int + 32) as char else c
  }

  /** Where the whitespace run of `s` starting at `i` ends (the scan of `lstrip()`). */
  function SkipSpace(s: string, i: nat): (n: nat)
    requires i <= |s|
    ensures i <= n <= |s|
    ensures forall k :: i <= k < n ==> IsSpace(s[k])
    ensures n < |s| ==> !IsSpace(s[n])
    decreases |s| - i
  {
    if i < |s| && IsSpace(s[i]) then SkipSpace(s, i + 1) else i
  }

  /** Where the whitespace run of `s` ending at `j` begins, not going below `lo` (the scan of `rstrip()`). */
  function SkipSpaceBack(s: string, lo: nat, j: nat): (m: nat)
    requires lo <= j <= |s|
    ensures lo <= m <= j
    ensures forall k :: m <= k < j ==> IsSpace(s[k])
    ensures m > lo ==> !IsSpace(s[m - 1])
    decreases j - lo
  {
    if j > lo && IsSpace(s[j - 1]) then SkipSpaceBack(s, lo, j - 1) else j
  }

  /** `s.strip()`: the slice of `s` left after removing only whitespace from both ends. */
  function Strip(s: string): (r: string)
    ensures |r| <= |s|
    ensures r == [] <==> forall i :: 0 <= i < |s| ==> IsSpace(s[i])
    ensures |r| > 0 ==> !IsSpace(r[0]) && !IsSpace(r[|r| - 1])
    ensures exists i, j ::
              && 0 <= i <= j <= |s| && r == s[i..j]
              && (forall k :: 0 <= k < i ==> IsSpace(s[k]))
              && (forall k :: j <= k < |s| ==> IsSpace(s[k]))
  {
    var i := SkipSpace(s, 0);
    var j := SkipSpaceBack(s, i, |s|);
    assert j > i ==> s[i..j][0] == s[i] && s[i..j][j - i - 1] == s[j - 1];
    s[i..j]
  }

  /** Stripping a string that neither starts nor ends with whitespace changes nothing. */
  lemma StripUnchanged(s: string)
    requires |s| > 0 && !IsSpace(s[0]) && !IsSpace(s[|s| - 1])
    ensures Strip(s) == s
  {
    assert SkipSpace(s, 0) == 0;
  }

  /** `[c.lower()] + s[1:]` on a non-empty string. */
  function LowerFirst(s: string): (r: string)
    requires |s| > 0
    ensures |r| == |s| && r[1..] == s[1..] && !IsUpper(r[0])
    ensures IsUpper(s[0]) ==> r[0] as int == s[0] as int + 32
    ensures !IsUpper(s[0]) ==> r == s
  {
    [ToLower(s[0])] + s[1..]
  }

  predicate StartsWith(s: string, p: string) {
    |p| <= |s| && s[..|p|] == p
  }

  /** `p` occurs in `s` starting at index `i`. */
  predicate OccursAt(s: string, p: string, i: nat) {
    i + |p| <= |s| && s[i..i + |p|] == p
  }

  /** Python's `p in s`, scanning from the left. */
  predicate Contains(s: string, p: string)
    ensures Contains(s, p) ==> |p| <= |s|
  {
    StartsWith(s, p) || (|s| > 0 && Contains(s[1..], p))
  }

  /** `Contains` holds exactly when `p` occurs at some index of `s`. */
  lemma {:induction false} ContainsIff(s: string, p: string)
    ensures Contains(s, p) <==> exists i: nat :: OccursAt(s, p, i)
  {
    if StartsWith(s, p) {
      assert OccursAt(s, p, 0);
    } else if |s| > 0 {
      ContainsIff(s[1..], p);
      if Contains(s[1..], p) {
        var i: nat :| OccursAt(s[1..], p, i);
        assert s[i + 1..i + 1 + |p|] == s[1..][i..i + |p|];
        assert OccursAt(s, p, i + 1);
      } else {
        forall i: nat | i + |p| <= |s|
          ensures !OccursAt(s, p, i)
        {
          if i > 0 {
            assert !OccursAt(s[1..], p, i - 1);
            assert s[1..][i - 1..i - 1 + |p|] == s[i..i + |p|];
          } else {
            assert s[0..|p|] == s[..|p|];
          }
        }
      }
    }
  }

  /** An occurrence at a known index is found by `Contains`. */
  lemma ContainsAt(s: string, p: string, i: nat)
    requires OccursAt(s, p, i)
    ensures Contains(s, p)
  {
    ContainsIff(s, p);
  }

  /** A string lacking the first character of `p` does not contain `p`. */
  lemma {:induction false} MissingFirstCharacter(s: string, p: string)
    requires |p| > 0 && p[0] !in s
    ensures !Contains(s, p)
  {
    if |s| > 0 {
      assert s[0] != p[0];
      MissingFirstCharacter(s[1..], p);
    }
  }

  /** Python's `s.replace(p, r)` for a non-empty `p`: every non-overlapping occurrence, leftmost first. */
  function Replace(s: string, p: string, r: string): string
    requires |p| > 0
  {
    if |s| < |p| then s
    else if s[..|p|] == p then r + Replace(s[|p|..], p, r)
    else [s[0]] + Replace(s[1..], p, r)
  }

  /** When `p` does not occur, nothing is replaced. */
  lemma {:induction false} ReplaceAbsent(s: string, p: string, r: string)
    requires |p| > 0 && !Contains(s, p)
    ensures Replace(s, p, r) == s
  {
    if |s| >= |p| {
      ReplaceAbsent(s[1..], p, r);
      assert [s[0]] + s[1..] == s;
    }
  }

  /** Replacing a pattern by itself gives the string back. */
  lemma {:induction false} ReplaceSelf(s: string, p: string)
    requires |p| > 0
    ensures Replace(s, p, p) == s
  {
    if |s| >= |p| {
      if s[..|p|] == p {
        ReplaceSelf(s[|p|..], p);
        assert s[..|p|] + s[|p|..] == s;
      } else {
        ReplaceSelf(s[1..], p);
        assert [s[0]] + s[1..] == s;
      }
    }
  }

  /** None of the characters of `b` occurs in `p`. */
  predicate Disjoint(b: string, p: string) {
    forall i :: 0 <= i < |b| ==> b[i] !in p
  }

  /** A string made of characters foreign to `p` is left alone by `Replace`. */
  lemma {:induction false} ReplaceForeign(b: string, p: string, r: string)
    requires |p| > 0 && Disjoint(b, p)
    ensures Replace(b, p, r) == b
  {
    if |b| >= |p| {
      assert b[..|p|][0] == b[0] && b[0] !in p;
      ReplaceForeign(b[1..], p, r);
      assert [b[0]] + b[1..] == b;
    }
  }

  /** A suffix of characters foreign to `p` cannot take part in a match, so it passes through unchanged. */
  lemma {:induction false} ReplaceForeignSuffix(a: string, b: string, p: string, r: string)
    requires |p| > 0 && Disjoint(b, p)
    ensures Replace(a + b, p, r) == Replace(a, p, r) + b
  {
    var s := a + b;
    if |a| == 0 {
      assert s == b;
      ReplaceForeign(b, p, r);
    } else if |s| < |p| {
    } else if |a| < |p| {
      assert s[..|p|] != p by {
        assert s[..|p|][|a|] == b[0];
      }
      assert s[1..] == a[1..] + b;
      ReplaceForeignSuffix(a[1..], b, p, r);
      assert [a[0]] + a[1..] == a;
    } else if s[..|p|] == p {
      assert a[..|p|] == p;
      assert s[|p|..] == a[|p|..] + b;
      ReplaceForeignSuffix(a[|p|..], b, p, r);
    } else {
      assert s[1..] == a[1..] + b;
      ReplaceForeignSuffix(a[1..], b, p, r);
      assert a[..|p|] == s[..|p|];
    }
  }

  /** Characters foreign to `p` in front of a text without `p` do not create an occurrence. */
  lemma {:induction false} ForeignPrefixKeepsAbsent(a: string, x: string, p: string)
    requires |p| > 0 && Disjoint(a, p) && !Contains(x, p)
    ensures !Contains(a + x, p)
  {
    if |a| > 0 {
      assert (a + x)[0] == a[0] && a[0] !in p;
      assert (a + x)[1..] == a[1..] + x;
      ForeignPrefixKeepsAbsent(a[1..], x, p);
    } else {
      assert a + x == x;
    }
  }

  /** Made only of characters of `p`. */
  predicate Within(q: string, p: string) {
    forall i :: 0 <= i < |q| ==> q[i] in p
  }

  /** Where the input starts with `p`, the result starts with the replacement. */
  lemma MatchStartsWithReplacement(s: string, p: string, r: string, q: string)
    requires |p| > 0 && |r| > 0 && |s| >= |p| && s[..|p|] == p
    requires |q| > 0 && StartsWith(Replace(s, p, r), q)
    ensures q[0] == r[0]
  {
    assert Replace(s, p, r) == r + Replace(s[|p|..], p, r);
    assert q[0] == Replace(s, p, r)[..|q|][0];
  }

  /**
   * With a non-empty replacement foreign to `p`, a prefix of the result made only of
   * characters of `p` was copied unchanged from the front of the input.
   */
  lemma {:induction false} WithinPrefixCopied(s: string, p: string, r: string, q: string)
    requires |p| > 0 && |r| > 0 && Disjoint(r, p) && Within(q, p)
    requires StartsWith(Replace(s, p, r), q)
    ensures StartsWith(s, q)
  {
    if |s| >= |p| && |q| > 0 {
      if s[..|p|] == p {
        MatchStartsWithReplacement(s, p, r, q);
        assert false;
      } else {
        var rest := Replace(s[1..], p, r);
        assert Replace(s, p, r) == [s[0]] + rest;
        assert StartsWith(rest, q[1..]) by {
          assert rest[..|q| - 1] == Replace(s, p, r)[1..|q|];
        }
        WithinPrefixCopied(s[1..], p, r, q[1..]);
        assert q[0] == Replace(s, p, r)[..|q|][0] == s[0];
        forall k | 1 <= k < |q| ensures s[k] == q[k] {
          assert s[1..][..|q| - 1][k - 1] == q[1..][k - 1];
        }
      }
    }
  }

  /** With a non-empty replacement foreign to `p`, no occurrence of `p` is left after `Replace`. */
  lemma {:induction false} ReplaceRemovesAll(s: string, p: string, r: string)
    requires |p| > 0 && |r| > 0 && Disjoint(r, p)
    ensures !Contains(Replace(s, p, r), p)
  {
    if |s| < |p| {
    } else if s[..|p|] == p {
      ReplaceRemovesAll(s[|p|..], p, r);
      ForeignPrefixKeepsAbsent(r, Replace(s[|p|..], p, r), p);
    } else {
      var rest := Replace(s[1..], p, r);
      ReplaceRemovesAll(s[1..], p, r);
      assert Replace(s, p, r)[1..] == rest;
      if StartsWith(Replace(s, p, r), p) {
        assert p[0] == s[0];
        assert StartsWith(rest, p[1..]) by {
          assert rest[..|p| - 1] == Replace(s, p, r)[1..|p|];
        }
        assert Within(p[1..], p) by {
          forall i | 0 <= i < |p| - 1 ensures p[1..][i] in p { assert p[1..][i] == p[i + 1]; }
        }
        WithinPrefixCopied(s[1..], p, r, p[1..]);
      }
    }
  }

  /** Every occurrence of `c` in `s` begins an occurrence of `p`. */
  predicate OnlyStartsPattern(s: string, c: char, p: string) {
    forall i :: 0 <= i < |s| && s[i] == c ==> OccursAt(s, p, i)
  }

  /**
   * If the first character of `p` occurs in `s` only where `p` begins, in `p` only at its
   * start, and not in `r`, then it does not occur in the result of `Replace` at all.
   */
  lemma {:induction false} ReplaceClearsFirstCharacter(s: string, p: string, r: string)
    requires |p| > 0 && p[0] !in p[1..] && p[0] !in r && OnlyStartsPattern(s, p[0], p)
    ensures p[0] !in Replace(s, p, r)
  {
    if |s| < |p| {
      assert p[0] !in s;
    } else if s[..|p|] == p {
      var t := s[|p|..];
      assert OnlyStartsPattern(t, p[0], p) by {
        forall i | 0 <= i < |t| && t[i] == p[0] ensures OccursAt(t, p, i) {
          assert s[i + |p|] == t[i] == p[0];
          assert OccursAt(s, p, i + |p|);
          assert t[i..i + |p|] == s[i + |p|..i + |p| + |p|];
        }
      }
      ReplaceClearsFirstCharacter(t, p, r);
    } else {
      var t := s[1..];
      assert s[0] != p[0];
      assert OnlyStartsPattern(t, p[0], p) by {
        forall i | 0 <= i < |t| && t[i] == p[0] ensures OccursAt(t, p, i) {
          assert s[i + 1] == t[i] == p[0];
          assert OccursAt(s, p, i + 1);
          assert t[i..i + |p|] == s[i + 1..i + 1 + |p|];
        }
      }
      ReplaceClearsFirstCharacter(t, p, r);
    }
  }
}
