/**
 * The JavaScript string operations the detection pipeline relies on:
 * lower-casing, `trim`, `slice(-n)`, `includes`, and the global literal
 * match used to count safe words (components/AIDetector.tsx).
 */
module Text {
  import opened Types

  // ---------------------------------------------------------------------
  // Case folding
  // ---------------------------------------------------------------------

  /** `toLowerCase` on one character; only the ASCII letters are folded. */
  function LowerChar(c: char): (r: char)
    ensures 'A' <= c <= 'Z' ==> 'a' <= r <= 'z' && r as int == c as int + 32
    ensures !('A' <= c <= 'Z') ==> r == c
  {
    if 'A' <= c <= 'Z' then (c as int + 32) as char else c
  }

  function ToLower(s: string): (r: string)
    ensures |r| == |s|
    ensures forall i :: 0 <= i < |s| ==> r[i] == LowerChar(s[i])
  {
    if s == [] then [] else [LowerChar(s[0])] + ToLower(s[1..])
  }

  lemma ToLowerConcat(a: string, b: string)
    ensures ToLower(a + b) == ToLower(a) + ToLower(b)
  {
    var l, r := ToLower(a + b), ToLower(a) + ToLower(b);
    assert |l| == |r|;
    forall i | 0 <= i < |l| ensures l[i] == r[i] {
      if i < |a| { assert (a + b)[i] == a[i]; } else { assert (a + b)[i] == b[i - |a|]; }
    }
  }

  /** Folding twice is folding once: a lower-cased safe word is its own lower case. */
  lemma ToLowerIdempotent(s: string)
    ensures ToLower(ToLower(s)) == ToLower(s)
  {
    var once := ToLower(s);
    var twice := ToLower(once);
    forall i | 0 <= i < |s| ensures twice[i] == once[i] {
      assert once[i] == LowerChar(s[i]);
    }
  }

  // ---------------------------------------------------------------------
  // Whitespace and trim
  // ---------------------------------------------------------------------

  /** The characters ECMAScript `trim` removes (WhiteSpace and LineTerminator). */
  predicate IsSpace(c: char) {
    var n := c as int;
    n == 0x09 || n == 0x0A || n == 0x0B || n == 0x0C || n == 0x0D || n == 0x20 ||
    n == 0xA0 || n == 0x1680 || (0x2000 <= n <= 0x200A) || n == 0x2028 || n == 0x2029 ||
    n == 0x202F || n == 0x205F || n == 0x3000 || n == 0xFEFF
  }

  function TrimStart(s: string): (r: string)
    ensures |r| <= |s| && r == s[|s| - |r|..]
    ensures forall i :: 0 <= i < |s| - |r| ==> IsSpace(s[i])
    ensures r == [] || !IsSpace(r[0])
  {
    if s != [] && IsSpace(s[0]) then TrimStart(s[1..]) else s
  }

  function TrimEnd(s: string): (r: string)
    ensures |r| <= |s| && r == s[..|r|]
    ensures forall i :: |r| <= i < |s| ==> IsSpace(s[i])
    ensures r == [] || !IsSpace(r[|r| - 1])
  {
    if s != [] && IsSpace(s[|s| - 1]) then TrimEnd(s[..|s| - 1]) else s
  }

  /** r is s from position k on, with only whitespace before it and after it. */
  predicate TrimmedAt(s: string, r: string, k: nat) {
    && k + |r| <= |s| && r == s[k..k + |r|]
    && (forall i :: 0 <= i < k ==> IsSpace(s[i]))
    && (forall i :: k + |r| <= i < |s| ==> IsSpace(s[i]))
  }

  /** `String.prototype.trim`: exactly the leading and trailing whitespace is removed. */
  function Trim(s: string): (r: string)
    ensures exists k :: TrimmedAt(s, r, k)
    ensures r == [] || (!IsSpace(r[0]) && !IsSpace(r[|r| - 1]))
  {
    var t := TrimStart(s);
    var r := TrimEnd(t);
    assert TrimmedAt(s, r, |s| - |t|) by {
      assert r == t[..|r|];
      assert s[|s| - |t|..][..|r|] == s[|s| - |t|..|s| - |t| + |r|];
      forall i | |s| - |t| + |r| <= i < |s| ensures IsSpace(s[i]) {
        assert s[i] == t[i - (|s| - |t|)];
      }
    }
    r
  }

  /** `s.slice(-n)` for n > 0: the last n characters, or all of s when it is shorter. */
  function TakeLast(s: string, n: nat): (r: string)
    ensures |r| == if |s| <= n then |s| else n
    ensures r == s[|s| - |r|..]
  {
    if |s| <= n then s else s[|s| - n..]
  }

  // ---------------------------------------------------------------------
  // Substring search
  // ---------------------------------------------------------------------

  /** The head and tail of a concatenation with a non-empty left part. */
  lemma ConcatTail<T>(a: seq<T>, b: seq<T>)
    requires a != []
    ensures (a + b)[0] == a[0] && (a + b)[1..] == a[1..] + b
  {
  }

  lemma ConcatAssoc<T>(x: seq<T>, y: seq<T>, z: seq<T>)
    ensures x + (y + z) == (x + y) + z
  {
  }

  predicate OccursAt(s: string, w: string, i: nat) {
    i + |w| <= |s| && s[i..i + |w|] == w
  }

  /** `s.includes(w)`: w occurs somewhere in s (the empty string occurs everywhere). */
  predicate Contains(s: string, w: string) {
    exists i :: 0 <= i <= |s| - |w| && OccursAt(s, w, i)
  }

  lemma ContainsAppend(a: string, b: string, w: string)
    requires Contains(a, w)
    ensures Contains(a + b, w) && Contains(b + a, w)
  {
    var i :| 0 <= i <= |a| - |w| && OccursAt(a, w, i);
    assert (a + b)[i..i + |w|] == a[i..i + |w|];
    assert OccursAt(a + b, w, i);
    assert (b + a)[|b| + i..|b| + i + |w|] == a[i..i + |w|];
    assert OccursAt(b + a, w, |b| + i);
  }

  lemma ContainsLower(a: string, w: string)
    requires Contains(a, w)
    ensures Contains(ToLower(a), ToLower(w))
  {
    var i :| 0 <= i <= |a| - |w| && OccursAt(a, w, i);
    var la, lw := ToLower(a), ToLower(w);
    forall k | 0 <= k < |w| ensures la[i + k] == lw[k] {
      assert a[i + k] == w[k];
    }
    assert la[i..i + |w|] == lw;
    assert OccursAt(la, lw, i);
  }

  /**
   * Trimming never destroys an occurrence of a word that begins and ends
   * with a non-space character.
   */
  lemma TrimKeepsWord(s: string, w: string, p: nat)
    requires OccursAt(s, w, p) && w != []
    requires !IsSpace(w[0]) && !IsSpace(w[|w| - 1])
    ensures Contains(Trim(s), w)
  {
    var t := TrimStart(s);
    TrimStartKeepsWord(s, w, p);
    var q := p - (|s| - |t|);
    TrimEndKeepsWord(t, w, q);
    assert OccursAt(Trim(s), w, q);
  }

  /** Leading whitespace ends before a word that starts with a non-space character. */
  lemma TrimStartKeepsWord(s: string, w: string, p: nat)
    requires OccursAt(s, w, p) && w != [] && !IsSpace(w[0])
    ensures |s| - |TrimStart(s)| <= p
    ensures OccursAt(TrimStart(s), w, p - (|s| - |TrimStart(s)|))
  {
    WordAfterSpaces(s, TrimStart(s), w, p);
  }

  /** A word that starts with a non-space character survives dropping an all-space prefix. */
  lemma WordAfterSpaces(s: string, t: string, w: string, p: nat)
    requires |t| <= |s| && t == s[|s| - |t|..]
    requires forall i :: 0 <= i < |s| - |t| ==> IsSpace(s[i])
    requires OccursAt(s, w, p) && w != [] && !IsSpace(w[0])
    ensures |s| - |t| <= p && OccursAt(t, w, p - (|s| - |t|))
  {
    var k := |s| - |t|;
    assert s[p] == w[0] by {
      assert s[p..p + |w|][0] == s[p];
    }
    NonSpaceAfterPrefix(s, k, p);
    SliceOfSuffix(s, k, p - k, |w|);
  }

  /** A slice of a suffix is the corresponding slice of the whole sequence. */
  lemma SliceOfSuffix(s: string, k: nat, a: nat, n: nat)
    requires k + a + n <= |s|
    ensures s[k..][a..a + n] == s[k + a..k + a + n]
  {
  }

  /** A non-space character lies after every position of an all-space prefix. */
  lemma NonSpaceAfterPrefix(s: string, k: nat, p: nat)
    requires k <= |s| && p < |s| && !IsSpace(s[p])
    requires forall i :: 0 <= i < k ==> IsSpace(s[i])
    ensures k <= p
  {
  }

  /** Trailing whitespace starts after a word that ends with a non-space character. */
  lemma TrimEndKeepsWord(t: string, w: string, q: nat)
    requires OccursAt(t, w, q) && w != [] && !IsSpace(w[|w| - 1])
    ensures OccursAt(TrimEnd(t), w, q)
  {
    var e := TrimEnd(t);
    assert t[q + |w| - 1] == w[|w| - 1] by {
      assert t[q..q + |w|][|w| - 1] == t[q + |w| - 1];
    }
    assert q + |w| <= |e|;
    assert e[q..q + |w|] == t[q..q + |w|];
  }

  /** Trimming a text padded with one space on each side gives the text back. */
  lemma TrimOfPadded(t: string)
    requires t != [] && !IsSpace(t[0]) && !IsSpace(t[|t| - 1])
    ensures Trim(" " + t + " ") == t
  {
    assert TrimStart(" " + t + " ") == t + " " by {
      assert (" " + t + " ")[1..] == t + " ";
    }
    assert TrimEnd(t + " ") == t by {
      assert (t + " ")[..|t|] == t;
    }
  }

  // ---------------------------------------------------------------------
  // Literal, non-overlapping, left-to-right counting
  // ---------------------------------------------------------------------

  /**
   * The number of matches `s.match(new RegExp(w, 'g'))` returns for a
   * pattern that denotes the literal w: scanning from the left, a match
   * consumes |w| characters, a miss consumes one.
   */
  function CountMatches(s: string, w: string): (n: nat)
    requires w != []
    ensures n <= |s|
    decreases |s|
  {
    if |s| < |w| then 0
    else if w <= s then 1 + CountMatches(s[|w|..], w)
    else CountMatches(s[1..], w)
  }

  /** The greedy count is positive exactly when the word occurs at all. */
  lemma {:induction false} CountPositiveIffContains(s: string, w: string)
    requires w != []
    ensures CountMatches(s, w) > 0 <==> Contains(s, w)
    decreases |s|
  {
    if |s| < |w| {
    } else if w <= s {
      assert s[0..|w|] == w;
      assert OccursAt(s, w, 0);
    } else {
      CountPositiveIffContains(s[1..], w);
      assert !OccursAt(s, w, 0);
      ContainsPastHead(s, w);
    }
  }

  /** A word that does not occur at the head occurs in s exactly when it occurs in s without its first character. */
  lemma ContainsPastHead(s: string, w: string)
    requires s != [] && !OccursAt(s, w, 0)
    ensures Contains(s, w) <==> Contains(s[1..], w)
  {
    if Contains(s, w) {
      var i :| 0 <= i <= |s| - |w| && OccursAt(s, w, i);
      assert i > 0;
      assert s[1..][i - 1..i - 1 + |w|] == s[i..i + |w|];
      assert OccursAt(s[1..], w, i - 1);
    }
    if Contains(s[1..], w) {
      var i :| 0 <= i <= |s[1..]| - |w| && OccursAt(s[1..], w, i);
      assert s[i + 1..i + 1 + |w|] == s[1..][i..i + |w|];
      assert OccursAt(s, w, i + 1);
    }
  }

  /** A text that starts with the word counts it once and continues after it. */
  lemma CountLeadingWord(w: string, s: string)
    requires w != []
    ensures CountMatches(w + s, w) == 1 + CountMatches(s, w)
  {
    assert w <= w + s;
    assert (w + s)[|w|..] == s;
  }

  /** A leading character that cannot start the word is skipped. */
  lemma CountSkipChar(c: char, s: string, w: string)
    requires w != [] && c != w[0]
    ensures CountMatches([c] + s, w) == CountMatches(s, w)
  {
    assert ([c] + s)[1..] == s;
    if |[c] + s| >= |w| {
      assert !(w <= [c] + s) by { assert ([c] + s)[0] != w[0]; }
    } else {
      CountBoundedByLength(s, w);
    }
  }

  lemma CountBoundedByLength(s: string, w: string)
    requires w != [] && |s| < |w|
    ensures CountMatches(s, w) == 0
  {
  }

  /** An example of the greedy scan: in "aaa" the word "aa" is found once. */
  lemma OverlapExample()
    ensures CountMatches("aaa", "aa") == 1
  {
    assert "aa" <= "aaa";
    assert "aaa"[2..] == "a";
  }

  /** ps lists occurrences of w in s, each starting at or after the end of every earlier one. */
  predicate Disjoint(s: string, w: string, ps: seq<nat>) {
    && (forall i :: 0 <= i < |ps| ==> OccursAt(s, w, ps[i]))
    && (forall i, j :: 0 <= i < j < |ps| ==> ps[i] + |w| <= ps[j])
  }

  /** Every position moved right by d. */
  function Shift(ps: seq<nat>, d: nat): (qs: seq<nat>)
    ensures |qs| == |ps| && forall i :: 0 <= i < |ps| ==> qs[i] == ps[i] + d
  {
    seq(|ps|, i requires 0 <= i < |ps| => ps[i] + d)
  }

  /** Every position moved left by d. */
  function Unshift(ps: seq<nat>, d: nat): (qs: seq<nat>)
    requires forall i :: 0 <= i < |ps| ==> d <= ps[i]
    ensures |qs| == |ps| && forall i :: 0 <= i < |ps| ==> qs[i] == ps[i] - d
  {
    seq(|ps|, i requires 0 <= i < |ps| => ps[i] - d)
  }

  /** The positions the greedy scan of CountMatches finds, from the left. */
  function MatchPositions(s: string, w: string): seq<nat>
    requires w != []
    decreases |s|
  {
    if |s| < |w| then []
    else if w <= s then [0] + Shift(MatchPositions(s[|w|..], w), |w|)
    else Shift(MatchPositions(s[1..], w), 1)
  }

  lemma OccursInSuffix(s: string, w: string, d: nat, p: nat)
    requires d <= |s|
    ensures OccursAt(s[d..], w, p) <==> OccursAt(s, w, p + d)
  {
    if p + |w| <= |s| - d {
      assert s[d..][p..p + |w|] == s[p + d..p + d + |w|];
    }
  }

  /** Occurrences in a suffix are occurrences in the whole text. */
  lemma ShiftDisjoint(s: string, w: string, ps: seq<nat>, d: nat)
    requires d <= |s| && Disjoint(s[d..], w, ps)
    ensures Disjoint(s, w, Shift(ps, d))
  {
    var qs := Shift(ps, d);
    forall i | 0 <= i < |qs| ensures OccursAt(s, w, qs[i]) {
      OccursInSuffix(s, w, d, ps[i]);
    }
  }

  /** Occurrences at or after d are occurrences in the suffix from d. */
  lemma UnshiftDisjoint(s: string, w: string, ps: seq<nat>, d: nat)
    requires d <= |s| && Disjoint(s, w, ps)
    requires forall i :: 0 <= i < |ps| ==> d <= ps[i]
    ensures Disjoint(s[d..], w, Unshift(ps, d))
  {
    var qs := Unshift(ps, d);
    forall i | 0 <= i < |qs| ensures OccursAt(s[d..], w, qs[i]) {
      OccursInSuffix(s, w, d, qs[i]);
    }
  }

  /** The greedy scan finds CountMatches(s, w) occurrences, none overlapping another. */
  lemma {:induction false} MatchPositionsAreDisjoint(s: string, w: string)
    requires w != []
    ensures Disjoint(s, w, MatchPositions(s, w)) && |MatchPositions(s, w)| == CountMatches(s, w)
    decreases |s|
  {
    if |s| < |w| {
    } else if w <= s {
      var rest := MatchPositions(s[|w|..], w);
      MatchPositionsAreDisjoint(s[|w|..], w);
      ShiftDisjoint(s, w, rest, |w|);
      HeadOccurrence(s, w);
      PrependDisjoint(s, w, Shift(rest, |w|));
    } else {
      MatchPositionsAreDisjoint(s[1..], w);
      ShiftDisjoint(s, w, MatchPositions(s[1..], w), 1);
    }
  }

  /** An occurrence at the head goes in front of occurrences that start after it ends. */
  lemma PrependDisjoint(s: string, w: string, qs: seq<nat>)
    requires OccursAt(s, w, 0) && Disjoint(s, w, qs)
    requires forall i :: 0 <= i < |qs| ==> |w| <= qs[i]
    ensures Disjoint(s, w, [0] + qs)
  {
    var ps := [0] + qs;
    forall i | 0 <= i < |ps| ensures OccursAt(s, w, ps[i]) {
      if i > 0 { assert ps[i] == qs[i - 1]; }
    }
    forall i, j | 0 <= i < j < |ps| ensures ps[i] + |w| <= ps[j] {
      assert ps[j] == qs[j - 1];
      if i > 0 { assert ps[i] == qs[i - 1]; }
    }
  }

  /** No list of non-overlapping occurrences is longer than the greedy count. */
  lemma {:induction false} CountIsMaximal(s: string, w: string, ps: seq<nat>)
    requires w != [] && Disjoint(s, w, ps)
    ensures |ps| <= CountMatches(s, w)
    decreases |s|
  {
    if ps != [] {
      assert OccursAt(s, w, ps[0]);
      HeadOccurrence(s, w);
      if w <= s {
        var tail := ps[1..];
        forall i | 0 <= i < |tail| ensures |w| <= tail[i] {
          assert tail[i] == ps[i + 1];
          assert ps[0] + |w| <= ps[i + 1];
        }
        assert Disjoint(s, w, tail) by {
          forall i | 0 <= i < |tail| ensures OccursAt(s, w, tail[i]) { assert tail[i] == ps[i + 1]; }
          forall i, j | 0 <= i < j < |tail| ensures tail[i] + |w| <= tail[j] {
            assert tail[i] == ps[i + 1] && tail[j] == ps[j + 1];
          }
        }
        UnshiftDisjoint(s, w, tail, |w|);
        CountIsMaximal(s[|w|..], w, Unshift(tail, |w|));
      } else {
        forall i | 0 <= i < |ps| ensures 1 <= ps[i] {
          assert OccursAt(s, w, ps[i]);
        }
        UnshiftDisjoint(s, w, ps, 1);
        CountIsMaximal(s[1..], w, Unshift(ps, 1));
      }
    }
  }

  /** The word occurs at the head exactly when it is a prefix. */
  lemma HeadOccurrence(s: string, w: string)
    requires |w| <= |s|
    ensures OccursAt(s, w, 0) <==> w <= s
  {
    assert s[0..|w|] == s[..|w|];
  }

  /**
   * CountMatches is the largest number of non-overlapping occurrences: some
   * list of that many exists, and no longer one does.
   */
  lemma CountIsNonOverlapping(s: string, w: string)
    requires w != []
    ensures exists ps :: Disjoint(s, w, ps) && |ps| == CountMatches(s, w)
    ensures forall ps :: Disjoint(s, w, ps) ==> |ps| <= CountMatches(s, w)
  {
    MatchPositionsAreDisjoint(s, w);
    forall ps | Disjoint(s, w, ps) ensures |ps| <= CountMatches(s, w) {
      CountIsMaximal(s, w, ps);
    }
  }

  // ---------------------------------------------------------------------
  // Regular-expression escaping
  // ---------------------------------------------------------------------

  /** The characters the detector escapes: . * + ? ^ $ { } ( ) | [ ] \ */
  predicate IsSyntaxChar(c: char) {
    c in ".*+?^${}()|[]\\"
  }

  /** `s.replace(/[.*+?^${}()|[\]\\]/g, '\\$&')`. */
  function EscapeRegExp(s: string): (r: string)
    ensures |s| <= |r| <= 2 * |s|
  {
    if s == [] then []
    else (if IsSyntaxChar(s[0]) then ['\\', s[0]] else [s[0]]) + EscapeRegExp(s[1..])
  }

  /**
   * The characters that act as operators on their own in a pattern without
   * the `u` flag (or open a group or class): . * + ? ^ $ ( ) | [ and the
   * backslash. The escaped `]`, `{` and `}` would be read literally anyway.
   */
  predicate IsOperatorChar(c: char) {
    c in ".*+?^$()|[\\"
  }

  /**
   * The literal string a regular-expression source denotes when it consists
   * only of ordinary characters and escaped syntax characters; None for any
   * other source. This recognises escaped literals only: it also answers
   * None for an unescaped `]`, `{` or `}`, which JavaScript reads literally.
   */
  function LiteralOf(p: string): Option<string>
    decreases |p|
  {
    if p == [] then Some([])
    else if p[0] == '\\' then
      if |p| >= 2 && IsSyntaxChar(p[1]) then
        match LiteralOf(p[2..])
        case Some(rest) => Some([p[1]] + rest)
        case None => None
      else None
    else if IsSyntaxChar(p[0]) then None
    else
      match LiteralOf(p[1..])
      case Some(rest) => Some([p[0]] + rest)
      case None => None
  }

  /** A source with an operator and no backslash is not a literal: the operator would act as one. */
  lemma {:induction false} OperatorIsNotLiteral(p: string, k: nat)
    requires k < |p| && IsOperatorChar(p[k]) && '\\' !in p
    ensures LiteralOf(p) == None
    decreases |p|
  {
    assert p[0] in p;
    if !IsSyntaxChar(p[0]) {
      assert k > 0;
      assert p[1..][k - 1] == p[k];
      assert '\\' !in p[1..] by {
        forall c | c in p[1..] ensures c != '\\' {
          var j :| 0 <= j < |p[1..]| && p[1..][j] == c;
          assert p[j + 1] == c;
        }
      }
      OperatorIsNotLiteral(p[1..], k - 1);
    }
  }

  /** Escaping makes every character literal: the pattern matches exactly s. */
  lemma {:induction false} EscapedIsLiteral(s: string)
    ensures LiteralOf(EscapeRegExp(s)) == Some(s)
  {
    if s != [] {
      EscapedIsLiteral(s[1..]);
      var e := EscapeRegExp(s);
      if IsSyntaxChar(s[0]) {
        assert e[2..] == EscapeRegExp(s[1..]);
      } else {
        assert e[1..] == EscapeRegExp(s[1..]);
      }
      assert s == [s[0]] + s[1..];
    }
  }
}
