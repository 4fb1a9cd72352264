/** The string operations the service relies on: Python's `in`, `lower`, `strip`, `lstrip`
    and `split`, with per-character ASCII case folding and Python's white space. */
module Text {

  /** `c.isspace()` */
  predicate IsSpace(c: char) {
    var n := c as int;
    || 9 <= n <= 13 || 28 <= n <= 32 || n == 0x85 || n == 0xA0 || n == 0x1680 || 0x2000 <= n <= 0x200A
    || n == 0x2028 || n == 0x2029 || n == 0x202F || n == 0x205F || n == 0x3000
  }

  predicate IsDigit(c: char) {
    '0' <= c <= '9'
  }

  function LowerChar(c: char): char {
    if 'A' <= c <= 'Z' then (c as int + 32) as char else c
  }

  /** `s.lower()` */
  function Lower(s: string): (r: string)
    ensures |r| == |s|
    ensures forall i :: 0 <= i < |s| ==> r[i] == if 'A' <= s[i] <= 'Z' then (s[i] as int + 32) as char else s[i]
  {
    seq(|s|, i requires 0 <= i < |s| => LowerChar(s[i]))
  }

  /** `piece in whole` */
  ghost predicate OccursAt(piece: string, whole: string, i: int) {
    0 <= i <= |whole| - |piece| && whole[i..i + |piece|] == piece
  }

  predicate OccursFrom(piece: string, whole: string, i: nat)
    requires i <= |whole|
    ensures OccursFrom(piece, whole, i) <==> exists j :: i <= j && OccursAt(piece, whole, j)
    decreases |whole| - i
  {
    if i + |piece| > |whole| then
      false
    else if whole[i..i + |piece|] == piece then
      assert OccursAt(piece, whole, i);
      true
    else if i == |whole| then
      false
    else
      OccursFrom(piece, whole, i + 1)
  }

  predicate Occurs(piece: string, whole: string)
    ensures Occurs(piece, whole) <==> exists j :: OccursAt(piece, whole, j)
  {
    OccursFrom(piece, whole, 0)
  }

  lemma SliceOfSlice(s: string, i: nat, j: nat, k: nat, l: nat)
    requires i <= j <= |s| && k <= l <= j - i
    ensures s[i..j][k..l] == s[i + k..i + l]
  {
    assert forall m :: 0 <= m < l - k ==> s[i..j][k..l][m] == s[i..j][k + m] == s[i + k..i + l][m];
  }

  lemma OccursTransitive(a: string, b: string, c: string)
    requires Occurs(a, b) && Occurs(b, c)
    ensures Occurs(a, c)
  {
    var i :| OccursAt(a, b, i);
    var j :| OccursAt(b, c, j);
    SliceOfSlice(c, j, j + |b|, i, i + |a|);
    assert OccursAt(a, c, j + i);
  }

  lemma OccursInItself(s: string)
    ensures Occurs(s, s)
  {
    assert s[0..|s|] == s;
    assert OccursAt(s, s, 0);
  }

  lemma SliceOccurs(s: string, i: nat, j: nat)
    requires i <= j <= |s|
    ensures Occurs(s[i..j], s)
  {
    assert OccursAt(s[i..j], s, i);
  }

  lemma ConcatOccurs(before: string, piece: string, after: string)
    ensures Occurs(piece, before + piece + after)
  {
    var whole := before + piece + after;
    assert whole[|before|..|before| + |piece|] == piece;
    assert OccursAt(piece, whole, |before|);
  }

  /** `s.lstrip()` */
  function StripLeft(s: string): (r: string)
    ensures |r| <= |s|
    ensures r != [] ==> !IsSpace(r[0])
    ensures s != [] && IsSpace(s[0]) ==> |r| < |s|
    ensures s != [] && !IsSpace(s[0]) ==> r == s
  {
    if s != [] && IsSpace(s[0]) then StripLeft(s[1..]) else s
  }

  /** `s.rstrip()` */
  function StripRight(s: string): (r: string)
    ensures |r| <= |s|
    ensures r != [] ==> !IsSpace(r[|r| - 1])
    ensures s != [] && IsSpace(s[|s| - 1]) ==> |r| < |s|
    ensures s != [] && !IsSpace(s[|s| - 1]) ==> r == s
  {
    if s != [] && IsSpace(s[|s| - 1]) then StripRight(s[..|s| - 1]) else s
  }

  /** `s.strip()` */
  function Strip(s: string): string {
    StripRight(StripLeft(s))
  }

  /** `s.lstrip("+")` */
  function StripPlus(s: string): (r: string)
    ensures |r| <= |s|
    ensures r != [] ==> r[0] != '+'
    ensures s != [] && s[0] != '+' ==> r == s
  {
    if s != [] && s[0] == '+' then StripPlus(s[1..]) else s
  }

  /** What is stripped is a prefix, and it is all plus signs. */
  lemma {:induction false} StripPlusSuffix(s: string)
    ensures StripPlus(s) == s[|s| - |StripPlus(s)|..]
    ensures forall i :: 0 <= i < |s| - |StripPlus(s)| ==> s[i] == '+'
  {
    if s != [] && s[0] == '+' {
      StripPlusSuffix(s[1..]);
      assert forall i :: 1 <= i < |s| ==> s[i] == s[1..][i - 1];
    }
  }

  /** `t` is `s` without the white space around it. */
  ghost predicate IsTrimmed(s: string, t: string, i: nat, j: nat) {
    && i <= j <= |s| && t == s[i..j]
    && (forall k :: 0 <= k < i || j <= k < |s| ==> IsSpace(s[k]))
    && (t != [] ==> !IsSpace(t[0]) && !IsSpace(t[|t| - 1]))
  }

  lemma {:induction false} StripLeftSuffix(s: string)
    ensures StripLeft(s) == s[|s| - |StripLeft(s)|..]
    ensures forall i :: 0 <= i < |s| - |StripLeft(s)| ==> IsSpace(s[i])
  {
    if s != [] && IsSpace(s[0]) {
      StripLeftSuffix(s[1..]);
      assert forall i :: 1 <= i < |s| ==> s[i] == s[1..][i - 1];
    }
  }

  lemma {:induction false} StripRightPrefix(s: string)
    ensures StripRight(s) == s[..|StripRight(s)|]
    ensures forall i :: |StripRight(s)| <= i < |s| ==> IsSpace(s[i])
  {
    if s != [] && IsSpace(s[|s| - 1]) {
      StripRightPrefix(s[..|s| - 1]);
    }
  }

  lemma SpacesAfter(s: string, i: nat, l: string, n: nat)
    requires i <= |s| && l == s[i..] && n <= |l| && forall k :: n <= k < |l| ==> IsSpace(l[k])
    ensures forall k :: i + n <= k < |s| ==> IsSpace(s[k])
  {
    forall k | i + n <= k < |s| ensures IsSpace(s[k]) {
      assert s[k] == l[k - i];
    }
  }

  lemma TrimmedSlice(s: string, i: nat, l: string, n: nat)
    requires i <= |s| && l == s[i..] && n <= |l|
    ensures l[..n] == s[i..i + n]
  {
  }

  /** `strip` takes away white space at both ends, all of it and nothing else. */
  lemma StripTrims(s: string) returns (i: nat, j: nat)
    ensures IsTrimmed(s, Strip(s), i, j)
  {
    var l := StripLeft(s);
    var t := StripRight(l);
    StripLeftSuffix(s);
    StripRightPrefix(l);
    i, j := |s| - |l|, |s| - |l| + |t|;
    TrimmedSlice(s, i, l, |t|);
    SpacesAfter(s, i, l, |t|);
    assert t != [] ==> t[0] == l[0];
  }

  /** The length of the leading run of characters that are not white space. */
  function WordLength(s: string): (n: nat)
    ensures n <= |s|
    ensures forall i :: 0 <= i < n ==> !IsSpace(s[i])
    ensures n < |s| ==> IsSpace(s[n])
  {
    if s == [] || IsSpace(s[0]) then 0 else 1 + WordLength(s[1..])
  }

  /** `s.split()`: the maximal runs of non-space characters, in order. */
  function Words(s: string): seq<string>
    decreases |s|
  {
    if s == [] then []
    else if IsSpace(s[0]) then Words(s[1..])
    else [s[..WordLength(s)]] + Words(s[WordLength(s)..])
  }

  /** A maximal run of characters that are not white space. */
  ghost predicate WordAt(s: string, i: int, j: int) {
    && 0 <= i < j <= |s|
    && (forall k :: i <= k < j ==> !IsSpace(s[k]))
    && (i == 0 || IsSpace(s[i - 1]))
    && (j == |s| || IsSpace(s[j]))
  }

  ghost predicate IsWord(s: string, w: string) {
    exists i, j :: WordAt(s, i, j) && s[i..j] == w
  }

  /** Words that begin after a piece of white space are those of what follows it. */
  lemma WordShift(s: string, n: nat, i: int, j: int)
    requires 0 < n <= |s| && n <= i && (IsSpace(s[n - 1]) || n < i || n == |s|)
    ensures WordAt(s, i, j) <==> WordAt(s[n..], i - n, j - n)
    ensures WordAt(s, i, j) ==> s[i..j] == s[n..][i - n..j - n]
  {
    assert forall k :: n <= k < |s| ==> s[k] == s[n..][k - n];
    if WordAt(s[n..], i - n, j - n) {
      assert forall k :: i <= k < j ==> s[k] == s[n..][k - n];
    }
  }

  lemma SpaceFirst(s: string, w: string)
    requires s != [] && IsSpace(s[0])
    ensures IsWord(s, w) <==> IsWord(s[1..], w)
  {
    if IsWord(s, w) {
      var i, j :| WordAt(s, i, j) && s[i..j] == w;
      WordShift(s, 1, i, j);
    }
    if IsWord(s[1..], w) {
      var i, j :| WordAt(s[1..], i, j) && s[1..][i..j] == w;
      WordShift(s, 1, i + 1, j + 1);
    }
  }

  lemma WordFirst(s: string, w: string)
    requires s != [] && !IsSpace(s[0])
    ensures IsWord(s, w) <==> w == s[..WordLength(s)] || IsWord(s[WordLength(s)..], w)
  {
    var n := WordLength(s);
    assert WordAt(s, 0, n) && s[0..n] == s[..n];
    if IsWord(s, w) {
      var i, j :| WordAt(s, i, j) && s[i..j] == w;
      if i == 0 {
        assert j == n;
      } else {
        assert i > n;
        WordShift(s, n, i, j);
      }
    }
    if IsWord(s[n..], w) {
      var i, j :| WordAt(s[n..], i, j) && s[n..][i..j] == w;
      assert i > 0 by { assert s[n..][0] == s[n]; }
      WordShift(s, n, i + n, j + n);
    }
  }

  /** A split has exactly the maximal runs without white space. */
  lemma {:induction false} WordsAre(s: string, w: string)
    ensures w in Words(s) <==> IsWord(s, w)
    decreases |s|
  {
    if s == [] {
    } else if IsSpace(s[0]) {
      SpaceFirst(s, w);
      WordsAre(s[1..], w);
    } else {
      WordFirst(s, w);
      WordsAre(s[WordLength(s)..], w);
    }
  }
}
