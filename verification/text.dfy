/** The optional value the session uses for "no chat input this run" and "no speaker left". */
module Wrappers {
  datatype Option<+T> = None | Some(value: T)
}

/**
 * The handful of Python string operations the session relies on, over `string`
 * (a sequence of Unicode scalar values): `m in s`, `s.split(m)[-1]`,
 * `s.replace(t, "")`, `s.strip()` and `str(n)` for a natural number.
 */
module Text {

  /** Python's `str.isspace`: the characters `strip()` removes. */
  predicate IsSpace(c: char) {
    || ('\t' <= c <= '\r')
    || ('\U{1C}' <= c <= ' ')
    || c == '\U{85}' || c == '\U{A0}' || c == '\U{1680}'
    || ('\U{2000}' <= c <= '\U{200A}')
    || c == '\U{2028}' || c == '\U{2029}' || c == '\U{202F}' || c == '\U{205F}'
    || c == '\U{3000}'
  }

  /** `m` occurs in `s` starting at index `i`. */
  predicate OccursAt(s: string, m: string, i: int) {
    0 <= i && i + |m| <= |s| && s[i..i + |m|] == m
  }

  /** Python's `m in s`. */
  predicate Contains(s: string, m: string) {
    exists i | 0 <= i <= |s| - |m| :: OccursAt(s, m, i)
  }

  /** An occurrence at `i` in `s[a..b]` is an occurrence at `a + i` in `s`. */
  lemma OccursInSlice(s: string, m: string, a: int, b: int, i: int)
    requires 0 <= a <= b <= |s|
    requires OccursAt(s[a..b], m, i)
    ensures OccursAt(s, m, a + i)
  {
    forall k | 0 <= k < |m|
      ensures s[a + i..a + i + |m|][k] == m[k]
    {
      assert s[a..b][i..i + |m|][k] == m[k];
    }
    assert s[a + i..a + i + |m|] == m;
  }

  /** An occurrence inside a slice of `s` is an occurrence in `s`. */
  lemma ContainsInSlice(s: string, m: string, a: int, b: int)
    requires 0 <= a <= b <= |s|
    requires Contains(s[a..b], m)
    ensures Contains(s, m)
  {
    var i :| 0 <= i <= (b - a) - |m| && OccursAt(s[a..b], m, i);
    OccursInSlice(s, m, a, b, i);
  }

  /** An occurrence in a sequence that itself occurs in `s` is an occurrence in `s`. */
  lemma ContainsTransitive(s: string, t: string, m: string)
    requires Contains(s, t) && Contains(t, m)
    ensures Contains(s, m)
  {
    var a :| 0 <= a <= |s| - |t| && OccursAt(s, t, a);
    assert s[a..a + |t|] == t;
    ContainsInSlice(s, m, a, a + |t|);
  }

  /**
   * The first occurrence of `m` at or after `i`, scanning forward; `|s| + 1`
   * when there is none.
   */
  function FindFrom(s: string, m: string, i: nat): (r: nat)
    requires i <= |s|
    ensures i <= r
    ensures r == |s| + 1 || OccursAt(s, m, r)
    ensures forall j :: i <= j < r && j + |m| <= |s| ==> !OccursAt(s, m, j)
    decreases |s| - i
  {
    if i + |m| > |s| then |s| + 1
    else if OccursAt(s, m, i) then i
    else FindFrom(s, m, i + 1)
  }

  /** Index of the first occurrence of `m` in `s` (Python's `s.index(m)`). */
  function IndexOf(s: string, m: string): (i: nat)
    requires Contains(s, m)
    ensures OccursAt(s, m, i)
    ensures forall j :: 0 <= j < i ==> !OccursAt(s, m, j)
  {
    FindFrom(s, m, 0)
  }

  /**
   * The end of the last occurrence of `m` that lies within `s[..n]`, or 0 when
   * there is none: every occurrence ending by `n` ends by the result.
   */
  function LastEndWithin(s: string, m: string, n: nat): (e: nat)
    requires m != [] && n <= |s|
    ensures e <= n
    ensures e > 0 ==> e >= |m| && OccursAt(s, m, e - |m|)
    ensures forall i :: OccursAt(s, m, i) && i + |m| <= n ==> i + |m| <= e
    decreases n
  {
    if n >= |m| && OccursAt(s, m, n - |m|) then n
    else if n == 0 then 0
    else LastEndWithin(s, m, n - 1)
  }

  /**
   * Python's `s.split(m)[-1]` for a separator that cannot overlap itself:
   * the text after the last occurrence of `m`, or all of `s` when there is none.
   * What is kept holds no separator, and when `s` holds one it stands right in
   * front of the kept text.
   */
  function AfterLast(s: string, m: string): (r: string)
    requires m != []
    ensures |r| <= |s| && r == s[|s| - |r|..]
    ensures !Contains(r, m)
    ensures Contains(s, m) ==> |r| + |m| <= |s| && s[|s| - |r| - |m|..|s| - |r|] == m
    ensures !Contains(s, m) ==> r == s
  {
    var e := LastEndWithin(s, m, |s|);
    LastEndBounds(s, m);
    s[e..]
  }

  /** Nothing follows the last end, and there is a last end exactly when `m` occurs. */
  lemma LastEndBounds(s: string, m: string)
    requires m != []
    ensures !Contains(s[LastEndWithin(s, m, |s|)..], m)
    ensures Contains(s, m) <==> LastEndWithin(s, m, |s|) > 0
  {
    var e := LastEndWithin(s, m, |s|);
    var r := s[e..];
    if Contains(r, m) {
      var i :| 0 <= i <= |r| - |m| && OccursAt(r, m, i);
      assert r == s[e..|s|];
      OccursInSlice(s, m, e, |s|, i);
    }
    if Contains(s, m) {
      var i :| 0 <= i <= |s| - |m| && OccursAt(s, m, i);
    }
    if e > 0 {
      assert OccursAt(s, m, e - |m|);
    }
  }

  /** Python's `s.lstrip()`. */
  function TrimStart(s: string): (r: string)
    ensures |r| <= |s| && r == s[|s| - |r|..]
    ensures r == [] || !IsSpace(r[0])
    ensures forall k :: 0 <= k < |s| - |r| ==> IsSpace(s[k])
    decreases |s|
  {
    if s != [] && IsSpace(s[0]) then TrimStart(s[1..]) else s
  }

  /** Python's `s.rstrip()`. */
  function TrimEnd(s: string): (r: string)
    ensures |r| <= |s| && r == s[..|r|]
    ensures r == [] || !IsSpace(r[|r| - 1])
    ensures forall k :: |r| <= k < |s| ==> IsSpace(s[k])
    decreases |s|
  {
    if s != [] && IsSpace(s[|s| - 1]) then TrimEnd(s[..|s| - 1]) else s
  }

  /** `r` is `s` with the whitespace before index `a` and after `a + |r|` cut away. */
  predicate TrimmedAt(s: string, r: string, a: int) {
    && 0 <= a && a + |r| <= |s| && r == s[a..a + |r|]
    && (forall k :: 0 <= k < a ==> IsSpace(s[k]))
    && (forall k :: a + |r| <= k < |s| ==> IsSpace(s[k]))
  }

  /**
   * Python's `s.strip()`: the result is a piece of `s`, only whitespace was cut
   * from either side, and the result neither starts nor ends with whitespace.
   */
  function Trim(s: string): (r: string)
    ensures Contains(s, r)
  {
    var t := TrimStart(s);
    var r := TrimEnd(t);
    assert OccursAt(s, r, |s| - |t|);
    r
  }

  /**
   * `strip()` cuts only whitespace, from either side, and leaves a result that
   * neither starts nor ends with whitespace.
   */
  lemma TrimSpec(s: string)
    ensures exists a :: TrimmedAt(s, Trim(s), a)
    ensures Trim(s) == [] || (!IsSpace(Trim(s)[0]) && !IsSpace(Trim(s)[|Trim(s)| - 1]))
  {
    var t := TrimStart(s);
    assert TrimmedAt(s, Trim(s), |s| - |t|);
  }

  /** A text that neither starts nor ends with whitespace is left as it is by `strip()`. */
  lemma TrimUntouched(s: string)
    requires s == [] || (!IsSpace(s[0]) && !IsSpace(s[|s| - 1]))
    ensures Trim(s) == s
  {
    assert TrimStart(s) == s;
    assert TrimEnd(s) == s;
  }

  /**
   * The scan of Python's `s.replace(t, "")` from index `i` on: an occurrence
   * of `t` at the scan position is skipped whole, otherwise one character is
   * kept, so occurrences are found left to right and do not overlap.
   */
  function RemoveFrom(s: string, t: string, i: nat): (r: string)
    requires i <= |s|
    ensures |r| <= |s| - i
    decreases |s| - i
  {
    if t == [] || i == |s| then s[i..]
    else if OccursAt(s, t, i) then RemoveFrom(s, t, i + |t|)
    else [s[i]] + RemoveFrom(s, t, i + 1)
  }

  /** Python's `s.replace(t, "")`. */
  function RemoveAll(s: string, t: string): (r: string)
    ensures |r| <= |s|
  {
    RemoveFrom(s, t, 0)
  }

  /** A scan that meets no occurrence keeps every character from `i` on. */
  lemma {:induction false} RemoveFromAbsent(s: string, t: string, i: nat)
    requires i <= |s|
    requires forall j :: i <= j ==> !OccursAt(s, t, j)
    ensures RemoveFrom(s, t, i) == s[i..]
    decreases |s| - i
  {
    if t != [] && i < |s| {
      RemoveFromAbsent(s, t, i + 1);
      assert s[i..] == [s[i]] + s[i + 1..];
    }
  }

  /** Removing a piece of text that does not occur leaves the text as it was. */
  lemma RemoveAllAbsent(s: string, t: string)
    requires !Contains(s, t)
    ensures RemoveAll(s, t) == s
  {
    RemoveFromAbsent(s, t, 0);
  }

  /**
   * Before the first occurrence at or after `i`, which lies at `k`, the scan
   * keeps every character; it then drops that occurrence and goes on after it.
   */
  lemma {:induction false} RemoveFromFirst(s: string, t: string, i: nat, k: nat)
    requires t != [] && i <= k && OccursAt(s, t, k)
    requires forall j :: i <= j < k ==> !OccursAt(s, t, j)
    ensures RemoveFrom(s, t, i) == s[i..k] + RemoveFrom(s, t, k + |t|)
    decreases k - i
  {
    var rest := RemoveFrom(s, t, k + |t|);
    if i == k {
      assert s[i..k] + rest == rest;
    } else {
      RemoveFromFirst(s, t, i + 1, k);
      ConsSlice(s, i, k, rest);
    }
  }

  /** Putting `s[i]` back in front of `s[i + 1..k]`. */
  lemma ConsSlice(s: string, i: nat, k: nat, rest: string)
    requires i < k <= |s|
    ensures [s[i]] + (s[i + 1..k] + rest) == s[i..k] + rest
  {
    assert s[i..k] == [s[i]] + s[i + 1..k];
  }

  /** An occurrence at `i + j` in `s` is an occurrence at `j` in `s[i..]`, and back. */
  lemma OccursAtShift(s: string, t: string, i: nat, j: nat)
    requires i + j <= |s|
    ensures OccursAt(s, t, i + j) <==> OccursAt(s[i..], t, j)
  {
    if i + j + |t| <= |s| {
      assert s[i + j..i + j + |t|] == s[i..][j..j + |t|];
    }
  }

  /** Scanning `s` from `i + j` is scanning `s[i..]` from `j`. */
  lemma {:induction false} RemoveFromShift(s: string, t: string, i: nat, j: nat)
    requires i + j <= |s|
    ensures RemoveFrom(s, t, i + j) == RemoveFrom(s[i..], t, j)
    decreases |s| - i - j
  {
    if t == [] || i + j == |s| {
      assert s[i + j..] == s[i..][j..];
    } else {
      OccursAtShift(s, t, i, j);
      if OccursAt(s, t, i + j) {
        RemoveFromShift(s, t, i, j + |t|);
      } else {
        assert s[i + j] == s[i..][j];
        RemoveFromShift(s, t, i, j + 1);
      }
    }
  }

  /**
   * `replace` removes the first occurrence and goes on after it: what comes
   * before the first `t` is kept as it is, the `t` is dropped, and the scan
   * resumes just past it.
   */
  lemma RemoveAllFirst(s: string, t: string)
    requires t != [] && Contains(s, t)
    ensures IndexOf(s, t) + |t| <= |s|
    ensures RemoveAll(s, t) == s[..IndexOf(s, t)] + RemoveAll(s[IndexOf(s, t) + |t|..], t)
  {
    var k := IndexOf(s, t);
    RemoveAllAt(s, t, k);
    RemoveFromShift(s, t, k + |t|, 0);
  }

  /** The split of `replace` at a first occurrence `k`. */
  lemma RemoveAllAt(s: string, t: string, k: nat)
    requires t != [] && OccursAt(s, t, k)
    requires forall j :: 0 <= j < k ==> !OccursAt(s, t, j)
    ensures RemoveAll(s, t) == s[..k] + RemoveFrom(s, t, k + |t|)
  {
    RemoveFromFirst(s, t, 0, k);
    assert s[0..k] == s[..k];
  }

  /** One decimal digit. */
  function Digit(d: nat): (c: char)
    requires d < 10
    ensures '0' <= c <= '9'
  {
    (48 + d) as char
  }

  /** Python's `str(n)` for a natural number. */
  function Decimal(n: nat): (r: string)
    ensures |r| >= 1
    ensures forall i :: 0 <= i < |r| ==> '0' <= r[i] <= '9'
  {
    if n < 10 then [Digit(n)] else Decimal(n / 10) + [Digit(n % 10)]
  }
}
