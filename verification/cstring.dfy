/**
 C string comparison as used by the key import tool's argument checks.

 A C string is read character by character until its terminating NUL. Here a
 string is a `seq<char>` and every position at or past its end reads as NUL,
 which is what the byte after the last character holds in C.
 */
module CString {

  /** The character a C reader sees at position `i` of `s`. */
  function CharAt(s: string, i: nat): char
  {
    if i < |s| then s[i] else '\0'
  }

  /** No character of `s` is the terminator (true of every C string literal's contents). */
  predicate NoNul(s: string)
  {
    forall k :: 0 <= k < |s| ==> s[k] != '\0'
  }

  /** `strncmp(a, b, n) == 0` once positions `0 .. i-1` have compared equal and
      neither string has ended there: compare position `i` and go on until `n`
      characters were compared or both strings end together. */
  predicate StrNCmpFrom(a: string, b: string, n: nat, i: nat)
    decreases n - i
  {
    if i >= n then true
    else if CharAt(a, i) != CharAt(b, i) then false
    else if CharAt(a, i) == '\0' then true
    else StrNCmpFrom(a, b, n, i + 1)
  }

  /** No terminator in `a` at positions `i .. k-1`: a reader that started at `i`
      has not stopped before `k`. */
  predicate NoNulBetween(a: string, i: nat, k: nat)
  {
    forall j :: i <= j < k ==> CharAt(a, j) != '\0'
  }

  /** Comparing from position `i`, `strncmp` finds no difference exactly when
      every position below `n` that is reached (no NUL of `a` before it) holds
      the same character in both strings. */
  lemma {:induction false} StrNCmpFromAgrees(a: string, b: string, n: nat, i: nat)
    ensures StrNCmpFrom(a, b, n, i) <==>
      forall k :: i <= k < n && NoNulBetween(a, i, k) ==> CharAt(a, k) == CharAt(b, k)
    decreases n - i
  {
    if i >= n {
    } else if CharAt(a, i) != CharAt(b, i) {
      assert NoNulBetween(a, i, i);
    } else if CharAt(a, i) == '\0' {
      forall k | i < k < n
        ensures !NoNulBetween(a, i, k)
      {
        assert CharAt(a, i) == '\0';
      }
    } else {
      StrNCmpFromAgrees(a, b, n, i + 1);
      forall k | i + 1 <= k < n
        ensures NoNulBetween(a, i, k) <==> NoNulBetween(a, i + 1, k)
      {
        if NoNulBetween(a, i + 1, k) {
          forall j | i <= j < k
            ensures CharAt(a, j) != '\0'
          {
            if j > i {
              assert i + 1 <= j < k;
            }
          }
        }
      }
    }
  }

  /** `strncmp(a, b, n) == 0`: the comparison stops at the first difference, at
      a NUL both strings share, or after `n` characters, and only a difference
      makes it unequal. */
  function StrNCmpEqual(a: string, b: string, n: nat): (r: bool)
    ensures r <==> forall k :: 0 <= k < n && NoNulBetween(a, 0, k) ==> CharAt(a, k) == CharAt(b, k)
  {
    StrNCmpFromAgrees(a, b, n, 0);
    StrNCmpFrom(a, b, n, 0)
  }

  lemma {:induction false} StrNCmpFromIsPrefix(s: string, lit: string, i: nat)
    requires NoNul(lit)
    requires i <= |lit| && i <= |s|
    ensures StrNCmpFrom(s, lit, |lit|, i) <==> (|lit| <= |s| && s[i..|lit|] == lit[i..])
    decreases |lit| - i
  {
    if i == |lit| {
    } else if i == |s| {
      assert CharAt(s, i) != CharAt(lit, i);
    } else if s[i] != lit[i] {
      if |lit| <= |s| {
        assert s[i..|lit|][0] != lit[i..][0];
      }
    } else {
      StrNCmpFromIsPrefix(s, lit, i + 1);
      if |lit| <= |s| {
        assert s[i..|lit|] == [s[i]] + s[i + 1..|lit|];
        assert lit[i..] == [lit[i]] + lit[i + 1..];
      }
    }
  }

  /** Comparing exactly as many characters as a NUL-free literal has, `strncmp`
      reports equality precisely when the literal is a prefix of the argument:
      longer arguments still match, shorter ones never do. */
  lemma StrNCmpMatchesPrefix(s: string, lit: string)
    requires NoNul(lit)
    ensures StrNCmpEqual(s, lit, |lit|) <==> lit <= s
  {
    StrNCmpFromIsPrefix(s, lit, 0);
    if |lit| <= |s| {
      assert s[0..|lit|] == s[..|lit|];
    }
    assert lit[0..] == lit;
  }
}
