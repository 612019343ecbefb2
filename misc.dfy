/**
  Byte and C-string helpers (game_misc.h).

  A C string is a character array holding a terminating '\0'; the copies write through the
  destination array, and the comparison only reads, so it works on the strings' values. The
  destination starts at index 0 of its array; `CopyString` may read its source from an offset into
  its array, the other copies read from index 0. The callers' non-null assertions are implied by
  the parameters being arrays. Reading past the end of an array is undefined in C, so each
  helper requires the arrays to be long enough for what it reads and writes.
*/
module Misc {
  import opened Platform

  /** The length of a C string: the index of its first terminator. */
  function CStringLength(s: seq<char>): (r: nat)
    requires '\0' in s
    ensures r < |s| && s[r] == '\0'
    ensures forall k :: 0 <= k < r ==> s[k] != '\0'
    decreases |s|
  {
    if s[0] == '\0' then 0
    else
      assert '\0' in s[1..] by {
        var z :| 0 <= z < |s| && s[z] == '\0';
        assert s[1..][z - 1] == '\0';
      }
      1 + CStringLength(s[1..])
  }

  /** A run of characters with no terminator, followed by one, has as its length the run's
      length, whatever follows the terminator. */
  lemma CStringLengthOf(text: seq<char>, rest: seq<char>)
    requires '\0' !in text
    ensures CStringLength(text + ['\0'] + rest) == |text|
  {
    var s := text + ['\0'] + rest;
    var n := CStringLength(s);
    assert s[|text|] == '\0';
  }

  /** A C string read from an index at or before its terminator is the rest of it. */
  lemma CStringLengthFrom(s: seq<char>, from: nat)
    requires '\0' in s && from <= CStringLength(s)
    ensures '\0' in s[from..] && CStringLength(s[from..]) == CStringLength(s) - from
  {
    var n := CStringLength(s);
    assert s[from..] == s[from..n] + ['\0'] + s[n + 1..];
    CStringLengthOf(s[from..n], s[n + 1..]);
  }

  /** CopyBytes(Dest, Src, Size): the assertion demands a non-zero Size; the first Size bytes of
      Src go to the first Size bytes of Dest, and no other byte of Dest is written. */
  method CopyBytes(dest: array<u8>, src: array<u8>, size: nat)
    requires size > 0 && size <= dest.Length && size <= src.Length
    modifies dest
    ensures dest[..size] == old(src[..size])
    ensures dest[size..] == old(dest[size..])
  {
    var remaining: nat, at: nat := size, 0;
    while remaining > 0
      invariant at + remaining == size
      invariant forall k :: 0 <= k < at ==> dest[k] == old(src[k])
      invariant forall k :: at <= k < src.Length ==> src[k] == old(src[k])
      invariant forall k :: at <= k < dest.Length ==> dest[k] == old(dest[k])
      decreases remaining
    {
      remaining := remaining - 1;
      dest[at] := src[at];
      at := at + 1;
    }
  }

  /** CopyString(Dest, Src) with Src pointing `from` characters into `src`: every character of
      that string before its terminator is copied to Dest; no terminator is written, so Dest
      keeps whatever it held from that index on. */
  method CopyString(dest: array<char>, src: array<char>, from: nat)
    requires from <= src.Length && '\0' in src[from..]
    requires CStringLength(src[from..]) <= dest.Length
    modifies dest
    ensures var n := CStringLength(old(src[from..]));
      dest[..n] == old(src[from..from + n]) && dest[n..] == old(dest[n..])
  {
    ghost var n := CStringLength(src[from..]);
    var at: nat := 0;
    while src[from + at] != '\0'
      invariant at <= n
      invariant forall k :: 0 <= k < at ==> dest[k] == old(src[from + k])
      invariant forall k :: from + at <= k < src.Length ==> src[k] == old(src[k])
      invariant forall k :: at <= k < dest.Length ==> dest[k] == old(dest[k])
      decreases n - at
    {
      assert src[from..][at] == src[from + at];
      dest[at] := src[from + at];
      at := at + 1;
    }
  }

  /** CopyStringN(Dest, Src, MaxCount): exactly MaxCount characters are copied, terminators
      included, and MaxCount == 0 writes nothing. */
  method CopyStringN(dest: array<char>, src: array<char>, maxCount: nat)
    requires maxCount <= dest.Length && maxCount <= src.Length
    modifies dest
    ensures dest[..maxCount] == old(src[..maxCount])
    ensures dest[maxCount..] == old(dest[maxCount..])
    ensures maxCount == 0 ==> dest[..] == old(dest[..])
  {
    if maxCount == 0 {
      return;
    }
    var remaining: nat, at: nat := maxCount, 0;
    while remaining > 0
      invariant at + remaining == maxCount
      invariant forall k :: 0 <= k < at ==> dest[k] == old(src[k])
      invariant forall k :: at <= k < src.Length ==> src[k] == old(src[k])
      invariant forall k :: at <= k < dest.Length ==> dest[k] == old(dest[k])
      decreases remaining
    {
      dest[at] := src[at];
      at := at + 1;
      remaining := remaining - 1;
    }
  }

  /** What AreStringsEqual decides, step by step as its loop does: stop with true at either
      terminator, with false at the first differing character. */
  predicate StringsEqualFrom(s1: seq<char>, s2: seq<char>, i: nat)
    requires '\0' in s1 && '\0' in s2
    requires i <= CStringLength(s1) && i <= CStringLength(s2)
    decreases CStringLength(s1) - i
  {
    if s1[i] == '\0' || s2[i] == '\0' then true
    else if s1[i] != s2[i] then false
    else StringsEqualFrom(s1, s2, i + 1)
  }

  /** The two strings agree on every character before the shorter one's terminator. */
  predicate AgreeOnShorter(s1: seq<char>, s2: seq<char>)
    requires '\0' in s1 && '\0' in s2
  {
    var m := Min(CStringLength(s1), CStringLength(s2));
    s1[..m] == s2[..m]
  }

  /** The step-by-step decision is agreement up to the shorter string's end. */
  lemma {:induction false} StringsEqualFromMeaning(s1: seq<char>, s2: seq<char>, i: nat)
    requires '\0' in s1 && '\0' in s2
    requires i <= CStringLength(s1) && i <= CStringLength(s2)
    requires s1[..i] == s2[..i]
    ensures StringsEqualFrom(s1, s2, i) <==> AgreeOnShorter(s1, s2)
    decreases CStringLength(s1) - i
  {
    var m := Min(CStringLength(s1), CStringLength(s2));
    if s1[i] == '\0' || s2[i] == '\0' {
      assert i == m;
    } else if s1[i] != s2[i] {
      assert s1[..m][i] != s2[..m][i];
    } else {
      assert s1[..i + 1] == s2[..i + 1] by {
        assert s1[..i + 1] == s1[..i] + [s1[i]];
        assert s2[..i + 1] == s2[..i] + [s2[i]];
      }
      StringsEqualFromMeaning(s1, s2, i + 1);
    }
  }

  /** AreStringsEqual(String1, String2): true exactly when the strings agree up to the end of the
      shorter one, so a string is "equal" to every string it is a prefix of. */
  method AreStringsEqual(s1: seq<char>, s2: seq<char>) returns (result: bool)
    requires '\0' in s1 && '\0' in s2
    ensures result == StringsEqualFrom(s1, s2, 0)
    ensures result <==> AgreeOnShorter(s1, s2)
  {
    StringsEqualFromMeaning(s1, s2, 0);
    result := true;
    var at: nat := 0;
    while s1[at] != '\0' && s2[at] != '\0'
      invariant at <= CStringLength(s1) && at <= CStringLength(s2)
      invariant StringsEqualFrom(s1, s2, at) == StringsEqualFrom(s1, s2, 0)
      decreases CStringLength(s1) - at
    {
      if s1[at] != s2[at] {
        result := false;
        break;
      }
      at := at + 1;
    }
  }

  /** The comparison is symmetric in its arguments. */
  lemma {:induction false} StringsEqualSymmetric(s1: seq<char>, s2: seq<char>, i: nat)
    requires '\0' in s1 && '\0' in s2
    requires i <= CStringLength(s1) && i <= CStringLength(s2)
    ensures StringsEqualFrom(s1, s2, i) == StringsEqualFrom(s2, s1, i)
    decreases CStringLength(s1) - i
  {
    if s1[i] != '\0' && s2[i] != '\0' && s1[i] == s2[i] {
      StringsEqualSymmetric(s1, s2, i + 1);
    }
  }

  /** A string equals itself. */
  lemma {:induction false} StringsEqualReflexive(s: seq<char>, i: nat)
    requires '\0' in s && i <= CStringLength(s)
    ensures StringsEqualFrom(s, s, i)
    decreases CStringLength(s) - i
  {
    if s[i] != '\0' {
      StringsEqualReflexive(s, i + 1);
    }
  }

  /** A string compares equal to any longer string it is a prefix of: the loop stops at the
      shorter string's terminator. */
  lemma PrefixComparesEqual(text: seq<char>, more: seq<char>, rest1: seq<char>, rest2: seq<char>)
    requires '\0' !in text && '\0' !in more
    ensures var s1, s2 := text + ['\0'] + rest1, text + more + ['\0'] + rest2;
      AgreeOnShorter(s1, s2) && AgreeOnShorter(s2, s1)
  {
    var s1, s2 := text + ['\0'] + rest1, text + more + ['\0'] + rest2;
    CStringLengthOf(text, rest1);
    assert s2 == (text + more) + ['\0'] + rest2;
    CStringLengthOf(text + more, rest2);
    assert s1[..|text|] == text;
    assert s2[..|text|] == text;
  }

  /** Strings that differ at a position before either one ends compare unequal. */
  lemma DifferenceComparesUnequal(s1: seq<char>, s2: seq<char>, k: nat)
    requires '\0' in s1 && '\0' in s2
    requires k < CStringLength(s1) && k < CStringLength(s2) && s1[k] != s2[k]
    ensures !AgreeOnShorter(s1, s2)
  {
    var m := Min(CStringLength(s1), CStringLength(s2));
    assert s1[..m][k] != s2[..m][k];
  }
}
