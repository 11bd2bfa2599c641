/** Matching of module names against patterns with `*` and `?`. */
module Wildcards {

  /** The character behind a pointer into a C string. */
  function At(s: string, i: nat): char {
    if i < |s| then s[i] else '\0'
  }

  predicate CString(s: string) {
    '\0' !in s
  }

  /** What it means that `s` from `j` on matches the pattern `w` from `i` on. */
  predicate Match(w: string, i: nat, s: string, j: nat)
    decreases |w| + |s| - i - j
  {
    if i > |w| || j > |s| then false
    else if i == |w| then j == |s|
    else if w[i] == '*' then Match(w, i + 1, s, j) || Match(w, i, s, j + 1)
    else j < |s| && (w[i] == '?' || w[i] == s[j]) && Match(w, i + 1, s, j + 1)
  }

  /**
   * Places in the string for the characters of the pattern, and its end: a star may take any part of the string, `?`
   * one character, and any other character itself.
   */
  predicate Laid(w: string, i: nat, s: string, at: seq<nat>) {
    && i <= |w| && |at| == |w| - i + 1 && at[|w| - i] == |s|
    && forall k :: i <= k < |w| ==> Takes(w[k], s, at[k - i], at[k - i + 1])
  }

  predicate Takes(c: char, s: string, from: nat, to: nat) {
    if c == '*' then from <= to else from < |s| && to == from + 1 && (c == '?' || c == s[from])
  }

  lemma {:induction false} LayFrom(w: string, i: nat, s: string, j: nat) returns (at: seq<nat>)
    requires Match(w, i, s, j)
    ensures i <= |w| && Laid(w, i, s, at) && at[0] == j
    decreases |w| + |s| - i - j
  {
    if i == |w| {
      at := [j];
    } else if w[i] == '*' && !Match(w, i + 1, s, j) {
      var rest := LayFrom(w, i, s, j + 1);
      at := rest[0 := j];
    } else {
      var rest := LayFrom(w, i + 1, s, if w[i] == '*' then j else j + 1);
      at := [j] + rest;
      forall k | i < k < |w|
        ensures Takes(w[k], s, at[k - i], at[k - i + 1])
      {
        assert Takes(w[k], s, rest[k - (i + 1)], rest[k - (i + 1) + 1]);
      }
    }
  }

  lemma {:induction false} LaidRises(w: string, i: nat, s: string, at: seq<nat>, k: nat)
    requires Laid(w, i, s, at) && k <= |w| - i
    ensures at[k] <= |s|
    decreases |w| - i - k
  {
    if k < |w| - i {
      assert Takes(w[i + k], s, at[i + k - i], at[i + k - i + 1]);
      LaidRises(w, i, s, at, k + 1);
    }
  }

  lemma {:induction false} LaidMatches(w: string, i: nat, s: string, at: seq<nat>)
    requires Laid(w, i, s, at)
    ensures Match(w, i, s, at[0])
    decreases |w| - i
  {
    LaidRises(w, i, s, at, 0);
    if i < |w| {
      assert Takes(w[i], s, at[0], at[1]);
      LaidRises(w, i, s, at, 1);
      var rest := at[1..];
      forall k | i < k < |w|
        ensures Takes(w[k], s, rest[k - (i + 1)], rest[k - (i + 1) + 1])
      {
        assert Takes(w[k], s, at[k - i], at[k - i + 1]);
      }
      LaidMatches(w, i + 1, s, rest);
      if w[i] == '*' {
        StarEarlier(w, i, s, at[0], rest[0]);
      }
    }
  }

  /** A string matches exactly if the pattern can be laid over it from its beginning to its end. */
  lemma MatchMeans(w: string, s: string)
    ensures Match(w, 0, s, 0) <==> exists at :: Laid(w, 0, s, at) && at[0] == 0
  {
    if Match(w, 0, s, 0) {
      var at := LayFrom(w, 0, s, 0);
    }
    if at :| Laid(w, 0, s, at) && at[0] == 0 {
      LaidMatches(w, 0, s, at);
    }
  }

  predicate NoStar(w: string, i: nat, k: nat) {
    i <= k <= |w| && forall l :: i <= l < k ==> w[l] != '*'
  }

  /** A star matches more when it starts earlier. */
  lemma {:induction false} StarEarlier(w: string, i: nat, s: string, j: nat, k: nat)
    requires i < |w| && w[i] == '*' && j <= k && Match(w, i, s, k)
    ensures Match(w, i, s, j)
    decreases k - j
  {
    if j < k {
      StarEarlier(w, i, s, j + 1, k);
    }
  }

  /** A part of the pattern without stars takes its own length. */
  lemma {:induction false} PartTakes(w: string, i: nat, k: nat, s: string, j: nat)
    requires NoStar(w, i, k) && Match(w, i, s, j)
    ensures Match(w, k, s, j + (k - i))
    decreases k - i
  {
    if i < k {
      PartTakes(w, i + 1, k, s, j + 1);
    }
  }

  /** A star, if it matches at all, matches with the rest of the pattern put somewhere. */
  lemma {:induction false} StarPlace(w: string, i: nat, s: string, j: nat) returns (k: nat)
    requires i < |w| && w[i] == '*' && Match(w, i, s, j)
    ensures j <= k <= |s| && Match(w, i + 1, s, k)
    decreases |s| - j
  {
    if Match(w, i + 1, s, j) {
      k := j;
    } else {
      k := StarPlace(w, i, s, j + 1);
    }
  }

  lemma {:induction false} LastStarTakesAll(w: string, i: nat, s: string, j: nat)
    requires i + 1 == |w| && w[i] == '*' && j <= |s|
    ensures Match(w, i, s, j)
    decreases |s| - j
  {
    if j < |s| {
      LastStarTakesAll(w, i, s, j + 1);
    }
  }

  /** The older star can be forgotten: wherever it would put the part behind it, the newer star takes over. */
  lemma OlderStar(w: string, mp: nat, i: nat, s: string, cp: nat, j: nat)
    requires 0 < mp && NoStar(w, mp, i) && i < |w| && w[i] == '*' && w[mp - 1] == '*' && 0 < cp
      && j + 1 == cp + (i - mp)
    ensures Match(w, mp - 1, s, cp) ==> Match(w, i, s, j)
  {
    if Match(w, mp - 1, s, cp) {
      var k := StarPlace(w, mp - 1, s, cp);
      PartTakes(w, mp, i, s, k);
      StarEarlier(w, i, s, j, k + (i - mp));
    }
  }

  /** At the end of the string no later place for the part behind the star is left. */
  lemma NoLaterPlace(w: string, mp: nat, i: nat, s: string, cp: nat)
    requires 0 < mp && NoStar(w, mp, i) && w[mp - 1] == '*' && 0 < cp && |s| + 1 == cp + (i - mp)
    ensures !Match(w, mp - 1, s, cp)
  {
    if Match(w, mp - 1, s, cp) {
      var k := StarPlace(w, mp - 1, s, cp);
      PartTakes(w, mp, i, s, k);
    }
  }

  lemma {:induction false} OnlyStars(w: string, i: nat, k: nat, s: string)
    requires i <= k <= |w| && (forall l :: i <= l < k ==> w[l] == '*') && (k < |w| ==> w[k] != '*')
    ensures Match(w, i, s, |s|) == (k == |w|)
    decreases k - i
  {
    if i < k {
      OnlyStars(w, i + 1, k, s);
    }
  }

  /** wildcmp */
  method Wildcmp(wild: string, str: string) returns (same: bool)
    requires CString(wild) && CString(str)
    ensures same == Match(wild, 0, str, 0)
  {
    var w: nat, s: nat := 0, 0;
    while At(str, s) != '\0' && At(wild, w) != '*'
      invariant w <= |wild| && s <= |str| && Match(wild, w, str, s) == Match(wild, 0, str, 0)
      decreases |str| - s
    {
      if At(wild, w) != At(str, s) && At(wild, w) != '?' {
        return false;
      }
      w, s := w + 1, s + 1;
    }
    w, s, same := MatchStars(wild, str, w, s);
    if same {
      return;
    }
    ghost var w0 := w;
    while At(wild, w) == '*'
      invariant w0 <= w <= |wild| && forall l :: w0 <= l < w ==> wild[l] == '*'
      decreases |wild| - w
    {
      w := w + 1;
    }
    if s == |str| {
      OnlyStars(wild, w0, w, str);
    }
    return At(wild, w) == '\0';
  }

  /** The second loop of wildcmp: either the pattern ends in a star, or the string is used up. */
  method MatchStars(wild: string, str: string, w0: nat, s0: nat) returns (w: nat, s: nat, done: bool)
    requires CString(wild) && CString(str) && w0 <= |wild| && s0 <= |str| && (s0 < |str| ==> At(wild, w0) == '*')
    ensures w <= |wild| && s <= |str|
    ensures done ==> Match(wild, w0, str, s0)
    ensures !done ==> s == |str| && Match(wild, w, str, s) == Match(wild, w0, str, s0)
  {
    w, s, done := w0, s0, false;
    var mp: int, cp: nat := -1, 0;
    while At(str, s) != '\0'
      invariant w <= |wild| && s <= |str| && (mp == -1 ==> w == w0 && s == s0)
      invariant mp != -1 ==> 0 < mp && NoStar(wild, mp, w) && wild[mp - 1] == '*' && 0 < cp && s + 1 == cp + (w - mp)
      invariant mp != -1 ==> Match(wild, w0, str, s0) == (Match(wild, w, str, s) || Match(wild, mp - 1, str, cp))
      decreases |wild| - mp, |str| + 1 - cp, |wild| - w
    {
      if At(wild, w) == '*' {
        if mp != -1 {
          OlderStar(wild, mp, w, str, cp, s);
        }
        w := w + 1;
        if At(wild, w) == '\0' {
          LastStarTakesAll(wild, w - 1, str, s);
          return w, s, true;
        }
        mp := w;
        cp := s + 1;
      } else if At(wild, w) == At(str, s) || At(wild, w) == '?' {
        w, s := w + 1, s + 1;
      } else {
        w, s := mp, cp;
        cp := cp + 1;
      }
    }
    if mp != -1 {
      NoLaterPlace(wild, mp, w, str, cp);
    }
  }
}
