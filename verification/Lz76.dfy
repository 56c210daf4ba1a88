/** The number of phrases in a text's Lempel-Ziv (1976) parse: Kaspar and Schuster's one loop computes the
    exhaustive history. */
module Lz76 {
  type Byte = b: int | 0 <= b < 256

  /** How far the text from `i` agrees with the text from `l`. The two may overlap. */
  function Match(s: seq<Byte>, i: nat, l: nat): (m: nat)
    requires i <= l <= |s|
    ensures l + m <= |s| && i + m <= |s|
    decreases |s| - l
  {
    if l < |s| && s[i] == s[l] then 1 + Match(s, i + 1, l + 1) else 0
  }

  /** The longest match of the text from `l` with a start before `i`. */
  function Longest(s: seq<Byte>, i: nat, l: nat): (m: nat)
    requires i <= l <= |s|
    ensures l + m <= |s|
  {
    if i == 0 then 0
    else
      var best := Longest(s, i - 1, l);
      var m := Match(s, i - 1, l);
      if m > best then m else best
  }

  /** The length of the phrase that starts at `l`: one more than the longest match, or to the end. */
  function Phrase(s: seq<Byte>, l: nat): (p: nat)
    requires l < |s|
    ensures 1 <= p <= |s| - l
  {
    var m := Longest(s, l, l);
    if l + m < |s| then m + 1 else m
  }

  /** The number of phrases from `l` on. */
  function Phrases(s: seq<Byte>, l: nat): nat
    requires l <= |s|
    decreases |s| - l
  {
    if l == |s| then 0 else 1 + Phrases(s, l + Phrase(s, l))
  }

  function Max(a: nat, b: nat): nat {
    if a < b then b else a
  }

  /** `lz76_phrases`: the loop that finds the phrases without keeping them. */
  method CountPhrases(s: seq<Byte>) returns (c: nat)
    ensures c == Phrases(s, 0)
  {
    hide Match, Longest, Phrase, Phrases;
    var n := |s|;
    FirstPhrase(s);
    if n < 2 {
      return n;
    }
    var i, k, l, kMax := 0, 1, 1, 1;
    c := 1;
    while true
      invariant i < l < n && 1 <= k && l + k <= n
      invariant k - 1 + Match(s, i + k - 1, l + k - 1) == Match(s, i, l)
      invariant l + kMax <= n && kMax == 1 + Longest(s, i, l)
      invariant c + Phrases(s, l) == Phrases(s, 0)
      decreases n - l, l - i, n - l - k
    {
      MatchStep(s, i + k - 1, l + k - 1);
      LongestStep(s, i, l);
      if s[i + k - 1] == s[l + k - 1] {
        k := k + 1;
        if l + k > n {
          LongestOfAll(s, i, l);
          c := c + 1;
          break;
        }
      } else {
        kMax := Max(kMax, k);
        i := i + 1;
        if i == l {
          PhraseEnds(s, l);
          LongestOfNone(s, l + kMax);
          c := c + 1;
          l := l + kMax;
          if l + 1 > n {
            break;
          }
          i := 0;
          k := 1;
          kMax := 1;
        } else {
          k := 1;
        }
      }
    }
  }

  lemma FirstPhrase(s: seq<Byte>)
    ensures |s| > 0 ==> Phrases(s, 0) == 1 + Phrases(s, 1)
    ensures |s| < 2 ==> Phrases(s, 0) == |s|
    ensures |s| > 0 ==> Longest(s, 0, 1) == 0
  {
  }

  lemma MatchStep(s: seq<Byte>, i: nat, l: nat)
    requires i <= l < |s|
    ensures Match(s, i, l) == if s[i] == s[l] then 1 + Match(s, i + 1, l + 1) else 0
  {
  }

  lemma LongestStep(s: seq<Byte>, i: nat, l: nat)
    requires i < l <= |s|
    ensures Longest(s, i + 1, l) == Max(Longest(s, i, l), Match(s, i, l))
  {
  }

  lemma PhraseEnds(s: seq<Byte>, l: nat)
    requires l < |s| && l + Longest(s, l, l) < |s|
    ensures Phrases(s, l) == 1 + Phrases(s, l + Longest(s, l, l) + 1)
  {
  }

  lemma LongestOfNone(s: seq<Byte>, l: nat)
    requires l <= |s|
    ensures Longest(s, 0, l) == 0
    ensures l == |s| ==> Phrases(s, l) == 0
  {
  }

  lemma {:induction false} LongestGrows(s: seq<Byte>, i: nat, j: nat, l: nat)
    requires i <= j <= l <= |s|
    ensures Longest(s, i, l) <= Longest(s, j, l)
  {
    if i < j {
      LongestGrows(s, i, j - 1, l);
    }
  }

  /** A match that reaches the end makes the phrase at `l` the last. */
  lemma LongestOfAll(s: seq<Byte>, i: nat, l: nat)
    requires i < l < |s| && l + Match(s, i, l) == |s|
    ensures Phrases(s, l) == 1
  {
    LongestGrows(s, i + 1, l, l);
  }

  // ----- the parse is the exhaustive history -----

  /** The `m` bytes from `i` are the `m` bytes from `l`. */
  predicate SameStretch(s: seq<Byte>, i: nat, l: nat, m: nat)
    requires i <= l && l + m <= |s|
  {
    s[i..i + m] == s[l..l + m]
  }

  lemma SameStretchStep(s: seq<Byte>, i: nat, l: nat, m: nat)
    requires i <= l && m > 0 && l + m <= |s|
    ensures SameStretch(s, i, l, m) <==> s[i] == s[l] && SameStretch(s, i + 1, l + 1, m - 1)
  {
    var a, b := s[i..i + m], s[l..l + m];
    assert a == [s[i]] + s[i + 1..i + 1 + (m - 1)];
    assert b == [s[l]] + s[l + 1..l + 1 + (m - 1)];
    assert a[1..] == s[i + 1..i + 1 + (m - 1)] && b[1..] == s[l + 1..l + 1 + (m - 1)];
    assert a[0] == s[i] && b[0] == s[l];
  }

  lemma {:induction false} MatchIs(s: seq<Byte>, i: nat, l: nat, m: nat)
    requires i <= l <= |s| && l + m <= |s|
    ensures SameStretch(s, i, l, m) <==> m <= Match(s, i, l)
    decreases |s| - l
  {
    if m > 0 {
      SameStretchStep(s, i, l, m);
      hide SameStretch;
      MatchIs(s, i + 1, l + 1, m - 1);
    }
  }

  lemma {:induction false} LongestIs(s: seq<Byte>, i: nat, l: nat)
    requires i <= l <= |s|
    ensures forall j :: 0 <= j < i ==> Match(s, j, l) <= Longest(s, i, l)
    ensures Longest(s, i, l) > 0 ==> exists j :: 0 <= j < i && Match(s, j, l) == Longest(s, i, l)
  {
    if i > 0 {
      LongestIs(s, i - 1, l);
    }
  }

  /** The stretch of length `m` from `l` has been seen before, starting before `l`. */
  ghost predicate Seen(s: seq<Byte>, l: nat, m: nat)
    requires l + m <= |s|
  {
    exists i :: 0 <= i < l && SameStretch(s, i, l, m)
  }

  /** What each phrase is: everything short of it has been seen before, and the whole of it has not, but
      for a last phrase that the text's end cuts short. */
  lemma PhraseIsShortestUnseen(s: seq<Byte>, l: nat, m: nat)
    requires l < |s| && 1 <= m <= |s| - l
    ensures m < Phrase(s, l) ==> Seen(s, l, m)
    ensures m >= Phrase(s, l) && l + Phrase(s, l) < |s| ==> !Seen(s, l, m)
    ensures !Seen(s, l, m) ==> m >= Phrase(s, l)
  {
    hide SameStretch;
    LongestIs(s, l, l);
    if m <= Longest(s, l, l) {
      var j :| 0 <= j < l && Match(s, j, l) == Longest(s, l, l);
      MatchIs(s, j, l, m);
      assert Seen(s, l, m);
    } else {
      forall i | 0 <= i < l ensures !SameStretch(s, i, l, m) {
        MatchIs(s, i, l, m);
      }
    }
  }
}
