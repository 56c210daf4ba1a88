/** SplitMix64, the arena's random numbers, and a draw from a discrete distribution. */
module Random {
  import opened Text

  const GAMMA: bv64 := 0x9E37_79B9_7F4A_7C15

  /** The generator between two draws. */
  datatype State = State(bits: bv64)

  /** The output for a state. */
  function Mix(z: bv64): bv64 {
    var y := (z ^ (z >> 30)) * 0xBF58_476D_1CE4_E5B9;
    var x := (y ^ (y >> 27)) * 0x94D0_49BB_1331_11EB;
    x ^ (x >> 31)
  }

  /** What a draw leaves of the generator. */
  function After(s: State): State {
    State(s.bits + GAMMA)
  }

  /** The word that a draw gives. */
  function Word(s: State): (w: nat)
    ensures w <= U64_MAX
  {
    Mix(s.bits + GAMMA) as nat
  }

  /** A word as a fraction in `[0, 1)`: its top 53 bits. */
  function Unit(word: nat): (u: real)
    requires word <= U64_MAX
    ensures 0.0 <= u < 1.0
  {
    var top := word / 2048;
    assert top < 9007199254740992;
    top as real / 9007199254740992.0
  }

  /** A word's place among the values `lo..=hi`. */
  function InRange(lo: nat, hi: nat, word: nat): (v: nat)
    requires lo <= hi
    ensures lo <= v <= hi
  {
    lo + word % (hi - lo + 1)
  }

  function IndexOf(n: nat, word: nat): (i: nat)
    requires 0 < n
    ensures i < n
  {
    word % n
  }

  class Rng {
    var state: State

    constructor (seed: bv64)
      ensures state == State(seed)
    {
      state := State(seed);
    }

    method Next() returns (w: nat)
      modifies this
      ensures state == After(old(state)) && w == Word(old(state))
      ensures w <= U64_MAX
    {
      w := Word(state);
      state := After(state);
    }

    method NextUnit() returns (u: real)
      modifies this
      ensures 0.0 <= u < 1.0 && u == Unit(Word(old(state))) && state == After(old(state))
    {
      hide Word, After, Unit;
      var w := Next();
      u := Unit(w);
    }

    /** Uniform in `lo..=hi`. */
    method Range(lo: nat, hi: nat) returns (v: nat)
      requires lo <= hi <= U64_MAX && hi - lo < U64_MAX
      modifies this
      ensures lo <= v <= hi
      ensures v == InRange(lo, hi, Word(old(state))) && state == After(old(state))
    {
      hide Word, After, InRange;
      var w := Next();
      v := InRange(lo, hi, w);
    }

    method Below(n: nat) returns (i: nat)
      requires 0 < n
      modifies this
      ensures i < n
      ensures i == IndexOf(n, Word(old(state))) && state == After(old(state))
    {
      hide Word, After, IndexOf;
      var w := Next();
      i := IndexOf(n, w);
    }

    /** One of the productions `allowed`, by where the draw falls among their probabilities. */
    method Pick(probs: seq<real>, allowed: seq<bool>) returns (i: nat)
      requires |probs| == |allowed| && true in allowed
      modifies this
      ensures i < |allowed| && allowed[i]
      ensures i == Chosen(probs, allowed, Word(old(state))) && state == After(old(state))
    {
      hide Word, After, Unit, First, Mass, LastAllowed, Part;
      var mass := Mass(probs, allowed, |probs|);
      var u := NextUnit();
      u := Part(u, mass);
      ghost var drawn := u;
      assert drawn == Point(probs, allowed, Word(old(state)));
      hide Point;
      i := 0;
      MassSteps(probs, allowed);
      while i < |probs|
        invariant i <= |probs|
        invariant u == drawn - Mass(probs, allowed, i)
        invariant forall j :: 0 <= j < i && allowed[j] ==> drawn >= Mass(probs, allowed, j + 1)
      {
        if allowed[i] {
          if u < probs[i] {
            FirstIs(probs, allowed, drawn, i);
            return;
          }
          u := u - probs[i];
        }
        i := i + 1;
      }
      FirstIs(probs, allowed, drawn, |probs|);
      i := LastAllowed(allowed);
    }
  }

  /** The probability of the allowed productions among the first `n`. */
  function Mass(probs: seq<real>, allowed: seq<bool>, n: nat): real
    requires n <= |probs| == |allowed|
  {
    if n == 0 then 0.0 else Mass(probs, allowed, n - 1) + if allowed[n - 1] then probs[n - 1] else 0.0
  }

  lemma MassSteps(probs: seq<real>, allowed: seq<bool>)
    requires |probs| == |allowed|
    ensures Mass(probs, allowed, 0) == 0.0
    ensures forall i :: 0 <= i < |probs| ==>
              Mass(probs, allowed, i + 1) == Mass(probs, allowed, i) + if allowed[i] then probs[i] else 0.0
  {
  }

  function Part(u: real, m: real): real {
    u * m
  }

  /** Where a random word falls in the whole mass. */
  function Point(probs: seq<real>, allowed: seq<bool>, word: nat): real
    requires |probs| == |allowed| && word <= U64_MAX
  {
    Part(Unit(word), Mass(probs, allowed, |probs|))
  }

  function LastAllowed(allowed: seq<bool>): (i: nat)
    requires true in allowed
    ensures i < |allowed| && allowed[i] && forall j :: i < j < |allowed| ==> !allowed[j]
  {
    if allowed[|allowed| - 1] then |allowed| - 1 else LastAllowed(allowed[..|allowed| - 1])
  }

  /** The first allowed production from `i` on whose cumulative probability passes `u`. */
  function First(probs: seq<real>, allowed: seq<bool>, u: real, i: nat): (r: nat)
    requires i <= |probs| == |allowed|
    ensures i <= r <= |probs| && (r < |probs| ==> allowed[r])
    decreases |probs| - i
  {
    if i == |probs| || (allowed[i] && u < Mass(probs, allowed, i + 1)) then i else First(probs, allowed, u, i + 1)
  }

  /** The production a random word draws: the first that passes it, or else the last allowed. */
  function Chosen(probs: seq<real>, allowed: seq<bool>, word: nat): (i: nat)
    requires |probs| == |allowed| && true in allowed && word <= U64_MAX
    ensures i < |allowed| && allowed[i]
  {
    var i := First(probs, allowed, Point(probs, allowed, word), 0);
    if i < |probs| then i else LastAllowed(allowed)
  }

  lemma FirstIs(probs: seq<real>, allowed: seq<bool>, u: real, i: nat)
    requires i <= |probs| == |allowed|
    requires i < |probs| ==> allowed[i] && u < Mass(probs, allowed, i + 1)
    requires forall j :: 0 <= j < i && allowed[j] ==> u >= Mass(probs, allowed, j + 1)
    ensures First(probs, allowed, u, 0) == i
  {
    FirstFrom(probs, allowed, u, i, 0);
  }

  lemma {:induction false} FirstFrom(probs: seq<real>, allowed: seq<bool>, u: real, i: nat, j: nat)
    requires j <= i <= |probs| == |allowed|
    requires i < |probs| ==> allowed[i] && u < Mass(probs, allowed, i + 1)
    requires forall j :: 0 <= j < i && allowed[j] ==> u >= Mass(probs, allowed, j + 1)
    ensures First(probs, allowed, u, j) == i
    decreases i - j
  {
    if j < i {
      FirstFrom(probs, allowed, u, i, j + 1);
    }
  }

  // ----- the draw is by probability -----

  predicate Nonnegative(probs: seq<real>) {
    forall i :: 0 <= i < |probs| ==> probs[i] >= 0.0
  }

  lemma {:induction false} MassMonotone(probs: seq<real>, allowed: seq<bool>, i: nat, j: nat)
    requires i <= j <= |probs| == |allowed| && Nonnegative(probs)
    ensures Mass(probs, allowed, i) <= Mass(probs, allowed, j)
  {
    if i < j {
      MassMonotone(probs, allowed, i, j - 1);
    }
  }

  /** A point `u` of the whole mass draws production `i` exactly when it falls in the stretch of
      length `probs[i]` that follows the allowed productions before it. So each is drawn with its
      own share of the mass, none that is not allowed is drawn, and the last resort is never needed. */
  lemma DrawnByShare(probs: seq<real>, allowed: seq<bool>, u: real, i: nat)
    requires i < |probs| == |allowed| && Nonnegative(probs)
    requires 0.0 <= u < Mass(probs, allowed, |probs|)
    ensures First(probs, allowed, u, 0) < |probs|
    ensures First(probs, allowed, u, 0) == i <==>
              allowed[i] && Mass(probs, allowed, i) <= u < Mass(probs, allowed, i) + probs[i]
  {
    var f := First(probs, allowed, u, 0);
    FirstPasses(probs, allowed, u, 0);
    if allowed[i] && Mass(probs, allowed, i) <= u < Mass(probs, allowed, i) + probs[i] {
      forall j | 0 <= j < i && allowed[j] ensures u >= Mass(probs, allowed, j + 1) {
        MassMonotone(probs, allowed, j + 1, i);
      }
      FirstIs(probs, allowed, u, i);
    }
  }

  lemma {:induction false} FirstPasses(probs: seq<real>, allowed: seq<bool>, u: real, i: nat)
    requires i <= |probs| == |allowed|
    requires Mass(probs, allowed, i) <= u < Mass(probs, allowed, |probs|)
    ensures var f := First(probs, allowed, u, i);
            f < |probs| && allowed[f] && Mass(probs, allowed, f) <= u < Mass(probs, allowed, f) + probs[f]
    decreases |probs| - i
  {
    if !(allowed[i] && u < Mass(probs, allowed, i + 1)) {
      FirstPasses(probs, allowed, u, i + 1);
    }
  }

  /** When some allowed production has a positive probability, every random word falls inside the
      mass, so that `DrawnByShare` says which production it draws. */
  lemma PointIsInMass(probs: seq<real>, allowed: seq<bool>, word: nat)
    requires |probs| == |allowed| && word <= U64_MAX && Mass(probs, allowed, |probs|) > 0.0
    ensures 0.0 <= Point(probs, allowed, word) < Mass(probs, allowed, |probs|)
  {
    hide Unit, Mass, Part;
    FractionOf(Unit(word), Mass(probs, allowed, |probs|));
  }

  lemma FractionOf(u: real, m: real)
    requires 0.0 <= u < 1.0 && m > 0.0
    ensures 0.0 <= Part(u, m) < m
  {
    assert (1.0 - u) * m > 0.0;
  }
}
