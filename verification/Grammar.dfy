/** The arena's program space: typed trees over integer lists, the limits of the profile they
    are drawn under, and what it means for a tree to be one the surface can write. */
module Grammar {
  import opened Text

  datatype IntExpr =
    | Lit(n: nat)
    | Var(name: string)
    | Add(l: IntExpr, r: IntExpr)
    | Sub(l: IntExpr, r: IntExpr)
    | Mul(l: IntExpr, r: IntExpr)
    | Mod(e: IntExpr, k: nat)

  /** `x_{t+1} = (a x_t - b x_{t-1}) >> k`, emitting `n` values from the seed `x_1`. */
  datatype Oscillator = Oscillator(n: nat, x1: nat, x0: nat, a: nat, b: nat, k: nat)

  datatype ListExpr =
    | Range(n: nat)
    | Repeat(e: IntExpr, n: nat)
    | Map(xs: ListExpr, v: string, body: IntExpr)
    | Scan(xs: ListExpr, init: IntExpr, a: string, x: string, body: IntExpr)
    | Filter(xs: ListExpr, v: string, k: nat, rem: nat)
    | Reverse(xs: ListExpr)
    | Sort(xs: ListExpr)
    | Take(xs: ListExpr, n: nat)
    | Concat(l: ListExpr, r: ListExpr)
    | Copy(xs: ListExpr, n: nat)
    | Cycle(v: string, elems: seq<IntExpr>, len: nat)
    | Nest(v: string, n: nat, k: nat)
    | Osc(o: Oscillator)

  /** The limits of the profile, inclusive. */
  datatype Limits = Limits(
    literal: Bound, modulus: Bound, range: Bound, take: Bound, repeat: Bound,
    cycleLen: Bound, cycleElems: Bound, copy: Bound, nestCount: Bound, nestMod: Bound,
    filterMod: Bound, oscLen: Bound, oscShift: Bound,
    maxDepth: nat, intExtraDepth: nat, maxNest: nat)
  {
    function MaxIntDepth(): nat {
      maxDepth + intExtraDepth
    }

    /** What the parser and the depth check need of the limits. No shift takes a coefficient's bound,
        `2^(k + 1)`, out of a word. */
    predicate Readable() {
      && literal.hi <= U64_MAX && modulus.hi <= U64_MAX && range.hi < U64_MAX && take.hi <= U64_MAX
      && repeat.hi <= U64_MAX && cycleLen.hi <= U64_MAX && cycleElems.hi <= U64_MAX && copy.hi <= U64_MAX
      && nestCount.hi <= U64_MAX && nestMod.hi <= U64_MAX && filterMod.hi <= U64_MAX && oscShift.hi < 63
      && filterMod.lo >= 1 && cycleElems.lo >= 1
      && intExtraDepth >= 1 && maxNest >= MaxIntDepth() + 1
    }

    /** What the sampler needs besides: every range has a value in it, and an oscillator drawn
        from its own ranges is one the parser reads. */
    predicate Samplable() {
      && Readable()
      && literal.lo == 0 && Drawable(literal) && Drawable(modulus) && Drawable(range) && Drawable(take)
      && Drawable(repeat) && Drawable(cycleLen) && Drawable(cycleElems) && Drawable(copy) && Drawable(nestCount)
      && Drawable(nestMod) && Drawable(filterMod) && Drawable(oscLen) && Drawable(oscShift)
      && oscLen.lo >= 1 && range.lo <= oscLen.lo - 1 && oscLen.hi - 1 <= range.hi
      && oscShift.lo >= 1 && Pow2(oscShift.hi + 1) <= literal.hi
    }
  }

  /** There is a value to draw, and the number of values fits in a word. */
  predicate Drawable(b: Bound) {
    b.lo <= b.hi && b.hi - b.lo < U64_MAX
  }

  function Pow2(k: nat): (p: nat)
    ensures p >= 1
  {
    if k == 0 then 1 else 2 * Pow2(k - 1)
  }

  lemma {:induction false} Pow2Monotone(j: nat, k: nat)
    requires j <= k
    ensures Pow2(j) <= Pow2(k)
  {
    if j < k {
      Pow2Monotone(j, k - 1);
    }
  }

  /** No coefficient's bound leaves the word it is shifted in. */
  lemma ShiftFits(g: Limits, k: nat)
    requires g.Readable() && g.oscShift.Has(k)
    ensures Pow2(k + 1) <= 0x8000_0000_0000_0000 <= U64_MAX
  {
    Pow2Monotone(k + 1, 63);
    assert Pow2(7) == 128 by {
      assert Pow2(3) == 8;
    }
    hide Pow2;
    Pow2Byte(7);
    Pow2Byte(15);
    Pow2Byte(23);
    Pow2Byte(31);
    Pow2Byte(39);
    Pow2Byte(47);
    Pow2Byte(55);
  }

  lemma Pow2Byte(k: nat)
    ensures Pow2(k + 8) == 256 * Pow2(k)
  {
    assert Pow2(k + 4) == 16 * Pow2(k) by {
      assert Pow2(k + 2) == 4 * Pow2(k);
    }
    assert Pow2(k + 6) == 64 * Pow2(k);
  }

  /** The limits the arena ships with: its profile's facts. */
  const SHIPPED: Limits := Limits(
    literal := Bound(0, 255), modulus := Bound(2, 256), range := Bound(1, 48), take := Bound(1, 48),
    repeat := Bound(1, 12), cycleLen := Bound(4, 48), cycleElems := Bound(2, 6), copy := Bound(2, 6),
    nestCount := Bound(2, 12), nestMod := Bound(2, 8), filterMod := Bound(2, 7),
    oscLen := Bound(2, 49), oscShift := Bound(1, 6), maxDepth := 5, intExtraDepth := 2, maxNest := 64)

  lemma ShippedLimitsServe()
    ensures SHIPPED.Samplable()
  {
    assert Pow2(1) == 2 && Pow2(2) == 4 && Pow2(3) == 8 && Pow2(4) == 16;
    assert Pow2(5) == 32 && Pow2(6) == 64 && Pow2(7) == 128;
  }

  // ----- the depth limit -----

  predicate IsListLeaf(e: ListExpr) {
    e.Range? || e.Repeat? || e.Cycle? || e.Nest? || e.Osc?
  }

  predicate IsIntLeaf(e: IntExpr) {
    e.Lit? || e.Var?
  }

  /** `check_int_depth` accepts `e` at depth `d`. */
  predicate IntFits(g: Limits, e: IntExpr, d: nat) {
    && d <= g.MaxIntDepth() && (d == g.MaxIntDepth() ==> IsIntLeaf(e))
    && match e
       case Lit(_) => true
       case Var(_) => true
       case Add(l, r) => IntFits(g, l, d + 1) && IntFits(g, r, d + 1)
       case Sub(l, r) => IntFits(g, l, d + 1) && IntFits(g, r, d + 1)
       case Mul(l, r) => IntFits(g, l, d + 1) && IntFits(g, r, d + 1)
       case Mod(a, _) => IntFits(g, a, d + 1)
  }

  /** `check_list_depth` accepts `e` at depth `d`. */
  predicate Fits(g: Limits, e: ListExpr, d: nat) {
    && d <= g.maxDepth && (d == g.maxDepth ==> IsListLeaf(e))
    && match e
       case Range(_) => true
       case Cycle(_, _, _) => true
       case Nest(_, _, _) => true
       case Osc(_) => true
       case Repeat(i, _) => IntFits(g, i, d + 1)
       case Map(xs, _, b) => Fits(g, xs, d + 1) && IntFits(g, b, d + 1)
       case Scan(xs, init, _, _, b) => Fits(g, xs, d + 1) && IntFits(g, init, d + 1) && IntFits(g, b, d + 1)
       case Filter(xs, _, _, _) => Fits(g, xs, d + 1)
       case Reverse(xs) => Fits(g, xs, d + 1)
       case Sort(xs) => Fits(g, xs, d + 1)
       case Take(xs, _) => Fits(g, xs, d + 1)
       case Concat(l, r) => Fits(g, l, d + 1) && Fits(g, r, d + 1)
       case Copy(xs, _) => Fits(g, xs, d + 1)
  }

  // ----- scope -----

  predicate IntClosed(e: IntExpr, scope: seq<string>) {
    match e
    case Lit(_) => true
    case Var(v) => v in scope
    case Add(l, r) => IntClosed(l, scope) && IntClosed(r, scope)
    case Sub(l, r) => IntClosed(l, scope) && IntClosed(r, scope)
    case Mul(l, r) => IntClosed(l, scope) && IntClosed(r, scope)
    case Mod(a, _) => IntClosed(a, scope)
  }

  /** `closed`: every variable `e` names exists in `scope` or is bound above it. */
  predicate Closed(e: ListExpr, scope: seq<string>) {
    match e
    case Range(_) => true
    case Repeat(i, _) => IntClosed(i, scope)
    case Map(xs, v, body) => Closed(xs, scope) && IntClosed(body, scope + [v])
    case Scan(xs, init, a, x, body) =>
      Closed(xs, scope) && IntClosed(init, scope) && IntClosed(body, scope + [a, x])
    case Filter(xs, _, _, _) => Closed(xs, scope)
    case Reverse(xs) => Closed(xs, scope)
    case Sort(xs) => Closed(xs, scope)
    case Take(xs, _) => Closed(xs, scope)
    case Concat(l, r) => Closed(l, scope) && Closed(r, scope)
    case Copy(xs, _) => Closed(xs, scope)
    case Cycle(_, elems, _) => forall i :: 0 <= i < |elems| ==> IntClosed(elems[i], scope)
    case Nest(_, _, _) => true
    case Osc(_) => true
  }

  // ----- what the surface can write -----

  /** The names the surface reads as operators, so that no variable can have them. A binder
      can: it is then a binder nothing refers to. */
  predicate IsOperator(v: string) {
    v == "wrapping_add" || v == "wrapping_sub" || v == "wrapping_mul"
  }

  /** No name in scope is an operator. So it is where lists stand, under `s` alone. */
  predicate PlainScope(scope: seq<string>) {
    forall v :: v in scope ==> IsName(v) && !IsOperator(v)
  }

  predicate IntWritable(g: Limits, e: IntExpr) {
    match e
    case Lit(n) => g.literal.Has(n)
    case Var(v) => IsName(v) && !IsOperator(v)
    case Add(l, r) => IntWritable(g, l) && IntWritable(g, r)
    case Sub(l, r) => IntWritable(g, l) && IntWritable(g, r)
    case Mul(l, r) => IntWritable(g, l) && IntWritable(g, r)
    case Mod(a, k) => IntWritable(g, a) && g.modulus.Has(k)
  }

  /** What an element of a template may be. */
  predicate ElemWritable(g: Limits, e: IntExpr) {
    IsIntLeaf(e) && IntWritable(g, e)
  }

  predicate OscWritable(g: Limits, o: Oscillator) {
    && o.n >= 1 && g.range.Has(o.n - 1)
    && g.literal.Has(o.x1) && g.literal.Has(o.x0) && g.literal.Has(o.a) && g.literal.Has(o.b)
    && g.oscShift.Has(o.k) && o.a <= Pow2(o.k + 1) && o.b < Pow2(o.k)
  }

  /** Every literal and length is within its limit and every name is one the surface can spell. */
  predicate Writable(g: Limits, e: ListExpr) {
    match e
    case Range(n) => g.range.Has(n)
    case Repeat(i, n) => IntWritable(g, i) && g.repeat.Has(n)
    case Map(xs, v, body) => Writable(g, xs) && IsName(v) && IntWritable(g, body)
    case Scan(xs, init, a, x, body) =>
      Writable(g, xs) && IntWritable(g, init) && IsName(a) && IsName(x) && IntWritable(g, body)
    case Filter(xs, v, k, r) => Writable(g, xs) && IsName(v) && g.filterMod.Has(k) && r < k
    case Reverse(xs) => Writable(g, xs)
    case Sort(xs) => Writable(g, xs)
    case Take(xs, n) => Writable(g, xs) && g.take.Has(n)
    case Concat(l, r) => Writable(g, l) && Writable(g, r)
    case Copy(xs, n) => Writable(g, xs) && g.copy.Has(n)
    case Cycle(v, elems, len) =>
      && IsName(v) && g.cycleElems.Has(|elems|) && g.cycleLen.Has(len)
      && forall i :: 0 <= i < |elems| ==> ElemWritable(g, elems[i])
    case Nest(v, n, k) => IsName(v) && g.nestCount.Has(n) && g.nestMod.Has(k)
    case Osc(o) => OscWritable(g, o)
  }

  /** No oscillator anywhere: the trees a policy without the second-order form can write. */
  predicate NoOscillator(e: ListExpr) {
    match e
    case Range(_) => true
    case Repeat(_, _) => true
    case Map(xs, _, _) => NoOscillator(xs)
    case Scan(xs, _, _, _, _) => NoOscillator(xs)
    case Filter(xs, _, _, _) => NoOscillator(xs)
    case Reverse(xs) => NoOscillator(xs)
    case Sort(xs) => NoOscillator(xs)
    case Take(xs, _) => NoOscillator(xs)
    case Concat(l, r) => NoOscillator(l) && NoOscillator(r)
    case Copy(xs, _) => NoOscillator(xs)
    case Cycle(_, _, _) => true
    case Nest(_, _, _) => true
    case Osc(_) => false
  }

  /** The scope a program's body stands in: `gen(s)`. */
  const TOP_SCOPE: seq<string> := ["s"]

  lemma TopScopeIsPlain()
    ensures PlainScope(TOP_SCOPE)
  {
    assert IsName("s") && |"s"| == 1;
  }

  /** What the surface can write as a subtree at depth `d`, under a policy with or without the
      second-order form. */
  predicate WellFormedAt(g: Limits, secondOrder: bool, e: ListExpr, d: nat) {
    Writable(g, e) && Closed(e, TOP_SCOPE) && Fits(g, e, d) && (secondOrder || NoOscillator(e))
  }

  predicate WellFormed(g: Limits, secondOrder: bool, e: ListExpr) {
    WellFormedAt(g, secondOrder, e, 0)
  }
}
