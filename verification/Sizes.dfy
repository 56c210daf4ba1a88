/** Sizes are bounded by construction: a well-formed program is never stuck, and the lists it builds are
    no longer than the limits allow. */
module Sizes {
  import opened Text
  import opened Grammar
  import opened Meaning

  function Max(a: nat, b: nat): nat {
    if a < b then b else a
  }

  /** The longest list a leaf can write. */
  function LeafMax(g: Limits): (n: nat)
    ensures n >= 1
  {
    Max(Max(g.range.hi + 1, g.repeat.hi), Max(g.cycleLen.hi, g.nestCount.hi * g.nestMod.hi))
  }

  /** The most a form lengthens what it is made from: copying, or two lists end to end. */
  function Spread(g: Limits): (n: nat)
    ensures n >= 2 && n >= g.copy.hi
  {
    Max(g.copy.hi, 2)
  }

  function Pow(b: nat, e: nat): (p: nat)
    ensures b >= 1 ==> p >= 1
  {
    if e == 0 then 1 else b * Pow(b, e - 1)
  }

  /** The longest list a subtree at depth `d` builds. */
  function Longest(g: Limits, d: nat): (n: nat)
    requires d <= g.maxDepth
    ensures n >= LeafMax(g)
    decreases g.maxDepth - d
  {
    if d == g.maxDepth then LeafMax(g)
    else
      SpreadDoubles(g, Longest(g, d + 1));
      Spread(g) * Longest(g, d + 1)
  }

  lemma SpreadDoubles(g: Limits, n: nat)
    ensures Spread(g) * n >= 2 * n
  {
    hide Spread;
    var s := Spread(g);
    assert s * n == 2 * n + (s - 2) * n;
  }

  /** The bound is the longest leaf times a power of the spread. */
  lemma {:induction false} LongestIs(g: Limits, d: nat)
    requires d <= g.maxDepth
    ensures Longest(g, d) == LeafMax(g) * Pow(Spread(g), g.maxDepth - d)
    decreases g.maxDepth - d
  {
    hide LeafMax, Spread;
    if d < g.maxDepth {
      LongestIs(g, d + 1);
      MultiplyOut(LeafMax(g), Spread(g), Pow(Spread(g), g.maxDepth - d - 1), Longest(g, d + 1));
    }
  }

  lemma MultiplyOut(l: nat, s: nat, p: nat, n: nat)
    requires n == l * p
    ensures s * n == l * (s * p)
  {
  }

  /** The limits that a remainder is taken by have no zero in them. */
  predicate DividesSafely(g: Limits) {
    g.modulus.lo >= 1 && g.nestMod.lo >= 1 && g.filterMod.lo >= 1 && g.cycleElems.lo >= 1
  }

  lemma LongestGrows(g: Limits, d: nat)
    requires d <= g.maxDepth
    ensures Longest(g, d) >= LeafMax(g) >= 1
    ensures d < g.maxDepth ==> Longest(g, d) == Spread(g) * Longest(g, d + 1)
    ensures d < g.maxDepth ==> Longest(g, d) >= 2 * Longest(g, d + 1)
    ensures d < g.maxDepth ==> Longest(g, d) >= Longest(g, d + 1) + 1
  {
    hide LeafMax, Spread;
    if d < g.maxDepth {
      SpreadDoubles(g, Longest(g, d + 1));
    }
  }

  lemma {:induction false} IntNeverStuck(g: Limits, rem: Remainder, e: IntExpr, scope: seq<string>, vals: seq<int>)
    requires |scope| == |vals| && DividesSafely(g)
    requires IntWritable(g, e) && IntClosed(e, scope)
    ensures IntValue(rem, e, scope, vals).Some?
  {
    hide Wrap, IsName, IsOperator;
    match e
    case Lit(_) =>
    case Var(_) =>
    case Mod(a, _) => IntNeverStuck(g, rem, a, scope, vals);
    case Add(l, r) =>
      IntNeverStuck(g, rem, l, scope, vals);
      IntNeverStuck(g, rem, r, scope, vals);
    case Sub(l, r) =>
      IntNeverStuck(g, rem, l, scope, vals);
      IntNeverStuck(g, rem, r, scope, vals);
    case Mul(l, r) =>
      IntNeverStuck(g, rem, l, scope, vals);
      IntNeverStuck(g, rem, r, scope, vals);
  }

  lemma {:induction false} MapNeverStuck(g: Limits, rem: Remainder, xs: seq<int>, v: string, body: IntExpr, input: int)
    requires DividesSafely(g) && IntWritable(g, body) && IntClosed(body, TOP_SCOPE + [v])
    ensures MapValues(rem, xs, v, body, input).Some?
  {
    hide IntWritable, IntClosed, IntValue;
    if xs != [] {
      IntNeverStuck(g, rem, body, TOP_SCOPE + [v], [input, xs[0]]);
      MapNeverStuck(g, rem, xs[1..], v, body, input);
    }
  }

  lemma {:induction false} ScanNeverStuck(g: Limits, rem: Remainder, xs: seq<int>, acc: int, a: string, x: string,
                                          body: IntExpr, input: int)
    requires DividesSafely(g) && IntWritable(g, body) && IntClosed(body, TOP_SCOPE + [a, x])
    ensures ScanValues(rem, xs, acc, a, x, body, input).Some?
    decreases |xs|
  {
    hide IntWritable, IntClosed, IntValue;
    if xs != [] {
      IntNeverStuck(g, rem, body, TOP_SCOPE + [a, x], [input, acc, xs[0]]);
      ScanNeverStuck(g, rem, xs[1..], IntValue(rem, body, TOP_SCOPE + [a, x], [input, acc, xs[0]]).value, a, x, body,
                     input);
    }
  }

  lemma {:induction false} ScopeGrows(e: IntExpr, scope: seq<string>, v: string)
    requires IntClosed(e, scope)
    ensures IntClosed(e, scope + [v])
  {
    match e
    case Lit(_) =>
    case Var(_) =>
    case Mod(a, _) => ScopeGrows(a, scope, v);
    case Add(l, r) =>
      ScopeGrows(l, scope, v);
      ScopeGrows(r, scope, v);
    case Sub(l, r) =>
      ScopeGrows(l, scope, v);
      ScopeGrows(r, scope, v);
    case Mul(l, r) =>
      ScopeGrows(l, scope, v);
      ScopeGrows(r, scope, v);
  }

  lemma {:induction false} CycleNeverStuck(g: Limits, rem: Remainder, v: string, elems: seq<IntExpr>, i: nat,
                                           len: nat, input: int)
    requires i <= len && DividesSafely(g) && elems != []
    requires forall j :: 0 <= j < |elems| ==> IntWritable(g, elems[j]) && IntClosed(elems[j], TOP_SCOPE)
    ensures CycleValues(rem, v, elems, i, len, input).Some?
    decreases len - i
  {
    hide IntWritable, IntClosed, IntValue, Wrap;
    if i < len {
      var e := elems[i % |elems|];
      ScopeGrows(e, TOP_SCOPE, v);
      IntNeverStuck(g, rem, e, TOP_SCOPE + [v], [input, Wrap(i)]);
      CycleNeverStuck(g, rem, v, elems, i + 1, len, input);
    }
  }

  lemma ProductsAreMonotone(a: nat, b: nat, c: nat, d: nat)
    requires a <= c && b <= d
    ensures a * b <= c * d
  {
    assert a * b <= a * d;
    assert a * d <= c * d;
  }

  lemma LeafIsBounded(g: Limits, rem: Remainder, e: ListExpr, input: int)
    requires DividesSafely(g) && IsListLeaf(e) && Writable(g, e) && Closed(e, TOP_SCOPE)
    ensures ListValue(rem, e, input).Some? && |ListValue(rem, e, input).value| <= LeafMax(g)
  {
    hide IntWritable, IntClosed, IntValue, Wrap, IsName, Pow2, OscNext;
    match e
    case Range(_) =>
    case Repeat(a, _) => IntNeverStuck(g, rem, a, TOP_SCOPE, [input]);
    case Cycle(v, elems, len) => CycleNeverStuck(g, rem, v, elems, 0, len, input);
    case Nest(_, n, k) => ProductsAreMonotone(n, k, g.nestCount.hi, g.nestMod.hi);
    case Osc(o) => OscValuesAreWords(Wrap(o.x1), Wrap(o.x0), o.n, o.a, o.b, o.k);
  }

  /** Evaluating a well-formed list at depth `d` meets no unbound variable, no empty template and no
      remainder by zero, and builds a list of at most `Longest(g, d)` elements. */
  lemma {:induction false} SizeIsBounded(g: Limits, secondOrder: bool, rem: Remainder, e: ListExpr, d: nat, input: int)
    ensures WellFormedAt(g, secondOrder, e, d) && DividesSafely(g) ==>
              && d <= g.maxDepth
              && ListValue(rem, e, input).Some?
              && |ListValue(rem, e, input).value| <= Longest(g, d)
    decreases e
  {
    hide IntWritable, IntClosed, IntValue, IntFits, LeafMax, Spread, Longest, IsName, OscWritable;
    if WellFormedAt(g, secondOrder, e, d) && DividesSafely(g) {
      LongestGrows(g, d);
      match e
      case Range(_) => LeafIsBounded(g, rem, e, input);
      case Repeat(_, _) => LeafIsBounded(g, rem, e, input);
      case Cycle(_, _, _) => LeafIsBounded(g, rem, e, input);
      case Nest(_, _, _) => LeafIsBounded(g, rem, e, input);
      case Osc(_) => LeafIsBounded(g, rem, e, input);
      case Map(xs, v, body) =>
        SizeIsBounded(g, secondOrder, rem, xs, d + 1, input);
        MapNeverStuck(g, rem, ListValue(rem, xs, input).value, v, body, input);
      case Scan(xs, init, a, x, body) =>
        SizeIsBounded(g, secondOrder, rem, xs, d + 1, input);
        IntNeverStuck(g, rem, init, TOP_SCOPE, [input]);
        ScanNeverStuck(g, rem, ListValue(rem, xs, input).value, IntValue(rem, init, TOP_SCOPE, [input]).value, a, x,
                       body, input);
      case Filter(xs, _, _, _) => SizeIsBounded(g, secondOrder, rem, xs, d + 1, input);
      case Reverse(xs) => SizeIsBounded(g, secondOrder, rem, xs, d + 1, input);
      case Sort(xs) => SizeIsBounded(g, secondOrder, rem, xs, d + 1, input);
      case Take(xs, _) => SizeIsBounded(g, secondOrder, rem, xs, d + 1, input);
      case Concat(l, r) =>
        SizeIsBounded(g, secondOrder, rem, l, d + 1, input);
        SizeIsBounded(g, secondOrder, rem, r, d + 1, input);
      case Copy(xs, n) =>
        SizeIsBounded(g, secondOrder, rem, xs, d + 1, input);
        ProductsAreMonotone(n, |ListValue(rem, xs, input).value|, Spread(g), Longest(g, d + 1));
    }
  }

  /** Under the shipped limits no program builds a list of more than 96 times 6 to the fifth elements. */
  lemma ShippedSizes(secondOrder: bool, rem: Remainder, e: ListExpr, input: int)
    ensures DividesSafely(SHIPPED) && Longest(SHIPPED, 0) == 746_496
    ensures WellFormed(SHIPPED, secondOrder, e) ==>
              ListValue(rem, e, input).Some? && |ListValue(rem, e, input).value| <= 746_496
  {
    hide WellFormed, ListValue;
    ShippedLongest();
    SizeIsBounded(SHIPPED, secondOrder, rem, e, 0, input);
    WellFormedIs(SHIPPED, secondOrder, e);
  }

  lemma WellFormedIs(g: Limits, secondOrder: bool, e: ListExpr)
    ensures WellFormed(g, secondOrder, e) <==> WellFormedAt(g, secondOrder, e, 0)
  {
    hide WellFormedAt;
  }

  lemma ShippedLongest()
    ensures DividesSafely(SHIPPED) && Longest(SHIPPED, 0) == 746_496
  {
    assert LeafMax(SHIPPED) == 96 && Spread(SHIPPED) == 6;
    assert Longest(SHIPPED, 5) == 96;
    assert Longest(SHIPPED, 4) == 576;
    assert Longest(SHIPPED, 3) == 3456;
    assert Longest(SHIPPED, 2) == 20736;
    assert Longest(SHIPPED, 1) == 124416;
  }
}
