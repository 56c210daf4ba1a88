/** The attacker's rewrites: different structures, each the identity on every list. */
module Rewrites {
  import opened Wrappers
  import opened Grammar
  import opened Meaning

  /** `identity_rewrite`. */
  function IdentityRewrite(xs: ListExpr, which: nat): ListExpr {
    if which % 3 == 0 then Reverse(Reverse(xs))
    else if which % 3 == 1 then Concat(xs, Take(xs, 0))
    else Map(xs, "v", Add(Var("v"), Lit(0)))
  }

  // ----- words stay words -----

  lemma {:induction false} IntValueIsWord(rem: Remainder, e: IntExpr, scope: seq<string>, vals: seq<int>)
    requires |scope| == |vals| && AllWords(vals) && IsRemainder(rem)
    ensures IntValue(rem, e, scope, vals).Some? ==> IsWord64(IntValue(rem, e, scope, vals).value)
  {
    hide Wrap, IsWord64;
    match e
    case Lit(_) =>
    case Var(v) =>
    case Mod(a, _) => IntValueIsWord(rem, a, scope, vals);
    case Add(l, r) =>
    case Sub(l, r) =>
    case Mul(l, r) =>
  }

  lemma {:induction false} MapIsWords(rem: Remainder, xs: seq<int>, v: string, body: IntExpr, input: int)
    requires AllWords(xs) && IsWord64(input) && IsRemainder(rem)
    ensures var r := MapValues(rem, xs, v, body, input); r.Some? ==> AllWords(r.value)
  {
    hide IntValue, IsRemainder;
    if xs != [] {
      IntValueIsWord(rem, body, TOP_SCOPE + [v], [input, xs[0]]);
      MapIsWords(rem, xs[1..], v, body, input);
    }
  }

  lemma {:induction false} ScanIsWords(rem: Remainder, xs: seq<int>, acc: int, a: string, x: string, body: IntExpr,
                                       input: int)
    requires AllWords(xs) && IsWord64(acc) && IsWord64(input) && IsRemainder(rem)
    ensures var r := ScanValues(rem, xs, acc, a, x, body, input); r.Some? ==> AllWords(r.value)
    decreases |xs|
  {
    hide IntValue, IsRemainder;
    if xs != [] {
      var next := IntValue(rem, body, TOP_SCOPE + [a, x], [input, acc, xs[0]]);
      IntValueIsWord(rem, body, TOP_SCOPE + [a, x], [input, acc, xs[0]]);
      if next.Some? {
        ScanIsWords(rem, xs[1..], next.value, a, x, body, input);
      }
    }
  }

  lemma {:induction false} CycleIsWords(rem: Remainder, v: string, elems: seq<IntExpr>, i: nat, len: nat, input: int)
    requires i <= len && IsWord64(input) && IsRemainder(rem)
    ensures var r := CycleValues(rem, v, elems, i, len, input); r.Some? ==> AllWords(r.value)
    decreases len - i
  {
    hide IntValue, IsRemainder, Wrap;
    if i < len && elems != [] {
      IntValueIsWord(rem, elems[i % |elems|], TOP_SCOPE + [v], [input, Wrap(i)]);
      CycleIsWords(rem, v, elems, i + 1, len, input);
    }
  }

  lemma FewerWords(ys: seq<int>, xs: seq<int>)
    requires AllWords(xs) && forall y :: y in ys ==> y in xs
    ensures AllWords(ys)
  {
    forall i | 0 <= i < |ys| ensures IsWord64(ys[i]) {
      assert ys[i] in ys;
    }
  }

  /** Whatever a body computes from a word is words. */
  lemma {:induction false} ValueIsWords(rem: Remainder, e: ListExpr, input: int)
    requires IsWord64(input) && IsRemainder(rem)
    ensures ListValue(rem, e, input).Some? ==> AllWords(ListValue(rem, e, input).value)
    decreases e
  {
    hide IntValue, IsRemainder, IsWord64, Wrap, Pow2, OscNext;
    match e
    case Range(_) =>
    case Repeat(a, _) => IntValueIsWord(rem, a, TOP_SCOPE, [input]);
    case Cycle(v, elems, len) => CycleIsWords(rem, v, elems, 0, len, input);
    case Nest(_, _, _) =>
    case Osc(o) => OscValuesAreWords(Wrap(o.x1), Wrap(o.x0), o.n, o.a, o.b, o.k);
    case Map(xs, v, body) =>
      ValueIsWords(rem, xs, input);
      if ListValue(rem, xs, input).Some? {
        MapIsWords(rem, ListValue(rem, xs, input).value, v, body, input);
      }
    case Scan(xs, init, a, x, body) =>
      ValueIsWords(rem, xs, input);
      IntValueIsWord(rem, init, TOP_SCOPE, [input]);
      if ListValue(rem, xs, input).Some? && IntValue(rem, init, TOP_SCOPE, [input]).Some? {
        ScanIsWords(rem, ListValue(rem, xs, input).value, IntValue(rem, init, TOP_SCOPE, [input]).value, a, x, body,
                    input);
      }
    case Filter(xs, _, k, r) =>
      ValueIsWords(rem, xs, input);
      if ListValue(rem, xs, input).Some? {
        FewerWords(Kept(rem, ListValue(rem, xs, input).value, k, r), ListValue(rem, xs, input).value);
      }
    case Reverse(xs) => ValueIsWords(rem, xs, input);
    case Sort(xs) =>
      ValueIsWords(rem, xs, input);
      if ListValue(rem, xs, input).Some? {
        FewerWords(Sorted(ListValue(rem, xs, input).value), ListValue(rem, xs, input).value);
      }
    case Take(xs, _) => ValueIsWords(rem, xs, input);
    case Concat(l, r) =>
      ValueIsWords(rem, l, input);
      ValueIsWords(rem, r, input);
    case Copy(xs, n) =>
      ValueIsWords(rem, xs, input);
      if ListValue(rem, xs, input).Some? {
        FewerWords(Repeated(ListValue(rem, xs, input).value, n), ListValue(rem, xs, input).value);
      }
  }

  // ----- each rewrite is the identity -----

  lemma ReversedTwice(xs: seq<int>)
    ensures Reversed(Reversed(xs)) == xs
  {
  }

  lemma {:induction false} AddNothing(rem: Remainder, xs: seq<int>, input: int)
    requires AllWords(xs)
    ensures MapValues(rem, xs, "v", Add(Var("v"), Lit(0)), input) == Some(xs)
  {
    if xs != [] {
      var scope := TOP_SCOPE + ["v"];
      assert scope[|scope| - 1] == "v";
      assert Resolve(scope, "v") == 1;
      assert IntValue(rem, Var("v"), scope, [input, xs[0]]) == Some(xs[0]);
      assert IntValue(rem, Lit(0), scope, [input, xs[0]]) == Some(0);
      AddNothing(rem, xs[1..], input);
      assert xs == [xs[0]] + xs[1..];
    }
  }

  /** Every rewrite computes what its argument computes, on every word and for every expression. */
  lemma RewriteIsIdentity(rem: Remainder, xs: ListExpr, which: nat, input: int)
    requires IsWord64(input) && IsRemainder(rem)
    ensures ListValue(rem, IdentityRewrite(xs, which), input) == ListValue(rem, xs, input)
  {
    hide IsRemainder, IsWord64, Reversed, MapValues;
    var y := ListValue(rem, xs, input);
    if y.Some? {
      if which % 3 == 0 {
        ReversedTwice(y.value);
      } else if which % 3 == 1 {
        TakeNothing(rem, xs, input);
        assert y.value + [] == y.value;
      } else {
        ValueIsWords(rem, xs, input);
        AddNothing(rem, y.value, input);
      }
    }
  }

  lemma TakeNothing(rem: Remainder, xs: ListExpr, input: int)
    ensures ListValue(rem, xs, input).Some? ==> ListValue(rem, Take(xs, 0), input) == Some([])
  {
  }

  // ----- and takes room -----

  lemma {:induction false} IntFitsAbove(g: Limits, e: IntExpr, d: nat)
    ensures IntFits(g, e, d + 1) ==> IntFits(g, e, d)
  {
    match e
    case Lit(_) =>
    case Var(_) =>
    case Mod(a, _) => IntFitsAbove(g, a, d + 1);
    case Add(l, r) =>
      IntFitsAbove(g, l, d + 1);
      IntFitsAbove(g, r, d + 1);
    case Sub(l, r) =>
      IntFitsAbove(g, l, d + 1);
      IntFitsAbove(g, r, d + 1);
    case Mul(l, r) =>
      IntFitsAbove(g, l, d + 1);
      IntFitsAbove(g, r, d + 1);
  }

  lemma {:induction false} FitsAbove(g: Limits, e: ListExpr, d: nat)
    ensures Fits(g, e, d + 1) ==> Fits(g, e, d)
    decreases e
  {
    hide IntFits;
    match e
    case Range(_) =>
    case Cycle(_, _, _) =>
    case Nest(_, _, _) =>
    case Osc(_) =>
    case Repeat(a, _) => IntFitsAbove(g, a, d + 1);
    case Map(xs, _, body) =>
      FitsAbove(g, xs, d + 1);
      IntFitsAbove(g, body, d + 1);
    case Scan(xs, init, _, _, body) =>
      FitsAbove(g, xs, d + 1);
      IntFitsAbove(g, init, d + 1);
      IntFitsAbove(g, body, d + 1);
    case Filter(xs, _, _, _) => FitsAbove(g, xs, d + 1);
    case Reverse(xs) => FitsAbove(g, xs, d + 1);
    case Sort(xs) => FitsAbove(g, xs, d + 1);
    case Take(xs, _) => FitsAbove(g, xs, d + 1);
    case Concat(l, r) =>
      FitsAbove(g, l, d + 1);
      FitsAbove(g, r, d + 1);
    case Copy(xs, _) => FitsAbove(g, xs, d + 1);
  }

  /** A rewrite passes the depth check at `d` exactly when its argument passes two levels deeper, or
      one for the map. */
  lemma RewriteDepth(g: Limits, xs: ListExpr, which: nat, d: nat)
    requires g.intExtraDepth >= 1
    ensures Fits(g, IdentityRewrite(xs, which), d) <==> Fits(g, xs, d + if which % 3 == 2 then 1 else 2)
  {
    FitsAbove(g, xs, d + 1);
    if which % 3 == 0 {
      assert Fits(g, Reverse(xs), d + 1) <==> d + 1 < g.maxDepth && Fits(g, xs, d + 2);
    } else if which % 3 == 1 {
      assert Fits(g, Take(xs, 0), d + 1) <==> d + 1 < g.maxDepth && Fits(g, xs, d + 2);
    } else {
      assert IntFits(g, Var("v"), d + 2) <==> d + 2 <= g.MaxIntDepth();
      assert IntFits(g, Lit(0), d + 2) <==> d + 2 <= g.MaxIntDepth();
      FitsMeansRoom(g, xs, d + 1);
    }
  }

  lemma FitsMeansRoom(g: Limits, e: ListExpr, d: nat)
    ensures Fits(g, e, d) ==> d <= g.maxDepth
    ensures d == g.maxDepth && Fits(g, e, d) ==> IsListLeaf(e)
  {
  }
}
