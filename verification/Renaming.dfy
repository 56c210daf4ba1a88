/** Freshening a subtree keeps its meaning, and exactly when. Two trees mean the same whatever their
    bound names when every variable in one stands where the same binder's variable stands in the other. */
module Renaming {
  import opened Wrappers
  import opened Text
  import opened Grammar
  import opened Grafting
  import opened Meaning

  // ----- the same but for bound names -----

  /** The same integer expression, where variables correspond by the place they are bound at. */
  ghost predicate IntAlike(e: IntExpr, scope: seq<string>, f: IntExpr, scope': seq<string>) {
    match e
    case Lit(_) => f == e
    case Var(v) => f.Var? && Resolve(scope, v) == Resolve(scope', f.name)
    case Add(l, r) => f.Add? && IntAlike(l, scope, f.l, scope') && IntAlike(r, scope, f.r, scope')
    case Sub(l, r) => f.Sub? && IntAlike(l, scope, f.l, scope') && IntAlike(r, scope, f.r, scope')
    case Mul(l, r) => f.Mul? && IntAlike(l, scope, f.l, scope') && IntAlike(r, scope, f.r, scope')
    case Mod(a, k) => f.Mod? && k == f.k && IntAlike(a, scope, f.e, scope')
  }

  /** The same list expression, but for the names it binds. */
  ghost predicate Alike(e: ListExpr, f: ListExpr) {
    match e
    case Range(_) => f == e
    case Osc(_) => f == e
    case Repeat(i, n) => f.Repeat? && n == f.n && IntAlike(i, TOP_SCOPE, f.e, TOP_SCOPE)
    case Map(xs, v, body) =>
      f.Map? && Alike(xs, f.xs) && IntAlike(body, TOP_SCOPE + [v], f.body, TOP_SCOPE + [f.v])
    case Scan(xs, init, a, x, body) =>
      && f.Scan? && Alike(xs, f.xs) && IntAlike(init, TOP_SCOPE, f.init, TOP_SCOPE)
      && IntAlike(body, TOP_SCOPE + [a, x], f.body, TOP_SCOPE + [f.a, f.x])
    case Filter(xs, _, k, r) => f.Filter? && k == f.k && r == f.rem && Alike(xs, f.xs)
    case Reverse(xs) => f.Reverse? && Alike(xs, f.xs)
    case Sort(xs) => f.Sort? && Alike(xs, f.xs)
    case Take(xs, n) => f.Take? && n == f.n && Alike(xs, f.xs)
    case Concat(l, r) => f.Concat? && Alike(l, f.l) && Alike(r, f.r)
    case Copy(xs, n) => f.Copy? && n == f.n && Alike(xs, f.xs)
    case Cycle(v, elems, len) =>
      && f.Cycle? && len == f.len && |elems| == |f.elems|
      && forall i :: 0 <= i < |elems| ==> IntAlike(elems[i], TOP_SCOPE + [v], f.elems[i], TOP_SCOPE + [f.v])
    case Nest(_, n, k) => f.Nest? && n == f.n && k == f.k
  }

  // ----- the same but for bound names means the same -----

  lemma {:induction false} IntAlikeMeansSame(rem: Remainder, e: IntExpr, scope: seq<string>, f: IntExpr,
                                             scope': seq<string>, vals: seq<int>)
    requires |scope| == |scope'| == |vals| && IntAlike(e, scope, f, scope')
    ensures IntValue(rem, e, scope, vals) == IntValue(rem, f, scope', vals)
  {
    hide Wrap, Resolve;
    match e
    case Lit(_) =>
    case Var(_) =>
    case Mod(a, _) => IntAlikeMeansSame(rem, a, scope, f.e, scope', vals);
    case Add(l, r) =>
      IntAlikeMeansSame(rem, l, scope, f.l, scope', vals);
      IntAlikeMeansSame(rem, r, scope, f.r, scope', vals);
    case Sub(l, r) =>
      IntAlikeMeansSame(rem, l, scope, f.l, scope', vals);
      IntAlikeMeansSame(rem, r, scope, f.r, scope', vals);
    case Mul(l, r) =>
      IntAlikeMeansSame(rem, l, scope, f.l, scope', vals);
      IntAlikeMeansSame(rem, r, scope, f.r, scope', vals);
  }

  lemma {:induction false} MapMeansSame(rem: Remainder, xs: seq<int>, v: string, body: IntExpr, v': string,
                                        body': IntExpr, input: int)
    requires IntAlike(body, TOP_SCOPE + [v], body', TOP_SCOPE + [v'])
    ensures MapValues(rem, xs, v, body, input) == MapValues(rem, xs, v', body', input)
  {
    hide IntAlike, IntValue;
    if xs != [] {
      IntAlikeMeansSame(rem, body, TOP_SCOPE + [v], body', TOP_SCOPE + [v'], [input, xs[0]]);
      MapMeansSame(rem, xs[1..], v, body, v', body', input);
    }
  }

  lemma {:induction false} ScanMeansSame(rem: Remainder, xs: seq<int>, acc: int, a: string, x: string, body: IntExpr,
                                         a': string, x': string, body': IntExpr, input: int)
    requires IntAlike(body, TOP_SCOPE + [a, x], body', TOP_SCOPE + [a', x'])
    ensures ScanValues(rem, xs, acc, a, x, body, input) == ScanValues(rem, xs, acc, a', x', body', input)
    decreases |xs|
  {
    hide IntAlike, IntValue;
    if xs != [] {
      var next := IntValue(rem, body, TOP_SCOPE + [a, x], [input, acc, xs[0]]);
      IntAlikeMeansSame(rem, body, TOP_SCOPE + [a, x], body', TOP_SCOPE + [a', x'], [input, acc, xs[0]]);
      if next.Some? {
        ScanMeansSame(rem, xs[1..], next.value, a, x, body, a', x', body', input);
      }
    }
  }

  lemma {:induction false} CycleMeansSame(rem: Remainder, v: string, elems: seq<IntExpr>, v': string,
                                          elems': seq<IntExpr>,
                                          i: nat, len: nat, input: int)
    requires i <= len && |elems| == |elems'|
    requires forall j :: 0 <= j < |elems| ==> IntAlike(elems[j], TOP_SCOPE + [v], elems'[j], TOP_SCOPE + [v'])
    ensures CycleValues(rem, v, elems, i, len, input) == CycleValues(rem, v', elems', i, len, input)
    decreases len - i
  {
    hide IntAlike, IntValue, Wrap;
    if i < len && elems != [] {
      var j := i % |elems|;
      IntAlikeMeansSame(rem, elems[j], TOP_SCOPE + [v], elems'[j], TOP_SCOPE + [v'], [input, Wrap(i)]);
      CycleMeansSame(rem, v, elems, v', elems', i + 1, len, input);
    }
  }

  lemma {:induction false} AlikeMeansSame(rem: Remainder, e: ListExpr, f: ListExpr, input: int)
    ensures Alike(e, f) ==> ListValue(rem, e, input) == ListValue(rem, f, input)
    decreases e
  {
    hide IntAlike, IntValue, MapValues, ScanValues, CycleValues, Pow2, OscNext, Wrap;
    if Alike(e, f) {
      match e
      case Range(_) =>
      case Osc(_) =>
      case Nest(_, _, _) =>
      case Repeat(a, _) => IntAlikeMeansSame(rem, a, TOP_SCOPE, f.e, TOP_SCOPE, [input]);
      case Cycle(v, elems, len) => CycleMeansSame(rem, v, elems, f.v, f.elems, 0, len, input);
      case Filter(xs, _, _, _) => AlikeMeansSame(rem, xs, f.xs, input);
      case Reverse(xs) => AlikeMeansSame(rem, xs, f.xs, input);
      case Sort(xs) => AlikeMeansSame(rem, xs, f.xs, input);
      case Take(xs, _) => AlikeMeansSame(rem, xs, f.xs, input);
      case Copy(xs, _) => AlikeMeansSame(rem, xs, f.xs, input);
      case Concat(l, r) =>
        AlikeMeansSame(rem, l, f.l, input);
        AlikeMeansSame(rem, r, f.r, input);
      case Map(xs, v, body) =>
        AlikeMeansSame(rem, xs, f.xs, input);
        if ListValue(rem, xs, input).Some? {
          MapMeansSame(rem, ListValue(rem, xs, input).value, v, body, f.v, f.body, input);
        }
      case Scan(xs, init, a, x, body) =>
        AlikeMeansSame(rem, xs, f.xs, input);
        IntAlikeMeansSame(rem, init, TOP_SCOPE, f.init, TOP_SCOPE, [input]);
        var acc := IntValue(rem, init, TOP_SCOPE, [input]);
        if ListValue(rem, xs, input).Some? && acc.Some? {
          ScanMeansSame(rem, ListValue(rem, xs, input).value, acc.value, a, x, body, f.a, f.x, f.body, input);
        }
    }
  }

  // ----- when freshening keeps every binding -----

  /** Whether `e` mentions the variable `v`. */
  predicate Mentions(e: IntExpr, v: string) {
    match e
    case Lit(_) => false
    case Var(w) => w == v
    case Add(l, r) => Mentions(l, v) || Mentions(r, v)
    case Sub(l, r) => Mentions(l, v) || Mentions(r, v)
    case Mul(l, r) => Mentions(l, v) || Mentions(r, v)
    case Mod(a, _) => Mentions(a, v)
  }

  /** What a caller could check before freshening: no scan whose element variable is its accumulator's
      name with the tag after it, when the body mentions the accumulator; and no template that mentions
      its own variable. */
  predicate Safe(e: ListExpr, tag: string) {
    match e
    case Range(_) => true
    case Repeat(_, _) => true
    case Osc(_) => true
    case Nest(_, _, _) => true
    case Map(xs, _, _) => Safe(xs, tag)
    case Scan(xs, _, a, x, body) => Safe(xs, tag) && !(x == a + tag && Mentions(body, a))
    case Filter(xs, _, _, _) => Safe(xs, tag)
    case Reverse(xs) => Safe(xs, tag)
    case Sort(xs) => Safe(xs, tag)
    case Take(xs, _) => Safe(xs, tag)
    case Concat(l, r) => Safe(l, tag) && Safe(r, tag)
    case Copy(xs, _) => Safe(xs, tag)
    case Cycle(v, elems, _) => forall i :: 0 <= i < |elems| ==> !Mentions(elems[i], v)
  }

  lemma {:induction false} SameScopeAlike(e: IntExpr, scope: seq<string>)
    ensures IntAlike(e, scope, e, scope)
  {
    match e
    case Lit(_) =>
    case Var(_) =>
    case Mod(a, _) => SameScopeAlike(a, scope);
    case Add(l, r) => SameScopeAlike(l, scope); SameScopeAlike(r, scope);
    case Sub(l, r) => SameScopeAlike(l, scope); SameScopeAlike(r, scope);
    case Mul(l, r) => SameScopeAlike(l, scope); SameScopeAlike(r, scope);
  }

  /** A map's body, its variable tagged, binds as it did. */
  lemma {:induction false} MapBodyAlike(e: IntExpr, v: string, tag: string)
    requires IntClosed(e, TOP_SCOPE + [v]) && |v| > 0 && |tag| > 0
    ensures IntAlike(Rename(e, v, v + tag), TOP_SCOPE + [v + tag], e, TOP_SCOPE + [v])
  {
    match e
    case Lit(_) =>
    case Var(u) => ResolveOne(v, u); ResolveOne(v + tag, if u == v then v + tag else u);
    case Mod(a, _) => MapBodyAlike(a, v, tag);
    case Add(l, r) => MapBodyAlike(l, v, tag); MapBodyAlike(r, v, tag);
    case Sub(l, r) => MapBodyAlike(l, v, tag); MapBodyAlike(r, v, tag);
    case Mul(l, r) => MapBodyAlike(l, v, tag); MapBodyAlike(r, v, tag);
  }

  lemma ResolveTop(u: string)
    ensures Resolve(TOP_SCOPE, u) == if u == "s" then 0 else -1
  {
  }

  lemma ResolveOne(v: string, u: string)
    ensures Resolve(TOP_SCOPE + [v], u) == if u == v then 1 else if u == "s" then 0 else -1
  {
    ResolveTop(u);
    var scope := TOP_SCOPE + [v];
    assert scope[..|scope| - 1] == TOP_SCOPE;
  }

  lemma ResolveTwo(a: string, x: string, u: string)
    ensures Resolve(TOP_SCOPE + [a, x], u) == if u == x then 2 else if u == a then 1 else if u == "s" then 0 else -1
  {
    ResolveOne(a, u);
    var scope := TOP_SCOPE + [a, x];
    assert scope[..|scope| - 1] == TOP_SCOPE + [a];
  }

  /** A scan's body, its variables tagged one after the other, binds as it did exactly when tagging the
      accumulator does not give the element's name to a variable the body mentions. */
  lemma {:induction false} ScanBodyAlike(e: IntExpr, a: string, x: string, tag: string)
    requires IntClosed(e, TOP_SCOPE + [a, x]) && |a| > 0 && |x| > 0 && |tag| > 0
    ensures IntAlike(Rename(Rename(e, a, a + tag), x, x + tag), TOP_SCOPE + [a + tag, x + tag], e, TOP_SCOPE + [a, x])
       <==> !(x == a + tag && Mentions(e, a))
  {
    match e
    case Lit(_) =>
    case Var(u) =>
      var u1 := if u == a then a + tag else u;
      var u2 := if u1 == x then x + tag else u1;
      assert Rename(Rename(e, a, a + tag), x, x + tag) == Var(u2);
      ResolveTwo(a, x, u);
      ResolveTwo(a + tag, x + tag, u2);
    case Mod(b, _) => ScanBodyAlike(b, a, x, tag);
    case Add(l, r) => ScanBodyAlike(l, a, x, tag); ScanBodyAlike(r, a, x, tag);
    case Sub(l, r) => ScanBodyAlike(l, a, x, tag); ScanBodyAlike(r, a, x, tag);
    case Mul(l, r) => ScanBodyAlike(l, a, x, tag); ScanBodyAlike(r, a, x, tag);
  }

  /** A template's element, its closure's variable tagged, binds as it did exactly when it does not
      mention that variable. */
  lemma {:induction false} ElemAlike(e: IntExpr, v: string, tag: string)
    requires IntClosed(e, TOP_SCOPE) && |v| > 0 && |tag| > 0
    ensures IntAlike(e, TOP_SCOPE + [v + tag], e, TOP_SCOPE + [v]) <==> !Mentions(e, v)
  {
    match e
    case Lit(_) =>
    case Var(u) =>
      ResolveOne(v, u);
      ResolveOne(v + tag, u);
    case Mod(b, _) => ElemAlike(b, v, tag);
    case Add(l, r) => ElemAlike(l, v, tag); ElemAlike(r, v, tag);
    case Sub(l, r) => ElemAlike(l, v, tag); ElemAlike(r, v, tag);
    case Mul(l, r) => ElemAlike(l, v, tag); ElemAlike(r, v, tag);
  }

  /** Every bound variable has a name. */
  predicate Named(e: ListExpr) {
    match e
    case Map(xs, v, _) => Named(xs) && |v| > 0
    case Scan(xs, _, a, x, _) => Named(xs) && |a| > 0 && |x| > 0
    case Cycle(v, _, _) => |v| > 0
    case Filter(xs, _, _, _) => Named(xs)
    case Reverse(xs) => Named(xs)
    case Sort(xs) => Named(xs)
    case Take(xs, _) => Named(xs)
    case Concat(l, r) => Named(l) && Named(r)
    case Copy(xs, _) => Named(xs)
    case _ => true
  }

  lemma {:induction false} WritableIsNamed(g: Limits, e: ListExpr)
    ensures Writable(g, e) ==> Named(e)
    decreases e
  {
    hide IntWritable;
    match e
    case Map(xs, _, _) => WritableIsNamed(g, xs);
    case Scan(xs, _, _, _, _) => WritableIsNamed(g, xs);
    case Filter(xs, _, _, _) => WritableIsNamed(g, xs);
    case Reverse(xs) => WritableIsNamed(g, xs);
    case Sort(xs) => WritableIsNamed(g, xs);
    case Take(xs, _) => WritableIsNamed(g, xs);
    case Concat(l, r) => WritableIsNamed(g, l); WritableIsNamed(g, r);
    case Copy(xs, _) => WritableIsNamed(g, xs);
    case _ =>
  }

  /** Freshening keeps every binding of a closed tree exactly when it is safe for the tag. */
  lemma {:induction false} FreshenKeepsBindings(e: ListExpr, tag: string)
    requires Closed(e, TOP_SCOPE) && Named(e) && |tag| > 0
    ensures Alike(Freshen(e, tag), e) <==> Safe(e, tag)
    decreases e
  {
    hide IntAlike, Rename, Mentions, IntClosed;
    match e
    case Range(_) =>
    case Osc(_) =>
    case Nest(_, _, _) =>
    case Repeat(a, _) => SameScopeAlike(a, TOP_SCOPE);
    case Filter(xs, _, _, _) => FreshenKeepsBindings(xs, tag);
    case Reverse(xs) => FreshenKeepsBindings(xs, tag);
    case Sort(xs) => FreshenKeepsBindings(xs, tag);
    case Take(xs, _) => FreshenKeepsBindings(xs, tag);
    case Copy(xs, _) => FreshenKeepsBindings(xs, tag);
    case Concat(l, r) => FreshenKeepsBindings(l, tag); FreshenKeepsBindings(r, tag);
    case Map(xs, v, body) =>
      FreshenKeepsBindings(xs, tag);
      MapBodyAlike(body, v, tag);
    case Scan(xs, init, a, x, body) =>
      FreshenKeepsBindings(xs, tag);
      SameScopeAlike(init, TOP_SCOPE);
      ScanBodyAlike(body, a, x, tag);
    case Cycle(v, elems, _) =>
      forall i | 0 <= i < |elems|
        ensures IntAlike(elems[i], TOP_SCOPE + [v + tag], elems[i], TOP_SCOPE + [v]) <==> !Mentions(elems[i], v)
      {
        ElemAlike(elems[i], v, tag);
      }
  }

  /** A closed tree that is safe for the tag computes, freshened, what it computed. */
  lemma FreshenKeepsMeaning(rem: Remainder, e: ListExpr, tag: string, input: int)
    requires Closed(e, TOP_SCOPE) && Named(e) && |tag| > 0
    ensures Safe(e, tag) ==> ListValue(rem, Freshen(e, tag), input) == ListValue(rem, e, input)
  {
    hide Safe, Freshen, Alike, ListValue;
    FreshenKeepsBindings(e, tag);
    AlikeMeansSame(rem, Freshen(e, tag), e, input);
  }

  // ----- a graft contributes its own value -----

  /** A program's value depends on a subtree only through the subtree's value. */
  lemma {:induction false} SameValueInPlace(rem: Remainder, e: ListExpr, path: seq<nat>, f: ListExpr, f': ListExpr,
                                            input: int)
    requires IsPath(e, path) && ListValue(rem, f, input) == ListValue(rem, f', input)
    ensures ListValue(rem, Put(e, path, f), input) == ListValue(rem, Put(e, path, f'), input)
    decreases e
  {
    hide ListValue;
    if path != [] {
      var i := path[0];
      SameValueInPlace(rem, Kids(e)[i], path[1..], f, f', input);
      SameKid(rem, e, i, Put(Kids(e)[i], path[1..], f), Put(Kids(e)[i], path[1..], f'), input);
    }
  }

  lemma SameKid(rem: Remainder, e: ListExpr, i: nat, kid: ListExpr, kid': ListExpr, input: int)
    requires i < |Kids(e)| && ListValue(rem, kid, input) == ListValue(rem, kid', input)
    ensures ListValue(rem, WithKid(e, i, kid), input) == ListValue(rem, WithKid(e, i, kid'), input)
  {
    hide IntValue, MapValues, ScanValues, CycleValues, Kept, Sorted, Repeated;
  }

  // ----- when it does not -----

  /** A scan whose element has the accumulator's name with the tag `c1` after it. */
  const CAPTURED_SCAN := Scan(Range(2), Lit(7), "a", "ac1", Var("a"))

  /** A template that mentions its own variable, the program's input. */
  const CAPTURED_CYCLE := Cycle("s", [Var("s"), Lit(9)], 4)

  /** Both are programs the arena's parser reads, and neither is safe. */
  lemma CapturedAreWellFormed()
    ensures WellFormed(SHIPPED, false, CAPTURED_SCAN) && !Safe(CAPTURED_SCAN, "c1")
    ensures WellFormed(SHIPPED, false, CAPTURED_CYCLE) && !Safe(CAPTURED_CYCLE, "c1")
  {
    assert IsName("a") && IsName("ac1") && IsName("s") && "a" + "c1" == "ac1";
    ShortIsNoOperator("a");
    ShortIsNoOperator("s");
    assert CAPTURED_CYCLE.elems[0] == Var("s");
  }

  lemma ShortIsNoOperator(v: string)
    ensures |v| == 1 ==> !IsOperator(v)
  {
  }

  lemma ScanStep(rem: Remainder, xs: seq<int>, acc: int, a: string, x: string, body: IntExpr, input: int, next: int,
                 ys: seq<int>)
    requires xs != [] && IntValue(rem, body, TOP_SCOPE + [a, x], [input, acc, xs[0]]) == Some(next)
    requires ScanValues(rem, xs[1..], next, a, x, body, input) == Some(ys)
    ensures ScanValues(rem, xs, acc, a, x, body, input) == Some([acc] + ys)
  {
  }

  lemma ScanVarValues(rem: Remainder, a: string, x: string, input: int, acc: int, y: int)
    requires a != x
    ensures IntValue(rem, Var(a), TOP_SCOPE + [a, x], [input, acc, y]) == Some(acc)
    ensures IntValue(rem, Var(x), TOP_SCOPE + [a, x], [input, acc, y]) == Some(y)
  {
    ResolveTwo(a, x, a);
    ResolveTwo(a, x, x);
  }

  /** A scan over two elements that keeps its accumulator, and one that takes each element. */
  lemma TwoSteps(rem: Remainder, a: string, x: string, input: int, acc: int, y: int, z: int)
    requires a != x
    ensures ScanValues(rem, [y, z], acc, a, x, Var(a), input) == Some([acc, acc, acc])
    ensures ScanValues(rem, [y, z], acc, a, x, Var(x), input) == Some([acc, y, z])
  {
    hide IntValue, ScanValues;
    ScanVarValues(rem, a, x, input, acc, y);
    ScanVarValues(rem, a, x, input, acc, z);
    ScanVarValues(rem, a, x, input, y, z);
    var xs := [y, z];
    assert xs[1..] == [z] && [z][1..] == [];
    ScanEnd(rem, acc, a, x, Var(a), input);
    ScanEnd(rem, z, a, x, Var(x), input);
    ScanStep(rem, [z], acc, a, x, Var(a), input, acc, [acc]);
    ScanStep(rem, [z], y, a, x, Var(x), input, z, [z]);
    ScanStep(rem, xs, acc, a, x, Var(a), input, acc, [acc] + [acc]);
    ScanStep(rem, xs, acc, a, x, Var(x), input, y, [y] + [z]);
    assert [acc] + ([acc] + [acc]) == [acc, acc, acc] && [acc] + ([y] + [z]) == [acc, y, z];
  }

  lemma ScanEnd(rem: Remainder, acc: int, a: string, x: string, body: IntExpr, input: int)
    ensures ScanValues(rem, [], acc, a, x, body, input) == Some([acc])
  {
  }

  lemma ScanOfTwo(rem: Remainder, a: string, x: string, body: IntExpr, input: int)
    ensures ListValue(rem, Scan(Range(2), Lit(7), a, x, body), input) == ScanValues(rem, [0, 1], 7, a, x, body, input)
  {
    assert Count(2) == [0, 1];
  }

  /** Tagging the accumulator makes the body mean the element: the scan computes something else. */
  lemma TaggedScanIsCaptured(rem: Remainder, input: int)
    ensures ListValue(rem, CAPTURED_SCAN, input) == Some([7, 7, 7])
    ensures ListValue(rem, Freshen(CAPTURED_SCAN, "c1"), input) == Some([7, 0, 1])
  {
    hide ListValue, ScanValues;
    var a, x, tag := "a", "ac1", "c1";
    var y := x + tag;
    assert a + tag == x;
    assert |a| < |x| < |y|;
    assert Freshen(CAPTURED_SCAN, tag) == Scan(Range(2), Lit(7), x, y, Var(y));
    ScanOfTwo(rem, a, x, Var(a), input);
    ScanOfTwo(rem, x, y, Var(y), input);
    TwoSteps(rem, a, x, input, 7, 0, 1);
    TwoSteps(rem, x, y, input, 7, 0, 1);
  }

  /** Tagging the template's variable frees the element that named it. */
  lemma TaggedCycleIsFreed(rem: Remainder, input: int)
    requires IsWord64(input)
    ensures ListValue(rem, CAPTURED_CYCLE, input) == Some([0, 9, 2, 9])
    ensures ListValue(rem, Freshen(CAPTURED_CYCLE, "c1"), input) == Some([input, 9, input, 9])
  {
    hide CycleValues, IntValue;
    var e := CAPTURED_CYCLE.elems;
    var v := "s" + "c1";
    assert |v| == 3;
    CycleOfTwo(rem, "s", e, input);
    CycleOfTwo(rem, v, e, input);
    CycleVarValues(rem, "s", input, 0);
    CycleVarValues(rem, "s", input, 2);
    CycleVarValues(rem, v, input, 0);
    CycleVarValues(rem, v, input, 2);
  }

  lemma CycleVarValues(rem: Remainder, v: string, input: int, i: nat)
    ensures IntValue(rem, Var("s"), TOP_SCOPE + [v], [input, i]) == Some(if v == "s" then i else input)
  {
    ResolveOne(v, "s");
  }

  lemma CycleOfTwo(rem: Remainder, v: string, elems: seq<IntExpr>, input: int)
    requires |elems| == 2 && elems[1] == Lit(9)
    ensures var y := IntValue(rem, elems[0], TOP_SCOPE + [v], [input, 0]);
            var z := IntValue(rem, elems[0], TOP_SCOPE + [v], [input, 2]);
            y.Some? && z.Some? ==> CycleValues(rem, v, elems, 0, 4, input) == Some([y.value, 9, z.value, 9])
  {
    var scope := TOP_SCOPE + [v];
    var y := IntValue(rem, elems[0], scope, [input, 0]);
    var z := IntValue(rem, elems[0], scope, [input, 2]);
    hide CycleValues;
    if y.Some? && z.Some? {
      assert Wrap(0) == 0 && Wrap(1) == 1 && Wrap(2) == 2 && Wrap(3) == 3 && Wrap(9) == 9;
      CycleEnd(rem, v, elems, input);
      CycleStep(rem, v, elems, 3, input, 9, []);
      CycleStep(rem, v, elems, 2, input, z.value, [9] + []);
      CycleStep(rem, v, elems, 1, input, 9, [z.value] + ([9] + []));
      CycleStep(rem, v, elems, 0, input, y.value, [9] + ([z.value] + ([9] + [])));
      assert [y.value] + ([9] + ([z.value] + ([9] + []))) == [y.value, 9, z.value, 9];
    }
  }

  lemma CycleEnd(rem: Remainder, v: string, elems: seq<IntExpr>, input: int)
    ensures CycleValues(rem, v, elems, 4, 4, input) == Some([])
  {
  }

  lemma CycleStep(rem: Remainder, v: string, elems: seq<IntExpr>, i: nat, input: int, y: int, ys: seq<int>)
    requires i < 4 && |elems| == 2
    requires IntValue(rem, elems[i % 2], TOP_SCOPE + [v], [input, Wrap(i)]) == Some(y)
    requires CycleValues(rem, v, elems, i + 1, 4, input) == Some(ys)
    ensures CycleValues(rem, v, elems, i, 4, input) == Some([y] + ys)
  {
  }
}
