/** Drawing programs: the arena's policy over the productions of the grammar, sampled under the depth
    limit. The productions' probabilities are taken as given; the arena computes them as a softmax. */
module Sampling {
  import opened Text
  import opened Grammar
  import opened Random

  /** A node of a derivation: whether it is a list's or an integer's, and the production it is written by. */
  datatype Choice = Choice(list: bool, rule: nat)

  const LIST_RULES: nat := 13
  const INT_RULES: nat := 6

  /** The last list production, the second-order one, is the only one a policy may lack. */
  const UNGATED: nat := 12

  datatype Policy = Policy(listProbs: seq<real>, intProbs: seq<real>) {
    predicate Valid() {
      (|listProbs| == LIST_RULES || |listProbs| == UNGATED) && |intProbs| == INT_RULES
    }

    predicate SecondOrder() {
      |listProbs| > UNGATED
    }
  }

  /** The production, in logit order, that a list form is written by. */
  function ListRule(e: ListExpr): (r: nat)
    ensures r < LIST_RULES
  {
    match e
    case Range(_) => 0
    case Repeat(_, _) => 1
    case Map(_, _, _) => 2
    case Scan(_, _, _, _, _) => 3
    case Filter(_, _, _, _) => 4
    case Reverse(_) => 5
    case Sort(_) => 6
    case Take(_, _) => 7
    case Concat(_, _) => 8
    case Copy(_, _) => 9
    case Cycle(_, _, _) => 10
    case Nest(_, _, _) => 11
    case Osc(_) => 12
  }

  function IntRule(e: IntExpr): (r: nat)
    ensures r < INT_RULES
  {
    match e
    case Lit(_) => 0
    case Var(_) => 1
    case Add(_, _) => 2
    case Sub(_, _) => 3
    case Mul(_, _) => 4
    case Mod(_, _) => 5
  }

  predicate IsLeafRule(r: nat) {
    r == 0 || r == 1 || r == 10 || r == 11 || r == 12
  }

  // ----- the derivation of a tree -----

  /** The choices that derive an integer tree, in the order they are made. */
  function IntChoices(e: IntExpr): seq<Choice> {
    [Choice(false, IntRule(e))] +
    match e
    case Lit(_) => []
    case Var(_) => []
    case Add(l, r) => IntChoices(l) + IntChoices(r)
    case Sub(l, r) => IntChoices(l) + IntChoices(r)
    case Mul(l, r) => IntChoices(l) + IntChoices(r)
    case Mod(a, _) => IntChoices(a)
  }

  /** The choices that derive a list tree. The elements of a template are not choices. */
  function Choices(e: ListExpr): seq<Choice> {
    [Choice(true, ListRule(e))] +
    match e
    case Range(_) => []
    case Repeat(i, _) => IntChoices(i)
    case Map(xs, _, body) => Choices(xs) + IntChoices(body)
    case Scan(xs, init, _, _, body) => Choices(xs) + IntChoices(init) + IntChoices(body)
    case Filter(xs, _, _, _) => Choices(xs)
    case Reverse(xs) => Choices(xs)
    case Sort(xs) => Choices(xs)
    case Take(xs, _) => Choices(xs)
    case Concat(l, r) => Choices(l) + Choices(r)
    case Copy(xs, _) => Choices(xs)
    case Cycle(_, _, _) => []
    case Nest(_, _, _) => []
    case Osc(_) => []
  }

  /** The variables a list tree binds, in the order a sample names them. */
  function Binders(e: ListExpr): seq<string> {
    match e
    case Range(_) => []
    case Repeat(_, _) => []
    case Map(xs, v, _) => Binders(xs) + [v]
    case Scan(xs, _, a, x, _) => Binders(xs) + [a, x]
    case Filter(xs, v, _, _) => Binders(xs) + [v]
    case Reverse(xs) => Binders(xs)
    case Sort(xs) => Binders(xs)
    case Take(xs, _) => Binders(xs)
    case Concat(l, r) => Binders(l) + Binders(r)
    case Copy(xs, _) => Binders(xs)
    case Cycle(v, _, _) => [v]
    case Nest(v, _, _) => [v]
    case Osc(_) => []
  }

  function VarName(n: nat): (v: string) {
    "v" + Digits(n)
  }

  /** The names of variables `i + 1` to `j`. */
  function Names(i: nat, j: nat): (names: seq<string>)
    ensures |names| == if i < j then j - i else 0
    ensures forall k :: 0 <= k < |names| ==> names[k] == VarName(i + 1 + k)
  {
    if i < j then Names(i, j - 1) + [VarName(j)] else []
  }

  // ----- what a sample is -----

  /** `e` is a sample at `depth`, and `to` is the trace `from` with the choices that derive it. */
  ghost predicate IntDrawn(g: Limits, e: IntExpr, depth: nat, scope: seq<string>, from: seq<Choice>, to: seq<Choice>) {
    && IntWritable(g, e) && IntClosed(e, scope) && (depth <= g.MaxIntDepth() ==> IntFits(g, e, depth))
    && to == from + IntChoices(e)
  }

  lemma LeafDrawn(g: Limits, e: IntExpr, depth: nat, scope: seq<string>, from: seq<Choice>)
    requires IsIntLeaf(e) && IntWritable(g, e) && IntClosed(e, scope)
    ensures IntDrawn(g, e, depth, scope, from, from + [Choice(false, IntRule(e))])
  {
  }

  function Binary(rule: nat, l: IntExpr, r: IntExpr): IntExpr
    requires 2 <= rule <= 4
  {
    if rule == 2 then Add(l, r) else if rule == 3 then Sub(l, r) else Mul(l, r)
  }

  lemma BinaryDrawn(g: Limits, rule: nat, l: IntExpr, r: IntExpr, depth: nat, scope: seq<string>,
                    from: seq<Choice>, mid: seq<Choice>, to: seq<Choice>)
    requires 2 <= rule <= 4 && depth < g.MaxIntDepth()
    requires IntDrawn(g, l, depth + 1, scope, from + [Choice(false, rule)], mid)
    requires IntDrawn(g, r, depth + 1, scope, mid, to)
    ensures IntDrawn(g, Binary(rule, l, r), depth, scope, from, to)
  {
    Append(from, [Choice(false, rule)], IntChoices(l), mid);
    AppendMore(from, [Choice(false, rule)], IntChoices(l), mid, IntChoices(r), to);
  }

  lemma ModDrawn(g: Limits, a: IntExpr, k: nat, depth: nat, scope: seq<string>, from: seq<Choice>, to: seq<Choice>)
    requires depth < g.MaxIntDepth() && g.modulus.Has(k)
    requires IntDrawn(g, a, depth + 1, scope, from + [Choice(false, 5)], to)
    ensures IntDrawn(g, Mod(a, k), depth, scope, from, to)
  {
    Append(from, [Choice(false, 5)], IntChoices(a), to);
  }

  lemma Append<T>(s: seq<T>, t: seq<T>, u: seq<T>, r: seq<T>)
    requires r == s + t + u
    ensures r == s + (t + u)
  {
  }

  lemma AppendMore<T>(s: seq<T>, t: seq<T>, u: seq<T>, mid: seq<T>, v: seq<T>, r: seq<T>)
    requires mid == s + (t + u) && r == mid + v
    ensures r == s + (t + (u + v))
  {
  }

  /** `e` is a sample at `depth`, `to` is the trace `from` with the choices that derive it, and its
      bound variables are those numbered after `i` up to `j`. */
  ghost predicate Drawn(g: Limits, secondOrder: bool, e: ListExpr, depth: nat, scope: seq<string>,
                        from: seq<Choice>, to: seq<Choice>, i: nat, j: nat) {
    && Writable(g, e) && Closed(e, scope) && (depth <= g.maxDepth ==> Fits(g, e, depth))
    && (secondOrder || NoOscillator(e))
    && to == from + Choices(e)
    && i <= j && Binders(e) == Names(i, j)
  }

  lemma PlainLeafDrawn(g: Limits, secondOrder: bool, e: ListExpr, depth: nat, scope: seq<string>, from: seq<Choice>,
                       i: nat)
    requires e.Range? || (e.Osc? && secondOrder)
    requires Writable(g, e)
    ensures Drawn(g, secondOrder, e, depth, scope, from, from + [Choice(true, ListRule(e))], i, i)
  {
    assert [Choice(true, ListRule(e))] + [] == [Choice(true, ListRule(e))];
  }

  lemma NamedLeafDrawn(g: Limits, secondOrder: bool, e: ListExpr, depth: nat, scope: seq<string>, from: seq<Choice>,
                       i: nat)
    requires (e.Cycle? && e.v == VarName(i + 1)) || (e.Nest? && e.v == VarName(i + 1))
    requires Writable(g, e) && Closed(e, scope)
    ensures Drawn(g, secondOrder, e, depth, scope, from, from + [Choice(true, ListRule(e))], i, i + 1)
  {
    hide Writable, Closed, VarName;
    assert [Choice(true, ListRule(e))] + [] == [Choice(true, ListRule(e))];
    assert Names(i, i + 1) == Names(i, i) + [VarName(i + 1)];
  }

  lemma RepeatDrawn(g: Limits, secondOrder: bool, a: IntExpr, n: nat, depth: nat, scope: seq<string>,
                    from: seq<Choice>, to: seq<Choice>, i: nat)
    requires g.intExtraDepth >= 1 && g.repeat.Has(n)
    requires IntDrawn(g, a, depth + 1, scope, from + [Choice(true, 1)], to)
    ensures Drawn(g, secondOrder, Repeat(a, n), depth, scope, from, to, i, i)
  {
    hide IntWritable, IntClosed, IntFits, IntChoices;
    Append(from, [Choice(true, 1)], IntChoices(a), to);
  }

  /** A form around one list, that binds nothing and draws at most a length. */
  lemma ShellDrawn(g: Limits, secondOrder: bool, e: ListExpr, depth: nat, scope: seq<string>,
                   from: seq<Choice>, to: seq<Choice>, i: nat, j: nat)
    requires e.Reverse? || e.Sort? || (e.Take? && g.take.Has(e.n)) || (e.Copy? && g.copy.Has(e.n))
    requires depth < g.maxDepth
    requires Drawn(g, secondOrder, e.xs, depth + 1, scope, from + [Choice(true, ListRule(e))], to, i, j)
    ensures Drawn(g, secondOrder, e, depth, scope, from, to, i, j)
  {
    hide Names;
    Append(from, [Choice(true, ListRule(e))], Choices(e.xs), to);
  }

  lemma FilterDrawn(g: Limits, secondOrder: bool, xs: ListExpr, k: nat, r: nat, depth: nat, scope: seq<string>,
                    from: seq<Choice>, to: seq<Choice>, i: nat, j: nat)
    requires g.filterMod.Has(k) && r < k && depth < g.maxDepth
    requires Drawn(g, secondOrder, xs, depth + 1, scope, from + [Choice(true, 4)], to, i, j)
    ensures Drawn(g, secondOrder, Filter(xs, VarName(j + 1), k, r), depth, scope, from, to, i, j + 1)
  {
    hide VarName, IsName;
    VarIsName(j + 1);
    Append(from, [Choice(true, 4)], Choices(xs), to);
  }

  lemma MapDrawn(g: Limits, secondOrder: bool, xs: ListExpr, body: IntExpr, depth: nat, scope: seq<string>,
                 from: seq<Choice>, mid: seq<Choice>, to: seq<Choice>, i: nat, j: nat)
    requires g.intExtraDepth >= 1 && depth < g.maxDepth
    requires Drawn(g, secondOrder, xs, depth + 1, scope, from + [Choice(true, 2)], mid, i, j)
    requires IntDrawn(g, body, depth + 1, scope + [VarName(j + 1)], mid, to)
    ensures Drawn(g, secondOrder, Map(xs, VarName(j + 1), body), depth, scope, from, to, i, j + 1)
  {
    hide VarName, IsName, IntWritable, IntClosed, IntFits, IntChoices;
    VarIsName(j + 1);
    Append(from, [Choice(true, 2)], Choices(xs), mid);
    AppendMore(from, [Choice(true, 2)], Choices(xs), mid, IntChoices(body), to);
  }

  lemma ScanDrawn(g: Limits, secondOrder: bool, xs: ListExpr, init: IntExpr, body: IntExpr, depth: nat,
                  scope: seq<string>,
                  from: seq<Choice>, mid: seq<Choice>, mid2: seq<Choice>, to: seq<Choice>, i: nat, j: nat)
    requires g.intExtraDepth >= 1 && depth < g.maxDepth
    requires Drawn(g, secondOrder, xs, depth + 1, scope, from + [Choice(true, 3)], mid, i, j)
    requires IntDrawn(g, init, depth + 1, scope, mid, mid2)
    requires IntDrawn(g, body, depth + 1, scope + [VarName(j + 1), VarName(j + 2)], mid2, to)
    ensures Drawn(g, secondOrder, Scan(xs, init, VarName(j + 1), VarName(j + 2), body), depth, scope, from, to, i,
                  j + 2)
  {
    hide VarName, IsName, IntWritable, IntClosed, IntFits, IntChoices;
    VarIsName(j + 1);
    VarIsName(j + 2);
    Append(from, [Choice(true, 3)], Choices(xs), mid);
    AppendMore(from, [Choice(true, 3)], Choices(xs), mid, IntChoices(init), mid2);
    AppendMore(from, [Choice(true, 3)], Choices(xs) + IntChoices(init), mid2, IntChoices(body), to);
    assert Names(i, j + 2) == Names(i, j) + [VarName(j + 1), VarName(j + 2)];
  }

  lemma ConcatDrawn(g: Limits, secondOrder: bool, l: ListExpr, r: ListExpr, depth: nat, scope: seq<string>,
                    from: seq<Choice>, mid: seq<Choice>, to: seq<Choice>, i: nat, j: nat, k: nat)
    requires depth < g.maxDepth
    requires Drawn(g, secondOrder, l, depth + 1, scope, from + [Choice(true, 8)], mid, i, j)
    requires Drawn(g, secondOrder, r, depth + 1, scope, mid, to, j, k)
    ensures Drawn(g, secondOrder, Concat(l, r), depth, scope, from, to, i, k)
  {
    hide Names;
    Append(from, [Choice(true, 8)], Choices(l), mid);
    AppendMore(from, [Choice(true, 8)], Choices(l), mid, Choices(r), to);
    NamesJoin(i, j, k);
  }

  lemma {:induction false} NamesJoin(i: nat, j: nat, k: nat)
    requires i <= j <= k
    ensures Names(i, j) + Names(j, k) == Names(i, k)
  {
    if j < k {
      NamesJoin(i, j, k - 1);
    }
  }

  lemma VarIsName(n: nat)
    ensures IsName(VarName(n)) && !IsOperator(VarName(n))
  {
    var v := VarName(n);
    assert v[0] == 'v' && "wrapping_add"[0] == 'w' && "wrapping_sub"[0] == 'w' && "wrapping_mul"[0] == 'w';
    forall i | 0 <= i < |v| ensures IsWord(v[i]) {
      assert i > 0 ==> v[i] == Digits(n)[i - 1];
    }
  }

  /** A sampled variable is one the scope can go on with. */
  lemma ScopeGrows(scope: seq<string>, n: nat)
    requires PlainScope(scope)
    ensures PlainScope(scope + [VarName(n)])
  {
    hide IsName, IsOperator, VarName;
    VarIsName(n);
  }

  lemma CoefficientsFit(g: Limits, k: nat)
    requires g.Samplable() && g.oscShift.Has(k)
    ensures 2 <= Pow2(k) < Pow2(k + 1) <= g.literal.hi
  {
    Pow2Monotone(1, k);
    Pow2Monotone(k + 1, g.oscShift.hi + 1);
  }

  // ----- the draws that make a sample, in their order -----

  /** Which productions of an integer may be drawn. */
  function IntAllowed(g: Limits, depth: nat, scope: seq<string>): (allowed: seq<bool>)
    ensures |allowed| == INT_RULES && allowed[0]
  {
    var leaf := depth >= g.MaxIntDepth();
    [true, scope != [], !leaf, !leaf, !leaf, !leaf]
  }

  /** Which of `n` productions of a list may be drawn. */
  function ListAllowed(g: Limits, depth: nat, n: nat): (allowed: seq<bool>)
    ensures |allowed| == n && forall r :: 0 <= r < n ==> allowed[r] == (depth < g.maxDepth || IsLeafRule(r))
  {
    seq(n, r requires 0 <= r < n => depth < g.maxDepth || IsLeafRule(r))
  }

  /** A number within bounds, from one draw. */
  function NumberFrom(b: Bound, s: State): (n: nat)
    requires b.lo <= b.hi
    ensures b.Has(n)
  {
    InRange(b.lo, b.hi, Word(s))
  }

  /** A variable of the scope, from one draw. */
  function NameFrom(scope: seq<string>, s: State): (e: IntExpr)
    requires 0 < |scope|
    ensures e.Var? && e.name in scope
  {
    Var(scope[IndexOf(|scope|, Word(s))])
  }

  /** The integer tree that sampling draws from `s` on, and what it leaves of the generator: the
      production first, then its parts from left to right. */
  function IntFrom(g: Limits, policy: Policy, s: State, depth: nat, scope: seq<string>): (r: (IntExpr, State))
    requires g.Samplable() && policy.Valid()
    decreases if depth < g.MaxIntDepth() then g.MaxIntDepth() - depth else 0
  {
    var rule := Chosen(policy.intProbs, IntAllowed(g, depth, scope), Word(s));
    var t := After(s);
    if rule == 0 then (Lit(NumberFrom(g.literal, t)), After(t))
    else if rule == 1 then (NameFrom(scope, t), After(t))
    else if rule == 5 then
      var (a, u) := IntFrom(g, policy, t, depth + 1, scope);
      (Mod(a, NumberFrom(g.modulus, u)), After(u))
    else
      var (l, u) := IntFrom(g, policy, t, depth + 1, scope);
      var (r, w) := IntFrom(g, policy, u, depth + 1, scope);
      (Binary(rule, l, r), w)
  }

  /** An element of a template: a variable one time in four, else a literal. */
  function ElementFrom(g: Limits, s: State, scope: seq<string>): (r: (IntExpr, State))
    requires g.Samplable() && 0 < |scope|
  {
    var t := After(s);
    (if Unit(Word(s)) < 0.25 then NameFrom(scope, t) else Lit(NumberFrom(g.literal, t)), After(t))
  }

  function ElementsFrom(g: Limits, s: State, scope: seq<string>, k: nat): (r: (seq<IntExpr>, State))
    requires g.Samplable() && 0 < |scope|
    ensures |r.0| == k
  {
    if k == 0 then ([], s)
    else
      var (elems, t) := ElementsFrom(g, s, scope, k - 1);
      var (e, u) := ElementFrom(g, t, scope);
      (elems + [e], u)
  }

  /** An oscillator's six draws. The shift is first, for the coefficients' ranges are given by it. */
  function OscillatorFrom(g: Limits, s: State): (r: (Oscillator, State))
    requires g.Samplable()
  {
    var k := NumberFrom(g.oscShift, s);
    CoefficientsFit(g, k);
    var s1 := After(s);
    var b := InRange(1, Pow2(k) - 1, Word(s1));
    var s2 := After(s1);
    var a := InRange(0, Pow2(k + 1), Word(s2));
    var s3 := After(s2);
    var s4 := After(s3);
    var s5 := After(s4);
    (Oscillator(NumberFrom(g.oscLen, s3), NumberFrom(g.literal, s4), NumberFrom(g.literal, s5), a, b, k), After(s5))
  }

  /** A list leaf drawn by `rule`, with `vars` variables named before it. */
  function LeafFrom(g: Limits, policy: Policy, rule: nat, s: State, vars: nat, depth: nat, scope: seq<string>):
    (r: (ListExpr, State, nat))
    requires g.Samplable() && policy.Valid() && 0 < |scope|
  {
    if rule == 0 then (Range(NumberFrom(g.range, s)), After(s), vars)
    else if rule == 1 then
      var (a, t) := IntFrom(g, policy, s, depth + 1, scope);
      (Repeat(a, NumberFrom(g.repeat, t)), After(t), vars)
    else if rule == 10 then
      var (elems, t) := ElementsFrom(g, After(s), scope, NumberFrom(g.cycleElems, s));
      (Cycle(VarName(vars + 1), elems, NumberFrom(g.cycleLen, t)), After(t), vars + 1)
    else if rule == 11 then
      (Nest(VarName(vars + 1), NumberFrom(g.nestCount, s), NumberFrom(g.nestMod, After(s))), After(After(s)), vars + 1)
    else
      var (o, t) := OscillatorFrom(g, s);
      (Osc(o), t, vars)
  }

  /** A list tree drawn by `rule` that holds others: its first list, then the rest from left to right. */
  function NodeFrom(g: Limits, policy: Policy, rule: nat, s: State, vars: nat, depth: nat, scope: seq<string>):
    (r: (ListExpr, State, nat))
    requires g.Samplable() && policy.Valid() && 0 < |scope| && depth < g.maxDepth
    decreases g.maxDepth - depth, 0
  {
    var (xs, t, n) := ListFrom(g, policy, s, vars, depth + 1, scope);
    if rule == 2 then
      var (body, u) := IntFrom(g, policy, t, depth + 1, scope + [VarName(n + 1)]);
      (Map(xs, VarName(n + 1), body), u, n + 1)
    else if rule == 3 then
      var (init, u) := IntFrom(g, policy, t, depth + 1, scope);
      var (body, w) := IntFrom(g, policy, u, depth + 1, scope + [VarName(n + 1), VarName(n + 2)]);
      (Scan(xs, init, VarName(n + 1), VarName(n + 2), body), w, n + 2)
    else if rule == 4 then
      var k := NumberFrom(g.filterMod, t);
      (Filter(xs, VarName(n + 1), k, InRange(0, k - 1, Word(After(t)))), After(After(t)), n + 1)
    else if rule == 5 then (Reverse(xs), t, n)
    else if rule == 6 then (Sort(xs), t, n)
    else if rule == 7 then (Take(xs, NumberFrom(g.take, t)), After(t), n)
    else if rule == 8 then
      var (ys, u, m) := ListFrom(g, policy, t, n, depth + 1, scope);
      (Concat(xs, ys), u, m)
    else (Copy(xs, NumberFrom(g.copy, t)), After(t), n)
  }

  /** The list tree that sampling draws from `s` on, with `vars` variables named before it; what it
      leaves of the generator; and how many variables are named then. */
  function ListFrom(g: Limits, policy: Policy, s: State, vars: nat, depth: nat, scope: seq<string>):
    (r: (ListExpr, State, nat))
    requires g.Samplable() && policy.Valid() && 0 < |scope|
    decreases if depth < g.maxDepth then g.maxDepth - depth else 0, 1
  {
    var n := |policy.listProbs|;
    assert ListAllowed(g, depth, n)[0];
    var rule := Chosen(policy.listProbs, ListAllowed(g, depth, n), Word(s));
    if IsLeafRule(rule) then LeafFrom(g, policy, rule, After(s), vars, depth, scope)
    else NodeFrom(g, policy, rule, After(s), vars, depth, scope)
  }

  class Sampler {
    const g: Limits
    const policy: Policy
    const rng: Rng
    var trace: seq<Choice>
    var vars: nat

    constructor (g: Limits, policy: Policy, rng: Rng)
      ensures this.g == g && this.policy == policy && this.rng == rng
      ensures trace == [] && vars == 0
    {
      this.g, this.policy, this.rng := g, policy, rng;
      trace, vars := [], 0;
    }

    ghost predicate Valid() {
      g.Samplable() && policy.Valid()
    }

    method Draw(b: Bound) returns (n: nat)
      requires Drawable(b) && b.hi <= U64_MAX
      modifies rng
      ensures b.Has(n) && n == NumberFrom(b, old(rng.state)) && rng.state == After(old(rng.state))
    {
      hide InRange, Word, After;
      n := rng.Range(b.lo, b.hi);
    }

    method FreshVar() returns (v: string)
      modifies this`vars
      ensures vars == old(vars) + 1 && v == VarName(vars)
    {
      vars := vars + 1;
      v := "v" + Digits(vars);
    }

    method VarIn(scope: seq<string>) returns (e: IntExpr)
      requires 0 < |scope|
      modifies rng
      ensures e == NameFrom(scope, old(rng.state)) && rng.state == After(old(rng.state))
    {
      hide IndexOf, Word, After;
      var i := rng.Below(|scope|);
      e := Var(scope[i]);
    }

    // ----- integers -----

    method Int(depth: nat, scope: seq<string>) returns (e: IntExpr)
      requires Valid() && PlainScope(scope)
      modifies this`trace, rng
      ensures IntDrawn(g, e, depth, scope, old(trace), trace)
      ensures (e, rng.state) == IntFrom(g, policy, old(rng.state), depth, scope)
      decreases if depth < g.MaxIntDepth() then g.MaxIntDepth() - depth else 0
    {
      hide IntDrawn, Chosen, IntChoices, IsName, IsOperator, Word, After, NumberFrom, NameFrom;
      var allowed := IntAllowed(g, depth, scope);
      ghost var from := trace;
      var rule := rng.Pick(policy.intProbs, allowed);
      trace := trace + [Choice(false, rule)];
      if rule == 0 {
        var n := Draw(g.literal);
        e := Lit(n);
        LeafDrawn(g, e, depth, scope, from);
      } else if rule == 1 {
        e := VarIn(scope);
        LeafDrawn(g, e, depth, scope, from);
      } else if rule == 5 {
        var a := Int(depth + 1, scope);
        var k := Draw(g.modulus);
        e := Mod(a, k);
        ModDrawn(g, a, k, depth, scope, from, trace);
      } else {
        var l := Int(depth + 1, scope);
        ghost var mid := trace;
        var r := Int(depth + 1, scope);
        e := Binary(rule, l, r);
        BinaryDrawn(g, rule, l, r, depth, scope, from, mid, trace);
      }
    }

    // ----- lists -----

    method List(depth: nat, scope: seq<string>) returns (e: ListExpr)
      requires Valid() && PlainScope(scope) && 0 < |scope|
      modifies this`trace, this`vars, rng
      ensures Drawn(g, policy.SecondOrder(), e, depth, scope, old(trace), trace, old(vars), vars)
      ensures (e, rng.state, vars) == ListFrom(g, policy, old(rng.state), old(vars), depth, scope)
      decreases if depth < g.maxDepth then g.maxDepth - depth else 0
    {
      hide Drawn, IntDrawn, Chosen, PlainScope, Writable, Closed, VarName, Word, After, LeafFrom, NodeFrom;
      var allowed := ListAllowed(g, depth, |policy.listProbs|);
      assert allowed[0];
      var rule := rng.Pick(policy.listProbs, allowed);
      if IsLeafRule(rule) {
        e := Leaf(rule, depth, scope);
      } else {
        e := Node(rule, depth, scope);
      }
    }

    method Leaf(rule: nat, depth: nat, scope: seq<string>) returns (e: ListExpr)
      requires Valid() && PlainScope(scope) && 0 < |scope|
      requires rule < |policy.listProbs| && IsLeafRule(rule)
      modifies this`trace, this`vars, rng
      ensures Drawn(g, policy.SecondOrder(), e, depth, scope, old(trace), trace, old(vars), vars)
      ensures (e, rng.state, vars) == LeafFrom(g, policy, rule, old(rng.state), old(vars), depth, scope)
    {
      hide Drawn, IntDrawn, PlainScope, VarName, IsName, Word, After, NumberFrom, IntFrom, ElementsFrom, OscillatorFrom;
      ghost var from := trace;
      trace := trace + [Choice(true, rule)];
      if rule == 0 {
        var n := Draw(g.range);
        e := Range(n);
        PlainLeafDrawn(g, policy.SecondOrder(), e, depth, scope, from, vars);
      } else if rule == 1 {
        var a := Int(depth + 1, scope);
        var n := Draw(g.repeat);
        e := Repeat(a, n);
        RepeatDrawn(g, policy.SecondOrder(), a, n, depth, scope, from, trace, vars);
      } else if rule == 10 {
        var elems := Elements(scope);
        var v := FreshVar();
        var n := Draw(g.cycleLen);
        e := Cycle(v, elems, n);
        VarIsName(vars);
        NamedLeafDrawn(g, policy.SecondOrder(), e, depth, scope, from, vars - 1);
      } else if rule == 11 {
        var v := FreshVar();
        var n := Draw(g.nestCount);
        var k := Draw(g.nestMod);
        e := Nest(v, n, k);
        VarIsName(vars);
        NamedLeafDrawn(g, policy.SecondOrder(), e, depth, scope, from, vars - 1);
      } else {
        var o := Oscillation();
        e := Osc(o);
        PlainLeafDrawn(g, policy.SecondOrder(), e, depth, scope, from, vars);
      }
    }

    /** The elements of a template: literals, and with probability 1/4 each variables in scope. */
    method Elements(scope: seq<string>) returns (elems: seq<IntExpr>)
      requires Valid() && PlainScope(scope) && 0 < |scope|
      modifies rng
      ensures g.cycleElems.Has(|elems|)
      ensures forall i :: 0 <= i < |elems| ==> ElemWritable(g, elems[i]) && IntClosed(elems[i], scope)
      ensures |elems| == NumberFrom(g.cycleElems, old(rng.state))
      ensures (elems, rng.state) == ElementsFrom(g, After(old(rng.state)), scope, |elems|)
    {
      hide IsName, IsOperator, Word, After, NumberFrom, NameFrom, Unit;
      var k := Draw(g.cycleElems);
      elems := [];
      while |elems| < k
        invariant |elems| <= k
        invariant (elems, rng.state) == ElementsFrom(g, After(old(rng.state)), scope, |elems|)
        invariant forall i :: 0 <= i < |elems| ==> ElemWritable(g, elems[i]) && IntClosed(elems[i], scope)
      {
        var u := rng.NextUnit();
        if u < 0.25 {
          var e := VarIn(scope);
          elems := elems + [e];
        } else {
          var n := Draw(g.literal);
          elems := elems + [Lit(n)];
        }
      }
    }

    /** An oscillator. The shift comes first, because the coefficients' ranges depend on it. */
    method Oscillation() returns (o: Oscillator)
      requires Valid()
      modifies rng
      ensures OscWritable(g, o) && g.oscLen.Has(o.n) && o.b >= 1
      ensures (o, rng.state) == OscillatorFrom(g, old(rng.state))
    {
      hide Pow2, Word, After, InRange;
      var k := Draw(g.oscShift);
      CoefficientsFit(g, k);
      var b := rng.Range(1, Pow2(k) - 1);
      var a := rng.Range(0, Pow2(k + 1));
      var n := Draw(g.oscLen);
      var x1 := Draw(g.literal);
      var x0 := Draw(g.literal);
      o := Oscillator(n, x1, x0, a, b, k);
    }

    method Node(rule: nat, depth: nat, scope: seq<string>) returns (e: ListExpr)
      requires Valid() && PlainScope(scope) && 0 < |scope|
      requires rule < |policy.listProbs| && !IsLeafRule(rule) && depth < g.maxDepth
      modifies this`trace, this`vars, rng
      ensures Drawn(g, policy.SecondOrder(), e, depth, scope, old(trace), trace, old(vars), vars)
      ensures (e, rng.state, vars) == NodeFrom(g, policy, rule, old(rng.state), old(vars), depth, scope)
      decreases g.maxDepth - depth, 0
    {
      hide Drawn, IntDrawn, PlainScope, VarName, Word, After, NumberFrom, InRange, IntFrom, ListFrom;
      ghost var from, i := trace, vars;
      trace := trace + [Choice(true, rule)];
      var xs := List(depth + 1, scope);
      ghost var mid, j := trace, vars;
      if rule == 2 {
        var v := FreshVar();
        ScopeGrows(scope, vars);
        var body := Int(depth + 1, scope + [v]);
        e := Map(xs, v, body);
        MapDrawn(g, policy.SecondOrder(), xs, body, depth, scope, from, mid, trace, i, j);
      } else if rule == 3 {
        var init := Int(depth + 1, scope);
        ghost var mid2 := trace;
        var a := FreshVar();
        var x := FreshVar();
        ScopeGrows(scope, vars - 1);
        ScopeGrows(scope + [a], vars);
        assert scope + [a] + [x] == scope + [a, x];
        var body := Int(depth + 1, scope + [a, x]);
        e := Scan(xs, init, a, x, body);
        ScanDrawn(g, policy.SecondOrder(), xs, init, body, depth, scope, from, mid, mid2, trace, i, j);
      } else if rule == 4 {
        var k := Draw(g.filterMod);
        var r := rng.Range(0, k - 1);
        var v := FreshVar();
        e := Filter(xs, v, k, r);
        FilterDrawn(g, policy.SecondOrder(), xs, k, r, depth, scope, from, trace, i, j);
      } else if rule == 8 {
        var ys := List(depth + 1, scope);
        e := Concat(xs, ys);
        ConcatDrawn(g, policy.SecondOrder(), xs, ys, depth, scope, from, mid, trace, i, j, vars);
      } else {
        if rule == 5 {
          e := Reverse(xs);
        } else if rule == 6 {
          e := Sort(xs);
        } else if rule == 7 {
          var n := Draw(g.take);
          e := Take(xs, n);
        } else {
          var n := Draw(g.copy);
          e := Copy(xs, n);
        }
        ShellDrawn(g, policy.SecondOrder(), e, depth, scope, from, trace, i, j);
      }
    }
  }

  /** What a draw at depth `depth` can be. Its variables are `v1`, `v2` and so on, each bound once. */
  ghost predicate IsSample(g: Limits, secondOrder: bool, e: ListExpr, depth: nat) {
    && Writable(g, e) && Closed(e, TOP_SCOPE) && (secondOrder || NoOscillator(e))
    && (depth <= g.maxDepth ==> Fits(g, e, depth))
    && Binders(e) == Names(0, |Binders(e)|)
  }

  /** `sample_at`: a subtree for depth `depth`, and the choices that derive it. */
  method SampleAt(g: Limits, policy: Policy, rng: Rng, depth: nat) returns (e: ListExpr, trace: seq<Choice>)
    requires g.Samplable() && policy.Valid()
    modifies rng
    ensures IsSample(g, policy.SecondOrder(), e, depth)
    ensures trace == Choices(e)
    ensures e == ListFrom(g, policy, old(rng.state), 0, depth, TOP_SCOPE).0
    ensures rng.state == ListFrom(g, policy, old(rng.state), 0, depth, TOP_SCOPE).1
  {
    hide ListFrom, Writable, Closed, NoOscillator, Fits, PlainScope, Names, Choices, Binders;
    var s := new Sampler(g, policy, rng);
    TopScopeIsPlain();
    e := s.List(depth, TOP_SCOPE);
    trace := s.trace;
    assert [] + Choices(e) == Choices(e);
    NamesLength(0, s.vars);
  }

  lemma NamesLength(i: nat, j: nat)
    requires i <= j
    ensures |Names(i, j)| == j - i
  {
  }
}
