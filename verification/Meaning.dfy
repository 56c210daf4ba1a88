/** What a program computes: the list a body denotes for an input, in MAGE's 64-bit integers. `None` is
    a body that is stuck: an unbound variable, an empty template, a remainder by zero. */
module Meaning {
  import opened Wrappers
  import opened Grammar

  const TWO_63: int := 0x8000_0000_0000_0000
  const TWO_64: int := 0x1_0000_0000_0000_0000

  predicate IsWord64(x: int) {
    -TWO_63 <= x < TWO_63
  }

  /** Reduction to a 64-bit word, as the wrapping operators do. */
  function Wrap(x: int): (r: int)
    ensures IsWord64(r)
    ensures IsWord64(x) ==> r == x
  {
    (x + TWO_63) % TWO_64 - TWO_63
  }

  /** Remainder, left open but for what it is on a word that is not negative. */
  type Remainder = (int, nat) -> int

  ghost predicate IsRemainder(rem: Remainder) {
    forall x: int, k: nat :: k > 0 && IsWord64(x) ==> IsWord64(rem(x, k)) && (x >= 0 ==> rem(x, k) == x % k)
  }

  // ----- scopes -----

  /** Where a name is bound: the innermost place, or -1. */
  function Resolve(scope: seq<string>, v: string): (i: int)
    ensures -1 <= i < |scope|
    ensures i == -1 <==> v !in scope
    ensures i >= 0 ==> scope[i] == v
  {
    if scope == [] then -1
    else if scope[|scope| - 1] == v then |scope| - 1
    else Resolve(scope[..|scope| - 1], v)
  }

  // ----- evaluation -----

  /** The value of an integer expression, where `vals[i]` is the value of `scope[i]`. */
  function IntValue(rem: Remainder, e: IntExpr, scope: seq<string>, vals: seq<int>): Option<int>
    requires |scope| == |vals|
  {
    match e
    case Lit(n) => Some(Wrap(n))
    case Var(v) => if v in scope then Some(vals[Resolve(scope, v)]) else None
    case Add(l, r) =>
      var a :- IntValue(rem, l, scope, vals);
      var b :- IntValue(rem, r, scope, vals);
      Some(Wrap(a + b))
    case Sub(l, r) =>
      var a :- IntValue(rem, l, scope, vals);
      var b :- IntValue(rem, r, scope, vals);
      Some(Wrap(a - b))
    case Mul(l, r) =>
      var a :- IntValue(rem, l, scope, vals);
      var b :- IntValue(rem, r, scope, vals);
      Some(Wrap(a * b))
    case Mod(x, k) =>
      var a :- IntValue(rem, x, scope, vals);
      if k == 0 then None else Some(rem(a, k))
  }

  /** `range(n)`. */
  function Count(n: nat): (s: seq<int>)
    ensures |s| == n && forall i :: 0 <= i < n ==> s[i] == Wrap(i)
  {
    seq(n, i requires 0 <= i < n => Wrap(i))
  }

  function MapValues(rem: Remainder, xs: seq<int>, v: string, body: IntExpr, input: int): (r: Option<seq<int>>)
    ensures r.Some? ==> |r.value| == |xs|
  {
    if xs == [] then Some([])
    else
      var y :- IntValue(rem, body, TOP_SCOPE + [v], [input, xs[0]]);
      var ys :- MapValues(rem, xs[1..], v, body, input);
      Some([y] + ys)
  }

  /** `scan` emits the accumulator it starts with, then each one it steps to. */
  function ScanValues(rem: Remainder, xs: seq<int>, acc: int, a: string, x: string, body: IntExpr, input: int):
    (r: Option<seq<int>>)
    ensures r.Some? ==> |r.value| == |xs| + 1
    decreases |xs|
  {
    if xs == [] then Some([acc])
    else
      var next :- IntValue(rem, body, TOP_SCOPE + [a, x], [input, acc, xs[0]]);
      var ys :- ScanValues(rem, xs[1..], next, a, x, body, input);
      Some([acc] + ys)
  }

  function Kept(rem: Remainder, xs: seq<int>, k: nat, r: nat): (ys: seq<int>)
    ensures |ys| <= |xs| && forall y :: y in ys ==> y in xs
  {
    if xs == [] then []
    else (if rem(xs[0], k) == r then [xs[0]] else []) + Kept(rem, xs[1..], k, r)
  }

  function Reversed(xs: seq<int>): (ys: seq<int>)
    ensures |ys| == |xs| && forall i :: 0 <= i < |xs| ==> ys[i] == xs[|xs| - 1 - i]
  {
    seq(|xs|, i requires 0 <= i < |xs| => xs[|xs| - 1 - i])
  }

  function Insert(x: int, xs: seq<int>): (ys: seq<int>)
    ensures |ys| == |xs| + 1 && forall y :: y in ys <==> y == x || y in xs
  {
    if xs == [] then [x]
    else if x <= xs[0] then [x] + xs
    else
      var rest := Insert(x, xs[1..]);
      assert xs == [xs[0]] + xs[1..];
      [xs[0]] + rest
  }

  function Sorted(xs: seq<int>): (ys: seq<int>)
    ensures |ys| == |xs| && forall y :: y in ys <==> y in xs
  {
    if xs == [] then []
    else
      assert xs == [xs[0]] + xs[1..];
      Insert(xs[0], Sorted(xs[1..]))
  }

  predicate Ascending(xs: seq<int>) {
    forall i, j :: 0 <= i < j < |xs| ==> xs[i] <= xs[j]
  }

  lemma {:induction false} InsertAscends(x: int, xs: seq<int>)
    requires Ascending(xs)
    ensures Ascending(Insert(x, xs))
  {
    if xs != [] && x > xs[0] {
      assert xs == [xs[0]] + xs[1..];
      InsertAscends(x, xs[1..]);
      var rest := Insert(x, xs[1..]);
      forall j | 0 <= j < |rest| ensures xs[0] <= rest[j] {
        assert rest[j] in rest;
      }
    }
  }

  lemma {:induction false} InsertKeeps(x: int, xs: seq<int>)
    ensures multiset(Insert(x, xs)) == multiset(xs) + multiset{x}
  {
    if xs != [] && x > xs[0] {
      assert xs == [xs[0]] + xs[1..];
      InsertKeeps(x, xs[1..]);
    }
  }

  /** `sort` gives its argument's elements in ascending order. */
  lemma {:induction false} SortedSorts(xs: seq<int>)
    ensures Ascending(Sorted(xs)) && multiset(Sorted(xs)) == multiset(xs)
  {
    if xs != [] {
      assert xs == [xs[0]] + xs[1..];
      SortedSorts(xs[1..]);
      InsertAscends(xs[0], Sorted(xs[1..]));
      InsertKeeps(xs[0], Sorted(xs[1..]));
    }
  }

  function Repeated(xs: seq<int>, n: nat): (ys: seq<int>)
    ensures |ys| == n * |xs| && forall y :: y in ys ==> y in xs
  {
    if n == 0 then []
    else
      assert n * |xs| == |xs| + (n - 1) * |xs|;
      xs + Repeated(xs, n - 1)
  }

  /** The template's value at each index from `i` on. Its elements stand inside the closure, so an
      element that names the closure's variable means the index. */
  function CycleValues(rem: Remainder, v: string, elems: seq<IntExpr>, i: nat, len: nat, input: int):
    (r: Option<seq<int>>)
    requires i <= len
    ensures r.Some? ==> |r.value| == len - i
    decreases len - i
  {
    if i == len then Some([])
    else if elems == [] then None
    else
      var y :- IntValue(rem, elems[i % |elems|], TOP_SCOPE + [v], [input, Wrap(i)]);
      var ys :- CycleValues(rem, v, elems, i + 1, len, input);
      Some([y] + ys)
  }

  /** `range(v % k + 1)` for each `v` from `i` up to `n`, one after another. */
  function NestValues(i: nat, n: nat, k: nat): (ys: seq<int>)
    requires i <= n && k > 0
    ensures |ys| <= (n - i) * k
    ensures forall y :: y in ys ==> IsWord64(y)
    decreases n - i
  {
    if i == n then []
    else
      assert (n - i) * k == k + (n - i - 1) * k;
      Count(i % k + 1) + NestValues(i + 1, n, k)
  }

  /** `(a * c - b * q) >> k`, a shift that rounds down. */
  function OscNext(c: int, q: int, a: nat, b: nat, k: nat): (next: int)
    ensures IsWord64(next)
  {
    var d := Wrap(Wrap(a * c) - Wrap(b * q));
    ShiftedIsWord(d, Pow2(k));
    d / Pow2(k)
  }

  lemma ShiftedIsWord(d: int, p: nat)
    requires IsWord64(d) && p >= 1
    ensures IsWord64(d / p)
  {
    FloorIsSmall(d / p, p, d % p, d);
  }

  lemma FloorIsSmall(q: int, p: nat, r: nat, d: int)
    requires r < p && d == p * q + r
    ensures if q >= 0 then q <= d else d <= q
  {
    if q >= 0 {
      ProductGrows(p, q);
    } else {
      ProductGrows(p, -q - 1);
      assert p * q == -(p * (-q - 1)) - p;
    }
  }

  lemma {:induction false} ProductGrows(p: nat, q: nat)
    requires p >= 1
    ensures p * q >= q
  {
    if q > 0 {
      ProductGrows(p, q - 1);
      assert p * q == p * (q - 1) + p;
    }
  }

  /** The oscillator's values from `c` on, where `q` is the one before. */
  function OscValues(c: int, q: int, n: nat, a: nat, b: nat, k: nat): seq<int>
    decreases n
  {
    if n == 0 then [] else [c] + OscValues(OscNext(c, q, a, b, k), c, n - 1, a, b, k)
  }

  lemma {:induction false} OscValuesAreWords(c: int, q: int, n: nat, a: nat, b: nat, k: nat)
    requires IsWord64(c)
    ensures |OscValues(c, q, n, a, b, k)| == n
    ensures AllWords(OscValues(c, q, n, a, b, k))
    decreases n
  {
    hide OscNext;
    if n > 0 {
      OscValuesAreWords(OscNext(c, q, a, b, k), c, n - 1, a, b, k);
    }
  }

  predicate AllWords(xs: seq<int>) {
    forall i :: 0 <= i < |xs| ==> IsWord64(xs[i])
  }

  /** The list a body denotes for an input. */
  function ListValue(rem: Remainder, e: ListExpr, input: int): Option<seq<int>> {
    match e
    case Range(n) => Some(Count(n))
    case Repeat(i, n) =>
      var y :- IntValue(rem, i, TOP_SCOPE, [input]);
      Some(seq(n, _ => y))
    case Map(xs, v, body) =>
      var ys :- ListValue(rem, xs, input);
      MapValues(rem, ys, v, body, input)
    case Scan(xs, init, a, x, body) =>
      var ys :- ListValue(rem, xs, input);
      var acc :- IntValue(rem, init, TOP_SCOPE, [input]);
      ScanValues(rem, ys, acc, a, x, body, input)
    case Filter(xs, _, k, r) =>
      var ys :- ListValue(rem, xs, input);
      if k == 0 then None else Some(Kept(rem, ys, k, r))
    case Reverse(xs) =>
      var ys :- ListValue(rem, xs, input);
      Some(Reversed(ys))
    case Sort(xs) =>
      var ys :- ListValue(rem, xs, input);
      Some(Sorted(ys))
    case Take(xs, n) =>
      var ys :- ListValue(rem, xs, input);
      Some(if n < |ys| then ys[..n] else ys)
    case Concat(l, r) =>
      var ys :- ListValue(rem, l, input);
      var zs :- ListValue(rem, r, input);
      Some(ys + zs)
    case Copy(xs, n) =>
      var ys :- ListValue(rem, xs, input);
      Some(Repeated(ys, n))
    case Cycle(v, elems, len) => CycleValues(rem, v, elems, 0, len, input)
    case Nest(_, n, k) => if k == 0 then None else Some(NestValues(0, n, k))
    case Osc(o) => if o.n == 0 then None else Some(OscValues(Wrap(o.x1), Wrap(o.x0), o.n, o.a, o.b, o.k))
  }
}
