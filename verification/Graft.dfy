/** Variation on programs: the list subtrees of a tree, renaming what a subtree binds, and the two
    operators that graft one subtree over another. */
module Grafting {
  import opened Text
  import opened Grammar

  // ----- list subtrees and their paths -----

  function Kids(e: ListExpr): (kids: seq<ListExpr>)
    ensures forall k :: 0 <= k < |kids| ==> kids[k] < e
  {
    match e
    case Range(_) => []
    case Repeat(_, _) => []
    case Map(xs, _, _) => [xs]
    case Scan(xs, _, _, _, _) => [xs]
    case Filter(xs, _, _, _) => [xs]
    case Reverse(xs) => [xs]
    case Sort(xs) => [xs]
    case Take(xs, _) => [xs]
    case Concat(l, r) => [l, r]
    case Copy(xs, _) => [xs]
    case Cycle(_, _, _) => []
    case Nest(_, _, _) => []
    case Osc(_) => []
  }

  /** A path of child indices that leads to a list subtree. */
  predicate IsPath(e: ListExpr, path: seq<nat>)
    decreases e
  {
    path == [] || (path[0] < |Kids(e)| && IsPath(Kids(e)[path[0]], path[1..]))
  }

  function Below(i: nat, paths: seq<seq<nat>>): (r: seq<seq<nat>>)
    ensures |r| == |paths|
    ensures forall k :: 0 <= k < |r| ==> r[k] == [i] + paths[k]
  {
    seq(|paths|, k requires 0 <= k < |paths| => [i] + paths[k])
  }

  /** `list_paths`: every list subtree, pre-order. */
  function Paths(e: ListExpr): (paths: seq<seq<nat>>)
    ensures |paths| > 0
  {
    match e
    case Concat(l, r) => [[]] + Below(0, Paths(l)) + Below(1, Paths(r))
    case Range(_) => [[]]
    case Repeat(_, _) => [[]]
    case Cycle(_, _, _) => [[]]
    case Nest(_, _, _) => [[]]
    case Osc(_) => [[]]
    case Map(xs, _, _) => [[]] + Below(0, Paths(xs))
    case Scan(xs, _, _, _, _) => [[]] + Below(0, Paths(xs))
    case Filter(xs, _, _, _) => [[]] + Below(0, Paths(xs))
    case Reverse(xs) => [[]] + Below(0, Paths(xs))
    case Sort(xs) => [[]] + Below(0, Paths(xs))
    case Take(xs, _) => [[]] + Below(0, Paths(xs))
    case Copy(xs, _) => [[]] + Below(0, Paths(xs))
  }

  /** `at`. */
  function At(e: ListExpr, path: seq<nat>): ListExpr
    requires IsPath(e, path)
    decreases e
  {
    if path == [] then e else At(Kids(e)[path[0]], path[1..])
  }

  /** `e` with another list as its `i`-th child. */
  function WithKid(e: ListExpr, i: nat, kid: ListExpr): (r: ListExpr)
    requires i < |Kids(e)|
    ensures Kids(r) == Kids(e)[i := kid]
  {
    match e
    case Concat(l, r) => if i == 0 then Concat(kid, r) else Concat(l, kid)
    case Map(_, v, body) => Map(kid, v, body)
    case Scan(_, init, a, x, body) => Scan(kid, init, a, x, body)
    case Filter(_, v, k, r) => Filter(kid, v, k, r)
    case Reverse(_) => Reverse(kid)
    case Sort(_) => Sort(kid)
    case Take(_, n) => Take(kid, n)
    case Copy(_, n) => Copy(kid, n)
  }

  /** What assigning through `at_mut` leaves: `sub` in place of the subtree at `path`. */
  function Put(e: ListExpr, path: seq<nat>, sub: ListExpr): ListExpr
    requires IsPath(e, path)
    decreases e
  {
    if path == [] then sub else WithKid(e, path[0], Put(Kids(e)[path[0]], path[1..], sub))
  }

  // ----- paths lead to every list subtree, once -----

  lemma {:induction false} PathsAreAll(e: ListExpr, path: seq<nat>)
    ensures path in Paths(e) <==> IsPath(e, path)
    decreases e
  {
    PathsByKid(e);
    if path != [] {
      var i, rest := path[0], path[1..];
      assert path == [i] + rest;
      forall k | 0 <= k < |Kids(e)|
        ensures path in Below(k, Paths(Kids(e)[k])) <==> i == k && IsPath(Kids(e)[k], rest)
      {
        var kid := Kids(e)[k];
        PathsAreAll(kid, rest);
        BelowHas(k, Paths(kid), path);
      }
    }
  }

  lemma BelowHas(i: nat, paths: seq<seq<nat>>, path: seq<nat>)
    requires path != []
    ensures path in Below(i, paths) <==> path[0] == i && path[1..] in paths
  {
    if path[0] == i && path[1..] in paths {
      var k :| 0 <= k < |paths| && paths[k] == path[1..];
      assert Below(i, paths)[k] == path;
    }
    if path in Below(i, paths) {
      var k :| 0 <= k < |paths| && Below(i, paths)[k] == path;
      assert path[1..] == paths[k];
    }
  }

  lemma PathsByKid(e: ListExpr)
    ensures Kids(e) == [] ==> Paths(e) == [[]]
    ensures |Kids(e)| == 1 ==> Paths(e) == [[]] + Below(0, Paths(Kids(e)[0]))
    ensures |Kids(e)| == 2 ==> Paths(e) == [[]] + Below(0, Paths(Kids(e)[0])) + Below(1, Paths(Kids(e)[1]))
    ensures |Kids(e)| <= 2
  {
  }

  predicate Distinct(paths: seq<seq<nat>>) {
    forall i, j :: 0 <= i < j < |paths| ==> paths[i] != paths[j]
  }

  lemma BelowDistinct(i: nat, paths: seq<seq<nat>>)
    requires Distinct(paths)
    ensures Distinct(Below(i, paths)) && [] !in Below(i, paths)
  {
    var b := Below(i, paths);
    forall j, k | 0 <= j < k < |b| ensures b[j] != b[k] {
      assert b[j][1..] == paths[j] && b[k][1..] == paths[k];
    }
  }

  lemma {:induction false} PathsAreDistinct(e: ListExpr)
    ensures Distinct(Paths(e))
    decreases e
  {
    PathsByKid(e);
    if |Kids(e)| > 0 {
      PathsAreDistinct(Kids(e)[0]);
      BelowDistinct(0, Paths(Kids(e)[0]));
    }
    if |Kids(e)| == 2 {
      PathsAreDistinct(Kids(e)[1]);
      BelowDistinct(1, Paths(Kids(e)[1]));
      var a, b := Below(0, Paths(Kids(e)[0])), Below(1, Paths(Kids(e)[1]));
      forall j, k | 0 <= j < |a| && 0 <= k < |b| ensures a[j] != b[k] {
        assert a[j][0] == 0 && b[k][0] == 1;
      }
    }
  }

  // ----- putting and getting -----

  lemma {:induction false} PutGet(e: ListExpr, path: seq<nat>, sub: ListExpr)
    requires IsPath(e, path)
    ensures IsPath(Put(e, path, sub), path) && At(Put(e, path, sub), path) == sub
    decreases e
  {
    if path != [] {
      PutGet(Kids(e)[path[0]], path[1..], sub);
    }
  }

  lemma {:induction false} GetPut(e: ListExpr, path: seq<nat>)
    requires IsPath(e, path)
    ensures Put(e, path, At(e, path)) == e
    decreases e
  {
    if path != [] {
      GetPut(Kids(e)[path[0]], path[1..]);
    }
  }

  /** A graft leaves every subtree that neither holds it nor is held by it as it was. */
  lemma {:induction false} PutElsewhere(e: ListExpr, path: seq<nat>, sub: ListExpr, other: seq<nat>)
    requires IsPath(e, path) && IsPath(e, other)
    requires !(path <= other) && !(other <= path)
    ensures IsPath(Put(e, path, sub), other) && At(Put(e, path, sub), other) == At(e, other)
    decreases e
  {
    var r := Put(e, path, sub);
    if path[0] == other[0] {
      assert path == [path[0]] + path[1..] && other == [other[0]] + other[1..];
      PutElsewhere(Kids(e)[path[0]], path[1..], sub, other[1..]);
    }
    assert Kids(r)[other[0]]
        == if path[0] == other[0] then Put(Kids(e)[path[0]], path[1..], sub) else Kids(e)[other[0]];
  }

  // ----- what a graft keeps -----

  /** Well formed, but for the depth limit. */
  predicate Speakable(g: Limits, secondOrder: bool, e: ListExpr) {
    Writable(g, e) && Closed(e, TOP_SCOPE) && (secondOrder || NoOscillator(e))
  }

  lemma KidOf(g: Limits, secondOrder: bool, e: ListExpr, i: nat, d: nat)
    requires i < |Kids(e)|
    ensures Speakable(g, secondOrder, e) ==> Speakable(g, secondOrder, Kids(e)[i])
    ensures Fits(g, e, d) ==> Fits(g, Kids(e)[i], d + 1)
  {
    hide IntWritable, IntClosed, IntFits, IsName;
  }

  lemma ParentOf(g: Limits, secondOrder: bool, e: ListExpr, i: nat, kid: ListExpr, d: nat)
    requires i < |Kids(e)|
    ensures Speakable(g, secondOrder, e) && Speakable(g, secondOrder, kid) ==>
              Speakable(g, secondOrder, WithKid(e, i, kid))
    ensures Fits(g, e, d) && Fits(g, kid, d + 1) ==> Fits(g, WithKid(e, i, kid), d)
  {
    hide IntWritable, IntClosed, IntFits, IsName;
  }

  /** A subtree of a program within the depth limit is within the limit at its path's length: an
      integer subtree holds no lists, so that length is its list depth. And no list stands under a
      binder, so what it names is in scope at the top. */
  lemma {:induction false} SubtreeKeeps(g: Limits, secondOrder: bool, e: ListExpr, d: nat, path: seq<nat>)
    requires IsPath(e, path)
    ensures Speakable(g, secondOrder, e) ==> Speakable(g, secondOrder, At(e, path))
    ensures Fits(g, e, d) ==> Fits(g, At(e, path), d + |path|) && d + |path| <= g.maxDepth
    decreases e
  {
    hide Speakable, Fits, Kids;
    if path != [] {
      KidOf(g, secondOrder, e, path[0], d);
      SubtreeKeeps(g, secondOrder, Kids(e)[path[0]], d + 1, path[1..]);
    } else {
      FitsIsShallow(g, e, d);
    }
  }

  lemma FitsIsShallow(g: Limits, e: ListExpr, d: nat)
    ensures Fits(g, e, d) ==> d <= g.maxDepth
  {
  }

  lemma {:induction false} GraftKeeps(g: Limits, secondOrder: bool, e: ListExpr, d: nat, path: seq<nat>, sub: ListExpr)
    requires IsPath(e, path)
    ensures Speakable(g, secondOrder, e) && Speakable(g, secondOrder, sub) ==>
              Speakable(g, secondOrder, Put(e, path, sub))
    ensures Fits(g, e, d) && Fits(g, sub, d + |path|) ==> Fits(g, Put(e, path, sub), d)
    decreases e
  {
    hide Speakable, Fits, Kids, WithKid;
    if path != [] {
      var i := path[0];
      KidOf(g, secondOrder, e, i, d);
      GraftKeeps(g, secondOrder, Kids(e)[i], d + 1, path[1..], sub);
      ParentOf(g, secondOrder, e, i, Put(Kids(e)[i], path[1..], sub), d);
    }
  }

  // ----- renaming -----

  function Rename(e: IntExpr, from: string, to: string): IntExpr {
    match e
    case Lit(_) => e
    case Var(v) => if v == from then Var(to) else e
    case Add(l, r) => Add(Rename(l, from, to), Rename(r, from, to))
    case Sub(l, r) => Sub(Rename(l, from, to), Rename(r, from, to))
    case Mul(l, r) => Mul(Rename(l, from, to), Rename(r, from, to))
    case Mod(a, k) => Mod(Rename(a, from, to), k)
  }

  /** `freshen`: every bound variable with `tag` after its name. */
  function Freshen(e: ListExpr, tag: string): ListExpr {
    match e
    case Range(_) => e
    case Repeat(_, _) => e
    case Osc(_) => e
    case Map(xs, v, body) => Map(Freshen(xs, tag), v + tag, Rename(body, v, v + tag))
    case Scan(xs, init, a, x, body) =>
      Scan(Freshen(xs, tag), init, a + tag, x + tag, Rename(Rename(body, a, a + tag), x, x + tag))
    case Filter(xs, v, k, r) => Filter(Freshen(xs, tag), v + tag, k, r)
    case Reverse(xs) => Reverse(Freshen(xs, tag))
    case Sort(xs) => Sort(Freshen(xs, tag))
    case Take(xs, n) => Take(Freshen(xs, tag), n)
    case Concat(l, r) => Concat(Freshen(l, tag), Freshen(r, tag))
    case Copy(xs, n) => Copy(Freshen(xs, tag), n)
    case Cycle(v, elems, len) => Cycle(v + tag, elems, len)
    case Nest(v, n, k) => Nest(v + tag, n, k)
  }

  /** What a tag is: word characters, the last a digit. */
  predicate IsTag(tag: string) {
    |tag| > 0 && (forall i :: 0 <= i < |tag| ==> IsWord(tag[i])) && IsDigit(tag[|tag| - 1])
  }

  lemma TaggedName(v: string, tag: string)
    requires IsName(v) && IsTag(tag)
    ensures IsName(v + tag) && !IsOperator(v + tag)
  {
    var w := v + tag;
    assert w[|w| - 1] == tag[|tag| - 1];
    OperatorsEndInALetter(w);
  }

  lemma OperatorsEndInALetter(v: string)
    ensures IsOperator(v) ==> |v| > 0 && !IsDigit(v[|v| - 1])
  {
    assert "wrapping_add"[11] == 'd' && "wrapping_sub"[11] == 'b' && "wrapping_mul"[11] == 'l';
  }

  lemma {:induction false} RenameWritable(g: Limits, e: IntExpr, from: string, to: string)
    requires IsName(to) && !IsOperator(to)
    ensures IntWritable(g, e) ==> IntWritable(g, Rename(e, from, to))
  {
    hide IsName, IsOperator;
    match e
    case Lit(_) =>
    case Var(_) =>
    case Mod(a, _) => RenameWritable(g, a, from, to);
    case Add(l, r) =>
      RenameWritable(g, l, from, to);
      RenameWritable(g, r, from, to);
    case Sub(l, r) =>
      RenameWritable(g, l, from, to);
      RenameWritable(g, r, from, to);
    case Mul(l, r) =>
      RenameWritable(g, l, from, to);
      RenameWritable(g, r, from, to);
  }

  lemma {:induction false} RenameClosed(e: IntExpr, from: string, to: string, scope: seq<string>, scope': seq<string>)
    requires IntClosed(e, scope) && to in scope'
    requires forall v :: v in scope && v != from ==> v in scope'
    ensures IntClosed(Rename(e, from, to), scope')
  {
    match e
    case Lit(_) =>
    case Var(_) =>
    case Mod(a, _) => RenameClosed(a, from, to, scope, scope');
    case Add(l, r) =>
      RenameClosed(l, from, to, scope, scope');
      RenameClosed(r, from, to, scope, scope');
    case Sub(l, r) =>
      RenameClosed(l, from, to, scope, scope');
      RenameClosed(r, from, to, scope, scope');
    case Mul(l, r) =>
      RenameClosed(l, from, to, scope, scope');
      RenameClosed(r, from, to, scope, scope');
  }

  /** Freshening keeps a tree well formed. */
  lemma {:induction false} FreshenKeeps(g: Limits, secondOrder: bool, e: ListExpr, tag: string, d: nat)
    requires IsTag(tag)
    ensures Speakable(g, secondOrder, e) ==> Speakable(g, secondOrder, Freshen(e, tag))
    ensures Fits(g, e, d) ==> Fits(g, Freshen(e, tag), d)
  {
    FreshenWritable(g, e, tag, d);
    FreshenClosed(e, tag, TOP_SCOPE);
    FreshenNoOscillator(e, tag);
  }

  lemma {:induction false} FreshenNoOscillator(e: ListExpr, tag: string)
    ensures NoOscillator(Freshen(e, tag)) <==> NoOscillator(e)
    decreases e
  {
    forall i | 0 <= i < |Kids(e)| ensures NoOscillator(Freshen(Kids(e)[i], tag)) <==> NoOscillator(Kids(e)[i]) {
      FreshenNoOscillator(Kids(e)[i], tag);
    }
    if |Kids(e)| > 0 { assert Kids(e)[0] == Kids(e)[0]; }
    if |Kids(e)| > 1 { assert Kids(e)[1] == Kids(e)[1]; }
  }

  lemma {:induction false} FreshenClosed(e: ListExpr, tag: string, scope: seq<string>)
    ensures Closed(e, scope) ==> Closed(Freshen(e, tag), scope)
    decreases e
  {
    match e
    case Range(_) =>
    case Repeat(_, _) =>
    case Osc(_) =>
    case Cycle(_, _, _) =>
    case Nest(_, _, _) =>
    case Filter(xs, _, _, _) => FreshenClosed(xs, tag, scope);
    case Reverse(xs) => FreshenClosed(xs, tag, scope);
    case Sort(xs) => FreshenClosed(xs, tag, scope);
    case Take(xs, _) => FreshenClosed(xs, tag, scope);
    case Copy(xs, _) => FreshenClosed(xs, tag, scope);
    case Concat(l, r) =>
      FreshenClosed(l, tag, scope);
      FreshenClosed(r, tag, scope);
    case Map(xs, v, body) =>
      FreshenClosed(xs, tag, scope);
      if Closed(e, scope) {
        RenameClosed(body, v, v + tag, scope + [v], scope + [v + tag]);
      }
    case Scan(xs, init, a, x, body) =>
      FreshenClosed(xs, tag, scope);
      if Closed(e, scope) {
        var body' := Rename(body, a, a + tag);
        RenameClosed(body, a, a + tag, scope + [a, x], scope + [a + tag, x]);
        RenameClosed(body', x, x + tag, scope + [a + tag, x], scope + [a + tag, x + tag]);
      }
  }

  lemma {:induction false} FreshenWritable(g: Limits, e: ListExpr, tag: string, d: nat)
    requires IsTag(tag)
    ensures Writable(g, e) ==> Writable(g, Freshen(e, tag))
    ensures Fits(g, e, d) ==> Fits(g, Freshen(e, tag), d)
    decreases e
  {
    hide IsName, IsTag, IsOperator, IntWritable, IntFits;
    match e
    case Range(_) =>
    case Repeat(_, _) =>
    case Osc(_) =>
    case Cycle(v, _, _) => TaggedNames(v, tag);
    case Nest(v, _, _) => TaggedNames(v, tag);
    case Filter(xs, v, _, _) =>
      TaggedNames(v, tag);
      FreshenWritable(g, xs, tag, d + 1);
    case Reverse(xs) => FreshenWritable(g, xs, tag, d + 1);
    case Sort(xs) => FreshenWritable(g, xs, tag, d + 1);
    case Take(xs, _) => FreshenWritable(g, xs, tag, d + 1);
    case Copy(xs, _) => FreshenWritable(g, xs, tag, d + 1);
    case Concat(l, r) =>
      FreshenWritable(g, l, tag, d + 1);
      FreshenWritable(g, r, tag, d + 1);
    case Map(xs, v, body) =>
      FreshenWritable(g, xs, tag, d + 1);
      TaggedNames(v, tag);
      BodyRenamed(g, body, v, tag, d + 1);
    case Scan(xs, init, a, x, body) =>
      FreshenWritable(g, xs, tag, d + 1);
      TaggedNames(a, tag);
      TaggedNames(x, tag);
      BodyRenamed(g, body, a, tag, d + 1);
      BodyRenamed(g, Rename(body, a, a + tag), x, tag, d + 1);
  }

  lemma TaggedNames(v: string, tag: string)
    requires IsTag(tag)
    ensures IsName(v) ==> IsName(v + tag)
  {
    if IsName(v) {
      TaggedName(v, tag);
    }
  }

  lemma {:induction false} BodyRenamed(g: Limits, body: IntExpr, v: string, tag: string, d: nat)
    requires IsTag(tag)
    ensures IsName(v) && IntWritable(g, body) ==> IntWritable(g, Rename(body, v, v + tag))
    ensures IntFits(g, body, d) ==> IntFits(g, Rename(body, v, v + tag), d)
  {
    hide IntWritable, IsTag, IsName, IsOperator;
    if IsName(v) {
      TaggedName(v, tag);
      RenameWritable(g, body, v, v + tag);
    }
    RenameFits(g, body, v, v + tag, d);
  }

  lemma {:induction false} RenameFits(g: Limits, e: IntExpr, from: string, to: string, d: nat)
    ensures IntFits(g, Rename(e, from, to), d) <==> IntFits(g, e, d)
  {
    match e
    case Lit(_) =>
    case Var(_) =>
    case Mod(a, _) => RenameFits(g, a, from, to, d + 1);
    case Add(l, r) =>
      RenameFits(g, l, from, to, d + 1);
      RenameFits(g, r, from, to, d + 1);
    case Sub(l, r) =>
      RenameFits(g, l, from, to, d + 1);
      RenameFits(g, r, from, to, d + 1);
    case Mul(l, r) =>
      RenameFits(g, l, from, to, d + 1);
      RenameFits(g, r, from, to, d + 1);
  }
}
