/** The recursive-descent parser as a function of the text: what each procedure of the arena's
    parser reads from a text `s`, and what it leaves. `scope` holds the names in scope and
    `nest` how many levels have been entered. */
module Reading {
  import opened Wrappers
  import opened Text
  import opened Grammar
  import opened Printer

  const AN_INT := Expected("an integer expression")
  const AN_ELEMENT := Expected("a literal or a bound variable in a template")

  /** `enter`, then `int_expr`. */
  function Int(g: Limits, s: string, scope: seq<string>, nest: nat): (r: Result<(IntExpr, string), Refusal>)
    ensures r.Ok? ==> |r.value.1| < |s|
    decreases |s|, 1
  {
    if nest + 1 > g.maxNest then Err(NestedTooDeep) else IntBody(g, s, scope, nest + 1)
  }

  function Operate(name: string, l: IntExpr, r: IntExpr): IntExpr
    requires IsOperator(name)
  {
    if name == "wrapping_add" then Add(l, r) else if name == "wrapping_sub" then Sub(l, r) else Mul(l, r)
  }

  /** `int_expr`. */
  function IntBody(g: Limits, s: string, scope: seq<string>, nest: nat): (r: Result<(IntExpr, string), Refusal>)
    ensures r.Ok? ==> |r.value.1| < |s|
    decreases |s|, 0, 1
  {
    var t := Skip(s);
    if |t| == 0 then Err(AN_INT)
    else if IsDigit(t[0]) then
      var (n, s1) :- Number(s, g.literal);
      Ok((Lit(n), s1))
    else if t[0] == '(' then Modulo(g, s, scope, nest)
    else if StartsName(t[0]) then Named(g, s, scope, nest)
    else Err(AN_INT)
  }

  /** `(a % k)`. */
  function Modulo(g: Limits, s: string, scope: seq<string>, nest: nat): (r: Result<(IntExpr, string), Refusal>)
    ensures r.Ok? ==> |r.value.1| < |s|
    decreases |s|, 0, 0
  {
    var s1 :- Expect(s, "(");
    var (a, s2) :- Int(g, s1, scope, nest);
    var s3 :- Expect(s2, "%");
    var (k, s4) :- Number(s3, g.modulus);
    var s5 :- Expect(s4, ")");
    Ok((Mod(a, k), s5))
  }

  /** An operator's call, or a variable in scope. */
  function Named(g: Limits, s: string, scope: seq<string>, nest: nat): (r: Result<(IntExpr, string), Refusal>)
    ensures r.Ok? ==> |r.value.1| < |s|
    decreases |s|, 0, 0
  {
    var (name, s1) :- Ident(s);
    if IsOperator(name) then
      var s2 :- Expect(s1, "(");
      var (l, s3) :- Int(g, s2, scope, nest);
      var s4 :- Expect(s3, ",");
      var (r, s5) :- Int(g, s4, scope, nest);
      var s6 :- Expect(s5, ")");
      Ok((Operate(name, l, r), s6))
    else if name in scope then Ok((Var(name), s1))
    else Err(Unbound(name))
  }

  // ----- templates -----

  /** `template_elem`. */
  function TemplateElem(g: Limits, s: string, scope: seq<string>): (r: Result<(IntExpr, string), Refusal>)
    ensures r.Ok? ==> |r.value.1| < |s|
  {
    var t := Skip(s);
    if |t| == 0 then Err(AN_ELEMENT)
    else if IsDigit(t[0]) then
      var (n, s1) :- Number(s, g.literal);
      Ok((Lit(n), s1))
    else if StartsName(t[0]) then
      var (name, s1) :- Ident(s);
      if name in scope then Ok((Var(name), s1)) else Err(Unbound(name))
    else Err(AN_ELEMENT)
  }

  /** The elements of a template: one, then another after each comma. */
  function TemplateElems(g: Limits, s: string, scope: seq<string>): (r: Result<(seq<IntExpr>, string), Refusal>)
    ensures r.Ok? ==> |r.value.1| < |s| && |r.value.0| > 0
    decreases |s|
  {
    var (e, s1) :- TemplateElem(g, s, scope);
    match Eat(s1, ",")
    case None => Ok(([e], s1))
    case Some(s2) =>
      var (es, s3) :- TemplateElems(g, s2, scope);
      Ok(([e] + es, s3))
  }

  /** `template`: the rest of `range(len).map(|v| [e, ...][v % k])`, from its opening bracket. */
  function Template(g: Limits, xs: ListExpr, v: string, s: string, scope: seq<string>):
    (r: Result<(ListExpr, string), Refusal>)
    ensures r.Ok? ==> |r.value.1| < |s|
  {
    if !xs.Range? then Err(NotOverRange)
    else if !g.cycleLen.Has(xs.n) then Err(OutsideBounds(xs.n))
    else
      var s1 :- Expect(s, "[");
      var (elems, s2) :- TemplateElems(g, s1, scope);
      var s3 :- Expect(s2, "]");
      if !g.cycleElems.Has(|elems|) then Err(OutsideBounds(|elems|))
      else
        var s4 :- Expect(s3, "[");
        var (w, s5) :- Ident(s4);
        if w != v then Err(OtherVariable(w))
        else
          var s6 :- Expect(s5, "%");
          var (_, s7) :- Number(s6, Bound(|elems|, |elems|));
          var s8 :- Expect(s7, "]");
          var s9 :- Expect(s8, ")");
          Ok((Cycle(v, elems, xs.n), s9))
  }

  predicate NextIs(s: string, c: char) {
    var t := Skip(s);
    |t| > 0 && t[0] == c
  }

  /** After `.`: `map(|v|`. */
  function MapOpening(s: string): Option<string> {
    var s1 :- Eat(s, "map");
    var s2 :- Eat(s1, "(");
    var s3 :- Eat(s2, "|");
    match Ident(s3)
    case Err(_) => None
    case Ok((_, s4)) => Eat(s4, "|")
  }

  /** After `.`: `map(|v| [`. */
  predicate TemplateBegins(s: string) {
    MapOpening(s).Some? && NextIs(MapOpening(s).value, '[')
  }

  /** `template_follows`: the text after a range's length says `).map(|v| [`. */
  predicate TemplateFollows(s: string) {
    && Eat(s, ")").Some?
    && Eat(Eat(s, ")").value, ".").Some?
    && TemplateBegins(Eat(Eat(s, ")").value, ".").value)
  }

  // ----- methods -----

  function MapCall(g: Limits, xs: ListExpr, s: string, scope: seq<string>, nest: nat):
    (r: Result<(ListExpr, string), Refusal>)
    ensures r.Ok? ==> |r.value.1| < |s|
  {
    var s1 :- Expect(s, "(");
    var s2 :- Expect(s1, "|");
    var (v, s3) :- Ident(s2);
    var s4 :- Expect(s3, "|");
    if NextIs(s4, '[') then Template(g, xs, v, s4, scope)
    else
      var (body, s5) :- Int(g, s4, scope + [v], nest);
      var s6 :- Expect(s5, ")");
      Ok((Map(xs, v, body), s6))
  }

  function ScanCall(g: Limits, xs: ListExpr, s: string, scope: seq<string>, nest: nat):
    (r: Result<(ListExpr, string), Refusal>)
    ensures r.Ok? ==> |r.value.1| < |s|
  {
    var s1 :- Expect(s, "(");
    var (init, s2) :- Int(g, s1, scope, nest);
    var s3 :- Expect(s2, ",");
    ScanClosure(g, xs, init, s3, scope, nest)
  }

  function ScanClosure(g: Limits, xs: ListExpr, init: IntExpr, s: string, scope: seq<string>, nest: nat):
    (r: Result<(ListExpr, string), Refusal>)
    ensures r.Ok? ==> |r.value.1| < |s|
  {
    var s1 :- Expect(s, "|");
    var (a, s2) :- Ident(s1);
    var s3 :- Expect(s2, ",");
    var (x, s4) :- Ident(s3);
    var s5 :- Expect(s4, "|");
    var (body, s6) :- Int(g, s5, scope + [a, x], nest);
    var s7 :- Expect(s6, ")");
    Ok((Scan(xs, init, a, x, body), s7))
  }

  function FilterCall(g: Limits, xs: ListExpr, s: string): (r: Result<(ListExpr, string), Refusal>)
    ensures r.Ok? ==> |r.value.1| < |s|
  {
    var s1 :- Expect(s, "(");
    var s2 :- Expect(s1, "|");
    var (v, s3) :- Ident(s2);
    var s4 :- Expect(s3, "|");
    var (w, s5) :- Ident(s4);
    if w != v then Err(OtherVariable(w)) else FilterTest(g, xs, v, s5)
  }

  function FilterTest(g: Limits, xs: ListExpr, v: string, s: string): (r: Result<(ListExpr, string), Refusal>)
    ensures r.Ok? ==> |r.value.1| < |s|
  {
    var s1 :- Expect(s, "%");
    var (k, s2) :- Number(s1, g.filterMod);
    var s3 :- Expect(s2, "==");
    if k == 0 then Err(OutsideBounds(k)) // no limits allow it
    else FilterEnd(xs, v, k, s3)
  }

  function FilterEnd(xs: ListExpr, v: string, k: nat, s: string): (r: Result<(ListExpr, string), Refusal>)
    requires k > 0
    ensures r.Ok? ==> |r.value.1| < |s|
  {
    var (r, s1) :- Number(s, Bound(0, k - 1));
    var s2 :- Expect(s1, ")");
    Ok((Filter(xs, v, k, r), s2))
  }

  function TakeCall(g: Limits, xs: ListExpr, s: string): (r: Result<(ListExpr, string), Refusal>)
    ensures r.Ok? ==> |r.value.1| < |s|
  {
    var s1 :- Expect(s, "(");
    var (n, s2) :- Number(s1, g.take);
    var s3 :- Expect(s2, ")");
    Ok((Take(xs, n), s3))
  }

  function BareCall(e: ListExpr, s: string): (r: Result<(ListExpr, string), Refusal>)
    ensures r.Ok? ==> |r.value.1| < |s|
  {
    var s1 :- Expect(s, "(");
    var s2 :- Expect(s1, ")");
    Ok((e, s2))
  }

  /** `method`: one call on `xs`, after its dot. */
  function Method(g: Limits, xs: ListExpr, s: string, scope: seq<string>, nest: nat):
    (r: Result<(ListExpr, string), Refusal>)
    ensures r.Ok? ==> |r.value.1| < |s|
  {
    var (name, t) :- Ident(s);
    if name == "reverse" then BareCall(Reverse(xs), t)
    else if name == "sort" then BareCall(Sort(xs), t)
    else if name == "take" then TakeCall(g, xs, t)
    else if name == "filter" then FilterCall(g, xs, t)
    else if name == "scan" then ScanCall(g, xs, t, scope, nest)
    else if name == "map" then MapCall(g, xs, t, scope, nest)
    else Err(Unknown(name))
  }

  /** The method calls on `e`, left to right, after `calls` of them. */
  function Calls(g: Limits, e: ListExpr, s: string, scope: seq<string>, nest: nat, calls: nat):
    (r: Result<(ListExpr, string), Refusal>)
    ensures r.Ok? ==> |r.value.1| <= |s|
    decreases |s|
  {
    match Eat(s, ".")
    case None => Ok((e, s))
    case Some(t) =>
      if calls + 1 > g.maxNest then Err(TooManyCalls)
      else
        var (e1, s1) :- Method(g, e, t, scope, nest);
        Calls(g, e1, s1, scope, nest, calls + 1)
  }

  // ----- oscillators -----

  /** `oscillator_opening`: the length named between the parentheses of `range`, and the text from the
      first of the seeds on. */
  function OscOpening(s: string): (r: Option<(nat, string)>)
    ensures r.Some? ==> |r.value.1| <= |s|
  {
    var s1 :- Eat(s, "range");
    var s2 :- Eat(s1, "(");
    var t := Skip(s2);
    var n := DigitRun(t);
    if !Canonical(t[..n]) || Value(t[..n]) > U64_MAX then None
    else
      var s3 :- OscTail(t[n..]);
      Some((Value(t[..n]), s3))
  }

  /** After the length: `).scan((` and then a literal and a comma, which are left to be read. */
  function OscTail(s: string): (r: Option<string>)
    ensures r.Some? ==> |r.value| <= |s|
  {
    var s1 :- Eat(s, ")");
    var s2 :- Eat(s1, ".");
    var s3 :- Eat(s2, "scan");
    var s4 :- Eat(s3, "(");
    var s5 :- Eat(s4, "(");
    var t := Skip(s5);
    var d := DigitRun(t);
    if d == 0 || !NextIs(t[d..], ',') then None else Some(t)
  }

  /** Fixed text: each piece's token in turn. */
  function ExpectPieces(s: string, pieces: seq<string>): (r: Result<string, Refusal>)
    ensures r.Ok? ==> |r.value| <= |s|
  {
    ExpectAll(s, Bares(pieces))
  }

  /** `oscillator_body`: the rest of an oscillator, whose every token is fixed. */
  function OscBody(g: Limits, m: nat, s: string): (r: Result<(Oscillator, string), Refusal>)
    ensures r.Ok? ==> |r.value.1| < |s|
  {
    if !g.range.Has(m) then Err(OutsideBounds(m))
    else
      var (x1, s1) :- Number(s, g.literal);
      var s2 :- Expect(s1, ",");
      var (x0, s3) :- Number(s2, g.literal);
      var s4 :- ExpectPieces(s3, OSC_SEED);
      OscStep(g, m, x1, x0, s4)
  }

  function OscStep(g: Limits, m: nat, x1: nat, x0: nat, s: string): (r: Result<(Oscillator, string), Refusal>)
    ensures r.Ok? ==> |r.value.1| < |s|
  {
    var (a, s1) :- Number(s, g.literal);
    var s2 :- ExpectPieces(s1, OSC_A);
    var (b, s3) :- Number(s2, g.literal);
    var s4 :- ExpectPieces(s3, OSC_B);
    var (k, s5) :- Number(s4, g.oscShift);
    var s6 :- ExpectPieces(s5, OSC_K);
    if a > Pow2(k + 1) || b >= Pow2(k) then Err(BadCoefficient)
    else Ok((Oscillator(m + 1, x1, x0, a, b, k), s6))
  }

  /** `oscillator`: nothing is consumed unless the opening is there; then the text is committed. */
  function Oscillation(g: Limits, secondOrder: bool, s: string): (r: Result<Option<(Oscillator, string)>, Refusal>)
    ensures r.Ok? && r.value.Some? ==> |r.value.value.1| < |s|
  {
    match OscOpening(s)
    case None => Ok(None)
    case Some((m, t)) =>
      if !secondOrder then Err(SecondOrderOff)
      else
        var (o, t1) :- OscBody(g, m, t);
        Ok(Some((o, t1)))
  }

  // ----- lists -----

  /** A range's length. One past `range` is let through only when `cycle_len` allows it and a
      template follows. */
  function RangeLength(g: Limits, s: string): (r: Result<(nat, string), Refusal>)
    ensures r.Ok? ==> |r.value.1| < |s|
  {
    match Number(s, g.range)
    case Ok(p) => Ok(p)
    case Err(refused) =>
      match Number(s, g.cycleLen)
      case Ok((n, t)) => if TemplateFollows(t) then Ok((n, t)) else Err(refused)
      case Err(_) => Err(refused)
  }

  function RangeCall(g: Limits, s: string): (r: Result<(ListExpr, string), Refusal>)
    ensures r.Ok? ==> |r.value.1| < |s|
  {
    var s1 :- Expect(s, "(");
    var (n, s2) :- RangeLength(g, s1);
    var s3 :- Expect(s2, ")");
    Ok((Range(n), s3))
  }

  /** The rest of `flatten(range(n).map(|v| range(v % k + 1)))`, after its first `range`. */
  function NestCall(g: Limits, s: string): (r: Result<(ListExpr, string), Refusal>)
    ensures r.Ok? ==> |r.value.1| < |s|
  {
    var s1 :- Expect(s, "(");
    var (n, s2) :- Number(s1, g.nestCount);
    var s3 :- Expect(s2, ")");
    var s4 :- Expect(s3, ".");
    var s5 :- Expect(s4, "map");
    var s6 :- Expect(s5, "(");
    var s7 :- Expect(s6, "|");
    var (v, s8) :- Ident(s7);
    var s9 :- Expect(s8, "|");
    NestClosure(g, n, v, s9)
  }

  function NestClosure(g: Limits, n: nat, v: string, s: string): (r: Result<(ListExpr, string), Refusal>)
    ensures r.Ok? ==> |r.value.1| < |s|
  {
    var s1 :- Expect(s, "range");
    var s2 :- Expect(s1, "(");
    var (w, s3) :- Ident(s2);
    if w != v then Err(OtherVariable(w))
    else
      var s4 :- Expect(s3, "%");
      var (k, s5) :- Number(s4, g.nestMod);
      var s6 :- Expect(s5, "+");
      var s7 :- Expect(s6, "1");
      var s8 :- Expect(s7, ")");
      var s9 :- Expect(s8, ")");
      var s10 :- Expect(s9, ")");
      Ok((Nest(v, n, k), s10))
  }

  /** `flatten`: nested counting, concatenation or copying. */
  function Flatten(g: Limits, secondOrder: bool, s: string, scope: seq<string>, nest: nat):
    (r: Result<(ListExpr, string), Refusal>)
    ensures r.Ok? ==> |r.value.1| < |s|
    decreases |s|, 0
  {
    var s1 :- Expect(s, "(");
    match Eat(s1, "range")
    case Some(s2) => NestCall(g, s2)
    case None =>
      var s2 :- Expect(s1, "[");
      var (l, s3) :- List(g, secondOrder, s2, scope, nest);
      FlattenRest(g, secondOrder, l, s3, scope, nest)
  }

  /** After the first list: another to append to it, or how many copies of it. */
  function FlattenRest(g: Limits, secondOrder: bool, l: ListExpr, s: string, scope: seq<string>, nest: nat):
    (r: Result<(ListExpr, string), Refusal>)
    ensures r.Ok? ==> |r.value.1| < |s|
    decreases |s|, 0
  {
    match Eat(s, ",")
    case Some(s1) =>
      var (r, s2) :- List(g, secondOrder, s1, scope, nest);
      var s3 :- Expect(s2, "]");
      var s4 :- Expect(s3, ")");
      Ok((Concat(l, r), s4))
    case None =>
      var s1 :- Expect(s, ";");
      var (n, s2) :- Number(s1, g.copy);
      var s3 :- Expect(s2, "]");
      var s4 :- Expect(s3, ")");
      Ok((Copy(l, n), s4))
  }

  function RepeatRest(g: Limits, s: string, scope: seq<string>, nest: nat): (r: Result<(ListExpr, string), Refusal>)
    ensures r.Ok? ==> |r.value.1| < |s|
  {
    var (e, s1) :- Int(g, s, scope, nest);
    var s2 :- Expect(s1, ";");
    var (n, s3) :- Number(s2, g.repeat);
    var s4 :- Expect(s3, "]");
    Ok((Repeat(e, n), s4))
  }

  /** `list_atom`. */
  function Atom(g: Limits, secondOrder: bool, s: string, scope: seq<string>, nest: nat):
    (r: Result<(ListExpr, string), Refusal>)
    ensures r.Ok? ==> |r.value.1| < |s|
    decreases |s|, 1
  {
    var o :- Oscillation(g, secondOrder, s);
    match o
    case Some((osc, t)) => Ok((Osc(osc), t))
    case None =>
      match Eat(s, "[")
      case Some(t) => RepeatRest(g, t, scope, nest)
      case None =>
        var (name, t) :- Ident(s);
        if name == "range" then RangeCall(g, t)
        else if name == "flatten" then Flatten(g, secondOrder, t, scope, nest)
        else Err(Unknown(name))
  }

  /** `list_chain`: the atom read first, under every call that follows it. */
  function Chain(g: Limits, secondOrder: bool, s: string, scope: seq<string>, nest: nat):
    (r: Result<(ListExpr, string), Refusal>)
    ensures r.Ok? ==> |r.value.1| < |s|
    decreases |s|, 2
  {
    var (e, t) :- Atom(g, secondOrder, s, scope, nest);
    Calls(g, e, t, scope, nest, 0)
  }

  /** `enter`, then `list_chain`. */
  function List(g: Limits, secondOrder: bool, s: string, scope: seq<string>, nest: nat):
    (r: Result<(ListExpr, string), Refusal>)
    ensures r.Ok? ==> |r.value.1| < |s|
    decreases |s|, 3
  {
    if nest + 1 > g.maxNest then Err(NestedTooDeep) else Chain(g, secondOrder, s, scope, nest + 1)
  }

  // ----- programs -----

  /** The body, wrapped in the whole source text or bare. */
  function Body(g: Limits, secondOrder: bool, s: string): (r: Result<(ListExpr, string), Refusal>) {
    if NextIs(s, '@') then
      var s1 :- ExpectPieces(s, HEADER);
      var (e, s2) :- List(g, secondOrder, s1, TOP_SCOPE, 0);
      var s3 :- Expect(s2, "}");
      Ok((e, s3))
    else List(g, secondOrder, s, TOP_SCOPE, 0)
  }

  /** `parse_with`: the program a text denotes under a policy. */
  function Parse(g: Limits, secondOrder: bool, s: string): Result<ListExpr, Refusal> {
    var (e, t) :- Body(g, secondOrder, s);
    if Skip(t) != "" then Err(TrailingText)
    else if !Fits(g, e, 0) then Err(PastMaxDepth)
    else Ok(e)
  }
}
