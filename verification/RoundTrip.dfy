/** Reading back what was printed: the parser inverts the printer on every well-formed tree. */
module RoundTrip {
  import opened Wrappers
  import opened Text
  import opened Grammar
  import opened Printer
  import opened Reading

  // ----- tokens -----

  /** A one-character token that is no part of a word. */
  predicate IsSymbol(tok: string) {
    |tok| == 1 && !IsWord(tok[0]) && !IsSpace(tok[0]) && !StartsName(tok[0]) && !IsDigit(tok[0])
  }

  lemma Symbols()
    ensures IsSymbol("(") && IsSymbol(")") && IsSymbol("[") && IsSymbol("]") && IsSymbol("{") && IsSymbol("}")
    ensures IsSymbol(",") && IsSymbol(";") && IsSymbol(".") && IsSymbol("|") && IsSymbol("%") && IsSymbol("+")
  {
  }

  lemma SymbolFront(tok: string, k: string)
    requires IsSymbol(tok)
    ensures Skip(Then(tok, k)) == Then(tok, k) && Skip(Then(" ", Then(tok, k))) == Then(tok, k)
    ensures (Then(tok, k))[0] == tok[0] && !IsDigit(tok[0]) && Breaks(Then(tok, k)) && Breaks(Then(" ", Then(tok, k)))
  {
    hide Skip;
    SkipNothing(Then(tok, k));
    SkipBlank(Then(tok, k));
  }

  lemma SymbolReads(tok: string, k: string)
    requires IsSymbol(tok)
    ensures Eat(Then(tok, k), tok) == Some(k) && Eat(Then(" ", Then(tok, k)), tok) == Some(k)
    ensures Expect(Then(tok, k), tok) == Ok(k) && Expect(Then(" ", Then(tok, k)), tok) == Ok(k)
    ensures Breaks(Then(tok, k)) && Breaks(Then(" ", Then(tok, k)))
  {
    SymbolFront(tok, k);
    hide IsSpace, IsWord, Skip;
    EatToken(tok, k);
  }

  /** Another token is not read where a symbol stands. */
  lemma OtherToken(tok: string, k: string, other: string)
    requires IsSymbol(tok) && |other| > 0 && other[0] != tok[0]
    ensures Eat(Then(tok, k), other) == None && Eat(Then(" ", Then(tok, k)), other) == None
  {
    SymbolFront(tok, k);
    hide IsSpace, IsWord, Skip, IsSymbol;
  }

  lemma NameFront(v: string, k: string)
    requires IsName(v)
    ensures Skip(Then(v, k)) == Then(v, k) && Skip(Then(" ", Then(v, k))) == Then(v, k)
    ensures |Then(v, k)| > 0 && !IsDigit((Then(v, k))[0]) && StartsName((Then(v, k))[0])
    ensures (Then(v, k))[0] != '(' && (Then(v, k))[0] != '['
  {
    WordsAreSolid(v);
    hide IsSpace, Skip;
    var s := Then(v, k);
    assert s[0] == v[0] && StartsName(v[0]);
    SkipNothing(s);
    SkipBlank(s);
  }

  lemma WordReads(v: string, k: string)
    requires IsName(v) && Breaks(k)
    ensures Eat(Then(v, k), v) == Some(k) && Eat(Then(" ", Then(v, k)), v) == Some(k)
    ensures Expect(Then(v, k), v) == Ok(k) && Expect(Then(" ", Then(v, k)), v) == Ok(k)
    ensures Ident(Then(v, k)) == Ok((v, k)) && Ident(Then(" ", Then(v, k))) == Ok((v, k))
  {
    WordsAreSolid(v);
    hide IsSpace, IsWord, Skip, Eat, Ident;
    EatToken(v, k);
    IdentReads(v, k);
  }

  lemma Names()
    ensures IsName("wrapping_add") && IsName("wrapping_sub") && IsName("wrapping_mul")
    ensures IsName("range") && IsName("flatten") && IsName("map") && IsName("scan")
    ensures IsName("filter") && IsName("reverse") && IsName("sort") && IsName("take")
  {
  }

  lemma DigitsFront(n: nat, k: string)
    ensures Skip(Then(Digits(n), k)) == Then(Digits(n), k) && Skip(Then(" ", Then(Digits(n), k))) == Then(Digits(n), k)
    ensures |Then(Digits(n), k)| > 0 && IsDigit((Then(Digits(n), k))[0])
  {
    hide Digits, Skip;
    var s := Then(Digits(n), k);
    assert s[0] == Digits(n)[0];
    DigitIsSolid(s[0]);
    SkipNothing(s);
    SkipBlank(s);
  }

  lemma MapIsName()
    ensures IsName("map")
  {
  }

  lemma NoDigitBreaks(k: string)
    requires Breaks(k)
    ensures |k| > 0 ==> !IsDigit(k[0])
  {
  }

  // ----- integer expressions -----

  /** `Int` reads `e` from `s`, leaving `k`, and does so after a blank too. */
  predicate ReadsInt(g: Limits, s: string, scope: seq<string>, nest: nat, e: IntExpr, k: string) {
    Int(g, s, scope, nest) == Ok((e, k)) && Int(g, Then(" ", s), scope, nest) == Ok((e, k))
  }

  lemma LitReads(g: Limits, n: nat, k: string, scope: seq<string>, nest: nat)
    requires nest < g.maxNest && g.literal.Has(n) && n <= U64_MAX && Breaks(k)
    ensures ReadsInt(g, Then(Digits(n), k), scope, nest, Lit(n), k)
  {
    hide IsSpace, IsDigit, IsWord, Skip, Number, Digits, Then;
    var s := Then(Digits(n), k);
    DigitsFront(n, k);
    NoDigitBreaks(k);
    NumberReads(n, k, g.literal);
    assert IntBody(g, s, scope, nest + 1) == Ok((Lit(n), k));
    assert IntBody(g, Then(" ", s), scope, nest + 1) == Ok((Lit(n), k));
  }

  lemma VarReads(g: Limits, v: string, k: string, scope: seq<string>, nest: nat)
    requires nest < g.maxNest && IsName(v) && !IsOperator(v) && v in scope && Breaks(k)
    ensures ReadsInt(g, Then(v, k), scope, nest, Var(v), k)
  {
    hide IsSpace, IsDigit, IsWord, Skip, Ident, IsName, StartsName, Then;
    var s := Then(v, k);
    NameFront(v, k);
    WordReads(v, k);
    assert IntBody(g, s, scope, nest + 1) == Ok((Var(v), k));
    assert IntBody(g, Then(" ", s), scope, nest + 1) == Ok((Var(v), k));
  }

  lemma CallReads(g: Limits, f: string, l: IntExpr, r: IntExpr, k: string, scope: seq<string>, nest: nat)
    requires nest < g.maxNest && IsOperator(f)
    requires var k1 := Then(",", Then(" ", ShowInt(r, Then(")", k))));
             ReadsInt(g, ShowInt(l, k1), scope, nest + 1, l, k1)
    requires ReadsInt(g, ShowInt(r, Then(")", k)), scope, nest + 1, r, Then(")", k))
    ensures ReadsInt(g, Then(f, Then("(", ShowInt(l, Then(",", Then(" ", ShowInt(r, Then(")", k))))))), scope, nest,
                     Operate(f, l, r), k)
  {
    hide IsSpace, IsDigit, IsWord, Skip, Expect, Ident, ShowInt, IsName, IsSymbol, StartsName, Then;
    Names();
    Symbols();
    var k2 := Then(")", k);
    var k1 := Then(",", Then(" ", ShowInt(r, k2)));
    var k0 := Then("(", ShowInt(l, k1));
    var s := Then(f, k0);
    SymbolReads(")", k);
    SymbolReads(",", Then(" ", ShowInt(r, k2)));
    SymbolReads("(", ShowInt(l, k1));
    WordReads(f, k0);
    NameFront(f, k0);
    assert Ident(s) == Ok((f, k0));
    assert Int(g, ShowInt(l, k1), scope, nest + 1) == Ok((l, k1));
    assert Int(g, Then(" ", ShowInt(r, k2)), scope, nest + 1) == Ok((r, k2));
    assert IntBody(g, s, scope, nest + 1) == Ok((Operate(f, l, r), k));
    assert IntBody(g, Then(" ", s), scope, nest + 1) == Ok((Operate(f, l, r), k));
  }

  /** ` % m` is read as a percent sign and a number. */
  lemma ModTail(m: nat, k: string, b: Bound)
    requires b.Has(m) && m <= U64_MAX && Breaks(k)
    ensures Breaks(ShowMod(m, k))
    ensures Expect(ShowMod(m, k), "%") == Ok(Then(" ", Then(Digits(m), k)))
    ensures Number(Then(" ", Then(Digits(m), k)), b) == Ok((m, k))
  {
    hide IsSpace, IsDigit, IsWord, Skip, Expect, Number, Digits, IsSymbol, Then;
    Symbols();
    SymbolReads("%", Then(" ", Then(Digits(m), k)));
    NoDigitBreaks(k);
    NumberReads(m, k, b);
  }

  lemma ModReads(g: Limits, a: IntExpr, m: nat, k: string, scope: seq<string>, nest: nat)
    requires nest < g.maxNest && g.modulus.Has(m) && m <= U64_MAX
    requires var k1 := ShowMod(m, Then(")", k)); ReadsInt(g, ShowInt(a, k1), scope, nest + 1, a, k1)
    ensures ReadsInt(g, Then("(", ShowInt(a, ShowMod(m, Then(")", k)))), scope, nest, Mod(a, m), k)
  {
    hide IsSpace, IsDigit, IsWord, Skip, Expect, Number, Digits, ShowInt, IsSymbol, Then;
    Symbols();
    var k1 := ShowMod(m, Then(")", k));
    var s := Then("(", ShowInt(a, k1));
    SymbolFront("(", ShowInt(a, k1));
    SymbolReads("(", ShowInt(a, k1));
    SymbolReads(")", k);
    ModTail(m, Then(")", k), g.modulus);
    assert Int(g, ShowInt(a, k1), scope, nest + 1) == Ok((a, k1));
    assert IntBody(g, s, scope, nest + 1) == Ok((Mod(a, m), k));
    assert IntBody(g, Then(" ", s), scope, nest + 1) == Ok((Mod(a, m), k));
  }

  lemma {:induction false} IntReads(g: Limits, e: IntExpr, k: string, scope: seq<string>, nest: nat, d: nat)
    requires g.Readable() && Breaks(k)
    requires IntWritable(g, e) && IntClosed(e, scope) && IntFits(g, e, d) && nest <= d
    ensures ReadsInt(g, ShowInt(e, k), scope, nest, e, k)
    decreases e, 1
  {
    hide ReadsInt, Digits, IsName, Then, IsSymbol, Expect, Number, Eat, Breaks, ShowMod;
    Symbols();
    match e
    case Lit(n) => LitReads(g, n, k, scope, nest);
    case Var(v) => VarReads(g, v, k, scope, nest);
    case Add(l, r) => CallIntReads(g, "wrapping_add", l, r, k, scope, nest, d);
    case Sub(l, r) => CallIntReads(g, "wrapping_sub", l, r, k, scope, nest, d);
    case Mul(l, r) => CallIntReads(g, "wrapping_mul", l, r, k, scope, nest, d);
    case Mod(a, m) =>
      var k1 := ShowMod(m, Then(")", k));
      SymbolReads(")", k);
      ModTail(m, Then(")", k), g.modulus);
      IntReads(g, a, k1, scope, nest + 1, d + 1);
      ModReads(g, a, m, k, scope, nest);
  }

  lemma {:induction false} CallIntReads(g: Limits, f: string, l: IntExpr, r: IntExpr, k: string, scope: seq<string>,
                                        nest: nat, d: nat)
    requires g.Readable() && Breaks(k) && IsOperator(f) && nest <= d < g.MaxIntDepth()
    requires IntWritable(g, l) && IntClosed(l, scope) && IntFits(g, l, d + 1)
    requires IntWritable(g, r) && IntClosed(r, scope) && IntFits(g, r, d + 1)
    ensures ReadsInt(g, Then(f, Then("(", ShowInt(l, Then(",", Then(" ", ShowInt(r, Then(")", k))))))), scope, nest,
                     Operate(f, l, r), k)
    decreases Operate(f, l, r), 0
  {
    var k1 := Then(",", Then(" ", ShowInt(r, Then(")", k))));
    assert Breaks(Then(")", k)) && Breaks(k1);
    hide ReadsInt, IsOperator, ShowInt, Breaks, Then;
    IntReads(g, l, k1, scope, nest + 1, d + 1);
    IntReads(g, r, Then(")", k), scope, nest + 1, d + 1);
    CallReads(g, f, l, r, k, scope, nest);
  }

  // ----- templates -----

  lemma ElemReads(g: Limits, e: IntExpr, k: string, scope: seq<string>)
    requires g.Readable() && Breaks(k) && ElemWritable(g, e) && IntClosed(e, scope)
    ensures TemplateElem(g, ShowInt(e, k), scope) == Ok((e, k))
    ensures TemplateElem(g, Then(" ", ShowInt(e, k)), scope) == Ok((e, k))
  {
    hide IsSpace, IsDigit, IsWord, Skip, Number, Ident, Digits, IsName, StartsName, Then;
    match e
    case Lit(n) =>
      DigitsFront(n, k);
      NoDigitBreaks(k);
      NumberReads(n, k, g.literal);
    case Var(v) =>
      NameFront(v, k);
      WordReads(v, k);
  }

  /** `TemplateElems` reads `es` from `s`, leaving `k`, and does so after a blank too. */
  predicate ReadsElems(g: Limits, s: string, scope: seq<string>, es: seq<IntExpr>, k: string) {
    TemplateElems(g, s, scope) == Ok((es, k)) && TemplateElems(g, Then(" ", s), scope) == Ok((es, k))
  }

  lemma {:induction false} ElemsRead(g: Limits, es: seq<IntExpr>, k: string, scope: seq<string>)
    requires g.Readable() && Breaks(k) && Eat(k, ",") == None && es != []
    requires forall i :: 0 <= i < |es| ==> ElemWritable(g, es[i]) && IntClosed(es[i], scope)
    ensures ReadsElems(g, ShowElems(es, k), scope, es, k)
  {
    hide IsSpace, IsDigit, IsWord, TemplateElem, Eat, ShowInt, ElemWritable, IntClosed, IsSymbol, Then;
    Symbols();
    if |es| == 1 {
      ElemReads(g, es[0], k, scope);
      assert [es[0]] == es;
    } else {
      var rest := ShowElems(es[1..], k);
      var k1 := Then(",", Then(" ", rest));
      SymbolReads(",", Then(" ", rest));
      ElemReads(g, es[0], k1, scope);
      ElemsRead(g, es[1..], k, scope);
      assert [es[0]] + es[1..] == es;
    }
  }

  // ----- method calls -----

  lemma MethodNames()
    ensures "take" != "sort" && "scan" != "sort" && "scan" != "take"
    ensures "filter" != "reverse" && "flatten" != "range" && "map" != "take"
  {
    assert "take"[0] == 't' && "sort"[1] == 'o' && "scan"[1] == 'c' && "sort"[0] == 's' && "scan"[0] == 's';
  }

  lemma OpenFront(k: string)
    ensures var s := Then("(", k); |s| > 0 && s[0] == '(' && Skip(s) == s && Skip(Then(" ", s)) == s
  {
    Symbols();
    SymbolFront("(", k);
  }

  lemma IntFront(g: Limits, e: IntExpr, k: string)
    requires IntWritable(g, e)
    ensures var s := ShowInt(e, k); |s| > 0 && s[0] != '[' && Skip(s) == s && Skip(Then(" ", s)) == s
  {
    hide IsSpace, IsWord, Skip, IsName, Digits, ShowInt, Then;
    match e
    case Lit(n) =>
      DigitsFront(n, k);
      assert ShowInt(e, k) == Then(Digits(n), k) by { IntText(e, k); }
    case Var(v) =>
      NameFront(v, k);
      assert ShowInt(e, k) == Then(v, k) by { IntText(e, k); }
    case Add(l, r) => CallFront("wrapping_add", e, l, r, k);
    case Sub(l, r) => CallFront("wrapping_sub", e, l, r, k);
    case Mul(l, r) => CallFront("wrapping_mul", e, l, r, k);
    case Mod(a, m) =>
      assert ShowInt(e, k) == Then("(", ShowInt(a, ShowMod(m, Then(")", k)))) by { IntText(e, k); }
      OpenFront(ShowInt(a, ShowMod(m, Then(")", k))));
  }

  lemma CallText(f: string, l: IntExpr, r: IntExpr, k: string)
    requires IsOperator(f)
    ensures ShowInt(Operate(f, l, r), k)
         == Then(f, Then("(", ShowInt(l, Then(",", Then(" ", ShowInt(r, Then(")", k)))))))
  {
  }

  lemma CallFront(f: string, e: IntExpr, l: IntExpr, r: IntExpr, k: string)
    requires IsOperator(f) && e == Operate(f, l, r)
    ensures var s := ShowInt(e, k); |s| > 0 && s[0] != '[' && Skip(s) == s && Skip(Then(" ", s)) == s
  {
    CallText(f, l, r, k);
    hide IsSpace, IsWord, Skip, IsName, ShowInt, IsOperator, Operate, Then;
    Names();
    NameFront(f, Then("(", ShowInt(l, Then(",", Then(" ", ShowInt(r, Then(")", k)))))));
  }

  lemma IntText(e: IntExpr, k: string)
    ensures e.Lit? ==> ShowInt(e, k) == Then(Digits(e.n), k)
    ensures e.Var? ==> ShowInt(e, k) == Then(e.name, k)
    ensures e.Mod? ==> ShowInt(e, k) == Then("(", ShowInt(e.e, ShowMod(e.k, Then(")", k))))
  {
  }

  /** Each method name leads to its own reader. */
  lemma Dispatch(g: Limits, xs: ListExpr, s: string, t: string, scope: seq<string>, nest: nat)
    ensures Ident(s) == Ok(("reverse", t)) ==> Method(g, xs, s, scope, nest) == BareCall(Reverse(xs), t)
    ensures Ident(s) == Ok(("sort", t)) ==> Method(g, xs, s, scope, nest) == BareCall(Sort(xs), t)
    ensures Ident(s) == Ok(("take", t)) ==> Method(g, xs, s, scope, nest) == TakeCall(g, xs, t)
    ensures Ident(s) == Ok(("filter", t)) ==> Method(g, xs, s, scope, nest) == FilterCall(g, xs, t)
    ensures Ident(s) == Ok(("scan", t)) ==> Method(g, xs, s, scope, nest) == ScanCall(g, xs, t, scope, nest)
    ensures Ident(s) == Ok(("map", t)) ==> Method(g, xs, s, scope, nest) == MapCall(g, xs, t, scope, nest)
  {
    MethodNames();
    hide Ident, BareCall, TakeCall, FilterCall, ScanCall, MapCall, Then;
  }

  lemma MapReads(g: Limits, xs: ListExpr, v: string, body: IntExpr, k: string, scope: seq<string>, nest: nat)
    requires IsName(v) && IntWritable(g, body)
    requires ReadsInt(g, ShowInt(body, Then(")", k)), scope + [v], nest, body, Then(")", k))
    ensures MapCall(g, xs, Then("(", Then("|", Then(v, Then("|", Then(" ", ShowInt(body, Then(")", k))))))), scope,
                    nest)
         == Ok((Map(xs, v, body), k))
  {
    IntFront(g, body, Then(")", k));
    hide IsSpace, IsWord, Breaks, Skip, Expect, Ident, ShowInt, IsName, IsSymbol, Int, MapCall, Then;
    Symbols();
    var t4 := Then(" ", ShowInt(body, Then(")", k)));
    var t3 := Then("|", t4);
    var t2 := Then(v, t3);
    var t1 := Then("|", t2);
    var t0 := Then("(", t1);
    SymbolReads("(", t1);
    SymbolReads("|", t2);
    SymbolReads("|", t4);
    WordReads(v, t3);
    SymbolReads(")", k);
    MapCallReads(g, xs, v, body, t0, t1, t2, t3, t4, Then(")", k), k, scope, nest);
  }

  lemma MapCallReads(g: Limits, xs: ListExpr, v: string, body: IntExpr, t0: string, t1: string, t2: string, t3: string,
                     t4: string, t5: string, k: string, scope: seq<string>, nest: nat)
    requires Expect(t0, "(") == Ok(t1) && Expect(t1, "|") == Ok(t2) && Ident(t2) == Ok((v, t3))
    requires Expect(t3, "|") == Ok(t4)
    requires !NextIs(t4, '[') && Int(g, t4, scope + [v], nest) == Ok((body, t5)) && Expect(t5, ")") == Ok(k)
    ensures MapCall(g, xs, t0, scope, nest) == Ok((Map(xs, v, body), k))
  {
    hide Expect, Ident, Int, NextIs, Then;
  }

  lemma ScanReads(g: Limits, xs: ListExpr, init: IntExpr, a: string, x: string, body: IntExpr, k: string,
                  scope: seq<string>, nest: nat)
    requires IsName(a) && IsName(x)
    requires ReadsInt(g, ShowInt(body, Then(")", k)), scope + [a, x], nest, body, Then(")", k))
    requires var k1 := ScanBinders(a, x, body, k); ReadsInt(g, ShowInt(init, k1), scope, nest, init, k1)
    ensures ScanCall(g, xs, Then("(", ShowInt(init, ScanBinders(a, x, body, k))), scope, nest)
         == Ok((Scan(xs, init, a, x, body), k))
  {
    hide IsSpace, IsWord, Breaks, Skip, Expect, Ident, ShowInt, IsName, IsSymbol, Int, ScanCall, Then;
    Symbols();
    var t8 := Then(" ", ShowInt(body, Then(")", k)));
    var t7 := Then("|", t8);
    var t6 := Then(x, t7);
    var t5 := Then(",", Then(" ", t6));
    var t4 := Then(a, t5);
    var t3 := Then("|", t4);
    var t2 := Then(",", Then(" ", t3));
    var t1 := ShowInt(init, t2);
    var t0 := Then("(", t1);
    assert t2 == ScanBinders(a, x, body, k);
    SymbolReads(")", k);
    SymbolReads("|", t8);
    WordReads(x, t7);
    SymbolReads(",", Then(" ", t6));
    WordReads(a, t5);
    SymbolReads("|", t4);
    SymbolReads(",", Then(" ", t3));
    SymbolReads("(", t1);
    ScanSteps(g, xs, init, a, x, body, t0, t1, t2, Then(" ", t3), t4, t5, Then(" ", t6), t7, t8, Then(")", k), k, scope,
              nest);
  }

  lemma ScanSteps(g: Limits, xs: ListExpr, init: IntExpr, a: string, x: string, body: IntExpr, t0: string, t1: string,
                  t2: string, t3: string, t4: string, t5: string, t6: string, t7: string, t8: string, t9: string,
                  k: string, scope: seq<string>, nest: nat)
    requires Expect(t0, "(") == Ok(t1) && Int(g, t1, scope, nest) == Ok((init, t2))
    requires Expect(t2, ",") == Ok(t3) && Expect(t3, "|") == Ok(t4) && Ident(t4) == Ok((a, t5))
    requires Expect(t5, ",") == Ok(t6) && Ident(t6) == Ok((x, t7)) && Expect(t7, "|") == Ok(t8)
    requires Int(g, t8, scope + [a, x], nest) == Ok((body, t9)) && Expect(t9, ")") == Ok(k)
    ensures ScanCall(g, xs, t0, scope, nest) == Ok((Scan(xs, init, a, x, body), k))
  {
    hide Expect, Ident, Int;
  }

  lemma EqualsReads(k: string)
    ensures Expect(Then(" ", Then("==", k)), "==") == Ok(k) && Breaks(Then(" ", Then("==", k)))
  {
    EatToken("==", k);
  }

  lemma FilterTestReads(g: Limits, xs: ListExpr, v: string, m: nat, r: nat, k: string)
    requires g.Readable() && g.filterMod.Has(m) && r < m
    ensures FilterTest(g, xs, v, ShowMod(m, ShowRemainder(r, k))) == Ok((Filter(xs, v, m, r), k))
    ensures Breaks(ShowMod(m, ShowRemainder(r, k)))
  {
    hide IsSpace, IsWord, Breaks, Skip, Expect, IsSymbol, Number, ShowMod, Digits, Then;
    Symbols();
    var t2 := Then(" ", Then(Digits(r), Then(")", k)));
    var t1 := Then(" ", Then("==", t2));
    SymbolReads(")", k);
    NoDigitBreaks(Then(")", k));
    NumberReads(r, Then(")", k), Bound(0, m - 1));
    EqualsReads(t2);
    ModTail(m, t1, g.filterMod);
  }

  lemma FilterReads(g: Limits, xs: ListExpr, v: string, m: nat, r: nat, k: string)
    requires g.Readable() && IsName(v) && g.filterMod.Has(m) && r < m
    ensures FilterCall(g, xs, Then("(", Then("|", Then(v, FilterTestText(v, m, r, k))))) == Ok((Filter(xs, v, m, r), k))
  {
    FilterTestReads(g, xs, v, m, r, k);
    hide IsSpace, IsWord, Breaks, Skip, Expect, Ident, IsName, IsSymbol, ShowMod, Digits, FilterTest, Then;
    Symbols();
    var t3 := ShowMod(m, ShowRemainder(r, k));
    var t2 := Then(" ", Then(v, t3));
    var t1 := Then("|", t2);
    assert t1 == FilterTestText(v, m, r, k);
    WordReads(v, t3);
    SymbolReads("|", t2);
    WordReads(v, t1);
    SymbolReads("|", Then(v, t1));
    SymbolReads("(", Then("|", Then(v, t1)));
  }

  lemma BareReads(e: ListExpr, k: string)
    ensures BareCall(e, Then("(", Then(")", k))) == Ok((e, k))
  {
    hide IsSpace, IsWord, Skip, Expect, IsSymbol, Then;
    Symbols();
    SymbolReads(")", k);
    SymbolReads("(", Then(")", k));
  }

  lemma TakeReads(g: Limits, xs: ListExpr, n: nat, k: string)
    requires g.Readable() && g.take.Has(n)
    ensures TakeCall(g, xs, Then("(", Then(Digits(n), Then(")", k)))) == Ok((Take(xs, n), k))
  {
    hide IsSpace, IsWord, Skip, Expect, IsSymbol, Number, Digits, Then;
    Symbols();
    SymbolReads(")", k);
    NoDigitBreaks(Then(")", k));
    NumberReads(n, Then(")", k), g.take);
    SymbolReads("(", Then(Digits(n), Then(")", k)));
  }

  lemma TemplateEndReads(v: string, n: nat, k: string)
    requires IsName(v) && n <= U64_MAX
    ensures var t := TemplateEnd(v, n, k); Breaks(t) && Eat(t, ",") == None
    ensures Expect(TemplateEnd(v, n, k), "]") == Ok(Then("[", Then(v, ShowMod(n, Then("]", Then(")", k))))))
    ensures Expect(Then("[", Then(v, ShowMod(n, Then("]", Then(")", k))))), "[")
         == Ok(Then(v, ShowMod(n, Then("]", Then(")", k)))))
    ensures Ident(Then(v, ShowMod(n, Then("]", Then(")", k))))) == Ok((v, ShowMod(n, Then("]", Then(")", k)))))
  {
    hide IsSpace, IsWord, Breaks, Skip, Expect, Ident, IsName, IsSymbol, Digits, Then;
    Symbols();
    var t2 := ShowMod(n, Then("]", Then(")", k)));
    var t1 := Then("[", Then(v, t2));
    SymbolReads("]", t1);
    OtherToken("]", t1, ",");
    SymbolReads("[", Then(v, t2));
    SymbolReads("]", Then(")", k));
    ModTail(n, Then("]", Then(")", k)), Bound(n, n));
    WordReads(v, t2);
  }

  lemma TemplateReads(g: Limits, v: string, elems: seq<IntExpr>, len: nat, k: string, scope: seq<string>)
    requires g.Readable() && IsName(v) && g.cycleElems.Has(|elems|) && g.cycleLen.Has(len)
    requires forall i :: 0 <= i < |elems| ==> ElemWritable(g, elems[i]) && IntClosed(elems[i], scope)
    ensures Template(g, Range(len), v, Then(" ", Then("[", ShowElems(elems, TemplateEnd(v, |elems|, k)))), scope)
         == Ok((Cycle(v, elems, len), k))
  {
    var n := |elems|;
    var t3 := TemplateEnd(v, n, k);
    TemplateEndReads(v, n, k);
    ElemsRead(g, elems, t3, scope);
    hide IsSpace, IsWord, Breaks, Skip, Expect, Ident, Number, IsName, IsSymbol, ShowMod, Digits, ShowElems,
         TemplateElems, ElemWritable, IntClosed, TemplateEnd, Then;
    Symbols();
    SymbolReads("[", ShowElems(elems, t3));
    SymbolReads("]", Then(")", k));
    ModTail(n, Then("]", Then(")", k)), Bound(n, n));
    NoDigitBreaks(Then("]", Then(")", k)));
    SymbolReads(")", k);
  }

  lemma CycleReads(g: Limits, v: string, elems: seq<IntExpr>, len: nat, k: string, scope: seq<string>, nest: nat)
    requires g.Readable() && IsName(v) && g.cycleElems.Has(|elems|) && g.cycleLen.Has(len)
    requires forall i :: 0 <= i < |elems| ==> ElemWritable(g, elems[i]) && IntClosed(elems[i], scope)
    ensures TemplateBegins(TemplateText(v, elems, k))
    ensures Method(g, Range(len), TemplateText(v, elems, k), scope, nest) == Ok((Cycle(v, elems, len), k))
  {
    TemplateReads(g, v, elems, len, k, scope);
    hide IsSpace, IsWord, Breaks, Skip, Expect, Eat, Ident, IsName, IsSymbol, ShowElems, ElemWritable, IntClosed,
         TemplateEnd, Method, MapCall, Template, TemplateBegins, Then;
    Symbols();
    var t5 := Then("[", ShowElems(elems, TemplateEnd(v, |elems|, k)));
    SymbolFront("[", ShowElems(elems, TemplateEnd(v, |elems|, k)));
    MapToTemplate(g, Range(len), v, Then(" ", t5), k, Cycle(v, elems, len), scope, nest);
    MapName(g, Range(len), Then("(", Then("|", Then(v, Then("|", Then(" ", t5))))), scope, nest);
  }

  lemma MapName(g: Limits, xs: ListExpr, t: string, scope: seq<string>, nest: nat)
    requires Breaks(t)
    ensures Method(g, xs, Then("map", t), scope, nest) == MapCall(g, xs, t, scope, nest)
  {
    hide IsName, Ident, Then, Method, MapCall, Eat, Expect;
    MapIsName();
    WordReads("map", t);
    Dispatch(g, xs, Then("map", t), t, scope, nest);
  }

  lemma MapToTemplate(g: Limits, xs: ListExpr, v: string, t: string, k: string, e: ListExpr, scope: seq<string>,
                      nest: nat)
    requires IsName(v) && NextIs(t, '[') && Template(g, xs, v, t, scope) == Ok((e, k))
    ensures var s := Then("(", Then("|", Then(v, Then("|", t))));
            && Breaks(s) && MapCall(g, xs, s, scope, nest) == Ok((e, k)) && TemplateBegins(Then("map", s))
  {
    hide IsSpace, IsWord, Breaks, Skip, Expect, Eat, Ident, IsName, IsSymbol, Template, Int, NextIs, MapOpening, Then;
    Symbols();
    var t2 := Then(v, Then("|", t));
    var t0 := Then("(", Then("|", t2));
    SymbolReads("|", t);
    WordReads(v, Then("|", t));
    SymbolReads("|", t2);
    SymbolReads("(", Then("|", t2));
    MapOpens(t0, Then("|", t2), t2, v, Then("|", t), t);
  }

  lemma MapOpens(t0: string, t1: string, t2: string, v: string, t3: string, t4: string)
    requires Breaks(t0) && Eat(t0, "(") == Some(t1) && Eat(t1, "|") == Some(t2) && Ident(t2) == Ok((v, t3))
    requires Eat(t3, "|") == Some(t4)
    ensures MapOpening(Then("map", t0)) == Some(t4)
  {
    hide Breaks, Eat, Ident, IsName, Then;
    MapIsName();
    WordReads("map", t0);
  }

  // ----- the oscillator's lookahead -----

  lemma OtherWord(w: string, t: string, other: string)
    requires IsName(w) && IsName(other) && w != other && Breaks(t)
    ensures Eat(Then(w, t), other) == None
  {
    hide IsSpace, Skip, StartsName;
    var s := Then(w, t);
    NameFront(w, t);
    if |other| < |w| {
      assert other <= s ==> s[|other|..][0] == w[|other|];
    } else {
      assert s[..|w|] == w;
      assert |other| > |w| && |s| > |w| ==> s[|w|] == t[0];
    }
  }

  lemma NotASymbol(w: string, t: string)
    requires IsName(w)
    ensures Eat(Then(w, t), "[") == None
  {
    hide IsSpace, Skip, IsName, StartsName, Then;
    NameFront(w, t);
  }

  /** Whether `k`, coming after a range, makes it the start of an oscillator. */
  predicate OscFollows(k: string) {
    OscTail(Then(")", k)).Some?
  }

  lemma NoDotNoOsc(k: string)
    requires Eat(k, ".") == None
    ensures !OscFollows(k)
  {
    hide Eat, Skip, IsSpace, Then, IsSymbol;
    Symbols();
    SymbolReads(")", k);
  }

  lemma OtherMethodNoOsc(w: string, t: string)
    requires IsName(w) && w != "scan" && Breaks(t)
    ensures !OscFollows(Then(".", Then(w, t)))
  {
    hide Eat, Skip, IsSpace, Then, IsSymbol, IsName, Breaks;
    Symbols();
    ScanIsName();
    SymbolReads(")", Then(".", Then(w, t)));
    SymbolReads(".", Then(w, t));
    OtherWord(w, t, "scan");
  }

  lemma ScanIsName()
    ensures IsName("scan")
  {
  }

  /** After `).scan(` an oscillator has a parenthesis, a literal and a comma. */
  lemma ScanTail(t: string)
    ensures OscTail(Then(")", Then(".", Then("scan", Then("(", t))))) ==
      match Eat(t, "(")
      case None => None
      case Some(u) =>
        if DigitRun(Skip(u)) == 0 || !NextIs(Skip(u)[DigitRun(Skip(u))..], ',') then None else Some(Skip(u))
  {
    hide Eat, Skip, IsSpace, Then, IsSymbol, IsName, Breaks, DigitRun, NextIs;
    Symbols();
    ScanIsName();
    SymbolReads(")", Then(".", Then("scan", Then("(", t))));
    SymbolReads(".", Then("scan", Then("(", t)));
    SymbolReads("(", t);
    WordReads("scan", Then("(", t));
  }

  /** A generic scan is not an oscillator: after a parenthesis its init goes on past a literal
      with a percent sign, not a comma. */
  lemma ScanNoOsc(g: Limits, init: IntExpr, k: string)
    requires IntWritable(g, init)
    ensures !OscFollows(Then(".", Then("scan", Then("(", ShowInt(init, k)))))
  {
    hide Eat, Skip, IsSpace, Then, IsSymbol, IsName, Breaks, DigitRun, NextIs, OscTail, Digits, IsDigit, StartsName;
    Symbols();
    ScanTail(ShowInt(init, k));
    match init
    case Lit(n) =>
      DigitsFront(n, k);
      NotOpen(ShowInt(init, k));
    case Var(v) =>
      NameFront(v, k);
      NotOpen(ShowInt(init, k));
    case Add(l, r) => CallNotOpen("wrapping_add", l, r, k);
    case Sub(l, r) => CallNotOpen("wrapping_sub", l, r, k);
    case Mul(l, r) => CallNotOpen("wrapping_mul", l, r, k);
    case Mod(a, m) =>
      SymbolReads("(", ShowInt(a, ShowMod(m, Then(")", k))));
      ModInitNoOsc(g, a, m, Then(")", k));
  }

  lemma NotOpen(s: string)
    requires Skip(s) == s && |s| > 0 && (IsDigit(s[0]) || StartsName(s[0]))
    ensures Eat(s, "(") == None
  {
    hide Skip, IsSpace;
  }

  lemma CallNotOpen(f: string, l: IntExpr, r: IntExpr, k: string)
    requires IsOperator(f)
    ensures Eat(ShowInt(Operate(f, l, r), k), "(") == None
  {
    CallText(f, l, r, k);
    hide Eat, Skip, IsSpace, Then, IsName, ShowInt, Operate, IsDigit, StartsName;
    Names();
    NameFront(f, Then("(", ShowInt(l, Then(",", Then(" ", ShowInt(r, Then(")", k)))))));
    NotOpen(ShowInt(Operate(f, l, r), k));
  }

  lemma ModInitNoOsc(g: Limits, a: IntExpr, m: nat, k: string)
    requires IntWritable(g, a)
    ensures var u := Skip(ShowInt(a, ShowMod(m, k)));
            DigitRun(u) == 0 || !NextIs(u[DigitRun(u)..], ',')
  {
    var k1 := ShowMod(m, k);
    var u := ShowInt(a, k1);
    assert Skip(u) == u && |u| > 0 by { IntFront(g, a, k1); }
    if a.Lit? {
      hide Skip, IsSpace, Digits, DigitRun;
      var ds := Digits(a.n);
      assert u == ds + k1 by { IntText(a, k1); }
      PercentFront(m, k);
      DigitRunOf(ds, k1);
      assert u[DigitRun(u)..] == k1;
    } else {
      NotLitFront(g, a, k1);
    }
  }

  lemma PercentFront(m: nat, k: string)
    ensures !NextIs(ShowMod(m, k), ',') && !IsDigit(ShowMod(m, k)[0])
  {
    hide IsSymbol, Skip;
    Symbols();
    SymbolFront("%", Then(" ", Then(Digits(m), k)));
  }

  lemma NotLitFront(g: Limits, a: IntExpr, k: string)
    requires IntWritable(g, a) && !a.Lit?
    ensures DigitRun(ShowInt(a, k)) == 0
  {
    hide IsSpace, Skip, IsName, StartsName, Digits, IsDigit;
    match a
    case Var(v) => NameFront(v, k);
    case Add(l, r) => CallNotDigit("wrapping_add", l, r, k);
    case Sub(l, r) => CallNotDigit("wrapping_sub", l, r, k);
    case Mul(l, r) => CallNotDigit("wrapping_mul", l, r, k);
    case Mod(b, m) =>
      Symbols();
      SymbolFront("(", ShowInt(b, ShowMod(m, Then(")", k))));
  }

  lemma CallNotDigit(f: string, l: IntExpr, r: IntExpr, k: string)
    requires IsOperator(f)
    ensures DigitRun(ShowInt(Operate(f, l, r), k)) == 0
  {
    CallText(f, l, r, k);
    hide Eat, Skip, IsSpace, Then, IsName, ShowInt, Operate, IsDigit, StartsName;
    Names();
    NameFront(f, Then("(", ShowInt(l, Then(",", Then(" ", ShowInt(r, Then(")", k)))))));
  }

  // ----- fixed stretches -----

  /** A token after at most one blank. */
  predicate IsPiece(p: string) {
    |p| > 0 && IsToken(Bare(p))
  }

  predicate EndsWord(p: string) {
    |p| > 0 && IsWord(p[|p| - 1])
  }

  predicate StartsApart(p: string) {
    |p| > 0 && !IsWord(p[0])
  }

  predicate IsSymbolPiece(p: string) {
    IsPiece(p) && !EndsWord(p) && StartsApart(p)
  }

  /** The piece is one, and if it ends in a word then the next one does not go on with it. */
  predicate PieceOk(pieces: seq<string>, i: nat)
    requires i < |pieces|
  {
    || IsSymbolPiece(pieces[i])
    || (IsPiece(pieces[i]) && i + 1 < |pieces| && (IsSymbolPiece(pieces[i + 1]) || StartsApart(pieces[i + 1])))
  }

  predicate PiecesOk(pieces: seq<string>) {
    forall i :: 0 <= i < |pieces| ==> PieceOk(pieces, i)
  }

  lemma EatSkips(s: string, s': string, tok: string)
    requires Skip(s) == Skip(s')
    ensures Eat(s, tok) == Eat(s', tok) && Expect(s, tok) == Expect(s', tok)
  {
    hide Skip, IsWord, Breaks;
  }

  lemma PieceReads(p: string, k: string)
    requires IsPiece(p) && (EndsWord(p) ==> Breaks(k))
    ensures Expect(Then(p, k), Bare(p)) == Ok(k)
  {
    hide Skip, IsSpace, IsWord, Eat, Breaks;
    var b := Bare(p);
    assert b[|b| - 1] == p[|p| - 1];
    EatToken(b, k);
    if b != p {
      SkipSpaces(p[..1], Then(b, k));
      assert Then(p, k) == p[..1] + Then(b, k);
      EatSkips(Then(p, k), Then(b, k), b);
    }
  }

  lemma {:induction false} PiecesRead(pieces: seq<string>, k: string)
    requires PiecesOk(pieces)
    ensures ExpectPieces(Spell(pieces, k), pieces) == Ok(k)
  {
    if pieces != [] {
      var rest := Spell(pieces[1..], k);
      PiecesApart(pieces, k);
      hide EndsWord, StartsApart, IsPiece, PiecesOk, Expect, Bare, Breaks, Then;
      PiecesTail(pieces);
      PieceReads(pieces[0], rest);
      PiecesRead(pieces[1..], k);
      assert Bares(pieces)[0] == Bare(pieces[0]) && Bares(pieces)[1..] == Bares(pieces[1..]);
    }
  }

  lemma PiecesTail(pieces: seq<string>)
    requires PiecesOk(pieces) && pieces != []
    ensures IsPiece(pieces[0]) && PiecesOk(pieces[1..])
  {
    assert PieceOk(pieces, 0);
    forall i | 0 <= i < |pieces[1..]|
      ensures PieceOk(pieces[1..], i)
    {
      assert PieceOk(pieces, i + 1);
    }
  }

  lemma PiecesApart(pieces: seq<string>, k: string)
    requires PiecesOk(pieces) && pieces != []
    ensures EndsWord(pieces[0]) ==> Breaks(Spell(pieces[1..], k))
  {
    if EndsWord(pieces[0]) {
      assert PieceOk(pieces, 0);
      assert |pieces| > 1 && StartsApart(pieces[1]);
      assert Spell(pieces[1..], k) == Then(pieces[1], Spell(pieces[1..][1..], k));
    }
  }

  lemma SymbolPieces()
    ensures IsSymbolPiece(")") && IsSymbolPiece(",") && IsSymbolPiece("|") && IsSymbolPiece(";") && IsSymbolPiece("(")
    ensures IsSymbolPiece(".") && IsSymbolPiece(":") && IsSymbolPiece("]")
  {
  }

  lemma BlankSymbolPieces()
    ensures IsSymbolPiece(" |") && IsSymbolPiece(" {")
    ensures IsSymbolPiece(" (") && IsSymbolPiece(" =") && IsSymbolPiece(" >>") && IsSymbolPiece(" }")
    ensures IsSymbolPiece(" ->") && IsSymbolPiece(" [")
  {
  }

  lemma WordPieces()
    ensures IsPiece("p") && IsPiece("c") && IsPiece("s") && IsPiece("map") && IsPiece("usize")
    ensures IsPiece("wrapping_sub") && IsPiece("wrapping_mul") && IsPiece("candidate") && IsPiece("@role")
  {
  }

  lemma BlankWordPieces()
    ensures IsPiece(" v") && IsPiece(" p") && IsPiece(" q") && IsPiece(" c") && IsPiece(" val") && IsPiece(" gen")
    ensures IsPiece("\nf") && IsPiece(" usize") && IsPiece(" wrapping_mul")
    ensures StartsApart(" v") && StartsApart(" p") && StartsApart(" q") && StartsApart(" c") && StartsApart(" val")
    ensures StartsApart(" gen") && StartsApart("\nf") && StartsApart(" usize") && StartsApart(" wrapping_mul")
  {
  }

  lemma HeaderOk()
    ensures PiecesOk(HEADER)
  {
    hide IsSymbolPiece, IsPiece, StartsApart;
    SymbolPieces();
    BlankSymbolPieces();
    WordPieces();
    BlankWordPieces();
  }

  lemma OscSeedOk()
    ensures PiecesOk(OSC_SEED)
  {
    hide IsSymbolPiece, IsPiece, StartsApart;
    SymbolPieces();
    BlankSymbolPieces();
    WordPieces();
    BlankWordPieces();
  }

  lemma OscCoefficientsOk()
    ensures PiecesOk(OSC_A) && PiecesOk(OSC_B)
  {
    hide IsSymbolPiece, IsPiece, StartsApart;
    SymbolPieces();
    BlankSymbolPieces();
    BlankWordPieces();
  }

  lemma OscEndOk()
    ensures PiecesOk(OSC_K)
  {
    hide IsSymbolPiece, IsPiece, StartsApart;
    SymbolPieces();
    BlankSymbolPieces();
    WordPieces();
    BlankWordPieces();
  }
}
