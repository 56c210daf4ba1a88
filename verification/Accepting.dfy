/** What the parser accepts: only well-formed programs, and only their own text up to white space. */
module Accepting {
  import opened Wrappers
  import opened Text
  import opened Grammar
  import opened Printer
  import opened Reading
  import opened RoundTrip

  // ----- texts that differ in white space only -----

  predicate SameInk(s: string, t: string) {
    Squash(s) == Squash(t)
  }

  lemma SameInkItself(s: string)
    ensures SameInk(s, s)
  {
  }

  lemma ThenInk(tok: string, k: string, k': string)
    requires SameInk(k, k')
    ensures SameInk(Then(tok, k), Then(tok, k'))
  {
    hide Squash;
    SquashConcat(tok, k);
    SquashConcat(tok, k');
  }

  lemma BlankInk(s: string, k: string)
    requires SameInk(s, k)
    ensures SameInk(s, Then(" ", k))
  {
    assert Then(" ", k)[1..] == k;
  }

  /** `s` says `tok`, after white space, and then `r`, which has the ink of `k`. */
  lemma TakenInk(s: string, tok: string, r: string, k: string)
    requires Skip(s) == tok + r && SameInk(r, k)
    ensures SameInk(s, Then(tok, k)) && SameInk(s, Then(" ", Then(tok, k)))
  {
    hide Squash, Skip;
    SquashSkip(s);
    SquashConcat(tok, r);
    SquashConcat(tok, k);
    BlankInk(s, Then(tok, k));
  }

  lemma TokenInk(s: string, tok: string, r: string, k: string)
    requires (Expect(s, tok) == Ok(r) || Eat(s, tok) == Some(r)) && SameInk(r, k)
    ensures SameInk(s, Then(tok, k)) && SameInk(s, Then(" ", Then(tok, k)))
  {
    hide SameInk, Skip, IsWord, Breaks;
    assert Skip(s) == tok + r;
    TakenInk(s, tok, r, k);
  }

  lemma NameInk(s: string, v: string, r: string, k: string)
    requires Ident(s) == Ok((v, r)) && SameInk(r, k)
    ensures SameInk(s, Then(v, k)) && SameInk(s, Then(" ", Then(v, k)))
  {
    hide SameInk, Skip, IsWord, WordRun;
    assert Skip(s) == v + r;
    TakenInk(s, v, r, k);
  }

  lemma NumberInk(s: string, b: Bound, n: nat, r: string, k: string)
    requires Number(s, b) == Ok((n, r)) && SameInk(r, k)
    ensures SameInk(s, Then(Digits(n), k)) && SameInk(s, Then(" ", Then(Digits(n), k)))
  {
    hide Squash, Number, Digits, Solid;
    SquashNumber(s, b);
    SquashConcat(Digits(n), k);
    DigitsAreSolid(Digits(n));
    SquashSolid(Digits(n));
    BlankInk(s, Then(Digits(n), k));
  }

  // ----- the printed text depends on the ink of what follows it -----

  lemma ModInk(m: nat, k: string, k': string)
    requires SameInk(k, k')
    ensures SameInk(ShowMod(m, k), ShowMod(m, k'))
  {
    hide SameInk, Then, Digits;
    ThenInk(Digits(m), k, k');
    ThenInk(" ", Then(Digits(m), k), Then(Digits(m), k'));
    ThenInk("%", Then(" ", Then(Digits(m), k)), Then(" ", Then(Digits(m), k')));
    ThenInk(" ", Then("%", Then(" ", Then(Digits(m), k))), Then("%", Then(" ", Then(Digits(m), k'))));
  }

  lemma {:induction false} IntInk(e: IntExpr, k: string, k': string)
    requires SameInk(k, k')
    ensures SameInk(ShowInt(e, k), ShowInt(e, k'))
    decreases e, 1
  {
    hide SameInk, Then, Digits, ShowMod;
    match e
    case Lit(n) => ThenInk(Digits(n), k, k');
    case Var(v) => ThenInk(v, k, k');
    case Add(l, r) => CallInk("wrapping_add", l, r, k, k');
    case Sub(l, r) => CallInk("wrapping_sub", l, r, k, k');
    case Mul(l, r) => CallInk("wrapping_mul", l, r, k, k');
    case Mod(a, m) =>
      ThenInk(")", k, k');
      ModInk(m, Then(")", k), Then(")", k'));
      IntInk(a, ShowMod(m, Then(")", k)), ShowMod(m, Then(")", k')));
      ThenInk("(", ShowInt(a, ShowMod(m, Then(")", k))), ShowInt(a, ShowMod(m, Then(")", k'))));
  }

  lemma {:induction false} CallInk(f: string, l: IntExpr, r: IntExpr, k: string, k': string)
    requires SameInk(k, k') && IsOperator(f)
    ensures SameInk(ShowInt(Operate(f, l, r), k), ShowInt(Operate(f, l, r), k'))
    decreases Operate(f, l, r), 0
  {
    hide SameInk, Then, ShowInt, IsOperator;
    CallText(f, l, r, k);
    CallText(f, l, r, k');
    var k1, k1' := Then(",", Then(" ", ShowInt(r, Then(")", k)))), Then(",", Then(" ", ShowInt(r, Then(")", k'))));
    ThenInk(")", k, k');
    IntInk(r, Then(")", k), Then(")", k'));
    ThenInk(" ", ShowInt(r, Then(")", k)), ShowInt(r, Then(")", k')));
    ThenInk(",", Then(" ", ShowInt(r, Then(")", k))), Then(" ", ShowInt(r, Then(")", k'))));
    IntInk(l, k1, k1');
    ThenInk("(", ShowInt(l, k1), ShowInt(l, k1'));
    ThenInk(f, Then("(", ShowInt(l, k1)), Then("(", ShowInt(l, k1')));
  }

  lemma SameInkChain(s: string, t: string, u: string)
    requires SameInk(s, t) && SameInk(t, u)
    ensures SameInk(s, u)
  {
  }

  // ----- integer expressions -----

  /** `e` is an integer expression the surface writes under `scope`, and `s` is its text, up to
      white space, followed by `t`. */
  predicate IntFrom(g: Limits, e: IntExpr, scope: seq<string>, s: string, t: string) {
    IntWritable(g, e) && IntClosed(e, scope) && SameInk(s, ShowInt(e, t))
  }

  /** What follows an expression may be replaced by a text of the same ink. */
  lemma IntFromInk(g: Limits, e: IntExpr, scope: seq<string>, s: string, t: string, k: string)
    requires IntFrom(g, e, scope, s, t) && SameInk(t, k)
    ensures IntFrom(g, e, scope, s, k) && SameInk(s, ShowInt(e, k)) && SameInk(s, Then(" ", ShowInt(e, k)))
  {
    hide SameInk, ShowInt, IntWritable, IntClosed;
    IntInk(e, t, k);
    SameInkChain(s, ShowInt(e, t), ShowInt(e, k));
    BlankInk(s, ShowInt(e, k));
  }

  lemma LitFrom(g: Limits, scope: seq<string>, s: string, n: nat, t: string)
    requires Number(s, g.literal) == Ok((n, t))
    ensures IntFrom(g, Lit(n), scope, s, t)
  {
    hide SameInk, Then, Number, Digits;
    SameInkItself(t);
    NumberInk(s, g.literal, n, t, t);
  }

  lemma VarFrom(g: Limits, scope: seq<string>, s: string, v: string, t: string)
    requires Ident(s) == Ok((v, t)) && !IsOperator(v) && v in scope
    ensures IntFrom(g, Var(v), scope, s, t)
  {
    hide SameInk, Then, Ident, IsOperator, IsName;
    SameInkItself(t);
    NameInk(s, v, t, t);
  }

  lemma ModFrom(g: Limits, a: IntExpr, m: nat, scope: seq<string>, s: string, s1: string, s2: string, s3: string,
                s4: string,
                t: string)
    requires Expect(s, "(") == Ok(s1) && IntFrom(g, a, scope, s1, s2) && Expect(s2, "%") == Ok(s3)
    requires Number(s3, g.modulus) == Ok((m, s4)) && Expect(s4, ")") == Ok(t)
    ensures IntFrom(g, Mod(a, m), scope, s, t)
  {
    hide SameInk, Then, Number, Digits, Expect, Eat, IntWritable, IntClosed;
    SameInkItself(t);
    TokenInk(s4, ")", t, t);
    NumberInk(s3, g.modulus, m, s4, Then(")", t));
    TokenInk(s2, "%", s3, Then(" ", Then(Digits(m), Then(")", t))));
    IntFromInk(g, a, scope, s1, s2, ShowMod(m, Then(")", t)));
    TokenInk(s, "(", s1, ShowInt(a, ShowMod(m, Then(")", t))));
    ModWritable(g, a, m, scope);
  }

  lemma ModWritable(g: Limits, a: IntExpr, m: nat, scope: seq<string>)
    ensures IntWritable(g, Mod(a, m)) == (IntWritable(g, a) && g.modulus.Has(m))
    ensures IntClosed(Mod(a, m), scope) == IntClosed(a, scope)
  {
  }

  lemma CallFrom(g: Limits, f: string, l: IntExpr, r: IntExpr, scope: seq<string>, s: string, s1: string, s2: string,
                 s3: string, s4: string, s5: string, t: string)
    requires IsOperator(f) && Ident(s) == Ok((f, s1)) && Expect(s1, "(") == Ok(s2) && IntFrom(g, l, scope, s2, s3)
    requires Expect(s3, ",") == Ok(s4) && IntFrom(g, r, scope, s4, s5) && Expect(s5, ")") == Ok(t)
    ensures IntFrom(g, Operate(f, l, r), scope, s, t)
  {
    hide SameInk, Then, Expect, Eat, Ident, IntWritable, IntClosed, ShowInt, IsOperator, Operate;
    SameInkItself(t);
    TokenInk(s5, ")", t, t);
    IntFromInk(g, r, scope, s4, s5, Then(")", t));
    var k2 := Then(" ", ShowInt(r, Then(")", t)));
    TokenInk(s3, ",", s4, k2);
    IntFromInk(g, l, scope, s2, s3, Then(",", k2));
    TokenInk(s1, "(", s2, ShowInt(l, Then(",", k2)));
    NameInk(s, f, s1, Then("(", ShowInt(l, Then(",", k2))));
    CallText(f, l, r, t);
    CallWritable(g, f, l, r, scope);
  }

  lemma CallWritable(g: Limits, f: string, l: IntExpr, r: IntExpr, scope: seq<string>)
    requires IsOperator(f)
    ensures IntWritable(g, Operate(f, l, r)) == (IntWritable(g, l) && IntWritable(g, r))
    ensures IntClosed(Operate(f, l, r), scope) == (IntClosed(l, scope) && IntClosed(r, scope))
  {
  }

  lemma {:induction false} IntAccepts(g: Limits, s: string, scope: seq<string>, nest: nat)
    requires Int(g, s, scope, nest).Ok?
    ensures var (e, t) := Int(g, s, scope, nest).value; IntFrom(g, e, scope, s, t)
    decreases |s|, 1
  {
    hide IntFrom;
    IntBodyAccepts(g, s, scope, nest + 1);
  }

  lemma {:induction false} IntBodyAccepts(g: Limits, s: string, scope: seq<string>, nest: nat)
    requires IntBody(g, s, scope, nest).Ok?
    ensures var (e, t) := IntBody(g, s, scope, nest).value; IntFrom(g, e, scope, s, t)
    decreases |s|, 0
  {
    hide IntFrom, Skip, Number, Ident, IsOperator, IsDigit, StartsName, Eat;
    var c := Skip(s)[0];
    if IsDigit(c) {
      var (n, t) := Number(s, g.literal).value;
      LitFrom(g, scope, s, n, t);
    } else if c == '(' {
      var s1 := Expect(s, "(").value;
      var (a, s2) := Int(g, s1, scope, nest).value;
      var s3 := Expect(s2, "%").value;
      var (m, s4) := Number(s3, g.modulus).value;
      var s5 := Expect(s4, ")").value;
      IntAccepts(g, s1, scope, nest);
      ModFrom(g, a, m, scope, s, s1, s2, s3, s4, s5);
    } else {
      var (name, s1) := Ident(s).value;
      if IsOperator(name) {
        var s2 := Expect(s1, "(").value;
        var (l, s3) := Int(g, s2, scope, nest).value;
        var s4 := Expect(s3, ",").value;
        var (r, s5) := Int(g, s4, scope, nest).value;
        var s6 := Expect(s5, ")").value;
        IntAccepts(g, s2, scope, nest);
        IntAccepts(g, s4, scope, nest);
        CallFrom(g, name, l, r, scope, s, s1, s2, s3, s4, s5, s6);
      } else {
        VarFrom(g, scope, s, name, s1);
      }
    }
  }

  // ----- templates -----

  lemma {:induction false} ElemsInk(es: seq<IntExpr>, k: string, k': string)
    requires SameInk(k, k')
    ensures SameInk(ShowElems(es, k), ShowElems(es, k'))
  {
    hide SameInk, Then, ShowInt;
    if |es| == 1 {
      IntInk(es[0], k, k');
    } else if |es| > 1 {
      ElemsInk(es[1..], k, k');
      ThenInk(" ", ShowElems(es[1..], k), ShowElems(es[1..], k'));
      ThenInk(",", Then(" ", ShowElems(es[1..], k)), Then(" ", ShowElems(es[1..], k')));
      IntInk(es[0], Then(",", Then(" ", ShowElems(es[1..], k))), Then(",", Then(" ", ShowElems(es[1..], k'))));
    }
  }

  predicate ElemsFrom(g: Limits, es: seq<IntExpr>, scope: seq<string>, s: string, t: string) {
    && (forall i :: 0 <= i < |es| ==> ElemWritable(g, es[i]) && IntClosed(es[i], scope))
    && SameInk(s, ShowElems(es, t))
  }

  lemma ElemAccepts(g: Limits, s: string, scope: seq<string>)
    requires TemplateElem(g, s, scope).Ok? && PlainScope(scope)
    ensures var (e, t) := TemplateElem(g, s, scope).value; IntFrom(g, e, scope, s, t) && IsIntLeaf(e)
  {
    hide IntFrom, Skip, Number, Ident, IsOperator, IsDigit, StartsName, IsName;
    var c := Skip(s)[0];
    if IsDigit(c) {
      var (n, t) := Number(s, g.literal).value;
      LitFrom(g, scope, s, n, t);
    } else {
      var (v, t) := Ident(s).value;
      VarFrom(g, scope, s, v, t);
    }
  }

  lemma {:induction false} ElemsAccept(g: Limits, s: string, scope: seq<string>)
    requires TemplateElems(g, s, scope).Ok? && PlainScope(scope)
    ensures var (es, t) := TemplateElems(g, s, scope).value; es != [] && ElemsFrom(g, es, scope, s, t)
    decreases |s|
  {
    hide SameInk, Then, ShowInt, Eat, TemplateElem, PlainScope, ElemsFrom, IntFrom;
    ElemAccepts(g, s, scope);
    var (e, s1) := TemplateElem(g, s, scope).value;
    if Eat(s1, ",").Some? {
      var s2 := Eat(s1, ",").value;
      var (es, t) := TemplateElems(g, s2, scope).value;
      ElemsAccept(g, s2, scope);
      ElemsGrow(g, e, es, scope, s, s1, s2, t);
    } else {
      OneElem(g, e, scope, s, s1);
    }
  }

  lemma OneElem(g: Limits, e: IntExpr, scope: seq<string>, s: string, t: string)
    requires IntFrom(g, e, scope, s, t) && IsIntLeaf(e)
    ensures ElemsFrom(g, [e], scope, s, t)
  {
    hide SameInk, ShowInt, IntWritable, IntClosed;
  }

  lemma ElemsGrow(g: Limits, e: IntExpr, es: seq<IntExpr>, scope: seq<string>, s: string, s1: string, s2: string,
                  t: string)
    requires IntFrom(g, e, scope, s, s1) && IsIntLeaf(e) && Eat(s1, ",") == Some(s2) && es != []
    requires ElemsFrom(g, es, scope, s2, t)
    ensures ElemsFrom(g, [e] + es, scope, s, t)
  {
    hide SameInk, Then, ShowInt, Eat, IntWritable, IntClosed;
    BlankInk(s2, ShowElems(es, t));
    TokenInk(s1, ",", s2, Then(" ", ShowElems(es, t)));
    var k := Then(",", Then(" ", ShowElems(es, t)));
    IntFromInk(g, e, scope, s, s1, k);
    assert ([e] + es)[1..] == es;
    assert ShowElems([e] + es, t) == ShowInt(e, k);
  }
}
