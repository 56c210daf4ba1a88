/** What the parser accepts, continued: list expressions and whole programs. */
module AcceptingLists {
  import opened Wrappers
  import opened Text
  import opened Grammar
  import opened Printer
  import opened Reading
  import opened RoundTripLists
  import opened Accepting

  // ----- fixed stretches -----

  lemma BarePieceInk(p: string, k: string)
    ensures SameInk(Then(Bare(p), k), Then(p, k))
  {
    if Bare(p) != p {
      assert Then(p, k)[1..] == Then(Bare(p), k);
    }
  }

  lemma {:induction false} PiecesInk(pieces: seq<string>, s: string, r: string, k: string)
    requires ExpectPieces(s, pieces) == Ok(r) && SameInk(r, k)
    ensures SameInk(s, Spell(pieces, k))
    decreases |pieces|
  {
    hide SameInk, Then, Bare, Expect;
    if pieces != [] {
      assert Bares(pieces)[0] == Bare(pieces[0]) && Bares(pieces)[1..] == Bares(pieces[1..]);
      var s1 := Expect(s, Bare(pieces[0])).value;
      PiecesInk(pieces[1..], s1, r, k);
      var rest := Spell(pieces[1..], k);
      TokenInk(s, Bare(pieces[0]), s1, rest);
      BarePieceInk(pieces[0], rest);
      SameInkChain(s, Then(Bare(pieces[0]), rest), Then(pieces[0], rest));
    }
  }

  // ----- the printed text depends on the ink of what follows it -----

  lemma RemainderInk(r: nat, k: string, k': string)
    requires SameInk(k, k')
    ensures SameInk(ShowRemainder(r, k), ShowRemainder(r, k'))
  {
    hide SameInk, Then, Digits;
    ThenInk(")", k, k');
    ThenInk(Digits(r), Then(")", k), Then(")", k'));
    ThenInk(" ", Then(Digits(r), Then(")", k)), Then(Digits(r), Then(")", k')));
    ThenInk("==", Then(" ", Then(Digits(r), Then(")", k))), Then(" ", Then(Digits(r), Then(")", k'))));
    ThenInk(" ", Then("==", Then(" ", Then(Digits(r), Then(")", k)))),
            Then("==", Then(" ", Then(Digits(r), Then(")", k')))));
  }

  lemma Then2Ink(a: string, b: string, k: string, k': string)
    requires SameInk(k, k')
    ensures SameInk(Then(a, Then(b, k)), Then(a, Then(b, k')))
  {
    hide SameInk, Then;
    ThenInk(b, k, k');
    ThenInk(a, Then(b, k), Then(b, k'));
  }

  lemma Then4Ink(a: string, b: string, c: string, d: string, k: string, k': string)
    requires SameInk(k, k')
    ensures SameInk(Then(a, Then(b, Then(c, Then(d, k)))), Then(a, Then(b, Then(c, Then(d, k')))))
  {
    hide SameInk, Then;
    Then2Ink(c, d, k, k');
    Then2Ink(a, b, Then(c, Then(d, k)), Then(c, Then(d, k')));
  }

  lemma BindersInk(a: string, x: string, body: IntExpr, k: string, k': string)
    requires SameInk(k, k')
    ensures SameInk(ScanBinders(a, x, body, k), ScanBinders(a, x, body, k'))
  {
    hide SameInk, Then, ShowInt;
    ThenInk(")", k, k');
    IntInk(body, Then(")", k), Then(")", k'));
    var b, b' := ShowInt(body, Then(")", k)), ShowInt(body, Then(")", k'));
    Then2Ink("|", " ", b, b');
    var t, t' := Then("|", Then(" ", b)), Then("|", Then(" ", b'));
    Then4Ink(a, ",", " ", x, t, t');
    ThenInk("|", Then(a, Then(",", Then(" ", Then(x, t)))), Then(a, Then(",", Then(" ", Then(x, t')))));
    Then2Ink(",", " ", Then("|", Then(a, Then(",", Then(" ", Then(x, t))))),
             Then("|", Then(a, Then(",", Then(" ", Then(x, t'))))));
  }

  lemma MapArgsInk(v: string, body: IntExpr, k: string, k': string)
    requires SameInk(k, k')
    ensures SameInk(Then("(", Then("|", Then(v, Then("|", Then(" ", ShowInt(body, Then(")", k))))))),
                    Then("(", Then("|", Then(v, Then("|", Then(" ", ShowInt(body, Then(")", k'))))))))
  {
    hide SameInk, Then, ShowInt;
    ThenInk(")", k, k');
    IntInk(body, Then(")", k), Then(")", k'));
    ThenInk(" ", ShowInt(body, Then(")", k)), ShowInt(body, Then(")", k')));
    Then4Ink("(", "|", v, "|", Then(" ", ShowInt(body, Then(")", k))), Then(" ", ShowInt(body, Then(")", k'))));
  }

  lemma FilterArgsInk(v: string, m: nat, r: nat, k: string, k': string)
    requires SameInk(k, k')
    ensures SameInk(Then("(", Then("|", Then(v, FilterTestText(v, m, r, k)))),
                    Then("(", Then("|", Then(v, FilterTestText(v, m, r, k')))))
  {
    hide SameInk, Then, ShowMod, ShowRemainder;
    RemainderInk(r, k, k');
    ModInk(m, ShowRemainder(r, k), ShowRemainder(r, k'));
    var t, t' := ShowMod(m, ShowRemainder(r, k)), ShowMod(m, ShowRemainder(r, k'));
    Then2Ink(" ", v, t, t');
    Then4Ink("(", "|", v, "|", Then(" ", Then(v, t)), Then(" ", Then(v, t')));
  }

  lemma ArgsInk(e: ListExpr, k: string, k': string)
    requires IsCall(e) && SameInk(k, k')
    ensures SameInk(CallArgs(e, k), CallArgs(e, k'))
  {
    hide SameInk, Then, ShowInt, Digits, ScanBinders, FilterTestText;
    match e
    case Map(_, v, body) => MapArgsInk(v, body, k, k');
    case Scan(_, init, a, x, body) =>
      BindersInk(a, x, body, k, k');
      IntInk(init, ScanBinders(a, x, body, k), ScanBinders(a, x, body, k'));
      ThenInk("(", ShowInt(init, ScanBinders(a, x, body, k)), ShowInt(init, ScanBinders(a, x, body, k')));
    case Filter(_, v, m, r) => FilterArgsInk(v, m, r, k, k');
    case Take(_, n) =>
      ThenInk(")", k, k');
      Then2Ink("(", Digits(n), Then(")", k), Then(")", k'));
    case _ => Then2Ink("(", ")", k, k');
  }

  lemma {:induction false} ShowInk(e: ListExpr, k: string, k': string)
    requires SameInk(k, k')
    ensures SameInk(Show(e, k), Show(e, k'))
    decreases e
  {
    if IsCall(e) {
      hide SameInk, Then, Show, CallArgs, CallName;
      CallShows(e, k);
      CallShows(e, k');
      ArgsInk(e, k, k');
      Then2Ink(".", CallName(e), CallArgs(e, k), CallArgs(e, k'));
      ShowInk(e.xs, Then(".", Then(CallName(e), CallArgs(e, k))), Then(".", Then(CallName(e), CallArgs(e, k'))));
    } else if e.Concat? {
      hide SameInk, Then;
      Then2Ink("]", ")", k, k');
      ShowInk(e.r, Then("]", Then(")", k)), Then("]", Then(")", k')));
      var t, t' := Show(e.r, Then("]", Then(")", k))), Show(e.r, Then("]", Then(")", k')));
      Then2Ink(",", " ", t, t');
      ShowInk(e.l, Then(",", Then(" ", t)), Then(",", Then(" ", t')));
      FlattenInk(Show(e.l, Then(",", Then(" ", t))), Show(e.l, Then(",", Then(" ", t'))));
    } else if e.Copy? {
      hide SameInk, Then, Digits;
      Then2Ink("]", ")", k, k');
      var t, t' := Then("]", Then(")", k)), Then("]", Then(")", k'));
      ThenInk(Digits(e.n), t, t');
      Then2Ink(";", " ", Then(Digits(e.n), t), Then(Digits(e.n), t'));
      ShowInk(e.xs, Then(";", Then(" ", Then(Digits(e.n), t))), Then(";", Then(" ", Then(Digits(e.n), t'))));
      FlattenInk(Show(e.xs, Then(";", Then(" ", Then(Digits(e.n), t)))),
                 Show(e.xs, Then(";", Then(" ", Then(Digits(e.n), t')))));
    } else {
      LeafInk(e, k, k');
    }
  }

  lemma FlattenInk(t: string, t': string)
    requires SameInk(t, t')
    ensures SameInk(Then("flatten", Then("(", Then("[", t))), Then("flatten", Then("(", Then("[", t'))))
  {
    hide SameInk, Then;
    ThenInk("[", t, t');
    Then2Ink("flatten", "(", Then("[", t), Then("[", t'));
  }

  lemma LeafInk(e: ListExpr, k: string, k': string)
    requires IsListLeaf(e) && SameInk(k, k')
    ensures SameInk(Show(e, k), Show(e, k'))
  {
    hide SameInk, Then, Digits, ShowInt, Spell, TemplateText, NestText, ShowOsc;
    match e
    case Range(n) =>
      Then4Ink("range", "(", Digits(n), ")", k, k');
    case Repeat(i, n) =>
      Then4Ink(";", " ", Digits(n), "]", k, k');
      IntInk(i, Then(";", Then(" ", Then(Digits(n), Then("]", k)))),
             Then(";", Then(" ", Then(Digits(n), Then("]", k')))));
      ThenInk("[", ShowInt(i, Then(";", Then(" ", Then(Digits(n), Then("]", k))))),
              ShowInt(i, Then(";", Then(" ", Then(Digits(n), Then("]", k'))))));
    case Cycle(v, elems, len) =>
      TemplateInk(v, elems, k, k');
      ThenInk(".", TemplateText(v, elems, k), TemplateText(v, elems, k'));
      Then4Ink("range", "(", Digits(len), ")", Then(".", TemplateText(v, elems, k)),
               Then(".", TemplateText(v, elems, k')));
    case Nest(v, n, m) =>
      NestInk(v, m, k, k');
      Then4Ink("|", v, "|", " ", NestText(v, m, k), NestText(v, m, k'));
      var t := Then("|", Then(v, Then("|", Then(" ", NestText(v, m, k)))));
      var t' := Then("|", Then(v, Then("|", Then(" ", NestText(v, m, k')))));
      Then4Ink(")", ".", "map", "(", t, t');
      var u, u' := Then(")", Then(".", Then("map", Then("(", t)))), Then(")", Then(".", Then("map", Then("(", t'))));
      ThenInk(Digits(n), u, u');
      Then4Ink("flatten", "(", "range", "(", Then(Digits(n), u), Then(Digits(n), u'));
    case Osc(o) => OscInk(o, k, k');
  }

  lemma TemplateInk(v: string, elems: seq<IntExpr>, k: string, k': string)
    requires SameInk(k, k')
    ensures SameInk(TemplateText(v, elems, k), TemplateText(v, elems, k'))
  {
    hide SameInk, Then, ShowElems, ShowMod;
    Then2Ink("]", ")", k, k');
    var m, m' := Then("]", Then(")", k)), Then("]", Then(")", k'));
    ModInk(|elems|, m, m');
    ThenInk(v, ShowMod(|elems|, m), ShowMod(|elems|, m'));
    Then2Ink("]", "[", Then(v, ShowMod(|elems|, m)), Then(v, ShowMod(|elems|, m')));
    ElemsInk(elems, TemplateEnd(v, |elems|, k), TemplateEnd(v, |elems|, k'));
    var t, t' := ShowElems(elems, TemplateEnd(v, |elems|, k)), ShowElems(elems, TemplateEnd(v, |elems|, k'));
    Then4Ink(v, "|", " ", "[", t, t');
    var u, u' := Then(v, Then("|", Then(" ", Then("[", t)))), Then(v, Then("|", Then(" ", Then("[", t'))));
    ThenInk("|", u, u');
    Then2Ink("map", "(", Then("|", u), Then("|", u'));
  }

  lemma NestInk(v: string, m: nat, k: string, k': string)
    requires SameInk(k, k')
    ensures SameInk(NestText(v, m, k), NestText(v, m, k'))
  {
    hide SameInk, Then, ShowMod;
    Then4Ink("1", ")", ")", ")", k, k');
    var t, t' := Then("1", Then(")", Then(")", Then(")", k)))), Then("1", Then(")", Then(")", Then(")", k'))));
    Then2Ink("+", " ", t, t');
    ThenInk(" ", Then("+", Then(" ", t)), Then("+", Then(" ", t')));
    var rest, rest' := Then(" ", Then("+", Then(" ", t))), Then(" ", Then("+", Then(" ", t')));
    ModInk(m, rest, rest');
    ThenInk(v, ShowMod(m, rest), ShowMod(m, rest'));
    Then2Ink("range", "(", Then(v, ShowMod(m, rest)), Then(v, ShowMod(m, rest')));
  }

  lemma {:induction false} SpellInk(pieces: seq<string>, k: string, k': string)
    requires SameInk(k, k')
    ensures SameInk(Spell(pieces, k), Spell(pieces, k'))
    decreases |pieces|
  {
    hide SameInk, Then;
    if pieces != [] {
      SpellInk(pieces[1..], k, k');
      ThenInk(pieces[0], Spell(pieces[1..], k), Spell(pieces[1..], k'));
    }
  }

  lemma OscInk(o: Oscillator, k: string, k': string)
    requires SameInk(k, k')
    ensures SameInk(ShowOsc(o, k), ShowOsc(o, k'))
  {
    hide SameInk, Then, Spell, Digits;
    SpellInk(OSC_K, k, k');
    Then2Ink(" ", Digits(o.k), Spell(OSC_K, k), Spell(OSC_K, k'));
    var t4, t4' := Then(" ", Then(Digits(o.k), Spell(OSC_K, k))), Then(" ", Then(Digits(o.k), Spell(OSC_K, k')));
    SpellInk(OSC_B, t4, t4');
    ThenInk(Digits(o.b), Spell(OSC_B, t4), Spell(OSC_B, t4'));
    var t3, t3' := Then(Digits(o.b), Spell(OSC_B, t4)), Then(Digits(o.b), Spell(OSC_B, t4'));
    SpellInk(OSC_A, t3, t3');
    ThenInk(Digits(o.a), Spell(OSC_A, t3), Spell(OSC_A, t3'));
    var t2, t2' := Then(Digits(o.a), Spell(OSC_A, t3)), Then(Digits(o.a), Spell(OSC_A, t3'));
    SpellInk(OSC_SEED, t2, t2');
    ThenInk(Digits(o.x0), Spell(OSC_SEED, t2), Spell(OSC_SEED, t2'));
    var t1, t1' := Then(Digits(o.x0), Spell(OSC_SEED, t2)), Then(Digits(o.x0), Spell(OSC_SEED, t2'));
    OscFrontInk(o.n, o.x1, t1, t1');
  }

  lemma OscFrontInk(n: nat, x1: nat, t: string, t': string)
    requires SameInk(t, t')
    ensures SameInk(OscOpenText(n, Then(Digits(x1), Then(",", Then(" ", t)))),
                    OscOpenText(n, Then(Digits(x1), Then(",", Then(" ", t')))))
  {
    hide SameInk, Then, Digits;
    Then2Ink(",", " ", t, t');
    ThenInk(Digits(x1), Then(",", Then(" ", t)), Then(",", Then(" ", t')));
    var u, u' := Then(Digits(x1), Then(",", Then(" ", t))), Then(Digits(x1), Then(",", Then(" ", t')));
    Then4Ink(".", "scan", "(", "(", u, u');
    Then4Ink("range", "(", Digits(Before(n)), ")", Then(".", Then("scan", Then("(", Then("(", u)))),
             Then(".", Then("scan", Then("(", Then("(", u')))));
  }

  function OscOpenText(n: nat, t: string): string {
    Then("range", Then("(", Then(Digits(Before(n)), Then(")", Then(".", Then("scan", Then("(", Then("(", t))))))))
  }

  // ----- method calls -----

  /** What the call that makes `e` adds is writable under `scope`. */
  predicate CallWritable(g: Limits, e: ListExpr, scope: seq<string>)
    requires IsCall(e)
  {
    match e
    case Map(_, v, body) => IsName(v) && IntWritable(g, body) && IntClosed(body, scope + [v])
    case Scan(_, init, a, x, body) =>
      && IsName(a) && IsName(x) && IntWritable(g, init) && IntClosed(init, scope)
      && IntWritable(g, body) && IntClosed(body, scope + [a, x])
    case Filter(_, v, k, r) => IsName(v) && g.filterMod.Has(k) && r < k
    case Take(_, n) => g.take.Has(n)
    case _ => true
  }

  /** `e` is a call on `xs`, read from `s` after its name. */
  predicate CallReadFrom(g: Limits, xs: ListExpr, e: ListExpr, scope: seq<string>, s: string, t: string) {
    IsCall(e) && e.xs == xs && CallWritable(g, e, scope) && SameInk(s, CallArgs(e, t))
  }

  lemma MapFrom(g: Limits, xs: ListExpr, v: string, body: IntExpr, scope: seq<string>, s: string, s1: string,
                s2: string,
                s3: string, s4: string, s5: string, t: string)
    requires Expect(s, "(") == Ok(s1) && Expect(s1, "|") == Ok(s2) && Ident(s2) == Ok((v, s3)) && IsName(v)
    requires Expect(s3, "|") == Ok(s4) && IntFrom(g, body, scope + [v], s4, s5) && Expect(s5, ")") == Ok(t)
    ensures CallReadFrom(g, xs, Map(xs, v, body), scope, s, t)
  {
    hide SameInk, Then, ShowInt, Expect, Eat, Ident, IntWritable, IntClosed, IsName;
    SameInkItself(t);
    TokenInk(s5, ")", t, t);
    IntFromInk(g, body, scope + [v], s4, s5, Then(")", t));
    var b := Then(" ", ShowInt(body, Then(")", t)));
    TokenInk(s3, "|", s4, b);
    NameInk(s2, v, s3, Then("|", b));
    TokenInk(s1, "|", s2, Then(v, Then("|", b)));
    TokenInk(s, "(", s1, Then("|", Then(v, Then("|", b))));
  }

  lemma ScanFrom(g: Limits, xs: ListExpr, init: IntExpr, a: string, x: string, body: IntExpr, scope: seq<string>,
                 s: string,
                 s1: string, s2: string, s3: string, s4: string, s5: string, s6: string, s7: string, s8: string,
                 s9: string,
                 t: string)
    requires Expect(s, "(") == Ok(s1) && IntFrom(g, init, scope, s1, s2) && Expect(s2, ",") == Ok(s3)
    requires Expect(s3, "|") == Ok(s4) && Ident(s4) == Ok((a, s5)) && IsName(a) && Expect(s5, ",") == Ok(s6)
    requires Ident(s6) == Ok((x, s7)) && IsName(x) && Expect(s7, "|") == Ok(s8)
    requires IntFrom(g, body, scope + [a, x], s8, s9) && Expect(s9, ")") == Ok(t)
    ensures CallReadFrom(g, xs, Scan(xs, init, a, x, body), scope, s, t)
  {
    hide SameInk, Then, ShowInt, Expect, Eat, Ident, IntWritable, IntClosed, IsName;
    SameInkItself(t);
    TokenInk(s9, ")", t, t);
    IntFromInk(g, body, scope + [a, x], s8, s9, Then(")", t));
    var b := Then(" ", ShowInt(body, Then(")", t)));
    TokenInk(s7, "|", s8, b);
    NameInk(s6, x, s7, Then("|", b));
    TokenInk(s5, ",", s6, Then(" ", Then(x, Then("|", b))));
    var c := Then(",", Then(" ", Then(x, Then("|", b))));
    NameInk(s4, a, s5, c);
    TokenInk(s3, "|", s4, Then(a, c));
    TokenInk(s2, ",", s3, Then(" ", Then("|", Then(a, c))));
    assert ScanBinders(a, x, body, t) == Then(",", Then(" ", Then("|", Then(a, c))));
    IntFromInk(g, init, scope, s1, s2, ScanBinders(a, x, body, t));
    TokenInk(s, "(", s1, ShowInt(init, ScanBinders(a, x, body, t)));
  }

  lemma FilterFrom(g: Limits, xs: ListExpr, v: string, m: nat, r: nat, scope: seq<string>, s: string, s1: string,
                   s2: string,
                   s3: string, s4: string, s5: string, s6: string, s7: string, s8: string, s9: string, t: string)
    requires Expect(s, "(") == Ok(s1) && Expect(s1, "|") == Ok(s2) && Ident(s2) == Ok((v, s3)) && IsName(v)
    requires Expect(s3, "|") == Ok(s4) && Ident(s4) == Ok((v, s5)) && Expect(s5, "%") == Ok(s6)
    requires Number(s6, g.filterMod) == Ok((m, s7)) && Expect(s7, "==") == Ok(s8) && m > 0
    requires Number(s8, Bound(0, m - 1)) == Ok((r, s9)) && Expect(s9, ")") == Ok(t) && g.filterMod.Has(m) && r < m
    ensures CallReadFrom(g, xs, Filter(xs, v, m, r), scope, s, t)
  {
    hide SameInk, Then, Expect, Eat, Ident, Number, Digits, IsName;
    SameInkItself(t);
    TokenInk(s9, ")", t, t);
    NumberInk(s8, Bound(0, m - 1), r, s9, Then(")", t));
    TokenInk(s7, "==", s8, Then(" ", Then(Digits(r), Then(")", t))));
    NumberInk(s6, g.filterMod, m, s7, ShowRemainder(r, t));
    TokenInk(s5, "%", s6, Then(" ", Then(Digits(m), ShowRemainder(r, t))));
    var k := ShowMod(m, ShowRemainder(r, t));
    NameInk(s4, v, s5, k);
    TokenInk(s3, "|", s4, Then(" ", Then(v, k)));
    NameInk(s2, v, s3, FilterTestText(v, m, r, t));
    TokenInk(s1, "|", s2, Then(v, FilterTestText(v, m, r, t)));
    TokenInk(s, "(", s1, Then("|", Then(v, FilterTestText(v, m, r, t))));
  }

  lemma FilterAccepts(g: Limits, xs: ListExpr, scope: seq<string>, s: string)
    requires FilterCall(g, xs, s).Ok?
    ensures var (e, t) := FilterCall(g, xs, s).value; e.Filter? && CallReadFrom(g, xs, e, scope, s, t)
  {
    hide Expect, Eat, Ident, Number, CallReadFrom, IsName;
    var s1 := Expect(s, "(").value;
    var s2 := Expect(s1, "|").value;
    var (v, s3) := Ident(s2).value;
    var s4 := Expect(s3, "|").value;
    var (w, s5) := Ident(s4).value;
    assert FilterTest(g, xs, v, s5).Ok?;
    var s6 := Expect(s5, "%").value;
    var (m, s7) := Number(s6, g.filterMod).value;
    var s8 := Expect(s7, "==").value;
    var (r, s9) := Number(s8, Bound(0, m - 1)).value;
    FilterFrom(g, xs, v, m, r, scope, s, s1, s2, s3, s4, s5, s6, s7, s8, s9, Expect(s9, ")").value);
  }

  lemma TakeAccepts(g: Limits, xs: ListExpr, scope: seq<string>, s: string)
    requires TakeCall(g, xs, s).Ok?
    ensures var (e, t) := TakeCall(g, xs, s).value; e.Take? && CallReadFrom(g, xs, e, scope, s, t)
  {
    hide SameInk, Then, Expect, Eat, Number, Digits;
    var s1 := Expect(s, "(").value;
    var (n, s2) := Number(s1, g.take).value;
    var t := Expect(s2, ")").value;
    SameInkItself(t);
    TokenInk(s2, ")", t, t);
    NumberInk(s1, g.take, n, s2, Then(")", t));
    TokenInk(s, "(", s1, Then(Digits(n), Then(")", t)));
  }

  lemma BareAccepts(g: Limits, e: ListExpr, scope: seq<string>, s: string)
    requires (e.Reverse? || e.Sort?) && BareCall(e, s).Ok?
    ensures var (e', t) := BareCall(e, s).value; e' == e && CallReadFrom(g, e.xs, e, scope, s, t)
  {
    hide SameInk, Then, Expect, Eat;
    var s1 := Expect(s, "(").value;
    var t := Expect(s1, ")").value;
    SameInkItself(t);
    TokenInk(s1, ")", t, t);
    TokenInk(s, "(", s1, Then(")", t));
  }

  lemma ScanAccepts(g: Limits, xs: ListExpr, scope: seq<string>, s: string, nest: nat)
    requires ScanCall(g, xs, s, scope, nest).Ok?
    ensures var (e, t) := ScanCall(g, xs, s, scope, nest).value; e.Scan? && CallReadFrom(g, xs, e, scope, s, t)
  {
    hide Expect, Eat, Ident, Int, IntFrom, CallReadFrom, IsName;
    var s1 := Expect(s, "(").value;
    var (init, s2) := Int(g, s1, scope, nest).value;
    var s3 := Expect(s2, ",").value;
    var s4 := Expect(s3, "|").value;
    var (a, s5) := Ident(s4).value;
    var s6 := Expect(s5, ",").value;
    var (x, s7) := Ident(s6).value;
    var s8 := Expect(s7, "|").value;
    var (body, s9) := Int(g, s8, scope + [a, x], nest).value;
    IntAccepts(g, s1, scope, nest);
    IntAccepts(g, s8, scope + [a, x], nest);
    ScanFrom(g, xs, init, a, x, body, scope, s, s1, s2, s3, s4, s5, s6, s7, s8, s9, Expect(s9, ")").value);
  }

  // ----- templates -----

  /** `e` is a template over `range(n)`, read from `s`, which stands after the method's name. */
  predicate TemplateReadFrom(g: Limits, n: nat, e: ListExpr, scope: seq<string>, s: string, t: string) {
    && e.Cycle? && e.len == n && Writable(g, e) && Closed(e, scope)
    && SameInk(Then("map", s), TemplateText(e.v, e.elems, t))
  }

  lemma TemplateEndFrom(v: string, n: nat, s: string, s1: string, s2: string, s3: string, s4: string, s5: string,
                        t: string)
    requires Expect(s, "]") == Ok(s1) && Expect(s1, "[") == Ok(s2) && Ident(s2) == Ok((v, s3))
    requires Expect(s3, "%") == Ok(s4)
    requires Number(s4, Bound(n, n)).Ok? && Number(s4, Bound(n, n)).value.1 == s5
    requires Expect(s5, "]").Ok? && Expect(Expect(s5, "]").value, ")") == Ok(t)
    ensures SameInk(s, TemplateEnd(v, n, t))
  {
    hide SameInk, Then, Expect, Eat, Ident, Number, Digits;
    SameInkItself(t);
    var s6 := Expect(s5, "]").value;
    TokenInk(s6, ")", t, t);
    TokenInk(s5, "]", s6, Then(")", t));
    NumberInk(s4, Bound(n, n), n, s5, Then("]", Then(")", t)));
    TokenInk(s3, "%", s4, Then(" ", Then(Digits(n), Then("]", Then(")", t)))));
    NameInk(s2, v, s3, ShowMod(n, Then("]", Then(")", t))));
    TokenInk(s1, "[", s2, Then(v, ShowMod(n, Then("]", Then(")", t)))));
    TokenInk(s, "]", s1, Then("[", Then(v, ShowMod(n, Then("]", Then(")", t))))));
  }

  /** The elements of a template and what comes after them. */
  lemma ElemsFromInk(g: Limits, es: seq<IntExpr>, scope: seq<string>, s: string, t: string, k: string)
    requires ElemsFrom(g, es, scope, s, t) && SameInk(t, k)
    ensures SameInk(s, ShowElems(es, k))
  {
    hide SameInk, ShowElems;
    ElemsInk(es, t, k);
    SameInkChain(s, ShowElems(es, t), ShowElems(es, k));
  }

  lemma TemplateAccepts(g: Limits, xs: ListExpr, v: string, s: string, scope: seq<string>)
    requires Template(g, xs, v, s, scope).Ok? && PlainScope(scope) && IsName(v)
    ensures var (e, t) := Template(g, xs, v, s, scope).value;
            && xs.Range? && e.Cycle? && e.len == xs.n && e.v == v && Writable(g, e) && Closed(e, scope)
            && SameInk(s, Then(" ", Then("[", ShowElems(e.elems, TemplateEnd(v, |e.elems|, t)))))
  {
    hide SameInk, Then, Expect, Eat, Ident, Number, Digits, TemplateElems, TemplateEnd, ShowElems, PlainScope, IsName,
         ElemWritable, IntClosed;
    var s1 := Expect(s, "[").value;
    var (elems, s2) := TemplateElems(g, s1, scope).value;
    var s3 := Expect(s2, "]").value;
    var s4 := Expect(s3, "[").value;
    var (w, s5) := Ident(s4).value;
    var s6 := Expect(s5, "%").value;
    var s7 := Number(s6, Bound(|elems|, |elems|)).value.1;
    var t := Expect(Expect(s7, "]").value, ")").value;
    ElemsAccept(g, s1, scope);
    TemplateEndFrom(v, |elems|, s2, s3, s4, s5, s6, s7, t);
    ElemsFromInk(g, elems, scope, s1, s2, TemplateEnd(v, |elems|, t));
    TokenInk(s, "[", s1, ShowElems(elems, TemplateEnd(v, |elems|, t)));
  }

  lemma TemplateFrom(g: Limits, e: ListExpr, v: string, scope: seq<string>, s: string, s1: string, s2: string,
                     s3: string,
                     s4: string, t: string)
    requires Expect(s, "(") == Ok(s1) && Expect(s1, "|") == Ok(s2) && Ident(s2) == Ok((v, s3))
    requires Expect(s3, "|") == Ok(s4)
    requires e.Cycle? && e.v == v && Writable(g, e) && Closed(e, scope)
    requires SameInk(s4, Then(" ", Then("[", ShowElems(e.elems, TemplateEnd(v, |e.elems|, t)))))
    ensures TemplateReadFrom(g, e.len, e, scope, s, t)
  {
    hide SameInk, Then, Expect, Eat, Ident, ShowElems, TemplateEnd, Writable, Closed;
    var b := Then(" ", Then("[", ShowElems(e.elems, TemplateEnd(v, |e.elems|, t))));
    TokenInk(s3, "|", s4, b);
    NameInk(s2, v, s3, Then("|", b));
    TokenInk(s1, "|", s2, Then(v, Then("|", b)));
    TokenInk(s, "(", s1, Then("|", Then(v, Then("|", b))));
    ThenInk("map", s, Then("(", Then("|", Then(v, Then("|", b)))));
  }

  lemma MapAccepts(g: Limits, xs: ListExpr, scope: seq<string>, s: string, nest: nat)
    requires MapCall(g, xs, s, scope, nest).Ok? && PlainScope(scope)
    ensures var (e, t) := MapCall(g, xs, s, scope, nest).value;
            || (e.Map? && CallReadFrom(g, xs, e, scope, s, t))
            || (xs.Range? && TemplateReadFrom(g, xs.n, e, scope, s, t))
    ensures (MapCall(g, xs, s, scope, nest).value.0.Cycle? && xs.Range?) || !TemplateBegan(s)
  {
    hide Expect, Eat, Ident, Int, IntFrom, CallReadFrom, Template, TemplateReadFrom, PlainScope, NextIs, IsName,
         TemplateBegan,
         SameInk, Then, Writable, Closed, ShowElems, TemplateEnd;
    var s1 := Expect(s, "(").value;
    var s2 := Expect(s1, "|").value;
    var (v, s3) := Ident(s2).value;
    var s4 := Expect(s3, "|").value;
    TemplateBeganIs(s, s1, s2, v, s3, s4);
    if NextIs(s4, '[') {
      var (e, t) := Template(g, xs, v, s4, scope).value;
      TemplateAccepts(g, xs, v, s4, scope);
      TemplateFrom(g, e, v, scope, s, s1, s2, s3, s4, t);
    } else {
      var (body, s5) := Int(g, s4, scope + [v], nest).value;
      IntAccepts(g, s4, scope + [v], nest);
      MapFrom(g, xs, v, body, scope, s, s1, s2, s3, s4, s5, Expect(s5, ")").value);
    }
  }

  /** After `map`: `(|v| [`. */
  predicate TemplateBegan(s: string) {
    && Eat(s, "(").Some?
    && Eat(Eat(s, "(").value, "|").Some?
    && Ident(Eat(Eat(s, "(").value, "|").value).Ok?
    && var t := Ident(Eat(Eat(s, "(").value, "|").value).value.1;
       Eat(t, "|").Some? && NextIs(Eat(t, "|").value, '[')
  }

  lemma TemplateBeganIs(s: string, s1: string, s2: string, v: string, s3: string, s4: string)
    requires Expect(s, "(") == Ok(s1) && Expect(s1, "|") == Ok(s2) && Ident(s2) == Ok((v, s3))
    requires Expect(s3, "|") == Ok(s4)
    ensures TemplateBegan(s) ==> NextIs(s4, '[')
  {
    hide Eat, Ident, NextIs;
  }

  lemma BeganAfterMap(s: string, t: string)
    requires Ident(s) == Ok(("map", t)) && TemplateBegins(s)
    ensures TemplateBegan(t)
  {
    hide NextIs, Ident;
    MapEaten(s, t);
  }

  lemma MapEaten(s: string, t: string)
    requires Ident(s) == Ok(("map", t)) && Eat(s, "map").Some?
    ensures Eat(s, "map") == Some(t)
  {
    hide Skip, WordRun, IsWord, StartsName;
    var w := Skip(s);
    var n := WordRun(w);
    assert w[..n] == "map" && w[n..] == t;
    assert n == 3;
  }

  /** Only `map` can open a template. */
  lemma TemplateIsMap(s: string)
    requires TemplateBegins(s) && Ident(s).Ok?
    ensures Ident(s).value.0 == "map"
  {
    hide NextIs, Skip, IsWord, Ident, Eat;
    assert Eat(s, "map").Some?;
    MapHeads(s);
  }

  lemma MapHeads(s: string)
    requires Eat(s, "map").Some? && Ident(s).Ok?
    ensures Ident(s).value.0 == "map"
  {
    hide Skip, WordRun, IsWord, StartsName;
    var w := Skip(s);
    assert "map" <= w && Breaks(w[3..]) by {
      MapThenBreak(s);
    }
    MapRuns(w);
    assert w[..3] == "map";
  }

  lemma MapThenBreak(s: string)
    requires Eat(s, "map").Some?
    ensures "map" <= Skip(s) && Breaks(Skip(s)[3..])
  {
    hide Skip;
  }

  lemma MapRuns(w: string)
    requires "map" <= w && Breaks(w[3..])
    ensures WordRun(w) == 3
  {
    hide WordRun;
    assert w == "map" + w[3..];
    WordRunOf("map", w[3..]);
  }

  /** One call on `xs`, or a template over a range. */
  predicate MethodReadFrom(g: Limits, xs: ListExpr, e: ListExpr, scope: seq<string>, s: string, t: string) {
    || (IsCall(e) && e.xs == xs && CallWritable(g, e, scope) && SameInk(s, Then(CallName(e), CallArgs(e, t))))
    || (&& xs.Range? && e.Cycle? && e.len == xs.n && Writable(g, e) && Closed(e, scope)
        && SameInk(s, TemplateText(e.v, e.elems, t)))
  }

  lemma CallIsMethod(g: Limits, xs: ListExpr, e: ListExpr, scope: seq<string>, s: string, s1: string, t: string)
    requires CallReadFrom(g, xs, e, scope, s1, t) && Ident(s) == Ok((CallName(e), s1))
    ensures MethodReadFrom(g, xs, e, scope, s, t)
  {
    hide SameInk, Then, Ident, CallArgs, CallWritable, CallName, Writable, Closed;
    NameInk(s, CallName(e), s1, CallArgs(e, t));
  }

  lemma TemplateIsMethod(g: Limits, xs: ListExpr, e: ListExpr, scope: seq<string>, s: string, s1: string, t: string)
    requires xs.Range? && TemplateReadFrom(g, xs.n, e, scope, s1, t) && Ident(s) == Ok(("map", s1))
    ensures MethodReadFrom(g, xs, e, scope, s, t)
  {
    hide SameInk, Then, Ident, CallArgs, CallWritable, CallName, Writable, Closed, TemplateText;
    SameInkItself(s1);
    NameInk(s, "map", s1, s1);
    SameInkChain(s, Then("map", s1), TemplateText(e.v, e.elems, t));
  }

  lemma MethodAccepts(g: Limits, xs: ListExpr, s: string, scope: seq<string>, nest: nat)
    requires Method(g, xs, s, scope, nest).Ok? && PlainScope(scope)
    ensures var (e, t) := Method(g, xs, s, scope, nest).value; MethodReadFrom(g, xs, e, scope, s, t)
    ensures TemplateBegins(s) ==> Method(g, xs, s, scope, nest).value.0.Cycle? && xs.Range?
  {
    hide Ident, BareCall, TakeCall, FilterCall, ScanCall, MapCall, CallReadFrom, MethodReadFrom, TemplateReadFrom,
         PlainScope,
         TemplateBegins, TemplateBegan;
    var (name, s1) := Ident(s).value;
    var (e, t) := Method(g, xs, s, scope, nest).value;
    if TemplateBegins(s) {
      TemplateIsMap(s);
      BeganAfterMap(s, s1);
    }
    if name == "reverse" {
      BareAccepts(g, Reverse(xs), scope, s1);
      CallIsMethod(g, xs, e, scope, s, s1, t);
    } else if name == "sort" {
      BareAccepts(g, Sort(xs), scope, s1);
      CallIsMethod(g, xs, e, scope, s, s1, t);
    } else if name == "take" {
      TakeAccepts(g, xs, scope, s1);
      CallIsMethod(g, xs, e, scope, s, s1, t);
    } else if name == "filter" {
      FilterAccepts(g, xs, scope, s1);
      CallIsMethod(g, xs, e, scope, s, s1, t);
    } else if name == "scan" {
      ScanAccepts(g, xs, scope, s1, nest);
      CallIsMethod(g, xs, e, scope, s, s1, t);
    } else {
      MapAccepts(g, xs, scope, s1, nest);
      if e.Map? && CallReadFrom(g, xs, e, scope, s1, t) {
        CallIsMethod(g, xs, e, scope, s, s1, t);
      } else {
        TemplateIsMethod(g, xs, e, scope, s, s1, t);
      }
    }
  }

  // ----- chains -----

  /** What the surface writes as a list expression under `scope`. */
  predicate Good(g: Limits, secondOrder: bool, e: ListExpr, scope: seq<string>) {
    Writable(g, e) && Closed(e, scope) && (secondOrder || NoOscillator(e))
  }

  /** A range too long to be one, which the text after it turns into a template. */
  predicate Pending(g: Limits, e: ListExpr, s: string) {
    e.Range? && g.cycleLen.Has(e.n) && Eat(s, ".").Some? && TemplateBegins(Eat(s, ".").value)
  }

  lemma CallIsGood(g: Limits, secondOrder: bool, e: ListExpr, scope: seq<string>)
    requires IsCall(e) && CallWritable(g, e, scope) && Good(g, secondOrder, e.xs, scope)
    ensures Good(g, secondOrder, e, scope)
  {
    hide IsName, IntWritable, IntClosed;
  }

  lemma CycleIsGood(g: Limits, secondOrder: bool, e: ListExpr, scope: seq<string>)
    requires e.Cycle? && Writable(g, e) && Closed(e, scope)
    ensures Good(g, secondOrder, e, scope)
  {
    hide Writable, Closed;
  }

  /** A method call in front of a text of the same ink makes a longer expression. */
  lemma MethodInk(g: Limits, xs: ListExpr, e: ListExpr, scope: seq<string>, s: string, s1: string, t: string)
    requires Eat(s, ".") == Some(s1) && MethodReadFrom(g, xs, e, scope, s1, t)
    ensures SameInk(Show(xs, s), Show(e, t))
  {
    hide SameInk, Then, Eat, CallArgs, CallName, CallWritable, Writable, Closed, TemplateText;
    if IsCall(e) {
      hide Show;
      TokenInk(s, ".", s1, Then(CallName(e), CallArgs(e, t)));
      ShowInk(xs, s, Then(".", Then(CallName(e), CallArgs(e, t))));
      CallShows(e, t);
    } else {
      hide Digits;
      var k := Then(".", TemplateText(e.v, e.elems, t));
      TokenInk(s, ".", s1, TemplateText(e.v, e.elems, t));
      Then4Ink("range", "(", Digits(xs.n), ")", s, k);
    }
  }

  lemma {:induction false} CallsAccept(g: Limits, secondOrder: bool, e: ListExpr, s: string, scope: seq<string>,
                                       nest: nat,
                                       calls: nat)
    requires Calls(g, e, s, scope, nest, calls).Ok? && PlainScope(scope)
    requires Good(g, secondOrder, e, scope) || Pending(g, e, s)
    ensures var (e', t) := Calls(g, e, s, scope, nest, calls).value;
            Good(g, secondOrder, e', scope) && SameInk(Show(e, s), Show(e', t))
    decreases |s|
  {
    hide SameInk, Show, Eat, Method, MethodReadFrom, PlainScope, TemplateBegins, Good;
    if Eat(s, ".").None? {
      SameInkItself(Show(e, s));
    } else {
      var s1 := Eat(s, ".").value;
      var (e1, s2) := Method(g, e, s1, scope, nest).value;
      MethodAccepts(g, e, s1, scope, nest);
      MethodInk(g, e, e1, scope, s, s1, s2);
      MethodIsGood(g, secondOrder, e, e1, scope, s1, s2);
      CallsAccept(g, secondOrder, e1, s2, scope, nest, calls + 1);
      var (e', t) := Calls(g, e1, s2, scope, nest, calls + 1).value;
      SameInkChain(Show(e, s), Show(e1, s2), Show(e', t));
    }
  }

  lemma MethodIsGood(g: Limits, secondOrder: bool, xs: ListExpr, e: ListExpr, scope: seq<string>, s: string, t: string)
    requires MethodReadFrom(g, xs, e, scope, s, t) && (Good(g, secondOrder, xs, scope) || e.Cycle?)
    ensures Good(g, secondOrder, e, scope)
  {
    hide SameInk, Then, CallArgs, CallName, CallWritable, Writable, Closed, TemplateText, Good;
    if IsCall(e) {
      CallIsGood(g, secondOrder, e, scope);
    } else {
      CycleIsGood(g, secondOrder, e, scope);
    }
  }

  // ----- atoms -----

  /** What an atom reads: a good expression, or a range that is to become a template. */
  predicate AtomFrom(g: Limits, secondOrder: bool, e: ListExpr, scope: seq<string>, s: string, t: string) {
    (Good(g, secondOrder, e, scope) || Pending(g, e, t)) && SameInk(s, Show(e, t))
  }

  lemma RangeLengthAccepts(g: Limits, s: string)
    requires RangeLength(g, s).Ok?
    ensures var (n, t) := RangeLength(g, s).value;
            || (g.range.Has(n) && Number(s, g.range) == Ok((n, t)))
            || (g.cycleLen.Has(n) && Number(s, g.cycleLen) == Ok((n, t)) && TemplateFollows(t))
  {
    hide TemplateFollows;
  }

  lemma LengthInk(g: Limits, s: string, n: nat, t: string, k: string)
    requires (Number(s, g.range) == Ok((n, t)) || Number(s, g.cycleLen) == Ok((n, t))) && SameInk(t, k)
    ensures SameInk(s, Then(Digits(n), k))
  {
    hide SameInk, Then, Digits, Number;
    if Number(s, g.range) == Ok((n, t)) {
      NumberInk(s, g.range, n, t, k);
    } else {
      NumberInk(s, g.cycleLen, n, t, k);
    }
  }

  lemma RangeAccepts(g: Limits, secondOrder: bool, s: string, s1: string, scope: seq<string>)
    requires Ident(s) == Ok(("range", s1)) && RangeCall(g, s1).Ok?
    ensures var (e, t) := RangeCall(g, s1).value; AtomFrom(g, secondOrder, e, scope, s, t)
  {
    hide SameInk, Then, Expect, Eat, Ident, Number, RangeLength, Digits, TemplateBegins;
    var s2 := Expect(s1, "(").value;
    var (n, s3) := RangeLength(g, s2).value;
    var t := Expect(s3, ")").value;
    RangeLengthAccepts(g, s2);
    SameInkItself(t);
    TokenInk(s3, ")", t, t);
    LengthInk(g, s2, n, s3, Then(")", t));
    TokenInk(s1, "(", s2, Then(Digits(n), Then(")", t)));
    NameInk(s, "range", s1, Then("(", Then(Digits(n), Then(")", t))));
    if !g.range.Has(n) {
      assert Pending(g, Range(n), t) by {
        ExpectedEaten(s3, ")", t);
      }
    }
  }

  lemma ExpectedEaten(s: string, tok: string, t: string)
    requires Expect(s, tok) == Ok(t)
    ensures Eat(s, tok) == Some(t)
  {
    hide Eat;
  }

  lemma RepeatAccepts(g: Limits, secondOrder: bool, s: string, s1: string, scope: seq<string>, nest: nat)
    requires Eat(s, "[") == Some(s1) && RepeatRest(g, s1, scope, nest).Ok?
    ensures var (e, t) := RepeatRest(g, s1, scope, nest).value; AtomFrom(g, secondOrder, e, scope, s, t)
  {
    hide SameInk, Then, Expect, Eat, Int, Number, Digits, ShowInt, IntWritable, IntClosed;
    var (i, s2) := Int(g, s1, scope, nest).value;
    var s3 := Expect(s2, ";").value;
    var (n, s4) := Number(s3, g.repeat).value;
    var t := Expect(s4, "]").value;
    IntAccepts(g, s1, scope, nest);
    SameInkItself(t);
    TokenInk(s4, "]", t, t);
    NumberInk(s3, g.repeat, n, s4, Then("]", t));
    var k := Then(" ", Then(Digits(n), Then("]", t)));
    TokenInk(s2, ";", s3, k);
    IntFromInk(g, i, scope, s1, s2, Then(";", k));
    TokenInk(s, "[", s1, ShowInt(i, Then(";", k)));
  }

  // ----- nested counting -----

  lemma NestClosureAccepts(g: Limits, n: nat, v: string, s: string)
    requires NestClosure(g, n, v, s).Ok?
    ensures var (e, t) := NestClosure(g, n, v, s).value;
            e.Nest? && e.v == v && e.n == n && g.nestMod.Has(e.k) && SameInk(s, Then(" ", NestText(v, e.k, t)))
  {
    hide SameInk, Then, Expect, Eat, Ident, Number, Digits;
    var s1 := Expect(s, "range").value;
    var s2 := Expect(s1, "(").value;
    var (w, s3) := Ident(s2).value;
    var s4 := Expect(s3, "%").value;
    var (m, s5) := Number(s4, g.nestMod).value;
    var s6 := Expect(s5, "+").value;
    var s7 := Expect(s6, "1").value;
    NestEndInk(s5, s6, s7, Expect(s7, ")").value, Expect(Expect(s7, ")").value, ")").value,
               NestClosure(g, n, v, s).value.1);
    var t := NestClosure(g, n, v, s).value.1;
    var rest := Then(" ", Then("+", Then(" ", Then("1", Then(")", Then(")", Then(")", t)))))));
    NumberInk(s4, g.nestMod, m, s5, rest);
    TokenInk(s3, "%", s4, Then(" ", Then(Digits(m), rest)));
    NameInk(s2, v, s3, ShowMod(m, rest));
    TokenInk(s1, "(", s2, Then(v, ShowMod(m, rest)));
    TokenInk(s, "range", s1, Then("(", Then(v, ShowMod(m, rest))));
  }

  lemma NestEndInk(s5: string, s6: string, s7: string, s8: string, s9: string, t: string)
    requires Expect(s5, "+") == Ok(s6) && Expect(s6, "1") == Ok(s7) && Expect(s7, ")") == Ok(s8)
    requires Expect(s8, ")") == Ok(s9)
    requires Expect(s9, ")") == Ok(t)
    ensures SameInk(s5, Then(" ", Then("+", Then(" ", Then("1", Then(")", Then(")", Then(")", t))))))))
  {
    hide SameInk, Then, Expect, Eat;
    SameInkItself(t);
    TokenInk(s9, ")", t, t);
    TokenInk(s8, ")", s9, Then(")", t));
    TokenInk(s7, ")", s8, Then(")", Then(")", t)));
    TokenInk(s6, "1", s7, Then(")", Then(")", Then(")", t))));
    TokenInk(s5, "+", s6, Then(" ", Then("1", Then(")", Then(")", Then(")", t))))));
  }

  lemma NestAccepts(g: Limits, secondOrder: bool, s: string, s1: string, s2: string, s3: string, scope: seq<string>)
    requires Ident(s) == Ok(("flatten", s1)) && Expect(s1, "(") == Ok(s2) && Eat(s2, "range") == Some(s3)
    requires NestCall(g, s3).Ok?
    ensures var (e, t) := NestCall(g, s3).value; AtomFrom(g, secondOrder, e, scope, s, t)
  {
    hide SameInk, Then, Expect, Eat, Ident, Number, Digits, NestClosure, NestText, IsName;
    var s4 := Expect(s3, "(").value;
    var (n, s5) := Number(s4, g.nestCount).value;
    var s6 := Expect(s5, ")").value;
    var s7 := Expect(s6, ".").value;
    var s8 := Expect(s7, "map").value;
    var s9 := Expect(s8, "(").value;
    var s10 := Expect(s9, "|").value;
    var (v, s11) := Ident(s10).value;
    var s12 := Expect(s11, "|").value;
    var (e, t) := NestClosure(g, n, v, s12).value;
    NestClosureAccepts(g, n, v, s12);
    var k4 := Then(" ", NestText(v, e.k, t));
    TokenInk(s11, "|", s12, k4);
    NameInk(s10, v, s11, Then("|", k4));
    var k3 := Then("|", Then(v, Then("|", k4)));
    TokenInk(s9, "|", s10, Then(v, Then("|", k4)));
    TokenInk(s8, "(", s9, k3);
    TokenInk(s7, "map", s8, Then("(", k3));
    TokenInk(s6, ".", s7, Then("map", Then("(", k3)));
    var k2 := Then(")", Then(".", Then("map", Then("(", k3))));
    TokenInk(s5, ")", s6, Then(".", Then("map", Then("(", k3))));
    NumberInk(s4, g.nestCount, n, s5, k2);
    TokenInk(s3, "(", s4, Then(Digits(n), k2));
    TokenInk(s2, "range", s3, Then("(", Then(Digits(n), k2)));
    TokenInk(s1, "(", s2, Then("range", Then("(", Then(Digits(n), k2))));
    NameInk(s, "flatten", s1, Then("(", Then("range", Then("(", Then(Digits(n), k2)))));
  }

  // ----- oscillators -----

  lemma OscTailInk(s: string, k: string)
    requires OscTail(s).Some? && SameInk(OscTail(s).value, k)
    ensures SameInk(s, Then(")", Then(".", Then("scan", Then("(", Then("(", k))))))
  {
    hide SameInk, Then, Eat, Skip, DigitRun, NextIs;
    var s1 := Eat(s, ")").value;
    var s2 := Eat(s1, ".").value;
    var s3 := Eat(s2, "scan").value;
    var s4 := Eat(s3, "(").value;
    var s5 := Eat(s4, "(").value;
    SkipInk(s5);
    SameInkChain(s5, Skip(s5), k);
    TokenInk(s4, "(", s5, k);
    TokenInk(s3, "(", s4, Then("(", k));
    TokenInk(s2, "scan", s3, Then("(", Then("(", k)));
    TokenInk(s1, ".", s2, Then("scan", Then("(", Then("(", k))));
    TokenInk(s, ")", s1, Then(".", Then("scan", Then("(", Then("(", k)))));
  }

  lemma SkipInk(s: string)
    ensures SameInk(s, Skip(s))
  {
    SquashSkip(s);
  }

  lemma OscOpeningInk(s: string, m: nat, u: string, k: string)
    requires OscOpening(s) == Some((m, u)) && SameInk(u, k)
    ensures SameInk(s, OscOpenText(m + 1, k)) && m <= U64_MAX
  {
    hide SameInk, Then, Eat, Skip, DigitRun, Value, Canonical, OscTail, Digits;
    var s1 := Eat(s, "range").value;
    var s2 := Eat(s1, "(").value;
    var w := Skip(s2);
    var n := DigitRun(w);
    OscTailInk(w[n..], k);
    var t := Then(")", Then(".", Then("scan", Then("(", Then("(", k)))));
    DigitsOfValue(w[..n]);
    assert Skip(s2) == Digits(m) + w[n..];
    TakenInk(s2, Digits(m), w[n..], t);
    TokenInk(s1, "(", s2, Then(Digits(m), t));
    TokenInk(s, "range", s1, Then("(", Then(Digits(m), t)));
  }

  lemma OscStepAccepts(g: Limits, m: nat, x1: nat, x0: nat, s: string)
    requires OscStep(g, m, x1, x0, s).Ok? && g.range.Has(m) && g.literal.Has(x1) && g.literal.Has(x0)
    ensures var (o, t) := OscStep(g, m, x1, x0, s).value;
            o.n == m + 1 && o.x1 == x1 && o.x0 == x0 && OscWritable(g, o) && SameInk(s, OscFromA(o, t))
  {
    hide SameInk, Then, ExpectPieces, Number, Digits, Spell, Pow2;
    var (a, s1) := Number(s, g.literal).value;
    var s2 := ExpectPieces(s1, OSC_A).value;
    var (b, s3) := Number(s2, g.literal).value;
    var s4 := ExpectPieces(s3, OSC_B).value;
    var (k, s5) := Number(s4, g.oscShift).value;
    var t := ExpectPieces(s5, OSC_K).value;
    SameInkItself(t);
    PiecesInk(OSC_K, s5, t, t);
    NumberInk(s4, g.oscShift, k, s5, Spell(OSC_K, t));
    var t4 := Then(" ", Then(Digits(k), Spell(OSC_K, t)));
    PiecesInk(OSC_B, s3, s4, t4);
    NumberInk(s2, g.literal, b, s3, Spell(OSC_B, t4));
    var t3 := Then(Digits(b), Spell(OSC_B, t4));
    PiecesInk(OSC_A, s1, s2, t3);
    NumberInk(s, g.literal, a, s1, Spell(OSC_A, t3));
  }

  lemma OscBodyAccepts(g: Limits, m: nat, s: string)
    requires OscBody(g, m, s).Ok?
    ensures var (o, t) := OscBody(g, m, s).value; o.n == m + 1 && OscWritable(g, o) && SameInk(s, OscRest(o, t))
  {
    hide SameInk, Then, ExpectPieces, Expect, Eat, Number, Digits, Spell, OscStep, OscWritable, OscFromA;
    var (x1, s1) := Number(s, g.literal).value;
    var s2 := Expect(s1, ",").value;
    var (x0, s3) := Number(s2, g.literal).value;
    var s4 := ExpectPieces(s3, OSC_SEED).value;
    var (o, t) := OscStep(g, m, x1, x0, s4).value;
    OscStepAccepts(g, m, x1, x0, s4);
    PiecesInk(OSC_SEED, s3, s4, OscFromA(o, t));
    NumberInk(s2, g.literal, x0, s3, Spell(OSC_SEED, OscFromA(o, t)));
    TokenInk(s1, ",", s2, Then(" ", Then(Digits(x0), Spell(OSC_SEED, OscFromA(o, t)))));
    NumberInk(s, g.literal, x1, s1, Then(",", Then(" ", Then(Digits(x0), Spell(OSC_SEED, OscFromA(o, t))))));
  }

  lemma OscillationAccepts(g: Limits, secondOrder: bool, s: string, scope: seq<string>)
    requires Oscillation(g, secondOrder, s).Ok? && Oscillation(g, secondOrder, s).value.Some?
    ensures var (o, t) := Oscillation(g, secondOrder, s).value.value; AtomFrom(g, secondOrder, Osc(o), scope, s, t)
  {
    hide SameInk, Then, OscOpening, OscBody, OscRest, OscWritable, Spell, Digits;
    var (m, u) := OscOpening(s).value;
    var (o, t) := OscBody(g, m, u).value;
    OscBodyAccepts(g, m, u);
    OscOpeningInk(s, m, u, OscRest(o, t));
    assert OscOpenText(o.n, OscRest(o, t)) == ShowOsc(o, t) by {
      OscShown(o, t);
    }
  }

  lemma OscShown(o: Oscillator, t: string)
    requires o.n >= 1
    ensures OscOpenText(o.n, OscRest(o, t)) == ShowOsc(o, t)
  {
    hide Then, Digits, Spell;
  }

  // ----- lists in lists -----

  /** `e` is a list expression the surface writes, and `s` is its text, up to white space, then `t`. */
  predicate ListFrom(g: Limits, secondOrder: bool, e: ListExpr, scope: seq<string>, s: string, t: string) {
    Good(g, secondOrder, e, scope) && SameInk(s, Show(e, t))
  }

  lemma ListFromInk(g: Limits, secondOrder: bool, e: ListExpr, scope: seq<string>, s: string, t: string, k: string)
    requires ListFrom(g, secondOrder, e, scope, s, t) && SameInk(t, k)
    ensures SameInk(s, Show(e, k)) && SameInk(s, Then(" ", Show(e, k)))
  {
    hide SameInk, Show, Good;
    ShowInk(e, t, k);
    SameInkChain(s, Show(e, t), Show(e, k));
    BlankInk(s, Show(e, k));
  }

  lemma ConcatFrom(g: Limits, secondOrder: bool, l: ListExpr, r: ListExpr, scope: seq<string>, s: string, s1: string,
                   s2: string,
                   s3: string, s4: string, s5: string, s6: string, s7: string, t: string)
    requires Ident(s) == Ok(("flatten", s1)) && Expect(s1, "(") == Ok(s2) && Expect(s2, "[") == Ok(s3)
    requires ListFrom(g, secondOrder, l, scope, s3, s4) && Eat(s4, ",") == Some(s5)
    requires ListFrom(g, secondOrder, r, scope, s5, s6)
    requires Expect(s6, "]") == Ok(s7) && Expect(s7, ")") == Ok(t)
    ensures AtomFrom(g, secondOrder, Concat(l, r), scope, s, t)
  {
    hide SameInk, Then, Expect, Eat, Ident, Good, Show;
    PairIsGood(g, secondOrder, l, r, scope);
    FlattenText(l, r, 0, t);
    SameInkItself(t);
    TokenInk(s7, ")", t, t);
    TokenInk(s6, "]", s7, Then(")", t));
    var k2 := Then("]", Then(")", t));
    ListFromInk(g, secondOrder, r, scope, s5, s6, k2);
    TokenInk(s4, ",", s5, Then(" ", Show(r, k2)));
    var k1 := Then(",", Then(" ", Show(r, k2)));
    ListFromInk(g, secondOrder, l, scope, s3, s4, k1);
    TokenInk(s2, "[", s3, Show(l, k1));
    TokenInk(s1, "(", s2, Then("[", Show(l, k1)));
    NameInk(s, "flatten", s1, Then("(", Then("[", Show(l, k1))));
  }

  lemma FlattenText(l: ListExpr, r: ListExpr, n: nat, t: string)
    ensures Show(Concat(l, r), t)
         == Then("flatten", Then("(", Then("[", Show(l, Then(",", Then(" ", Show(r, Then("]", Then(")", t)))))))))
    ensures Show(Copy(l, n), t)
         == Then("flatten", Then("(", Then("[",
                 Show(l, Then(";", Then(" ", Then(Digits(n), Then("]", Then(")", t)))))))))
  {
    hide Then, Digits;
  }

  lemma PairIsGood(g: Limits, secondOrder: bool, l: ListExpr, r: ListExpr, scope: seq<string>)
    requires Good(g, secondOrder, l, scope) && Good(g, secondOrder, r, scope)
    ensures Good(g, secondOrder, Concat(l, r), scope)
  {
  }

  lemma CopyFrom(g: Limits, secondOrder: bool, xs: ListExpr, n: nat, scope: seq<string>, s: string, s1: string,
                 s2: string,
                 s3: string, s4: string, s5: string, s6: string, s7: string, t: string)
    requires Ident(s) == Ok(("flatten", s1)) && Expect(s1, "(") == Ok(s2) && Expect(s2, "[") == Ok(s3)
    requires ListFrom(g, secondOrder, xs, scope, s3, s4) && Expect(s4, ";") == Ok(s5)
    requires Number(s5, g.copy) == Ok((n, s6))
    requires Expect(s6, "]") == Ok(s7) && Expect(s7, ")") == Ok(t)
    ensures AtomFrom(g, secondOrder, Copy(xs, n), scope, s, t)
  {
    hide SameInk, Then, Expect, Eat, Ident, Number, Digits, Good, Show;
    CopyIsGood(g, secondOrder, xs, n, scope);
    FlattenText(xs, xs, n, t);
    SameInkItself(t);
    TokenInk(s7, ")", t, t);
    TokenInk(s6, "]", s7, Then(")", t));
    var k2 := Then("]", Then(")", t));
    NumberInk(s5, g.copy, n, s6, k2);
    TokenInk(s4, ";", s5, Then(" ", Then(Digits(n), k2)));
    var k1 := Then(";", Then(" ", Then(Digits(n), k2)));
    ListFromInk(g, secondOrder, xs, scope, s3, s4, k1);
    TokenInk(s2, "[", s3, Show(xs, k1));
    TokenInk(s1, "(", s2, Then("[", Show(xs, k1)));
    NameInk(s, "flatten", s1, Then("(", Then("[", Show(xs, k1))));
  }

  lemma CopyIsGood(g: Limits, secondOrder: bool, xs: ListExpr, n: nat, scope: seq<string>)
    requires Good(g, secondOrder, xs, scope)
    ensures g.copy.Has(n) ==> Good(g, secondOrder, Copy(xs, n), scope)
  {
  }

  lemma {:induction false} FlattenAccepts(g: Limits, secondOrder: bool, s: string, s1: string, scope: seq<string>,
                                          nest: nat)
    requires Ident(s) == Ok(("flatten", s1)) && Flatten(g, secondOrder, s1, scope, nest).Ok? && PlainScope(scope)
    ensures var (e, t) := Flatten(g, secondOrder, s1, scope, nest).value; AtomFrom(g, secondOrder, e, scope, s, t)
    decreases |s1|, 0
  {
    hide Expect, Eat, Ident, Number, NestCall, AtomFrom, ListFrom, PlainScope;
    var s2 := Expect(s1, "(").value;
    if Eat(s2, "range").Some? {
      NestAccepts(g, secondOrder, s, s1, s2, Eat(s2, "range").value, scope);
    } else {
      var s3 := Expect(s2, "[").value;
      var (l, s4) := List(g, secondOrder, s3, scope, nest).value;
      ListAccepts(g, secondOrder, s3, scope, nest);
      if Eat(s4, ",").Some? {
        var s5 := Eat(s4, ",").value;
        var (r, s6) := List(g, secondOrder, s5, scope, nest).value;
        var s7 := Expect(s6, "]").value;
        ListAccepts(g, secondOrder, s5, scope, nest);
        ConcatFrom(g, secondOrder, l, r, scope, s, s1, s2, s3, s4, s5, s6, s7, Expect(s7, ")").value);
      } else {
        var s5 := Expect(s4, ";").value;
        var (n, s6) := Number(s5, g.copy).value;
        var s7 := Expect(s6, "]").value;
        CopyFrom(g, secondOrder, l, n, scope, s, s1, s2, s3, s4, s5, s6, s7, Expect(s7, ")").value);
      }
    }
  }

  lemma {:induction false} AtomAccepts(g: Limits, secondOrder: bool, s: string, scope: seq<string>, nest: nat)
    requires Atom(g, secondOrder, s, scope, nest).Ok? && PlainScope(scope)
    ensures var (e, t) := Atom(g, secondOrder, s, scope, nest).value; AtomFrom(g, secondOrder, e, scope, s, t)
    decreases |s|, 1
  {
    hide Eat, Ident, Oscillation, RepeatRest, RangeCall, Flatten, AtomFrom, PlainScope;
    var o := Oscillation(g, secondOrder, s).value;
    if o.Some? {
      OscillationAccepts(g, secondOrder, s, scope);
    } else if Eat(s, "[").Some? {
      RepeatAccepts(g, secondOrder, s, Eat(s, "[").value, scope, nest);
    } else {
      var (name, s1) := Ident(s).value;
      if name == "range" {
        RangeAccepts(g, secondOrder, s, s1, scope);
      } else {
        FlattenAccepts(g, secondOrder, s, s1, scope, nest);
      }
    }
  }

  lemma {:induction false} ListAccepts(g: Limits, secondOrder: bool, s: string, scope: seq<string>, nest: nat)
    requires List(g, secondOrder, s, scope, nest).Ok? && PlainScope(scope)
    ensures var (e, t) := List(g, secondOrder, s, scope, nest).value; ListFrom(g, secondOrder, e, scope, s, t)
    decreases |s|, 2
  {
    hide Atom, Calls, Good, Pending, SameInk, Show, PlainScope;
    var (a, s1) := Atom(g, secondOrder, s, scope, nest + 1).value;
    AtomAccepts(g, secondOrder, s, scope, nest + 1);
    CallsAccept(g, secondOrder, a, s1, scope, nest + 1, 0);
    var (e, t) := Calls(g, a, s1, scope, nest + 1, 0).value;
    SameInkChain(s, Show(a, s1), Show(e, t));
  }

  // ----- whole programs -----

  lemma AllSpaceInk(t: string)
    requires Skip(t) == ""
    ensures SameInk(t, "") && SameInk(t, "\n")
  {
    SquashSkip(t);
    assert Squash("\n") == "";
  }

  lemma SourceInk(g: Limits, secondOrder: bool, e: ListExpr, s: string, s1: string, s2: string, t: string)
    requires ExpectPieces(s, HEADER) == Ok(s1) && ListFrom(g, secondOrder, e, TOP_SCOPE, s1, s2)
    requires Expect(s2, "}") == Ok(t)
    requires Skip(t) == ""
    ensures SameInk(s, Source(e))
  {
    hide SameInk, Then, ExpectPieces, Expect, Eat, Spell, Good, Show, Skip;
    AllSpaceInk(t);
    TokenInk(s2, "}", t, "\n");
    LineInk(s2, Then("}", "\n"));
    var k := Then("\n", Then("}", "\n"));
    ListFromInk(g, secondOrder, e, TOP_SCOPE, s1, s2, k);
    LineInk(s1, Show(e, k));
    PiecesInk(HEADER, s, s1, Then("\n    ", Show(e, k)));
  }

  lemma LineInk(s: string, k: string)
    requires SameInk(s, k)
    ensures SameInk(s, Then("\n", k)) && SameInk(s, Then("\n    ", k))
  {
    hide Squash;
    SquashConcat("\n", k);
    SquashConcat("\n    ", k);
    BlankLines();
  }

  lemma BlankLines()
    ensures Squash("\n") == "" && Squash("\n    ") == ""
  {
    assert "\n    "[1..] == "    " && "    "[1..] == "   " && "   "[1..] == "  " && "  "[1..] == " ";
    assert Squash(" ") == "" && Squash("  ") == "" && Squash("   ") == "" && Squash("    ") == "";
  }

  lemma BodyAccepts(g: Limits, secondOrder: bool, s: string)
    requires Body(g, secondOrder, s).Ok? && Skip(Body(g, secondOrder, s).value.1) == ""
    ensures var (e, t) := Body(g, secondOrder, s).value;
            Good(g, secondOrder, e, TOP_SCOPE) && (SameInk(s, Source(e)) || SameInk(s, BodyText(e)))
  {
    hide SameInk, ExpectPieces, Expect, Good, Show, Skip, List, NextIs, ListFrom, Source, BodyText, PlainScope;
    TopScopeIsPlain();
    var (e, t) := Body(g, secondOrder, s).value;
    if NextIs(s, '@') {
      var s1 := ExpectPieces(s, HEADER).value;
      var s2 := List(g, secondOrder, s1, TOP_SCOPE, 0).value.1;
      ListAccepts(g, secondOrder, s1, TOP_SCOPE, 0);
      SourceInk(g, secondOrder, e, s, s1, s2, t);
      ListIsGood(g, secondOrder, e, s1, s2);
    } else {
      ListAccepts(g, secondOrder, s, TOP_SCOPE, 0);
      ListIsGood(g, secondOrder, e, s, t);
      BareInk(g, secondOrder, e, s, t);
    }
  }

  lemma ListIsGood(g: Limits, secondOrder: bool, e: ListExpr, s: string, t: string)
    requires ListFrom(g, secondOrder, e, TOP_SCOPE, s, t)
    ensures Good(g, secondOrder, e, TOP_SCOPE)
  {
    hide Good, SameInk;
  }

  lemma BareInk(g: Limits, secondOrder: bool, e: ListExpr, s: string, t: string)
    requires ListFrom(g, secondOrder, e, TOP_SCOPE, s, t) && Skip(t) == ""
    ensures SameInk(s, BodyText(e))
  {
    hide SameInk, Show, Good, Skip;
    AllSpaceInk(t);
    ListFromInk(g, secondOrder, e, TOP_SCOPE, s, t, "");
  }

  /** Every text the parser accepts denotes a well-formed program, and is that program's source, or
      its bare body, up to white space. */
  lemma ParseAccepts(g: Limits, secondOrder: bool, s: string)
    ensures Parse(g, secondOrder, s).Ok? ==>
              var e := Parse(g, secondOrder, s).value;
              && WellFormed(g, secondOrder, e)
              && (Squash(s) == Squash(Source(e)) || Squash(s) == Squash(BodyText(e)))
  {
    hide Body, Source, BodyText, Skip, Squash, Writable, Closed, Fits, NoOscillator;
    if Parse(g, secondOrder, s).Ok? {
      BodyAccepts(g, secondOrder, s);
    }
  }

  /** The parser and the printer are inverse on exactly the well-formed programs. */
  lemma RoundTripsExactly(g: Limits, secondOrder: bool, e: ListExpr)
    requires g.Readable()
    ensures Parse(g, secondOrder, Source(e)) == Ok(e) <==> WellFormed(g, secondOrder, e)
    ensures Parse(g, secondOrder, BodyText(e)) == Ok(e) <==> WellFormed(g, secondOrder, e)
  {
    hide Parse, Source, BodyText, WellFormed;
    if WellFormed(g, secondOrder, e) {
      ParseInvertsSource(g, secondOrder, e);
    }
    ParseAccepts(g, secondOrder, Source(e));
    ParseAccepts(g, secondOrder, BodyText(e));
  }

  /** Two well-formed programs with the same source are the same program. */
  lemma SourceIsInjective(g: Limits, e: ListExpr, f: ListExpr)
    requires g.Readable() && WellFormed(g, true, e) && WellFormed(g, true, f)
    ensures Source(e) == Source(f) ==> e == f
  {
    hide Parse, Source, BodyText, WellFormed;
    RoundTripsExactly(g, true, e);
    RoundTripsExactly(g, true, f);
  }

  /** With the second-order form off, what is accepted is what is accepted with it on and has no
      oscillator. */
  lemma FirstOrderIsFree(g: Limits, e: ListExpr)
    requires g.Readable()
    ensures Parse(g, false, Source(e)) == Ok(e) <==> Parse(g, true, Source(e)) == Ok(e) && NoOscillator(e)
  {
    hide Parse, Source, BodyText, Writable, Closed, Fits;
    RoundTripsExactly(g, false, e);
    RoundTripsExactly(g, true, e);
  }
}
