/** Reading back what was printed, continued: list expressions and whole programs. */
module RoundTripLists {
  import opened Wrappers
  import opened Text
  import opened Grammar
  import opened Printer
  import opened Reading
  import opened RoundTrip

  // ----- ranges -----

  lemma RangeIsName()
    ensures IsName("range")
  {
  }

  lemma FlattenIsName()
    ensures IsName("flatten") && "flatten" != "range"
  {
  }

  /** `range(n`, then `t`. */
  function RangeText(n: nat, t: string): string {
    Then("range", Then("(", Then(Digits(n), t)))
  }

  lemma RangeOpens(n: nat, t: string)
    ensures Eat(RangeText(n, t), "range") == Some(Then("(", Then(Digits(n), t)))
    ensures Ident(RangeText(n, t)) == Ok(("range", Then("(", Then(Digits(n), t))))
    ensures Expect(Then("(", Then(Digits(n), t)), "(") == Ok(Then(Digits(n), t))
    ensures Eat(Then("(", Then(Digits(n), t)), "(") == Some(Then(Digits(n), t))
    ensures Eat(RangeText(n, t), "[") == None
  {
    hide IsSymbol, IsName, Ident, Eat, Expect, Digits, Then, Breaks;
    Symbols();
    RangeIsName();
    SymbolReads("(", Then(Digits(n), t));
    WordReads("range", Then("(", Then(Digits(n), t)));
    NotASymbol("range", Then("(", Then(Digits(n), t)));
  }

  /** What the lookahead makes of a range's length. */
  lemma OpeningOfRange(n: nat, t: string)
    requires n <= U64_MAX && Breaks(t)
    ensures OscOpening(RangeText(n, t)) == match OscTail(t) case None => None case Some(u) => Some((n, u))
  {
    RangeOpens(n, t);
    hide IsSymbol, IsName, Eat, Digits, Then, OscTail, Skip, DigitRun, Canonical, Value, RangeText;
    var s := Then(Digits(n), t);
    DigitsFront(n, t);
    NoDigitBreaks(t);
    DigitsSplit(n, t);
    ValueOfDigits(n);
  }

  lemma DigitsSplit(n: nat, t: string)
    requires |t| > 0 ==> !IsDigit(t[0])
    ensures var s := Then(Digits(n), t);
            DigitRun(s) == |Digits(n)| && s[..|Digits(n)|] == Digits(n) && s[|Digits(n)|..] == t
  {
    hide Digits, DigitRun;
    DigitRunOf(Digits(n), t);
  }

  lemma NumberOutside(n: nat, t: string, b: Bound)
    requires !b.Has(n) && n <= U64_MAX && Breaks(t)
    ensures Number(Then(Digits(n), t), b) == Err(OutsideBounds(n))
  {
    hide IsSymbol, IsName, Eat, Digits, Then, Skip, DigitRun, Canonical, Value;
    DigitsFront(n, t);
    NoDigitBreaks(t);
    DigitsSplit(n, t);
    ValueOfDigits(n);
  }

  /** An atom that the lookahead passes over. */
  lemma AtomAfterLookahead(g: Limits, secondOrder: bool, s: string, name: string, t: string, scope: seq<string>,
                           nest: nat)
    requires OscOpening(s) == None && Eat(s, "[") == None && Ident(s) == Ok((name, t))
    ensures name == "range" ==> Atom(g, secondOrder, s, scope, nest) == RangeCall(g, t)
    ensures name == "flatten" ==> Atom(g, secondOrder, s, scope, nest) == Flatten(g, secondOrder, t, scope, nest)
  {
    hide IsName, Ident, Eat, OscOpening, RangeCall, Flatten;
    FlattenIsName();
  }

  lemma RangeReads(g: Limits, secondOrder: bool, n: nat, k: string, scope: seq<string>, nest: nat)
    requires g.Readable() && g.range.Has(n) && !OscFollows(k)
    ensures Atom(g, secondOrder, RangeText(n, Then(")", k)), scope, nest) == Ok((Range(n), k))
  {
    hide IsSymbol, IsName, Eat, Expect, Ident, Digits, Then, OscTail, OscOpening, Number, RangeText, Atom;
    Symbols();
    SymbolReads(")", k);
    RangeOpens(n, Then(")", k));
    OpeningOfRange(n, Then(")", k));
    NoDigitBreaks(Then(")", k));
    NumberReads(n, Then(")", k), g.range);
    AtomAfterLookahead(g, secondOrder, RangeText(n, Then(")", k)), "range", Then("(", Then(Digits(n), Then(")", k))),
                       scope, nest);
  }

  /** A template's length is let through, whether or not it is a range's. */
  lemma CycleAtomReads(g: Limits, secondOrder: bool, v: string, elems: seq<IntExpr>, len: nat, k: string,
                       scope: seq<string>, nest: nat)
    requires g.Readable() && g.cycleLen.Has(len) && TemplateBegins(TemplateText(v, elems, k))
    requires !OscFollows(Then(".", TemplateText(v, elems, k)))
    ensures var k1 := Then(".", TemplateText(v, elems, k));
            Atom(g, secondOrder, RangeText(len, Then(")", k1)), scope, nest) == Ok((Range(len), k1))
  {
    hide IsSymbol, IsName, Eat, Expect, Ident, Digits, Then, OscTail, OscOpening, Number, RangeText, Atom, TemplateText,
         TemplateBegins;
    var t := TemplateText(v, elems, k);
    var k1 := Then(".", t);
    Symbols();
    SymbolReads(".", t);
    SymbolReads(")", k1);
    RangeOpens(len, Then(")", k1));
    OpeningOfRange(len, Then(")", k1));
    NoDigitBreaks(Then(")", k1));
    NumberReads(len, Then(")", k1), g.cycleLen);
    if g.range.Has(len) {
      NumberReads(len, Then(")", k1), g.range);
    } else {
      NumberOutside(len, Then(")", k1), g.range);
    }
    assert TemplateFollows(Then(")", k1));
    AtomAfterLookahead(g, secondOrder, RangeText(len, Then(")", k1)), "range",
                       Then("(", Then(Digits(len), Then(")", k1))),
                       scope, nest);
  }

  // ----- oscillators -----

  /** An oscillator's text from its coefficients on. */
  function OscFromA(o: Oscillator, k: string): string {
    var t4 := Then(" ", Then(Digits(o.k), Spell(OSC_K, k)));
    var t3 := Then(Digits(o.b), Spell(OSC_B, t4));
    Then(Digits(o.a), Spell(OSC_A, t3))
  }

  /** An oscillator's text after its two opening parentheses. */
  function OscRest(o: Oscillator, k: string): string {
    Then(Digits(o.x1), Then(",", Then(" ", Then(Digits(o.x0), Spell(OSC_SEED, OscFromA(o, k))))))
  }

  /** What a fixed stretch starts with. */
  lemma SpellBreaks(pieces: seq<string>, k: string)
    requires |pieces| > 0 && IsSymbolPiece(pieces[0])
    ensures Breaks(Spell(pieces, k))
  {
  }

  lemma FixedBreak(k: string)
    ensures Breaks(Spell(OSC_SEED, k)) && Breaks(Spell(OSC_A, k)) && Breaks(Spell(OSC_B, k)) && Breaks(Spell(OSC_K, k))
  {
    hide IsSymbolPiece, Spell, Breaks;
    SymbolPieces();
    SpellBreaks(OSC_SEED, k);
    SpellBreaks(OSC_A, k);
    SpellBreaks(OSC_B, k);
    SpellBreaks(OSC_K, k);
  }

  lemma OscStepReads(g: Limits, o: Oscillator, k: string)
    requires g.Readable() && OscWritable(g, o)
    ensures OscStep(g, o.n - 1, o.x1, o.x0, OscFromA(o, k)) == Ok((o, k))
  {
    hide IsSymbolPiece, Spell, Breaks, PiecesOk, ExpectPieces, Number, Then, Digits, Pow2;
    var t4 := Then(" ", Then(Digits(o.k), Spell(OSC_K, k)));
    var t3 := Then(Digits(o.b), Spell(OSC_B, t4));
    FixedBreak(k);
    FixedBreak(t4);
    FixedBreak(t3);
    NoDigitBreaks(Spell(OSC_A, t3));
    NoDigitBreaks(Spell(OSC_B, t4));
    NoDigitBreaks(Spell(OSC_K, k));
    NumberReads(o.a, Spell(OSC_A, t3), g.literal);
    NumberReads(o.b, Spell(OSC_B, t4), g.literal);
    NumberReads(o.k, Spell(OSC_K, k), g.oscShift);
    OscCoefficientsOk();
    OscEndOk();
    PiecesRead(OSC_A, t3);
    PiecesRead(OSC_B, t4);
    PiecesRead(OSC_K, k);
  }

  lemma OscBodyReads(g: Limits, o: Oscillator, k: string)
    requires g.Readable() && OscWritable(g, o)
    ensures OscBody(g, o.n - 1, OscRest(o, k)) == Ok((o, k))
  {
    hide Spell, ExpectPieces, Expect, Number, Then, Digits, Pow2, OscStep, OscBody, OscFromA;
    OscStepReads(g, o, k);
    var t := OscFromA(o, k);
    OscSeedReads(g, o.x1, o.x0, t);
    var s2 := Then(" ", Then(Digits(o.x0), Spell(OSC_SEED, t)));
    OscBodySteps(g, o, k, OscRest(o, k), Then(",", s2), s2, Spell(OSC_SEED, t), t);
  }

  lemma OscSeedReads(g: Limits, x1: nat, x0: nat, t: string)
    requires g.Readable() && g.literal.Has(x1) && g.literal.Has(x0)
    ensures var s2 := Then(" ", Then(Digits(x0), Spell(OSC_SEED, t)));
            && Number(Then(Digits(x1), Then(",", s2)), g.literal) == Ok((x1, Then(",", s2)))
            && Expect(Then(",", s2), ",") == Ok(s2)
            && Number(s2, g.literal) == Ok((x0, Spell(OSC_SEED, t)))
            && ExpectPieces(Spell(OSC_SEED, t), OSC_SEED) == Ok(t)
  {
    hide IsSymbolPiece, IsSymbol, Spell, Breaks, PiecesOk, ExpectPieces, Expect, Number, Then, Digits;
    var s2 := Then(" ", Then(Digits(x0), Spell(OSC_SEED, t)));
    Symbols();
    SymbolReads(",", s2);
    NoDigitBreaks(Then(",", s2));
    NumberReads(x1, Then(",", s2), g.literal);
    FixedBreak(t);
    NoDigitBreaks(Spell(OSC_SEED, t));
    NumberReads(x0, Spell(OSC_SEED, t), g.literal);
    OscSeedOk();
    PiecesRead(OSC_SEED, t);
  }

  lemma OscBodySteps(g: Limits, o: Oscillator, k: string, s: string, s1: string, s2: string, s3: string, s4: string)
    requires o.n >= 1 && g.range.Has(o.n - 1)
    requires Number(s, g.literal) == Ok((o.x1, s1)) && Expect(s1, ",") == Ok(s2)
    requires Number(s2, g.literal) == Ok((o.x0, s3))
    requires ExpectPieces(s3, OSC_SEED) == Ok(s4) && OscStep(g, o.n - 1, o.x1, o.x0, s4) == Ok((o, k))
    ensures OscBody(g, o.n - 1, s) == Ok((o, k))
  {
    hide Number, Expect, ExpectPieces, OscStep;
  }

  /** The opening's literal and comma. */
  lemma OscTailReads(o: Oscillator, k: string)
    ensures OscTail(Then(")", Then(".", Then("scan", Then("(", Then("(", OscRest(o, k))))))) == Some(OscRest(o, k))
  {
    hide IsSymbol, Eat, Then, OscTail, Skip, DigitRun, Digits, NextIs, Breaks, Spell, OscFromA;
    var t1 := Then(Digits(o.x0), Spell(OSC_SEED, OscFromA(o, k)));
    var comma := Then(",", Then(" ", t1));
    var t := OscRest(o, k);
    assert t == Then(Digits(o.x1), comma);
    Symbols();
    ScanTail(Then("(", t));
    SymbolReads("(", t);
    SymbolReads(",", Then(" ", t1));
    CommaFront(Then(" ", t1));
    DigitsFront(o.x1, comma);
    NoDigitBreaks(comma);
    DigitsSplit(o.x1, comma);
  }

  lemma CommaFront(k: string)
    ensures NextIs(Then(",", k), ',')
  {
    hide IsSymbol, Skip;
    Symbols();
    SymbolFront(",", k);
  }

  lemma OscReads(g: Limits, o: Oscillator, k: string, scope: seq<string>, nest: nat)
    requires g.Readable() && OscWritable(g, o)
    ensures Atom(g, true, ShowOsc(o, k), scope, nest) == Ok((Osc(o), k))
  {
    hide IsSymbol, Eat, Then, OscTail, OscOpening, OscBody, OscRest, Digits, Breaks, Spell;
    var t := Then(")", Then(".", Then("scan", Then("(", Then("(", OscRest(o, k))))));
    assert ShowOsc(o, k) == RangeText(o.n - 1, t) by {
      OscTextIs(o, k);
    }
    Symbols();
    SymbolReads(")", Then(".", Then("scan", Then("(", Then("(", OscRest(o, k))))));
    OpeningOfRange(o.n - 1, t);
    OscTailReads(o, k);
    OscBodyReads(g, o, k);
  }

  lemma OscTextIs(o: Oscillator, k: string)
    requires o.n >= 1
    ensures ShowOsc(o, k) == RangeText(o.n - 1, Then(")", Then(".", Then("scan", Then("(", Then("(", OscRest(o, k)))))))
  {
    hide Then, Digits, Spell;
  }

  // ----- the other atoms -----

  lemma SymbolNotRange(k: string)
    ensures OscOpening(Then("[", k)) == None && Eat(Then("[", k), "range") == None
  {
    hide IsSymbol, Then, Eat;
    Symbols();
    OtherToken("[", k, "range");
  }

  lemma FlattenNotRange(t: string)
    requires Breaks(t)
    ensures OscOpening(Then("flatten", t)) == None && Eat(Then("flatten", t), "[") == None
    ensures Ident(Then("flatten", t)) == Ok(("flatten", t))
  {
    hide IsName, Then, Eat, Ident, Breaks;
    FlattenIsName();
    RangeIsName();
    OtherWord("flatten", t, "range");
    NotASymbol("flatten", t);
    WordReads("flatten", t);
  }

  lemma RepeatReads(g: Limits, secondOrder: bool, i: IntExpr, n: nat, k: string, scope: seq<string>, nest: nat)
    requires g.Readable() && g.repeat.Has(n)
    requires var t := Then(";", Then(" ", Then(Digits(n), Then("]", k)))); ReadsInt(g, ShowInt(i, t), scope, nest, i, t)
    ensures Atom(g, secondOrder, Show(Repeat(i, n), k), scope, nest) == Ok((Repeat(i, n), k))
  {
    hide IsSymbol, Then, Eat, Expect, Int, Number, Digits, ShowInt, OscOpening, Breaks;
    var t2 := Then(" ", Then(Digits(n), Then("]", k)));
    var t1 := Then(";", t2);
    Symbols();
    SymbolReads("]", k);
    SymbolReads(";", t2);
    SymbolReads("[", ShowInt(i, t1));
    SymbolNotRange(ShowInt(i, t1));
    NoDigitBreaks(Then("]", k));
    NumberReads(n, Then("]", k), g.repeat);
    assert RepeatRest(g, ShowInt(i, t1), scope, nest) == Ok((Repeat(i, n), k));
  }

  lemma NestClosureReads(g: Limits, n: nat, v: string, m: nat, k: string)
    requires g.Readable() && IsName(v) && g.nestMod.Has(m)
    ensures NestClosure(g, n, v, NestText(v, m, k)) == Ok((Nest(v, n, m), k))
    ensures NestClosure(g, n, v, Then(" ", NestText(v, m, k))) == Ok((Nest(v, n, m), k))
  {
    hide IsSymbol, IsName, Then, Expect, Ident, Number, Digits, ShowMod, Breaks, NestClosure;
    var t4 := Then(")", Then(")", k));
    var t3 := Then(")", t4);
    var rest := Then(" ", Then("+", Then(" ", Then("1", t3))));
    var t1 := Then(v, ShowMod(m, rest));
    Symbols();
    SymbolReads(")", k);
    SymbolReads(")", Then(")", k));
    SymbolReads(")", t4);
    OneReads(t3);
    SymbolReads("+", Then(" ", Then("1", t3)));
    ModTail(m, rest, g.nestMod);
    WordReads(v, ShowMod(m, rest));
    SymbolReads("(", t1);
    RangeIsName();
    WordReads("range", Then("(", t1));
    NestSteps(g, n, v, m, NestText(v, m, k), Then("(", t1), t1, ShowMod(m, rest), Then(" ", Then(Digits(m), rest)),
              rest, Then(" ", Then("1", t3)), t3, t4, Then(")", k), k);
    NestSteps(g, n, v, m, Then(" ", NestText(v, m, k)), Then("(", t1), t1, ShowMod(m, rest),
              Then(" ", Then(Digits(m), rest)), rest, Then(" ", Then("1", t3)), t3, t4, Then(")", k), k);
  }

  lemma OneReads(k: string)
    requires Breaks(k)
    ensures Expect(Then(" ", Then("1", k)), "1") == Ok(k)
  {
    EatToken("1", k);
  }

  lemma NestSteps(g: Limits, n: nat, v: string, m: nat, s: string, s1: string, s2: string, s3: string, s4: string,
                  s5: string, s6: string, s7: string, s8: string, s9: string, k: string)
    requires Expect(s, "range") == Ok(s1) && Expect(s1, "(") == Ok(s2) && Ident(s2) == Ok((v, s3))
    requires Expect(s3, "%") == Ok(s4) && Number(s4, g.nestMod) == Ok((m, s5)) && Expect(s5, "+") == Ok(s6)
    requires Expect(s6, "1") == Ok(s7) && Expect(s7, ")") == Ok(s8) && Expect(s8, ")") == Ok(s9)
    requires Expect(s9, ")") == Ok(k)
    ensures NestClosure(g, n, v, s) == Ok((Nest(v, n, m), k))
  {
    hide Expect, Ident, Number;
  }

  lemma NestCallSteps(g: Limits, v: string, n: nat, s: string, s1: string, s2: string, s3: string, s4: string,
                      s5: string,
                      s6: string, s7: string, s8: string, s9: string)
    requires Expect(s, "(") == Ok(s1) && Number(s1, g.nestCount) == Ok((n, s2)) && Expect(s2, ")") == Ok(s3)
    requires Expect(s3, ".") == Ok(s4) && Expect(s4, "map") == Ok(s5) && Expect(s5, "(") == Ok(s6)
    requires Expect(s6, "|") == Ok(s7) && Ident(s7) == Ok((v, s8)) && Expect(s8, "|") == Ok(s9)
    ensures NestCall(g, s) == NestClosure(g, n, v, s9)
  {
    hide Expect, Ident, Number, NestClosure;
  }

  lemma NestCallReads(g: Limits, v: string, n: nat, m: nat, k: string)
    requires g.Readable() && IsName(v) && g.nestCount.Has(n) && g.nestMod.Has(m)
    ensures var closure := Then("(", Then("|", Then(v, Then("|", Then(" ", NestText(v, m, k))))));
            var s := Then("(", Then(Digits(n), Then(")", Then(".", Then("map", closure)))));
            Breaks(s) && NestCall(g, s) == Ok((Nest(v, n, m), k))
  {
    hide IsSymbol, IsName, Then, Expect, Ident, Number, Digits, NestText, Breaks, NestClosure, NestCall;
    var s9 := Then(" ", NestText(v, m, k));
    var s7 := Then(v, Then("|", s9));
    var s5 := Then("(", Then("|", s7));
    var s3 := Then(".", Then("map", s5));
    var s1 := Then(Digits(n), Then(")", s3));
    Symbols();
    SymbolReads("|", s9);
    WordReads(v, Then("|", s9));
    SymbolReads("|", s7);
    SymbolReads("(", Then("|", s7));
    MapIsName();
    WordReads("map", s5);
    SymbolReads(".", Then("map", s5));
    SymbolReads(")", s3);
    NoDigitBreaks(Then(")", s3));
    NumberReads(n, Then(")", s3), g.nestCount);
    SymbolReads("(", s1);
    NestCallSteps(g, v, n, Then("(", s1), s1, Then(")", s3), s3, Then("map", s5), s5, Then("|", s7), s7, Then("|", s9),
                  s9);
    NestClosureReads(g, n, v, m, k);
  }

  lemma NestReads(g: Limits, secondOrder: bool, v: string, n: nat, m: nat, k: string, scope: seq<string>, nest: nat)
    requires g.Readable() && IsName(v) && g.nestCount.Has(n) && g.nestMod.Has(m)
    ensures Atom(g, secondOrder, Show(Nest(v, n, m), k), scope, nest) == Ok((Nest(v, n, m), k))
  {
    hide IsSymbol, IsName, Then, Expect, Ident, Eat, Number, Digits, NestText, Breaks, NestCall, Atom, OscOpening;
    var closure := Then("(", Then("|", Then(v, Then("|", Then(" ", NestText(v, m, k))))));
    var s := Then("(", Then(Digits(n), Then(")", Then(".", Then("map", closure)))));
    NestCallReads(g, v, n, m, k);
    RangeIsName();
    WordReads("range", s);
    Symbols();
    SymbolReads("(", Then("range", s));
    var t := Then("(", Then("range", s));
    FlattenNotRange(t);
    assert Flatten(g, secondOrder, t, scope, nest) == NestCall(g, s);
    AtomAfterLookahead(g, secondOrder, Then("flatten", t), "flatten", t, scope, nest);
  }

  /** `flatten([`, then `t`, leads to a list and what comes after it. */
  lemma FlattenOpens(g: Limits, secondOrder: bool, t: string, scope: seq<string>, nest: nat)
    ensures Atom(g, secondOrder, Then("flatten", Then("(", Then("[", t))), scope, nest)
         == Flatten(g, secondOrder, Then("(", Then("[", t)), scope, nest)
    ensures Expect(Then("(", Then("[", t)), "(") == Ok(Then("[", t)) && Eat(Then("[", t), "range") == None
    ensures Expect(Then("[", t), "[") == Ok(t)
  {
    hide IsSymbol, IsName, Then, Expect, Ident, Eat, Breaks, Flatten, Atom, OscOpening;
    Symbols();
    SymbolReads("(", Then("[", t));
    SymbolReads("[", t);
    SymbolNotRange(t);
    FlattenNotRange(Then("(", Then("[", t)));
    AtomAfterLookahead(g, secondOrder, Then("flatten", Then("(", Then("[", t))), "flatten", Then("(", Then("[", t)),
                       scope, nest);
  }

  // ----- chains of method calls -----

  /** How many method calls the parser makes to read `e`. */
  function Spine(e: ListExpr): nat {
    match e
    case Map(xs, _, _) => Spine(xs) + 1
    case Scan(xs, _, _, _, _) => Spine(xs) + 1
    case Filter(xs, _, _, _) => Spine(xs) + 1
    case Reverse(xs) => Spine(xs) + 1
    case Sort(xs) => Spine(xs) + 1
    case Take(xs, _) => Spine(xs) + 1
    case Cycle(_, _, _) => 1
    case _ => 0
  }

  lemma {:induction false} SpineWithinDepth(g: Limits, e: ListExpr, d: nat)
    requires Fits(g, e, d)
    ensures Spine(e) + d <= g.maxDepth + 1
  {
    match e
    case Map(xs, _, _) => SpineWithinDepth(g, xs, d + 1);
    case Scan(xs, _, _, _, _) => SpineWithinDepth(g, xs, d + 1);
    case Filter(xs, _, _, _) => SpineWithinDepth(g, xs, d + 1);
    case Reverse(xs) => SpineWithinDepth(g, xs, d + 1);
    case Sort(xs) => SpineWithinDepth(g, xs, d + 1);
    case Take(xs, _) => SpineWithinDepth(g, xs, d + 1);
    case _ =>
  }

  lemma CallsStep(g: Limits, xs: ListExpr, e: ListExpr, t: string, k: string, scope: seq<string>, nest: nat, calls: nat)
    requires Method(g, xs, t, scope, nest) == Ok((e, k)) && calls + 1 <= g.maxNest
    ensures Calls(g, xs, Then(".", t), scope, nest, calls) == Calls(g, e, k, scope, nest, calls + 1)
  {
    hide IsSymbol, Method, Then, Eat;
    Symbols();
    SymbolReads(".", t);
  }

  /** `Chain` reads `e`'s text and goes on to the calls after it. */
  predicate ReadsChain(g: Limits, secondOrder: bool, e: ListExpr, k: string, scope: seq<string>, nest: nat) {
    Chain(g, secondOrder, Show(e, k), scope, nest) == Calls(g, e, k, scope, nest, Spine(e))
  }

  /** One more call on a chain that is read. `w` is the method's name and `t` the text after it. */
  lemma ChainStep(g: Limits, secondOrder: bool, xs: ListExpr, e: ListExpr, w: string, t: string, k: string,
                  scope: seq<string>, nest: nat)
    requires ReadsChain(g, secondOrder, xs, Then(".", Then(w, t)), scope, nest)
    requires Show(e, k) == Show(xs, Then(".", Then(w, t)))
    requires Spine(e) == Spine(xs) + 1 <= g.maxNest
    requires Method(g, xs, Then(w, t), scope, nest) == Ok((e, k))
    ensures ReadsChain(g, secondOrder, e, k, scope, nest)
  {
    hide Method, Then, Show, Spine, Chain, Calls;
    CallsStep(g, xs, e, Then(w, t), k, scope, nest, Spine(xs));
  }

  /** What reading `e` back at depth `d` asks of it. */
  predicate Sits(g: Limits, secondOrder: bool, e: ListExpr, scope: seq<string>, d: nat) {
    g.Readable() && Writable(g, e) && Closed(e, scope) && Fits(g, e, d) && (secondOrder || NoOscillator(e))
  }

  lemma {:induction false} ChainReads(g: Limits, secondOrder: bool, e: ListExpr, k: string, scope: seq<string>,
                                      nest: nat,
                                      d: nat)
    requires Sits(g, secondOrder, e, scope, d) && nest <= d + 1 && !OscFollows(k)
    ensures ReadsChain(g, secondOrder, e, k, scope, nest)
    decreases e, 2
  {
    hide ReadsChain, OscFollows;
    if IsCall(e) {
      hide Sits;
      CallChain(g, secondOrder, e, k, scope, nest, d);
    } else if e.Cycle? {
      CycleChain(g, secondOrder, e, k, scope, nest, d);
    } else {
      hide Atom, Show, Spine;
      AtomReads(g, secondOrder, e, k, scope, nest, d);
      AtomChain(g, secondOrder, e, k, scope, nest);
    }
  }

  lemma {:induction false} AtomReads(g: Limits, secondOrder: bool, e: ListExpr, k: string, scope: seq<string>,
                                     nest: nat,
                                     d: nat)
    requires Sits(g, secondOrder, e, scope, d) && nest <= d + 1 && !OscFollows(k) && !IsCall(e) && !e.Cycle?
    ensures Atom(g, secondOrder, Show(e, k), scope, nest) == Ok((e, k)) && Spine(e) == 0
    decreases e, 1
  {
    hide OscFollows, Then, Digits, IsName, ShowInt, Atom;
    match e
    case Range(n) =>
      RangeReads(g, secondOrder, n, k, scope, nest);
    case Repeat(i, n) =>
      var t := Then(";", Then(" ", Then(Digits(n), Then("]", k))));
      SemicolonBreaks(Then(" ", Then(Digits(n), Then("]", k))));
      IntReads(g, i, t, scope, nest, d + 1);
      RepeatReads(g, secondOrder, i, n, k, scope, nest);
    case Nest(v, n, m) =>
      NestReads(g, secondOrder, v, n, m, k, scope, nest);
    case Osc(o) =>
      OscReads(g, o, k, scope, nest);
    case Concat(l, r) =>
      ConcatReads(g, secondOrder, l, r, k, scope, nest, d);
    case Copy(xs, n) =>
      CopyReads(g, secondOrder, xs, n, k, scope, nest, d);
    case _ =>
  }

  lemma SemicolonBreaks(k: string)
    ensures Breaks(Then(";", k)) && Breaks(Then("(", k)) && Breaks(Then(")", k))
  {
    hide IsSymbol;
    Symbols();
    SymbolFront(";", k);
    SymbolFront("(", k);
    SymbolFront(")", k);
  }

  lemma AtomChain(g: Limits, secondOrder: bool, e: ListExpr, k: string, scope: seq<string>, nest: nat)
    requires Atom(g, secondOrder, Show(e, k), scope, nest) == Ok((e, k)) && Spine(e) == 0
    ensures ReadsChain(g, secondOrder, e, k, scope, nest)
  {
    hide Atom, Show, Calls, Spine;
  }

  lemma CycleChain(g: Limits, secondOrder: bool, e: ListExpr, k: string, scope: seq<string>, nest: nat, d: nat)
    requires Sits(g, secondOrder, e, scope, d) && e.Cycle?
    ensures ReadsChain(g, secondOrder, e, k, scope, nest)
  {
    hide Sits, Atom, Calls, Method, Then, Digits, TemplateText, TemplateBegins, OscFollows, IsName, ElemWritable,
         IntClosed;
    var t := TemplateText(e.v, e.elems, k);
    SitsCycle(g, secondOrder, e, scope, d);
    CycleReads(g, e.v, e.elems, e.len, k, scope, nest);
    CycleNoOsc(e.v, e.elems, k);
    CycleAtomReads(g, secondOrder, e.v, e.elems, e.len, k, scope, nest);
    CallsStep(g, Range(e.len), e, t, k, scope, nest, 0);
    CycleChainEnds(g, secondOrder, e, k, scope, nest);
  }

  lemma SitsCycle(g: Limits, secondOrder: bool, e: ListExpr, scope: seq<string>, d: nat)
    requires Sits(g, secondOrder, e, scope, d) && e.Cycle?
    ensures g.Readable() && IsName(e.v) && g.cycleElems.Has(|e.elems|) && g.cycleLen.Has(e.len)
    ensures forall i :: 0 <= i < |e.elems| ==> ElemWritable(g, e.elems[i]) && IntClosed(e.elems[i], scope)
  {
    hide ElemWritable, IntClosed, IsName;
  }

  lemma CycleChainEnds(g: Limits, secondOrder: bool, e: ListExpr, k: string, scope: seq<string>, nest: nat)
    requires e.Cycle?
    requires var k1 := Then(".", TemplateText(e.v, e.elems, k));
             && Atom(g, secondOrder, RangeText(e.len, Then(")", k1)), scope, nest) == Ok((Range(e.len), k1))
             && Calls(g, Range(e.len), k1, scope, nest, 0) == Calls(g, e, k, scope, nest, 1)
    ensures ReadsChain(g, secondOrder, e, k, scope, nest)
  {
    hide Atom, Calls, Then, Digits, TemplateText;
  }

  lemma CycleNoOsc(v: string, elems: seq<IntExpr>, k: string)
    ensures !OscFollows(Then(".", TemplateText(v, elems, k)))
  {
    hide IsName, Then, Breaks, OscFollows, ShowElems, TemplateEnd;
    var t := Then("|", Then(v, Then("|", Then(" ", Then("[", ShowElems(elems, TemplateEnd(v, |elems|, k)))))));
    SemicolonBreaks(t);
    MapIsName();
    OtherMethodNoOsc("map", Then("(", t));
  }

  predicate IsCall(e: ListExpr) {
    e.Map? || e.Scan? || e.Filter? || e.Reverse? || e.Sort? || e.Take?
  }

  function CallName(e: ListExpr): string
    requires IsCall(e)
  {
    if e.Map? then "map" else if e.Scan? then "scan" else if e.Filter? then "filter"
    else if e.Reverse? then "reverse" else if e.Sort? then "sort" else "take"
  }

  /** The text of a call after its name. */
  function CallArgs(e: ListExpr, k: string): string
    requires IsCall(e)
  {
    match e
    case Map(_, v, body) => Then("(", Then("|", Then(v, Then("|", Then(" ", ShowInt(body, Then(")", k)))))))
    case Scan(_, init, a, x, body) => Then("(", ShowInt(init, ScanBinders(a, x, body, k)))
    case Filter(_, v, m, r) => Then("(", Then("|", Then(v, FilterTestText(v, m, r, k))))
    case Take(_, n) => Then("(", Then(Digits(n), Then(")", k)))
    case _ => Then("(", Then(")", k))
  }

  lemma CallShows(e: ListExpr, k: string)
    requires IsCall(e)
    ensures Show(e, k) == Show(e.xs, Then(".", Then(CallName(e), CallArgs(e, k))))
    ensures Breaks(CallArgs(e, k))
  {
    hide Then, ShowInt, Digits, Breaks, FilterTestText, ScanBinders;
    match e
    case Map(_, v, body) => SemicolonBreaks(Then("|", Then(v, Then("|", Then(" ", ShowInt(body, Then(")", k)))))));
    case Scan(_, init, a, x, body) => SemicolonBreaks(ShowInt(init, ScanBinders(a, x, body, k)));
    case Filter(_, v, m, r) => SemicolonBreaks(Then("|", Then(v, FilterTestText(v, m, r, k))));
    case Take(_, n) => SemicolonBreaks(Then(Digits(n), Then(")", k)));
    case _ => SemicolonBreaks(Then(")", k));
  }

  lemma CallNoOsc(g: Limits, e: ListExpr, k: string)
    requires IsCall(e) && Writable(g, e)
    ensures !OscFollows(Then(".", Then(CallName(e), CallArgs(e, k))))
    ensures Ident(Then(CallName(e), CallArgs(e, k))) == Ok((CallName(e), CallArgs(e, k)))
  {
    CallShows(e, k);
    hide Then, Breaks, OscFollows, CallArgs, IsName, Ident;
    CallNamed(e);
    WordReads(CallName(e), CallArgs(e, k));
    if e.Scan? {
      ScanNoOsc(g, e.init, ScanBinders(e.a, e.x, e.body, k));
      assert CallArgs(e, k) == Then("(", ShowInt(e.init, ScanBinders(e.a, e.x, e.body, k))) by {
        ScanArgs(e, k);
      }
    } else {
      OtherMethodNoOsc(CallName(e), CallArgs(e, k));
    }
  }

  lemma ScanArgs(e: ListExpr, k: string)
    requires e.Scan?
    ensures CallArgs(e, k) == Then("(", ShowInt(e.init, ScanBinders(e.a, e.x, e.body, k)))
  {
  }

  lemma CallNamed(e: ListExpr)
    requires IsCall(e)
    ensures IsName(CallName(e)) && (!e.Scan? ==> CallName(e) != "scan")
  {
    hide IsName;
    Names();
    MethodNames();
  }

  lemma MapMethodReads(g: Limits, secondOrder: bool, e: ListExpr, k: string, scope: seq<string>, nest: nat, d: nat)
    requires Sits(g, secondOrder, e, scope, d) && e.Map? && nest <= d + 1
    ensures MapCall(g, e.xs, CallArgs(e, k), scope, nest) == Ok((e, k))
  {
    hide Then, Breaks, ReadsInt, MapCall, ShowInt, IsName;
    SemicolonBreaks(k);
    IntReads(g, e.body, Then(")", k), scope + [e.v], nest, d + 1);
    MapReads(g, e.xs, e.v, e.body, k, scope, nest);
  }

  lemma ScanMethodReads(g: Limits, secondOrder: bool, e: ListExpr, k: string, scope: seq<string>, nest: nat, d: nat)
    requires Sits(g, secondOrder, e, scope, d) && e.Scan? && nest <= d + 1
    ensures ScanCall(g, e.xs, CallArgs(e, k), scope, nest) == Ok((e, k))
  {
    hide Then, Breaks, ReadsInt, ScanCall, ShowInt, IsName, ScanBinders;
    SemicolonBreaks(k);
    IntReads(g, e.body, Then(")", k), scope + [e.a, e.x], nest, d + 1);
    BindersBreak(e.a, e.x, e.body, k);
    IntReads(g, e.init, ScanBinders(e.a, e.x, e.body, k), scope, nest, d + 1);
    ScanReads(g, e.xs, e.init, e.a, e.x, e.body, k, scope, nest);
  }

  lemma PlainMethodReads(g: Limits, secondOrder: bool, e: ListExpr, k: string, scope: seq<string>, d: nat)
    requires Sits(g, secondOrder, e, scope, d) && IsCall(e)
    ensures e.Filter? ==> FilterCall(g, e.xs, CallArgs(e, k)) == Ok((e, k))
    ensures e.Take? ==> TakeCall(g, e.xs, CallArgs(e, k)) == Ok((e, k))
    ensures e.Reverse? || e.Sort? ==> BareCall(e, CallArgs(e, k)) == Ok((e, k))
  {
    hide Then, FilterCall, TakeCall, BareCall, Digits, FilterTestText, IsName;
    match e
    case Filter(xs, v, m, r) => FilterReads(g, xs, v, m, r, k);
    case Take(xs, n) => TakeReads(g, xs, n, k);
    case _ => BareReads(e, k);
  }

  lemma MethodReads(g: Limits, secondOrder: bool, e: ListExpr, k: string, scope: seq<string>, nest: nat, d: nat)
    requires Sits(g, secondOrder, e, scope, d) && IsCall(e) && nest <= d + 1
    ensures Method(g, e.xs, Then(CallName(e), CallArgs(e, k)), scope, nest) == Ok((e, k))
  {
    CallNoOsc(g, e, k);
    hide Sits, Then, Ident, Method, ScanCall, MapCall, FilterCall, TakeCall, BareCall, CallArgs, OscFollows;
    var t := CallArgs(e, k);
    Dispatch(g, e.xs, Then(CallName(e), t), t, scope, nest);
    if e.Map? {
      MapMethodReads(g, secondOrder, e, k, scope, nest, d);
    } else if e.Scan? {
      ScanMethodReads(g, secondOrder, e, k, scope, nest, d);
    } else {
      PlainMethodReads(g, secondOrder, e, k, scope, d);
    }
  }

  lemma BindersBreak(a: string, x: string, body: IntExpr, k: string)
    ensures Breaks(ScanBinders(a, x, body, k))
  {
    hide IsSymbol, ShowInt;
    Symbols();
    var rest := Then(x, Then("|", Then(" ", ShowInt(body, Then(")", k)))));
    SymbolFront(",", Then(" ", Then("|", Then(a, Then(",", Then(" ", rest))))));
  }

  lemma SitsInCall(g: Limits, secondOrder: bool, e: ListExpr, scope: seq<string>, d: nat)
    requires Sits(g, secondOrder, e, scope, d) && IsCall(e)
    ensures Writable(g, e) && Sits(g, secondOrder, e.xs, scope, d + 1)
    ensures Spine(e) == Spine(e.xs) + 1 <= g.maxNest
  {
    SpineWithinDepth(g, e, d);
  }

  lemma {:induction false} CallChain(g: Limits, secondOrder: bool, e: ListExpr, k: string, scope: seq<string>,
                                     nest: nat,
                                     d: nat)
    requires Sits(g, secondOrder, e, scope, d) && nest <= d + 1 && IsCall(e)
    ensures ReadsChain(g, secondOrder, e, k, scope, nest)
    decreases e, 0
  {
    hide Sits, Writable, ReadsChain, OscFollows, Then, CallName, CallArgs, Show, Spine, Method;
    var t := CallArgs(e, k);
    SitsInCall(g, secondOrder, e, scope, d);
    CallShows(e, k);
    CallNoOsc(g, e, k);
    MethodReads(g, secondOrder, e, k, scope, nest, d);
    ChainReads(g, secondOrder, e.xs, Then(".", Then(CallName(e), t)), scope, nest, d + 1);
    ChainStep(g, secondOrder, e.xs, e, CallName(e), t, k, scope, nest);
  }

  // ----- lists in lists -----

  /** `List` reads `e` from its text, and does so after a blank too. */
  predicate ReadsList(g: Limits, secondOrder: bool, e: ListExpr, k: string, scope: seq<string>, nest: nat) {
    && List(g, secondOrder, Show(e, k), scope, nest) == Ok((e, k))
    && List(g, secondOrder, Then(" ", Show(e, k)), scope, nest) == Ok((e, k))
  }

  lemma OpeningSkips(s: string, s': string)
    requires Skip(s) == Skip(s')
    ensures OscOpening(s) == OscOpening(s') && Ident(s) == Ident(s')
  {
    hide Skip, Eat, OscTail, DigitRun, Value, WordRun;
    EatSkips(s, s', "range");
  }

  /** Only what comes after white space matters to `List`. */
  lemma ListSkips(g: Limits, secondOrder: bool, s: string, s': string, scope: seq<string>, nest: nat)
    requires Skip(s) == Skip(s')
    ensures List(g, secondOrder, s, scope, nest) == List(g, secondOrder, s', scope, nest)
  {
    hide Skip, Eat, Flatten, RangeCall, RepeatRest, Calls, OscBody, OscOpening, Ident;
    OpeningSkips(s, s');
    EatSkips(s, s', "[");
    assert Atom(g, secondOrder, s, scope, nest + 1) == Atom(g, secondOrder, s', scope, nest + 1);
  }

  lemma SitsBelowNest(g: Limits, secondOrder: bool, e: ListExpr, scope: seq<string>, d: nat)
    requires Sits(g, secondOrder, e, scope, d)
    ensures d < g.maxNest
  {
    hide Writable, Closed, NoOscillator;
  }

  lemma ListOfChain(g: Limits, secondOrder: bool, e: ListExpr, k: string, scope: seq<string>, nest: nat)
    requires ReadsChain(g, secondOrder, e, k, scope, nest + 1) && nest < g.maxNest && Eat(k, ".") == None
    ensures List(g, secondOrder, Show(e, k), scope, nest) == Ok((e, k))
  {
    hide Show, Spine, Chain, Eat;
  }

  lemma {:induction false} ListReads(g: Limits, secondOrder: bool, e: ListExpr, k: string, scope: seq<string>,
                                     nest: nat,
                                     d: nat)
    requires Sits(g, secondOrder, e, scope, d) && nest <= d && Eat(k, ".") == None
    ensures ReadsList(g, secondOrder, e, k, scope, nest)
    decreases e, 3
  {
    hide Sits, Show, ReadsChain, Eat, Skip, OscFollows, Then, List;
    NoDotNoOsc(k);
    SitsBelowNest(g, secondOrder, e, scope, d);
    ChainReads(g, secondOrder, e, k, scope, nest + 1, d);
    ListOfChain(g, secondOrder, e, k, scope, nest);
    BlankSkip(Show(e, k));
    ListSkips(g, secondOrder, Then(" ", Show(e, k)), Show(e, k), scope, nest);
  }

  lemma BlankSkip(s: string)
    ensures Skip(Then(" ", s)) == Skip(s)
  {
    SkipBlank(s);
  }

  lemma SitsConcat(g: Limits, secondOrder: bool, l: ListExpr, r: ListExpr, scope: seq<string>, d: nat)
    requires Sits(g, secondOrder, Concat(l, r), scope, d)
    ensures Sits(g, secondOrder, l, scope, d + 1) && Sits(g, secondOrder, r, scope, d + 1)
  {
  }

  lemma SitsCopy(g: Limits, secondOrder: bool, xs: ListExpr, n: nat, scope: seq<string>, d: nat)
    requires Sits(g, secondOrder, Copy(xs, n), scope, d)
    ensures Sits(g, secondOrder, xs, scope, d + 1) && g.copy.Has(n) && n <= U64_MAX
  {
  }

  lemma {:induction false} ConcatReads(g: Limits, secondOrder: bool, l: ListExpr, r: ListExpr, k: string,
                                       scope: seq<string>,
                                       nest: nat, d: nat)
    requires Sits(g, secondOrder, Concat(l, r), scope, d)
    requires nest <= d + 1
    ensures Atom(g, secondOrder, Show(Concat(l, r), k), scope, nest) == Ok((Concat(l, r), k))
    decreases Concat(l, r), 0
  {
    hide IsSymbol, Then, Eat, Expect, Atom, List, ReadsList, Sits;
    SitsConcat(g, secondOrder, l, r, scope, d);
    var k2 := Then("]", Then(")", k));
    var t2 := Show(r, k2);
    var k1 := Then(",", Then(" ", t2));
    var t1 := Show(l, k1);
    Symbols();
    SymbolReads(")", k);
    SymbolReads("]", Then(")", k));
    OtherToken("]", Then(")", k), ".");
    SymbolReads(",", Then(" ", t2));
    OtherToken(",", Then(" ", t2), ".");
    ListReads(g, secondOrder, l, k1, scope, nest, d + 1);
    ListReads(g, secondOrder, r, k2, scope, nest, d + 1);
    FlattenOpens(g, secondOrder, t1, scope, nest);
    ConcatSteps(g, secondOrder, l, r, k, scope, nest);
  }

  lemma ConcatSteps(g: Limits, secondOrder: bool, l: ListExpr, r: ListExpr, k: string, scope: seq<string>, nest: nat)
    requires var k2 := Then("]", Then(")", k));
             var k1 := Then(",", Then(" ", Show(r, k2)));
             var t1 := Show(l, k1);
             && ReadsList(g, secondOrder, l, k1, scope, nest) && ReadsList(g, secondOrder, r, k2, scope, nest)
             && Expect(Then("(", Then("[", t1)), "(") == Ok(Then("[", t1)) && Eat(Then("[", t1), "range") == None
             && Expect(Then("[", t1), "[") == Ok(t1) && Eat(k1, ",") == Some(Then(" ", Show(r, k2)))
             && Expect(k2, "]") == Ok(Then(")", k)) && Expect(Then(")", k), ")") == Ok(k)
    ensures var t1 := Show(l, Then(",", Then(" ", Show(r, Then("]", Then(")", k))))));
            Flatten(g, secondOrder, Then("(", Then("[", t1)), scope, nest) == Ok((Concat(l, r), k))
  {
    hide Then, Eat, Expect, List, Show;
  }

  lemma {:induction false} CopyReads(g: Limits, secondOrder: bool, xs: ListExpr, n: nat, k: string, scope: seq<string>,
                                     nest: nat, d: nat)
    requires Sits(g, secondOrder, Copy(xs, n), scope, d)
    requires nest <= d + 1
    ensures Atom(g, secondOrder, Show(Copy(xs, n), k), scope, nest) == Ok((Copy(xs, n), k))
    decreases Copy(xs, n), 0
  {
    hide IsSymbol, Then, Eat, Expect, Atom, List, ReadsList, Digits, Number, Breaks, Sits;
    SitsCopy(g, secondOrder, xs, n, scope, d);
    var k2 := Then("]", Then(")", k));
    var t2 := Then(Digits(n), k2);
    var k1 := Then(";", Then(" ", t2));
    var t1 := Show(xs, k1);
    Symbols();
    SymbolReads(")", k);
    SymbolReads("]", Then(")", k));
    SymbolReads(";", Then(" ", t2));
    OtherToken(";", Then(" ", t2), ".");
    OtherToken(";", Then(" ", t2), ",");
    NoDigitBreaks(k2);
    NumberReads(n, k2, g.copy);
    ListReads(g, secondOrder, xs, k1, scope, nest, d + 1);
    FlattenOpens(g, secondOrder, t1, scope, nest);
    CopySteps(g, secondOrder, xs, n, k, scope, nest);
  }

  lemma CopySteps(g: Limits, secondOrder: bool, xs: ListExpr, n: nat, k: string, scope: seq<string>, nest: nat)
    requires var k2 := Then("]", Then(")", k));
             var k1 := Then(";", Then(" ", Then(Digits(n), k2)));
             var t1 := Show(xs, k1);
             && ReadsList(g, secondOrder, xs, k1, scope, nest)
             && Expect(Then("(", Then("[", t1)), "(") == Ok(Then("[", t1)) && Eat(Then("[", t1), "range") == None
             && Expect(Then("[", t1), "[") == Ok(t1) && Eat(k1, ",") == None
             && Expect(k1, ";") == Ok(Then(" ", Then(Digits(n), k2)))
             && Number(Then(" ", Then(Digits(n), k2)), g.copy) == Ok((n, k2))
             && Expect(k2, "]") == Ok(Then(")", k)) && Expect(Then(")", k), ")") == Ok(k)
    ensures var t1 := Show(xs, Then(";", Then(" ", Then(Digits(n), Then("]", Then(")", k))))));
            Flatten(g, secondOrder, Then("(", Then("[", t1)), scope, nest) == Ok((Copy(xs, n), k))
  {
    hide Then, Eat, Expect, List, Show, Number, Digits;
  }

  // ----- whole programs -----

  lemma HeaderFront(k: string)
    ensures NextIs(Spell(HEADER, k), '@')
  {
    assert Spell(HEADER, k) == Then("@role", Spell(HEADER[1..], k));
    AtRole(Spell(HEADER[1..], k));
  }

  lemma AtRole(k: string)
    ensures NextIs(Then("@role", k), '@')
  {
    SkipNothing(Then("@role", k));
  }

  lemma {:induction false} ShowFront(e: ListExpr, k: string)
    ensures !NextIs(Show(e, k), '@')
  {
    hide Then, NextIs, Digits, ShowInt, Spell, ShowElems, IsName, IsSymbol, CallArgs, CallName;
    if IsCall(e) {
      CallShows(e, k);
      ShowFront(e.xs, Then(".", Then(CallName(e), CallArgs(e, k))));
    } else {
      RangeIsName();
      FlattenIsName();
      Symbols();
      FrontNotAt(e, k);
    }
  }

  lemma FrontNotAt(e: ListExpr, k: string)
    requires !IsCall(e)
    ensures !NextIs(Show(e, k), '@')
  {
    hide Then, NextIs, Digits, ShowInt, Spell, ShowElems, TemplateText, NestText;
    match e
    case Repeat(i, n) => BracketFront(ShowInt(i, Then(";", Then(" ", Then(Digits(n), Then("]", k))))));
    case Range(n) => WordFront(Then("(", Then(Digits(n), Then(")", k))));
    case Cycle(v, elems, len) =>
      WordFront(Then("(", Then(Digits(len), Then(")", Then(".", TemplateText(v, elems, k))))));
    case Nest(v, n, m) =>
      var closure := Then("(", Then("|", Then(v, Then("|", Then(" ", NestText(v, m, k))))));
      WordFront(Then("(", Then("range", Then("(", Then(Digits(n), Then(")", Then(".", Then("map", closure))))))));
    case Concat(l, r) =>
      WordFront(Then("(", Then("[", Show(l, Then(",", Then(" ", Show(r, Then("]", Then(")", k)))))))));
    case Copy(xs, n) =>
      WordFront(Then("(", Then("[", Show(xs, Then(";", Then(" ", Then(Digits(n), Then("]", Then(")", k)))))))));
    case Osc(o) => OscFront(o, k);
  }

  lemma OscFront(o: Oscillator, k: string)
    ensures !NextIs(ShowOsc(o, k), '@')
  {
    hide NextIs, Then, Digits, Spell;
    var t4 := Then(" ", Then(Digits(o.k), Spell(OSC_K, k)));
    var t3 := Then(Digits(o.b), Spell(OSC_B, t4));
    var t2 := Then(Digits(o.a), Spell(OSC_A, t3));
    var t1 := Then(Digits(o.x0), Spell(OSC_SEED, t2));
    var t0 := Then(Digits(o.x1), Then(",", Then(" ", t1)));
    WordFront(Then("(", Then(Digits(Before(o.n)), Then(")", Then(".", Then("scan", Then("(", Then("(", t0))))))));
  }

  lemma BracketFront(k: string)
    ensures !NextIs(Then("[", k), '@')
  {
    SkipNothing(Then("[", k));
  }

  lemma WordFront(k: string)
    ensures !NextIs(Then("range", k), '@') && !NextIs(Then("flatten", k), '@')
  {
    SkipNothing(Then("range", k));
    SkipNothing(Then("flatten", k));
  }

  lemma FooterReads()
    ensures var k := Then("\n", Then("}", "\n")); Eat(k, ".") == None && Expect(k, "}") == Ok("\n") && Skip("\n") == ""
    ensures Eat("", ".") == None && Skip("") == ""
  {
    hide IsSymbol;
    Symbols();
    var t := Then("}", "\n");
    SymbolFront("}", "\n");
    SkipSpaces("\n", t);
    SkipSpaces("\n", "");
    assert "\n" + "" == "\n";
    SymbolReads("}", "\n");
    EatSkips(Then("\n", t), t, "}");
    EatSkips(Then("\n", t), t, ".");
    OtherToken("}", "\n", ".");
  }

  lemma MarginSkips(s: string)
    ensures Skip(Then("\n    ", s)) == Skip(s)
  {
    SkipSpaces("\n    ", s);
  }

  lemma WellFormedSits(g: Limits, secondOrder: bool, e: ListExpr)
    requires g.Readable() && WellFormed(g, secondOrder, e)
    ensures Sits(g, secondOrder, e, TOP_SCOPE, 0) && Fits(g, e, 0)
  {
    hide Writable, Closed, NoOscillator, Fits;
  }

  lemma BodyOfSource(g: Limits, secondOrder: bool, e: ListExpr)
    requires Sits(g, secondOrder, e, TOP_SCOPE, 0)
    ensures Body(g, secondOrder, Source(e)) == Ok((e, "\n"))
  {
    hide Then, Show, List, ExpectPieces, Spell, NextIs, Skip, Eat, Expect, PiecesOk, Sits;
    var k := Then("\n", Then("}", "\n"));
    var t := Then("\n    ", Show(e, k));
    FooterReads();
    ListReads(g, secondOrder, e, k, TOP_SCOPE, 0, 0);
    MarginSkips(Show(e, k));
    ListSkips(g, secondOrder, t, Show(e, k), TOP_SCOPE, 0);
    HeaderFront(t);
    HeaderOk();
    PiecesRead(HEADER, t);
  }

  lemma BodyOfText(g: Limits, secondOrder: bool, e: ListExpr)
    requires Sits(g, secondOrder, e, TOP_SCOPE, 0)
    ensures Body(g, secondOrder, BodyText(e)) == Ok((e, ""))
  {
    hide Then, Show, List, ExpectPieces, Spell, NextIs, Skip, Eat, Expect, Sits;
    FooterReads();
    ListReads(g, secondOrder, e, "", TOP_SCOPE, 0, 0);
    ShowFront(e, "");
  }

  /** `parse(source(p)) == Ok(p)`, for every well-formed program, from the whole source and from
      the bare body. */
  lemma ParseInvertsSource(g: Limits, secondOrder: bool, e: ListExpr)
    requires g.Readable() && WellFormed(g, secondOrder, e)
    ensures Parse(g, secondOrder, Source(e)) == Ok(e)
    ensures Parse(g, secondOrder, BodyText(e)) == Ok(e)
  {
    hide WellFormed, Sits, Fits, Body, Source, BodyText;
    WellFormedSits(g, secondOrder, e);
    BodyOfSource(g, secondOrder, e);
    BodyOfText(g, secondOrder, e);
    FooterReads();
  }
}
