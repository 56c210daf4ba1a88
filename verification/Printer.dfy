/** The MAGE source a tree denotes. The printers write an expression in front of the text `k`
    that follows it. */
module Printer {
  import opened Text
  import opened Grammar

  // ----- fixed stretches of text -----

  /** A piece is a token, after at most one white-space character. */
  function Bare(piece: string): string {
    if |piece| > 0 && IsSpace(piece[0]) then piece[1..] else piece
  }

  function Bares(pieces: seq<string>): seq<string> {
    if pieces == [] then [] else [Bare(pieces[0])] + Bares(pieces[1..])
  }

  function Spell(pieces: seq<string>, k: string): string {
    if pieces == [] then k else Then(pieces[0], Spell(pieces[1..], k))
  }

  const HEADER: seq<string> :=
    ["@role", "(", "candidate", ")", "\nf", " gen", "(", "s", ":", " usize", ")", " ->", " [", "usize", "]", " {"]

  const OSC_SEED: seq<string> := [")", ",", " |", "p", ",", " v", "|", " {", " val", " (", "c", ",", " q", ")", " =",
                                  " p", ";", " (", "(", "wrapping_sub", "(", "wrapping_mul", "("]
  const OSC_A: seq<string> := [",", " c", ")", ",", " wrapping_mul", "("]
  const OSC_B: seq<string> := [",", " q", ")", ")", " >>"]
  const OSC_K: seq<string> := [")", ",", " c", ")", " }", ")", ".", "map", "(", "|", "p", "|", " {", " val", " (", "c",
                               ",", " q", ")", " =", " p", ";", " c", " }", ")"]

  // ----- expressions -----

  /** ` % m`, then `k`. */
  function ShowMod(m: nat, k: string): string {
    Then(" ", Then("%", Then(" ", Then(Digits(m), k))))
  }

  function ShowInt(e: IntExpr, k: string): string
    decreases e
  {
    match e
    case Lit(n) => Then(Digits(n), k)
    case Var(v) => Then(v, k)
    case Add(l, r) =>
      Then("wrapping_add", Then("(", ShowInt(l, Then(",", Then(" ", ShowInt(r, Then(")", k)))))))
    case Sub(l, r) =>
      Then("wrapping_sub", Then("(", ShowInt(l, Then(",", Then(" ", ShowInt(r, Then(")", k)))))))
    case Mul(l, r) =>
      Then("wrapping_mul", Then("(", ShowInt(l, Then(",", Then(" ", ShowInt(r, Then(")", k)))))))
    case Mod(a, m) =>
      Then("(", ShowInt(a, ShowMod(m, Then(")", k))))
  }

  /** Template elements, separated by commas. */
  function ShowElems(es: seq<IntExpr>, k: string): string {
    if es == [] then k
    else if |es| == 1 then ShowInt(es[0], k)
    else ShowInt(es[0], Then(",", Then(" ", ShowElems(es[1..], k))))
  }

  /** `n - 1` on `u64`, which wraps at zero. */
  function Before(n: nat): nat {
    if n == 0 then U64_MAX else n - 1
  }

  function ShowOsc(o: Oscillator, k: string): string {
    var t4 := Then(" ", Then(Digits(o.k), Spell(OSC_K, k)));
    var t3 := Then(Digits(o.b), Spell(OSC_B, t4));
    var t2 := Then(Digits(o.a), Spell(OSC_A, t3));
    var t1 := Then(Digits(o.x0), Spell(OSC_SEED, t2));
    var t0 := Then(Digits(o.x1), Then(",", Then(" ", t1)));
    Then("range", Then("(", Then(Digits(Before(o.n)), Then(")", Then(".", Then("scan", Then("(", Then("(", t0))))))))
  }

  /** `, |a, x| body)`. */
  function ScanBinders(a: string, x: string, body: IntExpr, k: string): string {
    var rest := Then(x, Then("|", Then(" ", ShowInt(body, Then(")", k)))));
    Then(",", Then(" ", Then("|", Then(a, Then(",", Then(" ", rest))))))
  }

  /** ` == r)`. */
  function ShowRemainder(r: nat, k: string): string {
    Then(" ", Then("==", Then(" ", Then(Digits(r), Then(")", k)))))
  }

  /** `| v % m == r)`. */
  function FilterTestText(v: string, m: nat, r: nat, k: string): string {
    Then("|", Then(" ", Then(v, ShowMod(m, ShowRemainder(r, k)))))
  }

  /** `][v % n])`: how a template ends. */
  function TemplateEnd(v: string, n: nat, k: string): string {
    Then("]", Then("[", Then(v, ShowMod(n, Then("]", Then(")", k))))))
  }

  /** `map(|v| [e, ...][v % n])`: a template, after its dot. */
  function TemplateText(v: string, elems: seq<IntExpr>, k: string): string {
    Then("map", Then("(", Then("|", Then(v, Then("|", Then(" ", Then("[",
         ShowElems(elems, TemplateEnd(v, |elems|, k)))))))))
  }

  /** `range(v % m + 1)))`: what nested counting maps. */
  function NestText(v: string, m: nat, k: string): string {
    var rest := Then(" ", Then("+", Then(" ", Then("1", Then(")", Then(")", Then(")", k)))))));
    Then("range", Then("(", Then(v, ShowMod(m, rest))))
  }

  function Show(e: ListExpr, k: string): string
    decreases e
  {
    match e
    case Range(n) => Then("range", Then("(", Then(Digits(n), Then(")", k))))
    case Repeat(i, n) => Then("[", ShowInt(i, Then(";", Then(" ", Then(Digits(n), Then("]", k))))))
    case Map(xs, v, body) =>
      var rest := Then("|", Then(" ", ShowInt(body, Then(")", k))));
      Show(xs, Then(".", Then("map", Then("(", Then("|", Then(v, rest))))))
    case Scan(xs, init, a, x, body) =>
      Show(xs, Then(".", Then("scan", Then("(", ShowInt(init, ScanBinders(a, x, body, k))))))
    case Filter(xs, v, m, r) =>
      Show(xs, Then(".", Then("filter", Then("(", Then("|", Then(v, FilterTestText(v, m, r, k)))))))
    case Reverse(xs) => Show(xs, Then(".", Then("reverse", Then("(", Then(")", k)))))
    case Sort(xs) => Show(xs, Then(".", Then("sort", Then("(", Then(")", k)))))
    case Take(xs, n) => Show(xs, Then(".", Then("take", Then("(", Then(Digits(n), Then(")", k))))))
    case Concat(l, r) =>
      var rest := Show(r, Then("]", Then(")", k)));
      Then("flatten", Then("(", Then("[", Show(l, Then(",", Then(" ", rest))))))
    case Copy(xs, n) =>
      var rest := Then(Digits(n), Then("]", Then(")", k)));
      Then("flatten", Then("(", Then("[", Show(xs, Then(";", Then(" ", rest))))))
    case Cycle(v, elems, len) =>
      Then("range", Then("(", Then(Digits(len), Then(")", Then(".", TemplateText(v, elems, k))))))
    case Nest(v, n, m) =>
      var closure := Then("(", Then("|", Then(v, Then("|", Then(" ", NestText(v, m, k))))));
      Then("flatten", Then("(", Then("range", Then("(", Then(Digits(n), Then(")", Then(".", Then("map", closure))))))))
    case Osc(o) => ShowOsc(o, k)
  }

  // ----- whole programs -----

  /** The body expression alone. */
  function BodyText(e: ListExpr): string {
    Show(e, "")
  }

  /** `Program::source`. */
  function Source(e: ListExpr): string {
    Spell(HEADER, Then("\n    ", Show(e, Then("\n", Then("}", "\n")))))
  }
}
