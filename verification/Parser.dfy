/** The arena's hand-written parser: a position in a text and a nesting level, which every method
    updates. `Reading` says what each method reads and leaves. */
module Parsing {
  import opened Wrappers
  import opened Text
  import opened Grammar
  import opened Printer
  import R = Reading

  class Parser {
    const g: Limits
    const src: string
    const secondOrder: bool
    var pos: nat
    var nest: nat

    constructor (g: Limits, src: string, secondOrder: bool)
      ensures this.g == g && this.src == src && this.secondOrder == secondOrder
      ensures Valid() && Rest() == src && nest == 0
    {
      this.g, this.src, this.secondOrder := g, src, secondOrder;
      pos, nest := 0, 0;
    }

    ghost predicate Valid()
      reads this`pos
    {
      pos <= |src|
    }

    function Rest(): (s: string)
      requires pos <= |src|
      reads this`pos
      ensures |s| == |src| - pos
    {
      src[pos..]
    }

    // ----- the text -----

    method SkipWs()
      requires Valid()
      modifies this`pos
      ensures Valid() && Rest() == Skip(old(Rest()))
    {
      hide IsSpace, Skip;
      ghost var s := Rest();
      while pos < |src| && IsSpace(src[pos])
        invariant Valid() && Skip(Rest()) == Skip(s)
        decreases |src| - pos
      {
        SkipOne(src, pos);
        pos := pos + 1;
      }
      SkipNothing(Rest());
    }

    method Peek() returns (c: Option<char>)
      requires Valid()
      modifies this`pos
      ensures Valid() && Rest() == Skip(old(Rest()))
      ensures c == if Rest() == "" then None else Some(Rest()[0])
    {
      SkipWs();
      c := if pos < |src| then Some(src[pos]) else None;
    }

    method StartsAName() returns (b: bool)
      requires Valid()
      modifies this`pos
      ensures Valid() && Rest() == Skip(old(Rest()))
      ensures b <==> Rest() != "" && StartsName(Rest()[0])
    {
      var c := Peek();
      b := c.Some? && StartsName(c.value);
    }

    /** `b` is whether the position is now past `tok`; if not, it is past the white space before it. */
    method Eat(tok: string) returns (b: bool)
      requires Valid()
      modifies this`pos
      ensures Valid() && b == Text.Eat(old(Rest()), tok).Some?
      ensures b ==> Rest() == Text.Eat(old(Rest()), tok).value
      ensures !b ==> Rest() == Skip(old(Rest()))
    {
      SkipWs();
      if !(tok <= Rest()) {
        return false;
      }
      var after := pos + |tok|;
      DropTwice(src, pos, |tok|);
      if |tok| > 0 && IsWord(tok[|tok| - 1]) && after < |src| && IsWord(src[after]) {
        return false;
      }
      pos := after;
      return true;
    }

    method Expect(tok: string) returns (r: Outcome<Refusal>)
      requires Valid()
      modifies this`pos
      ensures Valid()
      ensures match Text.Expect(old(Rest()), tok)
              case Ok(t) => r == Pass && Rest() == t
              case Err(e) => r == Fail(e)
    {
      var b := Eat(tok);
      r := if b then Pass else Fail(Expected(tok));
    }

    /** The whole of a fixed stretch of tokens. */
    method ExpectAll(toks: seq<string>) returns (r: Outcome<Refusal>)
      requires Valid()
      modifies this`pos
      ensures Valid()
      ensures match Text.ExpectAll(old(Rest()), toks)
              case Ok(t) => r == Pass && Rest() == t
              case Err(e) => r == Fail(e)
    {
      hide Skip, Text.Eat, Text.Expect;
      ghost var s := Rest();
      for i := 0 to |toks|
        invariant Valid() && Text.ExpectAll(Rest(), toks[i..]) == Text.ExpectAll(s, toks)
      {
        assert toks[i..][1..] == toks[i + 1..];
        var o := Expect(toks[i]);
        if o.Fail? {
          return o;
        }
      }
      r := Pass;
    }

    /** How many word characters stand at the position. */
    method CountWord() returns (n: nat)
      requires Valid()
      ensures n == WordRun(Rest())
    {
      hide IsWord, WordRun;
      n := 0;
      while pos + n < |src| && IsWord(src[pos + n])
        invariant pos + n <= |src| && n + WordRun(src[pos + n..]) == WordRun(Rest())
        decreases |src| - pos - n
      {
        WordRunOne(src, pos + n);
        n := n + 1;
      }
      WordRunEnds(src[pos + n..]);
    }

    method Ident() returns (r: Result<string, Refusal>)
      requires Valid()
      modifies this`pos
      ensures Valid()
      ensures match Text.Ident(old(Rest()))
              case Ok((v, t)) => r == Ok(v) && Rest() == t
              case Err(e) => r == Err(e)
    {
      hide Skip, WordRun, IsWord, StartsName;
      var b := StartsAName();
      if !b {
        return Err(Expected("a name"));
      }
      var n := CountWord();
      DropTwice(src, pos, n);
      r := Ok(Rest()[..n]);
      pos := pos + n;
    }

    /** How many digits stand at the position. */
    method CountDigits() returns (n: nat)
      requires Valid()
      ensures n == DigitRun(Rest())
    {
      hide IsDigit, DigitRun;
      n := 0;
      while pos + n < |src| && IsDigit(src[pos + n])
        invariant pos + n <= |src| && n + DigitRun(src[pos + n..]) == DigitRun(Rest())
        decreases |src| - pos - n
      {
        DigitRunOne(src, pos + n);
        n := n + 1;
      }
      DigitRunEnds(src[pos + n..]);
    }

    method Number(b: Bound) returns (r: Result<nat, Refusal>)
      requires Valid()
      modifies this`pos
      ensures Valid()
      ensures match Text.Number(old(Rest()), b)
              case Ok((v, t)) => r == Ok(v) && Rest() == t
              case Err(e) => r == Err(e)
    {
      hide Skip, DigitRun, Judge, Canonical, IsDigit, IsSpace;
      SkipWs();
      var n := CountDigits();
      var ds := Rest()[..n];
      DropTwice(src, pos, n);
      r := Judge(ds, b);
      if Canonical(ds) {
        pos := pos + n;
      }
      JudgeCanonical(ds, b);
    }

    method Enter() returns (r: Outcome<Refusal>)
      modifies this`nest
      ensures nest == old(nest) + 1 && r == if nest > g.maxNest then Fail(NestedTooDeep) else Pass
    {
      nest := nest + 1;
      r := if nest > g.maxNest then Fail(NestedTooDeep) else Pass;
    }

    // ----- integer expressions -----

    method Int(scope: seq<string>) returns (r: Result<IntExpr, Refusal>)
      requires Valid()
      modifies this`pos, this`nest
      ensures Valid()
      ensures match R.Int(g, old(Rest()), scope, old(nest))
              case Ok((e, t)) => r == Ok(e) && Rest() == t && nest == old(nest)
              case Err(e) => r == Err(e)
      decreases |src| - pos, 1
    {
      hide R.IntBody;
      :- Enter();
      var e :- IntBody(scope);
      nest := nest - 1;
      r := Ok(e);
    }

    method IntBody(scope: seq<string>) returns (r: Result<IntExpr, Refusal>)
      requires Valid()
      modifies this`pos, this`nest
      ensures Valid()
      ensures match R.IntBody(g, old(Rest()), scope, old(nest))
              case Ok((e, t)) => r == Ok(e) && Rest() == t && nest == old(nest)
              case Err(e) => r == Err(e)
      decreases |src| - pos, 0, 1
    {
      hide Skip, Text.Number, R.Modulo, R.Named, IsDigit, StartsName;
      ghost var s := Rest();
      var c := Peek();
      NumberSkips(s, g.literal);
      ModuloSkips(g, s, scope, nest);
      NamedSkips(g, s, scope, nest);
      if c.None? {
        return Err(R.AN_INT);
      } else if IsDigit(c.value) {
        var n :- Number(g.literal);
        return Ok(Lit(n));
      } else if c.value == '(' {
        r := Modulo(scope);
      } else if StartsName(c.value) {
        r := Named(scope);
      } else {
        return Err(R.AN_INT);
      }
    }

    method Modulo(scope: seq<string>) returns (r: Result<IntExpr, Refusal>)
      requires Valid()
      modifies this`pos, this`nest
      ensures Valid()
      ensures match R.Modulo(g, old(Rest()), scope, old(nest))
              case Ok((e, t)) => r == Ok(e) && Rest() == t && nest == old(nest)
              case Err(e) => r == Err(e)
      decreases |src| - pos, 0, 0
    {
      hide Skip, Text.Expect, Text.Number, R.Int;
      :- Expect("(");
      var a :- Int(scope);
      :- Expect("%");
      var k :- Number(g.modulus);
      :- Expect(")");
      r := Ok(Mod(a, k));
    }

    method Named(scope: seq<string>) returns (r: Result<IntExpr, Refusal>)
      requires Valid()
      modifies this`pos, this`nest
      ensures Valid()
      ensures match R.Named(g, old(Rest()), scope, old(nest))
              case Ok((e, t)) => r == Ok(e) && Rest() == t && nest == old(nest)
              case Err(e) => r == Err(e)
      decreases |src| - pos, 0, 0
    {
      hide Skip, Text.Expect, Text.Ident, R.Int, IsOperator, R.Operate, IsName;
      var name :- Ident();
      if IsOperator(name) {
        :- Expect("(");
        var a :- Int(scope);
        :- Expect(",");
        var b :- Int(scope);
        :- Expect(")");
        return Ok(R.Operate(name, a, b));
      }
      r := if name in scope then Ok(Var(name)) else Err(Unbound(name));
    }

    // ----- templates -----

    method TemplateElem(scope: seq<string>) returns (r: Result<IntExpr, Refusal>)
      requires Valid()
      modifies this`pos
      ensures Valid()
      ensures match R.TemplateElem(g, old(Rest()), scope)
              case Ok((e, t)) => r == Ok(e) && Rest() == t
              case Err(e) => r == Err(e)
    {
      hide Skip, Text.Number, Text.Ident, IsDigit, StartsName;
      ghost var s := Rest();
      var c := Peek();
      NumberSkips(s, g.literal);
      IdentSkips(s);
      if c.None? {
        return Err(R.AN_ELEMENT);
      } else if IsDigit(c.value) {
        var n :- Number(g.literal);
        return Ok(Lit(n));
      } else if StartsName(c.value) {
        var name :- Ident();
        return if name in scope then Ok(Var(name)) else Err(Unbound(name));
      }
      return Err(R.AN_ELEMENT);
    }

    /** One element, then another after each comma. */
    method TemplateElems(scope: seq<string>) returns (r: Result<seq<IntExpr>, Refusal>)
      requires Valid()
      modifies this`pos
      ensures Valid()
      ensures match R.TemplateElems(g, old(Rest()), scope)
              case Ok((es, t)) => r == Ok(es) && Rest() == Skip(t)
              case Err(e) => r == Err(e)
    {
      hide Skip, Text.Eat, R.TemplateElem;
      ghost var total := R.TemplateElems(g, Rest(), scope);
      var elems := [];
      assert total.Ok? ==> elems + total.value.0 == total.value.0;
      while true
        invariant Valid()
        invariant match R.TemplateElems(g, Rest(), scope)
                  case Ok((es, t)) => total == Ok((elems + es, t))
                  case Err(e) => total == Err(e)
        decreases |src| - pos
      {
        ghost var before := elems;
        var e :- TemplateElem(scope);
        elems := elems + [e];
        var more := Eat(",");
        if !more {
          return Ok(elems);
        }
        assert forall es :: before + ([e] + es) == elems + es;
      }
    }

    method Template(xs: ListExpr, v: string, scope: seq<string>) returns (r: Result<ListExpr, Refusal>)
      requires Valid()
      modifies this`pos
      ensures Valid()
      ensures match R.Template(g, xs, v, old(Rest()), scope)
              case Ok((e, t)) => r == Ok(e) && Rest() == t
              case Err(e) => r == Err(e)
    {
      hide Skip, Text.Expect, Text.Ident, Text.Number, R.TemplateElems;
      if !xs.Range? {
        return Err(NotOverRange);
      }
      if !g.cycleLen.Has(xs.n) {
        return Err(OutsideBounds(xs.n));
      }
      :- Expect("[");
      ghost var s1 := Rest();
      var elems :- TemplateElems(scope);
      ExpectSkips(R.TemplateElems(g, s1, scope).value.1, "]");
      :- Expect("]");
      var k := |elems|;
      if !g.cycleElems.Has(k) {
        return Err(OutsideBounds(k));
      }
      :- Expect("[");
      var w :- Ident();
      if w != v {
        return Err(OtherVariable(w));
      }
      :- Expect("%");
      var _ :- Number(Bound(k, k));
      :- Expect("]");
      :- Expect(")");
      r := Ok(Cycle(v, elems, xs.n));
    }

    /** Whether the text says `).map(|v| [`. Consumes nothing. */
    method TemplateFollows() returns (b: bool)
      requires Valid()
      modifies this`pos
      ensures pos == old(pos) && b == R.TemplateFollows(Rest())
    {
      hide Skip, Text.Eat, Text.Ident;
      var start := pos;
      b := Eat(")");
      if b {
        b := Eat(".");
      }
      if b {
        b := TemplateBegins();
      }
      pos := start;
    }

    method TemplateBegins() returns (b: bool)
      requires Valid()
      modifies this`pos
      ensures Valid() && b == R.TemplateBegins(old(Rest()))
    {
      hide Skip, Text.Eat, Text.Ident;
      b := Eat("map");
      if b {
        b := Eat("(");
      }
      if b {
        b := Eat("|");
      }
      if b {
        var v := Ident();
        b := v.Ok?;
      }
      if b {
        b := Eat("|");
      }
      if b {
        var c := Peek();
        b := c == Some('[');
      }
    }

    // ----- method calls -----

    method MapCall(xs: ListExpr, scope: seq<string>) returns (r: Result<ListExpr, Refusal>)
      requires Valid()
      modifies this`pos, this`nest
      ensures Valid()
      ensures match R.MapCall(g, xs, old(Rest()), scope, old(nest))
              case Ok((e, t)) => r == Ok(e) && Rest() == t && nest == old(nest)
              case Err(e) => r == Err(e)
    {
      hide Skip, Text.Expect, Text.Ident, R.Template, R.Int, R.NextIs, IsName;
      :- Expect("(");
      :- Expect("|");
      var v :- Ident();
      :- Expect("|");
      var at := pos;
      var c := Peek();
      pos := at;
      NextIsPeeked(Rest(), '[');
      if c == Some('[') {
        r := Template(xs, v, scope);
      } else {
        r := MapBody(xs, v, scope);
      }
    }

    method MapBody(xs: ListExpr, v: string, scope: seq<string>) returns (r: Result<ListExpr, Refusal>)
      requires Valid()
      modifies this`pos, this`nest
      ensures Valid()
      ensures match R.Int(g, old(Rest()), scope + [v], old(nest))
              case Ok((body, t)) =>
                (match Text.Expect(t, ")")
                 case Ok(u) => r == Ok(Map(xs, v, body)) && Rest() == u && nest == old(nest)
                 case Err(e) => r == Err(e))
              case Err(e) => r == Err(e)
    {
      hide Skip, Text.Expect, R.Int;
      var body :- Int(scope + [v]);
      :- Expect(")");
      r := Ok(Map(xs, v, body));
    }

    method ScanCall(xs: ListExpr, scope: seq<string>) returns (r: Result<ListExpr, Refusal>)
      requires Valid()
      modifies this`pos, this`nest
      ensures Valid()
      ensures match R.ScanCall(g, xs, old(Rest()), scope, old(nest))
              case Ok((e, t)) => r == Ok(e) && Rest() == t && nest == old(nest)
              case Err(e) => r == Err(e)
    {
      hide Skip, Text.Expect, Text.Ident, R.Int, R.ScanClosure;
      :- Expect("(");
      var init :- Int(scope);
      :- Expect(",");
      r := ScanClosure(xs, init, scope);
    }

    method ScanClosure(xs: ListExpr, init: IntExpr, scope: seq<string>) returns (r: Result<ListExpr, Refusal>)
      requires Valid()
      modifies this`pos, this`nest
      ensures Valid()
      ensures match R.ScanClosure(g, xs, init, old(Rest()), scope, old(nest))
              case Ok((e, t)) => r == Ok(e) && Rest() == t && nest == old(nest)
              case Err(e) => r == Err(e)
    {
      hide Skip, Text.Expect, Text.Ident, R.Int, IsName;
      :- Expect("|");
      var a :- Ident();
      :- Expect(",");
      var x :- Ident();
      :- Expect("|");
      var body :- Int(scope + [a, x]);
      :- Expect(")");
      r := Ok(Scan(xs, init, a, x, body));
    }

    method FilterCall(xs: ListExpr) returns (r: Result<ListExpr, Refusal>)
      requires Valid()
      modifies this`pos
      ensures Valid()
      ensures match R.FilterCall(g, xs, old(Rest()))
              case Ok((e, t)) => r == Ok(e) && Rest() == t
              case Err(e) => r == Err(e)
    {
      hide Skip, Text.Expect, Text.Ident, R.FilterTest, IsName;
      :- Expect("(");
      :- Expect("|");
      var v :- Ident();
      :- Expect("|");
      var w :- Ident();
      if w != v {
        return Err(OtherVariable(w));
      }
      r := FilterTest(xs, v);
    }

    method FilterTest(xs: ListExpr, v: string) returns (r: Result<ListExpr, Refusal>)
      requires Valid()
      modifies this`pos
      ensures Valid()
      ensures match R.FilterTest(g, xs, v, old(Rest()))
              case Ok((e, t)) => r == Ok(e) && Rest() == t
              case Err(e) => r == Err(e)
    {
      hide Skip, Text.Expect, Text.Number;
      :- Expect("%");
      var k :- Number(g.filterMod);
      :- Expect("==");
      if k == 0 {
        return Err(OutsideBounds(k));
      }
      var rem :- Number(Bound(0, k - 1));
      :- Expect(")");
      r := Ok(Filter(xs, v, k, rem));
    }

    method Method(xs: ListExpr, scope: seq<string>) returns (r: Result<ListExpr, Refusal>)
      requires Valid()
      modifies this`pos, this`nest
      ensures Valid()
      ensures match R.Method(g, xs, old(Rest()), scope, old(nest))
              case Ok((e, t)) => r == Ok(e) && Rest() == t && nest == old(nest)
              case Err(e) => r == Err(e)
    {
      hide Skip, Text.Expect, Text.Ident, Text.Number, R.FilterCall, R.ScanCall, R.MapCall;
      var name :- Ident();
      if name == "reverse" {
        :- Expect("(");
        :- Expect(")");
        r := Ok(Reverse(xs));
      } else if name == "sort" {
        :- Expect("(");
        :- Expect(")");
        r := Ok(Sort(xs));
      } else if name == "take" {
        :- Expect("(");
        var n :- Number(g.take);
        :- Expect(")");
        r := Ok(Take(xs, n));
      } else if name == "filter" {
        r := FilterCall(xs);
      } else if name == "scan" {
        r := ScanCall(xs, scope);
      } else if name == "map" {
        r := MapCall(xs, scope);
      } else {
        r := Err(Unknown(name));
      }
    }

    // ----- oscillators -----

    /** The length that an oscillator's opening names, with the position at its first literal; or `None`,
        with the position anywhere. */
    method OscOpening() returns (r: Option<nat>)
      requires Valid()
      modifies this`pos
      ensures Valid()
      ensures match R.OscOpening(old(Rest()))
              case Some((m, t)) => r == Some(m) && Rest() == t
              case None => r == None
    {
      hide Skip, Text.Eat, DigitRun, Canonical, Value, R.OscTail;
      var b := Eat("range");
      if b {
        b := Eat("(");
      }
      if !b {
        return None;
      }
      r := OscLength();
      if r.Some? {
        b := OscTail();
        r := if b then r else None;
      }
    }

    /** A number, with no bound on it but the width of a word. */
    method OscLength() returns (r: Option<nat>)
      requires Valid()
      modifies this`pos
      ensures Valid()
      ensures var t := Skip(old(Rest()));
              var n := DigitRun(t);
              if !Canonical(t[..n]) || Value(t[..n]) > U64_MAX then r == None
              else r == Some(Value(t[..n])) && Rest() == t[n..]
    {
      hide Skip, DigitRun, Canonical, Value, IsSpace, IsDigit;
      SkipWs();
      var n := CountDigits();
      var ds := Rest()[..n];
      DropTwice(src, pos, n);
      if !Canonical(ds) {
        return None;
      }
      CanonicalIsDigits(ds);
      var m := Value(ds);
      if m > U64_MAX {
        return None;
      }
      pos := pos + n;
      r := Some(m);
    }

    method OscTail() returns (b: bool)
      requires Valid()
      modifies this`pos
      ensures Valid() && b == R.OscTail(old(Rest())).Some?
      ensures b ==> Rest() == R.OscTail(old(Rest())).value
    {
      hide Skip, Text.Eat, DigitRun, R.NextIs;
      b := Eat(")");
      if b {
        b := Eat(".");
      }
      if b {
        b := Eat("scan");
      }
      if b {
        b := Eat("(");
      }
      if b {
        b := Eat("(");
      }
      if b {
        SkipWs();
        b := LiteralThenComma();
      }
    }

    /** Whether digits and a comma come next. Consumes nothing. */
    method LiteralThenComma() returns (b: bool)
      requires Valid()
      modifies this`pos
      ensures pos == old(pos)
      ensures b == (DigitRun(Rest()) > 0 && R.NextIs(Rest()[DigitRun(Rest())..], ','))
    {
      hide Skip, DigitRun;
      var at := pos;
      var d := CountDigits();
      DropTwice(src, pos, d);
      pos := pos + d;
      var c := Peek();
      pos := at;
      b := d > 0 && c == Some(',');
    }

    method OscBody(m: nat) returns (r: Result<Oscillator, Refusal>)
      requires Valid()
      modifies this`pos
      ensures Valid()
      ensures match R.OscBody(g, m, old(Rest()))
              case Ok((o, t)) => r == Ok(o) && Rest() == t
              case Err(e) => r == Err(e)
    {
      hide Skip, Text.Expect, Text.ExpectAll, Text.Number, Bares, R.OscStep;
      if !g.range.Has(m) {
        return Err(OutsideBounds(m));
      }
      var x1 :- Number(g.literal);
      :- Expect(",");
      var x0 :- Number(g.literal);
      :- ExpectAll(Bares(OSC_SEED));
      r := OscStep(m, x1, x0);
    }

    method OscStep(m: nat, x1: nat, x0: nat) returns (r: Result<Oscillator, Refusal>)
      requires Valid()
      modifies this`pos
      ensures Valid()
      ensures match R.OscStep(g, m, x1, x0, old(Rest()))
              case Ok((o, t)) => r == Ok(o) && Rest() == t
              case Err(e) => r == Err(e)
    {
      hide Skip, Text.ExpectAll, Text.Number, Bares, Pow2;
      var a :- Number(g.literal);
      :- ExpectAll(Bares(OSC_A));
      var b :- Number(g.literal);
      :- ExpectAll(Bares(OSC_B));
      var k :- Number(g.oscShift);
      :- ExpectAll(Bares(OSC_K));
      r := if a > Pow2(k + 1) || b >= Pow2(k) then Err(BadCoefficient) else Ok(Oscillator(m + 1, x1, x0, a, b, k));
    }

    /** The oscillator read here. `Ok(None)`, for a text that opens none, puts the position back. */
    method Oscillation() returns (r: Result<Option<Oscillator>, Refusal>)
      requires Valid()
      modifies this`pos
      ensures Valid()
      ensures match R.Oscillation(g, secondOrder, old(Rest()))
              case Ok(Some((o, t))) => r == Ok(Some(o)) && Rest() == t
              case Ok(None) => r == Ok(None) && pos == old(pos)
              case Err(e) => r == Err(e)
    {
      hide R.OscOpening, R.OscBody;
      var save := pos;
      var m := OscOpening();
      if m.None? {
        pos := save;
        return Ok(None);
      }
      if !secondOrder {
        return Err(SecondOrderOff);
      }
      var o :- OscBody(m.value);
      r := Ok(Some(o));
    }

    // ----- lists -----

    /** A range's length, or a template's: see `Reading.RangeLength`. */
    method RangeLength() returns (r: Result<nat, Refusal>)
      requires Valid()
      modifies this`pos
      ensures Valid()
      ensures match R.RangeLength(g, old(Rest()))
              case Ok((n, t)) => r == Ok(n) && Rest() == t
              case Err(e) => r == Err(e)
    {
      hide Text.Number, R.TemplateFollows;
      var start := pos;
      r := Number(g.range);
      if r.Err? {
        pos := start;
        var second := Number(g.cycleLen);
        if second.Ok? {
          var follows := TemplateFollows();
          if follows {
            r := second;
          }
        }
      }
    }

    method NestCall() returns (r: Result<ListExpr, Refusal>)
      requires Valid()
      modifies this`pos
      ensures Valid()
      ensures match R.NestCall(g, old(Rest()))
              case Ok((e, t)) => r == Ok(e) && Rest() == t
              case Err(e) => r == Err(e)
    {
      hide Text.Expect, Text.Number, Text.Ident, R.NestClosure;
      :- Expect("(");
      var n :- Number(g.nestCount);
      :- Expect(")");
      :- Expect(".");
      :- Expect("map");
      :- Expect("(");
      :- Expect("|");
      var v :- Ident();
      :- Expect("|");
      r := NestClosure(n, v);
    }

    method NestClosure(n: nat, v: string) returns (r: Result<ListExpr, Refusal>)
      requires Valid()
      modifies this`pos
      ensures Valid()
      ensures match R.NestClosure(g, n, v, old(Rest()))
              case Ok((e, t)) => r == Ok(e) && Rest() == t
              case Err(e) => r == Err(e)
    {
      hide Text.Expect, Text.Number, Text.Ident;
      :- Expect("range");
      :- Expect("(");
      var w :- Ident();
      if w != v {
        return Err(OtherVariable(w));
      }
      :- Expect("%");
      var k :- Number(g.nestMod);
      :- Expect("+");
      :- Expect("1");
      :- Expect(")");
      :- Expect(")");
      :- Expect(")");
      r := Ok(Nest(v, n, k));
    }

    method Flatten(scope: seq<string>) returns (r: Result<ListExpr, Refusal>)
      requires Valid()
      modifies this`pos, this`nest
      ensures Valid()
      ensures match R.Flatten(g, secondOrder, old(Rest()), scope, old(nest))
              case Ok((e, t)) => r == Ok(e) && Rest() == t && nest == old(nest)
              case Err(e) => r == Err(e)
      decreases |src| - pos, 0
    {
      hide Skip, Text.Eat, Text.Expect, R.NestCall, R.List, R.FlattenRest;
      :- Expect("(");
      ghost var s1 := Rest();
      var nested := Eat("range");
      if nested {
        r := NestCall();
        return;
      }
      ExpectSkips(s1, "[");
      :- Expect("[");
      ghost var s2 := Rest();
      var l :- List(scope);
      ghost var s3 := R.List(g, secondOrder, s2, scope, nest).value.1;
      FlattenRestSkips(g, secondOrder, l, s3, scope, nest);
      r := FlattenRest(l, scope);
    }

    method FlattenRest(l: ListExpr, scope: seq<string>) returns (r: Result<ListExpr, Refusal>)
      requires Valid()
      modifies this`pos, this`nest
      ensures Valid()
      ensures match R.FlattenRest(g, secondOrder, l, old(Rest()), scope, old(nest))
              case Ok((e, t)) => r == Ok(e) && Rest() == t && nest == old(nest)
              case Err(e) => r == Err(e)
      decreases |src| - pos, 0
    {
      hide Skip, Text.Eat, Text.Expect, Text.Number, R.List;
      ghost var s := Rest();
      ExpectSkips(s, ";");
      var pair := Eat(",");
      if pair {
        ghost var s1 := Rest();
        var b :- List(scope);
        ExpectSkips(R.List(g, secondOrder, s1, scope, nest).value.1, "]");
        :- Expect("]");
        :- Expect(")");
        r := Ok(Concat(l, b));
      } else {
        :- Expect(";");
        var n :- Number(g.copy);
        :- Expect("]");
        :- Expect(")");
        r := Ok(Copy(l, n));
      }
    }

    method Atom(scope: seq<string>) returns (r: Result<ListExpr, Refusal>)
      requires Valid()
      modifies this`pos, this`nest
      ensures Valid()
      ensures match R.Atom(g, secondOrder, old(Rest()), scope, old(nest))
              case Ok((e, t)) => r == Ok(e) && Rest() == t && nest == old(nest)
              case Err(e) => r == Err(e)
      decreases |src| - pos, 1
    {
      hide Skip, Text.Eat, Text.Ident, Text.Expect, Text.Number, R.Oscillation, R.RangeLength, R.Flatten, R.Int;
      ghost var s := Rest();
      var o :- Oscillation();
      if o.Some? {
        return Ok(Osc(o.value));
      }
      var repeated := Eat("[");
      if repeated {
        var e :- Int(scope);
        :- Expect(";");
        var n :- Number(g.repeat);
        :- Expect("]");
        return Ok(Repeat(e, n));
      }
      IdentSkips(s);
      var name :- Ident();
      if name == "range" {
        :- Expect("(");
        var n :- RangeLength();
        :- Expect(")");
        r := Ok(Range(n));
      } else if name == "flatten" {
        r := Flatten(scope);
      } else {
        r := Err(Unknown(name));
      }
    }

    method Chain(scope: seq<string>) returns (r: Result<ListExpr, Refusal>)
      requires Valid()
      modifies this`pos, this`nest
      ensures Valid()
      ensures match R.Chain(g, secondOrder, old(Rest()), scope, old(nest))
              case Ok((e, t)) => r == Ok(e) && Rest() == Skip(t) && nest == old(nest)
              case Err(e) => r == Err(e)
      decreases |src| - pos, 2
    {
      hide Skip, Text.Eat, R.Atom, R.Method;
      ghost var level := nest;
      var e :- Atom(scope);
      ghost var total := R.Calls(g, e, Rest(), scope, level, 0);
      var calls := 0;
      var more := true;
      while more
        invariant Valid() && nest == level
        invariant more ==> R.Calls(g, e, Rest(), scope, level, calls) == total
        invariant !more ==> total.Ok? && total.value.0 == e && Rest() == Skip(total.value.1)
        decreases more, |src| - pos
      {
        more := Eat(".");
        if more {
          calls := calls + 1;
          if calls > g.maxNest {
            return Err(TooManyCalls);
          }
          e :- Method(e, scope);
        }
      }
      r := Ok(e);
    }

    method List(scope: seq<string>) returns (r: Result<ListExpr, Refusal>)
      requires Valid()
      modifies this`pos, this`nest
      ensures Valid()
      ensures match R.List(g, secondOrder, old(Rest()), scope, old(nest))
              case Ok((e, t)) => r == Ok(e) && Rest() == Skip(t) && nest == old(nest)
              case Err(e) => r == Err(e)
      decreases |src| - pos, 3
    {
      hide Skip, R.Chain;
      :- Enter();
      var e :- Chain(scope);
      nest := nest - 1;
      r := Ok(e);
    }

    /** The body, wrapped in the whole source text or bare. */
    method Body() returns (r: Result<ListExpr, Refusal>)
      requires Valid() && nest == 0
      modifies this`pos, this`nest
      ensures Valid()
      ensures match R.Body(g, secondOrder, old(Rest()))
              case Ok((e, t)) => r == Ok(e) && Skip(Rest()) == Skip(t)
              case Err(e) => r == Err(e)
    {
      hide Skip, R.ExpectPieces, Text.Expect, R.List, R.NextIs;
      ghost var s := Rest();
      var at := pos;
      var c := Peek();
      pos := at;
      NextIsPeeked(s, '@');
      if c == Some('@') {
        :- Header();
        r := Wrapped();
      } else {
        r := List(TOP_SCOPE);
        if r.Ok? {
          SkipTwice(R.List(g, secondOrder, s, TOP_SCOPE, 0).value.1);
        }
      }
    }

    method Header() returns (r: Outcome<Refusal>)
      requires Valid()
      modifies this`pos
      ensures Valid()
      ensures match R.ExpectPieces(old(Rest()), HEADER)
              case Ok(t) => r == Pass && Rest() == t
              case Err(e) => r == Fail(e)
    {
      hide Text.ExpectAll, Bares;
      r := ExpectAll(Bares(HEADER));
    }

    /** The body, and the brace that closes the whole source text. */
    method Wrapped() returns (r: Result<ListExpr, Refusal>)
      requires Valid() && nest == 0
      modifies this`pos, this`nest
      ensures Valid()
      ensures match R.List(g, secondOrder, old(Rest()), TOP_SCOPE, 0)
              case Ok((e, t)) =>
                (match Text.Expect(t, "}")
                 case Ok(u) => r == Ok(e) && Rest() == u
                 case Err(err) => r == Err(err))
              case Err(e) => r == Err(e)
    {
      hide Skip, Text.Expect, R.List;
      ghost var s := Rest();
      var e :- List(TOP_SCOPE);
      ExpectSkips(R.List(g, secondOrder, s, TOP_SCOPE, 0).value.1, "}");
      :- Expect("}");
      r := Ok(e);
    }
  }

  /** `Program::parse_with`: the parser's methods compute `Reading.Parse`. */
  method Parse(g: Limits, src: string, secondOrder: bool) returns (r: Result<ListExpr, Refusal>)
    ensures r == R.Parse(g, secondOrder, src)
  {
    hide Skip, R.Body, Fits;
    var p := new Parser(g, src, secondOrder);
    var e :- p.Body();
    ghost var t := p.Rest();
    p.SkipWs();
    if p.Rest() != "" {
      return Err(TrailingText);
    }
    r := if Fits(g, e, 0) then Ok(e) else Err(PastMaxDepth);
  }

  lemma NextIsPeeked(s: string, c: char)
    ensures R.NextIs(s, c) <==> Skip(s) != "" && Skip(s)[0] == c
  {
    hide Skip;
  }

  lemma CanonicalIsDigits(ds: string)
    requires Canonical(ds)
    ensures AllDigits(ds)
  {
  }

  lemma JudgeCanonical(ds: string, b: Bound)
    ensures Judge(ds, b).Ok? ==> Canonical(ds)
  {
  }

  lemma DropTwice(s: string, i: nat, j: nat)
    requires i + j <= |s|
    ensures s[i..][j..] == s[i + j..]
  {
  }

  lemma SkipOne(s: string, i: nat)
    requires i < |s| && IsSpace(s[i])
    ensures Skip(s[i..]) == Skip(s[i + 1..])
  {
    hide IsSpace;
    DropTwice(s, i, 1);
  }

  lemma WordRunOne(s: string, i: nat)
    requires i < |s| && IsWord(s[i])
    ensures WordRun(s[i..]) == 1 + WordRun(s[i + 1..])
  {
    hide IsWord;
    DropTwice(s, i, 1);
  }

  lemma WordRunEnds(s: string)
    requires |s| > 0 ==> !IsWord(s[0])
    ensures WordRun(s) == 0
  {
  }

  lemma DigitRunOne(s: string, i: nat)
    requires i < |s| && IsDigit(s[i])
    ensures DigitRun(s[i..]) == 1 + DigitRun(s[i + 1..])
  {
    hide IsDigit;
    DropTwice(s, i, 1);
  }

  lemma DigitRunEnds(s: string)
    requires |s| > 0 ==> !IsDigit(s[0])
    ensures DigitRun(s) == 0
  {
  }

  // ----- skipping white space first changes nothing of what is read -----

  lemma SkipTwice(s: string)
    ensures Skip(Skip(s)) == Skip(s)
  {
    SkipNothing(Skip(s));
  }

  lemma NumberSkips(s: string, b: Bound)
    ensures Text.Number(Skip(s), b) == Text.Number(s, b)
  {
    hide Skip, NumberHere;
    SkipTwice(s);
  }

  lemma IdentSkips(s: string)
    ensures Text.Ident(Skip(s)) == Text.Ident(s)
  {
    hide Skip, WordRun;
    SkipTwice(s);
  }

  lemma ExpectSkips(s: string, tok: string)
    ensures Text.Expect(Skip(s), tok) == Text.Expect(s, tok) && Text.Eat(Skip(s), tok) == Text.Eat(s, tok)
  {
    hide Text.Eat;
    EatSkips(s, tok);
  }

  lemma EatSkips(s: string, tok: string)
    ensures Text.Eat(Skip(s), tok) == Text.Eat(s, tok)
  {
    hide Skip, IsWord, Breaks;
    SkipTwice(s);
  }

  lemma ModuloSkips(g: Limits, s: string, scope: seq<string>, nest: nat)
    ensures R.Modulo(g, Skip(s), scope, nest) == R.Modulo(g, s, scope, nest)
  {
    hide Skip, Text.Expect, Text.Number, R.Int;
    ExpectSkips(s, "(");
  }

  lemma NamedSkips(g: Limits, s: string, scope: seq<string>, nest: nat)
    ensures R.Named(g, Skip(s), scope, nest) == R.Named(g, s, scope, nest)
  {
    hide Skip, Text.Expect, Text.Ident, R.Int;
    IdentSkips(s);
  }

  lemma FlattenRestSkips(g: Limits, secondOrder: bool, l: ListExpr, s: string, scope: seq<string>, nest: nat)
    ensures R.FlattenRest(g, secondOrder, l, Skip(s), scope, nest) == R.FlattenRest(g, secondOrder, l, s, scope, nest)
  {
    hide Skip, Text.Expect, Text.Eat, Text.Number, R.List;
    ExpectSkips(s, ",");
    ExpectSkips(s, ";");
  }
}
