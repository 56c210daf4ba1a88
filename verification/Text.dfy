/** Characters, words and decimal numbers, as the arena's hand-written parser reads them.
    Every reader takes the text still to be read and returns what is left of it. */
module Text {
  import opened Wrappers

  /** Why a text is refused. The wording and the byte offset of a message are not modelled. */
  datatype Refusal =
    | Expected(what: string)
    | OutsideBounds(value: nat)
    | TooLarge
    | NestedTooDeep
    | TooManyCalls
    | Unknown(name: string)
    | Unbound(name: string)
    | OtherVariable(name: string)
    | NotOverRange
    | SecondOrderOff
    | BadCoefficient
    | TrailingText
    | PastMaxDepth

  datatype Bound = Bound(lo: nat, hi: nat) {
    predicate Has(v: nat) {
      lo <= v <= hi
    }
  }

  const U64_MAX: nat := 0xFFFF_FFFF_FFFF_FFFF

  // ----- characters -----

  /** Unicode White_Space, which is what Rust's `trim_start` trims. */
  predicate IsSpace(c: char) {
    var n := c as int;
    || 0x09 <= n <= 0x0D || n == 0x20 || n == 0x85 || n == 0xA0 || n == 0x1680
    || 0x2000 <= n <= 0x200A || n == 0x2028 || n == 0x2029 || n == 0x202F || n == 0x205F || n == 0x3000
  }

  predicate IsDigit(c: char) {
    '0' <= c <= '9'
  }

  predicate IsAlpha(c: char) {
    'a' <= c <= 'z' || 'A' <= c <= 'Z'
  }

  predicate IsWord(c: char) {
    IsAlpha(c) || IsDigit(c) || c == '_'
  }

  predicate StartsName(c: char) {
    IsAlpha(c) || c == '_'
  }

  /** A name: a word that does not start with a digit. */
  predicate IsName(v: string) {
    |v| > 0 && StartsName(v[0]) && forall i :: 0 <= i < |v| ==> IsWord(v[i])
  }

  /** `k` does not continue a word (or a number) that ends just before it. */
  predicate Breaks(k: string) {
    |k| > 0 ==> !IsWord(k[0])
  }

  /** `tok`, then the text `k`. */
  function Then(tok: string, k: string): string {
    tok + k
  }

  // ----- readers -----

  /** `skip_ws`. */
  function Skip(s: string): (r: string)
    ensures |r| <= |s| && r == s[|s| - |r|..]
    ensures |r| > 0 ==> !IsSpace(r[0])
  {
    if |s| > 0 && IsSpace(s[0]) then Skip(s[1..]) else s
  }

  /** `eat`: what is left once `tok` is taken off the text, white space before it included. `None` if
      the text goes on with something else, or with a longer word. */
  function Eat(s: string, tok: string): (r: Option<string>)
    ensures r.Some? ==> |r.value| <= |s| - |tok|
  {
    var t := Skip(s);
    if !(tok <= t) then None
    else if |tok| > 0 && IsWord(tok[|tok| - 1]) && !Breaks(t[|tok|..]) then None
    else Some(t[|tok|..])
  }

  /** `expect`. */
  function Expect(s: string, tok: string): (r: Result<string, Refusal>)
    ensures r.Ok? ==> |r.value| <= |s| - |tok|
  {
    var t := Eat(s, tok);
    if t.Some? then Ok(t.value) else Err(Expected(tok))
  }

  predicate Solid(s: string) {
    forall i :: 0 <= i < |s| ==> !IsSpace(s[i])
  }

  /** A token: some text, none of it white space. */
  predicate IsToken(tok: string) {
    |tok| > 0 && Solid(tok)
  }

  /** A run of `expect`s. */
  function ExpectAll(s: string, toks: seq<string>): (r: Result<string, Refusal>)
    ensures r.Ok? ==> |r.value| <= |s|
  {
    if toks == [] then Ok(s)
    else
      var t :- Expect(s, toks[0]);
      ExpectAll(t, toks[1..])
  }

  function WordRun(s: string): (n: nat)
    ensures n <= |s|
    ensures forall i :: 0 <= i < n ==> IsWord(s[i])
    ensures n < |s| ==> !IsWord(s[n])
  {
    if |s| > 0 && IsWord(s[0]) then 1 + WordRun(s[1..]) else 0
  }

  function DigitRun(s: string): (n: nat)
    ensures n <= |s|
    ensures forall i :: 0 <= i < n ==> IsDigit(s[i])
    ensures n < |s| ==> !IsDigit(s[n])
  {
    if |s| > 0 && IsDigit(s[0]) then 1 + DigitRun(s[1..]) else 0
  }

  /** `ident`. */
  function Ident(s: string): (r: Result<(string, string), Refusal>)
    ensures r.Ok? ==> IsName(r.value.0) && |r.value.1| < |s|
  {
    var t := Skip(s);
    if |t| > 0 && StartsName(t[0]) then
      var n := WordRun(t);
      Ok((t[..n], t[n..]))
    else Err(Expected("a name"))
  }

  function DigitValue(c: char): nat
    requires IsDigit(c)
  {
    c as int - '0' as int
  }

  function DigitChar(d: nat): (c: char)
    requires d < 10
    ensures IsDigit(c) && DigitValue(c) == d
  {
    ('0' as int + d) as char
  }

  predicate AllDigits(s: string) {
    forall i :: 0 <= i < |s| ==> IsDigit(s[i])
  }

  /** The value of a decimal string. */
  function Value(s: string): nat
    requires AllDigits(s)
  {
    if s == [] then 0 else 10 * Value(s[..|s| - 1]) + DigitValue(s[|s| - 1])
  }

  /** The decimal string of a number, as `to_string` writes it. */
  function Digits(n: nat): (s: string)
    ensures |s| > 0 && AllDigits(s)
  {
    if n < 10 then [DigitChar(n)] else Digits(n / 10) + [DigitChar(n % 10)]
  }

  /** Decimal digits that `number` accepts: some, with no leading zero. */
  predicate Canonical(ds: string) {
    AllDigits(ds) && |ds| > 0 && (|ds| > 1 ==> ds[0] != '0')
  }

  /** `number`: the value of the digits after white space, which is within `b`, and what follows them. */
  function Number(s: string, b: Bound): (r: Result<(nat, string), Refusal>)
    ensures r.Ok? ==> b.Has(r.value.0) && |r.value.1| < |s|
  {
    NumberHere(Skip(s), b)
  }

  function NumberHere(t: string, b: Bound): (r: Result<(nat, string), Refusal>)
    ensures r.Ok? ==> b.Has(r.value.0) && |r.value.1| < |t|
  {
    var n := DigitRun(t);
    var v :- Judge(t[..n], b);
    Ok((v, t[n..]))
  }

  /** What `number` makes of a run of digits. */
  function Judge(ds: string, b: Bound): (r: Result<nat, Refusal>)
    ensures r.Ok? ==> b.Has(r.value) && |ds| > 0
  {
    if !Canonical(ds) then Err(Expected("a number"))
    else if Value(ds) > U64_MAX then Err(TooLarge)
    else if !b.Has(Value(ds)) then Err(OutsideBounds(Value(ds)))
    else Ok(Value(ds))
  }

  // ----- decimal numbers are written one way -----

  lemma {:induction false} ValueOfDigits(n: nat)
    ensures Canonical(Digits(n)) && Value(Digits(n)) == n
    ensures n > 0 ==> Digits(n)[0] != '0'
  {
    if n >= 10 {
      ValueOfDigits(n / 10);
      var s := Digits(n);
      assert s[..|s| - 1] == Digits(n / 10);
    }
  }

  lemma {:induction false} DigitsOfValue(ds: string)
    requires Canonical(ds)
    ensures Digits(Value(ds)) == ds
  {
    var init, last := ds[..|ds| - 1], ds[|ds| - 1];
    assert ds == init + [last];
    if |ds| == 1 {
      assert Value(init) == 0;
    } else {
      DigitsOfValue(init);
      PositiveValue(init);
      var v := Value(init);
      assert Value(ds) == 10 * v + DigitValue(last);
      assert Value(ds) / 10 == v && Value(ds) % 10 == DigitValue(last);
    }
  }

  lemma {:induction false} PositiveValue(ds: string)
    requires Canonical(ds) && ds[0] != '0'
    ensures Value(ds) > 0
  {
    if |ds| > 1 {
      PositiveValue(ds[..|ds| - 1]);
    }
  }

  // ----- reading back what was written -----

  predicate AllSpace(w: string) {
    forall i :: 0 <= i < |w| ==> IsSpace(w[i])
  }

  lemma {:induction false} SkipSpaces(w: string, s: string)
    requires AllSpace(w)
    ensures Skip(w + s) == Skip(s)
  {
    if w == [] {
      assert w + s == s;
    } else {
      assert (w + s)[1..] == w[1..] + s;
      SkipSpaces(w[1..], s);
    }
  }

  lemma SkipBlank(s: string)
    ensures Skip(" " + s) == Skip(s)
  {
    SkipSpaces(" ", s);
  }

  lemma SkipNothing(s: string)
    requires |s| > 0 ==> !IsSpace(s[0])
    ensures Skip(s) == s
  {
  }

  lemma EatToken(tok: string, k: string)
    requires IsToken(tok)
    requires IsWord(tok[|tok| - 1]) ==> Breaks(k)
    ensures Eat(Then(tok, k), tok) == Some(k)
    ensures Eat(Then(" ", Then(tok, k)), tok) == Some(k)
  {
    hide Skip, IsSpace, IsWord;
    SkipBlank(tok + k);
    SkipNothing(tok + k);
    assert (tok + k)[|tok|..] == k;
  }

  lemma {:induction false} WordRunOf(v: string, k: string)
    requires forall i :: 0 <= i < |v| ==> IsWord(v[i])
    requires Breaks(k)
    ensures WordRun(v + k) == |v|
  {
    if v == [] {
      assert v + k == k;
    } else {
      assert (v + k)[1..] == v[1..] + k;
      WordRunOf(v[1..], k);
    }
  }

  lemma {:induction false} DigitRunOf(v: string, k: string)
    requires AllDigits(v)
    requires |k| > 0 ==> !IsDigit(k[0])
    ensures DigitRun(v + k) == |v|
  {
    if v == [] {
      assert v + k == k;
    } else {
      assert (v + k)[1..] == v[1..] + k;
      DigitRunOf(v[1..], k);
    }
  }

  lemma WordsAreSolid(v: string)
    requires forall i :: 0 <= i < |v| ==> IsWord(v[i])
    ensures Solid(v)
  {
  }

  lemma DigitsAreSolid(ds: string)
    requires AllDigits(ds)
    ensures Solid(ds)
  {
  }

  lemma IdentReads(v: string, k: string)
    requires IsName(v) && Breaks(k)
    ensures Ident(Then(v, k)) == Ok((v, k))
    ensures Ident(Then(" ", Then(v, k))) == Ok((v, k))
  {
    hide Skip, IsSpace, IsWord, WordRun;
    WordsAreSolid(v);
    SkipBlank(v + k);
    SkipNothing(v + k);
    WordRunOf(v, k);
    assert (v + k)[..|v|] == v && (v + k)[|v|..] == k;
  }

  lemma DigitIsSolid(c: char)
    requires IsDigit(c)
    ensures !IsSpace(c)
  {
  }

  lemma NumberIsDigits(ds: string, k: string, b: Bound)
    requires Canonical(ds) && Value(ds) <= U64_MAX && b.Has(Value(ds))
    requires |k| > 0 ==> !IsDigit(k[0])
    ensures Number(ds + k, b) == Ok((Value(ds), k))
    ensures Number(" " + (ds + k), b) == Ok((Value(ds), k))
  {
    hide Skip, IsSpace, DigitRun, Value, IsDigit;
    var s := ds + k;
    DigitIsSolid(ds[0]);
    SkipBlank(s);
    SkipNothing(s);
    DigitRunOf(ds, k);
    assert s[..|ds|] == ds && s[|ds|..] == k;
  }

  lemma NumberReads(n: nat, k: string, b: Bound)
    requires b.Has(n) && n <= U64_MAX
    requires |k| > 0 ==> !IsDigit(k[0])
    ensures Number(Then(Digits(n), k), b) == Ok((n, k))
    ensures Number(Then(" ", Then(Digits(n), k)), b) == Ok((n, k))
  {
    hide Digits, Value, Number, Canonical;
    ValueOfDigits(n);
    NumberIsDigits(Digits(n), k, b);
  }

  // ----- what a reader consumed -----

  /** A text with its white space taken out. */
  function Squash(s: string): string {
    if s == [] then [] else (if IsSpace(s[0]) then [] else [s[0]]) + Squash(s[1..])
  }

  lemma {:induction false} SquashConcat(a: string, b: string)
    ensures Squash(a + b) == Squash(a) + Squash(b)
  {
    if a == [] {
      assert a + b == b;
    } else {
      assert (a + b)[1..] == a[1..] + b;
      SquashConcat(a[1..], b);
    }
  }

  lemma {:induction false} SquashSkip(s: string)
    ensures Squash(Skip(s)) == Squash(s)
  {
    if |s| > 0 && IsSpace(s[0]) {
      SquashSkip(s[1..]);
    }
  }

  lemma {:induction false} SquashSolid(s: string)
    requires Solid(s)
    ensures Squash(s) == s
  {
    if s != [] {
      SquashSolid(s[1..]);
    }
  }

  /** A reader that consumed `tok` and left `r` consumed `tok` and white space before it. */
  lemma SquashTaken(s: string, tok: string, r: string)
    requires Solid(tok) && Skip(s) == tok + r
    ensures Squash(s) == tok + Squash(r)
  {
    hide Skip, Squash;
    SquashSkip(s);
    SquashConcat(tok, r);
    SquashSolid(tok);
  }

  lemma SquashNumber(s: string, b: Bound)
    requires Number(s, b).Ok?
    ensures Squash(s) == Digits(Number(s, b).value.0) + Squash(Number(s, b).value.1)
  {
    hide Skip, Squash, IsSpace, DigitRun, IsWord, Digits, Value, IsDigit, Solid;
    var t := Skip(s);
    var n := DigitRun(t);
    var ds := t[..n];
    DigitsOfValue(ds);
    DigitsAreSolid(ds);
    assert t == ds + t[n..];
    SquashTaken(s, ds, t[n..]);
  }
}
