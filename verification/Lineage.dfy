/** Everything that self-play's search can reach: programs sampled, read from a text, mutated and
    crossed, in any number of steps. */
module Lineages {
  import opened Wrappers
  import opened Text
  import opened Grammar
  import opened Printer
  import R = Reading
  import opened RoundTripLists
  import opened AcceptingLists
  import opened Sampling
  import opened Grafting
  import opened Meaning
  import opened Renaming
  import opened Search

  /** How a program came about. Every step holds the program it gave. */
  datatype Lineage =
    | Sampled(body: ListExpr)
    | Read(text: string, body: ListExpr)
    | Mutant(parent: Lineage, site: seq<nat>, drawn: ListExpr, tag: string, body: ListExpr)
    | Hybrid(a: Lineage, b: Lineage, crossed: bool, site: seq<nat>, donor: seq<nat>, tag: string, body: ListExpr)

  /** Each step is one that sampling, the parser, bounded mutation or bounded crossover makes. */
  ghost predicate Arises(g: Limits, secondOrder: bool, o: Lineage) {
    match o
    case Sampled(e) => IsSample(g, secondOrder, e, 0)
    case Read(text, e) => R.Parse(g, secondOrder, text) == Ok(e)
    case Mutant(p, site, drawn, tag, e) =>
      Arises(g, secondOrder, p) && Mutates(g, secondOrder, p.body, true, site, drawn, tag, e)
    case Hybrid(a, b, crossed, site, donor, tag, e) =>
      && Arises(g, secondOrder, a) && Arises(g, secondOrder, b)
      && Crosses(g, a.body, b.body, true, crossed, site, donor, tag, e)
  }

  // ----- every program reached is well formed -----

  lemma SampleIsWellFormed(g: Limits, secondOrder: bool, e: ListExpr, d: nat)
    requires IsSample(g, secondOrder, e, d) && d <= g.maxDepth
    ensures Speakable(g, secondOrder, e) && Fits(g, e, d)
  {
    hide Writable, Closed, Fits, NoOscillator, Binders, Names;
  }

  lemma WellFormedIs(g: Limits, secondOrder: bool, e: ListExpr)
    ensures WellFormed(g, secondOrder, e) <==> Speakable(g, secondOrder, e) && Fits(g, e, 0)
  {
    hide Writable, Closed, Fits, NoOscillator;
  }

  /** A bounded mutant of a well-formed program is well formed. */
  lemma MutantIsWellFormed(g: Limits, secondOrder: bool, p: ListExpr, site: seq<nat>, drawn: ListExpr, tag: string,
                           out: ListExpr)
    ensures WellFormed(g, secondOrder, p) && Mutates(g, secondOrder, p, true, site, drawn, tag, out) ==>
              WellFormed(g, secondOrder, out)
  {
    hide IsSample, Speakable, Fits, Freshen, Put, IsPath, IsTag, Tags, WellFormed;
    if WellFormed(g, secondOrder, p) && Mutates(g, secondOrder, p, true, site, drawn, tag, out) {
      WellFormedIs(g, secondOrder, p);
      SubtreeKeeps(g, secondOrder, p, 0, site);
      SampleIsWellFormed(g, secondOrder, drawn, |site|);
      FreshenKeeps(g, secondOrder, drawn, tag, |site|);
      GraftKeeps(g, secondOrder, p, 0, site, Freshen(drawn, tag));
      WellFormedIs(g, secondOrder, out);
    }
  }

  /** A bounded hybrid of well-formed programs is well formed. */
  lemma HybridIsWellFormed(g: Limits, secondOrder: bool, a: ListExpr, b: ListExpr, crossed: bool, site: seq<nat>,
                           donor: seq<nat>, tag: string, out: ListExpr)
    ensures && WellFormed(g, secondOrder, a) && WellFormed(g, secondOrder, b)
            && Crosses(g, a, b, true, crossed, site, donor, tag, out) ==>
              WellFormed(g, secondOrder, out)
  {
    hide Speakable, Fits, Freshen, Put, IsPath, IsTag, Tags, WellFormed, At, Closed;
    if WellFormed(g, secondOrder, a) && WellFormed(g, secondOrder, b)
      && Crosses(g, a, b, true, crossed, site, donor, tag, out) && crossed
    {
      WellFormedIs(g, secondOrder, a);
      WellFormedIs(g, secondOrder, b);
      SubtreeKeeps(g, secondOrder, b, 0, donor);
      var graft := At(b, donor);
      FreshenKeeps(g, secondOrder, graft, tag, |site|);
      GraftKeeps(g, secondOrder, a, 0, site, Freshen(graft, tag));
      WellFormedIs(g, secondOrder, out);
    }
  }

  /** Every finite chain of sampling, reading, bounded mutation and bounded crossover stays well formed:
      within the depth limit, closed, and read back by the parser from its own source. */
  lemma {:induction false} EveryLineageIsWellFormed(g: Limits, secondOrder: bool, o: Lineage)
    requires g.Readable()
    ensures Arises(g, secondOrder, o) ==>
              && WellFormed(g, secondOrder, o.body)
              && R.Parse(g, secondOrder, Source(o.body)) == Ok(o.body)
    decreases o
  {
    hide WellFormed, Source, BodyText, IsSample, Mutates, Crosses, R.Parse;
    match o
    case Sampled(e) =>
      if Arises(g, secondOrder, o) {
        SampleIsWellFormed(g, secondOrder, e, 0);
        WellFormedIs(g, secondOrder, e);
        RoundTripsExactly(g, secondOrder, e);
      }
    case Read(text, e) =>
      if Arises(g, secondOrder, o) {
        ParseAccepts(g, secondOrder, text);
        RoundTripsExactly(g, secondOrder, e);
      }
    case Mutant(p, site, drawn, tag, e) =>
      EveryLineageIsWellFormed(g, secondOrder, p);
      MutantIsWellFormed(g, secondOrder, p.body, site, drawn, tag, e);
      RoundTripsExactly(g, secondOrder, e);
    case Hybrid(a, b, crossed, site, donor, tag, e) =>
      EveryLineageIsWellFormed(g, secondOrder, a);
      EveryLineageIsWellFormed(g, secondOrder, b);
      HybridIsWellFormed(g, secondOrder, a.body, b.body, crossed, site, donor, tag, e);
      RoundTripsExactly(g, secondOrder, e);
  }

  /** Well formed but for its depth, so that its source is read back exactly when it is within the limit. */
  ghost predicate ReadBackIfShallow(g: Limits, secondOrder: bool, e: ListExpr) {
    Speakable(g, secondOrder, e) && (R.Parse(g, secondOrder, Source(e)) == Ok(e) <==> Fits(g, e, 0))
  }

  lemma SpeakableReadsBack(g: Limits, secondOrder: bool, e: ListExpr)
    requires g.Readable() && Speakable(g, secondOrder, e)
    ensures ReadBackIfShallow(g, secondOrder, e)
  {
    hide Speakable, Fits, WellFormed, R.Parse, Source, BodyText;
    RoundTripsExactly(g, secondOrder, e);
    WellFormedIs(g, secondOrder, e);
  }

  /** An unbounded mutant can exceed the depth limit, but nothing else. */
  lemma UnboundedMutant(g: Limits, secondOrder: bool, p: ListExpr, site: seq<nat>, drawn: ListExpr, tag: string,
                        out: ListExpr)
    requires g.Readable()
    ensures Speakable(g, secondOrder, p) && Mutates(g, secondOrder, p, false, site, drawn, tag, out) ==>
              ReadBackIfShallow(g, secondOrder, out)
  {
    hide Speakable, Fits, Freshen, Put, IsPath, IsTag, Tags, ReadBackIfShallow, IsSample;
    if Speakable(g, secondOrder, p) && Mutates(g, secondOrder, p, false, site, drawn, tag, out) {
      SampleIsWellFormed(g, secondOrder, drawn, 0);
      FreshenKeeps(g, secondOrder, drawn, tag, 0);
      GraftKeeps(g, secondOrder, p, 0, site, Freshen(drawn, tag));
      SpeakableReadsBack(g, secondOrder, out);
    }
  }

  lemma HybridIsSpeakable(g: Limits, secondOrder: bool, a: ListExpr, b: ListExpr, site: seq<nat>, donor: seq<nat>,
                          tag: string)
    requires IsPath(a, site) && IsPath(b, donor) && IsTag(tag)
    requires Speakable(g, secondOrder, a) && Speakable(g, secondOrder, b)
    ensures Speakable(g, secondOrder, Put(a, site, Freshen(At(b, donor), tag)))
  {
    hide *;
    SubtreeKeeps(g, secondOrder, b, 0, donor);
    FreshenKeeps(g, secondOrder, At(b, donor), tag, 0);
    GraftKeeps(g, secondOrder, a, 0, site, Freshen(At(b, donor), tag));
  }

  lemma CrossingIs(g: Limits, a: ListExpr, b: ListExpr, bounded: bool, crossed: bool, site: seq<nat>, donor: seq<nat>,
                   tag: string, out: ListExpr)
    requires Crosses(g, a, b, bounded, crossed, site, donor, tag, out)
    ensures if crossed then
              IsPath(a, site) && IsPath(b, donor) && IsTag(tag) && out == Put(a, site, Freshen(At(b, donor), tag))
            else out == a
  {
    hide Fits, Freshen, Put, IsPath, IsTag, Tags, At, Closed;
  }

  /** So can an unbounded hybrid. */
  lemma UnboundedHybrid(g: Limits, secondOrder: bool, a: ListExpr, b: ListExpr, crossed: bool, site: seq<nat>,
                        donor: seq<nat>, tag: string, out: ListExpr)
    requires g.Readable()
    ensures && Speakable(g, secondOrder, a) && Speakable(g, secondOrder, b)
            && Crosses(g, a, b, false, crossed, site, donor, tag, out) ==>
              ReadBackIfShallow(g, secondOrder, out)
  {
    hide *;
    if Speakable(g, secondOrder, a) && Speakable(g, secondOrder, b)
      && Crosses(g, a, b, false, crossed, site, donor, tag, out)
    {
      CrossingIs(g, a, b, false, crossed, site, donor, tag, out);
      if crossed {
        HybridIsSpeakable(g, secondOrder, a, b, site, donor, tag);
      }
      SpeakableReadsBack(g, secondOrder, out);
    }
  }

  // ----- every graft means what its donor meant -----

  /** What is kept by every step and makes every tag safe: no scan's element name continues its
      accumulator's, and no template's variable is the program's input. */
  predicate Apart(e: ListExpr) {
    match e
    case Range(_) => true
    case Repeat(_, _) => true
    case Osc(_) => true
    case Nest(_, _, _) => true
    case Map(xs, _, _) => Apart(xs)
    case Scan(xs, _, a, x, _) => Apart(xs) && !(a <= x)
    case Filter(xs, _, _, _) => Apart(xs)
    case Reverse(xs) => Apart(xs)
    case Sort(xs) => Apart(xs)
    case Take(xs, _) => Apart(xs)
    case Concat(l, r) => Apart(l) && Apart(r)
    case Copy(xs, _) => Apart(xs)
    case Cycle(v, _, _) => v != "s"
  }

  lemma {:induction false} OnlyInput(e: IntExpr, v: string)
    requires IntClosed(e, TOP_SCOPE)
    ensures v != "s" ==> !Mentions(e, v)
  {
    match e
    case Lit(_) =>
    case Var(_) =>
    case Mod(a, _) => OnlyInput(a, v);
    case Add(l, r) => OnlyInput(l, v); OnlyInput(r, v);
    case Sub(l, r) => OnlyInput(l, v); OnlyInput(r, v);
    case Mul(l, r) => OnlyInput(l, v); OnlyInput(r, v);
  }

  lemma {:induction false} ApartIsSafe(e: ListExpr, tag: string)
    requires Closed(e, TOP_SCOPE)
    ensures Apart(e) ==> Safe(e, tag)
    decreases e
  {
    hide IntClosed, Mentions;
    match e
    case Map(xs, _, _) => ApartIsSafe(xs, tag);
    case Scan(xs, _, _, _, _) => ApartIsSafe(xs, tag);
    case Filter(xs, _, _, _) => ApartIsSafe(xs, tag);
    case Reverse(xs) => ApartIsSafe(xs, tag);
    case Sort(xs) => ApartIsSafe(xs, tag);
    case Take(xs, _) => ApartIsSafe(xs, tag);
    case Concat(l, r) => ApartIsSafe(l, tag); ApartIsSafe(r, tag);
    case Copy(xs, _) => ApartIsSafe(xs, tag);
    case Cycle(v, elems, _) =>
      forall i | 0 <= i < |elems| ensures v != "s" ==> !Mentions(elems[i], v) {
        OnlyInput(elems[i], v);
      }
    case _ =>
  }

  lemma TaggedApart(a: string, x: string, tag: string)
    ensures !(a <= x) ==> !(a + tag <= x + tag)
  {
    if a + tag <= x + tag {
      assert |a| <= |x|;
      forall i | 0 <= i < |a| ensures a[i] == x[i] {
        assert (a + tag)[i] == (x + tag)[i];
      }
    }
  }

  lemma {:induction false} FreshenApart(e: ListExpr, tag: string)
    requires |tag| > 1
    ensures Apart(e) ==> Apart(Freshen(e, tag))
    decreases e
  {
    hide Rename;
    match e
    case Map(xs, _, _) => FreshenApart(xs, tag);
    case Scan(xs, _, a, x, _) =>
      FreshenApart(xs, tag);
      TaggedApart(a, x, tag);
    case Filter(xs, _, _, _) => FreshenApart(xs, tag);
    case Reverse(xs) => FreshenApart(xs, tag);
    case Sort(xs) => FreshenApart(xs, tag);
    case Take(xs, _) => FreshenApart(xs, tag);
    case Concat(l, r) => FreshenApart(l, tag); FreshenApart(r, tag);
    case Copy(xs, _) => FreshenApart(xs, tag);
    case Cycle(v, _, _) => assert |v + tag| > 1;
    case _ =>
  }

  lemma ApartKid(e: ListExpr, i: nat, kid: ListExpr)
    requires i < |Kids(e)|
    ensures Apart(e) ==> Apart(Kids(e)[i])
    ensures Apart(e) && Apart(kid) ==> Apart(WithKid(e, i, kid))
  {
  }

  lemma {:induction false} ApartSubtree(e: ListExpr, path: seq<nat>)
    requires IsPath(e, path)
    ensures Apart(e) ==> Apart(At(e, path))
    decreases e
  {
    hide Apart, Kids;
    if path != [] {
      ApartKid(e, path[0], e);
      ApartSubtree(Kids(e)[path[0]], path[1..]);
    }
  }

  lemma {:induction false} ApartGraft(e: ListExpr, path: seq<nat>, sub: ListExpr)
    requires IsPath(e, path)
    ensures Apart(e) && Apart(sub) ==> Apart(Put(e, path, sub))
    decreases e
  {
    hide Apart, Kids, WithKid;
    if path != [] {
      var i := path[0];
      ApartGraft(Kids(e)[i], path[1..], sub);
      ApartKid(e, i, Put(Kids(e)[i], path[1..], sub));
    }
  }

  // ----- samples are apart -----

  /** A number whose decimal string starts another's is that number, or at most a tenth of it. */
  lemma {:induction false} PrefixIsSmall(n: nat, m: nat)
    requires Digits(n) <= Digits(m)
    ensures n == m || 10 * n <= m
    decreases m
  {
    hide Canonical, Value;
    var p, s := Digits(n), Digits(m);
    ValueOfDigits(n);
    ValueOfDigits(m);
    if |p| == |s| {
      assert p == s;
    } else {
      assert m >= 10;
      assert p <= Digits(m / 10);
      PrefixIsSmall(n, m / 10);
    }
  }

  lemma NextNameIsApart(n: nat)
    requires n >= 1
    ensures !(VarName(n) <= VarName(n + 1))
  {
    hide Digits;
    if VarName(n) <= VarName(n + 1) {
      assert VarName(n)[1..] == Digits(n) && VarName(n + 1)[1..] == Digits(n + 1);
      assert Digits(n) <= Digits(n + 1);
      PrefixIsSmall(n, n + 1);
      assert false;
    }
  }

  /** A tree whose variables are numbered in the order they are bound is apart. */
  lemma {:induction false} NumberedIsApart(e: ListExpr, i: nat)
    ensures Binders(e) == Names(i, i + |Binders(e)|) ==> Apart(e)
    decreases e
  {
    hide VarName, Names;
    if Binders(e) == Names(i, i + |Binders(e)|) {
      match e
      case Map(xs, _, _) => FirstNames(e, xs, i); NumberedIsApart(xs, i);
      case Filter(xs, _, _, _) => FirstNames(e, xs, i); NumberedIsApart(xs, i);
      case Scan(xs, _, a, x, _) =>
        FirstNames(e, xs, i);
        NumberedIsApart(xs, i);
        PairIsApart(e, Binders(xs), a, x, i);
      case Reverse(xs) => NumberedIsApart(xs, i);
      case Sort(xs) => NumberedIsApart(xs, i);
      case Take(xs, _) => NumberedIsApart(xs, i);
      case Copy(xs, _) => NumberedIsApart(xs, i);
      case Concat(l, r) =>
        FirstNames(e, l, i);
        NumberedIsApart(l, i);
        LastNames(e, l, r, i);
        NumberedIsApart(r, i + |Binders(l)|);
      case Cycle(v, _, _) =>
        assert Binders(e)[0] == v;
        NotInput(i + 1);
      case _ =>
    }
  }

  lemma PairIsApart(e: ListExpr, before: seq<string>, a: string, x: string, i: nat)
    requires Binders(e) == before + [a, x] && Binders(e) == Names(i, i + |Binders(e)|)
    ensures !(a <= x)
  {
    hide VarName, Names, Binders;
    var k := |before|;
    assert Binders(e)[k] == a && Binders(e)[k + 1] == x;
    NextNameIsApart(i + k + 1);
  }

  lemma NotInput(n: nat)
    ensures VarName(n) != "s"
  {
    assert VarName(n)[0] == 'v' && "s"[0] == 's';
  }

  lemma FirstNames(e: ListExpr, sub: ListExpr, i: nat)
    requires Binders(sub) <= Binders(e) && Binders(e) == Names(i, i + |Binders(e)|)
    ensures Binders(sub) == Names(i, i + |Binders(sub)|)
  {
    hide VarName, Names, Binders;
    var a, b := Binders(sub), Names(i, i + |Binders(sub)|);
    forall k | 0 <= k < |a| ensures a[k] == b[k] {
      assert a[k] == Binders(e)[k];
    }
  }

  lemma LastNames(e: ListExpr, l: ListExpr, r: ListExpr, i: nat)
    requires Binders(e) == Binders(l) + Binders(r) && Binders(e) == Names(i, i + |Binders(e)|)
    ensures Binders(r) == Names(i + |Binders(l)|, i + |Binders(l)| + |Binders(r)|)
  {
    hide VarName, Names, Binders;
    var j := |Binders(l)|;
    var a, b := Binders(r), Names(i + j, i + j + |Binders(r)|);
    forall k | 0 <= k < |a| ensures a[k] == b[k] {
      assert a[k] == Binders(e)[j + k];
    }
  }

  lemma SampleIsApart(g: Limits, secondOrder: bool, e: ListExpr, d: nat)
    ensures IsSample(g, secondOrder, e, d) ==> Apart(e)
  {
    hide Writable, Closed, Fits, NoOscillator, Names, Binders, Apart;
    NumberedIsApart(e, 0);
  }

  /** Whatever was read from a text along the way was apart. */
  predicate ReadsApart(o: Lineage) {
    match o
    case Sampled(_) => true
    case Read(_, e) => Apart(e)
    case Mutant(p, _, _, _, _) => ReadsApart(p)
    case Hybrid(a, b, _, _, _, _, _) => ReadsApart(a) && ReadsApart(b)
  }

  lemma {:induction false} LineageIsApart(g: Limits, secondOrder: bool, o: Lineage)
    ensures Arises(g, secondOrder, o) && ReadsApart(o) ==> Apart(o.body)
    decreases o
  {
    hide Apart, IsSample, R.Parse, IsTag, Tags, Put, At, Freshen, IsPath, Closed, Fits;
    match o
    case Sampled(e) => SampleIsApart(g, secondOrder, e, 0);
    case Read(_, _) =>
    case Mutant(p, site, drawn, tag, e) =>
      LineageIsApart(g, secondOrder, p);
      if Arises(g, secondOrder, o) {
        SampleIsApart(g, secondOrder, drawn, |site|);
        FreshenApart(drawn, tag);
        ApartGraft(p.body, site, Freshen(drawn, tag));
      }
    case Hybrid(a, b, crossed, site, donor, tag, e) =>
      LineageIsApart(g, secondOrder, a);
      LineageIsApart(g, secondOrder, b);
      if Arises(g, secondOrder, o) && crossed {
        ApartSubtree(b.body, donor);
        FreshenApart(At(b.body, donor), tag);
        ApartGraft(a.body, site, Freshen(At(b.body, donor), tag));
      }
  }

  /** A tagged graft that was safe for its tag puts exactly the donor's list at its site. */
  lemma GraftMeansItsDonor(g: Limits, secondOrder: bool, rem: Remainder, e: ListExpr, site: seq<nat>, sub: ListExpr,
                           tag: string, input: int)
    requires IsPath(e, site) && Speakable(g, secondOrder, sub) && |tag| > 0 && Safe(sub, tag)
    ensures ListValue(rem, Put(e, site, Freshen(sub, tag)), input) == ListValue(rem, Put(e, site, sub), input)
  {
    hide IsPath, Put, Safe, Freshen, ListValue, Writable, Closed, Named;
    WritableIsNamed(g, sub);
    FreshenKeepsMeaning(rem, sub, tag, input);
    SameValueInPlace(rem, e, site, Freshen(sub, tag), sub, input);
  }

  /** Along any lineage every mutant computes what its parent computes with the sample, as drawn, at the
      site; and, if its texts were apart, every hybrid what `a` computes with `b`'s own subtree there. */
  lemma GraftsKeepMeaning(g: Limits, secondOrder: bool, rem: Remainder, o: Lineage, input: int)
    requires g.Readable()
    ensures Arises(g, secondOrder, o) && o.Mutant? ==>
              && IsPath(o.parent.body, o.site)
              && ListValue(rem, o.body, input) == ListValue(rem, Put(o.parent.body, o.site, o.drawn), input)
    ensures Arises(g, secondOrder, o) && ReadsApart(o) && o.Hybrid? && o.crossed ==>
              && IsPath(o.a.body, o.site) && IsPath(o.b.body, o.donor)
              && ListValue(rem, o.body, input)
                 == ListValue(rem, Put(o.a.body, o.site, At(o.b.body, o.donor)), input)
  {
    hide Apart, IsSample, R.Parse, IsTag, Tags, Put, At, Freshen, IsPath, Closed, Fits, Speakable, Safe, ListValue,
         WellFormed;
    if Arises(g, secondOrder, o) && o.Mutant? {
      EveryLineageIsWellFormed(g, secondOrder, o.parent);
      WellFormedIs(g, secondOrder, o.parent.body);
      SubtreeKeeps(g, secondOrder, o.parent.body, 0, o.site);
      SampleIsWellFormed(g, secondOrder, o.drawn, |o.site|);
      SampleIsApart(g, secondOrder, o.drawn, |o.site|);
      SpeakableIsSafe(g, secondOrder, o.drawn, o.tag);
      GraftMeansItsDonor(g, secondOrder, rem, o.parent.body, o.site, o.drawn, o.tag, input);
    } else if Arises(g, secondOrder, o) && ReadsApart(o) && o.Hybrid? && o.crossed {
      var sub := At(o.b.body, o.donor);
      EveryLineageIsWellFormed(g, secondOrder, o.b);
      WellFormedIs(g, secondOrder, o.b.body);
      SubtreeKeeps(g, secondOrder, o.b.body, 0, o.donor);
      LineageIsApart(g, secondOrder, o.b);
      ApartSubtree(o.b.body, o.donor);
      SpeakableIsSafe(g, secondOrder, sub, o.tag);
      GraftMeansItsDonor(g, secondOrder, rem, o.a.body, o.site, sub, o.tag, input);
    }
  }

  lemma SpeakableIsSafe(g: Limits, secondOrder: bool, e: ListExpr, tag: string)
    requires Speakable(g, secondOrder, e) && Apart(e)
    ensures Safe(e, tag)
  {
    hide Apart, Safe, Writable, Closed;
    ApartIsSafe(e, tag);
  }

  // ----- and when it need not -----

  /** `a` crossed with the whole of a program that was read from its own source. */
  ghost function CrossedWithRead(a: Lineage, b: ListExpr, site: seq<nat>, tag: string): (o: Lineage)
    requires IsPath(a.body, site)
  {
    Hybrid(a, Read(Source(b), b), true, site, [], tag, Put(a.body, site, Freshen(At(b, []), tag)))
  }

  lemma TagOfOne()
    ensures Tags('c', "c1")
  {
    assert Digits(1) == "1" && "c1" == ['c'] + Digits(1);
  }

  /** A well-formed program crosses whole, at any site where it fits. */
  lemma CrossingArises(a: Lineage, b: ListExpr, site: seq<nat>)
    requires Arises(SHIPPED, false, a) && IsPath(a.body, site)
    requires WellFormed(SHIPPED, false, b) && Fits(SHIPPED, b, |site|)
    ensures Arises(SHIPPED, false, CrossedWithRead(a, b, site, "c1"))
  {
    hide Source, BodyText, R.Parse, Writable, Closed, Fits, Freshen, Put, Tags, IsTag;
    ShippedLimitsServe();
    ParseInvertsSource(SHIPPED, false, b);
    TagOfOne();
  }

  /** Whatever came before, and at every site with room below it, crossover can tag a scan that was read from
      a text so that the graft computes another list than its donor. Grafted at the root, so does the hybrid. */
  lemma CrossoverCaptures(rem: Remainder, a: Lineage, site: seq<nat>, input: int)
    requires Arises(SHIPPED, false, a) && IsPath(a.body, site) && |site| < SHIPPED.maxDepth
    ensures var o := CrossedWithRead(a, CAPTURED_SCAN, site, "c1");
            && Arises(SHIPPED, false, o) && IsPath(o.body, site)
            && ListValue(rem, At(o.body, site), input) == Some([7, 0, 1])
            && ListValue(rem, At(o.b.body, o.donor), input) == Some([7, 7, 7])
            && (site == [] ==> ListValue(rem, o.body, input)
                               != ListValue(rem, Put(a.body, site, At(o.b.body, o.donor)), input))
  {
    hide ListValue, Arises, Freshen, Source, WellFormed, Safe;
    CapturedAreWellFormed();
    TaggedScanIsCaptured(rem, input);
    assert Fits(SHIPPED, CAPTURED_SCAN, |site|);
    CrossingArises(a, CAPTURED_SCAN, site);
    PutGet(a.body, site, Freshen(CAPTURED_SCAN, "c1"));
  }

  /** So it can a template that names its own variable. */
  lemma CrossoverFrees(rem: Remainder, a: Lineage, site: seq<nat>, input: int)
    requires Arises(SHIPPED, false, a) && IsPath(a.body, site) && |site| <= SHIPPED.maxDepth && IsWord64(input)
    ensures var o := CrossedWithRead(a, CAPTURED_CYCLE, site, "c1");
            && Arises(SHIPPED, false, o) && IsPath(o.body, site)
            && ListValue(rem, At(o.body, site), input) == Some([input, 9, input, 9])
            && ListValue(rem, At(o.b.body, o.donor), input) == Some([0, 9, 2, 9])
            && (site == [] ==> ListValue(rem, o.body, input)
                               != ListValue(rem, Put(a.body, site, At(o.b.body, o.donor)), input))
  {
    hide ListValue, Arises, Freshen, Source, WellFormed, Safe;
    CapturedAreWellFormed();
    TaggedCycleIsFreed(rem, input);
    assert Fits(SHIPPED, CAPTURED_CYCLE, |site|);
    CrossingArises(a, CAPTURED_CYCLE, site);
    PutGet(a.body, site, Freshen(CAPTURED_CYCLE, "c1"));
    assert [input, 9, input, 9][0] == input && [input, 9, input, 9][2] == input;
    assert [0, 9, 2, 9][0] == 0 && [0, 9, 2, 9][2] == 2;
  }
}
