/** The search operators of self-play: mutation and crossover, bounded by the depth limit or not, and
    everything that any chain of them can reach. */
module Search {
  import opened Text
  import opened Grammar
  import opened Random
  import opened Sampling
  import opened Grafting

  /** A random tag: a letter, then a number below ten thousand. */
  ghost predicate Tags(letter: char, tag: string): (tags: bool)
    ensures tags ==> IsTag(tag) && |tag| > 1
  {
    IsTag(tag) && exists n: nat :: n < 10_000 && tag == [letter] + Digits(n)
  }

  function TagFrom(letter: char, s: State): string {
    [letter] + Digits(IndexOf(10_000, Word(s)))
  }

  method Tag(letter: char, rng: Rng) returns (tag: string)
    requires IsAlpha(letter)
    modifies rng
    ensures Tags(letter, tag) && tag == TagFrom(letter, old(rng.state)) && rng.state == After(old(rng.state))
  {
    hide Digits, IsWord, IsDigit, IndexOf, Word, After;
    var n := rng.Below(10_000);
    tag := [letter] + Digits(n);
    TagIsTag(letter, n);
  }

  lemma TagIsTag(letter: char, n: nat)
    requires IsAlpha(letter)
    ensures IsTag([letter] + Digits(n))
  {
    var ds := Digits(n);
    var tag := [letter] + ds;
    forall i | 0 <= i < |tag| ensures IsWord(tag[i]) {
      assert i > 0 ==> tag[i] == ds[i - 1];
    }
    assert tag[|tag| - 1] == ds[|ds| - 1];
  }

  // ----- mutation -----

  /** `out` is `p` with a fresh sample, its names tagged, in place of the subtree at `site`. The sample
      is drawn for the site's depth if `bounded`, for depth 0 if not. */
  ghost predicate Mutates(g: Limits, secondOrder: bool, p: ListExpr, bounded: bool, site: seq<nat>,
                          drawn: ListExpr, tag: string, out: ListExpr) {
    && IsPath(p, site) && Tags('m', tag)
    && IsSample(g, secondOrder, drawn, if bounded then |site| else 0)
    && out == Put(p, site, Freshen(drawn, tag))
  }

  /** A mutation's draws, in their order: its site, the sample for it, and the tag. */
  function MutationFrom(g: Limits, policy: Policy, s: State, p: ListExpr, bounded: bool):
    (r: (seq<nat>, ListExpr, string, State))
    requires g.Samplable() && policy.Valid()
  {
    var site := Paths(p)[IndexOf(|Paths(p)|, Word(s))];
    var (drawn, t, _) := ListFrom(g, policy, After(s), 0, if bounded then |site| else 0, TOP_SCOPE);
    (site, drawn, TagFrom('m', t), After(t))
  }

  method MutateBounded(g: Limits, policy: Policy, p: ListExpr, rng: Rng, bounded: bool)
    returns (out: ListExpr, ghost site: seq<nat>, ghost drawn: ListExpr, ghost tag: string)
    requires g.Samplable() && policy.Valid()
    modifies rng
    ensures Mutates(g, policy.SecondOrder(), p, bounded, site, drawn, tag, out)
    ensures (site, drawn, tag, rng.state) == MutationFrom(g, policy, old(rng.state), p, bounded)
  {
    assert IsAlpha('m');
    hide IsSample, Paths, Freshen, Tags, TagFrom, Put, Word, After, IndexOf, ListFrom;
    var paths := Paths(p);
    var i := rng.Below(|paths|);
    var path := paths[i];
    PathsAreAll(p, path);
    var depth := if bounded then |path| else 0;
    var e, _ := SampleAt(g, policy, rng, depth);
    var t := Tag('m', rng);
    out := Put(p, path, Freshen(e, t));
    site, drawn, tag := path, e, t;
  }

  // ----- crossover -----

  /** The subtree of `b` at `donor` may take the place of the subtree of `a` at `site`. */
  predicate MayCross(g: Limits, a: ListExpr, b: ListExpr, bounded: bool, site: seq<nat>, donor: seq<nat>) {
    && IsPath(a, site) && IsPath(b, donor)
    && Closed(At(b, donor), TOP_SCOPE) && (bounded ==> Fits(g, At(b, donor), |site|))
  }

  ghost predicate AllDonors(b: ListExpr, donors: seq<seq<nat>>) {
    forall path :: path in donors <==> IsPath(b, path) && Closed(At(b, path), TOP_SCOPE)
  }

  ghost predicate AllSites(a: ListExpr, sites: seq<seq<nat>>) {
    |sites| > 0 && forall path :: path in sites <==> IsPath(a, path)
  }

  predicate ArePaths(e: ListExpr, paths: seq<seq<nat>>) {
    forall i :: 0 <= i < |paths| ==> IsPath(e, paths[i])
  }

  lemma PathsArePaths(e: ListExpr)
    ensures ArePaths(e, Paths(e))
  {
    hide Paths, IsPath;
    forall i | 0 <= i < |Paths(e)| ensures IsPath(e, Paths(e)[i]) {
      PathsAreAll(e, Paths(e)[i]);
    }
  }

  /** Those of some paths whose subtrees are closed under the top scope, in their order. */
  function ClosedAmong(b: ListExpr, paths: seq<seq<nat>>): (donors: seq<seq<nat>>)
    requires ArePaths(b, paths)
    ensures ArePaths(b, donors)
  {
    if paths == [] then []
    else
      var n := |paths| - 1;
      ClosedAmong(b, paths[..n]) + if Closed(At(b, paths[n]), TOP_SCOPE) then [paths[n]] else []
  }

  lemma {:induction false} ClosedAmongHas(b: ListExpr, paths: seq<seq<nat>>, path: seq<nat>)
    requires ArePaths(b, paths)
    ensures path in ClosedAmong(b, paths) <==> IsPath(b, path) && path in paths && Closed(At(b, path), TOP_SCOPE)
  {
    hide IsPath, At, Closed;
    if paths != [] {
      var n := |paths| - 1;
      assert path in paths <==> path in paths[..n] || path == paths[n];
      ClosedAmongHas(b, paths[..n], path);
    }
  }

  /** The donors of `b`, in the order their paths are listed. */
  function DonorsOf(b: ListExpr): (donors: seq<seq<nat>>)
    ensures ArePaths(b, donors)
  {
    PathsArePaths(b);
    ClosedAmong(b, Paths(b))
  }

  lemma DonorsAreAll(b: ListExpr)
    ensures AllDonors(b, DonorsOf(b))
  {
    hide Paths, Closed, IsPath, At, ClosedAmong, ArePaths;
    PathsArePaths(b);
    forall path ensures path in DonorsOf(b) <==> IsPath(b, path) && Closed(At(b, path), TOP_SCOPE) {
      PathsAreAll(b, path);
      ClosedAmongHas(b, Paths(b), path);
    }
  }

  /** The paths of `b` whose subtrees are closed under the top scope. */
  method Donors(b: ListExpr) returns (donors: seq<seq<nat>>)
    ensures AllDonors(b, donors) && donors == DonorsOf(b)
  {
    hide Paths, Closed, IsPath, At, AllDonors;
    var paths := Paths(b);
    PathsArePaths(b);
    donors := [];
    for i := 0 to |paths|
      invariant donors == ClosedAmong(b, paths[..i])
    {
      assert paths[..i + 1][..i] == paths[..i];
      if Closed(At(b, paths[i]), TOP_SCOPE) {
        donors := donors + [paths[i]];
      }
    }
    assert paths[..|paths|] == paths;
    DonorsAreAll(b);
  }

  method Sites(a: ListExpr) returns (sites: seq<seq<nat>>)
    ensures AllSites(a, sites) && sites == Paths(a)
  {
    hide Paths, IsPath;
    sites := Paths(a);
    forall path ensures path in sites <==> IsPath(a, path) {
      PathsAreAll(a, path);
    }
  }

  predicate PairFitsAt(g: Limits, b: ListExpr, sites: seq<seq<nat>>, donors: seq<seq<nat>>, p: (nat, nat))
    requires ArePaths(b, donors)
  {
    p.0 < |sites| && p.1 < |donors| && Fits(g, At(b, donors[p.1]), |sites[p.0]|)
  }

  ghost predicate Fitting(g: Limits, b: ListExpr, sites: seq<seq<nat>>, donors: seq<seq<nat>>, pairs: seq<(nat, nat)>)
    requires ArePaths(b, donors)
  {
    forall p :: p in pairs <==> PairFitsAt(g, b, sites, donors, p)
  }

  /** The pairs of one site with the first `n` donors, where the donor fits there. */
  function PairsAt(g: Limits, b: ListExpr, sites: seq<seq<nat>>, donors: seq<seq<nat>>, si: nat, n: nat):
    seq<(nat, nat)>
    requires ArePaths(b, donors)
  {
    if n == 0 then []
    else
      PairsAt(g, b, sites, donors, si, n - 1)
      + if PairFitsAt(g, b, sites, donors, (si, n - 1)) then [(si, n - 1)] else []
  }

  /** The pairs of the first `n` sites with every donor, site by site. */
  function PairsOf(g: Limits, b: ListExpr, sites: seq<seq<nat>>, donors: seq<seq<nat>>, n: nat): seq<(nat, nat)>
    requires ArePaths(b, donors)
  {
    if n == 0 then []
    else PairsOf(g, b, sites, donors, n - 1) + PairsAt(g, b, sites, donors, n - 1, |donors|)
  }

  lemma {:induction false} PairsAtHas(g: Limits, b: ListExpr, sites: seq<seq<nat>>, donors: seq<seq<nat>>,
                                      si: nat, n: nat, p: (nat, nat))
    requires ArePaths(b, donors)
    ensures p in PairsAt(g, b, sites, donors, si, n) <==>
              p.0 == si && p.1 < n && PairFitsAt(g, b, sites, donors, p)
  {
    hide ArePaths, PairFitsAt;
    if n > 0 {
      PairsAtHas(g, b, sites, donors, si, n - 1, p);
    }
  }

  lemma {:induction false} PairsOfHas(g: Limits, b: ListExpr, sites: seq<seq<nat>>, donors: seq<seq<nat>>, n: nat,
                                      p: (nat, nat))
    requires ArePaths(b, donors)
    ensures p in PairsOf(g, b, sites, donors, n) <==> p.0 < n && PairFitsAt(g, b, sites, donors, p)
  {
    hide ArePaths, At, Fits, PairsAt;
    if n > 0 {
      PairsOfHas(g, b, sites, donors, n - 1, p);
      PairsAtHas(g, b, sites, donors, n - 1, |donors|, p);
    }
  }

  predicate ListedOnce(pairs: seq<(nat, nat)>) {
    forall i, j :: 0 <= i < j < |pairs| ==> pairs[i] != pairs[j]
  }

  lemma JoinedOnce(p: seq<(nat, nat)>, q: seq<(nat, nat)>)
    requires ListedOnce(p) && ListedOnce(q) && forall x :: x in p ==> x !in q
    ensures ListedOnce(p + q)
  {
    var all := p + q;
    forall i, j | 0 <= i < j < |all| ensures all[i] != all[j] {
      if i < |p| <= j {
        assert p[i] in p && q[j - |p|] in q;
      }
    }
  }

  lemma {:induction false} PairsAtListedOnce(g: Limits, b: ListExpr, sites: seq<seq<nat>>, donors: seq<seq<nat>>,
                                             si: nat, n: nat)
    requires ArePaths(b, donors)
    ensures ListedOnce(PairsAt(g, b, sites, donors, si, n))
  {
    hide ArePaths, PairFitsAt;
    if n > 0 {
      PairsAtListedOnce(g, b, sites, donors, si, n - 1);
      PairsAtHas(g, b, sites, donors, si, n - 1, (si, n - 1));
      var last := if PairFitsAt(g, b, sites, donors, (si, n - 1)) then [(si, n - 1)] else [];
      JoinedOnce(PairsAt(g, b, sites, donors, si, n - 1), last);
    }
  }

  /** No pair is listed twice, so that each has one chance of being drawn. */
  lemma {:induction false} PairsAreListedOnce(g: Limits, b: ListExpr, sites: seq<seq<nat>>, donors: seq<seq<nat>>,
                                              n: nat)
    requires ArePaths(b, donors)
    ensures ListedOnce(PairsOf(g, b, sites, donors, n))
  {
    hide ArePaths, PairFitsAt, PairsAt, ListedOnce;
    if n > 0 {
      PairsAreListedOnce(g, b, sites, donors, n - 1);
      PairsAtListedOnce(g, b, sites, donors, n - 1, |donors|);
      var p, q := PairsOf(g, b, sites, donors, n - 1), PairsAt(g, b, sites, donors, n - 1, |donors|);
      forall x | x in p ensures x !in q {
        PairsOfHas(g, b, sites, donors, n - 1, x);
        PairsAtHas(g, b, sites, donors, n - 1, |donors|, x);
      }
      JoinedOnce(p, q);
    } else {
      NoneListed();
    }
  }

  lemma NoneListed()
    ensures ListedOnce([])
  {
  }

  lemma PairsFit(g: Limits, b: ListExpr, sites: seq<seq<nat>>, donors: seq<seq<nat>>)
    requires ArePaths(b, donors)
    ensures Fitting(g, b, sites, donors, PairsOf(g, b, sites, donors, |sites|))
  {
    hide ArePaths, At, Fits, PairsOf;
    forall p ensures p in PairsOf(g, b, sites, donors, |sites|) <==> PairFitsAt(g, b, sites, donors, p) {
      PairsOfHas(g, b, sites, donors, |sites|, p);
    }
  }

  /** Every (site, donor) pair of indices where the donor fits at the site's depth, each once. */
  method FittingPairs(g: Limits, b: ListExpr, sites: seq<seq<nat>>, donors: seq<seq<nat>>)
    returns (pairs: seq<(nat, nat)>)
    requires ArePaths(b, donors)
    ensures Fitting(g, b, sites, donors, pairs) && ListedOnce(pairs)
    ensures pairs == PairsOf(g, b, sites, donors, |sites|)
  {
    hide ArePaths, At, Fits, ListedOnce, Fitting;
    pairs := [];
    for si := 0 to |sites|
      invariant pairs == PairsOf(g, b, sites, donors, si)
    {
      for di := 0 to |donors|
        invariant pairs == PairsOf(g, b, sites, donors, si) + PairsAt(g, b, sites, donors, si, di)
      {
        if PairFitsAt(g, b, sites, donors, (si, di)) {
          pairs := pairs + [(si, di)];
        }
      }
    }
    PairsFit(g, b, sites, donors);
    PairsAreListedOnce(g, b, sites, donors, |sites|);
  }

  /** What a crossover leaves: `a` itself when no pair may cross, else `a` with a donor, its names
      tagged, at a site. */
  ghost predicate Crosses(g: Limits, a: ListExpr, b: ListExpr, bounded: bool, crossed: bool, site: seq<nat>,
                          donor: seq<nat>, tag: string, out: ListExpr) {
    if crossed then
      && MayCross(g, a, b, bounded, site, donor) && Tags('c', tag)
      && out == Put(a, site, Freshen(At(b, donor), tag))
    else
      out == a && forall s, d :: !MayCross(g, a, b, bounded, s, d)
  }

  /** What a crossover draws: nothing, or a site, a donor and a tag. */
  datatype Crossing = Uncrossed | Crossed(site: seq<nat>, donor: seq<nat>, tag: string)

  /** A crossover's draws, in their order. Bounded: one of the pairs that fit, then the tag. Unbounded: a
      donor, the tag, and then a site. When there is nothing to draw from, nothing is drawn. */
  function CrossingFrom(g: Limits, s: State, a: ListExpr, b: ListExpr, bounded: bool): (r: (Crossing, State)) {
    if bounded then FittingFrom(g, s, b, Paths(a), DonorsOf(b)) else AnyFrom(s, Paths(a), DonorsOf(b))
  }

  function FittingFrom(g: Limits, s: State, b: ListExpr, sites: seq<seq<nat>>, donors: seq<seq<nat>>):
    (r: (Crossing, State))
    requires ArePaths(b, donors)
  {
    var pairs := PairsOf(g, b, sites, donors, |sites|);
    if pairs == [] then (Uncrossed, s)
    else
      var p := pairs[IndexOf(|pairs|, Word(s))];
      PairsOfHas(g, b, sites, donors, |sites|, p);
      (Crossed(sites[p.0], donors[p.1], TagFrom('c', After(s))), After(After(s)))
  }

  function AnyFrom(s: State, sites: seq<seq<nat>>, donors: seq<seq<nat>>): (r: (Crossing, State))
    requires |sites| > 0
  {
    if donors == [] then (Uncrossed, s)
    else
      var t := After(s);
      var u := After(t);
      (Crossed(sites[IndexOf(|sites|, Word(u))], donors[IndexOf(|donors|, Word(s))], TagFrom('c', t)), After(u))
  }

  method CrossoverBounded(g: Limits, a: ListExpr, b: ListExpr, rng: Rng, bounded: bool)
    returns (out: ListExpr, ghost crossed: bool, ghost site: seq<nat>, ghost donor: seq<nat>, ghost tag: string)
    modifies rng
    ensures Crosses(g, a, b, bounded, crossed, site, donor, tag, out)
    ensures (if crossed then Crossed(site, donor, tag) else Uncrossed, rng.state)
         == CrossingFrom(g, old(rng.state), a, b, bounded)
  {
    hide Paths, DonorsOf, FittingFrom, AnyFrom, Crosses, AllSites, AllDonors, ArePaths;
    var donors := Donors(b);
    var sites := Sites(a);
    if bounded {
      out, crossed, site, donor, tag := CrossFitting(g, a, b, rng, sites, donors);
    } else {
      out, crossed, site, donor, tag := CrossAny(g, a, b, rng, sites, donors);
    }
  }

  method CrossFitting(g: Limits, a: ListExpr, b: ListExpr, rng: Rng, sites: seq<seq<nat>>, donors: seq<seq<nat>>)
    returns (out: ListExpr, ghost crossed: bool, ghost site: seq<nat>, ghost donor: seq<nat>, ghost tag: string)
    requires AllSites(a, sites) && AllDonors(b, donors) && ArePaths(b, donors)
    modifies rng
    ensures Crosses(g, a, b, true, crossed, site, donor, tag, out)
    ensures (if crossed then Crossed(site, donor, tag) else Uncrossed, rng.state)
         == FittingFrom(g, old(rng.state), b, sites, donors)
  {
    assert IsAlpha('c');
    hide *;
    ghost var s := rng.state;
    var pairs := FittingPairs(g, b, sites, donors);
    NoFittingFrom(g, s, b, sites, donors);
    if pairs == [] {
      NoPairFits(g, a, b, sites, donors, pairs);
      return a, false, [], [], "";
    }
    var i := rng.Below(|pairs|);
    var (si, di) := pairs[i];
    var t := Tag('c', rng);
    PairFits(g, b, sites, donors, pairs, i);
    PairCrosses(g, a, b, true, sites, donors, si, di, t);
    return Put(a, sites[si], Freshen(At(b, donors[di]), t)), true, sites[si], donors[di], t;
  }

  lemma NoFittingFrom(g: Limits, s: State, b: ListExpr, sites: seq<seq<nat>>, donors: seq<seq<nat>>)
    requires ArePaths(b, donors)
    ensures var pairs := PairsOf(g, b, sites, donors, |sites|);
            if pairs == [] then FittingFrom(g, s, b, sites, donors) == (Uncrossed, s)
            else
              var p := pairs[IndexOf(|pairs|, Word(s))];
              p.0 < |sites| && p.1 < |donors| && FittingFrom(g, s, b, sites, donors)
                == (Crossed(sites[p.0], donors[p.1], TagFrom('c', After(s))), After(After(s)))
  {
    hide ArePaths, PairsOf, Word, After, TagFrom, IndexOf, At, Fits;
    var pairs := PairsOf(g, b, sites, donors, |sites|);
    if pairs != [] {
      PairsOfHas(g, b, sites, donors, |sites|, pairs[IndexOf(|pairs|, Word(s))]);
    }
  }

  method CrossAny(g: Limits, a: ListExpr, b: ListExpr, rng: Rng, sites: seq<seq<nat>>, donors: seq<seq<nat>>)
    returns (out: ListExpr, ghost crossed: bool, ghost site: seq<nat>, ghost donor: seq<nat>, ghost tag: string)
    requires AllSites(a, sites) && AllDonors(b, donors) && |sites| > 0
    modifies rng
    ensures Crosses(g, a, b, false, crossed, site, donor, tag, out)
    ensures (if crossed then Crossed(site, donor, tag) else Uncrossed, rng.state)
         == AnyFrom(old(rng.state), sites, donors)
  {
    assert IsAlpha('c');
    hide Crosses, AllSites, AllDonors, IsPath, Put, Freshen, At, Tags, TagFrom, Word, After, IndexOf;
    if donors == [] {
      NoDonors(g, a, b, donors);
      return a, false, [], [], "";
    }
    var di := rng.Below(|donors|);
    var t := Tag('c', rng);
    var si := rng.Below(|sites|);
    PairCrosses(g, a, b, false, sites, donors, si, di, t);
    return Put(a, sites[si], Freshen(At(b, donors[di]), t)), true, sites[si], donors[di], t;
  }

  lemma PairFits(g: Limits, b: ListExpr, sites: seq<seq<nat>>, donors: seq<seq<nat>>, pairs: seq<(nat, nat)>, i: nat)
    requires AllDonors(b, donors) && ArePaths(b, donors) && Fitting(g, b, sites, donors, pairs) && i < |pairs|
    ensures pairs[i].0 < |sites| && pairs[i].1 < |donors|
    ensures IsPath(b, donors[pairs[i].1]) && Fits(g, At(b, donors[pairs[i].1]), |sites[pairs[i].0]|)
  {
    hide IsPath, At, Closed, Fits;
    assert pairs[i] in pairs;
    assert donors[pairs[i].1] in donors;
  }

  lemma PairCrosses(g: Limits, a: ListExpr, b: ListExpr, bounded: bool, sites: seq<seq<nat>>, donors: seq<seq<nat>>,
                    si: nat, di: nat, tag: string)
    requires AllSites(a, sites) && AllDonors(b, donors) && si < |sites| && di < |donors|
    requires bounded ==> IsPath(b, donors[di]) && Fits(g, At(b, donors[di]), |sites[si]|)
    requires Tags('c', tag)
    ensures IsPath(a, sites[si]) && IsPath(b, donors[di])
    ensures Crosses(g, a, b, bounded, true, sites[si], donors[di], tag,
                    Put(a, sites[si], Freshen(At(b, donors[di]), tag)))
  {
    hide IsPath, At, Closed, Fits, Put, Freshen, Tags;
    assert sites[si] in sites && donors[di] in donors;
  }

  lemma NoPairFits(g: Limits, a: ListExpr, b: ListExpr, sites: seq<seq<nat>>, donors: seq<seq<nat>>, pairs: seq<(nat,
                   nat)>)
    requires AllSites(a, sites) && AllDonors(b, donors) && ArePaths(b, donors)
    requires Fitting(g, b, sites, donors, pairs) && pairs == []
    ensures Crosses(g, a, b, true, false, [], [], "", a)
  {
    hide IsPath, At, Closed, Fits;
    forall s, d ensures !MayCross(g, a, b, true, s, d) {
      PairIsListed(g, a, b, sites, donors, pairs, s, d);
    }
  }

  lemma PairIsListed(g: Limits, a: ListExpr, b: ListExpr, sites: seq<seq<nat>>, donors: seq<seq<nat>>,
                     pairs: seq<(nat, nat)>, s: seq<nat>, d: seq<nat>)
    requires AllSites(a, sites) && AllDonors(b, donors) && ArePaths(b, donors)
    requires Fitting(g, b, sites, donors, pairs)
    ensures MayCross(g, a, b, true, s, d) ==> pairs != []
  {
    hide IsPath, At, Closed, Fits;
    if MayCross(g, a, b, true, s, d) {
      var si :| 0 <= si < |sites| && sites[si] == s;
      var di :| 0 <= di < |donors| && donors[di] == d;
      assert (si, di) in pairs;
    }
  }

  lemma NoDonors(g: Limits, a: ListExpr, b: ListExpr, donors: seq<seq<nat>>)
    requires AllDonors(b, donors) && donors == []
    ensures Crosses(g, a, b, false, false, [], [], "", a)
  {
    hide IsPath, At, Closed, Fits;
  }
}
