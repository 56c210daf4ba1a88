/** The evaluation cache: results by definition and by the argument the substrate actually passes. */
module EvalCaches {
  type Byte = b: int | 0 <= b < 256

  /** A prepared program: the hash of its definition, and of its shape. */
  datatype Prepared = Prepared(exact: string, shape: string)

  datatype Outcome = Bytes(bytes: seq<Byte>, fuel: nat) | Refused(why: string)

  /** What executing a program for a seed gives, and the fuel it is metered at. */
  type Substrate = (Prepared, nat) -> (Outcome, nat)

  type Key = (string, nat)

  function KeyOf(p: Prepared, seed: nat): (k: Key)
    ensures k.1 < 256
  {
    (p.exact, seed % 256)
  }

  /** The substrate depends only on the definition and the seed modulo 256. */
  ghost predicate ByKey(sub: Substrate) {
    forall p, q, s, t :: KeyOf(p, s) == KeyOf(q, t) ==> sub(p, s) == sub(q, t)
  }

  /** Direct execution, by key. */
  ghost function Direct(sub: Substrate, k: Key): (Outcome, nat) {
    sub(Prepared(k.0, ""), k.1)
  }

  lemma DirectIs(sub: Substrate, p: Prepared, seed: nat)
    requires ByKey(sub)
    ensures Direct(sub, KeyOf(p, seed)) == sub(p, seed)
  {
    var k := KeyOf(p, seed);
    assert KeyOf(Prepared(k.0, ""), k.1) == k;
  }

  /** An outcome that cost nothing. */
  function Free(o: Outcome): (r: Outcome)
    ensures o.Bytes? ==> r == Bytes(o.bytes, 0)
    ensures o.Refused? ==> r == o
  {
    if o.Bytes? then o.(fuel := 0) else o
  }

  /** The fuel of executing each of the keys once. */
  ghost function Fuel(sub: Substrate, keys: set<Key>): nat {
    if keys == {} then 0
    else
      var k :| k in keys;
      Direct(sub, k).1 + Fuel(sub, keys - {k})
  }

  lemma {:induction false} FuelWithout(sub: Substrate, keys: set<Key>, k: Key)
    requires k in keys
    ensures Fuel(sub, keys) == Direct(sub, k).1 + Fuel(sub, keys - {k})
    decreases |keys|
  {
    var c :| c in keys && Fuel(sub, keys) == Direct(sub, c).1 + Fuel(sub, keys - {c});
    if c != k {
      FuelWithout(sub, keys - {c}, k);
      FuelWithout(sub, keys - {k}, c);
      assert keys - {c} - {k} == keys - {k} - {c};
    }
  }

  /** A new key's fuel joins the sum, whatever the others. */
  lemma FuelAdds(sub: Substrate, keys: set<Key>, k: Key)
    requires k !in keys
    ensures Fuel(sub, keys + {k}) == Fuel(sub, keys) + Direct(sub, k).1
  {
    FuelWithout(sub, keys + {k}, k);
    assert keys + {k} - {k} == keys;
  }

  /** Every result is what direct execution gives; the hits and the distinct keys are the calls; and the
      fuel spent is that of the distinct keys, once each. */
  ghost predicate Agrees(sub: Substrate, results: map<Key, Outcome>, hits: nat, fuelSpent: nat, calls: seq<Key>) {
    && (forall k :: k in results ==> results[k] == Direct(sub, k).0)
    && (forall k :: k in results <==> k in calls)
    && hits + |results| == |calls|
    && fuelSpent == Fuel(sub, results.Keys)
  }

  lemma HitAgrees(sub: Substrate, results: map<Key, Outcome>, hits: nat, fuelSpent: nat, calls: seq<Key>, k: Key)
    requires Agrees(sub, results, hits, fuelSpent, calls) && k in results
    ensures k in calls && results[k] == Direct(sub, k).0
    ensures Agrees(sub, results, hits + 1, fuelSpent, calls + [k])
  {
    hide Fuel;
  }

  lemma MissAgrees(sub: Substrate, results: map<Key, Outcome>, hits: nat, fuelSpent: nat, calls: seq<Key>, k: Key)
    requires Agrees(sub, results, hits, fuelSpent, calls) && k !in results
    ensures k !in calls
    ensures Agrees(sub, results[k := Direct(sub, k).0], hits, fuelSpent + Direct(sub, k).1, calls + [k])
  {
    hide Fuel;
    var more := results[k := Direct(sub, k).0];
    assert more.Keys == results.Keys + {k};
    FuelAdds(sub, results.Keys, k);
    assert |more| == |more.Keys| && |results| == |results.Keys|;
  }

  class EvalCache {
    const sub: Substrate
    var results: map<Key, Outcome>
    var hits: nat
    /** Fuel actually spent, refusals included. Hits add none. */
    var fuelSpent: nat
    /** The keys of every call so far. */
    ghost var calls: seq<Key>

    constructor (sub: Substrate)
      ensures this.sub == sub && Valid() && calls == [] && hits == 0 && fuelSpent == 0
    {
      this.sub := sub;
      results, hits, fuelSpent, calls := map[], 0, 0, [];
    }

    ghost predicate Valid()
      reads this
    {
      Agrees(sub, results, hits, fuelSpent, calls)
    }

    /** `run`: what direct execution would give, but for a fuel of nothing when it was run before. */
    method Run(p: Prepared, seed: nat) returns (o: Outcome)
      requires Valid() && ByKey(sub)
      modifies this
      ensures Valid() && calls == old(calls) + [KeyOf(p, seed)]
      ensures o == if KeyOf(p, seed) in old(calls) then Free(sub(p, seed).0) else sub(p, seed).0
      ensures hits == old(hits) + if KeyOf(p, seed) in old(calls) then 1 else 0
      ensures fuelSpent == old(fuelSpent) + if KeyOf(p, seed) in old(calls) then 0 else sub(p, seed).1
    {
      hide ByKey, Agrees, Direct, KeyOf, Free;
      var k := KeyOf(p, seed);
      DirectIs(sub, p, seed);
      if k in results {
        HitAgrees(sub, results, hits, fuelSpent, calls, k);
        hits := hits + 1;
        o := Free(results[k]);
      } else {
        MissAgrees(sub, results, hits, fuelSpent, calls, k);
        var (outcome, fuel) := sub(p, seed);
        fuelSpent := fuelSpent + fuel;
        results := results[k := outcome];
        o := outcome;
      }
      calls := calls + [k];
    }
  }

  /** The fuel of two programs is the fuel of one when they are the same definition for the same argument. */
  lemma SameKeySpendsOnce(sub: Substrate, p: Prepared, s: nat, q: Prepared, t: nat)
    requires ByKey(sub)
    ensures p.exact == q.exact && s % 256 == t % 256 ==> sub(p, s) == sub(q, t)
    ensures Fuel(sub, {KeyOf(p, s), KeyOf(q, t)})
         == sub(p, s).1 + if p.exact == q.exact && s % 256 == t % 256 then 0 else sub(q, t).1
  {
    hide Fuel;
    var a, b := KeyOf(p, s), KeyOf(q, t);
    DirectIs(sub, p, s);
    DirectIs(sub, q, t);
    NoFuel(sub);
    FuelAdds(sub, {}, a);
    assert {} + {a} == {a};
    if a == b {
      assert {a, b} == {a};
    } else {
      FuelAdds(sub, {a}, b);
      assert {a} + {b} == {a, b};
    }
  }

  lemma NoFuel(sub: Substrate)
    ensures Fuel(sub, {}) == 0
  {
  }
}
