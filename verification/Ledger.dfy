/** The kernel's energy ledger: every metered joule the loop spends, by account, and the agents' share of
    it by role and by kind. */
module Ledgers {
  import opened Wrappers

  const PROGRAMS: string := "programs"
  const TRAINING: string := "training"
  const PROBES: string := "probes"

  /** What a span's meters read together, if any did: joules, and whether none of them is an estimate. */
  type Reading = Option<(real, bool)>

  type Book = map<string, real>

  /** The sum of a book's entries. */
  ghost function Sum(b: Book): real {
    if b == map[] then 0.0
    else
      var k :| k in b;
      b[k] + Sum(b - {k})
  }

  /** An entry, or nothing if there is none. */
  function Entry(b: Book, k: string): real {
    if k in b then b[k] else 0.0
  }

  /** `entry(k).or_insert(0.0) += j`. */
  function Added(b: Book, k: string, j: real): Book {
    b[k := Entry(b, k) + j]
  }

  lemma {:induction false} SumWithout(b: Book, k: string)
    requires k in b
    ensures Sum(b) == b[k] + Sum(b - {k})
    decreases |b|
  {
    var c :| c in b && Sum(b) == b[c] + Sum(b - {c});
    if c != k {
      var rest := b - {c};
      assert k in rest && rest[k] == b[k];
      SumWithout(rest, k);
      var less := b - {k};
      assert c in less && less[c] == b[c];
      SumWithout(less, c);
      assert rest - {k} == less - {c};
    }
  }

  /** Adding to an entry adds to the sum, whichever entry it is. */
  lemma SumAdds(b: Book, k: string, j: real)
    ensures Sum(Added(b, k, j)) == Sum(b) + j
  {
    var more := Added(b, k, j);
    SumWithout(more, k);
    if k in b {
      SumWithout(b, k);
      assert more - {k} == b - {k};
    } else {
      assert more - {k} == b;
    }
  }

  class EnergyLedger {
    const budget: Option<real>
    var charged: Book
    var byRole: Book
    var byKind: Book
    var evaluationJoules: real
    var allMeasured: bool
    var unmetered: nat

    constructor (budget: Option<real>)
      ensures this.budget == budget && Balanced() && Spent() == 0.0 && evaluationJoules == 0.0
    {
      this.budget := budget;
      charged, byRole, byKind := map[], map[], map[];
      evaluationJoules, allMeasured, unmetered := 0.0, true, 0;
    }

    /** Joules charged against the budget. */
    ghost function Spent(): real
      reads this
    {
      Sum(charged)
    }

    /** The agents' charges, by role and by kind, are the programs account. */
    ghost predicate Balanced()
      reads this
    {
      Sum(byRole) == Entry(charged, PROGRAMS) && Sum(byKind) == Entry(charged, PROGRAMS)
    }

    ghost predicate Over()
      reads this
    {
      budget.Some? && Spent() >= budget.value
    }

    /** `charge`. */
    method Charge(account: string, r: Reading)
      modifies this
      ensures Spent() == old(Spent()) + (if r.Some? then r.value.0 else 0.0)
      ensures charged == if r.Some? then Added(old(charged), account, r.value.0) else old(charged)
      ensures byRole == old(byRole) && byKind == old(byKind) && evaluationJoules == old(evaluationJoules)
      ensures account != PROGRAMS && old(Balanced()) ==> Balanced()
      ensures unmetered == old(unmetered) + (if r.None? then 1 else 0)
      ensures allMeasured == (old(allMeasured) && (r.None? || r.value.1))
    {
      if r.Some? {
        SumAdds(charged, account, r.value.0);
        charged := Added(charged, account, r.value.0);
        allMeasured := allMeasured && r.value.1;
      } else {
        unmetered := unmetered + 1;
      }
    }

    /** `charge_agent`: the joules are booked under the account, the role and the kind. */
    method ChargeAgent(account: string, role: string, kind: string, r: Reading)
      modifies this
      ensures Spent() == old(Spent()) + (if r.Some? then r.value.0 else 0.0)
      ensures charged == if r.Some? then Added(old(charged), account, r.value.0) else old(charged)
      ensures byRole == if r.Some? then Added(old(byRole), role, r.value.0) else old(byRole)
      ensures byKind == if r.Some? then Added(old(byKind), kind, r.value.0) else old(byKind)
      ensures evaluationJoules == old(evaluationJoules)
      ensures unmetered == old(unmetered) + (if r.None? then 1 else 0)
      ensures allMeasured == (old(allMeasured) && (r.None? || r.value.1))
      ensures account == PROGRAMS && old(Balanced()) ==> Balanced()
    {
      Charge(account, r);
      if r.Some? {
        SumAdds(byRole, role, r.value.0);
        SumAdds(byKind, kind, r.value.0);
        byRole := Added(byRole, role, r.value.0);
        byKind := Added(byKind, kind, r.value.0);
      }
    }

    /** `evaluate`: every account is as it was, and the evaluation's joules are added up apart. */
    method Evaluate(r: Reading)
      modifies this
      ensures charged == old(charged) && byRole == old(byRole) && byKind == old(byKind)
      ensures evaluationJoules == old(evaluationJoules) + (if r.Some? then r.value.0 else 0.0)
      ensures unmetered == old(unmetered)
      ensures allMeasured == (old(allMeasured) && (r.None? || r.value.1))
    {
      if r.Some? {
        evaluationJoules := evaluationJoules + r.value.0;
        allMeasured := allMeasured && r.value.1;
      }
    }

    /** `total`. */
    method Total() returns (t: real)
      ensures t == Spent()
    {
      t := 0.0;
      var left := charged;
      while left != map[]
        invariant t + Sum(left) == Sum(charged)
        decreases |left|
      {
        var k :| k in left;
        SumWithout(left, k);
        t := t + left[k];
        left := left - {k};
      }
    }

    /** `exhausted`: whether the charges have reached a budget. */
    method Exhausted() returns (b: bool)
      ensures b == Over()
    {
      if budget.None? {
        return false;
      }
      var t := Total();
      b := t >= budget.value;
    }
  }
}
