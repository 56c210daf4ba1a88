/** The pool of programs that the agents share, and what it evicts. */
module Pools {
  import opened Wrappers
  import opened Grammar

  type Byte = b: int | 0 <= b < 256

  datatype Entry = Entry(id: nat, program: ListExpr, bytes: seq<Byte>, reward: real, agent: string, round: nat)

  /** A retention policy: an entry's priority from its reward and its age, or why there is none. */
  type Priority = (real, real) -> Result<real, string>

  function Age(e: Entry, now: nat): real {
    now as real - e.round as real
  }

  /** The priorities of the entries, or the first error. */
  function Priorities(entries: seq<Entry>, now: nat, priority: Priority): (r: Result<seq<real>, string>)
    ensures r.Ok? ==> |r.value| == |entries|
    ensures r.Ok? ==>
              forall i :: 0 <= i < |entries| ==> priority(entries[i].reward, Age(entries[i], now)) == Ok(r.value[i])
  {
    if entries == [] then Ok([])
    else
      var init :- Priorities(entries[..|entries| - 1], now, priority);
      var e := entries[|entries| - 1];
      var p :- priority(e.reward, Age(e, now));
      Ok(init + [p])
  }

  /** Lower in the eviction order: a lower priority, or the older id of equal ones. */
  predicate Lower(p: real, i: nat, q: real, j: nat) {
    p < q || (p == q && i < j)
  }

  /** `w` is the entry to evict: the lowest of all. */
  predicate IsWorst(entries: seq<Entry>, ps: seq<real>, w: nat)
    requires |ps| == |entries|
  {
    w < |entries| && forall i :: 0 <= i < |entries| && i != w ==> Lower(ps[w], entries[w].id, ps[i], entries[i].id)
  }

  function Without(entries: seq<Entry>, w: nat): seq<Entry>
    requires w < |entries|
  {
    entries[..w] + entries[w + 1..]
  }

  predicate Increasing(entries: seq<Entry>) {
    forall i, j :: 0 <= i < j < |entries| ==> entries[i].id < entries[j].id
  }

  // ----- the pool -----

  class Pool {
    const capacity: nat
    var entries: seq<Entry>
    var nextId: nat
    /** Every entry ever added. */
    ghost var added: seq<Entry>

    constructor (capacity: nat)
      ensures Valid() && this.capacity == capacity && entries == added == [] && nextId == 0
    {
      this.capacity := capacity;
      entries, nextId, added := [], 0, [];
    }

    /** Ids grow, in the pool and over all that was ever added. */
    ghost predicate Valid()
      reads this
    {
      && Increasing(added) && Increasing(entries)
      && (forall e :: e in added ==> e.id < nextId)
      && (forall e :: e in entries ==> e in added)
    }

    /** `add_with`; `w` is where the entry to evict stood. An error from the priority leaves the entry
        added and nothing evicted. */
    method AddWith(program: ListExpr, bytes: seq<Byte>, reward: real, agent: string, round: nat, now: nat,
                   priority: Priority)
      returns (r: Result<nat, string>, ghost w: nat)
      requires Valid()
      modifies this
      ensures Valid() && nextId == old(nextId) + 1
      ensures added == old(added) + [Entry(old(nextId), program, bytes, reward, agent, round)]
      ensures var all := old(entries) + [Entry(old(nextId), program, bytes, reward, agent, round)];
              var ps := Priorities(all, now, priority);
              if |all| <= capacity then r == Ok(old(nextId)) && entries == all
              else if ps.Err? then r == Err(ps.error) && entries == all
              else r == Ok(old(nextId)) && w < |all| && IsWorst(all, ps.value, w) && entries == Without(all, w)
    {
      hide IsWorst, Priorities, Without, Increasing;
      var id := nextId;
      var e := Entry(id, program, bytes, reward, agent, round);
      Appended(entries, e);
      Appended(added, e);
      nextId := nextId + 1;
      entries := entries + [e];
      added := added + [e];
      w := 0;
      if |entries| > capacity {
        var ps := AllPriorities(entries, now, priority);
        if ps.Err? {
          return Err(ps.error), 0;
        }
        var worst := Worst(entries, ps.value);
        RestOf(entries, worst);
        entries := Without(entries, worst);
        w := worst;
      }
      r := Ok(id);
    }

    /** `add`: retaining by reward. The pool then holds exactly the best of all that was ever added. */
    method Add(program: ListExpr, bytes: seq<Byte>, reward: real, agent: string, round: nat) returns (id: nat)
      requires Valid() && IsBest(capacity, added, entries)
      modifies this
      ensures Valid() && id == old(nextId) && nextId == id + 1
      ensures added == old(added) + [Entry(id, program, bytes, reward, agent, round)]
      ensures IsBest(capacity, added, entries)
    {
      hide IsBest, IsWorst, Increasing, Priorities, Without;
      ghost var e, before := Entry(nextId, program, bytes, reward, agent, round), entries;
      Appended(added, e);
      BestIsFull(capacity, added, entries);
      var byReward: Priority := (r, _) => Ok(r);
      var r, w := AddWith(program, bytes, reward, agent, round, round, byReward);
      id := nextId - 1;
      RewardsAreFine(before + [e], round, byReward);
      if |before| + 1 <= capacity {
        StillBest(capacity, old(added), before, e);
      } else {
        EvictionKeepsBest(capacity, old(added), before, e, w);
      }
    }
  }

  lemma Appended(entries: seq<Entry>, e: Entry)
    requires Increasing(entries) && forall x :: x in entries ==> x.id < e.id
    ensures Increasing(entries + [e])
  {
  }

  lemma BestIsFull(capacity: nat, all: seq<Entry>, kept: seq<Entry>)
    requires IsBest(capacity, all, kept)
    ensures |kept| <= capacity
  {
  }

  method AllPriorities(entries: seq<Entry>, now: nat, priority: Priority) returns (r: Result<seq<real>, string>)
    ensures r == Priorities(entries, now, priority)
  {
    var ps: seq<real> := [];
    assert entries[..0] == [];
    for i := 0 to |entries|
      invariant Priorities(entries[..i], now, priority) == Ok(ps)
    {
      var e := entries[i];
      assert entries[..i + 1][..i] == entries[..i];
      var p := priority(e.reward, Age(e, now));
      if p.Err? {
        FirstError(entries, i, now, priority);
        return Err(p.error);
      }
      ps := ps + [p.value];
    }
    assert entries[..|entries|] == entries;
    r := Ok(ps);
  }

  lemma {:induction false} FirstError(entries: seq<Entry>, i: nat, now: nat, priority: Priority)
    requires i < |entries| && Priorities(entries[..i], now, priority).Ok?
    requires priority(entries[i].reward, Age(entries[i], now)).Err?
    ensures Priorities(entries, now, priority) == Err(priority(entries[i].reward, Age(entries[i], now)).error)
    decreases |entries|
  {
    var n := |entries|;
    if i < n - 1 {
      assert entries[..n - 1][..i] == entries[..i];
      FirstError(entries[..n - 1], i, now, priority);
    } else {
      assert entries[..n - 1] == entries[..i];
    }
  }

  method Worst(entries: seq<Entry>, ps: seq<real>) returns (w: nat)
    requires |ps| == |entries| > 0 && Increasing(entries)
    ensures IsWorst(entries, ps, w)
  {
    w := 0;
    for i := 1 to |entries|
      invariant w < i
      invariant forall j :: 0 <= j < i && j != w ==> Lower(ps[w], entries[w].id, ps[j], entries[j].id)
    {
      if Lower(ps[i], entries[i].id, ps[w], entries[w].id) {
        w := i;
      }
    }
  }

  lemma {:induction false} RewardsAreFine(entries: seq<Entry>, now: nat, priority: Priority)
    requires forall r, a :: priority(r, a) == Ok(r)
    ensures Priorities(entries, now, priority).Ok?
    ensures Priorities(entries, now, priority).value == Rewards(entries)
  {
    if entries != [] {
      RewardsAreFine(entries[..|entries| - 1], now, priority);
    }
  }

  // ----- streaming eviction is offline selection -----

  /** `x` is kept before `y`: a greater reward, or the later of equal ones. */
  predicate Better(x: Entry, y: Entry) {
    x.reward > y.reward || (x.reward == y.reward && x.id > y.id)
  }

  /** `kept` is the `capacity` greatest of `all`, in the order they were added. */
  ghost predicate IsBest(capacity: nat, all: seq<Entry>, kept: seq<Entry>) {
    && Increasing(kept) && (forall e :: e in kept ==> e in all)
    && |kept| == (if |all| < capacity then |all| else capacity)
    && forall x, y :: x in kept && y in all && y !in kept ==> Better(x, y)
  }

  lemma StillBest(capacity: nat, all: seq<Entry>, kept: seq<Entry>, e: Entry)
    requires IsBest(capacity, all, kept) && Increasing(all + [e]) && |kept| + 1 <= capacity
    ensures IsBest(capacity, all + [e], kept + [e])
  {
    LastIsLater(all, e);
    AllKept(all, kept);
  }

  lemma LastIsLater(all: seq<Entry>, e: Entry)
    requires Increasing(all + [e])
    ensures forall x :: x in all ==> x.id < e.id
    ensures Increasing(all)
  {
    var more := all + [e];
    forall x | x in all ensures x.id < e.id {
      var i :| 0 <= i < |all| && all[i] == x;
      assert more[i] == x && more[|all|] == e;
    }
    forall i, j | 0 <= i < j < |all| ensures all[i].id < all[j].id {
      assert more[i] == all[i] && more[j] == all[j];
    }
  }

  /** As many distinct entries of `all` as `all` has are all of them. */
  lemma AllKept(all: seq<Entry>, kept: seq<Entry>)
    requires Increasing(all) && Increasing(kept) && |kept| == |all| && forall e :: e in kept ==> e in all
    ensures forall e :: e in all ==> e in kept
  {
    SizeOf(all);
    SizeOf(kept);
    var a, b := set e | e in kept, set e | e in all;
    SubsetOfSameSize(a, b);
    forall e | e in all ensures e in kept {
      assert e in b;
    }
  }

  lemma SubsetOfSameSize(a: set<Entry>, b: set<Entry>)
    requires a <= b && |a| == |b|
    ensures a == b
  {
    assert |b - a| == |b| - |a|;
  }

  lemma {:induction false} SizeOf(entries: seq<Entry>)
    requires Increasing(entries)
    ensures |set e | e in entries| == |entries|
  {
    if entries != [] {
      var n := |entries|;
      var init, last := entries[..n - 1], entries[n - 1];
      SizeOf(init);
      assert forall i :: 0 <= i < n - 1 ==> entries[i].id < last.id;
      assert last !in init;
      assert entries == init + [last];
      assert (set e | e in entries) == (set e | e in init) + {last};
    }
  }

  lemma {:induction false} EvictionKeepsBest(capacity: nat, all: seq<Entry>, kept: seq<Entry>, e: Entry, w: nat)
    requires IsBest(capacity, all, kept) && Increasing(all + [e]) && |kept| + 1 > capacity && w < |kept| + 1
    requires IsWorst(kept + [e], Rewards(kept + [e]), w)
    ensures IsBest(capacity, all + [e], Without(kept + [e], w))
  {
    var more := kept + [e];
    var rest := Without(more, w);
    var worst := more[w];
    LastIsLater(all, e);
    RestOf(more, w);
    forall x | x in rest ensures Better(x, worst) {
      var i :| 0 <= i < |more| && i != w && more[i] == x;
      assert Lower(Rewards(more)[w], worst.id, Rewards(more)[i], x.id);
    }
    forall x, y | x in rest && y in all + [e] && y !in rest ensures Better(x, y) {
      if y != worst {
        assert y in all && y !in kept;
        if x == e {
          assert worst in kept;
          assert Better(worst, y);
        } else {
          assert x in kept;
        }
      }
    }
  }

  function Rewards(entries: seq<Entry>): (rs: seq<real>)
    ensures |rs| == |entries| && forall i :: 0 <= i < |entries| ==> rs[i] == entries[i].reward
  {
    seq(|entries|, i requires 0 <= i < |entries| => entries[i].reward)
  }

  lemma RestOf(more: seq<Entry>, w: nat)
    requires w < |more| && Increasing(more)
    ensures var rest := Without(more, w);
            && Increasing(rest) && |rest| == |more| - 1
            && (forall x :: x in rest ==> x in more)
            && (forall x :: x in more && x != more[w] ==> x in rest) && more[w] !in rest
            && forall x :: x in rest ==> exists i :: 0 <= i < |more| && i != w && more[i] == x
  {
    var rest := Without(more, w);
    forall i | 0 <= i < |rest| ensures rest[i] == more[if i < w then i else i + 1] {
    }
    forall x | x in more && x != more[w] ensures x in rest {
      var i :| 0 <= i < |more| && more[i] == x;
      assert rest[if i < w then i else i - 1] == x;
    }
  }

  /** The best are determined by what was added. */
  lemma BestIsUnique(capacity: nat, all: seq<Entry>, kept: seq<Entry>, kept': seq<Entry>)
    requires IsBest(capacity, all, kept) && IsBest(capacity, all, kept')
    ensures kept == kept'
  {
    forall x ensures x in kept <==> x in kept' {
      if x in kept {
        NoneMissing(capacity, all, kept, kept', x);
      }
      if x in kept' {
        NoneMissing(capacity, all, kept', kept, x);
      }
    }
    SameElements(kept, kept');
  }

  lemma NoneMissing(capacity: nat, all: seq<Entry>, kept: seq<Entry>, kept': seq<Entry>, x: Entry)
    requires IsBest(capacity, all, kept) && IsBest(capacity, all, kept') && x in kept
    ensures x in kept'
  {
    if x !in kept' {
      OneInstead(kept, kept', x);
    }
  }

  lemma OneInstead(kept: seq<Entry>, kept': seq<Entry>, x: Entry)
    requires Increasing(kept) && Increasing(kept') && |kept| == |kept'| && x in kept && x !in kept'
    ensures exists y :: y in kept' && y !in kept
  {
    if forall y :: y in kept' ==> y in kept {
      AllKept(kept, kept');
    }
  }

  lemma LastIsLargest(a: seq<Entry>, e: Entry)
    requires Increasing(a) && e in a
    ensures e.id <= a[|a| - 1].id && (e.id == a[|a| - 1].id ==> e == a[|a| - 1])
  {
  }

  ghost predicate Same(a: seq<Entry>, b: seq<Entry>) {
    forall e :: e in a <==> e in b
  }

  lemma SameLast(a: seq<Entry>, b: seq<Entry>)
    requires Increasing(a) && Increasing(b) && a != [] && b != [] && Same(a, b)
    ensures a[|a| - 1] == b[|b| - 1]
  {
    hide Increasing;
    var x, y := a[|a| - 1], b[|b| - 1];
    assert x in a && y in b;
    LastIsLargest(a, y);
    LastIsLargest(b, x);
  }

  lemma SameInit(a: seq<Entry>, b: seq<Entry>)
    requires Increasing(a) && Increasing(b) && a != [] && b != [] && Same(a, b)
    ensures Same(a[..|a| - 1], b[..|b| - 1])
  {
    hide Increasing;
    SameLast(a, b);
    var a', b' := a[..|a| - 1], b[..|b| - 1];
    forall e ensures e in a' <==> e in b' {
      InitOf(a, e);
      InitOf(b, e);
    }
  }

  lemma {:induction false} SameElements(a: seq<Entry>, b: seq<Entry>)
    requires Increasing(a) && Increasing(b) && |a| == |b| && Same(a, b)
    ensures a == b
  {
    if a != [] {
      hide Same;
      SameLast(a, b);
      SameInit(a, b);
      SameElements(a[..|a| - 1], b[..|b| - 1]);
      assert a == a[..|a| - 1] + [a[|a| - 1]] && b == b[..|b| - 1] + [b[|b| - 1]];
    }
  }

  lemma InitOf(a: seq<Entry>, e: Entry)
    requires a != [] && Increasing(a)
    ensures e in a[..|a| - 1] <==> e in a && e != a[|a| - 1]
  {
    assert a == a[..|a| - 1] + [a[|a| - 1]];
  }
}
