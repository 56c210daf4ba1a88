/** A run of the arena: rounds of proposing, running, training and rewarding, under an energy budget. What
    agents propose, what programs do, what meters read and what rewards come out are given as functions of
    when they are asked: a run that depends on its own past is one such world. */
module Runs {
  import opened Wrappers
  import opened Ledgers

  datatype Candidate = Candidate(source: string)

  /** What the gate and the substrate make of a candidate: output, which may carry the canary, or a
      refusal, which may be for spent fuel. */
  datatype Outcome = Bytes(fuel: nat, leaks: bool) | Refused(outOfFuel: bool)

  datatype World = World(
    agents: nat, learners: nat, knowledgeBase: string, alignment: bool, costInJoules: bool, fuelLimit: nat,
    role: nat -> string, kind: nat -> string,
    proposals: (nat, nat) -> seq<Candidate>, allowance: (nat, nat) -> Option<real>,
    outcome: (nat, nat, nat) -> Outcome, reward: (nat, nat, nat) -> Result<real, string>,
    evaluates: nat -> bool, reading: nat -> Reading)
  {
    /** Every span reads between nothing and `joules`. */
    ghost predicate Metered(joules: real) {
      joules >= 0.0 && forall s :: reading(s).Some? ==> 0.0 <= reading(s).value.0 <= joules
    }

    /** The candidate's output carries the canary. */
    predicate Leaks(round: nat, ai: nat, k: nat) {
      outcome(round, ai, k).Bytes? && outcome(round, ai, k).leaks
    }
  }

  /** What an evidence record says: of a candidate, or of the run. */
  datatype Finding = Refusal | Reward(value: real) | KnowledgeBase(version: string)

  /** A record of the evidence log. A run's agents are distinct, so an agent is its place among them; the
      arena itself comes after them all. */
  datatype Record = Record(round: nat, agent: nat, artifact: Candidate, finding: Finding)

  datatype Standing = Standing(proposed: nat, produced: nat)

  type Scored = (Candidate, Option<real>)

  /** A candidate's place in a round: its agent, and its position among the agent's scored. */
  type Place = (nat, nat)

  /** Work the kernel lets start, with the joules charged when it did. */
  datatype Work = RoundStarts(spent: real) | ProgramRuns(spent: real) | TrainingStarts(spent: real)

  /** How a run ends. */
  datatype Ending = Finished | BudgetSpent(round: nat) | CanaryLeaked(round: nat) | Failed(why: string)

  /** How many of the records refuse one of the agent's candidates. */
  function Refusals(evidence: seq<Record>, agent: nat): nat {
    if evidence == [] then 0
    else
      var r := evidence[|evidence| - 1];
      Refusals(evidence[..|evidence| - 1], agent) + if r.agent == agent && r.finding.Refusal? then 1 else 0
  }

  lemma RefusalsSnoc(evidence: seq<Record>, r: Record, agent: nat)
    ensures Refusals(evidence + [r], agent)
         == Refusals(evidence, agent) + if r.agent == agent && r.finding.Refusal? then 1 else 0
  {
    assert (evidence + [r])[..|evidence|] == evidence;
  }

  /** `u` spans' worth of joules. */
  ghost function Joules(joules: real, u: nat): (j: real)
    requires joules >= 0.0
    ensures j >= 0.0
  {
    if u == 0 then 0.0 else Joules(joules, u - 1) + joules
  }

  // ----- the records of a round -----

  predicate IsPlace(scored: seq<seq<Scored>>, p: Place) {
    p.0 < |scored| && p.1 < |scored[p.0]|
  }

  /** A record is about the candidate at a place, and says what its score says. */
  predicate Tells(r: Record, scored: seq<seq<Scored>>, p: Place) {
    && IsPlace(scored, p) && r.agent == p.0 && r.artifact == scored[p.0][p.1].0 && !r.finding.KnowledgeBase?
    && scored[p.0][p.1].1 == if r.finding.Reward? then Some(r.finding.value) else None
  }

  /** A candidate whose reward waits has no record and no score yet. */
  ghost predicate Waits(scored: seq<seq<Scored>>, places: seq<Place>, p: Place) {
    IsPlace(scored, p) && p !in places && scored[p.0][p.1].1 == None
  }

  /** Every candidate of the round has exactly one record, or waits and has none. The round's records are
      those from `start` on, and `places` says which candidate each is about. */
  ghost predicate Recorded(evidence: seq<Record>, start: nat, scored: seq<seq<Scored>>, places: seq<Place>,
                           pending: seq<Place>) {
    && |evidence| == start + |places|
    && (forall i :: 0 <= i < |places| ==> Tells(evidence[start + i], scored, places[i]))
    && (forall i, j :: 0 <= i < j < |places| ==> places[i] != places[j])
    && (forall i :: 0 <= i < |pending| ==> Waits(scored, places, pending[i]))
    && (forall i, j :: 0 <= i < j < |pending| ==> pending[i] != pending[j])
    && (forall p: Place :: IsPlace(scored, p) ==> p in places || p in pending)
  }

  function Pushed(scored: seq<seq<Scored>>, ai: nat, c: Candidate, score: Option<real>): (r: seq<seq<Scored>>)
    requires ai < |scored|
    ensures |r| == |scored|
  {
    scored[ai := scored[ai] + [(c, score)]]
  }

  lemma PushedPlaces(scored: seq<seq<Scored>>, ai: nat, c: Candidate, score: Option<real>, p: Place)
    requires ai < |scored|
    ensures IsPlace(Pushed(scored, ai, c, score), p) <==> IsPlace(scored, p) || p == (ai, |scored[ai]|)
    ensures IsPlace(scored, p) ==> Pushed(scored, ai, c, score)[p.0][p.1] == scored[p.0][p.1]
    ensures p == (ai, |scored[ai]|) ==> Pushed(scored, ai, c, score)[p.0][p.1] == (c, score)
  {
  }

  /** A record and its candidate's score, added together, keep the records. */
  lemma RecordAdds(evidence: seq<Record>, start: nat, scored: seq<seq<Scored>>, places: seq<Place>, pending: seq<Place>,
                   r: Record, c: Candidate, score: Option<real>)
    requires Recorded(evidence, start, scored, places, pending)
    requires r.agent < |scored| && r.artifact == c && !r.finding.KnowledgeBase?
    requires score == if r.finding.Reward? then Some(r.finding.value) else None
    ensures Recorded(evidence + [r], start, Pushed(scored, r.agent, c, score), places + [(r.agent, |scored[r.agent]|)],
                     pending)
  {
    var p := (r.agent, |scored[r.agent]|);
    var more := Pushed(scored, r.agent, c, score);
    forall q: Place ensures IsPlace(more, q) <==> IsPlace(scored, q) || q == p {
      PushedPlaces(scored, r.agent, c, score, q);
    }
    hide Pushed;
    forall i | 0 <= i < |places| + 1 ensures Tells((evidence + [r])[start + i], more, (places + [p])[i]) {
      PushedPlaces(scored, r.agent, c, score, (places + [p])[i]);
      if i < |places| {
        assert (evidence + [r])[start + i] == evidence[start + i];
        assert Tells(evidence[start + i], scored, places[i]);
      }
    }
    forall i | 0 <= i < |pending| ensures Waits(more, places + [p], pending[i]) {
      assert Waits(scored, places, pending[i]);
      PushedPlaces(scored, r.agent, c, score, pending[i]);
    }
    NewPlace(scored, evidence, start, places, p);
  }

  lemma NewPlace(scored: seq<seq<Scored>>, evidence: seq<Record>, start: nat, places: seq<Place>, p: Place)
    requires p.0 < |scored| && p.1 == |scored[p.0]| && |evidence| == start + |places|
    requires forall i :: 0 <= i < |places| ==> Tells(evidence[start + i], scored, places[i])
    ensures p !in places
  {
    forall i | 0 <= i < |places| ensures places[i] != p {
      assert Tells(evidence[start + i], scored, places[i]);
    }
  }

  /** So does a candidate whose reward waits. */
  lemma PendingAdds(evidence: seq<Record>, start: nat, scored: seq<seq<Scored>>, places: seq<Place>,
                    pending: seq<Place>,
                    ai: nat, c: Candidate)
    requires Recorded(evidence, start, scored, places, pending) && ai < |scored|
    ensures Recorded(evidence, start, Pushed(scored, ai, c, None), places, pending + [(ai, |scored[ai]|)])
  {
    var p := (ai, |scored[ai]|);
    var more, waiting := Pushed(scored, ai, c, None), pending + [p];
    forall q: Place ensures IsPlace(more, q) <==> IsPlace(scored, q) || q == p {
      PushedPlaces(scored, ai, c, None, q);
    }
    hide Pushed;
    forall i | 0 <= i < |places| ensures Tells(evidence[start + i], more, places[i]) {
      assert Tells(evidence[start + i], scored, places[i]);
      PushedPlaces(scored, ai, c, None, places[i]);
    }
    NewPlace(scored, evidence, start, places, p);
    forall i | 0 <= i < |waiting| ensures Waits(more, places, waiting[i]) {
      PushedPlaces(scored, ai, c, None, waiting[i]);
      if i < |pending| {
        assert Waits(scored, places, pending[i]);
      }
    }
    forall i, j | 0 <= i < j < |waiting| ensures waiting[i] != waiting[j] {
      if j == |pending| {
        assert Waits(scored, places, pending[i]);
      }
    }
  }

  function Scoring(scored: seq<seq<Scored>>, p: Place, r: real): seq<seq<Scored>>
    requires IsPlace(scored, p)
  {
    scored[p.0 := scored[p.0][p.1 := (scored[p.0][p.1].0, Some(r))]]
  }

  lemma ScoringPlaces(scored: seq<seq<Scored>>, p: Place, r: real, q: Place)
    requires IsPlace(scored, p)
    ensures IsPlace(Scoring(scored, p, r), q) <==> IsPlace(scored, q)
    ensures IsPlace(scored, q) && q != p ==> Scoring(scored, p, r)[q.0][q.1] == scored[q.0][q.1]
    ensures q == p ==> Scoring(scored, p, r)[q.0][q.1] == (scored[p.0][p.1].0, Some(r))
  {
  }

  /** Paying the first of the waiting gives it its record and its score. */
  lemma PendingPaid(evidence: seq<Record>, start: nat, scored: seq<seq<Scored>>, places: seq<Place>,
                    pending: seq<Place>, r: Record)
    requires Recorded(evidence, start, scored, places, pending) && pending != []
    requires IsPlace(scored, pending[0]) && r.agent == pending[0].0
    requires r.artifact == scored[pending[0].0][pending[0].1].0 && r.finding.Reward?
    ensures Recorded(evidence + [r], start, Scoring(scored, pending[0], r.finding.value), places + [pending[0]],
                     pending[1..])
  {
    var p, rest := pending[0], pending[1..];
    var more, paid := Scoring(scored, p, r.finding.value), places + [p];
    assert Waits(scored, places, p);
    forall q: Place ensures IsPlace(more, q) <==> IsPlace(scored, q) {
      ScoringPlaces(scored, p, r.finding.value, q);
    }
    hide Scoring;
    forall i | 0 <= i < |paid| ensures Tells((evidence + [r])[start + i], more, paid[i]) {
      ScoringPlaces(scored, p, r.finding.value, paid[i]);
      if i < |places| {
        assert (evidence + [r])[start + i] == evidence[start + i];
        assert Tells(evidence[start + i], scored, places[i]);
      }
    }
    forall i | 0 <= i < |rest| ensures Waits(more, paid, rest[i]) {
      assert rest[i] == pending[i + 1];
      assert Waits(scored, places, pending[i + 1]);
      ScoringPlaces(scored, p, r.finding.value, rest[i]);
    }
    forall q: Place | IsPlace(more, q) ensures q in paid || q in rest {
      assert pending == [p] + rest;
    }
  }

  /** At the end of a round that paid all its rewards: every candidate has exactly one record, a refusal or
      a reward, and has a score exactly when the record is a reward. */
  lemma OneRecordEach(evidence: seq<Record>, start: nat, scored: seq<seq<Scored>>, places: seq<Place>, p: Place)
    requires Recorded(evidence, start, scored, places, []) && IsPlace(scored, p)
    ensures exists i :: 0 <= i < |places| && places[i] == p
    ensures forall i, j :: 0 <= i < |places| && 0 <= j < |places| && places[i] == p && places[j] == p ==> i == j
    ensures forall i :: 0 <= i < |places| && places[i] == p ==>
              && Tells(evidence[start + i], scored, p)
              && (evidence[start + i].finding.Refusal? || evidence[start + i].finding.Reward?)
              && (evidence[start + i].finding.Reward? <==> scored[p.0][p.1].1.Some?)
  {
    assert p in places;
    forall i | 0 <= i < |places| && places[i] == p
      ensures Tells(evidence[start + i], scored, p)
    {
      assert Tells(evidence[start + i], scored, places[i]);
    }
  }

  // ----- the knowledge base -----

  function BaseRecord(w: World): Record {
    Record(0, w.agents, Candidate(w.knowledgeBase), KnowledgeBase(w.knowledgeBase))
  }

  /** The first record names the knowledge base the run uses, and no other names one. */
  predicate NamesBase(w: World, evidence: seq<Record>) {
    && evidence != [] && evidence[0] == BaseRecord(w)
    && forall i :: 1 <= i < |evidence| ==> !evidence[i].finding.KnowledgeBase?
  }

  lemma BaseStays(w: World, evidence: seq<Record>, r: Record)
    requires NamesBase(w, evidence) && !r.finding.KnowledgeBase?
    ensures NamesBase(w, evidence + [r])
  {
  }

  /** Before the first round there is the one record, and it is no agent's refusal. */
  lemma RunOpens(w: World, paying: bool)
    ensures var evidence := [BaseRecord(w)];
            var none := seq(w.agents, _ => []);
            var free := seq(w.agents, _ => []);
            && NamesBase(w, evidence) && Accounted(seq(w.agents, _ => Standing(0, 0)), evidence)
            && Recorded(evidence, 1, none, [], []) && InStep(none, free, paying)
  {
    var r := BaseRecord(w);
    forall agent ensures Refusals([r], agent) == 0 {
      RefusalsSnoc([], r, agent);
    }
  }

  // ----- the accounts -----

  predicate Adds(s: Standing, evidence: seq<Record>, agent: nat) {
    s.proposed == s.produced + Refusals(evidence, agent)
  }

  /** Every agent has proposed what it produced and what was refused. */
  ghost predicate Accounted(standing: seq<Standing>, evidence: seq<Record>) {
    forall ai :: 0 <= ai < |standing| ==> Adds(standing[ai], evidence, ai)
  }

  /** So has every agent, but that `ai` has proposed one that is neither yet. */
  ghost predicate Owes(standing: seq<Standing>, evidence: seq<Record>, ai: nat) {
    && ai < |standing|
    && standing[ai].proposed == standing[ai].produced + Refusals(evidence, ai) + 1
    && forall j :: 0 <= j < |standing| && j != ai ==> Adds(standing[j], evidence, j)
  }

  function Proposing(standing: seq<Standing>, ai: nat): (r: seq<Standing>)
    requires ai < |standing|
    ensures |r| == |standing|
  {
    standing[ai := standing[ai].(proposed := standing[ai].proposed + 1)]
  }

  function Producing(standing: seq<Standing>, ai: nat): (r: seq<Standing>)
    requires ai < |standing|
    ensures |r| == |standing|
  {
    standing[ai := standing[ai].(produced := standing[ai].produced + 1)]
  }

  lemma ProposalOwes(standing: seq<Standing>, evidence: seq<Record>, ai: nat)
    requires Accounted(standing, evidence) && ai < |standing|
    ensures Owes(Proposing(standing, ai), evidence, ai)
  {
    hide Refusals;
    assert Adds(standing[ai], evidence, ai);
  }

  lemma RefusalSettles(standing: seq<Standing>, evidence: seq<Record>, r: Record)
    requires Owes(standing, evidence, r.agent) && r.finding.Refusal?
    ensures Accounted(standing, evidence + [r])
  {
    hide Refusals;
    forall j | 0 <= j < |standing| ensures Adds(standing[j], evidence + [r], j) {
      RefusalsSnoc(evidence, r, j);
      assert j != r.agent ==> Adds(standing[j], evidence, j);
    }
  }

  lemma ProductionSettles(standing: seq<Standing>, evidence: seq<Record>, ai: nat)
    requires Owes(standing, evidence, ai)
    ensures Accounted(Producing(standing, ai), evidence)
  {
    hide Refusals;
    forall j | 0 <= j < |standing| ensures Adds(Producing(standing, ai)[j], evidence, j) {
      assert j != ai ==> Adds(standing[j], evidence, j);
    }
  }

  /** Rewards refuse nothing. */
  lemma RewardKeepsAccounts(standing: seq<Standing>, evidence: seq<Record>, r: Record)
    requires Accounted(standing, evidence) && r.finding.Reward?
    ensures Accounted(standing, evidence + [r])
  {
    hide Refusals;
    forall j | 0 <= j < |standing| ensures Adds(standing[j], evidence + [r], j) {
      RefusalsSnoc(evidence, r, j);
      assert Adds(standing[j], evidence, j);
    }
  }

  /** Scores and costs are in step, and every cost is positive when running out of fuel costs some. */
  ghost predicate InStep(scored: seq<seq<Scored>>, costs: seq<seq<real>>, paying: bool) {
    && |scored| == |costs|
    && (forall ai :: 0 <= ai < |scored| ==> |scored[ai]| == |costs[ai]|)
    && (paying ==> forall ai :: 0 <= ai < |costs| ==> AllPositive(costs[ai]))
  }

  predicate AllPositive(xs: seq<real>) {
    forall k :: 0 <= k < |xs| ==> xs[k] > 0.0
  }

  // ----- what one candidate does to the books -----

  /** The books that a candidate is entered in. */
  datatype Books = Books(evidence: seq<Record>, standing: seq<Standing>, scored: seq<seq<Scored>>,
                         costs: seq<seq<real>>, pending: seq<Place>)
  {
    predicate Has(ai: nat) {
      ai < |standing| && ai < |scored| && ai < |costs|
    }
  }

  /** A refusal: its record, no score, and its cost. */
  function Refusing(b: Books, round: nat, ai: nat, c: Candidate, cost: real): Books
    requires b.Has(ai)
  {
    b.(evidence := b.evidence + [Record(round, ai, c, Refusal)], scored := Pushed(b.scored, ai, c, None),
       costs := b.costs[ai := b.costs[ai] + [cost]])
  }

  /** A production whose reward is known at once: its record, its score and its cost. */
  function Rewarding(b: Books, round: nat, ai: nat, c: Candidate, reward: real, cost: real): Books
    requires b.Has(ai)
  {
    b.(evidence := b.evidence + [Record(round, ai, c, Reward(reward))], standing := Producing(b.standing, ai),
       scored := Pushed(b.scored, ai, c, Some(reward)), costs := b.costs[ai := b.costs[ai] + [cost]])
  }

  /** A production whose reward waits for the round's training. */
  function Waiting(b: Books, ai: nat, c: Candidate, cost: real): Books
    requires b.Has(ai)
  {
    b.(standing := Producing(b.standing, ai), scored := Pushed(b.scored, ai, c, None),
       costs := b.costs[ai := b.costs[ai] + [cost]], pending := b.pending + [(ai, |b.scored[ai]|)])
  }

  function Proposed(b: Books, ai: nat): (r: Books)
    requires b.Has(ai)
    ensures r.Has(ai)
  {
    b.(standing := Proposing(b.standing, ai))
  }

  /** What a candidate cost: its span's joules when they are the unit and there are some, else its fuel. */
  function Cost(w: World, r: Reading, fuel: nat): real {
    if w.costInJoules && Read(r) > 0.0 then Read(r) else fuel as real
  }

  /** A candidate that was run: refused by the gate, the substrate or the canary check, or produced and
      rewarded, or produced and left waiting. */
  function Credited(w: World, b: Books, round: nat, ai: nat, c: Candidate, k: nat, r: Reading): Result<Books, string>
    requires b.Has(ai)
  {
    var p := Proposed(b, ai);
    match w.outcome(round, ai, k)
    case Refused(outOfFuel) => Ok(Refusing(p, round, ai, c, Cost(w, r, if outOfFuel then w.fuelLimit else 1)))
    case Bytes(fuel, leaks) =>
      var cost := Cost(w, r, if fuel == 0 then 1 else fuel);
      if leaks then Ok(Refusing(p, round, ai, c, Cost(w, r, 1)))
      else if !w.alignment then Ok(Waiting(p, ai, c, cost))
      else
        var reward :- w.reward(round, ai, k);
        Ok(Rewarding(p, round, ai, c, reward, cost))
  }

  /** The score a candidate that was run has at once. */
  function ScoreAtOnce(w: World, round: nat, ai: nat, k: nat): Option<real> {
    var o := w.outcome(round, ai, k);
    var reward := w.reward(round, ai, k);
    if o.Bytes? && !o.leaks && w.alignment && reward.Ok? then Some(reward.value) else None
  }

  /** However it is credited, a candidate is scored once, its agent's others as they were. */
  lemma CreditScores(w: World, b: Books, round: nat, ai: nat, c: Candidate, k: nat, r: Reading)
    requires b.Has(ai)
    ensures Credited(w, b, round, ai, c, k, r).Ok? ==>
              Credited(w, b, round, ai, c, k, r).value.scored == Pushed(b.scored, ai, c, ScoreAtOnce(w, round, ai, k))
  {
  }

  // ----- which candidates were considered -----

  function Artifacts(xs: seq<Scored>): (cs: seq<Candidate>)
    ensures |cs| == |xs| && forall i :: 0 <= i < |xs| ==> cs[i] == xs[i].0
  {
    seq(|xs|, i requires 0 <= i < |xs| => xs[i].0)
  }

  /** The round's candidates are, agent by agent, those it proposed, the first `n` agents having had their turn. */
  ghost predicate Considered(w: World, round: nat, scored: seq<seq<Scored>>, n: nat) {
    && n <= |scored|
    && (forall ai :: 0 <= ai < n ==> Artifacts(scored[ai]) == w.proposals(round, ai))
    && forall ai :: n <= ai < |scored| ==> scored[ai] == []
  }

  lemma PushedArtifacts(scored: seq<seq<Scored>>, ai: nat, c: Candidate, score: Option<real>)
    requires ai < |scored|
    ensures EnteredAll(scored, Pushed(scored, ai, c, score), ai, [c])
  {
  }

  /** These candidates of one agent's are entered, once each and in order, and the others are as they were. */
  ghost predicate EnteredAll(before: seq<seq<Scored>>, after: seq<seq<Scored>>, ai: nat, cs: seq<Candidate>) {
    && ai < |before| == |after|
    && Artifacts(after[ai]) == Artifacts(before[ai]) + cs
    && forall j :: 0 <= j < |before| && j != ai ==> after[j] == before[j]
  }

  /** The last candidate of the agent's to be entered is one that leaks. */
  ghost predicate LeakIsLast(w: World, round: nat, before: seq<seq<Scored>>, after: seq<seq<Scored>>, ai: nat) {
    exists n: nat :: n < |w.proposals(round, ai)| && w.Leaks(round, ai, n)
                     && EnteredAll(before, after, ai, w.proposals(round, ai)[..n + 1])
  }

  lemma EnteredNone(scored: seq<seq<Scored>>, ai: nat, cs: seq<Candidate>)
    requires ai < |scored|
    ensures EnteredAll(scored, scored, ai, cs[..0])
  {
    assert Artifacts(scored[ai]) + cs[..0] == Artifacts(scored[ai]);
  }

  lemma EnteredMore(start: seq<seq<Scored>>, before: seq<seq<Scored>>, after: seq<seq<Scored>>, ai: nat,
                    cs: seq<Candidate>, k: nat)
    requires k < |cs| && EnteredAll(start, before, ai, cs[..k]) && EnteredAll(before, after, ai, [cs[k]])
    ensures EnteredAll(start, after, ai, cs[..k + 1])
  {
    assert Artifacts(start[ai]) + cs[..k] + [cs[k]] == Artifacts(start[ai]) + cs[..k + 1];
  }

  lemma ScoringArtifacts(w: World, round: nat, scored: seq<seq<Scored>>, n: nat, p: Place, r: real)
    requires IsPlace(scored, p)
    ensures |Scoring(scored, p, r)| == |scored|
    ensures n == |scored| && Considered(w, round, scored, n) ==> Considered(w, round, Scoring(scored, p, r), n)
  {
    var more := Scoring(scored, p, r);
    forall j | 0 <= j < |scored| ensures Artifacts(more[j]) == Artifacts(scored[j]) {
    }
  }

  lemma TurnConsidered(w: World, round: nat, before: seq<seq<Scored>>, after: seq<seq<Scored>>, ai: nat)
    requires Considered(w, round, before, ai) && EnteredAll(before, after, ai, w.proposals(round, ai))
    ensures Considered(w, round, after, ai + 1)
  {
    assert before[ai] == [];
    assert Artifacts([]) + w.proposals(round, ai) == w.proposals(round, ai);
  }

  // ----- the budget -----

  function Max(x: real, y: real): real {
    if x < y then y else x
  }

  /** `spent` is within the budget and `u` more spans. */
  ghost predicate Bounded(w: World, budget: Option<real>, most: real, spent: real, u: nat) {
    w.Metered(most) && budget.Some? ==> spent <= Max(budget.value, 0.0) + Joules(most, u)
  }

  predicate Unspent(budget: Option<real>, spent: real) {
    budget.Some? ==> spent < budget.value
  }

  /** What stops a candidate being run: a spent budget, or a spent allowance. */
  predicate Stopped(allowance: Option<real>, joules: real, budget: Option<real>, spent: real) {
    !Unspent(budget, spent) || (allowance.Some? && joules >= allowance.value)
  }

  ghost predicate AllUnspent(budget: Option<real>, work: seq<Work>) {
    forall i :: 0 <= i < |work| ==> Unspent(budget, work[i].spent)
  }

  /** From `before` to `after`, the only work started is programs'. */
  predicate OnlyPrograms(before: seq<Work>, after: seq<Work>) {
    before <= after && forall i :: |before| <= i < |after| ==> after[i].ProgramRuns?
  }

  /** From `before` to `after`, the only work started is learners' training. */
  predicate OnlyTraining(before: seq<Work>, after: seq<Work>) {
    before <= after && forall i :: |before| <= i < |after| ==> after[i].TrainingStarts?
  }

  /** How many rounds were let start. */
  function RoundsBegun(work: seq<Work>): nat {
    if work == [] then 0
    else RoundsBegun(work[..|work| - 1]) + if work[|work| - 1].RoundStarts? then 1 else 0
  }

  /** Programs and training start no round. */
  lemma {:induction false} NoRoundBegins(before: seq<Work>, after: seq<Work>)
    requires OnlyPrograms(before, after) || OnlyTraining(before, after)
    ensures RoundsBegun(after) == RoundsBegun(before)
    decreases after
  {
    if |before| == |after| {
      assert before == after;
    } else {
      NoRoundBegins(before, after[..|after| - 1]);
    }
  }

  lemma RoundBegins(work: seq<Work>, spent: real)
    ensures RoundsBegun(work + [RoundStarts(spent)]) == RoundsBegun(work) + 1
  {
    assert (work + [RoundStarts(spent)])[..|work|] == work;
  }

  function Read(r: Reading): real {
    if r.Some? then r.value.0 else 0.0
  }

  /** What the first `n` spans read. */
  ghost function Readings(w: World, n: nat): real {
    if n == 0 then 0.0 else Readings(w, n - 1) + Read(w.reading(n - 1))
  }

  lemma {:induction false} JoulesGrow(joules: real, u: nat)
    requires joules >= 0.0
    ensures u >= 1 ==> Joules(joules, u) >= joules
  {
    if u > 1 {
      JoulesGrow(joules, u - 1);
    }
  }

  /** Any span is one span more. */
  lemma AnySpan(w: World, budget: Option<real>, most: real, spent: real, u: nat, span: nat)
    requires Bounded(w, budget, most, spent, u)
    ensures Bounded(w, budget, most, spent + Read(w.reading(span)), u + 1)
  {
  }

  /** A span that starts only while the budget is not spent is within the one span more that there is. */
  lemma CheckedSpan(w: World, budget: Option<real>, most: real, spent: real, u: nat, span: nat)
    requires u >= 1 && Unspent(budget, spent) && Bounded(w, budget, most, spent, u)
    ensures Bounded(w, budget, most, spent + Read(w.reading(span)), u)
  {
    if w.Metered(most) {
      JoulesGrow(most, u);
    }
  }

  // ----- the run -----

  class Arena {
    const w: World
    const ledger: EnergyLedger
    /** The most a span can read, if the meters have a most. */
    ghost const most: real
    var spans: nat
    var evidence: seq<Record>
    var standing: seq<Standing>
    var scored: seq<seq<Scored>>
    var costs: seq<seq<real>>
    var pending: seq<Place>
    var leaked: bool
    /** Where the round's records start, and which candidate each of them is about. */
    ghost var start: nat
    ghost var places: seq<Place>
    /** The work that was let start. */
    ghost var work: seq<Work>

    constructor (w: World, budget: Option<real>, ghost most: real)
      requires w.agents > 0
      ensures this.w == w && this.most == most && fresh(ledger) && ledger.budget == budget
      ensures Within(0) && Kept() && pending == [] && !leaked && work == []
      ensures evidence == [BaseRecord(w)]
    {
      this.w, this.most := w, most;
      var l := new EnergyLedger(budget);
      ledger := l;
      spans, evidence, standing := 0, [BaseRecord(w)], seq(w.agents, _ => Standing(0, 0));
      scored, costs := seq(w.agents, _ => []), seq(w.agents, _ => []);
      pending, leaked := [], false;
      start, places, work := 1, [], [];
      new;
      RunOpens(w, w.fuelLimit > 0);
    }

    /** The budget and `u` more spans hold what was charged; every joule read was charged or booked to the
        evaluation, once; the agents' joules balance; and all work started within the budget. */
    ghost predicate Within(u: nat)
      reads this`work, this`spans, ledger
    {
      && ledger.Spent() + ledger.evaluationJoules == Readings(w, spans)
      && ledger.Balanced() && Bounded(w, ledger.budget, most, ledger.Spent(), u)
      && AllUnspent(ledger.budget, work)
    }

    /** The books hold: the run's knowledge base, the agents' accounts, the scores and costs, and the
        round's records. */
    ghost predicate Kept()
      reads this`evidence, this`standing, this`scored, this`costs, this`pending, this`start, this`places
    {
      && |standing| == |scored| == |costs| == w.agents
      && Accounted(standing, evidence) && InStep(scored, costs, w.fuelLimit > 0)
      && Recorded(evidence, start, scored, places, pending) && NamesBase(w, evidence)
    }

    /** A span's reading. */
    method Stop() returns (r: Reading)
      modifies this`spans
      ensures r == w.reading(old(spans)) && spans == old(spans) + 1
    {
      r := w.reading(spans);
      spans := spans + 1;
    }

    /** The books as they stand. */
    ghost function View(): Books
      reads this`evidence, this`standing, this`scored, this`costs, this`pending
    {
      Books(evidence, standing, scored, costs, pending)
    }

    // ----- one candidate -----

    /** A candidate past the budget or its agent's allowance: refused before any work is done. */
    method RefuseUnrun(round: nat, ai: nat, c: Candidate)
      requires ai < w.agents && Kept()
      modifies this`evidence, this`standing, this`scored, this`costs, this`places
      ensures Kept() && View() == Refusing(Proposed(old(View()), ai), round, ai, c, 1.0)
    {
      hide NamesBase, Refusals, Recorded, Accounted, Owes, InStep, Pushed, Proposing;
      ProposalOwes(standing, evidence, ai);
      standing := Proposing(standing, ai);
      Refuse(round, ai, c, 1.0);
    }

    method Refuse(round: nat, ai: nat, c: Candidate, cost: real)
      requires ai < w.agents && |standing| == |scored| == |costs| == w.agents
      requires Owes(standing, evidence, ai) && InStep(scored, costs, w.fuelLimit > 0)
      requires Recorded(evidence, start, scored, places, pending) && (w.fuelLimit > 0 ==> cost > 0.0)
      requires NamesBase(w, evidence)
      modifies this`evidence, this`scored, this`costs, this`places
      ensures Kept() && View() == Refusing(old(View()), round, ai, c, cost)
    {
      hide NamesBase, Refusals, Recorded, Accounted, Owes, InStep, Pushed;
      var r := Record(round, ai, c, Refusal);
      RefusalSettles(standing, evidence, r);
      BaseStays(w, evidence, r);
      RecordAdds(evidence, start, scored, places, pending, r, c, None);
      StepAdds(scored, costs, ai, c, None, cost, w.fuelLimit > 0);
      places := places + [(ai, |scored[ai]|)];
      evidence := evidence + [r];
      scored := Pushed(scored, ai, c, None);
      costs := costs[ai := costs[ai] + [cost]];
    }

    method RewardNow(round: nat, ai: nat, c: Candidate, reward: real, cost: real)
      requires ai < w.agents && |standing| == |scored| == |costs| == w.agents
      requires Owes(standing, evidence, ai) && InStep(scored, costs, w.fuelLimit > 0)
      requires Recorded(evidence, start, scored, places, pending) && (w.fuelLimit > 0 ==> cost > 0.0)
      requires NamesBase(w, evidence)
      modifies this`evidence, this`standing, this`scored, this`costs, this`places
      ensures Kept() && View() == Rewarding(old(View()), round, ai, c, reward, cost)
    {
      hide NamesBase, Refusals, Recorded, Accounted, Owes, InStep, Pushed, Producing;
      var r := Record(round, ai, c, Reward(reward));
      ProductionSettles(standing, evidence, ai);
      BaseStays(w, evidence, r);
      RewardKeepsAccounts(Producing(standing, ai), evidence, r);
      RecordAdds(evidence, start, scored, places, pending, r, c, Some(reward));
      StepAdds(scored, costs, ai, c, Some(reward), cost, w.fuelLimit > 0);
      standing := Producing(standing, ai);
      places := places + [(ai, |scored[ai]|)];
      evidence := evidence + [r];
      scored := Pushed(scored, ai, c, Some(reward));
      costs := costs[ai := costs[ai] + [cost]];
    }

    method RewardLater(ai: nat, c: Candidate, cost: real)
      requires ai < w.agents && |standing| == |scored| == |costs| == w.agents
      requires Owes(standing, evidence, ai) && InStep(scored, costs, w.fuelLimit > 0)
      requires Recorded(evidence, start, scored, places, pending) && (w.fuelLimit > 0 ==> cost > 0.0)
      requires NamesBase(w, evidence)
      modifies this`standing, this`scored, this`costs, this`pending
      ensures Kept() && View() == Waiting(old(View()), ai, c, cost)
    {
      hide NamesBase, Refusals, Recorded, Accounted, Owes, InStep, Pushed, Producing;
      ProductionSettles(standing, evidence, ai);
      PendingAdds(evidence, start, scored, places, pending, ai, c);
      StepAdds(scored, costs, ai, c, None, cost, w.fuelLimit > 0);
      standing := Producing(standing, ai);
      pending := pending + [(ai, |scored[ai]|)];
      scored := Pushed(scored, ai, c, None);
      costs := costs[ai := costs[ai] + [cost]];
    }

    /** What comes of a candidate that was run: the canary check, and the credit. A reward or a pool that
        fails ends the run. */
    method Credit(round: nat, ai: nat, c: Candidate, k: nat, r: Reading) returns (failed: Option<string>)
      requires ai < w.agents && Kept()
      modifies this`evidence, this`standing, this`scored, this`costs, this`pending, this`leaked, this`places
      ensures match Credited(w, old(View()), round, ai, c, k, r)
              case Ok(b) => failed == None && Kept() && View() == b
              case Err(e) => failed == Some(e)
      ensures leaked == (old(leaked) || w.Leaks(round, ai, k))
      ensures old(evidence) <= evidence
    {
      hide NamesBase, Refusals, Recorded, Accounted, Owes, InStep, Proposing, Producing, Pushed;
      ProposalOwes(standing, evidence, ai);
      standing := Proposing(standing, ai);
      failed := None;
      var outcome := w.outcome(round, ai, k);
      if outcome.Refused? {
        Refuse(round, ai, c, Cost(w, r, if outcome.outOfFuel then w.fuelLimit else 1));
      } else if outcome.leaks {
        leaked := true;
        Refuse(round, ai, c, Cost(w, r, 1));
      } else if !w.alignment {
        RewardLater(ai, c, Cost(w, r, if outcome.fuel == 0 then 1 else outcome.fuel));
      } else {
        var reward := w.reward(round, ai, k);
        if reward.Err? {
          failed := Some(reward.error);
        } else {
          RewardNow(round, ai, c, reward.value, Cost(w, r, if outcome.fuel == 0 then 1 else outcome.fuel));
        }
      }
    }

    /** One candidate that is let run, in its own span. */
    method Try(round: nat, ai: nat, c: Candidate, k: nat, ghost u: nat) returns (r: Reading, failed: Option<string>)
      requires ai < w.agents && u >= 1 && Within(u) && Kept() && Unspent(ledger.budget, ledger.Spent())
      modifies this`spans, this`evidence, this`standing, this`scored, this`costs, this`pending, this`leaked,
               this`places, this`work, ledger
      ensures Within(u) && ledger.Spent() == old(ledger.Spent()) + Read(r) && r == w.reading(old(spans))
      ensures work == old(work) + [ProgramRuns(old(ledger.Spent()))]
      ensures match Credited(w, old(View()), round, ai, c, k, r)
              case Ok(b) => failed == None && Kept() && View() == b
              case Err(e) => failed == Some(e)
      ensures leaked == (old(leaked) || w.Leaks(round, ai, k))
      ensures old(evidence) <= evidence
    {
      hide NamesBase, Refusals, Recorded, Accounted, InStep, Bounded, Credited;
      work := work + [ProgramRuns(ledger.Spent())];
      CheckedSpan(w, ledger.budget, most, ledger.Spent(), u, spans);
      r := Stop();
      failed := Credit(round, ai, c, k, r);
      ledger.ChargeAgent(PROGRAMS, w.role(ai), w.kind(ai), r);
    }

    /** One candidate: refused past the budget or the agent's allowance, which `joules` so far are held
        to, and run otherwise. */
    method Consider(round: nat, ai: nat, c: Candidate, k: nat, joules: real, ghost u: nat)
      returns (sum: real, failed: Option<string>)
      requires ai < w.agents && u >= 1 && Within(u) && Kept()
      modifies this`spans, this`evidence, this`standing, this`scored, this`costs, this`pending, this`leaked,
               this`places, this`work, ledger
      ensures Within(u) && old(evidence) <= evidence
      ensures Stopped(w.allowance(round, ai), joules, ledger.budget, old(ledger.Spent())) ==>
                && failed == None && Kept() && View() == Refusing(Proposed(old(View()), ai), round, ai, c, 1.0)
                && work == old(work) && sum == joules && leaked == old(leaked) && ledger.Spent() == old(ledger.Spent())
      ensures !Stopped(w.allowance(round, ai), joules, ledger.budget, old(ledger.Spent())) ==>
                && work == old(work) + [ProgramRuns(old(ledger.Spent()))]
                && sum == joules + Read(w.reading(old(spans)))
                && ledger.Spent() == old(ledger.Spent()) + Read(w.reading(old(spans)))
                && leaked == (old(leaked) || w.Leaks(round, ai, k))
                && match Credited(w, old(View()), round, ai, c, k, w.reading(old(spans)))
                   case Ok(b) => failed == None && Kept() && View() == b
                   case Err(e) => failed == Some(e)
      ensures failed.None? ==> EnteredAll(old(scored), scored, ai, [c])
    {
      hide NamesBase, Refusals, Recorded, Accounted, InStep, Bounded, Credited, Artifacts, Proposing, Pushed;
      ghost var b := View();
      var over := ledger.Exhausted();
      var allowance := w.allowance(round, ai);
      if over || (allowance.Some? && joules >= allowance.value) {
        RefuseUnrun(round, ai, c);
        PushedArtifacts(b.scored, ai, c, None);
        sum, failed := joules, None;
      } else {
        var spent;
        spent, failed := Try(round, ai, c, k, u);
        CreditScores(w, b, round, ai, c, k, spent);
        PushedArtifacts(b.scored, ai, c, ScoreAtOnce(w, round, ai, k));
        sum := joules + Read(spent);
      }
    }

    // ----- one agent -----

    /** An agent's proposals, in a span that nothing stops. */
    method Propose(round: nat, ai: nat) returns (candidates: seq<Candidate>, joules: real)
      requires ai < w.agents && Within(ai)
      modifies this`spans, ledger
      ensures Within(ai + 1) && candidates == w.proposals(round, ai)
      ensures joules == Read(w.reading(old(spans))) && ledger.Spent() == old(ledger.Spent()) + joules
    {
      hide Bounded;
      AnySpan(w, ledger.budget, most, ledger.Spent(), ai, spans);
      var r := Stop();
      candidates := w.proposals(round, ai);
      ledger.ChargeAgent(PROGRAMS, w.role(ai), w.kind(ai), r);
      joules := Read(r);
    }

    /** One agent's turn: its proposals, in a span of their own that nothing stops, then each of them, run
        or refused. Each is entered once, and is run unless the budget or the allowance is spent. A
        candidate that leaks the canary is the last. */
    method Turn(round: nat, ai: nat) returns (failed: Option<string>)
      requires ai < w.agents && Within(ai) && Kept() && !leaked
      modifies this`spans, this`evidence, this`standing, this`scored, this`costs, this`pending, this`leaked,
               this`places, this`work, ledger
      ensures OnlyPrograms(old(work), work) && old(evidence) <= evidence
      ensures Within(ai + 1)
      ensures failed.None? ==> Kept()
      ensures failed.None? && !leaked ==> EnteredAll(old(scored), scored, ai, w.proposals(round, ai))
      ensures failed.None? && leaked ==> LeakIsLast(w, round, old(scored), scored, ai)
      ensures failed.None? && !leaked && w.Metered(most) && w.allowance(round, ai).None? && !ledger.Over() ==>
                |work| == |old(work)| + |w.proposals(round, ai)|
    {
      hide NamesBase, Refusals, Recorded, Accounted, InStep, Bounded, Credited, Artifacts, Proposing, Pushed, Refusing;
      hide EnteredAll;
      var candidates, joules := Propose(round, ai);
      failed := None;
      var k := 0;
      EnteredNone(scored, ai, candidates);
      while k < |candidates| && !leaked && failed.None?
        invariant k <= |candidates| && old(evidence) <= evidence && OnlyPrograms(old(work), work)
        invariant Within(ai + 1)
        invariant failed.None? ==> Kept() && EnteredAll(old(scored), scored, ai, candidates[..k])
        invariant leaked ==> k > 0 && w.Leaks(round, ai, k - 1)
        invariant w.Metered(most) && w.allowance(round, ai).None? && !ledger.Over() ==> |work| == |old(work)| + k
      {
        ghost var before, s := scored, spans;
        joules, failed := Consider(round, ai, candidates[k], k, joules, ai + 1);
        if failed.None? {
          EnteredMore(old(scored), before, scored, ai, candidates, k);
        }
        SpansAddJoules(w, most, s);
        k := k + 1;
      }
      assert candidates[..|candidates|] == candidates;
    }

    // ----- one round -----

    /** A span that charges the loop's own work, whatever is left of the budget. */
    method ChargeSpan(account: string, ghost u: nat)
      requires Within(u) && account != PROGRAMS
      modifies this`spans, ledger
      ensures Within(u + 1) && ledger.Spent() == old(ledger.Spent()) + Read(w.reading(old(spans)))
    {
      hide Bounded;
      AnySpan(w, ledger.budget, most, ledger.Spent(), u, spans);
      var r := Stop();
      ledger.Charge(account, r);
    }

    /** Each learner trains in its own span, and none starts once the budget is spent. */
    method Train(ghost u: nat)
      requires Within(u) && u >= 1
      modifies this`spans, this`work, ledger
      ensures Within(u) && OnlyTraining(old(work), work)
      ensures ledger.Over() || |work| == |old(work)| + w.learners
    {
      hide Bounded;
      AccountsDiffer();
      var li := 0;
      while li < w.learners
        invariant li <= w.learners && Within(u)
        invariant OnlyTraining(old(work), work) && |work| == |old(work)| + li
      {
        var over := ledger.Exhausted();
        if over {
          break;
        }
        work := work + [TrainingStarts(ledger.Spent())];
        CheckedSpan(w, ledger.budget, most, ledger.Spent(), u, spans);
        var r := Stop();
        ledger.Charge(TRAINING, r);
        li := li + 1;
      }
    }

    /** The rewards that waited for training, each as the reward program gives it. A reward or a pool that
        fails ends the run. */
    method PayPending(round: nat) returns (failed: Option<string>)
      requires Kept()
      modifies this`evidence, this`scored, this`pending, this`places
      ensures old(evidence) <= evidence
      ensures failed.None? ==> Kept() && pending == []
      ensures failed.None? ==>
                && |evidence| == |old(evidence)| + |old(pending)|
                && forall i :: 0 <= i < |old(pending)| ==> Pays(round, old(pending)[i], evidence[|old(evidence)| + i])
      ensures failed.None? && old(Considered(w, round, scored, w.agents)) ==> Considered(w, round, scored, w.agents)
    {
      hide NamesBase, Refusals, Accounted, InStep, Scoring, Recorded, Considered;
      failed := None;
      ghost var n := 0;
      while pending != []
        invariant Kept() && old(evidence) <= evidence
        invariant n <= |old(pending)| && pending == old(pending)[n..] && |evidence| == |old(evidence)| + n
        invariant forall i :: 0 <= i < n ==> Pays(round, old(pending)[i], evidence[|old(evidence)| + i])
        invariant old(Considered(w, round, scored, w.agents)) ==> Considered(w, round, scored, w.agents)
        decreases |pending|
      {
        var p := pending[0];
        FirstWaits(evidence, start, scored, places, pending);
        var reward := w.reward(round, p.0, p.1);
        if reward.Err? {
          return Some(reward.error);
        }
        var r := Record(round, p.0, scored[p.0][p.1].0, Reward(reward.value));
        PendingPaid(evidence, start, scored, places, pending, r);
        RewardKeepsAccounts(standing, evidence, r);
        BaseStays(w, evidence, r);
        ScoringInStep(scored, costs, p, reward.value, w.fuelLimit > 0);
        ScoringArtifacts(w, round, scored, w.agents, p, reward.value);
        places := places + [p];
        evidence := evidence + [r];
        scored := Scoring(scored, p, reward.value);
        pending := pending[1..];
        n := n + 1;
      }
    }

    /** A record that pays a place its reward. */
    ghost predicate Pays(round: nat, p: Place, r: Record) {
      w.reward(round, p.0, p.1).Ok? && r.round == round && r.agent == p.0
      && r.finding == Reward(w.reward(round, p.0, p.1).value)
    }

    /** Held-out evaluation, metered and not charged. */
    method Evaluate(ghost u: nat)
      requires Within(u)
      modifies this`spans, ledger
      ensures Within(u) && ledger.charged == old(ledger.charged) && spans == old(spans) + w.learners
    {
      hide Bounded;
      for li := 0 to w.learners
        invariant Within(u) && ledger.charged == old(ledger.charged) && spans == old(spans) + li
      {
        var r := Stop();
        ledger.Evaluate(r);
      }
    }

    /** A new round's books are empty; its records start here. */
    method Open()
      requires Kept()
      modifies this`scored, this`costs, this`start, this`places
      requires pending == []
      ensures Kept() && start == |evidence| && forall round :: Considered(w, round, scored, 0)
    {
      hide NamesBase, Refusals, Recorded, Accounted, InStep;
      RoundOpens(evidence, w.agents, w.fuelLimit > 0);
      scored, costs := seq(w.agents, _ => []), seq(w.agents, _ => []);
      start, places := |evidence|, [];
    }

    /** Every agent's turn, until one leaks the canary or fails. */
    method Turns(round: nat) returns (failed: Option<string>)
      requires Within(0) && Kept() && Considered(w, round, scored, 0)
      modifies this`spans, this`evidence, this`standing, this`scored, this`costs, this`pending, this`leaked,
               this`places, this`work, ledger
      ensures OnlyPrograms(old(work), work)
      ensures Within(w.agents) && old(evidence) <= evidence
      ensures failed.None? ==> Kept()
      ensures failed.None? && !leaked ==> Considered(w, round, scored, w.agents)
    {
      hide Kept, Within, Considered, Artifacts;
      var ai := 0;
      failed := None;
      ScoredLength();
      while ai < w.agents && !leaked && failed.None?
        invariant ai <= w.agents && Within(ai) && old(evidence) <= evidence && OnlyPrograms(old(work), work)
        invariant failed.None? ==> Kept()
        invariant failed.None? && !leaked ==> Considered(w, round, scored, ai)
      {
        ghost var before := scored;
        ScoredLength();
        failed := Turn(round, ai);
        if failed.None? && !leaked {
          ScoredLength();
          TurnConsidered(w, round, before, scored, ai);
        }
        ai := ai + 1;
      }
      WithinMore(ai, w.agents);
    }

    /** Training, and the rewards that waited for it. */
    method Learn(round: nat) returns (failed: Option<string>)
      requires Within(w.agents) && Kept() && w.agents > 0
      modifies this`spans, this`work, this`evidence, this`scored, this`pending, this`places, ledger
      ensures Within(w.agents + 2) && old(evidence) <= evidence && OnlyTraining(old(work), work)
      ensures failed.None? ==> Kept() && pending == []
      ensures w.Metered(most) && !ledger.Over() ==> |work| == |old(work)| + w.learners
      ensures failed.None? && old(Considered(w, round, scored, w.agents)) ==> Considered(w, round, scored, w.agents)
    {
      hide Kept, Within, Considered;
      AccountsDiffer();
      if pending != [] {
        ChargeSpan(PROBES, w.agents);
      } else {
        WithinMore(w.agents, w.agents + 1);
      }
      Train(w.agents + 1);
      SpansAddJoules(w, most, spans);
      ChargeSpan(PROBES, w.agents + 1);
      failed := PayPending(round);
      if failed.None? && w.evaluates(round) {
        Evaluate(w.agents + 2);
      }
    }

    /** A round. It starts only within the budget. If the canary leaks, the round ends before anything
        trains. When it completes, its candidates are exactly those its agents proposed, and its records are
        those added since it started, one for each of them. */
    method Round(round: nat) returns (ending: Option<Ending>)
      requires w.agents > 0 && Kept() && pending == [] && !leaked
      requires Within(0) && Unspent(ledger.budget, ledger.Spent())
      modifies this, ledger
      ensures Within(w.agents + 2) && old(evidence) <= evidence && start == |old(evidence)|
      ensures ending.None? ==> Kept() && pending == [] && !leaked && Considered(w, round, scored, w.agents)
      ensures ending.None? && w.Metered(most) && !ledger.Over() ==>
                |work| >= |old(work)| + w.learners && OnlyTraining(work[..|work| - w.learners], work)
      ensures RoundsBegun(work) == RoundsBegun(old(work)) + 1
      ensures ending.Some? ==> ending.value.CanaryLeaked? || ending.value.Failed?
      ensures ending.Some? && ending.value.CanaryLeaked? ==>
                |old(work)| < |work| && OnlyPrograms(old(work) + [work[|old(work)|]], work)
    {
      hide Kept, Bounded, Considered, RoundsBegun;
      RoundBegins(work, ledger.Spent());
      work := work + [RoundStarts(ledger.Spent())];
      ghost var begun := work;
      hide Within;
      Open();
      var failed := Turns(round);
      NoRoundBegins(begun, work);
      ghost var turned := work;
      if failed.Some? {
        WithinMore(w.agents, w.agents + 2);
        return Some(Failed(failed.value));
      }
      if leaked {
        WithinMore(w.agents, w.agents + 2);
        return Some(CanaryLeaked(round));
      }
      failed := Learn(round);
      NoRoundBegins(turned, work);
      ending := if failed.Some? then Some(Failed(failed.value)) else None;
    }

    // ----- every round -----

    /** A whole run. However it ends, what was charged is within the budget and `agents + 2` spans more,
        every joule the meters read was charged once or booked to the evaluation, the agents' joules balance
        by role and by kind, and no round, program or training started once the
        budget was spent; and it ends for a spent budget just when a round would start with it spent, and else
        only when every round was begun, the canary leaked or something failed. */
    method Run(rounds: nat) returns (ending: Ending)
      requires w.agents > 0 && Kept() && pending == [] && !leaked && Within(0)
      modifies this, ledger
      ensures Within(w.agents + 2)
      ensures ending.BudgetSpent? ==> ledger.Over() && ending.round < rounds
      ensures ending.BudgetSpent? ==> RoundsBegun(work) == RoundsBegun(old(work)) + ending.round
      ensures ending.Finished? ==> RoundsBegun(work) == RoundsBegun(old(work)) + rounds
      ensures old(evidence) <= evidence
      ensures ending.Finished? || ending.BudgetSpent? ==> Kept() && pending == []
    {
      hide Kept, Bounded, RoundsBegun;
      var round := 0;
      WithinMore(0, w.agents + 2);
      while round < rounds
        invariant round <= rounds && RoundsBegun(work) == RoundsBegun(old(work)) + round && old(evidence) <= evidence
        invariant Within(w.agents + 2) && Kept() && pending == [] && !leaked
      {
        var over := ledger.Exhausted();
        if over {
          return BudgetSpent(round);
        }
        WithinAgain();
        var ended := Round(round);
        if ended.Some? {
          return ended.value;
        }
        round := round + 1;
      }
      ending := Finished;
    }

    /** A budget that is not spent holds what was charged. */
    lemma WithinAgain()
      requires Within(w.agents + 2) && Unspent(ledger.budget, ledger.Spent())
      ensures Within(0)
    {
    }

    lemma ScoredLength()
      ensures Kept() ==> |scored| == w.agents
    {
    }

    lemma WithinMore(u: nat, v: nat)
      requires Within(u) && u <= v
      ensures Within(v)
    {
      MoreSpans(w, ledger.budget, most, ledger.Spent(), u, v);
    }
  }

  lemma {:induction false} MoreSpans(w: World, budget: Option<real>, most: real, spent: real, u: nat, v: nat)
    requires Bounded(w, budget, most, spent, u) && u <= v
    ensures Bounded(w, budget, most, spent, v)
  {
    if u < v {
      MoreSpans(w, budget, most, spent, u, v - 1);
    }
  }

  /** A metered span adds no less than nothing. */
  lemma SpansAddJoules(w: World, most: real, span: nat)
    ensures w.Metered(most) ==> Read(w.reading(span)) >= 0.0
  {
  }

  lemma AccountsDiffer()
    ensures TRAINING != PROGRAMS && PROBES != PROGRAMS
  {
    assert TRAINING[0] == 't' && PROGRAMS[1] == 'r' && PROGRAMS[2] == 'o' && PROBES[3] == 'b' && PROGRAMS[3] == 'g';
  }

  lemma RoundOpens(evidence: seq<Record>, agents: nat, paying: bool)
    ensures var none := seq(agents, _ => []); var free := seq(agents, _ => []);
            Recorded(evidence, |evidence|, none, [], []) && InStep(none, free, paying)
  {
  }

  lemma FirstWaits(evidence: seq<Record>, start: nat, scored: seq<seq<Scored>>, places: seq<Place>, pending: seq<Place>)
    requires Recorded(evidence, start, scored, places, pending) && pending != []
    ensures IsPlace(scored, pending[0])
  {
    assert Waits(scored, places, pending[0]);
  }

  lemma ScoringInStep(scored: seq<seq<Scored>>, costs: seq<seq<real>>, p: Place, r: real, paying: bool)
    requires InStep(scored, costs, paying) && IsPlace(scored, p)
    ensures |Scoring(scored, p, r)| == |scored| && InStep(Scoring(scored, p, r), costs, paying)
  {
  }

  lemma StepAdds(scored: seq<seq<Scored>>, costs: seq<seq<real>>, ai: nat, c: Candidate, score: Option<real>,
                 cost: real, paying: bool)
    requires InStep(scored, costs, paying) && ai < |scored| && (paying ==> cost > 0.0)
    ensures ai < |costs| && InStep(Pushed(scored, ai, c, score), costs[ai := costs[ai] + [cost]], paying)
  {
    var more := costs[ai := costs[ai] + [cost]];
    if paying {
      forall j | 0 <= j < |more| ensures AllPositive(more[j]) {
        assert AllPositive(costs[j]);
      }
    }
  }
}
