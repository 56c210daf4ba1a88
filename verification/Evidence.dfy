/** The evidence log: numbered entries, each carrying the hash of the line before it. The log is its
    lines. How an entry is written as a line and what the hash is are given. */
module Evidence {
  import opened Wrappers
  import T = Text

  /** What an entry records. */
  datatype What =
    | Refusal(rule: string, class_: string, message: string)
    | Measurement(name: string, value: real)
    | KnowledgeBase(version: string)

  datatype Record = Record(round: nat, component: string, agent: string, artifact: string, what: What)

  datatype Entry = Entry(number: nat, prev: string, record: Record)

  /** Why a log does not verify, and at which line. */
  datatype Fault = Unreadable(line: nat) | Misnumbered(line: nat) | OutOfChain(line: nat)

  /** How entries are written and read, and how lines are hashed. */
  datatype Format = Format(write: Entry -> string, read: string -> Option<Entry>, hash: string -> string) {
    /** The entry reads back as it is written. */
    predicate Keeps(e: Entry) {
      read(write(e)) == Some(e)
    }

    /** The record reads back wherever it is logged: a caller can see to it before it is. */
    ghost predicate Carries(r: Record) {
      forall n: nat, prev: string :: Keeps(Entry(n, prev, r))
    }

    /** None of the lines has the empty hash, which stands for no line. */
    predicate Marks(log: seq<string>) {
      forall i :: 0 <= i < |log| ==> hash(log[i]) != ""
    }
  }

  /** The hash of the last line, empty for no lines. */
  function Head(f: Format, log: seq<string>): string {
    if log == [] then "" else f.hash(log[|log| - 1])
  }

  /** The entry at the end of `log`, checked against the lines before it. */
  function LastEntry(f: Format, log: seq<string>): (r: Result<Entry, Fault>)
    requires log != []
    ensures r.Ok? ==> r.value.number == |log| - 1 && r.value.prev == Head(f, log[..|log| - 1])
  {
    var n := |log| - 1;
    match f.read(log[n])
    case None => Err(Unreadable(n))
    case Some(e) =>
      if e.number != n then Err(Misnumbered(n))
      else if e.prev != Head(f, log[..n]) then Err(OutOfChain(n))
      else Ok(e)
  }

  /** `verify`: every line's entry, or the fault of the first line that has one. */
  function Verified(f: Format, log: seq<string>): (r: Result<seq<Entry>, Fault>)
    ensures r.Ok? ==> |r.value| == |log|
  {
    if log == [] then Ok([])
    else
      var es :- Verified(f, log[..|log| - 1]);
      var e :- LastEntry(f, log);
      Ok(es + [e])
  }

  method Verify(f: Format, log: seq<string>) returns (r: Result<seq<Entry>, Fault>)
    ensures r == Verified(f, log)
  {
    var entries: seq<Entry> := [];
    var prev := "";
    assert log[..0] == [];
    for n := 0 to |log|
      invariant prev == Head(f, log[..n]) && Verified(f, log[..n]) == Ok(entries)
    {
      assert log[..n + 1][..n] == log[..n];
      var read := f.read(log[n]);
      ghost var step := LastEntry(f, log[..n + 1]);
      if read.None? {
        FaultStays(f, log, n + 1);
        return Err(Unreadable(n));
      }
      var e := read.value;
      if e.number != n {
        FaultStays(f, log, n + 1);
        return Err(Misnumbered(n));
      }
      if e.prev != prev {
        FaultStays(f, log, n + 1);
        return Err(OutOfChain(n));
      }
      prev := f.hash(log[n]);
      entries := entries + [e];
    }
    assert log[..|log|] == log;
    r := Ok(entries);
  }

  /** A fault in the first lines is the log's. */
  lemma {:induction false} FaultStays(f: Format, log: seq<string>, n: nat)
    requires n <= |log| && Verified(f, log[..n]).Err?
    ensures Verified(f, log) == Verified(f, log[..n])
    decreases |log|
  {
    if n < |log| {
      assert log[..|log| - 1][..n] == log[..n];
      FaultStays(f, log[..|log| - 1], n);
    } else {
      assert log[..n] == log;
    }
  }

  // ----- continuing a log -----

  /** The lines that continue a log of `n` lines with head `prev`. */
  function Lines(f: Format, n: nat, prev: string, records: seq<Record>): (lines: seq<string>)
    ensures |lines| == |records|
    decreases |records|
  {
    if records == [] then []
    else
      var line := f.write(Entry(n, prev, records[0]));
      [line] + Lines(f, n + 1, f.hash(line), records[1..])
  }

  /** `continue_log`. */
  method ContinueLog(f: Format, log: seq<string>, records: seq<Record>) returns (r: Result<seq<string>, Fault>)
    ensures match Verified(f, log)
            case Ok(_) => r == Ok(Lines(f, |log|, Head(f, log), records))
            case Err(e) => r == Err(e)
  {
    hide Verified;
    var entries :- Verify(f, log);
    var n, prev := |entries|, Head(f, log);
    var out: seq<string> := [];
    ghost var all := Lines(f, n, prev, records);
    assert records[0..] == records;
    hide Lines;
    for i := 0 to |records|
      invariant n == |log| + i && out + Lines(f, n, prev, records[i..]) == all
    {
      var line := f.write(Entry(n, prev, records[i]));
      OneMoreLine(f, n, prev, records, i, out);
      prev := f.hash(line);
      n := n + 1;
      out := out + [line];
    }
    NoMoreLines(f, n, prev, records[|records|..]);
    assert out + [] == out;
    r := Ok(out);
  }

  lemma NoMoreLines(f: Format, n: nat, prev: string, records: seq<Record>)
    requires records == []
    ensures Lines(f, n, prev, records) == []
  {
  }

  lemma OneMoreLine(f: Format, n: nat, prev: string, records: seq<Record>, i: nat, out: seq<string>)
    requires i < |records|
    ensures var line := f.write(Entry(n, prev, records[i]));
            out + Lines(f, n, prev, records[i..]) == out + [line] + Lines(f, n + 1, f.hash(line), records[i + 1..])
  {
    assert records[i..][0] == records[i] && records[i..][1..] == records[i + 1..];
  }

  /** The entries those lines are written from. */
  function Chained(f: Format, n: nat, prev: string, records: seq<Record>): (es: seq<Entry>)
    ensures |es| == |records|
    ensures forall i :: 0 <= i < |es| ==> es[i].number == n + i && es[i].record == records[i]
    decreases |records|
  {
    if records == [] then []
    else
      var e := Entry(n, prev, records[0]);
      [e] + Chained(f, n + 1, f.hash(f.write(e)), records[1..])
  }

  predicate AllKept(f: Format, es: seq<Entry>) {
    forall i :: 0 <= i < |es| ==> f.Keeps(es[i])
  }

  /** Appending what continues a log that verifies gives a log of its old entries and then the records,
      numbered on, exactly when what is written for them reads back. */
  lemma {:induction false} ContinuedVerifies(f: Format, log: seq<string>, records: seq<Record>)
    ensures Verified(f, log).Ok? ==>
              var es := Chained(f, |log|, Head(f, log), records);
              var more := Verified(f, log + Lines(f, |log|, Head(f, log), records));
              more == Ok(Verified(f, log).value + es) <==> AllKept(f, es)
    decreases |records|
  {
    hide Verified, AllKept, Head;
    if Verified(f, log).Ok? {
      var was := Verified(f, log).value;
      if records == [] {
        assert log + [] == log && was + [] == was;
        NoneKept(f);
      } else {
        var e := Entry(|log|, Head(f, log), records[0]);
        var line := f.write(e);
        var log', rest := log + [line], Lines(f, |log| + 1, f.hash(line), records[1..]);
        var more := Chained(f, |log| + 1, f.hash(line), records[1..]);
        assert log + ([line] + rest) == log' + rest;
        assert was + [e] + more == was + ([e] + more);
        hide Lines, Chained, Format.Keeps;
        HeadOf(f, log, line);
        OneMoreEntry(f, log, e);
        ContinuedVerifies(f, log', records[1..]);
        KeptFirst(f, e, more);
        MustKeep(f, log, e, rest, more);
      }
    }
  }

  lemma HeadOf(f: Format, log: seq<string>, line: string)
    ensures Head(f, log + [line]) == f.hash(line)
  {
  }

  lemma NoneKept(f: Format)
    ensures AllKept(f, [])
  {
  }

  /** A line that reads back as its entry, which goes on from the log, adds that entry. */
  lemma OneMoreEntry(f: Format, log: seq<string>, e: Entry)
    requires Verified(f, log).Ok? && e.number == |log| && e.prev == Head(f, log)
    ensures f.Keeps(e) ==> Verified(f, log + [f.write(e)]) == Ok(Verified(f, log).value + [e])
  {
    assert (log + [f.write(e)])[..|log|] == log;
  }

  lemma KeptFirst(f: Format, e: Entry, more: seq<Entry>)
    ensures AllKept(f, [e] + more) <==> f.Keeps(e) && AllKept(f, more)
  {
    var es := [e] + more;
    if AllKept(f, es) {
      assert es[0] == e;
      forall i | 0 <= i < |more| ensures f.Keeps(more[i]) {
        assert es[i + 1] == more[i];
      }
    }
  }

  lemma MustKeep(f: Format, log: seq<string>, e: Entry, rest: seq<string>, more: seq<Entry>)
    requires Verified(f, log).Ok?
    ensures Verified(f, log + [f.write(e)] + rest) == Ok(Verified(f, log).value + ([e] + more)) ==> f.Keeps(e)
  {
    hide Verified;
    var all := log + [f.write(e)] + rest;
    if Verified(f, all) == Ok(Verified(f, log).value + ([e] + more)) {
      ReadBack(f, all, |log|);
      assert (Verified(f, log).value + ([e] + more))[|log|] == e;
    }
  }

  /** So records that read back wherever they are logged continue any log that verifies. */
  lemma CarriedVerifies(f: Format, log: seq<string>, records: seq<Record>)
    requires forall r :: r in records ==> f.Carries(r)
    ensures Verified(f, log).Ok? ==>
              Verified(f, log + Lines(f, |log|, Head(f, log), records))
              == Ok(Verified(f, log).value + Chained(f, |log|, Head(f, log), records))
  {
    hide Verified, Lines, Chained;
    var es := Chained(f, |log|, Head(f, log), records);
    forall i | 0 <= i < |es| ensures f.Keeps(es[i]) {
      assert es[i].record == records[i] && f.Carries(records[i]);
      assert es[i] == Entry(es[i].number, es[i].prev, es[i].record);
    }
    ContinuedVerifies(f, log, records);
  }

  /** And a record that cannot be read back, which continuing does not look for, is the fault found next. */
  lemma {:induction false} UnreadableIsFound(f: Format, log: seq<string>, records: seq<Record>, k: nat)
    requires k < |records|
    ensures var es := Chained(f, |log|, Head(f, log), records);
            Verified(f, log).Ok? && AllKept(f, es[..k]) && f.read(f.write(es[k])).None? ==>
              Verified(f, log + Lines(f, |log|, Head(f, log), records)) == Err(Unreadable(|log| + k))
    decreases k
  {
    var es := Chained(f, |log|, Head(f, log), records);
    if Verified(f, log).Ok? && AllKept(f, es[..k]) && f.read(f.write(es[k])).None? {
      var e := es[0];
      var line := f.write(e);
      var log', rest := log + [line], Lines(f, |log| + 1, f.hash(line), records[1..]);
      assert log + ([line] + rest) == log' + rest;
      assert log'[..|log|] == log;
      if k == 0 {
        assert (log' + rest)[..|log'|] == log';
        FaultStays(f, log' + rest, |log'|);
      } else {
        assert es[..k][0] == e;
        OneMoreEntry(f, log, e);
        var more := es[1..];
        var kept := more[..k - 1];
        forall i | 0 <= i < |kept| ensures f.Keeps(kept[i]) {
          assert kept[i] == es[..k][i + 1];
        }
        UnreadableIsFound(f, log', records[1..], k - 1);
      }
    }
  }

  // ----- formats that carry records -----

  /** A format made for some records: it writes a record as its place among them. */
  ghost function FormatFor(records: seq<Record>): Format {
    Format(e => Written(records, e), line => WrittenAs(records, line), line => "#")
  }

  /** Whatever the records are, their format carries them all, and marks every log. */
  lemma SomeFormatCarries(records: seq<Record>, log: seq<string>)
    ensures forall r :: r in records ==> FormatFor(records).Carries(r)
    ensures FormatFor(records).Marks(log)
  {
    forall r, n: nat, prev: string | r in records ensures FormatFor(records).Keeps(Entry(n, prev, r)) {
      WrittenReadsBack(records, Entry(n, prev, r));
    }
  }

  /** The place of `r` among the records, or how many there are if it is not one of them. */
  function PlaceOf(records: seq<Record>, r: Record): (k: nat)
    ensures r in records ==> k < |records| && records[k] == r
  {
    if records == [] || records[0] == r then 0 else 1 + PlaceOf(records[1..], r)
  }

  function Written(records: seq<Record>, e: Entry): string {
    T.Digits(PlaceOf(records, e.record)) + (":" + (T.Digits(e.number) + (":" + e.prev)))
  }

  ghost function WrittenAs(records: seq<Record>, line: string): Option<Entry> {
    if exists e: Entry :: e.record in records && Written(records, e) == line then
      var e: Entry :| e.record in records && Written(records, e) == line;
      Some(e)
    else None
  }

  lemma WrittenReadsBack(records: seq<Record>, e: Entry)
    requires e.record in records
    ensures WrittenAs(records, Written(records, e)) == Some(e)
  {
    hide T.Digits;
    var line := Written(records, e);
    var d := WrittenAs(records, line).value;
    assert d.record in records && Written(records, d) == line;
    FieldsAgree(PlaceOf(records, d.record), T.Digits(d.number) + (":" + d.prev),
                PlaceOf(records, e.record), T.Digits(e.number) + (":" + e.prev));
    FieldsAgree(d.number, d.prev, e.number, e.prev);
  }

  /** A number and what follows its colon can be told from the text they make. */
  lemma FieldsAgree(m: nat, s: string, n: nat, t: string)
    requires T.Digits(m) + (":" + s) == T.Digits(n) + (":" + t)
    ensures m == n && s == t
  {
    hide T.Digits, T.DigitRun, T.Value;
    T.DigitRunOf(T.Digits(m), ":" + s);
    T.DigitRunOf(T.Digits(n), ":" + t);
    var all, k := T.Digits(m) + (":" + s), |T.Digits(m)|;
    assert all[..k] == T.Digits(m) && all[k..] == ":" + s;
    assert all[..k] == T.Digits(n) && all[k..] == ":" + t;
    assert (":" + s)[1..] == s && (":" + t)[1..] == t;
    T.ValueOfDigits(m);
    T.ValueOfDigits(n);
  }

  lemma {:induction false} NumberedInOrder(f: Format, log: seq<string>)
    ensures Verified(f, log).Ok? ==>
              forall i :: 0 <= i < |log| ==> Verified(f, log).value[i].number == i
  {
    if log != [] {
      NumberedInOrder(f, log[..|log| - 1]);
    }
  }

  // ----- what the log shows of tampering -----

  /** Two lines, one of each log, that differ and have the same hash. */
  ghost predicate Collide(f: Format, a: seq<string>, b: seq<string>) {
    exists x, y :: x in a && y in b && x != y && f.hash(x) == f.hash(y)
  }

  /** A head pins every line before it: two logs that verify and have the same head are the same line for
      line, or hold two lines with the same hash. */
  lemma {:induction false} HeadPinsTheLog(f: Format, a: seq<string>, b: seq<string>)
    requires f.Marks(a) && f.Marks(b)
    ensures Verified(f, a).Ok? && Verified(f, b).Ok? && Head(f, a) == Head(f, b) ==> a == b || Collide(f, a, b)
    decreases |a|
  {
    if Verified(f, a).Ok? && Verified(f, b).Ok? && Head(f, a) == Head(f, b) && a != [] && b != [] {
      var m, n := |a| - 1, |b| - 1;
      var x, y := a[m], b[n];
      if x == y {
        assert LastEntry(f, a).Ok? && LastEntry(f, b).Ok?;
        assert m == n;
        HeadPinsTheLog(f, a[..m], b[..n]);
        assert a == a[..m] + [x] && b == b[..n] + [y];
        if a[..m] != b[..n] {
          var u, v :| u in a[..m] && v in b[..n] && u != v && f.hash(u) == f.hash(v);
          assert u in a && v in b;
        }
      } else {
        assert x in a && y in b;
      }
    }
  }

  /** A log cut short at the front does not verify. */
  lemma CutFrontFails(f: Format, log: seq<string>, k: nat)
    requires 0 < k < |log|
    ensures Verified(f, log).Ok? ==> Verified(f, log[k..]).Err?
  {
    var cut := log[k..];
    if Verified(f, log).Ok? && Verified(f, cut).Ok? {
      NumberedInOrder(f, log);
      NumberedInOrder(f, cut);
      ReadBack(f, log, k);
      ReadBack(f, cut, 0);
    }
  }

  lemma {:induction false} ReadBack(f: Format, log: seq<string>, i: nat)
    requires i < |log| && Verified(f, log).Ok?
    ensures f.read(log[i]) == Some(Verified(f, log).value[i])
  {
    var n := |log| - 1;
    if i < n {
      ReadBack(f, log[..n], i);
    }
  }

  /** A log cut short at the back does verify: only its head tells. */
  lemma {:induction false} CutBackVerifies(f: Format, log: seq<string>, k: nat)
    requires k <= |log|
    ensures Verified(f, log).Ok? ==>
              Verified(f, log[..k]).Ok? && Verified(f, log[..k]).value == Verified(f, log).value[..k]
  {
    if k == |log| {
      assert log[..k] == log;
    } else {
      var n := |log| - 1;
      CutBackVerifies(f, log[..n], k);
      assert log[..n][..k] == log[..k];
    }
  }

  /** Which entries a figure came from, and the head that pins them. */
  datatype Citation = Citation(path: string, first: nat, last: nat, head: string)

  function Cite(f: Format, path: string, log: seq<string>, first: nat, last: nat): Citation {
    Citation(path, first, last, Head(f, log))
  }

  /** A citation determines the entries it cites: from two logs that verify, it can only be of the same
      entries, or two lines have the same hash. */
  lemma CitationPinsItsEntries(f: Format, path: string, a: seq<string>, b: seq<string>, first: nat, last: nat)
    requires f.Marks(a) && f.Marks(b) && first <= last < |a| && last < |b|
    ensures && Verified(f, a).Ok? && Verified(f, b).Ok?
            && Cite(f, path, a, first, last) == Cite(f, path, b, first, last) ==>
              Verified(f, a).value[first..last + 1] == Verified(f, b).value[first..last + 1] || Collide(f, a, b)
  {
    HeadPinsTheLog(f, a, b);
  }

  // ----- rewards -----

  function RewardOf(r: Record, agent: string): Option<real> {
    if r.agent == agent && r.what.Measurement? && r.what.name == "reward" then Some(r.what.value) else None
  }

  /** `rewards`: the sum of an agent's rewards. */
  function Rewards(records: seq<Record>, agent: string): real {
    if records == [] then 0.0
    else
      var r := RewardOf(records[|records| - 1], agent);
      Rewards(records[..|records| - 1], agent) + if r.Some? then r.value else 0.0
  }

  /** The rewards of a log continued are the rewards of its parts: no agent's rewards are anyone else's. */
  lemma {:induction false} RewardsAddUp(a: seq<Record>, b: seq<Record>, agent: string)
    ensures Rewards(a + b, agent) == Rewards(a, agent) + Rewards(b, agent)
    ensures (forall r :: r in b ==> RewardOf(r, agent).None?) ==> Rewards(a + b, agent) == Rewards(a, agent)
  {
    if b == [] {
      assert a + b == a;
    } else {
      var n := |b| - 1;
      assert (a + b)[..|a + b| - 1] == a + b[..n];
      assert b[n] in b;
      RewardsAddUp(a, b[..n], agent);
    }
  }
}
