/** Trajectories as bytes: the physics corpus's header and its four encodings of the stored integers.
    A 64-bit float is its bits. */
module Trajectories {
  import opened Wrappers
  import opened Bytes

  datatype System = Pendulum | Spring | DoublePendulum | NBody | Bounce {
    function Code(): (c: Byte) {
      match this
      case Pendulum => 0
      case Spring => 1
      case DoublePendulum => 2
      case NBody => 3
      case Bounce => 4
    }

    function Channels(): (n: nat)
      ensures 2 <= n <= 12
    {
      match this
      case DoublePendulum => 4
      case NBody => 12
      case _ => 2
    }

    function ParamCount(): nat {
      match this
      case Spring => 3
      case DoublePendulum => 5
      case NBody => 5
      case _ => 2
    }
  }

  datatype Encoding = I32 | Coarse | Planes | Diff2 {
    function Width(): nat {
      if Coarse? then 2 else 4
    }
  }

  datatype Fault = Truncated | BadMagic | UnknownSystem(code: nat) | BadQuantum | WrongChannels(n: nat) | WrongLength

  /** A trajectory as it is stored: the values in stream order, time-major, in units of the quantum. */
  datatype Trajectory = Trajectory(system: System, params: seq<nat>, quantum: nat, values: seq<int>)

  datatype Header = Header(system: System, params: seq<nat>, quantum: nat, steps: nat)

  const MAGIC: seq<Byte> := [0x50, 0x48, 0x59, 0x31]

  function FromCode(c: Byte): (s: Option<System>)
    ensures s.Some? <==> c < 5
    ensures s.Some? ==> s.value.Code() == c
  {
    if c == 0 then Some(Pendulum)
    else if c == 1 then Some(Spring)
    else if c == 2 then Some(DoublePendulum)
    else if c == 3 then Some(NBody)
    else if c == 4 then Some(Bounce)
    else None
  }

  /** The bits of a float that is finite and positive. */
  predicate Usable(bits: nat) {
    0 < bits < 0x7FF0_0000_0000_0000
  }

  predicate Fits(v: int, enc: Encoding) {
    if enc.Coarse? then IsI16(v) else IsI32(v)
  }

  /** What an encoder can be given. */
  predicate Storable(t: Trajectory, enc: Encoding) {
    && |t.params| == t.system.ParamCount() && (forall i :: 0 <= i < |t.params| ==> t.params[i] < TWO_64)
    && Usable(t.quantum)
    && |t.values| % t.system.Channels() == 0 && forall i :: 0 <= i < |t.values| ==> Fits(t.values[i], enc)
  }

  function Steps(t: Trajectory): nat {
    |t.values| / t.system.Channels()
  }

  // ----- writing -----

  function Words(ws: seq<nat>): (bs: seq<Byte>)
    ensures |bs| == 8 * |ws|
  {
    if ws == [] then [] else ToLe(ws[0], 8) + Words(ws[1..])
  }

  function HeaderBytes(h: Header): (bs: seq<Byte>)
    ensures |bs| == 21 + 8 * |h.params|
  {
    MAGIC + ([h.system.Code()]
    + (Words(h.params) + (ToLe(h.quantum, 8) + (ToLe(h.system.Channels(), 4) + ToLe(h.steps, 4)))))
  }

  function Ints(q: seq<int>, w: nat): (bs: seq<Byte>)
    ensures |bs| == w * |q|
  {
    if q == [] then [] else
      OneMore(w, |q| - 1);
      ToBytes(q[0], w) + Ints(q[1..], w)
  }

  function Plane(q: seq<int>, k: nat): (bs: seq<Byte>)
    requires k < 4
    ensures |bs| == |q| && forall i :: 0 <= i < |q| ==> bs[i] == ToBytes(q[i], 4)[k]
  {
    seq(|q|, i requires 0 <= i < |q| => ToBytes(q[i], 4)[k])
  }

  /** The second differences per channel; the first two samples are raw. */
  function Differences(q: seq<int>, ch: nat): (d: seq<int>)
    ensures |d| == |q|
    ensures forall i :: 0 <= i < |q| ==> d[i] == DifferenceAt(q, ch, i)
  {
    seq(|q|, i requires 0 <= i < |q| => DifferenceAt(q, ch, i))
  }

  function DifferenceAt(q: seq<int>, ch: nat, i: nat): int
    requires i < |q|
  {
    if i < 2 * ch then q[i] else Difference(q[i], q[i - ch], q[i - 2 * ch])
  }

  function Body(q: seq<int>, ch: nat, enc: Encoding): (bs: seq<Byte>)
    ensures |bs| == enc.Width() * |q|
  {
    match enc
    case I32 => Ints(q, 4)
    case Coarse => Ints(q, 2)
    case Planes => Plane(q, 0) + Plane(q, 1) + Plane(q, 2) + Plane(q, 3)
    case Diff2 => Ints(Differences(q, ch), 4)
  }

  /** `encode_as`. The header's step count is the low 32 bits of the number of steps. */
  function Encoded(t: Trajectory, enc: Encoding): seq<Byte> {
    HeaderBytes(Header(t.system, t.params, t.quantum, Steps(t) % TWO_32)) + Body(t.values, t.system.Channels(), enc)
  }

  // ----- reading -----

  function Take(s: seq<Byte>, n: nat): (r: Result<(seq<Byte>, seq<Byte>), Fault>)
    ensures r.Ok? ==> |r.value.0| == n && |r.value.1| == |s| - n && s == r.value.0 + r.value.1
  {
    if n <= |s| then Ok((s[..n], s[n..])) else Err(Truncated)
  }

  function ReadWords(s: seq<Byte>, k: nat): (r: Result<(seq<nat>, seq<Byte>), Fault>)
    ensures r.Ok? ==> |r.value.0| == k && |r.value.1| == |s| - 8 * k
  {
    if k == 0 then Ok(([], s))
    else
      var (w, s1) :- Take(s, 8);
      var (ws, s2) :- ReadWords(s1, k - 1);
      Ok(([FromLe(w)] + ws, s2))
  }

  /** `read_header`: the header, and the bytes after it. */
  function ReadHeader(s: seq<Byte>): (r: Result<(Header, seq<Byte>), Fault>)
    ensures r.Ok? ==>
              && |r.value.0.params| == r.value.0.system.ParamCount() && r.value.0.steps < TWO_32
              && |s| - |r.value.1| == 21 + 8 * |r.value.0.params|
  {
    var (magic, s1) :- Take(s, 4);
    if magic != MAGIC then Err(BadMagic)
    else
      var (code, s2) :- Take(s1, 1);
      match FromCode(code[0])
      case None => Err(UnknownSystem(code[0]))
      case Some(system) =>
        var (params, s3) :- ReadWords(s2, system.ParamCount());
        var (q, s4) :- Take(s3, 8);
        var quantum := FromLe(q);
        if !Usable(quantum) then Err(BadQuantum)
        else
          var (ch, s5) :- Take(s4, 4);
          if FromLe(ch) != system.Channels() then Err(WrongChannels(FromLe(ch)))
          else
            var (steps, s6) :- Take(s5, 4);
            Spans();
            Ok((Header(system, params, quantum, FromLe(steps)), s6))
  }

  /** Whole chunks of `w` bytes, as signed integers. */
  function ReadInts(bs: seq<Byte>, w: nat): (q: seq<int>)
    requires w > 0
  {
    if |bs| < w then [] else [FromBytes(bs[..w])] + ReadInts(bs[w..], w)
  }

  /** The `i`-th value, its four bytes taken from the four planes of `n`. */
  function PlaneValue(bs: seq<Byte>, n: nat, i: nat): int
    requires |bs| == 4 * n && i < n
  {
    FromBytes([bs[i], bs[n + i], bs[2 * n + i], bs[3 * n + i]])
  }

  function ReadPlanes(bs: seq<Byte>, n: nat): (q: seq<int>)
    requires |bs| == 4 * n
    ensures |q| == n && forall i :: 0 <= i < n ==> q[i] == PlaneValue(bs, n, i)
  {
    seq(n, i requires 0 <= i < n => PlaneValue(bs, n, i))
  }

  /** The values whose differences are `d`, restored from the front. */
  function Restore(d: seq<int>, ch: nat): (q: seq<int>)
    ensures |q| == |d|
  {
    if d == [] then []
    else
      var n := |d| - 1;
      var q := Restore(d[..n], ch);
      q + [if n < 2 * ch || ch == 0 then d[n] else Restored(d[n], q[n - ch], q[n - 2 * ch])]
  }

  function Values(bs: seq<Byte>, ch: nat, n: nat, enc: Encoding): seq<int>
    requires |bs| == enc.Width() * n
  {
    match enc
    case I32 => ReadInts(bs, 4)
    case Coarse => ReadInts(bs, 2)
    case Planes => ReadPlanes(bs, n)
    case Diff2 => Restore(ReadInts(bs, 4), ch)
  }

  /** `decode_as`: the trajectory whose encoding is all of `s`. */
  function Decoded(s: seq<Byte>, enc: Encoding): Result<Trajectory, Fault> {
    var (h, body) :- ReadHeader(s);
    var ch := h.system.Channels();
    var n := h.steps * ch;
    if |body| != enc.Width() * n then Err(WrongLength)
    else Ok(Trajectory(h.system, h.params, h.quantum, Values(body, ch, n, enc)))
  }

  /** `encoded_len_as`: the length of the trajectory at the start of a stream. */
  function EncodedLen(s: seq<Byte>, enc: Encoding): (r: Result<nat, Fault>)
    ensures r.Ok? ==> r.value > 0
  {
    var (h, body) :- ReadHeader(s);
    Ok(|s| - |body| + h.steps * h.system.Channels() * enc.Width())
  }

  // ----- round trips -----

  lemma TakeFirst(a: seq<Byte>, b: seq<Byte>)
    ensures Take(a + b, |a|) == Ok((a, b))
  {
    assert (a + b)[..|a|] == a && (a + b)[|a|..] == b;
  }

  lemma {:induction false} WordsReadBack(ws: seq<nat>, k: seq<Byte>)
    requires forall i :: 0 <= i < |ws| ==> ws[i] < TWO_64
    ensures ReadWords(Words(ws) + k, |ws|) == Ok((ws, k))
  {
    hide ToLe, FromLe, Take;
    if ws == [] {
      assert Words(ws) + k == k;
    } else {
      var rest := Words(ws[1..]) + k;
      Spans();
      WordRoundTrip(ws[0], 8);
      TakeFirst(ToLe(ws[0], 8), rest);
      WordsReadBack(ws[1..], k);
      assert Words(ws) + k == ToLe(ws[0], 8) + rest;
      assert [ws[0]] + ws[1..] == ws;
    }
  }

  predicate Sound(h: Header) {
    && |h.params| == h.system.ParamCount() && (forall i :: 0 <= i < |h.params| ==> h.params[i] < TWO_64)
    && Usable(h.quantum) && h.steps < TWO_32
  }

  lemma HeaderReadsBack(h: Header, k: seq<Byte>)
    requires Sound(h)
    ensures ReadHeader(HeaderBytes(h) + k) == Ok((h, k))
  {
    hide ToLe, FromLe, Take, Words, ReadWords;
    Spans();
    var ch, st := h.system.Channels(), h.steps;
    var t6 := ToLe(st, 4) + k;
    var t5 := ToLe(ch, 4) + t6;
    var t4 := ToLe(h.quantum, 8) + t5;
    var t3 := Words(h.params) + t4;
    var t2 := [h.system.Code()] + t3;
    assert HeaderBytes(h) + k == MAGIC + t2;
    TakeFirst(MAGIC, t2);
    TakeFirst([h.system.Code()], t3);
    WordsReadBack(h.params, t4);
    TakeFirst(ToLe(h.quantum, 8), t5);
    WordRoundTrip(h.quantum, 8);
    TakeFirst(ToLe(ch, 4), t6);
    WordRoundTrip(ch, 4);
    TakeFirst(ToLe(st, 4), k);
    WordRoundTrip(st, 4);
    CodeReadsBack(h.system);
  }

  lemma CodeReadsBack(s: System)
    ensures FromCode(s.Code()) == Some(s)
  {
  }

  lemma {:induction false} IntsReadBack(q: seq<int>, w: nat)
    requires w == 4 || w == 2
    requires forall i :: 0 <= i < |q| ==> if w == 4 then IsI32(q[i]) else IsI16(q[i])
    ensures ReadInts(Ints(q, w), w) == q
  {
    hide ToBytes, FromBytes;
    if q != [] {
      var a, b := ToBytes(q[0], w), Ints(q[1..], w);
      assert (a + b)[..w] == a && (a + b)[w..] == b;
      BytesRoundTrip(q[0], w);
      IntsReadBack(q[1..], w);
      assert [q[0]] + q[1..] == q;
    }
  }

  lemma PlanesReadBack(q: seq<int>)
    requires forall i :: 0 <= i < |q| ==> IsI32(q[i])
    ensures ReadPlanes(Body(q, 0, Planes), |q|) == q
  {
    hide ToBytes, FromBytes;
    var n, bs := |q|, Body(q, 0, Planes);
    forall i | 0 <= i < n ensures ReadPlanes(bs, n)[i] == q[i] {
      var b := ToBytes(q[i], 4);
      assert bs[i] == b[0] && bs[n + i] == b[1] && bs[2 * n + i] == b[2] && bs[3 * n + i] == b[3];
      assert [bs[i], bs[n + i], bs[2 * n + i], bs[3 * n + i]] == b;
      BytesRoundTrip(q[i], 4);
    }
  }

  lemma {:induction false} DifferencesRestore(q: seq<int>, ch: nat)
    requires ch > 0 && forall i :: 0 <= i < |q| ==> IsI32(q[i])
    ensures Restore(Differences(q, ch), ch) == q
  {
    hide Difference, Restored;
    if q != [] {
      var n := |q| - 1;
      assert Differences(q, ch)[..n] == Differences(q[..n], ch);
      DifferencesRestore(q[..n], ch);
      if n >= 2 * ch {
        DifferenceRestores(q[n], q[n - ch], q[n - 2 * ch]);
      }
      assert q[..n] + [q[n]] == q;
    }
  }

  /** Every body reads back exactly the stored integers, including where second differences wrap. */
  lemma BodyReadsBack(q: seq<int>, ch: nat, enc: Encoding)
    requires ch > 0 && forall i :: 0 <= i < |q| ==> Fits(q[i], enc)
    ensures Values(Body(q, ch, enc), ch, |q|, enc) == q
  {
    hide Ints, ReadInts, ReadPlanes, Restore, Differences, Plane, Difference;
    match enc
    case I32 => IntsReadBack(q, 4);
    case Coarse => IntsReadBack(q, 2);
    case Planes => PlanesReadBack(q);
    case Diff2 =>
      DifferencesAreWords(q, ch);
      IntsReadBack(Differences(q, ch), 4);
      DifferencesRestore(q, ch);
  }

  lemma DifferencesAreWords(q: seq<int>, ch: nat)
    requires forall i :: 0 <= i < |q| ==> IsI32(q[i])
    ensures forall i :: 0 <= i < |q| ==> IsI32(Differences(q, ch)[i])
  {
    hide Wrap;
  }

  function HeaderOf(t: Trajectory): Header {
    Header(t.system, t.params, t.quantum, Steps(t) % TWO_32)
  }

  lemma HeaderOfIsSound(t: Trajectory, enc: Encoding)
    requires Storable(t, enc)
    ensures Sound(HeaderOf(t))
  {
  }

  lemma EncodedIs(t: Trajectory, enc: Encoding)
    ensures Encoded(t, enc) == HeaderBytes(HeaderOf(t)) + Body(t.values, t.system.Channels(), enc)
  {
  }

  lemma StepsFill(t: Trajectory, enc: Encoding)
    requires Storable(t, enc)
    ensures Steps(t) * t.system.Channels() == |t.values|
    ensures Steps(t) < TWO_32 <==> Steps(t) % TWO_32 == Steps(t)
    ensures (Steps(t) % TWO_32) * t.system.Channels() == |t.values| <==> Steps(t) < TWO_32
  {
    var ch, m, n := t.system.Channels(), Steps(t) % TWO_32, Steps(t);
    if m < n {
      Multiples(ch, n, m);
    }
  }

  /** Decoding what was encoded gives exactly the trajectory that was, in every encoding, just when its
      steps can be counted in the header's 32 bits. */
  lemma DecodeInvertsEncode(t: Trajectory, enc: Encoding)
    requires Storable(t, enc)
    ensures Decoded(Encoded(t, enc), enc) == Ok(t) <==> Steps(t) < TWO_32
  {
    hide HeaderBytes, Body, Values, ReadHeader, Fits, Sound;
    var ch := t.system.Channels();
    var body := Body(t.values, ch, enc);
    HeaderOfIsSound(t, enc);
    EncodedIs(t, enc);
    HeaderReadsBack(HeaderOf(t), body);
    BodyReadsBack(t.values, ch, enc);
    StepsFill(t, enc);
    SameFill((Steps(t) % TWO_32) * ch, |t.values|, enc.Width());
  }

  /** A spring at rest for `n` steps, with its parameters and its quantum both the bits of the float 1. */
  function AtRest(n: nat): Trajectory {
    var one := 0x3FF0_0000_0000_0000;
    Trajectory(Spring, [one, one, one], one, seq(n * Spring.Channels(), _ => 0))
  }

  /** It can be stored for any number of steps, and does not read back from 2^32 on. */
  lemma LongRestIsLost(n: nat, enc: Encoding)
    ensures Storable(AtRest(n), enc) && Steps(AtRest(n)) == n
    ensures Decoded(Encoded(AtRest(n), enc), enc) == Ok(AtRest(n)) <==> n < TWO_32
  {
    hide Encoded, Decoded;
    DecodeInvertsEncode(AtRest(n), enc);
  }

  lemma SameFill(a: nat, b: nat, w: nat)
    requires w == 2 || w == 4
    ensures w * a == w * b <==> a == b
  {
  }

  // ----- streams -----

  /** The length read from a stream's start is the length of the trajectory there, whatever follows. */
  lemma EncodedLenIs(t: Trajectory, enc: Encoding, more: seq<Byte>)
    requires Storable(t, enc) && Steps(t) < TWO_32
    ensures EncodedLen(Encoded(t, enc) + more, enc) == Ok(|Encoded(t, enc)|)
  {
    hide HeaderBytes, Body, ReadHeader, Fits, Sound;
    var h, body := HeaderOf(t), Body(t.values, t.system.Channels(), enc);
    HeaderOfIsSound(t, enc);
    EncodedIs(t, enc);
    assert Encoded(t, enc) + more == HeaderBytes(h) + (body + more);
    HeaderReadsBack(h, body + more);
    StepsFill(t, enc);
    WidthTimes(h.steps * t.system.Channels(), enc);
  }

  lemma WidthTimes(n: nat, enc: Encoding)
    ensures n * enc.Width() == enc.Width() * n
  {
  }

  predicate AllStorable(ts: seq<Trajectory>, enc: Encoding) {
    forall i :: 0 <= i < |ts| ==> Storable(ts[i], enc) && Steps(ts[i]) < TWO_32
  }

  /** `corpus_as`'s stream. */
  function Corpus(ts: seq<Trajectory>, enc: Encoding): seq<Byte> {
    if ts == [] then [] else Encoded(ts[0], enc) + Corpus(ts[1..], enc)
  }

  /** Walking a stream with `encoded_len_as`. */
  function Walk(s: seq<Byte>, enc: Encoding): Result<seq<Trajectory>, Fault>
    decreases |s|
  {
    if s == [] then Ok([])
    else
      var n :- EncodedLen(s, enc);
      if n > |s| then Err(Truncated)
      else
        var t :- Decoded(s[..n], enc);
        var ts :- Walk(s[n..], enc);
        Ok([t] + ts)
  }

  lemma WalkStep(a: seq<Byte>, b: seq<Byte>, enc: Encoding, t: Trajectory, ts: seq<Trajectory>)
    requires |a| > 0 && EncodedLen(a + b, enc) == Ok(|a|)
    requires Decoded(a, enc) == Ok(t) && Walk(b, enc) == Ok(ts)
    ensures Walk(a + b, enc) == Ok([t] + ts)
  {
    hide EncodedLen, Decoded;
    assert (a + b)[..|a|] == a && (a + b)[|a|..] == b;
  }

  /** Walking a corpus recovers exactly the trajectories it was made of. */
  lemma {:induction false} WalkRecoversCorpus(ts: seq<Trajectory>, enc: Encoding)
    requires AllStorable(ts, enc)
    ensures Walk(Corpus(ts, enc), enc) == Ok(ts)
    decreases |ts|
  {
    hide Encoded, Storable, EncodedLen, Decoded, Steps, Walk;
    if ts == [] {
      WalkEnds(enc);
    } else {
      var b := Corpus(ts[1..], enc);
      EncodedLenIs(ts[0], enc, b);
      EncodedNotEmpty(ts[0], enc);
      DecodeInvertsEncode(ts[0], enc);
      WalkRecoversCorpus(ts[1..], enc);
      WalkStep(Encoded(ts[0], enc), b, enc, ts[0], ts[1..]);
      assert [ts[0]] + ts[1..] == ts;
    }
  }

  lemma WalkEnds(enc: Encoding)
    ensures Walk([], enc) == Ok([])
  {
  }

  lemma EncodedNotEmpty(t: Trajectory, enc: Encoding)
    ensures |Encoded(t, enc)| > 0
  {
  }

  /** No encoded trajectory starts another: two streams that are the same start with the same one. */
  lemma EncodingsArePrefixFree(t: Trajectory, t': Trajectory, enc: Encoding, more: seq<Byte>, more': seq<Byte>)
    requires Storable(t, enc) && Steps(t) < TWO_32 && Storable(t', enc) && Steps(t') < TWO_32
    requires Encoded(t, enc) + more == Encoded(t', enc) + more'
    ensures t == t' && more == more'
  {
    hide Encoded, Storable, EncodedLen, Decoded, Steps;
    var a, b := Encoded(t, enc), Encoded(t', enc);
    EncodedLenIs(t, enc, more);
    EncodedLenIs(t', enc, more');
    assert a == (a + more)[..|a|] && b == (b + more')[..|b|];
    assert more == (a + more)[|a|..] && more' == (b + more')[|b|..];
    DecodeInvertsEncode(t, enc);
    DecodeInvertsEncode(t', enc);
  }

  // ----- the encoder -----

  /** `encode_body`. */
  method Encode(t: Trajectory, enc: Encoding) returns (out: seq<Byte>)
    requires |t.params| == t.system.ParamCount()
    ensures out == Encoded(t, enc)
  {
    hide Ints, Plane, ToLe, ToBytes, Words, Differences, DifferenceAt;
    var ch := t.system.Channels();
    out := MAGIC + [t.system.Code()];
    var i := 0;
    ghost var start := out;
    assert t.params[0..] == t.params;
    while i < |t.params|
      invariant i <= |t.params| && out + Words(t.params[i..]) == start + Words(t.params)
    {
      WordsStep(t.params, i);
      assert out + (ToLe(t.params[i], 8) + Words(t.params[i + 1..]))
          == out + ToLe(t.params[i], 8) + Words(t.params[i + 1..]);
      out := out + ToLe(t.params[i], 8);
      i := i + 1;
    }
    NoWords(t.params[i..]);
    assert out == start + Words(t.params);
    out := out + ToLe(t.quantum, 8) + ToLe(ch, 4) + ToLe(Steps(t) % TWO_32, 4);
    assert out == HeaderBytes(HeaderOf(t));
    var body := EncodeValues(t.values, ch, enc);
    out := out + body;
  }

  lemma WordsStep(ws: seq<nat>, i: nat)
    requires i < |ws|
    ensures Words(ws[i..]) == ToLe(ws[i], 8) + Words(ws[i + 1..])
  {
    assert ws[i..][1..] == ws[i + 1..];
  }

  lemma NoWords(ws: seq<nat>)
    requires ws == []
    ensures Words(ws) == []
  {
  }

  method EncodeValues(q: seq<int>, ch: nat, enc: Encoding) returns (out: seq<Byte>)
    ensures out == Body(q, ch, enc)
  {
    hide Ints, Plane, ToBytes, Differences, DifferenceAt;
    if enc.Planes? {
      out := [];
      var k := 0;
      while k < 4
        invariant k <= 4
        invariant out == (if k > 0 then Plane(q, 0) else []) + (if k > 1 then Plane(q, 1) else [])
                       + (if k > 2 then Plane(q, 2) else []) + (if k > 3 then Plane(q, 3) else [])
      {
        var plane := OnePlane(q, k);
        out := out + plane;
        k := k + 1;
      }
    } else if enc.Diff2? {
      out := EncodeDifferences(q, ch);
    } else {
      out := EncodeInts(q, enc.Width());
    }
  }

  method OnePlane(q: seq<int>, k: nat) returns (out: seq<Byte>)
    requires k < 4
    ensures out == Plane(q, k)
  {
    hide ToBytes;
    out := [];
    for i := 0 to |q|
      invariant |out| == i && forall j :: 0 <= j < i ==> out[j] == ToBytes(q[j], 4)[k]
    {
      out := out + [ToBytes(q[i], 4)[k]];
    }
  }

  method EncodeInts(q: seq<int>, w: nat) returns (out: seq<Byte>)
    ensures out == Ints(q, w)
  {
    hide ToBytes;
    out := [];
    assert q[..0] == [];
    for i := 0 to |q|
      invariant out == Ints(q[..i], w)
    {
      IntsSnoc(q[..i], q[i], w);
      assert q[..i + 1] == q[..i] + [q[i]];
      out := out + ToBytes(q[i], w);
    }
    assert q[..|q|] == q;
  }

  method EncodeDifferences(q: seq<int>, ch: nat) returns (out: seq<Byte>)
    ensures out == Ints(Differences(q, ch), 4)
  {
    hide ToBytes, Difference, Ints;
    out := [];
    ghost var ds := Differences(q, ch);
    assert ds[..0] == [];
    NoInts(4);
    for i := 0 to |q|
      invariant out == Ints(ds[..i], 4)
    {
      var d := if i < 2 * ch then q[i] else Difference(q[i], q[i - ch], q[i - 2 * ch]);
      IntsSnoc(ds[..i], ds[i], 4);
      assert ds[..i + 1] == ds[..i] + [ds[i]];
      out := out + ToBytes(d, 4);
    }
    assert ds[..|q|] == ds;
  }

  lemma NoInts(w: nat)
    ensures Ints([], w) == []
  {
  }

  lemma {:induction false} IntsSnoc(q: seq<int>, x: int, w: nat)
    ensures Ints(q + [x], w) == Ints(q, w) + ToBytes(x, w)
  {
    hide ToBytes;
    if q == [] {
      assert q + [x] == [x] && [x][1..] == [];
    } else {
      assert (q + [x])[1..] == q[1..] + [x];
      IntsSnoc(q[1..], x, w);
    }
  }

  // ----- from states to stored integers -----

  predicate IsAngle(system: System, c: nat) {
    (system.Pendulum? && c == 0) || (system.DoublePendulum? && c < 2)
  }

  /** `wrap_angle`, with `pi` given: an angle by whole turns into `(-pi, pi]`. */
  function WrapAngle(x: real, pi: real): (r: real)
    requires pi > 0.0
  {
    var turn := 2.0 * pi;
    var y := x - turn * (x / turn).Floor as real;
    if y > pi then y - turn else y
  }

  function Turns(k: int, pi: real): real {
    2.0 * pi * k as real
  }

  /** A wrapped angle is within half a turn and whole turns away, and one that is within already is kept. */
  lemma WrapAngleIs(x: real, pi: real)
    requires pi > 0.0
    ensures -pi < WrapAngle(x, pi) <= pi
    ensures exists k: int :: WrapAngle(x, pi) == x - Turns(k, pi)
    ensures -pi < x <= pi ==> WrapAngle(x, pi) == x
  {
    var k := (x / (2.0 * pi)).Floor;
    FloorOfQuotient(x, 2.0 * pi);
    assert Turns(k + 1, pi) == Turns(k, pi) + 2.0 * pi;
    assert WrapAngle(x, pi) == if x - Turns(k, pi) > pi then x - Turns(k + 1, pi) else x - Turns(k, pi);
    if -pi < x <= pi {
      WithinOneTurn(k, x, pi);
    }
  }

  lemma FloorOfQuotient(x: real, turn: real)
    requires turn > 0.0
    ensures 0.0 <= x - turn * (x / turn).Floor as real < turn
  {
    QuotientTimes(x, turn);
    FactorAbove(x, x / turn, (x / turn).Floor as real, turn);
  }

  lemma QuotientTimes(x: real, y: real)
    requires y > 0.0
    ensures x / y * y == x
  {
  }

  lemma FactorAbove(x: real, q: real, k: real, y: real)
    requires k <= q < k + 1.0 && y > 0.0 && q * y == x
    ensures 0.0 <= x - y * k < y
  {
    var below, above := q - k, k + 1.0 - q;
    assert below * y >= 0.0;
    assert above * y > 0.0;
    assert below * y == q * y - k * y && above * y == k * y + y - q * y;
  }

  lemma WithinOneTurn(k: int, x: real, pi: real)
    requires pi > 0.0 && -pi < x <= pi && 0.0 <= x - Turns(k, pi) < 2.0 * pi
    ensures k == if x < 0.0 then -1 else 0
  {
    assert Turns(1, pi) == 2.0 * pi && Turns(0, pi) == 0.0;
    assert Turns(-1, pi) == -2.0 * pi && Turns(-2, pi) == -4.0 * pi;
    hide Turns;
    TurnsGrow(1, k, pi);
    TurnsGrow(k, -2, pi);
    TurnsGrow(k, -1, pi);
    TurnsGrow(0, k, pi);
  }

  lemma TurnsGrow(j: int, k: int, pi: real)
    requires pi > 0.0
    ensures j <= k ==> Turns(j, pi) <= Turns(k, pi)
  {
    if j <= k {
      assert (k - j) as real * pi >= 0.0;
    }
  }

  /** The nearest integer, the one further from zero of two as near. */
  function Round(x: real): int {
    if x >= 0.0 then (x + 0.5).Floor else -(-x + 0.5).Floor
  }

  function Saturated(v: int, enc: Encoding): (r: int)
    ensures Fits(r, enc)
  {
    var most := if enc.Coarse? then 0x7FFF else 0x7FFF_FFFF;
    if v > most then most else if v < -most - 1 then -most - 1 else v
  }

  /** A value in units of the quantum, as an encoding stores it. */
  function Stored(x: real, unit: real, enc: Encoding): (r: int)
    requires unit > 0.0
    ensures Fits(r, enc)
  {
    Saturated(Round(x / unit), enc)
  }

  /** What is stored is within half a quantum of the value, unless the value is past what can be stored. */
  lemma StoredIsNear(x: real, unit: real, enc: Encoding)
    requires unit > 0.0
    ensures Fits(Round(x / unit), enc) ==> Near(Stored(x, unit, enc), x, unit)
  {
    RoundIsNear(x / unit);
    QuotientTimes(x, unit);
    Halves(Round(x / unit) as real, x / unit, unit);
  }

  /** `k` quanta are within half a quantum of `x`. */
  predicate Near(k: int, x: real, unit: real) {
    -unit / 2.0 <= k as real * unit - x <= unit / 2.0
  }

  lemma RoundIsNear(q: real)
    ensures -0.5 <= Round(q) as real - q <= 0.5
  {
  }

  lemma Halves(r: real, q: real, unit: real)
    requires -0.5 <= r - q <= 0.5 && unit > 0.0
    ensures -unit / 2.0 <= r * unit - q * unit <= unit / 2.0
  {
    assert (r - q + 0.5) * unit >= 0.0 && (0.5 - (r - q)) * unit >= 0.0;
  }

  /** A value that was stored is stored again as it was. */
  lemma StoredAgain(k: int, unit: real, enc: Encoding)
    requires unit > 0.0 && Fits(k, enc)
    ensures Stored(k as real * unit, unit, enc) == k
  {
    TimesQuotient(k as real, unit);
  }

  lemma TimesQuotient(x: real, y: real)
    requires y > 0.0
    ensures x * y / y == x
  {
  }

  /** A state's value at a channel, as it is stored. */
  function StoredAt(system: System, x: real, c: nat, pi: real, unit: real, enc: Encoding): int
    requires pi > 0.0 && unit > 0.0
  {
    Stored(if IsAngle(system, c) then WrapAngle(x, pi) else x, unit, enc)
  }

  function StoredState(system: System, state: seq<real>, pi: real, unit: real, enc: Encoding): (q: seq<int>)
    requires pi > 0.0 && unit > 0.0
    ensures |q| == |state| && forall c :: 0 <= c < |q| ==> q[c] == StoredAt(system, state[c], c, pi, unit, enc)
  {
    seq(|state|, c requires 0 <= c < |state| => StoredAt(system, state[c], c, pi, unit, enc))
  }

  predicate AreStates(system: System, states: seq<seq<real>>) {
    forall t :: 0 <= t < |states| ==> |states[t]| == system.Channels()
  }

  /** The stored integers of a run of states, state by state. */
  function StoredStates(system: System, states: seq<seq<real>>, pi: real, unit: real, enc: Encoding): (q: seq<int>)
    requires AreStates(system, states) && pi > 0.0 && unit > 0.0
    ensures |q| == |states| * system.Channels() && forall i :: 0 <= i < |q| ==> Fits(q[i], enc)
  {
    if states == [] then []
    else
      var n := |states| - 1;
      StoredStates(system, states[..n], pi, unit, enc)
      + StoredState(system, states[n], pi, unit, enc)
  }

  /** `encode_body`, from states. The quantum is the float whose bits are `quantum` and whose value is `unit`. */
  method EncodeStates(system: System, params: seq<nat>, states: seq<seq<real>>, quantum: nat, pi: real, unit: real,
                      enc: Encoding)
    returns (out: seq<Byte>)
    requires |params| == system.ParamCount() && AreStates(system, states) && pi > 0.0 && unit > 0.0
    ensures out == Encoded(Trajectory(system, params, quantum, StoredStates(system, states, pi, unit, enc)), enc)
  {
    hide Encoded, StoredState, Fits;
    var q: seq<int> := [];
    for t := 0 to |states|
      invariant q == StoredStates(system, states[..t], pi, unit, enc)
    {
      assert states[..t + 1][..t] == states[..t];
      var row := EncodeState(system, states[t], pi, unit, enc);
      q := q + row;
    }
    assert states[..|states|] == states;
    out := Encode(Trajectory(system, params, quantum, q), enc);
  }

  method EncodeState(system: System, state: seq<real>, pi: real, unit: real, enc: Encoding) returns (row: seq<int>)
    requires pi > 0.0 && unit > 0.0
    ensures row == StoredState(system, state, pi, unit, enc)
  {
    hide StoredAt;
    row := [];
    for c := 0 to |state|
      invariant |row| == c && forall k :: 0 <= k < c ==> row[k] == StoredAt(system, state[k], k, pi, unit, enc)
    {
      row := row + [StoredAt(system, state[c], c, pi, unit, enc)];
    }
  }

  /** So any run of states is stored, and its stored integers read back exactly when its steps can be
      counted in 32 bits. */
  lemma StatesReadBack(system: System, params: seq<nat>, states: seq<seq<real>>, quantum: nat, pi: real, unit: real,
                       enc: Encoding)
    requires |params| == system.ParamCount() && (forall i :: 0 <= i < |params| ==> params[i] < TWO_64)
    requires Usable(quantum) && AreStates(system, states) && pi > 0.0 && unit > 0.0
    ensures var t := Trajectory(system, params, quantum, StoredStates(system, states, pi, unit, enc));
            Steps(t) == |states| && (Decoded(Encoded(t, enc), enc) == Ok(t) <==> |states| < TWO_32)
  {
    hide Encoded, Decoded, StoredStates;
    var t := Trajectory(system, params, quantum, StoredStates(system, states, pi, unit, enc));
    StepsOf(|states|, system.Channels());
    DecodeInvertsEncode(t, enc);
  }

  lemma StepsOf(n: nat, ch: nat)
    requires ch == 2 || ch == 4 || ch == 12
    ensures n * ch % ch == 0 && n * ch / ch == n
  {
  }

  // ----- the decoder -----

  class Reader {
    const bytes: seq<Byte>
    var at: nat

    constructor (bytes: seq<Byte>)
      ensures this.bytes == bytes && Valid() && Rest() == bytes
    {
      this.bytes, at := bytes, 0;
    }

    ghost predicate Valid()
      reads this
    {
      at <= |bytes|
    }

    function Rest(): seq<Byte>
      requires at <= |bytes|
      reads this
    {
      bytes[at..]
    }

    /** The next `n` bytes. */
    method Next(n: nat) returns (r: Result<seq<Byte>, Fault>)
      requires Valid()
      modifies this
      ensures Valid()
      ensures match Take(old(Rest()), n)
              case Ok((s, rest)) => r == Ok(s) && Rest() == rest
              case Err(e) => r == Err(e)
    {
      var end := at + n;
      if end > |bytes| {
        return Err(Truncated);
      }
      r := Ok(bytes[at..end]);
      assert bytes[at..][..n] == bytes[at..end] && bytes[at..][n..] == bytes[end..];
      at := end;
    }

    method NextWords(k: nat) returns (r: Result<seq<nat>, Fault>)
      requires Valid()
      modifies this
      ensures Valid()
      ensures match ReadWords(old(Rest()), k)
              case Ok((ws, rest)) => r == Ok(ws) && Rest() == rest
              case Err(e) => r == Err(e)
    {
      hide Take, FromLe;
      var ws: seq<nat> := [];
      ghost var all := ReadWords(Rest(), k);
      assert all.Ok? ==> ws + all.value.0 == all.value.0;
      for i := 0 to k
        invariant Valid()
        invariant match ReadWords(Rest(), k - i)
                  case Ok((more, rest)) => all == Ok((ws + more, rest))
                  case Err(e) => all == Err(e)
      {
        ghost var before := ws;
        var w :- Next(8);
        ws := ws + [FromLe(w)];
        assert forall more :: before + ([FromLe(w)] + more) == ws + more;
      }
      assert ws + [] == ws;
      r := Ok(ws);
    }

    method NextHeader() returns (r: Result<Header, Fault>)
      requires Valid()
      modifies this
      ensures Valid()
      ensures match ReadHeader(old(Rest()))
              case Ok((h, rest)) => r == Ok(h) && Rest() == rest
              case Err(e) => r == Err(e)
    {
      hide Take, FromLe, ReadWords;
      var magic :- Next(4);
      if magic != MAGIC {
        return Err(BadMagic);
      }
      var code :- Next(1);
      var system := FromCode(code[0]);
      if system.None? {
        return Err(UnknownSystem(code[0]));
      }
      var params :- NextWords(system.value.ParamCount());
      var q :- Next(8);
      var quantum := FromLe(q);
      if !Usable(quantum) {
        return Err(BadQuantum);
      }
      var ch :- Next(4);
      var channels := FromLe(ch);
      if channels != system.value.Channels() {
        return Err(WrongChannels(channels));
      }
      var steps :- Next(4);
      r := Ok(Header(system.value, params, quantum, FromLe(steps)));
    }
  }

  /** `decode_as`. */
  method Decode(bytes: seq<Byte>, enc: Encoding) returns (r: Result<Trajectory, Fault>)
    ensures r == Decoded(bytes, enc)
  {
    hide ReadHeader, ReadInts, ReadPlanes, Restore;
    var reader := new Reader(bytes);
    var h :- reader.NextHeader();
    var body := reader.Rest();
    var ch := h.system.Channels();
    var n := h.steps * ch;
    if |body| != enc.Width() * n {
      return Err(WrongLength);
    }
    var q;
    match enc {
      case Planes => q := DecodePlanes(body, n);
      case Diff2 =>
        var d := DecodeInts(body, 4);
        q := Undo(d, ch);
      case _ => q := DecodeInts(body, enc.Width());
    }
    r := Ok(Trajectory(h.system, h.params, h.quantum, q));
  }

  method DecodeInts(bs: seq<Byte>, w: nat) returns (q: seq<int>)
    requires w > 0
    ensures q == ReadInts(bs, w)
  {
    hide FromBytes;
    q := [];
    var at := 0;
    assert bs[0..] == bs;
    while at + w <= |bs|
      invariant at <= |bs| && q + ReadInts(bs[at..], w) == ReadInts(bs, w)
    {
      assert bs[at..][..w] == bs[at..at + w] && bs[at..][w..] == bs[at + w..];
      assert q + ([FromBytes(bs[at..at + w])] + ReadInts(bs[at + w..], w))
          == q + [FromBytes(bs[at..at + w])] + ReadInts(bs[at + w..], w);
      q := q + [FromBytes(bs[at..at + w])];
      at := at + w;
    }
    assert q + [] == q;
  }

  method DecodePlanes(bs: seq<Byte>, n: nat) returns (q: seq<int>)
    requires |bs| == 4 * n
    ensures q == ReadPlanes(bs, n)
  {
    hide FromBytes, PlaneValue;
    q := [];
    for i := 0 to n
      invariant |q| == i && forall j :: 0 <= j < i ==> q[j] == PlaneValue(bs, n, j)
    {
      q := q + [PlaneValue(bs, n, i)];
    }
  }

  method Undo(d: seq<int>, ch: nat) returns (q: seq<int>)
    requires ch > 0
    ensures q == Restore(d, ch)
  {
    hide Restored;
    q := [];
    assert d[..0] == [];
    for i := 0 to |d|
      invariant q == Restore(d[..i], ch)
    {
      assert d[..i + 1][..i] == d[..i];
      var v := if i < 2 * ch then d[i] else Restored(d[i], q[i - ch], q[i - 2 * ch]);
      q := q + [v];
    }
    assert d[..|d|] == d;
  }

  // ----- reading a trajectory that stops early -----

  /** `decode_prefix`: the header and the whole timesteps of an `I32` trajectory; the header's step count
      is not checked, and bytes after the last whole timestep are dropped. */
  function DecodedPrefix(s: seq<Byte>): Result<(Header, seq<int>), Fault> {
    var (h, body) :- ReadHeader(s);
    var step := 4 * h.system.Channels();
    WholeSteps(|body|, step);
    Ok((h, ReadInts(body[..|body| / step * step], 4)))
  }

  lemma WholeSteps(n: nat, step: nat)
    requires step > 0
    ensures 0 <= n / step * step <= n
  {
  }

  lemma {:induction false} SomeIntsReadBack(q: seq<int>, k: nat)
    requires k <= |q| && forall i :: 0 <= i < |q| ==> IsI32(q[i])
    ensures ReadInts(Ints(q, 4)[..4 * k], 4) == q[..k]
  {
    IntsSplit(q[..k], q[k..]);
    assert q[..k] + q[k..] == q;
    assert Ints(q, 4)[..4 * k] == Ints(q[..k], 4);
    IntsReadBack(q[..k], 4);
  }

  lemma {:induction false} IntsSplit(a: seq<int>, b: seq<int>)
    ensures Ints(a + b, 4) == Ints(a, 4) + Ints(b, 4)
  {
    hide ToBytes;
    if a == [] {
      assert a + b == b;
    } else {
      assert (a + b)[1..] == a[1..] + b;
      IntsSplit(a[1..], b);
    }
  }

  /** A trajectory cut anywhere after its header reads as its whole timesteps before the cut. */
  lemma PrefixReadsWholeSteps(t: Trajectory, cut: nat)
    requires Storable(t, I32) && Steps(t) < TWO_32 && cut <= 4 * |t.values|
    ensures var ch := t.system.Channels();
            var n := 21 + 8 * |t.params|;
            && n + cut <= |Encoded(t, I32)|
            && cut / (4 * ch) * ch <= |t.values|
            && DecodedPrefix(Encoded(t, I32)[..n + cut]) == Ok((HeaderOf(t), t.values[..cut / (4 * ch) * ch]))
  {
    hide HeaderBytes, ReadHeader, Sound, Ints, ReadInts, Steps;
    var ch, n, body := t.system.Channels(), 21 + 8 * |t.params|, Ints(t.values, 4);
    HeaderOfIsSound(t, I32);
    EncodedIs(t, I32);
    assert Encoded(t, I32)[..n + cut] == HeaderBytes(HeaderOf(t)) + body[..cut];
    HeaderReadsBack(HeaderOf(t), body[..cut]);
    var k := cut / (4 * ch) * ch;
    WholeSteps(cut, 4 * ch);
    FourTimes(cut / (4 * ch), ch);
    assert body[..cut][..4 * k] == body[..4 * k];
    SomeIntsReadBack(t.values, k);
  }

  lemma FourTimes(a: nat, ch: nat)
    ensures a * (4 * ch) == 4 * (a * ch)
  {
  }
}
