/**
 * The Snowflake generator: 41 bits of milliseconds, 5 of datacenter, 5 of worker, 12 of sequence.
 * The clock is a parameter: reading number k of the wall clock is clock(k).
 */
module Snowflake {

  const EPOCH := 1577808000000
  const TIMESTAMP_MAX := 2199023255551
  const SEQUENCE_MASK := 4095
  const WORKER_ID_SHIFT := 12
  const DATACENTER_ID_SHIFT := 17
  const TIMESTAMP_SHIFT := 22
  const TWO_64 := 18446744073709551616

  function Pow2(k: nat): nat
    ensures Pow2(k) > 0
  {
    if k == 0 then 1 else 2 * Pow2(k - 1)
  }

  /** Bitwise or and and of two non-negative words. */
  function BitOr(a: nat, b: nat): nat {
    if a == 0 && b == 0 then 0 else 2 * BitOr(a / 2, b / 2) + if a % 2 == 1 || b % 2 == 1 then 1 else 0
  }

  function BitAnd(a: nat, b: nat): nat {
    if a == 0 || b == 0 then 0 else 2 * BitAnd(a / 2, b / 2) + if a % 2 == 1 && b % 2 == 1 then 1 else 0
  }

  /** The 64-bit pattern of an int64 shifted left. */
  function Shl(x: int, k: nat): nat { (x * Pow2(k)) % TWO_64 }

  function Word(t: int, datacenterId: int, workerId: int, sequence: int): nat {
    BitOr(BitOr(BitOr(Shl(t, TIMESTAMP_SHIFT), Shl(datacenterId, DATACENTER_ID_SHIFT)), Shl(workerId, WORKER_ID_SHIFT)),
          sequence % TWO_64)
  }

  lemma {:induction false} OrZero(a: nat)
    ensures BitOr(a, 0) == a
  {
    if a != 0 {
      OrZero(a / 2);
    }
  }

  /** Or adds when the low k bits of one word are zero and the other has no higher ones. */
  lemma {:induction false} OrAdds(q: nat, b: nat, k: nat)
    requires b < Pow2(k)
    ensures BitOr(q * Pow2(k), b) == q * Pow2(k) + b
    decreases k
  {
    if k == 0 {
      OrZero(q);
    } else {
      var a := q * Pow2(k);
      assert a == 2 * (q * Pow2(k - 1));
      OrAdds(q, b / 2, k - 1);
      assert BitOr(a / 2, b / 2) == a / 2 + b / 2;
    }
  }

  /** And with k ones is the remainder. */
  lemma {:induction false} AndMask(a: nat, k: nat)
    ensures BitAnd(a, Pow2(k) - 1) == a % Pow2(k)
    decreases k
  {
    if k > 0 {
      var m := Pow2(k - 1);
      assert Pow2(k) == 2 * m;
      AndMask(a / 2, k - 1);
      hide Pow2;
      OnesHalved(m);
      AndStep(a, 2 * m - 1);
      hide BitAnd;
      ModSplits(a, m);
    }
  }

  lemma AndStep(a: nat, b: nat)
    ensures BitAnd(a, b) == 2 * BitAnd(a / 2, b / 2) + if a % 2 == 1 && b % 2 == 1 then 1 else 0
  {
  }

  lemma OnesHalved(m: nat)
    requires m > 0
    ensures (2 * m - 1) / 2 == m - 1 && (2 * m - 1) % 2 == 1
  {
  }

  lemma ModSplits(a: nat, p: nat)
    requires p > 0
    ensures a % (2 * p) == 2 * ((a / 2) % p) + a % 2
  {
    var q, r := (a / 2) / p, (a / 2) % p;
    assert a == 2 * (q * p + r) + a % 2;
    assert a == q * (2 * p) + (2 * r + a % 2);
    ModUnique(a, 2 * p, q, 2 * r + a % 2);
  }

  lemma ModUnique(a: nat, d: nat, q: nat, r: nat)
    requires 0 <= r < d && a == q * d + r
    ensures a % d == r && a / d == q
  {
    var q' := a / d;
    assert a == q' * d + a % d;
    assert (q - q') * d == q * d - q' * d && (q' - q) * d == q' * d - q * d;
    if q' < q {
      AtLeastOne(q - q', d);
    } else if q' > q {
      AtLeastOne(q' - q, d);
    }
  }

  lemma AtLeastOne(k: nat, d: nat)
    requires k >= 1
    ensures k * d >= d
  {
    assert k * d == (k - 1) * d + d;
  }

  predicate IdInRange(id: int) { 0 <= id <= 31 }
  predicate InRange(t: int, datacenterId: int, workerId: int, sequence: int) {
    0 <= t <= TIMESTAMP_MAX && IdInRange(datacenterId) && IdInRange(workerId) && 0 <= sequence <= SEQUENCE_MASK
  }

  lemma Powers()
    ensures Pow2(12) == 4096 && Pow2(17) == 131072 && Pow2(22) == 4194304
  {
    assert Pow2(5) == 32;
    assert Pow2(10) == 1024;
    assert Pow2(15) == 32768;
    assert Pow2(20) == 1048576;
  }

  /** The shifted fields do not overlap: the word is their weighted sum and fits in 63 bits. */
  lemma Layout(t: int, datacenterId: int, workerId: int, sequence: int)
    requires InRange(t, datacenterId, workerId, sequence)
    ensures Word(t, datacenterId, workerId, sequence) ==
      t * 4194304 + datacenterId * 131072 + workerId * 4096 + sequence < 9223372036854775808
  {
    Powers();
    ShlAt(t, 4194304, TIMESTAMP_SHIFT);
    ShlAt(datacenterId, 131072, DATACENTER_ID_SHIFT);
    ShlAt(workerId, 4096, WORKER_ID_SHIFT);
    OrAddsAt(t, 4194304, datacenterId * 131072, 22);
    var high := 32 * t + datacenterId;
    OrAddsAt(high, 131072, workerId * 4096, 17);
    OrAddsAt(32 * high + workerId, 4096, sequence, 12);
    assert sequence % TWO_64 == sequence;
  }

  lemma ShlAt(x: nat, p: nat, k: nat)
    requires p == Pow2(k) && x * p < TWO_64
    ensures Shl(x, k) == x * p
  {
  }

  lemma OrAddsAt(q: nat, p: nat, b: nat, k: nat)
    requires p == Pow2(k) && b < p
    ensures BitOr(q * p, b) == q * p + b
  {
    OrAdds(q, b, k);
  }

  // The fields of a word.

  function TimeOf(word: nat): nat { word / 4194304 }
  function DatacenterOf(word: nat): nat { (word / 131072) % 32 }
  function WorkerOf(word: nat): nat { (word / 4096) % 32 }
  function SequenceOf(word: nat): nat { word % 4096 }

  lemma Decode(t: int, datacenterId: int, workerId: int, sequence: int)
    requires InRange(t, datacenterId, workerId, sequence)
    ensures var word := Word(t, datacenterId, workerId, sequence);
      TimeOf(word) == t && DatacenterOf(word) == datacenterId && WorkerOf(word) == workerId
          && SequenceOf(word) == sequence
  {
    Layout(t, datacenterId, workerId, sequence);
    Fields(t, datacenterId, workerId, sequence);
  }

  lemma Fields(t: nat, d: nat, w: nat, q: nat)
    requires d < 32 && w < 32 && q < 4096
    ensures var word := t * 4194304 + d * 131072 + w * 4096 + q;
      TimeOf(word) == t && DatacenterOf(word) == d && WorkerOf(word) == w && SequenceOf(word) == q
  {
    var word := t * 4194304 + d * 131072 + w * 4096 + q;
    assert word / 4096 == t * 1024 + d * 32 + w;
    assert word / 131072 == t * 32 + d;
  }

  // The generator.

  datatype Gen = Gen(timestamp: int, workerId: int, datacenterId: int, sequence: nat)

  datatype Result = Ok(word: nat) | Exhausted

  /** The readings of one call: the first one, and the one it goes on with after a wait. */
  datatype Call = Call(first: int, last: int)

  function New(workerId: int, datacenterId: int): Gen { Gen(0, workerId, datacenterId, 0) }

  function NextSequence(g: Gen, first: int): nat {
    if g.timestamp == first then BitAnd(g.sequence + 1, SEQUENCE_MASK) else 0
  }

  /** The sequence has wrapped within the millisecond: the call spins until the clock has passed it. */
  predicate Waits(g: Gen, first: int) { g.timestamp == first && NextSequence(g, first) == 0 }

  function Issue(g: Gen, c: Call): (Gen, Result) {
    var sequence := NextSequence(g, c.first);
    var now := if Waits(g, c.first) then c.last else c.first;
    if now - EPOCH > TIMESTAMP_MAX then (g.(sequence := sequence), Exhausted)
    else (g.(timestamp := now, sequence := sequence), Ok(Word(now - EPOCH, g.datacenterId, g.workerId, sequence)))
  }

  /** The readings of a run: the clock does not step back, and a wait ends after the stored millisecond. */
  predicate Clocked(g: Gen, calls: seq<Call>, before: int)
    decreases |calls|
  {
    calls == [] || (
      && before <= calls[0].first <= calls[0].last
      && (if Waits(g, calls[0].first) then calls[0].last > g.timestamp else calls[0].last == calls[0].first)
      && Clocked(Issue(g, calls[0]).0, calls[1..], calls[0].last))
  }

  /** The readings of the clock that one call uses: number pos up to, but without, number next. */
  datatype Span = Span(pos: nat, next: nat)

  function CallAt(clock: nat -> int, span: Span): Call
    requires span.pos < span.next
  {
    Call(clock(span.pos), clock(span.next - 1))
  }

  /** A call that waits reads until the clock has passed the stored millisecond, any other one reads once. */
  predicate Reads(g: Gen, clock: nat -> int, span: Span) {
    && span.pos < span.next
    && if Waits(g, clock(span.pos))
       then clock(span.next - 1) > g.timestamp && forall k :: span.pos <= k < span.next - 1 ==> clock(k) <= g.timestamp
       else span.next == span.pos + 1
  }

  class SnowflakeGenerator {
    var timestamp: int
    var workerId: int
    var datacenterId: int
    var sequence: nat

    function Value(): Gen
      reads this
    {
      Gen(timestamp, workerId, datacenterId, sequence)
    }

    constructor (workerId: int, datacenterId: int)
      ensures Value() == New(workerId, datacenterId)
      ensures this.workerId == workerId && this.datacenterId == datacenterId && timestamp == 0 && sequence == 0
    {
      timestamp, sequence := 0, 0;
      this.workerId, this.datacenterId := workerId, datacenterId;
    }

    /**
     * One call, from clock reading pos on; next is the reading after the last one used. If the call
     * waits, the clock passes the stored millisecond at some reading, which makes the wait end.
     */
    method NextVal(clock: nat -> int, pos: nat, ghost passes: nat) returns (r: Result, next: nat)
      requires Waits(Value(), clock(pos)) ==> pos <= passes && clock(passes) > timestamp
      modifies this
      ensures Reads(old(Value()), clock, Span(pos, next))
      ensures (Value(), r) == Issue(old(Value()), CallAt(clock, Span(pos, next)))
    {
      hide Word, BitAnd;
      var now := clock(pos);
      next := pos + 1;
      if timestamp == now {
        sequence := BitAnd(sequence + 1, SEQUENCE_MASK);
        if sequence == 0 {
          while now <= timestamp
            invariant next > pos && now == clock(next - 1)
            invariant forall k :: pos <= k < next - 1 ==> clock(k) <= timestamp
            invariant timestamp == old(timestamp) && sequence == 0 && Value() == old(Value()).(sequence := 0)
            decreases passes - next
          {
            now := clock(next);
            next := next + 1;
          }
        }
      } else {
        sequence := 0;
      }
      var t := now - EPOCH;
      if t > TIMESTAMP_MAX {
        return Exhausted, next;
      }
      timestamp := now;
      r := Ok(Word(t, datacenterId, workerId, sequence));
    }
  }

  // Calls one after the other on one clock.

  function CallsAt(clock: nat -> int, spans: seq<Span>): seq<Call>
    requires forall k :: 0 <= k < |spans| ==> spans[k].pos < spans[k].next
  {
    seq(|spans|, k requires 0 <= k < |spans| => CallAt(clock, spans[k]))
  }

  /** Each call starts at or behind the reading after the last one of the call before it. */
  predicate ReadsAll(g: Gen, clock: nat -> int, spans: seq<Span>, pos: nat)
    decreases |spans|
  {
    spans == [] || (
      && pos <= spans[0].pos && Reads(g, clock, spans[0])
      && ReadsAll(Issue(g, CallAt(clock, spans[0])).0, clock, spans[1..], spans[0].next))
  }

  predicate Forward(clock: nat -> int, pos: nat, next: nat) {
    forall j, k :: pos <= j <= k < next ==> clock(j) <= clock(k)
  }

  lemma {:induction false} SpansInOrder(g: Gen, clock: nat -> int, spans: seq<Span>, pos: nat)
    requires ReadsAll(g, clock, spans, pos)
    ensures forall k :: 0 <= k < |spans| ==> pos <= spans[k].pos < spans[k].next
    decreases |spans|
  {
    hide Issue, Reads;
    if spans != [] {
      assert Reads(g, clock, spans[0]);
      SpanNotEmpty(g, clock, spans[0]);
      SpansInOrder(Issue(g, CallAt(clock, spans[0])).0, clock, spans[1..], spans[0].next);
    }
  }

  lemma SpanNotEmpty(g: Gen, clock: nat -> int, span: Span)
    requires Reads(g, clock, span)
    ensures span.pos < span.next
  {
  }

  /** The calls that one generator makes on a clock that does not step back form a run as the results below ask for. */
  lemma {:induction false} ClockMakesRun(g: Gen, clock: nat -> int, spans: seq<Span>, pos: nat, end: nat, before: int)
    requires ReadsAll(g, clock, spans, pos) && Forward(clock, pos, end)
        && (spans != [] ==> spans[|spans| - 1].next <= end)
    requires forall k :: pos <= k < end ==> before <= clock(k)
    ensures forall k :: 0 <= k < |spans| ==> pos <= spans[k].pos < spans[k].next
    ensures Clocked(g, CallsAt(clock, spans), before)
    decreases |spans|
  {
    hide Issue;
    SpansInOrder(g, clock, spans, pos);
    if spans != [] {
      var c := CallAt(clock, spans[0]);
      var g' := Issue(g, c).0;
      SpansInOrder(g', clock, spans[1..], spans[0].next);
      assert spans[0].next <= end;
      ClockMakesRun(g', clock, spans[1..], spans[0].next, end, c.last);
      assert CallsAt(clock, spans)[0] == c && CallsAt(clock, spans)[1..] == CallsAt(clock, spans[1..]);
    }
  }

  // Whole runs of one generator.

  function History(g: Gen, calls: seq<Call>): (h: seq<Result>)
    ensures |h| == |calls|
    decreases |calls|
  {
    if calls == [] then [] else
      var (g', r) := Issue(g, calls[0]);
      [r] + History(g', calls[1..])
  }

  /** The ids are in range and the clock has reached the epoch and what the generator has stored. */
  predicate Ready(g: Gen, before: int) {
    && IdInRange(g.workerId) && IdInRange(g.datacenterId)
    && g.sequence <= SEQUENCE_MASK && g.timestamp <= before && EPOCH <= before
  }

  /** The word last issued, or -1 for a generator that has issued none. */
  function LastWord(g: Gen): int {
    if g.timestamp < EPOCH then -1 else Word(g.timestamp - EPOCH, g.datacenterId, g.workerId, g.sequence)
  }

  predicate StampInRange(g: Gen) { g.timestamp - EPOCH <= TIMESTAMP_MAX }

  lemma SequenceWraps(g: Gen, first: int)
    requires g.sequence <= SEQUENCE_MASK
    ensures g.timestamp == first ==> NextSequence(g, first) == if g.sequence == SEQUENCE_MASK then 0 else g.sequence + 1
  {
    hide BitAnd, Pow2;
    Powers();
    AndMask(g.sequence + 1, 12);
  }

  /** One call: a later word than the last one, with the next sequence number or the first of a later millisecond. */
  lemma IssueAdvances(g: Gen, c: Call, before: int)
    requires Ready(g, before) && StampInRange(g) && Clocked(g, [c], before)
    ensures var (g', r) := Issue(g, c);
      && Ready(g', c.last)
      && (r.Exhausted? ==> c.last - EPOCH > TIMESTAMP_MAX)
      && (r.Ok? ==>
        && StampInRange(g') && g'.timestamp >= EPOCH && r.word == LastWord(g') > LastWord(g)
        && TimeOf(r.word) == g'.timestamp - EPOCH && SequenceOf(r.word) == g'.sequence
        && WorkerOf(r.word) == g.workerId && DatacenterOf(r.word) == g.datacenterId
        && g'.timestamp >= g.timestamp && g'.sequence == if g'.timestamp == g.timestamp then g.sequence + 1 else 0)
  {
    hide Word, BitAnd;
    var (g', r) := Issue(g, c);
    SequenceWraps(g, c.first);
    if r.Ok? {
      Decode(g'.timestamp - EPOCH, g.datacenterId, g.workerId, g'.sequence);
      Layout(g'.timestamp - EPOCH, g.datacenterId, g.workerId, g'.sequence);
      if g.timestamp >= EPOCH {
        Layout(g.timestamp - EPOCH, g.datacenterId, g.workerId, g.sequence);
      }
    }
  }

  lemma {:induction false} AllExhausted(g: Gen, calls: seq<Call>, before: int)
    requires Clocked(g, calls, before) && before - EPOCH > TIMESTAMP_MAX
    ensures forall i :: 0 <= i < |calls| ==> History(g, calls)[i].Exhausted?
    decreases |calls|
  {
    if calls != [] {
      AllExhausted(Issue(g, calls[0]).0, calls[1..], calls[0].last);
    }
  }

  /** Every word of a run is later than the last one before it. */
  lemma {:induction false} AllLater(g: Gen, calls: seq<Call>, before: int)
    requires Ready(g, before) && StampInRange(g) && Clocked(g, calls, before)
    ensures forall i :: 0 <= i < |calls| && History(g, calls)[i].Ok? ==> History(g, calls)[i].word > LastWord(g)
    decreases |calls|
  {
    if calls != [] {
      var (g', r) := Issue(g, calls[0]);
      IssueAdvances(g, calls[0], before);
      if r.Ok? {
        AllLater(g', calls[1..], calls[0].last);
      } else {
        AllExhausted(g', calls[1..], calls[0].last);
      }
    }
  }

  /** The words rise strictly, and there are none after the first failure. */
  predicate Rising(h: seq<Result>) {
    forall i, j :: 0 <= i < j < |h| && h[j].Ok? ==> h[i].Ok? && h[i].word < h[j].word
  }

  /**
   * Through sequence wraps and waits the words of a run rise, and once the time field is exhausted
   * every call fails.
   */
  lemma {:induction false} Increasing(g: Gen, calls: seq<Call>, before: int)
    requires Ready(g, before) && StampInRange(g) && Clocked(g, calls, before)
    ensures Rising(History(g, calls))
    decreases |calls|
  {
    hide Issue, LastWord, WorkerOf, DatacenterOf;
    if calls != [] {
      var (g', r) := Issue(g, calls[0]);
      var rest := History(g', calls[1..]);
      IssueAdvances(g, calls[0], before);
      if r.Ok? {
        AllLater(g', calls[1..], calls[0].last);
        Increasing(g', calls[1..], calls[0].last);
      } else {
        AllExhausted(g', calls[1..], calls[0].last);
      }
      assert History(g, calls) == [r] + rest;
    }
  }

  // Across generators the order of the readings does not matter.

  predicate AfterEpoch(calls: seq<Call>) {
    forall i :: 0 <= i < |calls| ==> calls[i].first >= EPOCH && calls[i].last >= EPOCH
  }

  lemma NextSequenceInRange(g: Gen, first: int)
    ensures NextSequence(g, first) <= SEQUENCE_MASK
  {
    hide BitAnd, Pow2;
    Powers();
    AndMask(g.sequence + 1, 12);
  }

  /** Every word of a run names its generator, whatever the clock does after the epoch. */
  lemma {:induction false} NamesGenerator(g: Gen, calls: seq<Call>, i: nat)
    requires IdInRange(g.workerId) && IdInRange(g.datacenterId) && AfterEpoch(calls)
    requires i < |calls| && History(g, calls)[i].Ok?
    ensures var word := History(g, calls)[i].word; WorkerOf(word) == g.workerId && DatacenterOf(word) == g.datacenterId
    decreases |calls|
  {
    hide Word, BitAnd;
    var (g', r) := Issue(g, calls[0]);
    if i > 0 {
      NamesGenerator(g', calls[1..], i - 1);
    } else {
      NextSequenceInRange(g, calls[0].first);
      Decode(g'.timestamp - EPOCH, g.datacenterId, g.workerId, g'.sequence);
    }
  }

  /** Generators with different ids never issue the same word, whatever their clocks do after the epoch. */
  lemma {:induction false} NeverCollide(g: Gen, calls: seq<Call>, h: Gen, others: seq<Call>, i: nat, j: nat)
    requires IdInRange(g.workerId) && IdInRange(g.datacenterId) && AfterEpoch(calls)
    requires IdInRange(h.workerId) && IdInRange(h.datacenterId) && AfterEpoch(others)
    requires g.workerId != h.workerId || g.datacenterId != h.datacenterId
    requires i < |calls| && j < |others| && History(g, calls)[i].Ok? && History(h, others)[j].Ok?
    ensures History(g, calls)[i].word != History(h, others)[j].word
  {
    hide WorkerOf, DatacenterOf;
    NamesGenerator(g, calls, i);
    NamesGenerator(h, others, j);
  }

  // The same from the arguments of the constructor on, in numbers.

  /** A call waits exactly when it is the 4097th in its millisecond. */
  lemma WaitsExactly(g: Gen, first: int)
    requires g.sequence <= 4095
    ensures Waits(g, first) <==> g.timestamp == first && g.sequence == 4095
    ensures NextSequence(g, first) == if g.timestamp == first && g.sequence < 4095 then g.sequence + 1 else 0
  {
    SequenceWraps(g, first);
  }

  /**
   * One call in numbers. The word is milliseconds since 2020, datacenter, worker and number, up to the
   * last millisecond of 41 bits; what is left behind is the time of the word and its number, or after
   * an error the old time.
   */
  lemma IssueInNumbers(g: Gen, c: Call)
    requires 0 <= g.workerId <= 31 && 0 <= g.datacenterId <= 31 && g.sequence <= 4095
    requires c.first >= 1577808000000 && c.last >= 1577808000000
    ensures var wraps := g.timestamp == c.first && g.sequence == 4095;
      var now := if wraps then c.last else c.first;
      var number := if g.timestamp == c.first && !wraps then g.sequence + 1 else 0;
      var r := Issue(g, c).1;
      && (r.Ok? <==> now <= 1577808000000 + 2199023255551)
      && (r.Ok? ==>
           r.word == (now - 1577808000000) * 4194304 + g.datacenterId * 131072 + g.workerId * 4096 + number)
      && Issue(g, c).0 == Gen(if r.Ok? then now else g.timestamp, g.workerId, g.datacenterId, number)
  {
    hide Word, BitAnd;
    WaitsExactly(g, c.first);
    var now := if Waits(g, c.first) then c.last else c.first;
    if now - EPOCH <= TIMESTAMP_MAX {
      Layout(now - EPOCH, g.datacenterId, g.workerId, NextSequence(g, c.first));
    }
  }

  /** A generator made for worker w of datacenter d issues words of worker w of datacenter d. */
  lemma {:induction false} NewNames(w: int, d: int, calls: seq<Call>, i: nat)
    requires 0 <= w <= 31 && 0 <= d <= 31 && AfterEpoch(calls) && i < |calls| && History(New(w, d), calls)[i].Ok?
    ensures var word := History(New(w, d), calls)[i].word; word / 4096 % 32 == w && word / 131072 % 32 == d
  {
    NamesGenerator(New(w, d), calls, i);
  }

  /** So generators made for different pairs never issue the same word. */
  lemma {:induction false} NewNeverCollide(w: int, d: int, calls: seq<Call>, w': int, d': int, others: seq<Call>,
      i: nat, j: nat)
    requires 0 <= w <= 31 && 0 <= d <= 31 && AfterEpoch(calls) && i < |calls| && History(New(w, d), calls)[i].Ok?
    requires 0 <= w' <= 31 && 0 <= d' <= 31 && AfterEpoch(others)
    requires j < |others| && History(New(w', d'), others)[j].Ok?
    requires w != w' || d != d'
    ensures History(New(w, d), calls)[i].word != History(New(w', d'), others)[j].word
  {
    NewNames(w, d, calls, i);
    NewNames(w', d', others, j);
  }

  /** And the words of each rise over every run on a clock that starts after 2019 and does not step back. */
  lemma {:induction false} NewIncreases(w: int, d: int, calls: seq<Call>, before: int)
    requires 0 <= w <= 31 && 0 <= d <= 31 && 1577808000000 <= before && Clocked(New(w, d), calls, before)
    ensures Rising(History(New(w, d), calls))
  {
    Increasing(New(w, d), calls, before);
  }

  /** The next number in the given millisecond, or number 0 of a later one. */
  predicate Follows(word: nat, time: int, number: nat) {
    TimeOf(word) >= time && SequenceOf(word) == if TimeOf(word) == time then number + 1 else 0
  }

  /** Neighbouring words: the next sequence number in the same millisecond, or number 0 of a later one. */
  lemma {:induction false} Gapless(g: Gen, calls: seq<Call>, before: int, i: nat)
    requires Ready(g, before) && StampInRange(g) && Clocked(g, calls, before)
    requires i < |calls| && History(g, calls)[i].Ok?
    ensures var h := History(g, calls);
      if i == 0 then Follows(h[i].word, g.timestamp - EPOCH, g.sequence)
      else h[i - 1].Ok? && Follows(h[i].word, TimeOf(h[i - 1].word), SequenceOf(h[i - 1].word))
    decreases |calls|
  {
    var (g', r) := Issue(g, calls[0]);
    IssueAdvances(g, calls[0], before);
    if i > 0 {
      if r.Ok? {
        Gapless(g', calls[1..], calls[0].last, i - 1);
      } else {
        AllExhausted(g', calls[1..], calls[0].last);
      }
    }
  }

  /** The words of one millisecond are numbered without gaps, so there are at most 4096 of them. */
  lemma {:induction false} Rate(g: Gen, calls: seq<Call>, before: int, i: nat, j: nat)
    requires Ready(g, before) && StampInRange(g) && Clocked(g, calls, before)
    requires i <= j < |calls| && History(g, calls)[i].Ok? && History(g, calls)[j].Ok?
    ensures var h := History(g, calls);
      && TimeOf(h[i].word) <= TimeOf(h[j].word)
      && (TimeOf(h[i].word) == TimeOf(h[j].word) ==> SequenceOf(h[j].word) - SequenceOf(h[i].word) == j - i < 4096)
    decreases j - i
  {
    if i < j {
      Increasing(g, calls, before);
      Gapless(g, calls, before, j);
      Rate(g, calls, before, i, j - 1);
    }
  }

  /**
   * The clock condition is exact: a call issues a later word if and only if its reading is not
   * before the stored one.
   */
  lemma ClockStepExact(g: Gen, c: Call)
    requires IdInRange(g.workerId) && IdInRange(g.datacenterId) && g.sequence <= SEQUENCE_MASK
    requires g.timestamp >= EPOCH && StampInRange(g) && EPOCH <= c.first <= EPOCH + TIMESTAMP_MAX
    requires if Waits(g, c.first) then g.timestamp < c.last <= EPOCH + TIMESTAMP_MAX else c.last == c.first
    ensures var r := Issue(g, c).1; r.Ok? && (r.word > LastWord(g) <==> c.first >= g.timestamp)
  {
    if c.first >= g.timestamp {
      IssueAdvances(g, c, g.timestamp);
    } else {
      Layout(c.first - EPOCH, g.datacenterId, g.workerId, 0);
      Layout(g.timestamp - EPOCH, g.datacenterId, g.workerId, g.sequence);
    }
  }

  // What the code does not check.

  lemma {:induction false} OrAtLeast(a: nat, b: nat)
    ensures BitOr(a, b) >= a
    decreases a + b
  {
    if a != 0 || b != 0 {
      OrAtLeast(a / 2, b / 2);
    }
  }

  lemma {:induction false} OrBound(a: nat, b: nat, k: nat)
    requires a < Pow2(k) && b < Pow2(k)
    ensures BitOr(a, b) < Pow2(k)
    decreases k
  {
    if k > 0 {
      OrBound(a / 2, b / 2, k - 1);
    }
  }

  lemma {:induction false} OrSame(a: nat, b: nat)
    ensures BitOr(a, b) == BitOr(b, a)
    decreases a + b
  {
    if a != 0 || b != 0 {
      OrSame(a / 2, b / 2);
    }
  }

  lemma OrStep(a: nat, b: nat)
    ensures BitOr(a, b) == 2 * BitOr(a / 2, b / 2) + if a % 2 == 1 || b % 2 == 1 then 1 else 0
  {
  }

  /** Or works on the low k bits and on the others separately. */
  lemma {:induction false} OrSplits(a: nat, low: nat, b: nat, low': nat, k: nat)
    requires low < Pow2(k) && low' < Pow2(k)
    ensures BitOr(a * Pow2(k) + low, b * Pow2(k) + low') == BitOr(a, b) * Pow2(k) + BitOr(low, low')
    decreases k
  {
    if k > 0 {
      HalfSplits(a, low, k);
      HalfSplits(b, low', k);
      OrSplits(a, low / 2, b, low' / 2, k - 1);
      Doubles(BitOr(a, b), k);
    }
  }

  lemma HalfSplits(a: nat, low: nat, k: nat)
    requires k > 0 && low < Pow2(k)
    ensures var x := a * Pow2(k) + low;
      x / 2 == a * Pow2(k - 1) + low / 2 && x % 2 == low % 2 && low / 2 < Pow2(k - 1)
  {
    Doubles(a, k);
  }

  lemma Doubles(a: nat, k: nat)
    requires k > 0
    ensures a * Pow2(k) == 2 * (a * Pow2(k - 1))
  {
  }

  /** A word by its fields: what is at or above bit 22, and the three fields below. */
  function Joined(high: nat, datacenterId: nat, workerId: nat, sequence: nat): nat {
    high * 4194304 + datacenterId * 131072 + workerId * 4096 + sequence
  }

  predicate LowInRange(datacenterId: nat, workerId: nat, sequence: nat) {
    datacenterId < 32 && workerId < 32 && sequence < 4096
  }

  lemma OrJoined(h: nat, d: nat, w: nat, q: nat, h': nat, d': nat, w': nat, q': nat)
    requires LowInRange(d, w, q) && LowInRange(d', w', q')
    ensures BitOr(Joined(h, d, w, q), Joined(h', d', w', q')) ==
      Joined(BitOr(h, h'), BitOr(d, d'), BitOr(w, w'), BitOr(q, q'))
    ensures LowInRange(BitOr(d, d'), BitOr(w, w'), BitOr(q, q'))
  {
    hide BitOr, Joined;
    var high, high' := h * 32 + d, h' * 32 + d';
    JoinedNested(h, d, w, q);
    JoinedNested(h', d', w', q');
    JoinedNested(BitOr(h, h'), BitOr(d, d'), BitOr(w, w'), BitOr(q, q'));
    OrSplits12(high * 32 + w, q, high' * 32 + w', q');
    OrSplits5(high, w, high', w');
    OrSplits5(h, d, h', d');
  }

  lemma OrSplits12(a: nat, low: nat, b: nat, low': nat)
    requires low < 4096 && low' < 4096
    ensures BitOr(a * 4096 + low, b * 4096 + low') == BitOr(a, b) * 4096 + BitOr(low, low') && BitOr(low, low') < 4096
  {
    Powers();
    OrSplits(a, low, b, low', 12);
    OrBound(low, low', 12);
  }

  lemma OrSplits5(a: nat, low: nat, b: nat, low': nat)
    requires low < 32 && low' < 32
    ensures BitOr(a * 32 + low, b * 32 + low') == BitOr(a, b) * 32 + BitOr(low, low') && BitOr(low, low') < 32
  {
    assert Pow2(5) == 32;
    OrSplits(a, low, b, low', 5);
    OrBound(low, low', 5);
  }

  lemma JoinedNested(h: nat, d: nat, w: nat, q: nat)
    ensures Joined(h, d, w, q) == ((h * 32 + d) * 32 + w) * 4096 + q
  {
  }

  // What is left of an id in the word: the shift drops what would go beyond bit 63.

  function DatacenterBits(d: int): nat { d % 140737488355328 }
  function WorkerBits(w: int): nat { w % 4503599627370496 }

  /** What the ids put on bits 22 to 63, where the time is. */
  function Spilled(d: int, w: int): nat { BitOr(DatacenterBits(d) / 32, WorkerBits(w) / 1024) }

  /** What they put on the datacenter field. */
  function DatacenterField(d: int, w: int): nat { BitOr(d % 32, (w / 32) % 32) }

  lemma WordOfAnyIds(t: int, d: int, w: int, q: int)
    requires InField(t, q)
    ensures Word(t, d, w, q) == Joined(BitOr(t, Spilled(d, w)), DatacenterField(d, w), w % 32, q)
    ensures DatacenterField(d, w) < 32
  {
    hide BitOr, Pow2, Shl;
    ShiftedTime(t);
    ShiftedDatacenter(d);
    ShiftedWorker(w);
    assert q % TWO_64 == Joined(0, 0, 0, q);
    hide Joined, DatacenterBits, WorkerBits;
    var h, h' := DatacenterBits(d) / 32, WorkerBits(w) / 1024;
    OrFour(t, h, d % 32, h', (w / 32) % 32, w % 32, q);
    OrAssociates(t, h, h');
  }

  lemma {:induction false} OrAssociates(a: nat, b: nat, c: nat)
    ensures BitOr(BitOr(a, b), c) == BitOr(a, BitOr(b, c))
    decreases a + b + c
  {
    if a != 0 || b != 0 || c != 0 {
      OrAssociates(a / 2, b / 2, c / 2);
      OrStep(a, b);
      OrStep(b, c);
      hide BitOr;
      OrStep(BitOr(a, b), c);
      OrStep(a, BitOr(b, c));
    }
  }

  /** The or of the four shifted parts, field by field. */
  lemma OrFour(t: nat, h: nat, d: nat, h': nat, d': nat, w: nat, q: nat)
    requires d < 32 && LowInRange(d', w, q)
    ensures BitOr(BitOr(BitOr(Joined(t, 0, 0, 0), Joined(h, d, 0, 0)), Joined(h', d', w, 0)), Joined(0, 0, 0, q)) ==
      Joined(BitOr(BitOr(t, h), h'), BitOr(d, d'), w, q)
    ensures BitOr(d, d') < 32
  {
    hide BitOr, Joined;
    OrZeros(d);
    OrZeros(0);
    OrZeros(w);
    OrZeros(q);
    OrZero(BitOr(BitOr(t, h), h'));
    OrZero(BitOr(d, d'));
    OrZero(w);
    OrJoined(t, 0, 0, 0, h, d, 0, 0);
    OrJoined(BitOr(t, h), d, 0, 0, h', d', w, 0);
    OrJoined(BitOr(BitOr(t, h), h'), BitOr(d, d'), w, 0, 0, 0, 0, q);
  }

  lemma OrZeros(a: nat)
    ensures BitOr(0, a) == a
  {
    OrSame(0, a);
    OrZero(a);
  }

  lemma ShiftedTime(t: int)
    requires 0 <= t <= TIMESTAMP_MAX
    ensures Shl(t, TIMESTAMP_SHIFT) == Joined(t, 0, 0, 0)
  {
    Powers();
  }

  lemma ShiftedDatacenter(d: int)
    ensures Shl(d, DATACENTER_ID_SHIFT) == Joined(DatacenterBits(d) / 32, d % 32, 0, 0)
  {
    Powers();
    hide Pow2;
    DatacenterModulo(d);
    var bits := DatacenterBits(d);
    hide DatacenterBits;
    assert bits == 32 * (bits / 32) + bits % 32;
  }

  lemma DatacenterModulo(d: int)
    ensures (d * 131072) % TWO_64 == DatacenterBits(d) * 131072 && d % 32 == DatacenterBits(d) % 32
  {
    var k, bits := d / 140737488355328, DatacenterBits(d);
    assert d == 140737488355328 * k + bits;
    assert d * 131072 == TWO_64 * k + bits * 131072;
  }

  lemma ShiftedWorker(w: int)
    ensures Shl(w, WORKER_ID_SHIFT) == Joined(WorkerBits(w) / 1024, (w / 32) % 32, w % 32, 0)
  {
    Powers();
    hide Pow2;
    WorkerModulo(w);
    var bits := WorkerBits(w);
    hide WorkerBits;
    assert bits == 32 * (bits / 32) + bits % 32;
    assert bits / 32 == 32 * (bits / 1024) + (bits / 32) % 32;
  }

  lemma WorkerModulo(w: int)
    ensures (w * 4096) % TWO_64 == WorkerBits(w) * 4096
    ensures w % 32 == WorkerBits(w) % 32 && (w / 32) % 32 == (WorkerBits(w) / 32) % 32
  {
    var k, bits := w / 4503599627370496, WorkerBits(w);
    assert w == 4503599627370496 * k + bits;
    assert w * 4096 == TWO_64 * k + bits * 4096;
    hide WorkerBits;
    LowBits(140737488355328 * k, bits, w);
    LowBits(4398046511104 * k, bits / 32, w / 32);
  }

  lemma LowBits(k: int, bits: nat, w: int)
    requires w == 32 * k + bits
    ensures w % 32 == bits % 32 && w / 32 == k + bits / 32
  {
  }

  predicate InField(t: int, q: int) { 0 <= t <= TIMESTAMP_MAX && 0 <= q <= SEQUENCE_MASK }

  /** The words of ids d and w are no words of other ids in range, and determine time and sequence. */
  ghost predicate UniqueIds(d: int, w: int) {
    && (forall t, q, t', d', w', q' ::
         InField(t, q) && InRange(t', d', w', q') && Word(t, d, w, q) == Word(t', d', w', q') ==>
         d == d' && w == w')
    && (forall t, q, t', q' ::
         InField(t, q) && InField(t', q') && Word(t, d, w, q) == Word(t', d, w, q') ==> t == t' && q == q')
  }

  lemma InRangeIsUnique(d: int, w: int)
    requires IdInRange(d) && IdInRange(w)
    ensures UniqueIds(d, w)
  {
    hide Word;
    forall t, q | InField(t, q)
      ensures var word := Word(t, d, w, q);
        TimeOf(word) == t && DatacenterOf(word) == d && WorkerOf(word) == w && SequenceOf(word) == q
    {
      Decode(t, d, w, q);
    }
    forall t, d', w', q | InRange(t, d', w', q)
      ensures var word := Word(t, d', w', q); DatacenterOf(word) == d' && WorkerOf(word) == w'
    {
      Decode(t, d', w', q);
    }
  }

  /** Bit 63, as a bit of what stands above the fields of the ids. */
  const SIGN: nat := 2199023255552

  /** Ids of which nothing but the sign bit of the word is left beyond their fields. */
  predicate OnlySign(d: int, w: int) {
    var h, h' := DatacenterBits(d) / 32, WorkerBits(w) / 1024;
    (h == 0 || h == SIGN) && (h' == 0 || h' == SIGN) && (h == SIGN || h' == SIGN)
  }

  /**
   * The check that the constructor leaves out is exact, over all ids: the words are unique if and only
   * if both ids are in range, or spill over into the sign bit and nothing else.
   */
  lemma IdRangeExact(d: int, w: int)
    ensures UniqueIds(d, w) <==> (IdInRange(d) && IdInRange(w)) || OnlySign(d, w)
  {
    hide Word, BitOr, DatacenterBits, WorkerBits, Spilled;
    var spill := Spilled(d, w);
    SpillCases(d, w);
    if IdInRange(d) && IdInRange(w) {
      InRangeIsUnique(d, w);
    } else if spill % SIGN != 0 {
      TimeIsLost(0, d, w, 0);
      OrZeros(spill % SIGN);
      assert InField(0, 0) && InField(spill % SIGN, 0);
    } else if spill == 0 {
      RunsOver(0, d, w, 0);
      assert InField(0, 0);
    } else {
      SignIsUnique(d, w);
    }
  }

  lemma SpillCases(d: int, w: int)
    ensures Spilled(d, w) < 2 * SIGN
    ensures Spilled(d, w) == SIGN <==> OnlySign(d, w)
    ensures Spilled(d, w) == 0 <==> DatacenterBits(d) < 32 && WorkerBits(w) < 1024
    ensures IdInRange(d) && IdInRange(w) ==> Spilled(d, w) == 0
  {
    BitsBounds(d, w);
    hide DatacenterBits, WorkerBits, BitOr;
    var h, h' := DatacenterBits(d) / 32, WorkerBits(w) / 1024;
    assert h < 2 * SIGN && h' < 2 * SIGN;
    SpillOf(h, h');
    OrZeroOnly(h, h');
  }

  lemma BitsBounds(d: int, w: int)
    ensures DatacenterBits(d) < 64 * SIGN && WorkerBits(w) < 2048 * SIGN
    ensures IdInRange(d) ==> DatacenterBits(d) == d
    ensures IdInRange(w) ==> WorkerBits(w) == w
  {
  }

  lemma SpillOf(h: nat, h': nat)
    requires h < 2 * SIGN && h' < 2 * SIGN
    ensures BitOr(h, h') < 2 * SIGN
    ensures BitOr(h, h') == SIGN <==> (h == 0 || h == SIGN) && (h' == 0 || h' == SIGN) && (h == SIGN || h' == SIGN)
  {
    hide BitOr;
    OrBelow42(h, h');
    OrSplits41(h / SIGN, h % SIGN, h' / SIGN, h' % SIGN);
    SignSplits(h, h');
  }

  lemma OrBelow42(h: nat, h': nat)
    requires h < 2 * SIGN && h' < 2 * SIGN
    ensures BitOr(h, h') < 2 * SIGN
  {
    hide BitOr;
    Pow42();
    OrBound(h, h', 42);
  }

  lemma OrSplits41(a: nat, low: nat, b: nat, low': nat)
    requires low < SIGN && low' < SIGN
    ensures BitOr(a * SIGN + low, b * SIGN + low') == BitOr(a, b) * SIGN + BitOr(low, low') && BitOr(low, low') < SIGN
  {
    hide BitOr;
    Pow42();
    assert Pow2(41) == SIGN;
    OrSplits(a, low, b, low', 41);
    OrBound(low, low', 41);
  }

  lemma SignSplits(h: nat, h': nat)
    requires h < 2 * SIGN && h' < 2 * SIGN
    requires BitOr(h / SIGN * SIGN + h % SIGN, h' / SIGN * SIGN + h' % SIGN) ==
      BitOr(h / SIGN, h' / SIGN) * SIGN + BitOr(h % SIGN, h' % SIGN)
    ensures BitOr(h, h') == SIGN <==> (h == 0 || h == SIGN) && (h' == 0 || h' == SIGN) && (h == SIGN || h' == SIGN)
  {
    var x, low, x', low' := h / SIGN, h % SIGN, h' / SIGN, h' % SIGN;
    assert h == x * SIGN + low && h' == x' * SIGN + low' && x <= 1 && x' <= 1;
    OneBit();
    hide BitOr;
    OrSplits41(0, low, 0, low');
    OrZeroOnly(low, low');
  }

  lemma OneBit()
    ensures BitOr(0, 0) == 0 && BitOr(0, 1) == 1 && BitOr(1, 0) == 1 && BitOr(1, 1) == 1
  {
  }

  lemma OrZeroOnly(a: nat, b: nat)
    ensures BitOr(a, b) == 0 <==> a == 0 && b == 0
  {
    OrAtLeast(a, b);
    OrSame(a, b);
    OrAtLeast(b, a);
  }

  lemma {:induction false} OrTwice(a: nat)
    ensures BitOr(a, a) == a
  {
    if a != 0 {
      OrTwice(a / 2);
    }
  }

  /** Or with part of its own low bits changes nothing. */
  lemma OrAbsorbs(a: nat)
    ensures BitOr(a % SIGN, a) == a && BitOr(0, a) == a
  {
    hide BitOr;
    OrSplits41(0, a % SIGN, a / SIGN, a % SIGN);
    OrZeros(a / SIGN);
    OrZeros(a);
    OrTwice(a % SIGN);
    assert a == a / SIGN * SIGN + a % SIGN;
  }

  /**
   * Ids that spill over into the time below the sign bit: milliseconds that differ in those bits
   * only share their words.
   */
  lemma TimeIsLost(t: int, d: int, w: int, q: int)
    requires InField(t, q)
    ensures var t' := BitOr(t, Spilled(d, w) % SIGN); InField(t', q) && Word(t', d, w, q) == Word(t, d, w, q)
  {
    hide Word, BitOr, Spilled;
    var spill := Spilled(d, w);
    Pow42();
    assert Pow2(41) == SIGN;
    OrBound(t, spill % SIGN, 41);
    hide Pow2;
    WordOfAnyIds(BitOr(t, spill % SIGN), d, w, q);
    WordOfAnyIds(t, d, w, q);
    OrAssociates(t, spill % SIGN, spill);
    OrAbsorbs(spill);
  }

  /**
   * Ids out of range that do not reach the sign bit: the words are those of ids in range, at a time
   * that may differ.
   */
  lemma RunsOver(t: int, d: int, w: int, q: int)
    requires Spilled(d, w) < SIGN && !(IdInRange(d) && IdInRange(w)) && InField(t, q)
    ensures var t', d', w' := BitOr(t, Spilled(d, w)), DatacenterField(d, w), w % 32;
      InRange(t', d', w', q) && (d' != d || w' != w) && Word(t, d, w, q) == Word(t', d', w', q)
  {
    hide Word, BitOr, Spilled;
    WordOfAnyIds(t, d, w, q);
    Pow42();
    assert Pow2(41) == SIGN;
    OrBound(t, Spilled(d, w), 41);
    hide Pow2;
    Layout(BitOr(t, Spilled(d, w)), DatacenterField(d, w), w % 32, q);
  }

  /** Ids that spill over into the sign bit only have words above all others. */
  lemma SignIsUnique(d: int, w: int)
    requires Spilled(d, w) == SIGN
    ensures UniqueIds(d, w)
  {
    hide Word, BitOr, Spilled, DatacenterBits, WorkerBits;
    forall t, q | InField(t, q)
      ensures Word(t, d, w, q) == Joined(SIGN + t, DatacenterField(d, w), w % 32, q) && DatacenterField(d, w) < 32
    {
      WordOfAnyIds(t, d, w, q);
      TimeBelowSign(t);
    }
    forall t, d', w', q | InRange(t, d', w', q) ensures Word(t, d', w', q) < 9223372036854775808 {
      Layout(t, d', w', q);
    }
  }

  lemma TimeBelowSign(t: nat)
    requires t <= TIMESTAMP_MAX
    ensures BitOr(t, SIGN) == SIGN + t
  {
    Pow42();
    assert Pow2(41) == SIGN;
    OrAdds(1, t, 41);
    OrSame(t, SIGN);
  }

  lemma Pow42()
    ensures Pow2(42) == 4398046511104 && Pow2(41) == TIMESTAMP_MAX + 1
  {
    Powers();
    assert Pow2(27) == 134217728;
    assert Pow2(32) == 4294967296;
    assert Pow2(37) == 137438953472;
  }

  /** An id issued before the epoch is greater than every id issued in range. */
  lemma BeforeEpochIsGreater(t: int, t': int, datacenterId: int, workerId: int, sequence: int, sequence': int)
    requires -2199023255552 <= t < 0 && InRange(t', datacenterId, workerId, sequence')
    ensures Word(t, datacenterId, workerId, sequence) > Word(t', datacenterId, workerId, sequence')
  {
    hide BitOr;
    Powers();
    Layout(t', datacenterId, workerId, sequence');
    var high := Shl(t, TIMESTAMP_SHIFT);
    assert t * Pow2(TIMESTAMP_SHIFT) == t * 4194304;
    assert high == t * 4194304 + TWO_64;
    OrAtLeast(high, Shl(datacenterId, DATACENTER_ID_SHIFT));
    OrAtLeast(BitOr(high, Shl(datacenterId, DATACENTER_ID_SHIFT)), Shl(workerId, WORKER_ID_SHIFT));
    OrAtLeast(BitOr(BitOr(high, Shl(datacenterId, DATACENTER_ID_SHIFT)), Shl(workerId, WORKER_ID_SHIFT)),
        sequence % TWO_64);
  }
}
