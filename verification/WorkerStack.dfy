/** The idle stack: workers in the order of their last use, kept in a slice of a shared buffer. */
module WorkerStack {

  /** A slot of the buffer: nil, or a worker with the time at which it was last used. */
  datatype Slot = Nil | Entry(id: nat, lastUsed: int)

  /** Milliseconds after which an idle worker is stale. */
  const EXPIRY_DURATION := 10000

  predicate Filled(s: seq<Slot>) { forall i :: 0 <= i < |s| ==> s[i].Entry? }

  predicate Sorted(s: seq<Slot>)
    requires Filled(s)
  {
    forall i, j :: 0 <= i < j < |s| ==> s[i].lastUsed <= s[j].lastUsed
  }

  /** How many workers from the bottom of the stack were last used at or before the cutoff. */
  function StaleCount(s: seq<Slot>, cutoff: int): nat
    requires Filled(s)
  {
    if s == [] || s[0].lastUsed > cutoff then 0 else 1 + StaleCount(s[1..], cutoff)
  }

  /** Where the binary search between l and r ends, on any stack. */
  function Search(s: seq<Slot>, l: nat, r: nat, cutoff: int): (index: nat)
    requires Filled(s) && l <= r <= |s|
    ensures l <= index <= r
    decreases r - l
  {
    if l == r then r else
      var mid := (l + r) / 2;
      if cutoff < s[mid].lastUsed then Search(s, l, mid, cutoff) else Search(s, mid + 1, r, cutoff)
  }

  /** How many workers a purge takes: those up to and with the one found among all but the last. */
  function PurgeCount(s: seq<Slot>, cutoff: int): (k: nat)
    requires Filled(s)
    ensures k <= |s| && (k == 0 <==> s == [])
  {
    if s == [] then 0 else Search(s, 0, |s| - 1, cutoff) + 1
  }

  lemma {:induction false} StaleCountSplits(s: seq<Slot>, cutoff: int)
    requires Filled(s) && Sorted(s)
    ensures StaleCount(s, cutoff) <= |s|
    ensures forall i :: 0 <= i < |s| ==> (s[i].lastUsed <= cutoff <==> i < StaleCount(s, cutoff))
  {
    if s != [] {
      StaleCountSplits(s[1..], cutoff);
      assert forall i :: 0 < i < |s| ==> s[i] == s[1..][i - 1];
    }
  }

  /** On a stack that is sorted but for its last worker: k are the stale ones among the others, and one more. */
  predicate StaleAndOneMore(s: seq<Slot>, cutoff: int, k: nat)
    requires Filled(s)
  {
    s != [] && Sorted(s[..|s| - 1]) ==> k == StaleCount(s[..|s| - 1], cutoff) + 1
  }

  /**
   * The first k are those whose last use is ten seconds ago or more, and one more; on a sorted stack
   * those behind them were used in the last ten seconds, and at most one of the k was.
   */
  predicate PurgesAtTenSeconds(s: seq<Slot>, now: int, k: nat)
    requires Filled(s)
  {
    StaleAndOneMore(s, now - 10000, k) && (Sorted(s) ==>
      && (forall i :: k <= i < |s| ==> s[i].lastUsed > now - 10000)
      && (forall i :: 0 <= i < k - 1 && i < |s| ==> s[i].lastUsed <= now - 10000))
  }

  class WorkerStack {
    var items: array<Slot>
    var len: nat
    var expiry: array<Slot>
    var expiryLen: nat

    ghost predicate Valid()
      reads this, items, expiry
    {
      && items != expiry
      && len <= items.Length && expiryLen <= expiry.Length
      && Filled(items[..len])
      && forall i :: len <= i < items.Length ==> items[i] == Nil
    }

    ghost function Repr(): set<object>
      reads this
    {
      {this, items, expiry}
    }

    ghost function Contents(): seq<Slot>
      reads this, items
      requires len <= items.Length
    {
      items[..len]
    }

    constructor (size: nat)
      ensures Valid() && fresh(Repr())
      ensures Contents() == []
    {
      items := new Slot[size](_ => Nil);
      len := 0;
      expiry := new Slot[0];
      expiryLen := 0;
    }

    method Insert(w: Slot)
      requires Valid() && w.Entry?
      modifies Repr()
      ensures Valid() && fresh(Repr() - old(Repr()))
      ensures Contents() == old(Contents()) + [w] == Step(old(Contents()), Revert(w.id, w.lastUsed))
      ensures expiry == old(expiry) && expiryLen == old(expiryLen) && expiry[..] == old(expiry[..])
    {
      if len == items.Length {
        var before, n := items, len;
        items := new Slot[2 * n + 1](i requires 0 <= i reads before =>
          if i < n && i < before.Length then before[i] else Nil);
      }
      items[len] := w;
      len := len + 1;
    }

    method Detach() returns (w: Slot)
      requires Valid()
      modifies this`len, items
      ensures Valid()
      ensures if old(Contents()) == [] then w == Nil && Contents() == []
              else Contents() + [w] == old(Contents()) && w.Entry? && items[len] == Nil
      ensures Contents() == Step(old(Contents()), Take)
    {
      if len == 0 {
        return Nil;
      }
      w := items[len - 1];
      items[len - 1] := Nil;
      len := len - 1;
    }

    /** In a sorted range the first fresh worker, or r0 if there is none before it; on any stack what Search says. */
    method BinarySearch(l0: nat, r0: nat, cutoff: int) returns (index: nat)
      requires Valid() && l0 <= r0 < len
      ensures l0 <= index <= r0 && index == Search(Contents(), l0, r0, cutoff)
      ensures Sorted(Contents()[..r0]) ==>
        && (forall i :: l0 <= i < index ==> items[i].lastUsed <= cutoff)
        && (forall i :: index <= i < r0 ==> items[i].lastUsed > cutoff)
    {
      var l, r := l0, r0;
      while l < r
        invariant l0 <= l <= r <= r0
        invariant Search(Contents(), l0, r0, cutoff) == Search(Contents(), l, r, cutoff)
      {
        var mid := (l + r) / 2;
        assert items[mid] == Contents()[mid];
        if cutoff < items[mid].lastUsed {
          r := mid;
        } else {
          l := mid + 1;
        }
      }
      index := r;
      ghost var s := Contents();
      assert forall i :: 0 <= i < len ==> items[i] == s[i];
      hide Sorted, Search;
      if Sorted(s[..r0]) {
        SearchSplits(s, l0, r0, cutoff);
      }
    }

    /** Moves the workers to purge into expiry, in order, and the others to the front. */
    method Refresh(now: int) returns (stale: seq<Slot>)
      requires Valid()
      modifies Repr()
      ensures Valid() && fresh(Repr() - old(Repr()))
      ensures stale + Contents() == old(Contents())
      ensures stale == [] <==> old(Contents()) == []
      ensures |stale| == PurgeCount(old(Contents()), now - EXPIRY_DURATION)
          && Contents() == Step(old(Contents()), Purge(now))
      ensures PurgesAtTenSeconds(old(Contents()), now, |stale|)
      ensures stale != [] ==> expiry[..expiryLen] == stale
      ensures items == old(items)
    {
      ghost var s := Contents();
      PurgeMeans(s, now);
      PurgeSplits(s, now);
      hide Sorted, Search, PurgeCount, PurgesAtTenSeconds, Step;
      if len == 0 {
        return [];
      }
      var index := FindStale(now);
      stale := MoveOut(index + 1);
    }

    method FindStale(now: int) returns (index: nat)
      requires Valid() && len > 0
      ensures index < len && PurgeCount(Contents(), now - EXPIRY_DURATION) == index + 1
    {
      index := BinarySearch(0, len - 1, now - EXPIRY_DURATION);
    }

    /** The first k workers go to expiry, the others to the front. */
    method MoveOut(k: nat) returns (stale: seq<Slot>)
      requires Valid() && k <= len
      modifies Repr()
      ensures Valid() && fresh(Repr() - old(Repr())) && items == old(items)
      ensures stale == old(Contents())[..k] == expiry[..expiryLen] && Contents() == old(Contents())[k..]
    {
      FillExpiry(k);
      assert expiry[..expiryLen] == Contents()[..k];
      Shift(k);
      stale := expiry[..expiryLen];
    }

    /** expiry = append(expiry[:0], items[:k]...) */
    method FillExpiry(k: nat)
      requires Valid() && k <= len
      modifies this`expiry, this`expiryLen, expiry
      ensures Valid() && fresh({expiry} - {old(expiry)})
      ensures expiryLen == k && expiry[..k] == items[..k]
    {
      if expiry.Length < k {
        expiry := new Slot[2 * k];
      }
      forall i | 0 <= i < k { expiry[i] := items[i]; }
      expiryLen := k;
    }

    /** The copy to the front and the loop that clears the tail. */
    method Shift(k: nat)
      requires Valid() && k <= len
      modifies this`len, items
      ensures Valid() && Contents() == old(Contents())[k..]
      ensures unchanged(expiry)
    {
      var n, m := len, len - k;
      ghost var above := items[n..];
      CopyDown(k);
      ClearTail(m, n);
      assert items[n..] == above;
      len := m;
    }

    method CopyDown(k: nat)
      requires items != expiry && k <= len <= items.Length
      modifies items
      ensures items[..len - k] == old(items[k..len]) && items[len..] == old(items[len..])
    {
      forall i | 0 <= i < len - k { items[i] := items[i + k]; }
    }

    method ClearTail(m: nat, n: nat)
      requires m <= n <= items.Length
      modifies items
      ensures items[..m] == old(items[..m]) && items[n..] == old(items[n..])
      ensures forall j :: m <= j < n ==> items[j] == Nil
    {
      for i := m to n
        invariant items[..m] == old(items[..m]) && items[n..] == old(items[n..])
        invariant forall j :: m <= j < i ==> items[j] == Nil
      {
        items[i] := Nil;
      }
    }

    /** Finishes every worker in stack order and empties the stack. */
    method Reset() returns (finished: seq<Slot>)
      requires Valid()
      modifies this`len, items
      ensures Valid() && Contents() == [] == Step(old(Contents()), Clear) && finished == old(Contents())
    {
      finished := [];
      for i := 0 to len
        invariant len == old(len) && finished == old(items[..i])
        invariant forall j :: 0 <= j < i || len <= j < items.Length ==> items[j] == Nil
        invariant forall j :: i <= j < len ==> items[j] == old(items[j])
      {
        finished := finished + [items[i]];
        items[i] := Nil;
      }
      len := 0;
    }
  }

  /** The search looks at the entries before r only, and splits them at the cutoff if they are sorted. */
  lemma {:induction false} SearchSplits(s: seq<Slot>, l: nat, r: nat, cutoff: int)
    requires Filled(s) && l <= r <= |s| && Sorted(s[..r])
    ensures forall i :: l <= i < Search(s, l, r, cutoff) ==> s[i].lastUsed <= cutoff
    ensures forall i :: Search(s, l, r, cutoff) <= i < r ==> s[i].lastUsed > cutoff
    decreases r - l
  {
    if l < r {
      var mid := (l + r) / 2;
      assert forall i :: 0 <= i < r ==> s[i] == s[..r][i];
      assert Sorted(s[..mid]) by {
        assert forall i :: 0 <= i < mid ==> s[..mid][i] == s[i] == s[..r][i];
      }
      hide Sorted;
      if cutoff < s[mid].lastUsed {
        SearchSplits(s, l, mid, cutoff);
      } else {
        SearchSplits(s, mid + 1, r, cutoff);
      }
    }
  }

  /** On any stack, sorted or not, the search ends right behind a stale worker and right before a fresh one. */
  lemma {:induction false} SearchBetween(s: seq<Slot>, l: nat, r: nat, cutoff: int)
    requires Filled(s) && l <= r <= |s|
    ensures var index := Search(s, l, r, cutoff);
      && (l < index ==> s[index - 1].lastUsed <= cutoff)
      && (index < r ==> s[index].lastUsed > cutoff)
    decreases r - l
  {
    if l < r {
      var mid := (l + r) / 2;
      if cutoff < s[mid].lastUsed {
        SearchBetween(s, l, mid, cutoff);
      } else {
        SearchBetween(s, mid + 1, r, cutoff);
      }
    }
  }

  /** A purge takes the stale workers among all but the last, and one more. */
  lemma PurgeCountOfFront(s: seq<Slot>, cutoff: int)
    requires Filled(s) && s != [] && Sorted(s[..|s| - 1])
    ensures PurgeCount(s, cutoff) == StaleCount(s[..|s| - 1], cutoff) + 1
  {
    var n := |s| - 1;
    SearchSplits(s, 0, n, cutoff);
    assert forall i :: 0 <= i < n ==> s[i] == s[..n][i];
    StaleCountFound(s[..n], cutoff, Search(s, 0, n, cutoff));
  }

  lemma PurgeTakesStaleAndOneMore(s: seq<Slot>, cutoff: int)
    requires Filled(s)
    ensures StaleAndOneMore(s, cutoff, PurgeCount(s, cutoff))
  {
    if s != [] && Sorted(s[..|s| - 1]) {
      PurgeCountOfFront(s, cutoff);
    }
  }

  lemma {:induction false} StaleCountFound(s: seq<Slot>, cutoff: int, k: nat)
    requires Filled(s) && k <= |s|
    requires forall i :: 0 <= i < k ==> s[i].lastUsed <= cutoff
    requires k < |s| ==> s[k].lastUsed > cutoff
    ensures StaleCount(s, cutoff) == k
    decreases k
  {
    if k > 0 {
      StaleCountFound(s[1..], cutoff, k - 1);
    }
  }

  /** On a sorted stack those are the stale workers and one more, as far as there are any. */
  lemma PurgeCountWhenSorted(s: seq<Slot>, cutoff: int)
    requires Filled(s) && Sorted(s)
    ensures PurgeCount(s, cutoff) == if StaleCount(s, cutoff) < |s| then StaleCount(s, cutoff) + 1 else |s|
  {
    if s != [] {
      var front := s[..|s| - 1];
      assert forall i :: 0 <= i < |front| ==> front[i] == s[i];
      PurgeCountOfFront(s, cutoff);
      StaleCountSplits(s, cutoff);
      var k := StaleCount(s, cutoff);
      StaleCountFound(front, cutoff, if k < |s| then k else |s| - 1);
    }
  }

  // What a purge takes, and the stack over whole runs.

  /** A purge leaves no stale worker and takes at most one fresh one, the oldest. */
  lemma PurgeTakes(s: seq<Slot>, cutoff: int)
    requires Filled(s) && Sorted(s) && s != []
    ensures var k := PurgeCount(s, cutoff);
      && LeavesNoStale(s, cutoff)
      && (forall i :: 0 <= i < k - 1 ==> s[i].lastUsed <= cutoff)
  {
    StaleCountSplits(s, cutoff);
    PurgeCountWhenSorted(s, cutoff);
  }

  /** Only stale workers go exactly when all of them are stale: otherwise a fresh worker goes too. */
  lemma OnlyStaleGo(s: seq<Slot>, cutoff: int)
    requires Filled(s) && Sorted(s)
    ensures (forall i :: 0 <= i < PurgeCount(s, cutoff) ==> s[i].lastUsed <= cutoff) <==>
            (forall i :: 0 <= i < |s| ==> s[i].lastUsed <= cutoff)
  {
    StaleCountSplits(s, cutoff);
    PurgeCountWhenSorted(s, cutoff);
    var n := StaleCount(s, cutoff);
    if n < |s| {
      assert s[n].lastUsed > cutoff;
    }
  }

  lemma PurgeMeans(s: seq<Slot>, now: int)
    requires Filled(s)
    ensures PurgesAtTenSeconds(s, now, PurgeCount(s, now - EXPIRY_DURATION))
  {
    PurgeTakesStaleAndOneMore(s, now - EXPIRY_DURATION);
    if Sorted(s) && s != [] {
      PurgeTakes(s, now - EXPIRY_DURATION);
    }
  }

  lemma PurgeSplits(s: seq<Slot>, now: int)
    requires Filled(s)
    ensures var k := PurgeCount(s, now - EXPIRY_DURATION);
      s[..k] + s[k..] == s && s[k..] == Step(s, Purge(now)) && (s == [] ==> k == 0) && [] + s == s
  {
    hide Search, PurgeCount;
  }

  predicate LeavesNoStale(s: seq<Slot>, cutoff: int)
    requires Filled(s)
  {
    forall i :: PurgeCount(s, cutoff) <= i < |s| ==> s[i].lastUsed > cutoff
  }

  /** A stamp at or behind the one on top of the stack. */
  predicate OnTop(s: seq<Slot>, stamp: int)
    requires Filled(s)
  {
    s == [] || s[|s| - 1].lastUsed <= stamp
  }

  /**
   * The order of the stamps is exact: an insert leaves all purges clean if and only if its stamp is
   * not before the one on top.
   */
  lemma InsertExact(s: seq<Slot>, id: nat, stamp: int)
    requires Filled(s) && Sorted(s)
    ensures (forall cutoff :: LeavesNoStale(s + [Entry(id, stamp)], cutoff)) <==> OnTop(s, stamp)
  {
    var t := s + [Entry(id, stamp)];
    if OnTop(s, stamp) {
      forall cutoff ensures LeavesNoStale(t, cutoff) {
        PurgeTakes(t, cutoff);
      }
    } else {
      assert t[..|t| - 1] == s;
      PurgeCountOfFront(t, stamp);
      StaleCountSplits(s, stamp);
      assert t[|s|].lastUsed <= stamp;
      assert !LeavesNoStale(t, stamp);
    }
  }

  /** The operations of the pool on the stack. The stamp of a Revert was read before the lock, at any time. */
  datatype Op = Revert(id: nat, stamp: int) | Take | Purge(now: int) | Clear

  function Step(s: seq<Slot>, op: Op): (t: seq<Slot>)
    requires Filled(s)
    ensures Filled(t)
  {
    match op
    case Revert(id, stamp) => s + [Entry(id, stamp)]
    case Take => if s == [] then s else s[..|s| - 1]
    case Purge(now) => s[PurgeCount(s, now - EXPIRY_DURATION)..]
    case Clear => []
  }

  function RunOps(s: seq<Slot>, ops: seq<Op>): (t: seq<Slot>)
    requires Filled(s)
    ensures Filled(t)
    decreases |ops|
  {
    if ops == [] then s else RunOps(Step(s, ops[0]), ops[1..])
  }

  /** No worker is inserted with a stamp before the one on top of the stack. */
  predicate InsertsInOrder(s: seq<Slot>, ops: seq<Op>)
    requires Filled(s)
    decreases |ops|
  {
    ops == [] || ((ops[0].Revert? ==> OnTop(s, ops[0].stamp)) && InsertsInOrder(Step(s, ops[0]), ops[1..]))
  }

  predicate AlwaysSorted(s: seq<Slot>, ops: seq<Op>)
    requires Filled(s)
    decreases |ops|
  {
    Sorted(s) && (ops == [] || AlwaysSorted(Step(s, ops[0]), ops[1..]))
  }

  lemma StepSorted(s: seq<Slot>, op: Op)
    requires Filled(s) && Sorted(s)
    ensures Sorted(Step(s, op)) <==> (op.Revert? ==> OnTop(s, op.stamp))
  {
    if op.Revert? && s != [] {
      var t := Step(s, op);
      assert t[|s| - 1] == s[|s| - 1] && t[|s|] == Entry(op.id, op.stamp);
    }
  }

  /**
   * Over whole runs the stack is always sorted by last use if and only if the inserts come in the
   * order of their stamps.
   */
  lemma {:induction false} SortedExact(s: seq<Slot>, ops: seq<Op>)
    requires Filled(s) && Sorted(s)
    ensures AlwaysSorted(s, ops) <==> InsertsInOrder(s, ops)
    decreases |ops|
  {
    if ops != [] {
      StepSorted(s, ops[0]);
      if Sorted(Step(s, ops[0])) {
        SortedExact(Step(s, ops[0]), ops[1..]);
      } else {
        assert !AlwaysSorted(Step(s, ops[0]), ops[1..]);
      }
    }
  }

  /** Then a purge at the end of a run leaves no stale worker. */
  lemma {:induction false} RunSorted(s: seq<Slot>, ops: seq<Op>)
    requires Filled(s) && Sorted(s) && InsertsInOrder(s, ops)
    ensures Sorted(RunOps(s, ops))
    ensures ops != [] && ops[|ops| - 1].Purge? ==>
      forall i :: 0 <= i < |RunOps(s, ops)| ==> RunOps(s, ops)[i].lastUsed > ops[|ops| - 1].now - EXPIRY_DURATION
    decreases |ops|
  {
    if ops != [] {
      StepSorted(s, ops[0]);
      RunSorted(Step(s, ops[0]), ops[1..]);
      if |ops| == 1 && ops[0].Purge? && s != [] {
        PurgeTakes(s, ops[0].now - EXPIRY_DURATION);
      }
    }
  }

  function ClockOf(op: Op, before: int): int { if op.Revert? then op.stamp else before }

  /** Each stamp is read when its worker is inserted, from a clock that does not step back. */
  predicate StampedAtInsert(ops: seq<Op>, clock: int) {
    ops == [] || (ClockOf(ops[0], clock) >= clock && StampedAtInsert(ops[1..], ClockOf(ops[0], clock)))
  }

  predicate UpTo(s: seq<Slot>, clock: int)
    requires Filled(s)
  {
    forall i :: 0 <= i < |s| ==> s[i].lastUsed <= clock
  }

  /** If nobody came between a stamp and its insert, the inserts would be in order. */
  lemma {:induction false} StampedAtInsertIsInOrder(s: seq<Slot>, ops: seq<Op>, clock: int)
    requires Filled(s) && UpTo(s, clock) && StampedAtInsert(ops, clock)
    ensures InsertsInOrder(s, ops)
    decreases |ops|
  {
    if ops != [] {
      StampedAtInsertIsInOrder(Step(s, ops[0]), ops[1..], ClockOf(ops[0], clock));
    }
  }

  /** Runs that put back as many workers as they take: the stack below them is untouched. */
  predicate Nested(ops: seq<Op>, depth: nat)
    decreases |ops|
  {
    if ops == [] then depth == 0
    else match ops[0]
      case Revert(_, _) => Nested(ops[1..], depth + 1)
      case Take => depth > 0 && Nested(ops[1..], depth - 1)
      case _ => false
  }

  /** Last in, first out: whatever nested run follows an insert, the next detach returns that worker. */
  lemma {:induction false} LastInFirstOut(s: seq<Slot>, above: seq<Slot>, ops: seq<Op>)
    requires Filled(s) && Filled(above) && Nested(ops, |above|)
    ensures RunOps(s + above, ops) == s
    decreases |ops|
  {
    if ops == [] {
      assert s + above == s;
    } else {
      var next := if ops[0].Revert? then above + [Entry(ops[0].id, ops[0].stamp)] else above[..|above| - 1];
      assert Step(s + above, ops[0]) == s + next;
      LastInFirstOut(s, next, ops[1..]);
    }
  }

  /** Two workers inserted against the order of their stamps: the purge takes the fresh one and keeps the stale one. */
  lemma OutOfOrderKeepsStale(now: int)
    ensures var stale := Entry(1, now - EXPIRY_DURATION);
      RunOps([], [Revert(0, now), Revert(1, now - EXPIRY_DURATION), Purge(now)]) == [stale]
  {
    var stale := Entry(1, now - EXPIRY_DURATION);
    var s1 := Step([], Revert(0, now));
    var s2 := Step(s1, Revert(1, now - EXPIRY_DURATION));
    assert s2 == [Entry(0, now), stale];
    assert Step(s2, Purge(now)) == [stale];
    assert RunOps(s2, [Purge(now)]) == [stale];
    assert [Revert(1, now - EXPIRY_DURATION), Purge(now)][1..] == [Purge(now)];
    assert RunOps(s1, [Revert(1, now - EXPIRY_DURATION), Purge(now)]) == [stale];
    assert [Revert(0, now), Revert(1, now - EXPIRY_DURATION), Purge(now)][1..] ==
        [Revert(1, now - EXPIRY_DURATION), Purge(now)];
  }
}
