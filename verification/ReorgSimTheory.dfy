/** What the simulator's chains keep: their keys, their logs up to number and hash, the stamp of each
    log, and the whereabouts of moved transactions. */
module ReorgSimTheory {
  import opened Types
  import opened Selections
  import opened ReorgSimSpec

  // ----- logs are conserved -----

  /** What is left of a log without the number and the hash of its block. */
  datatype Core = Core(tx: Hash, data: int)

  function CoreOf(l: Log): Core {
    Core(l.tx, l.data)
  }

  /** How often a core occurs among the logs. */
  function Count(logs: seq<Log>, core: Core): nat {
    if logs == [] then 0
    else Count(logs[..|logs| - 1], core) + (if CoreOf(logs[|logs| - 1]) == core then 1 else 0)
  }

  /** How often it occurs in the blocks below `hi`. Chains with the same total for every core hold
      the same multiset of logs up to number and hash. */
  function Total(c: map<nat, BlockV>, core: Core, hi: nat): nat {
    if hi == 0 then 0
    else Total(c, core, hi - 1) + (if hi - 1 in c then Count(c[hi - 1].logs, core) else 0)
  }

  lemma {:induction false} CountAppend(a: seq<Log>, b: seq<Log>, core: Core)
    ensures Count(a + b, core) == Count(a, core) + Count(b, core)
    decreases |b|
  {
    if b == [] {
      assert a + b == a;
    } else {
      var front := b[..|b| - 1];
      CountAppend(a, front, core);
      assert (a + b)[..|a + b| - 1] == a + front;
    }
  }

  lemma CountOne(l: Log, core: Core)
    ensures Count([l], core) == if CoreOf(l) == core then 1 else 0
  {
    assert [l][..0] == [];
  }

  lemma {:induction false} CountSplit(logs: seq<Log>, txs: seq<Hash>, core: Core)
    ensures Count(logs, core) == Count(Kept(logs, txs), core) + Count(Taken(logs, txs), core)
    decreases |logs|
  {
    if logs != [] {
      var front, last := logs[..|logs| - 1], logs[|logs| - 1];
      CountSplit(front, txs, core);
      CountOne(last, core);
      CountAppend(Kept(front, txs), if last.tx in txs then [] else [last], core);
      CountAppend(Taken(front, txs), if last.tx in txs then [last] else [], core);
    }
  }

  /** Logs that agree in transaction and data count alike. */
  lemma {:induction false} CountAgree(a: seq<Log>, b: seq<Log>, core: Core)
    requires |a| == |b| && forall i :: 0 <= i < |a| ==> CoreOf(a[i]) == CoreOf(b[i])
    ensures Count(a, core) == Count(b, core)
    decreases |a|
  {
    if a != [] {
      CountAgree(a[..|a| - 1], b[..|b| - 1], core);
    }
  }

  lemma {:induction false} TotalRefilled(c: map<nat, BlockV>, n: nat, logs: seq<Log>, core: Core, hi: nat)
    requires n in c
    ensures Total(Refilled(c, n, logs), core, hi) ==
      if n < hi then Total(c, core, hi) - Count(c[n].logs, core) + Count(logs, core) else Total(c, core, hi)
    decreases hi
  {
    if hi > 0 {
      TotalRefilled(c, n, logs, core, hi - 1);
    }
  }

  lemma MoveOnceConserves(c: map<nat, BlockV>, from: nat, move: Move, core: Core, hi: nat)
    requires from in c && MoveOnce(c, from, move).Some?
    requires from < hi && move.newBlock < hi
    ensures Total(MoveOnce(c, from, move).value, core, hi) == Total(c, core, hi)
  {
    var kept, taken := Kept(c[from].logs, move.txs), Taken(c[from].logs, move.txs);
    var removed := Refilled(c, from, kept);
    var stamped := Stamped(taken, c[move.newBlock]);
    TotalRefilled(c, from, kept, core, hi);
    TotalRefilled(removed, move.newBlock, removed[move.newBlock].logs + stamped, core, hi);
    CountSplit(c[from].logs, move.txs, core);
    CountAppend(removed[move.newBlock].logs, stamped, core);
    CountAgree(stamped, taken, core);
  }

  ghost predicate Below(c: map<nat, BlockV>, hi: nat) {
    forall n :: n in c ==> n < hi
  }

  lemma {:induction false} MoveAllConserves(c: map<nat, BlockV>, from: nat, moves: seq<Move>, core: Core, hi: nat)
    requires from in c && MoveAll(c, from, moves).Some? && Below(c, hi)
    ensures Total(MoveAll(c, from, moves).value, core, hi) == Total(c, core, hi)
    decreases |moves|
  {
    if moves != [] {
      MoveAllConserves(c, from, moves[..|moves| - 1], core, hi);
      MoveOnceConserves(MoveAll(c, from, moves[..|moves| - 1]).value, from, moves[|moves| - 1], core, hi);
    }
  }

  lemma {:induction false} MoveOrderedConserves(c: map<nat, BlockV>, order: seq<nat>, moved: map<nat, seq<Move>>,
                                               core: Core, hi: nat)
    requires MoveOrdered(c, order, moved).Some? && Below(c, hi)
    ensures Total(MoveOrdered(c, order, moved).value, core, hi) == Total(c, core, hi)
    decreases |order|
  {
    if order != [] {
      MoveOrderedConserves(c, order[..|order| - 1], moved, core, hi);
      var c' := MoveOrdered(c, order[..|order| - 1], moved).value;
      MoveAllConserves(c', order[|order| - 1], moved[order[|order| - 1]], core, hi);
    }
  }

  lemma {:induction false} ForkConserves(seed: nat -> nat, c: map<nat, BlockV>, reorgBlock: nat, index: nat,
                                        core: Core, hi: nat)
    ensures Total(ForkedChain(seed, c, reorgBlock, index), core, hi) == Total(c, core, hi)
    decreases hi
  {
    if hi > 0 {
      ForkConserves(seed, c, reorgBlock, index, core, hi - 1);
      if hi - 1 in c {
        CountAgree(c[hi - 1].logs, ForkedChain(seed, c, reorgBlock, index)[hi - 1].logs, core);
      }
    }
  }

  // ----- logs carry the stamp of their block -----

  ghost predicate CarriesStamp(b: BlockV, l: Log) {
    l.number == b.number && l.hash == b.hash
  }

  ghost predicate BlockStamped(b: BlockV) {
    forall i :: 0 <= i < |b.logs| ==> CarriesStamp(b, b.logs[i])
  }

  ghost predicate ChainStamped(c: map<nat, BlockV>) {
    forall n :: n in c ==> c[n].number == n && BlockStamped(c[n])
  }

  lemma {:induction false} KeptAreOf(logs: seq<Log>, txs: seq<Hash>)
    ensures forall l :: l in Kept(logs, txs) <==> l in logs && l.tx !in txs
    ensures forall l :: l in Taken(logs, txs) <==> l in logs && l.tx in txs
    decreases |logs|
  {
    if logs != [] {
      KeptAreOf(logs[..|logs| - 1], txs);
      assert forall l :: l in logs <==> l in logs[..|logs| - 1] || l == logs[|logs| - 1];
    }
  }

  /** The logs at the indices are all those, and only those, of which `of` holds. */
  ghost predicate AllOf(indices: seq<nat>, logs: seq<Log>, of: Log -> bool) {
    forall i :: 0 <= i < |logs| ==> (i in indices <==> of(logs[i]))
  }

  ghost predicate PartOf(logs: seq<Log>, part: seq<Log>, of: Log -> bool) {
    exists indices: seq<nat> :: Chosen(indices, logs, part) && AllOf(indices, logs, of)
  }

  lemma AllOfMore(indices: seq<nat>, logs: seq<Log>, of: Log -> bool, l: Log)
    requires AllOf(indices, logs, of) && |logs| !in indices
    ensures AllOf(if of(l) then indices + [|logs|] else indices, logs + [l], of)
  {
    var all, indices' := logs + [l], if of(l) then indices + [|logs|] else indices;
    forall i | 0 <= i < |all|
      ensures i in indices' <==> of(all[i])
    {
      if i < |logs| {
        assert all[i] == logs[i] && (i in indices' <==> i in indices);
      }
    }
  }

  lemma PartMore(logs: seq<Log>, part: seq<Log>, of: Log -> bool, l: Log)
    requires PartOf(logs, part, of)
    ensures PartOf(logs + [l], if of(l) then part + [l] else part, of)
  {
    var indices: seq<nat> :| Chosen(indices, logs, part) && AllOf(indices, logs, of);
    ChosenMore(indices, logs, part, l);
    AllOfMore(indices, logs, of, l);
  }

  function Stays(txs: seq<Hash>): Log -> bool {
    (l: Log) => l.tx !in txs
  }

  function Goes(txs: seq<Hash>): Log -> bool {
    (l: Log) => l.tx in txs
  }

  /** A block keeps the logs of other transactions, and gives away the named ones, in their order. */
  lemma {:induction false} SplitsInOrder(logs: seq<Log>, txs: seq<Hash>)
    ensures PartOf(logs, Kept(logs, txs), Stays(txs)) && PartOf(logs, Taken(logs, txs), Goes(txs))
    decreases |logs|
  {
    if logs == [] {
      var none: seq<nat> := [];
      assert Chosen(none, logs, logs) && AllOf(none, logs, Stays(txs)) && AllOf(none, logs, Goes(txs));
    } else {
      var front, last := logs[..|logs| - 1], logs[|logs| - 1];
      assert front + [last] == logs;
      SplitsInOrder(front, txs);
      PartMore(front, Kept(front, txs), Stays(txs), last);
      PartMore(front, Taken(front, txs), Goes(txs), last);
      assert Kept(front, txs) + [] == Kept(front, txs) && Taken(front, txs) + [] == Taken(front, txs);
    }
  }

  lemma MoveOnceStamps(c: map<nat, BlockV>, from: nat, move: Move)
    requires from in c && MoveOnce(c, from, move).Some? && ChainStamped(c)
    ensures ChainStamped(MoveOnce(c, from, move).value)
  {
    KeptAreOf(c[from].logs, move.txs);
    var kept := Kept(c[from].logs, move.txs);
    forall i | 0 <= i < |kept| ensures CarriesStamp(c[from], kept[i]) {
      assert kept[i] in c[from].logs;
    }
  }

  lemma {:induction false} MoveAllStamps(c: map<nat, BlockV>, from: nat, moves: seq<Move>)
    requires from in c && MoveAll(c, from, moves).Some? && ChainStamped(c)
    ensures ChainStamped(MoveAll(c, from, moves).value)
    decreases |moves|
  {
    if moves != [] {
      MoveAllStamps(c, from, moves[..|moves| - 1]);
      MoveOnceStamps(MoveAll(c, from, moves[..|moves| - 1]).value, from, moves[|moves| - 1]);
    }
  }

  lemma {:induction false} MoveOrderedStamps(c: map<nat, BlockV>, order: seq<nat>, moved: map<nat, seq<Move>>)
    requires MoveOrdered(c, order, moved).Some? && ChainStamped(c)
    ensures ChainStamped(MoveOrdered(c, order, moved).value)
    decreases |order|
  {
    if order != [] {
      MoveOrderedStamps(c, order[..|order| - 1], moved);
      MoveAllStamps(MoveOrdered(c, order[..|order| - 1], moved).value, order[|order| - 1], moved[order[|order| - 1]]);
    }
  }

  lemma ForkStamps(seed: nat -> nat, c: map<nat, BlockV>, reorgBlock: nat, index: nat)
    requires ChainStamped(c)
    ensures ChainStamped(ForkedChain(seed, c, reorgBlock, index))
  {
    forall n | n in c
      ensures BlockStamped(ForkedChain(seed, c, reorgBlock, index)[n])
    {
      assert BlockStamped(c[n]);
      forall i | 0 <= i < |c[n].logs| ensures CarriesStamp(c[n], c[n].logs[i]) {
      }
    }
  }

  /** Every chain built has the original chain's blocks, conserves its logs up to number and hash, and
      stamps each log with its own block, in whatever order the maps were visited. */
  lemma {:induction false} ChainsConserve(seed: nat -> nat, c0: map<nat, BlockV>, events: seq<Event>,
                                          orders: seq<seq<nat>>, k: nat, core: Core, hi: nat)
    requires k <= |events| && k <= |orders| && ChainAfter(seed, c0, events, orders, k).Some?
    requires ChainStamped(c0) && Below(c0, hi)
    ensures var c := ChainAfter(seed, c0, events, orders, k).value;
      c.Keys == c0.Keys && Total(c, core, hi) == Total(c0, core, hi) && ChainStamped(c)
    decreases k
  {
    if k > 0 {
      ChainsConserve(seed, c0, events, orders, k - 1, core, hi);
      var c, event := ChainAfter(seed, c0, events, orders, k - 1).value, events[k - 1];
      var f := ForkedChain(seed, c, event.reorgBlock, k - 1);
      ForkConserves(seed, c, event.reorgBlock, k - 1, core, hi);
      ForkStamps(seed, c, event.reorgBlock, k - 1);
      MoveOrderedConserves(f, orders[k - 1], event.moved, core, hi);
      MoveOrderedStamps(f, orders[k - 1], event.moved);
    }
  }

  /** The original chain is stamped when the logs were mapped by their own block numbers. */
  lemma OriginalStamped(logs: map<nat, seq<Log>>, reorgBlock: nat)
    requires OriginalChain(logs, reorgBlock).Some?
    ensures ChainStamped(OriginalChain(logs, reorgBlock).value) <==>
      forall n, i :: n in logs && 0 <= i < |logs[n]| ==> logs[n][i].number == n
  {
    var c := OriginalChain(logs, reorgBlock).value;
    assert c.Keys == logs.Keys;
    forall n | n in logs
      ensures BlockStamped(c[n]) <==> forall i :: 0 <= i < |logs[n]| ==> logs[n][i].number == n
    {
      assert OneHash(logs[n]);
      assert forall i :: 0 <= i < |logs[n]| ==> (CarriesStamp(c[n], c[n].logs[i]) <==> logs[n][i].number == n);
    }
  }

  /** The logs of the blocks below `hi`, in order. */
  function Under(logs: seq<Log>, hi: nat): seq<Log> {
    if logs == [] then []
    else
      var last := logs[|logs| - 1];
      Under(logs[..|logs| - 1], hi) + (if last.number < hi then [last] else [])
  }

  lemma {:induction false} UnderNext(logs: seq<Log>, n: nat, core: Core)
    ensures Count(Under(logs, n + 1), core) == Count(Under(logs, n), core) + Count(Numbered(logs, n), core)
    decreases |logs|
  {
    if logs != [] {
      var front, last := logs[..|logs| - 1], logs[|logs| - 1];
      UnderNext(front, n, core);
      CountAppend(Under(front, n + 1), if last.number < n + 1 then [last] else [], core);
      CountAppend(Under(front, n), if last.number < n then [last] else [], core);
      CountAppend(Numbered(front, n), if last.number == n then [last] else [], core);
    }
  }

  ghost predicate AllUnder(logs: seq<Log>, hi: nat) {
    forall i :: 0 <= i < |logs| ==> logs[i].number < hi
  }

  lemma {:induction false} UnderAll(logs: seq<Log>, hi: nat)
    requires AllUnder(logs, hi)
    ensures Under(logs, hi) == logs
    decreases |logs|
  {
    if logs != [] {
      var front, last := logs[..|logs| - 1], logs[|logs| - 1];
      assert AllUnder(front, hi) && last.number < hi;
      UnderAll(front, hi);
      calc {
        Under(logs, hi);
        Under(front, hi) + [last];
        front + [last];
        logs;
      }
    }
  }

  lemma {:induction false} NumberedAre(logs: seq<Log>, n: nat)
    ensures forall l :: l in Numbered(logs, n) <==> l in logs && l.number == n
    decreases |logs|
  {
    if logs != [] {
      NumberedAre(logs[..|logs| - 1], n);
      assert forall l :: l in logs <==> l in logs[..|logs| - 1] || l == logs[|logs| - 1];
    }
  }

  ghost predicate HoldsNumbered(c: map<nat, BlockV>, logs: seq<Log>, n: nat) {
    (n in c <==> Numbered(logs, n) != []) && (n in c ==> c[n].logs == Numbered(logs, n))
  }

  lemma {:induction false} TotalMapped(c: map<nat, BlockV>, logs: seq<Log>, core: Core, hi: nat)
    requires forall n: nat :: HoldsNumbered(c, logs, n)
    ensures Total(c, core, hi) == Count(Under(logs, hi), core)
    decreases hi
  {
    if hi == 0 {
      UnderNone(logs);
    } else {
      TotalMapped(c, logs, core, hi - 1);
      UnderNext(logs, hi - 1, core);
      assert HoldsNumbered(c, logs, hi - 1);
    }
  }

  lemma {:induction false} UnderNone(logs: seq<Log>)
    ensures Under(logs, 0) == []
    decreases |logs|
  {
    if logs != [] {
      UnderNone(logs[..|logs| - 1]);
    }
  }

  /** From a list of logs to the chains: mapped by number, built, forked and moved, every chain holds
      the logs of the list, as a multiset up to number and hash, each stamped with its block. */
  lemma ChainsHoldTheLogs(seed: nat -> nat, logs: seq<Log>, m: map<nat, seq<Log>>, reorgBlock: nat,
                          events: seq<Event>, orders: seq<seq<nat>>, k: nat, core: Core, hi: nat)
    requires MapsByNumber(m, logs) && OriginalChain(m, reorgBlock).Some? && k <= |events| && k <= |orders|
    requires ChainAfter(seed, OriginalChain(m, reorgBlock).value, events, orders, k).Some?
    requires forall l :: l in logs ==> l.number < hi
    ensures var c := ChainAfter(seed, OriginalChain(m, reorgBlock).value, events, orders, k).value;
      Total(c, core, hi) == Count(logs, core) && ChainStamped(c)
  {
    var c0 := OriginalChain(m, reorgBlock).value;
    forall n | n in m
      ensures n < hi && forall i :: 0 <= i < |m[n]| ==> m[n][i].number == n
    {
      NumberedAre(logs, n);
      assert m[n][0] in logs && m[n][0].number == n;
    }
    OriginalStamped(m, reorgBlock);
    forall n: nat ensures HoldsNumbered(c0, logs, n) {
    }
    TotalMapped(c0, logs, core, hi);
    assert AllUnder(logs, hi) by {
      assert forall i :: 0 <= i < |logs| ==> logs[i] in logs;
    }
    UnderAll(logs, hi);
    ChainsConserve(seed, c0, events, orders, k, core, hi);
  }

  // ----- blocks below the reorg block -----

  lemma {:induction false} MoveAllStaysAbove(c: map<nat, BlockV>, from: nat, moves: seq<Move>, lo: nat, n: nat)
    requires from in c && MoveAll(c, from, moves).Some? && n in c && n < lo <= from
    requires forall k :: 0 <= k < |moves| ==> moves[k].newBlock >= lo
    ensures MoveAll(c, from, moves).value[n] == c[n]
    decreases |moves|
  {
    if moves != [] {
      MoveAllStaysAbove(c, from, moves[..|moves| - 1], lo, n);
    }
  }

  lemma {:induction false} MoveOrderedStaysAbove(c: map<nat, BlockV>, order: seq<nat>, event: Event, n: nat)
    requires WellPlaced(event) && MoveOrdered(c, order, event.moved).Some? && n in c && n < event.reorgBlock
    ensures MoveOrdered(c, order, event.moved).value[n] == c[n]
    decreases |order|
  {
    if order != [] {
      var front, from := order[..|order| - 1], order[|order| - 1];
      MoveOrderedStaysAbove(c, front, event, n);
      MoveAllStaysAbove(MoveOrdered(c, front, event.moved).value, from, event.moved[from], event.reorgBlock, n);
    }
  }

  /** A well-placed event leaves every block below its reorg block exactly as it was. */
  lemma PastUntouched(seed: nat -> nat, c: map<nat, BlockV>, event: Event, index: nat, order: seq<nat>, n: nat)
    requires WellPlaced(event) && n in c && n < event.reorgBlock
    requires MoveOrdered(ForkedChain(seed, c, event.reorgBlock, index), order, event.moved).Some?
    ensures MoveOrdered(ForkedChain(seed, c, event.reorgBlock, index), order, event.moved).value[n] == c[n]
  {
    MoveOrderedStaysAbove(ForkedChain(seed, c, event.reorgBlock, index), order, event, n);
  }
}
