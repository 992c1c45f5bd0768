/** The chain builder as it runs: maps from numbers to block objects, several of which share blocks. */
module ReorgSim {
  import opened Types
  import opened ReorgSimSpec

  class Block {
    const blockNumber: nat
    const hash: Hash
    var logs: seq<Log>
    const reorgedHere: bool
    const toBeForked: bool

    constructor (v: BlockV)
      ensures View() == v
    {
      blockNumber, hash, logs, reorgedHere, toBeForked := v.number, v.hash, v.logs, v.reorgedHere, v.toBeForked;
    }

    ghost function View(): BlockV
      reads this
    {
      BlockV(blockNumber, hash, logs, reorgedHere, toBeForked)
    }

    /** A fresh copy under the event's hash; the block itself stays as it is. */
    method Reorg(seed: nat -> nat, index: nat) returns (b: Block)
      ensures fresh(b) && b.View() == ForkedBlock(seed, View(), index)
    {
      var h := ReorgHash(seed, blockNumber, index);
      var copied := logs;
      for i := 0 to |copied|
        invariant |copied| == |logs|
        invariant forall j :: 0 <= j < i ==> copied[j] == logs[j].(hash := h)
        invariant forall j :: i <= j < |copied| ==> copied[j] == logs[j]
      {
        copied := copied[i := copied[i].(hash := h)];
      }
      assert copied == Rehashed(logs, h);
      b := new Block(BlockV(blockNumber, h, copied, reorgedHere, true));
    }

    /** Removes the logs of the given transactions in place; false where the source panics. */
    method RemoveLogs(txs: seq<Hash>) returns (ok: bool)
      modifies this
      ensures ok <==> old(logs) != []
      ensures logs == if ok then Kept(old(logs), txs) else old(logs)
    {
      if |logs| == 0 {
        return false;
      }
      var remaining := [];
      for i := 0 to |logs|
        invariant remaining == Kept(logs[..i], txs) && logs == old(logs)
      {
        assert logs[..i + 1][..i] == logs[..i];
        if logs[i].tx !in txs {
          remaining := remaining + [logs[i]];
        }
      }
      assert logs[..|logs|] == logs;
      logs := remaining;
      ok := true;
    }
  }

  type Chain = map<nat, Block>

  ghost predicate Valid(chain: Chain) {
    forall n :: n in chain ==> chain[n].blockNumber == n
  }

  ghost function Objects(chain: Chain): set<Block> {
    set n | n in chain :: chain[n]
  }

  ghost function View(chain: Chain): map<nat, BlockV>
    reads Objects(chain)
  {
    map n | n in chain :: chain[n].View()
  }

  /** Replaces every block from `reorgBlock` on by its reorged copy, visiting the map in any order. */
  method ReorgChain(seed: nat -> nat, chain0: Chain, reorgBlock: nat, index: nat) returns (chain: Chain)
    requires Valid(chain0)
    ensures Valid(chain) && chain.Keys == chain0.Keys
    ensures View(chain) == ForkedChain(seed, View(chain0), reorgBlock, index)
    ensures forall n :: n in chain && n >= reorgBlock ==> fresh(chain[n])
    ensures forall n :: n in chain && n < reorgBlock ==> n in chain0 && chain[n] == chain0[n]
  {
    chain := chain0;
    var rest := chain0.Keys;
    while rest != {}
      invariant rest <= chain0.Keys && chain.Keys == chain0.Keys
      invariant forall n :: n in chain && (n in rest || n < reorgBlock) ==> chain[n] == chain0[n]
      invariant forall n :: n in chain && n !in rest && n >= reorgBlock ==>
        fresh(chain[n]) && chain[n].View() == ForkedBlock(seed, chain0[n].View(), index)
      decreases rest
    {
      var number :| number in rest;
      rest := rest - {number};
      if number >= reorgBlock {
        var b := chain[number].Reorg(seed, index);
        chain := chain[number := b];
      }
    }
  }

  /** The logs of the given transactions, in block order. */
  method LogsToMove(b: Block, txs: seq<Hash>) returns (moving: seq<Log>)
    ensures moving == Taken(b.logs, txs)
  {
    moving := [];
    for i := 0 to |b.logs|
      invariant moving == Taken(b.logs[..i], txs)
    {
      assert b.logs[..i + 1][..i] == b.logs[..i];
      if b.logs[i].tx in txs {
        moving := moving + [b.logs[i]];
      }
    }
    assert b.logs[..|b.logs|] == b.logs;
  }

  /** The logs under the number and the hash of their new block. */
  method Restamp(moving: seq<Log>, target: Block) returns (stamped: seq<Log>)
    ensures stamped == Stamped(moving, target.View())
  {
    stamped := moving;
    for i := 0 to |stamped|
      invariant |stamped| == |moving|
      invariant forall j :: 0 <= j < i ==> stamped[j] == moving[j].(number := target.blockNumber, hash := target.hash)
      invariant forall j :: i <= j < |stamped| ==> stamped[j] == moving[j]
    {
      stamped := stamped[i := stamped[i].(number := target.blockNumber, hash := target.hash)];
    }
  }

  method AppendLogs(chain: Chain, n: nat, logs: seq<Log>)
    requires Valid(chain) && n in chain
    modifies chain[n]
    ensures View(chain) == Refilled(old(View(chain)), n, old(View(chain))[n].logs + logs)
  {
    chain[n].logs := chain[n].logs + logs;
  }

  /** One move, in place; false where the source panics. */
  method MoveOne(chain: Chain, from: nat, move: Move) returns (ok: bool)
    requires Valid(chain) && from in chain
    modifies chain[from], if move.newBlock in chain then {chain[move.newBlock]} else {}
    ensures ok <==> move.newBlock in chain && old(chain[from].logs) != []
    ensures MoveOnce(old(View(chain)), from, move) == if ok then Some(View(chain)) else None
  {
    ghost var c := View(chain);
    var b := chain[from];
    if move.newBlock !in chain {
      return false;
    }
    var target := chain[move.newBlock];
    var moving := LogsToMove(b, move.txs);
    ok := b.RemoveLogs(move.txs);
    if !ok {
      return;
    }
    ghost var removed := Refilled(c, from, Kept(c[from].logs, move.txs));
    assert View(chain) == removed;
    var stamped := Restamp(moving, target);
    assert stamped == Stamped(moving, c[move.newBlock]);
    assert View(chain) == removed;
    AppendLogs(chain, move.newBlock, stamped);
    assert MoveOnce(c, from, move) == Some(Refilled(removed, move.newBlock, removed[move.newBlock].logs + stamped));
  }

  /** The blocks an event's moves can write to. */
  ghost predicate Touches(moved: map<nat, seq<Move>>, n: nat) {
    n in moved || exists m, k :: m in moved && 0 <= k < |moved[m]| && moved[m][k].newBlock == n
  }

  ghost function Touched(chain: Chain, moved: map<nat, seq<Move>>): set<Block> {
    set n | n in chain && Touches(moved, n) :: chain[n]
  }

  /** Move number k out of block `from`, within the blocks the event may touch. */
  method MoveNth(chain: Chain, from: nat, moved: map<nat, seq<Move>>, k: nat) returns (ok: bool)
    requires Valid(chain) && from in chain && from in moved && k < |moved[from]|
    modifies Touched(chain, moved)
    ensures MoveOnce(old(View(chain)), from, moved[from][k]) == if ok then Some(View(chain)) else None
  {
    assert Touches(moved, from) && Touches(moved, moved[from][k].newBlock);
    ok := MoveOne(chain, from, moved[from][k]);
  }

  ghost predicate AllIn(numbers: seq<nat>, keys: set<nat>) {
    forall i :: 0 <= i < |numbers| ==> numbers[i] in keys
  }

  /** The number added to the list if it is new. */
  function AddUnique(numbers: seq<nat>, n: nat): seq<nat> {
    if n in numbers then numbers else numbers + [n]
  }

  lemma AddUniqueIn(numbers: seq<nat>, n: nat, keys: set<nat>)
    requires AllIn(numbers, keys) && n in keys
    ensures AllIn(AddUnique(numbers, n), keys)
  {
  }

  method MoveFrom(chain: Chain, from: nat, moved: map<nat, seq<Move>>, to0: seq<nat>)
    returns (ok: bool, to: seq<nat>)
    requires Valid(chain) && from in chain && from in moved && AllIn(to0, chain.Keys)
    modifies Touched(chain, moved)
    ensures MoveAll(old(View(chain)), from, moved[from]) == if ok then Some(View(chain)) else None
    ensures AllIn(to, chain.Keys)
  {
    to, ok := to0, true;
    var moves := moved[from];
    ghost var c := View(chain);
    ghost var keys := chain.Keys;
    for k := 0 to |moves|
      invariant ok && MoveAll(c, from, moves[..k]) == Some(View(chain))
      invariant AllIn(to, keys)
    {
      MoveAllStep(c, from, moves, k);
      if moves[k].newBlock in chain {
        AddUniqueIn(to, moves[k].newBlock, keys);
        to := AddUnique(to, moves[k].newBlock);
      }
      ok := MoveNth(chain, from, moved, k);
      if !ok {
        MoveAllFails(c, from, moves, k + 1);
        return;
      }
    }
    assert moves[..|moves|] == moves;
  }

  lemma MoveAllStep(c: map<nat, BlockV>, from: nat, moves: seq<Move>, k: nat)
    requires from in c && k < |moves| && MoveAll(c, from, moves[..k]).Some?
    ensures MoveAll(c, from, moves[..k + 1]) == MoveOnce(MoveAll(c, from, moves[..k]).value, from, moves[k])
  {
    assert moves[..k + 1][..k] == moves[..k];
  }

  lemma {:induction false} MoveAllFails(c: map<nat, BlockV>, from: nat, moves: seq<Move>, k: nat)
    requires from in c && k <= |moves| && MoveAll(c, from, moves[..k]).None?
    ensures MoveAll(c, from, moves).None?
    decreases |moves|
  {
    if k == |moves| {
      assert moves[..k] == moves;
    } else {
      assert moves[..|moves| - 1][..k] == moves[..k];
      MoveAllFails(c, from, moves[..|moves| - 1], k);
    }
  }

  /** The part of a map's keys that was visited so far. */
  ghost predicate Visited(order: seq<nat>, keys: set<nat>, rest: set<nat>) {
    rest <= keys && Visits(order, keys - rest)
  }

  /** All moves of an event, the map visited in any order; `order` tells which. */
  method MoveLogs(chain: Chain, moved: map<nat, seq<Move>>)
    returns (ok: bool, from: seq<nat>, to: seq<nat>, ghost order: seq<nat>)
    requires Valid(chain)
    modifies Touched(chain, moved)
    ensures MoveOrdered(old(View(chain)), order, moved) == if ok then Some(View(chain)) else None
    ensures ok ==> Visits(order, moved.Keys) && from == order
    ensures AllIn(from, chain.Keys) && AllIn(to, chain.Keys)
  {
    from, to, ok := [], [], true;
    ghost var c := View(chain);
    var rest := moved.Keys;
    while rest != {}
      invariant ok && Visited(from, moved.Keys, rest)
      invariant AllIn(from, chain.Keys) && AllIn(to, chain.Keys)
      invariant MoveOrdered(c, from, moved) == Some(View(chain))
      decreases rest
    {
      var n :| n in rest;
      assert (from + [n])[..|from|] == from;
      if n !in chain {
        return false, from, to, from + [n];
      }
      ok, to := MoveFrom(chain, n, moved, to);
      if !ok {
        return false, from, to, from + [n];
      }
      VisitOne(from, moved.Keys, rest, n);
      from := from + [n];
      rest := rest - {n};
    }
    assert moved.Keys - {} == moved.Keys;
    order := from;
  }

  lemma VisitOne(order: seq<nat>, keys: set<nat>, rest: set<nat>, n: nat)
    requires Visited(order, keys, rest) && n in rest
    ensures Visited(order + [n], keys, rest - {n})
  {
    assert n !in order;
  }

  /** One event: a shallow copy of the previous chain, forked in the copy, its logs moved. Blocks below
      the reorg block are still shared, so the previous chain ends up with whatever the moves did to
      those, and with nothing else. */
  method Fork(seed: nat -> nat, prev: Chain, event: Event, index: nat)
    returns (ok: bool, forked: Chain, ghost order: seq<nat>)
    requires Valid(prev)
    modifies set n | n in prev && n < event.reorgBlock && Touches(event.moved, n) :: prev[n]
    ensures ok ==> Valid(forked) && forked.Keys == prev.Keys && Visits(order, event.moved.Keys)
    ensures MoveOrdered(ForkedChain(seed, old(View(prev)), event.reorgBlock, index), order, event.moved)
         == if ok then Some(View(forked)) else None
    ensures ok ==> forall n :: n in prev ==>
      && (if n >= event.reorgBlock then fresh(forked[n]) else forked[n] == prev[n])
      && View(prev)[n] == if n >= event.reorgBlock then old(View(prev))[n] else View(forked)[n]
  {
    forked := ReorgChain(seed, prev, event.reorgBlock, index);
    ghost var v := View(forked);
    assert v == ForkedChain(seed, old(View(prev)), event.reorgBlock, index);
    assert forall n :: n in prev && n >= event.reorgBlock ==> prev[n] !in Touched(forked, event.moved);
    var from, to;
    ok, from, to, order := MoveLogs(forked, event.moved);
    if !ok {
      return;
    }
    for i := 0 to |from|
      modifies {}
    {
      if from[i] !in prev || from[i] !in forked {
        assert false;  // the source panics, or creates the block: the moves have found it in the fork
      }
    }
    for i := 0 to |to|
      modifies {}
    {
      if to[i] !in forked || to[i] !in prev {
        assert false;  // the source panics, or creates the block in the previous chain
      }
    }
  }

  method MapLogsToNumber(logs: seq<Log>) returns (m: map<nat, seq<Log>>)
    ensures MapsByNumber(m, logs)
  {
    m := map[];
    for i := 0 to |logs|
      invariant MapsByNumber(m, logs[..i])
    {
      assert logs[..i + 1][..i] == logs[..i];
      var n := logs[i].number;
      m := m[n := (if n in m then m[n] else []) + [logs[i]]];
    }
    assert logs[..|logs|] == logs;
  }

  /** The chain of the logs as they are, its blocks tagged for the first event. */
  method NewOriginalChain(logs: map<nat, seq<Log>>, reorgBlock: nat) returns (ok: bool, chain: Chain)
    ensures OriginalChain(logs, reorgBlock).Some? <==> ok
    ensures ok ==> Valid(chain) && (forall n :: n in chain ==> fresh(chain[n])) && View(chain) == OriginalChain(logs, reorgBlock).value
  {
    chain := map[];
    var rest := logs.Keys;
    while rest != {}
      invariant rest <= logs.Keys && chain.Keys == logs.Keys - rest
      invariant forall n :: n in chain ==> fresh(chain[n])
      invariant forall n :: n in chain ==> OneHash(logs[n])
      invariant forall n :: n in chain ==> chain[n].View() == OriginalBlock(logs[n], n, reorgBlock)
      decreases rest
    {
      var number :| number in rest;
      rest := rest - {number};
      var toBeForked := if reorgBlock == NO_REORG then false else number >= reorgBlock;
      if !OneHash(logs[number]) {
        return false, chain;
      }
      var b := new Block(BlockV(number, logs[number][0].hash, logs[number], number == reorgBlock, toBeForked));
      chain := chain[number := b];
    }
    ok := true;
  }

  /** A chain depends on the orders of its own events only. */
  lemma {:induction false} OrdersExtend(seed: nat -> nat, c0: map<nat, BlockV>, events: seq<Event>,
                                        orders: seq<seq<nat>>, order: seq<nat>, k: nat)
    requires k <= |events| && k <= |orders|
    ensures ChainAfter(seed, c0, events, orders + [order], k) == ChainAfter(seed, c0, events, orders, k)
  {
    if k > 0 {
      OrdersExtend(seed, c0, events, orders, order, k - 1);
    }
  }

  /** The views are what the first 0, 1, 2, .. events make of the first of them. */
  ghost predicate AreChains(seed: nat -> nat, events: seq<Event>, orders: seq<seq<nat>>, views: seq<map<nat, BlockV>>)
    requires |views| == |orders| + 1 <= |events| + 1
  {
    forall j :: 0 <= j < |views| ==> IsChain(seed, views[0], events, orders, j, views[j])
  }

  lemma AreChainsExtend(seed: nat -> nat, events: seq<Event>, orders: seq<seq<nat>>, order: seq<nat>,
                        views: seq<map<nat, BlockV>>, forked: Option<map<nat, BlockV>>)
    requires |views| == |orders| + 1 <= |events| && AreChains(seed, events, orders, views)
    requires var i := |orders|;
      MoveOrdered(ForkedChain(seed, views[i], events[i].reorgBlock, i), order, events[i].moved) == forked
    ensures ChainAfter(seed, views[0], events, orders + [order], |orders| + 1) == forked
    ensures forked.Some? ==> AreChains(seed, events, orders + [order], views + [forked.value])
  {
    var i := |orders|;
    assert IsChain(seed, views[0], events, orders, i, views[i]);
    forall j | 0 <= j <= i
      ensures IsChain(seed, views[0], events, orders + [order], j, views[j])
    {
      assert IsChain(seed, views[0], events, orders, j, views[j]);
      OrdersExtend(seed, views[0], events, orders, order, j);
    }
    if forked.Some? {
      var more := views + [forked.value];
      forall j | 0 <= j < |more|
        ensures IsChain(seed, more[0], events, orders + [order], j, more[j])
      {
        assert j <= i ==> more[j] == views[j];
      }
    }
  }

  ghost predicate Ordered(events: seq<Event>, orders: seq<seq<nat>>) {
    |orders| <= |events| && forall i :: 0 <= i < |orders| ==> Visits(orders[i], events[i].moved.Keys)
  }

  lemma OrderedMore(events: seq<Event>, orders: seq<seq<nat>>, order: seq<nat>)
    requires Ordered(events, orders) && |orders| < |events| && Visits(order, events[|orders|].moved.Keys)
    ensures Ordered(events, orders + [order])
  {
  }

  ghost predicate Within(chains: seq<Chain>, objects: set<Block>) {
    forall j :: 0 <= j < |chains| ==> Objects(chains[j]) <= objects
  }

  /** The looks of the chains, one by one. */
  ghost predicate Look(chains: seq<Chain>, views: seq<map<nat, BlockV>>, objects: set<Block>)
    requires Within(chains, objects)
    reads objects
  {
    assert forall j :: 0 <= j < |chains| ==> Objects(chains[j]) <= objects;
    |views| == |chains| && forall j :: 0 <= j < |chains| ==> View(chains[j]) == views[j]
  }

  lemma LookMore(chains: seq<Chain>, views: seq<map<nat, BlockV>>, objects: set<Block>, forked: Chain, objects': set<Block>)
    requires Within(chains, objects) && objects <= objects' && Objects(forked) <= objects'
    ensures Within(chains + [forked], objects')
    ensures Look(chains, views, objects) ==> Look(chains + [forked], views + [View(forked)], objects')
  {
    var more := chains + [forked];
    forall j | 0 <= j < |more|
      ensures Objects(more[j]) <= objects'
    {
      if j < |chains| {
        assert Objects(chains[j]) <= objects;
      }
    }
  }

  /** Fork, seen from the loop: when the event is well placed, nothing that existed is written to. */
  method ForkInto(seed: nat -> nat, prev: Chain, event: Event, index: nat, ghost objects0: set<Block>, ghost placed: bool)
    returns (ok: bool, forked: Chain, ghost order: seq<nat>, ghost objects: set<Block>)
    requires Valid(prev) && Objects(prev) <= objects0
    requires placed ==> WellPlaced(event)
    modifies if placed then {} else objects0
    ensures objects0 <= objects && fresh(objects - objects0)
    ensures ok ==> Valid(forked) && Visits(order, event.moved.Keys) && Objects(forked) <= objects
    ensures MoveOrdered(ForkedChain(seed, old(View(prev)), event.reorgBlock, index), order, event.moved)
         == if ok then Some(View(forked)) else None
  {
    assert forall n :: n in prev ==> prev[n] in Objects(prev);
    objects := objects0;
    ok, forked, order := Fork(seed, prev, event, index);
    if ok {
      objects := objects0 + Objects(forked);
    }
  }

  /** Fork, seen from the chains that are there already. */
  method ForkBeside(seed: nat -> nat, prev: Chain, event: Event, index: nat, ghost chains: seq<Chain>,
                    ghost views: seq<map<nat, BlockV>>, ghost objects0: set<Block>, ghost placed: bool)
    returns (ok: bool, forked: Chain, ghost order: seq<nat>, ghost objects: set<Block>)
    requires Valid(prev) && Objects(prev) <= objects0
    requires Within(chains, objects0)
    requires placed ==> WellPlaced(event) && Look(chains, views, objects0)
    modifies if placed then {} else objects0
    ensures objects0 <= objects && fresh(objects - objects0)
    ensures ok ==> Valid(forked) && Visits(order, event.moved.Keys) && Objects(forked) <= objects
    ensures MoveOrdered(ForkedChain(seed, old(View(prev)), event.reorgBlock, index), order, event.moved)
         == if ok then Some(View(forked)) else None
    ensures placed ==> Look(chains, views, objects0)
  {
    ok, forked, order, objects := ForkInto(seed, prev, event, index, objects0, placed);
  }

  /** The original chain and the ones built so far: their looks, and the blocks they are made of. */
  ghost predicate Family(seed: nat -> nat, events: seq<Event>, orders: seq<seq<nat>>, all: seq<Chain>,
                         views: seq<map<nat, BlockV>>, objects: set<Block>, placed: bool)
    reads objects
  {
    && |all| == |views| == |orders| + 1 <= |events| + 1
    && Within(all, objects) && Ordered(events, orders) && AreChains(seed, events, orders, views)
    && var last := all[|orders|];
    && Objects(last) <= objects && Valid(last) && View(last) == views[|orders|]
    && (placed ==> Look(all, views, objects))
  }

  lemma FamilyGrows(seed: nat -> nat, events: seq<Event>, orders: seq<seq<nat>>, all: seq<Chain>,
                    views: seq<map<nat, BlockV>>, objects: set<Block>, placed: bool,
                    order: seq<nat>, forked: Chain, objects': set<Block>)
    requires |all| == |views| == |orders| + 1 <= |events| && Within(all, objects) && (placed ==> Look(all, views, objects))
    requires Ordered(events, orders) && Visits(order, events[|orders|].moved.Keys)
    requires Valid(forked) && objects <= objects' && Objects(forked) <= objects'
    requires AreChains(seed, events, orders + [order], views + [View(forked)])
    ensures Family(seed, events, orders + [order], all + [forked], views + [View(forked)], objects', placed)
  {
    LookMore(all, views, objects, forked, objects');
    OrderedMore(events, orders, order);
    assert (all + [forked])[|orders| + 1] == forked && (views + [View(forked)])[|orders| + 1] == View(forked);
  }

  /** One iteration of the loop over the events. */
  method AddFork(seed: nat -> nat, prev: Chain, events: seq<Event>, i: nat, ghost orders: seq<seq<nat>>,
                 ghost all: seq<Chain>, ghost views: seq<map<nat, BlockV>>, ghost objects0: set<Block>, ghost placed: bool)
    returns (ok: bool, forked: Chain, ghost order: seq<nat>, ghost views': seq<map<nat, BlockV>>, ghost objects: set<Block>)
    requires |orders| == i < |events| && Family(seed, events, orders, all, views, objects0, placed) && prev == all[i]
    requires placed ==> WellPlaced(events[i])
    modifies if placed then {} else objects0
    ensures objects0 <= objects && fresh(objects - objects0) && |views'| > 0 && views'[0] == views[0]
    ensures ok ==> Family(seed, events, orders + [order], all + [forked], views', objects, placed)
    ensures !ok ==> ChainAfter(seed, views[0], events, orders + [order], i + 1).None?
  {
    assert Objects(all[i]) <= objects0;
    views' := views;
    ok, forked, order, objects := ForkBeside(seed, prev, events[i], i, all, views, objects0, placed);
    AreChainsExtend(seed, events, orders, order, views, if ok then Some(View(forked)) else None);
    if ok {
      views' := views + [View(forked)];
      FamilyGrows(seed, events, orders, all, views, objects0, placed, order, forked, objects);
    }
  }

  function FirstReorg(events: seq<Event>): nat {
    if events == [] then NO_REORG else events[0].reorgBlock
  }

  /** The loop over the events. The last chain is what the events make of the first, and so are all of
      them at the end when the events are well placed. */
  method ForkAll(seed: nat -> nat, chain: Chain, events: seq<Event>, ghost c0: map<nat, BlockV>, ghost placed: bool)
    returns (ok: bool, chains: seq<Chain>, ghost orders: seq<seq<nat>>)
    requires Valid(chain) && View(chain) == c0
    requires placed ==> forall i :: 0 <= i < |events| ==> WellPlaced(events[i])
    modifies if placed then {} else Objects(chain)
    ensures |orders| <= |events| && (ok ==> |chains| == |events| == |orders| && Ordered(events, orders))
    ensures !ok ==> ChainAfter(seed, c0, events, orders, |orders|).None?
    ensures ok && events != [] ==> IsChain(seed, c0, events, orders, |events|, View(chains[|events| - 1]))
    ensures ok && placed ==> View(chain) == c0
    ensures ok && placed ==> forall i :: 0 <= i < |events| ==> IsChain(seed, c0, events, orders, i + 1, View(chains[i]))
  {
    ok, chains, orders := true, [], [];
    ghost var views, objects := [c0], Objects(chain);
    assert IsChain(seed, c0, events, [], 0, c0);
    for i := 0 to |events|
      invariant |chains| == |orders| == i && ok && |views| > 0 && views[0] == c0
      invariant Objects(chain) <= objects && fresh(objects - Objects(chain))
      invariant Family(seed, events, orders, [chain] + chains, views, objects, placed)
    {
      var prev := if i == 0 then chain else chains[i - 1];
      var forked;
      ghost var order;
      ok, forked, order, views, objects := AddFork(seed, prev, events, i, orders, [chain] + chains, views, objects, placed);
      orders := orders + [order];
      if !ok {
        return;
      }
      assert ([chain] + chains) + [forked] == [chain] + (chains + [forked]);
      chains := chains + [forked];
    }
    AllBuilt(seed, events, orders, chain, chains, views, objects, placed);
  }

  /** What the loop has established, told of the chains themselves. */
  lemma AllBuilt(seed: nat -> nat, events: seq<Event>, orders: seq<seq<nat>>, chain: Chain, chains: seq<Chain>,
                 views: seq<map<nat, BlockV>>, objects: set<Block>, placed: bool)
    requires |orders| == |chains| == |events| && Family(seed, events, orders, [chain] + chains, views, objects, placed)
    ensures events != [] ==> IsChain(seed, views[0], events, orders, |events|, View(chains[|events| - 1]))
    ensures placed ==> View(chain) == views[0]
    ensures placed ==>
      forall i :: 0 <= i < |events| ==> IsChain(seed, views[0], events, orders, i + 1, View(chains[i]))
  {
    var all := [chain] + chains;
    assert IsChain(seed, views[0], events, orders, |events|, views[|events|]);
    assert events != [] ==> chains[|events| - 1] == all[|events|];
    if placed {
      assert View(all[0]) == views[0];
      forall i | 0 <= i < |events|
        ensures IsChain(seed, views[0], events, orders, i + 1, View(chains[i]))
      {
        assert View(all[i + 1]) == views[i + 1];
      }
    }
  }

  /** Builds the original chain and one chain for each event; it panics exactly when the original chain
      cannot be built or some event's moves cannot be carried out. The last chain is always what the
      events make of the original one. When every event's moves start and land
      at or after its reorg block, all chains are, at the end, what the events make of the original one:
      none was altered after it was built, though they share blocks. */
  method NewBlockChain(seed: nat -> nat, logs: map<nat, seq<Log>>, events: seq<Event>)
    returns (ok: bool, chain: Chain, chains: seq<Chain>, ghost orders: seq<seq<nat>>)
    ensures ok ==> |chains| == |events| == |orders| && (forall n :: n in chain ==> fresh(chain[n]))
    ensures ok ==> forall i :: 0 <= i < |events| ==> Visits(orders[i], events[i].moved.Keys)
    ensures |orders| <= |events|
    ensures ok ==> OriginalChain(logs, FirstReorg(events)).Some?
    ensures ok && events != [] ==>
      IsChain(seed, OriginalChain(logs, FirstReorg(events)).value, events, orders, |events|, View(chains[|events| - 1]))
    ensures !ok && OriginalChain(logs, FirstReorg(events)).Some? ==>
      ChainAfter(seed, OriginalChain(logs, FirstReorg(events)).value, events, orders, |orders|).None?
    ensures ok && (forall i :: 0 <= i < |events| ==> WellPlaced(events[i])) ==>
      && OriginalChain(logs, FirstReorg(events)) == Some(View(chain))
      && forall i :: 0 <= i < |events| ==> IsChain(seed, View(chain), events, orders, i + 1, View(chains[i]))
  {
    chains, orders := [], [];
    ok, chain := NewOriginalChain(logs, FirstReorg(events));
    if !ok {
      return;
    }
    assert forall b :: b in Objects(chain) ==> fresh(b);
    ghost var placed := forall i :: 0 <= i < |events| ==> WellPlaced(events[i]);
    ok, chains, orders := ForkAll(seed, chain, events, View(chain), placed);
  }
}
