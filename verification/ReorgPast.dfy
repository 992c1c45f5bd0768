/** When an event alters a block that it is no business of: below the reorg block the chains share their
    blocks, so what lands there changes the past. */
module ReorgPast {
  import opened Types
  import opened ReorgSimSpec
  import opened ReorgSimTheory
  import opened ReorgPaths

  /** The move lands in block `n` and names a transaction that has a log in the block it moves from. */
  ghost predicate Lands(c: map<nat, BlockV>, from: nat, move: Move, n: nat, tx: Hash) {
    move.newBlock == n && tx in move.txs && from in c && !Free(c[from].logs, tx)
  }

  ghost predicate TakesTo(c: map<nat, BlockV>, from: nat, move: Move, n: nat) {
    exists tx :: Lands(c, from, move, n, tx)
  }

  ghost predicate SomeLands(c: map<nat, BlockV>, from: nat, moves: seq<Move>, n: nat) {
    exists k: nat, tx :: k < |moves| && Lands(c, from, moves[k], n, tx)
  }

  ghost predicate LandsAmong(c: map<nat, BlockV>, order: seq<nat>, moved: map<nat, seq<Move>>, n: nat) {
    exists from :: from in order && from in moved && SomeLands(c, from, moved[from], n)
  }

  /** Some log lands in block `n`. Chain and event tell, before anything is moved. */
  ghost predicate EventLands(c: map<nat, BlockV>, event: Event, n: nat) {
    exists from :: from in event.moved && SomeLands(c, from, event.moved[from], n)
  }

  ghost predicate SamePresence(c: map<nat, BlockV>, c': map<nat, BlockV>, tx: Hash) {
    && c.Keys == c'.Keys
    && forall n :: n in c ==> (Free(c[n].logs, tx) <==> Free(c'[n].logs, tx))
  }

  // ----- a move only concerns the transactions it names -----

  lemma MoveOnceKeepsOthers(c: map<nat, BlockV>, from: nat, move: Move, tx: Hash)
    requires from in c && MoveOnce(c, from, move).Some? && tx !in move.txs
    ensures SamePresence(c, MoveOnce(c, from, move).value, tx)
  {
    var kept, taken := Kept(c[from].logs, move.txs), Taken(c[from].logs, move.txs);
    var removed, target := Refilled(c, from, kept), move.newBlock;
    var stamped := Stamped(taken, c[target]);
    KeptAreOf(c[from].logs, move.txs);
    assert Free(stamped, tx) by {
      assert forall i :: 0 <= i < |stamped| ==> stamped[i].tx == taken[i].tx && taken[i] in taken;
    }
    assert Free(kept, tx) <==> Free(c[from].logs, tx);
    FreeAppend(removed[target].logs, stamped, tx);
  }

  lemma FreeAppend(a: seq<Log>, b: seq<Log>, tx: Hash)
    ensures Free(a + b, tx) <==> Free(a, tx) && Free(b, tx)
  {
    assert forall l :: l in a + b <==> l in a || l in b;
  }

  lemma {:induction false} MoveAllKeepsOthers(c: map<nat, BlockV>, from: nat, moves: seq<Move>, tx: Hash)
    requires from in c && MoveAll(c, from, moves).Some?
    requires forall k :: 0 <= k < |moves| ==> tx !in moves[k].txs
    ensures SamePresence(c, MoveAll(c, from, moves).value, tx)
    decreases |moves|
  {
    if moves != [] {
      var front := moves[..|moves| - 1];
      MoveAllKeepsOthers(c, from, front, tx);
      MoveOnceKeepsOthers(MoveAll(c, from, front).value, from, moves[|moves| - 1], tx);
    }
  }

  lemma {:induction false} MoveOrderedKeepsOthers(c: map<nat, BlockV>, order: seq<nat>, moved: map<nat, seq<Move>>,
                                                 tx: Hash)
    requires MoveOrdered(c, order, moved).Some? && forall n :: n in order ==> Misses(moved, n, tx)
    ensures SamePresence(c, MoveOrdered(c, order, moved).value, tx)
    decreases |order|
  {
    if order != [] {
      var front, from := order[..|order| - 1], order[|order| - 1];
      MoveOrderedKeepsOthers(c, front, moved, tx);
      assert Misses(moved, from, tx);
      MoveAllKeepsOthers(MoveOrdered(c, front, moved).value, from, moved[from], tx);
    }
  }

  // ----- a block that no move starts from only grows -----

  /** Block `n` has only grown, at its end, and it has changed exactly when it is longer. */
  ghost predicate Grown(c: map<nat, BlockV>, c': map<nat, BlockV>, n: nat) {
    n in c && n in c' && c[n].logs <= c'[n].logs && (c'[n] == c[n] <==> |c'[n].logs| == |c[n].logs|)
  }

  lemma MoveOnceGrows(c: map<nat, BlockV>, from: nat, move: Move, n: nat)
    requires from in c && MoveOnce(c, from, move).Some? && n in c && n != from
    ensures Grown(c, MoveOnce(c, from, move).value, n)
    ensures MoveOnce(c, from, move).value[n] == c[n] <==> !TakesTo(c, from, move, n)
  {
    var taken := Taken(c[from].logs, move.txs);
    var after := MoveOnce(c, from, move).value;
    KeptAreOf(c[from].logs, move.txs);
    if move.newBlock != n {
      assert after[n] == c[n];
    } else {
      assert after[n].logs == c[n].logs + Stamped(taken, c[n]);
      if taken == [] {
        assert after[n].logs == c[n].logs;
        forall tx ensures !Lands(c, from, move, n, tx) {
        }
      } else {
        assert taken[0] in taken && !Free(c[from].logs, taken[0].tx);
        assert Lands(c, from, move, n, taken[0].tx);
      }
    }
  }

  lemma Grows(c: map<nat, BlockV>, mid: map<nat, BlockV>, c': map<nat, BlockV>, n: nat)
    requires Grown(c, mid, n) && Grown(mid, c', n)
    ensures Grown(c, c', n) && (c'[n] == c[n] <==> mid[n] == c[n] && c'[n] == mid[n])
  {
  }

  ghost predicate Disjoint(moves: seq<Move>) {
    forall i, j, tx :: 0 <= i < j < |moves| && tx in moves[i].txs ==> tx !in moves[j].txs
  }

  lemma {:induction false} MoveAllLands(c: map<nat, BlockV>, from: nat, moves: seq<Move>, n: nat)
    requires from in c && MoveAll(c, from, moves).Some? && n in c && n != from && Disjoint(moves)
    ensures Grown(c, MoveAll(c, from, moves).value, n)
    ensures MoveAll(c, from, moves).value[n] == c[n] <==> !SomeLands(c, from, moves, n)
    decreases |moves|
  {
    if moves != [] {
      var front, last := moves[..|moves| - 1], moves[|moves| - 1];
      var mid := MoveAll(c, from, front).value;
      MoveAllLands(c, from, front, n);
      MoveOnceGrows(mid, from, last, n);
      Grows(c, mid, MoveAll(c, from, moves).value, n);
      forall tx
        ensures Lands(mid, from, last, n, tx) <==> Lands(c, from, last, n, tx)
      {
        if tx in last.txs {
          assert forall i :: 0 <= i < |front| ==> front[i] == moves[i];
          MoveAllKeepsOthers(c, from, front, tx);
        }
      }
      SomeLandsStep(c, from, moves, n);
    }
  }

  lemma SomeLandsStep(c: map<nat, BlockV>, from: nat, moves: seq<Move>, n: nat)
    requires moves != []
    ensures SomeLands(c, from, moves, n) <==>
      SomeLands(c, from, moves[..|moves| - 1], n) || TakesTo(c, from, moves[|moves| - 1], n)
  {
    var front, last := moves[..|moves| - 1], moves[|moves| - 1];
    if SomeLands(c, from, front, n) {
      var k: nat, tx :| k < |front| && Lands(c, from, front[k], n, tx);
      assert k < |moves| && Lands(c, from, moves[k], n, tx);
    }
    if TakesTo(c, from, last, n) {
      var tx :| Lands(c, from, last, n, tx);
      assert Lands(c, from, moves[|moves| - 1], n, tx);
    }
    if SomeLands(c, from, moves, n) {
      var k: nat, tx :| k < |moves| && Lands(c, from, moves[k], n, tx);
      if k < |front| {
        assert Lands(c, from, front[k], n, tx);
      }
    }
  }

  /** No transaction is named twice within the blocks of the order. */
  ghost predicate NamedOnce(order: seq<nat>, moved: map<nat, seq<Move>>) {
    && (forall i, j :: 0 <= i < j < |order| ==> order[i] != order[j])
    && (forall f :: f in order && f in moved ==> Disjoint(moved[f]))
    && (forall f, f', k, tx ::
          (f in order && f' in order && f != f' && f in moved && 0 <= k < |moved[f]| && tx in moved[f][k].txs) ==>
            Misses(moved, f', tx))
  }

  /** Whatever the order, a block that no move starts from is altered exactly when some log lands in it. */
  lemma {:induction false} MoveOrderedLands(c: map<nat, BlockV>, order: seq<nat>, moved: map<nat, seq<Move>>, n: nat)
    requires MoveOrdered(c, order, moved).Some? && n in c && n !in order && NamedOnce(order, moved)
    ensures Grown(c, MoveOrdered(c, order, moved).value, n)
    ensures MoveOrdered(c, order, moved).value[n] == c[n] <==> !LandsAmong(c, order, moved, n)
    decreases |order|
  {
    if order != [] {
      var front, from := order[..|order| - 1], order[|order| - 1];
      var mid := MoveOrdered(c, front, moved).value;
      assert forall f :: f in order <==> f in front || f == from;
      MoveOrderedLands(c, front, moved, n);
      MoveAllLands(mid, from, moved[from], n);
      Grows(c, mid, MoveOrdered(c, order, moved).value, n);
      SameLandings(c, order, moved, n, mid);
      assert LandsAmong(c, order, moved, n) <==> LandsAmong(c, front, moved, n) || SomeLands(c, from, moved[from], n);
    }
  }

  /** What the last block's moves find is what was there at first. */
  lemma SameLandings(c: map<nat, BlockV>, order: seq<nat>, moved: map<nat, seq<Move>>, n: nat, mid: map<nat, BlockV>)
    requires order != [] && NamedOnce(order, moved) && order[|order| - 1] in moved
    requires MoveOrdered(c, order[..|order| - 1], moved) == Some(mid)
    ensures var from := order[|order| - 1];
      SomeLands(mid, from, moved[from], n) <==> SomeLands(c, from, moved[from], n)
  {
    var front, from := order[..|order| - 1], order[|order| - 1];
    forall k: nat, tx | k < |moved[from]|
      ensures Lands(mid, from, moved[from][k], n, tx) <==> Lands(c, from, moved[from][k], n, tx)
    {
      if tx in moved[from][k].txs {
        assert from in order;
        forall f | f in front ensures Misses(moved, f, tx) {
          var i :| 0 <= i < |front| && front[i] == f;
          assert order[i] == f && f in order;
        }
        MoveOrderedKeepsOthers(c, front, moved, tx);
      }
    }
  }

  // ----- events -----

  lemma OnceIsOnce(event: Event, order: seq<nat>)
    requires AtMostOnce(event) && Visits(order, event.moved.Keys)
    ensures NamedOnce(order, event.moved)
  {
    var moved := event.moved;
    forall f | f in order && f in moved
      ensures Disjoint(moved[f])
    {
      forall i, j, tx | 0 <= i < j < |moved[f]| && tx in moved[f][i].txs
        ensures tx !in moved[f][j].txs
      {
        assert MovesAt(event, f, i, tx);
        assert !MovesAt(event, f, j, tx);
      }
    }
    forall f, f', k, tx | f in order && f' in order && f != f' && f in moved && 0 <= k < |moved[f]|
                          && tx in moved[f][k].txs
      ensures Misses(moved, f', tx)
    {
      assert MovesAt(event, f, k, tx);
      assert forall j: nat :: f' in moved && j < |moved[f']| && tx in moved[f'][j].txs ==> MovesAt(event, f', j, tx);
    }
  }

  lemma ForkKeepsPresence(seed: nat -> nat, c: map<nat, BlockV>, reorgBlock: nat, index: nat, tx: Hash)
    ensures SamePresence(c, ForkedChain(seed, c, reorgBlock, index), tx)
  {
    var f := ForkedChain(seed, c, reorgBlock, index);
    forall n | n in c
      ensures Free(c[n].logs, tx) <==> Free(f[n].logs, tx)
    {
      assert |f[n].logs| == |c[n].logs| && forall i :: 0 <= i < |f[n].logs| ==> f[n].logs[i].tx == c[n].logs[i].tx;
      if !Free(c[n].logs, tx) {
        var i :| 0 <= i < |c[n].logs| && c[n].logs[i].tx == tx;
        assert f[n].logs[i] in f[n].logs;
      }
      if !Free(f[n].logs, tx) {
        var i :| 0 <= i < |f[n].logs| && f[n].logs[i].tx == tx;
        assert c[n].logs[i] in c[n].logs;
      }
    }
  }

  /** What the validation of events checks: no move starts below the reorg block. */
  ghost predicate Validated(event: Event) {
    forall n :: n in event.moved ==> n >= event.reorgBlock
  }

  /** An event that passes validation, and moves each transaction at most once, leaves a block below its
      reorg block as it was exactly when no log lands there, whatever the visiting order. */
  lemma PastUntouchedIff(seed: nat -> nat, c: map<nat, BlockV>, event: Event, index: nat, order: seq<nat>, n: nat)
    requires Validated(event) && AtMostOnce(event) && Visits(order, event.moved.Keys)
    requires n in c && n < event.reorgBlock
    requires MoveOrdered(ForkedChain(seed, c, event.reorgBlock, index), order, event.moved).Some?
    ensures MoveOrdered(ForkedChain(seed, c, event.reorgBlock, index), order, event.moved).value[n] == c[n]
            <==> !EventLands(c, event, n)
  {
    var f := ForkedChain(seed, c, event.reorgBlock, index);
    OnceIsOnce(event, order);
    MoveOrderedLands(f, order, event.moved, n);
    forall from, k: nat, tx | from in event.moved && k < |event.moved[from]|
      ensures Lands(f, from, event.moved[from][k], n, tx) <==> Lands(c, from, event.moved[from][k], n, tx)
    {
      ForkKeepsPresence(seed, c, event.reorgBlock, index, tx);
    }
    forall from | from in event.moved
      ensures SomeLands(f, from, event.moved[from], n) <==> SomeLands(c, from, event.moved[from], n)
    {
      if SomeLands(f, from, event.moved[from], n) {
        var k: nat, tx :| k < |event.moved[from]| && Lands(f, from, event.moved[from][k], n, tx);
        assert Lands(c, from, event.moved[from][k], n, tx);
      }
      if SomeLands(c, from, event.moved[from], n) {
        var k: nat, tx :| k < |event.moved[from]| && Lands(c, from, event.moved[from][k], n, tx);
        assert Lands(f, from, event.moved[from][k], n, tx);
      }
    }
    assert forall from :: from in order <==> from in event.moved;
  }

  /** An event whose logs start at the reorg block but land below it changes a block that the chains
      share: here block 1, which the previous chain then shows changed as well. The validation of
      events looks at where moves start, not at where they land. */
  lemma LandingBelowAltersPast(seed: nat -> nat, tx: Hash, a: Hash, b: Hash)
    ensures
      var c := map[1 := BlockV(1, a, [], false, false), 2 := BlockV(2, b, [Log(2, b, tx, 0)], true, true)];
      var event := Event(2, map[2 := [Move(1, [tx])]]);
      var after := MoveOrdered(ForkedChain(seed, c, 2, 0), [2], event.moved);
      && Validated(event) && AtMostOnce(event) && Visits([2], event.moved.Keys) && EventLands(c, event, 1)
      && after.Some? && after.value[1].logs == [Log(1, a, tx, 0)] != c[1].logs
  {
    var c := map[1 := BlockV(1, a, [], false, false), 2 := BlockV(2, b, [Log(2, b, tx, 0)], true, true)];
    var f := ForkedChain(seed, c, 2, 0);
    var move := Move(1, [tx]);
    var logs := f[2].logs;
    assert |logs| == 1 && logs[..0] == [] && logs[0].tx == tx;
    assert Taken(logs[..0], [tx]) == [] && Taken(logs, [tx]) == [logs[0]];
    assert Stamped([logs[0]], f[1]) == [Log(1, a, tx, 0)];
    assert Kept(logs, [tx]) == Kept(logs[..0], [tx]) == [];
    assert f[1].logs == [];
    assert MoveOnce(f, 2, move).Some? && MoveOnce(f, 2, move).value[1].logs == [Log(1, a, tx, 0)];
    assert [move][..0] == [] && MoveAll(f, 2, [move]) == MoveOnce(f, 2, move);
    assert [2][..0] == [];
    var event := Event(2, map[2 := [move]]);
    assert MoveOrdered(f, [2], event.moved).Some?;
    PastUntouchedIff(seed, c, event, 0, [2], 1);
  }

  lemma OneMove(c: map<nat, BlockV>, from: nat, move: Move)
    requires from in c
    ensures MoveAll(c, from, [move]) == MoveOnce(c, from, move)
  {
    assert [move][..0] == [];
  }

  /** The last block of an order. */
  lemma LastBlock(c: map<nat, BlockV>, order: seq<nat>, from: nat, moved: map<nat, seq<Move>>, mid: map<nat, BlockV>)
    requires MoveOrdered(c, order, moved) == Some(mid) && from in mid && from in moved
    ensures MoveOrdered(c, order + [from], moved) == MoveAll(mid, from, moved[from])
  {
    assert (order + [from])[..|order|] == order;
  }

  lemma TwoBlocks(c: map<nat, BlockV>, first: nat, second: nat, moved: map<nat, seq<Move>>, mid: map<nat, BlockV>)
    requires first in c && first in moved && second in c && second in moved
    requires MoveAll(c, first, moved[first]) == Some(mid)
    ensures MoveOrdered(c, [first, second], moved) == MoveAll(mid, second, moved[second])
  {
    LastBlock(c, [], first, moved, c);
    assert [] + [first] == [first];
    LastBlock(c, [first], second, moved, mid);
    assert [first] + [second] == [first, second];
  }

  /** For an event that moves a transaction twice, the visiting order decides what lands where, so that
      chain and event alone cannot tell: here block 1 is altered in one order and not in the other. */
  lemma OrderDecides(c: map<nat, BlockV>, tx: Hash)
    requires 1 in c && 2 in c && 3 in c && c[3].logs != []
    requires !Free(c[2].logs, tx) && Free(c[3].logs, tx)
    ensures var moved := map[2 := [Move(3, [tx])], 3 := [Move(1, [tx])]];
      && MoveOrdered(c, [2, 3], moved).Some? && MoveOrdered(c, [2, 3], moved).value[1] != c[1]
      && MoveOrdered(c, [3, 2], moved).Some? && MoveOrdered(c, [3, 2], moved).value[1] == c[1]
  {
    var up, down := Move(3, [tx]), Move(1, [tx]);
    var moved := map[2 := [up], 3 := [down]];
    OneMove(c, 2, up);
    OneMove(c, 3, down);
    UpThenDown(c, tx, up, down);
    TwoBlocks(c, 2, 3, moved, MoveOnce(c, 2, up).value);
    OneMove(MoveOnce(c, 2, up).value, 3, down);
    DownThenUp(c, tx, up, down);
    TwoBlocks(c, 3, 2, moved, MoveOnce(c, 3, down).value);
    OneMove(MoveOnce(c, 3, down).value, 2, up);
  }

  lemma UpThenDown(c: map<nat, BlockV>, tx: Hash, up: Move, down: Move)
    requires 1 in c && 2 in c && 3 in c && c[3].logs != [] && up == Move(3, [tx]) && down == Move(1, [tx])
    requires !Free(c[2].logs, tx)
    ensures MoveOnce(c, 2, up).Some? && MoveOnce(MoveOnce(c, 2, up).value, 3, down).Some?
    ensures MoveOnce(MoveOnce(c, 2, up).value, 3, down).value[1] != c[1]
  {
    var mid := MoveOnce(c, 2, up).value;
    var taken := Taken(c[2].logs, up.txs);
    KeptAreOf(c[2].logs, up.txs);
    var l :| l in c[2].logs && l.tx == tx;
    assert l in taken;
    var i :| 0 <= i < |taken| && taken[i] == l;
    assert mid[3].logs == c[3].logs + Stamped(taken, c[3]);
    assert mid[3].logs[|c[3].logs| + i].tx == tx;
    assert !Free(mid[3].logs, tx);
    assert Lands(mid, 3, down, 1, tx);
    MoveOnceGrows(mid, 3, down, 1);
    assert mid[1] == c[1];
  }

  lemma DownThenUp(c: map<nat, BlockV>, tx: Hash, up: Move, down: Move)
    requires 1 in c && 2 in c && 3 in c && c[3].logs != [] && up == Move(3, [tx]) && down == Move(1, [tx])
    requires !Free(c[2].logs, tx) && Free(c[3].logs, tx)
    ensures MoveOnce(c, 3, down).Some? && MoveOnce(MoveOnce(c, 3, down).value, 2, up).Some?
    ensures MoveOnce(MoveOnce(c, 3, down).value, 2, up).value[1] == c[1]
  {
    var mid := MoveOnce(c, 3, down).value;
    MoveOnceGrows(c, 3, down, 1);
    assert mid[2] == c[2];
  }
}
