/** What forking does to a chain: which hash every block has after any number of events, and which marks. */
module ReorgForks {
  import opened Words
  import opened Types
  import opened ReorgSimSpec

  /** The last of the first k events whose reorg block is not above `n`, counted from 1; 0 if there is none. */
  function LastFork(events: seq<Event>, n: nat, k: nat): (i: nat)
    requires k <= |events|
    ensures i <= k && (i > 0 ==> events[i - 1].reorgBlock <= n)
  {
    if k == 0 then 0
    else if events[k - 1].reorgBlock <= n then k
    else LastFork(events, n, k - 1)
  }

  /** It is the last. */
  lemma {:induction false} LastForkIsLast(events: seq<Event>, n: nat, k: nat, j: nat)
    requires j < k <= |events| && events[j].reorgBlock <= n
    ensures j < LastFork(events, n, k)
  {
    if j < k - 1 {
      LastForkIsLast(events, n, k - 1, j);
    }
  }

  // ----- moves touch logs only -----

  /** The blocks are the same but for their logs. */
  ghost predicate SameButLogs(c: map<nat, BlockV>, c': map<nat, BlockV>) {
    c'.Keys == c.Keys && forall n :: n in c ==> c'[n].(logs := []) == c[n].(logs := [])
  }

  lemma {:induction false} MoveAllKeepsBlocks(c: map<nat, BlockV>, from: nat, moves: seq<Move>)
    requires from in c && MoveAll(c, from, moves).Some?
    ensures SameButLogs(c, MoveAll(c, from, moves).value)
    decreases |moves|
  {
    if moves != [] {
      MoveAllKeepsBlocks(c, from, moves[..|moves| - 1]);
    }
  }

  lemma {:induction false} MoveOrderedKeepsBlocks(c: map<nat, BlockV>, order: seq<nat>, moved: map<nat, seq<Move>>)
    requires MoveOrdered(c, order, moved).Some?
    ensures SameButLogs(c, MoveOrdered(c, order, moved).value)
    decreases |order|
  {
    if order != [] {
      var front, from := order[..|order| - 1], order[|order| - 1];
      MoveOrderedKeepsBlocks(c, front, moved);
      MoveAllKeepsBlocks(MoveOrdered(c, front, moved).value, from, moved[from]);
    }
  }

  // ----- hashes -----

  /** Numbers small enough for the hash to be the number plus the event's seed. */
  ghost predicate Small(seed: nat -> nat, n: nat, events: seq<Event>) {
    forall i :: 0 <= i < |events| ==> n + seed(i) < TWO_63
  }

  lemma ReorgHashIs(seed: nat -> nat, n: nat, index: nat)
    requires n + seed(index) < TWO_63
    ensures ReorgHash(seed, n, index) == Hash(n + seed(index))
  {
    AddExact(n, seed(index));
  }

  /** One event, seen by one block: forked or not, with whatever logs the moves leave it. */
  lemma EventForks(seed: nat -> nat, c: map<nat, BlockV>, event: Event, index: nat, order: seq<nat>, n: nat)
    requires MoveOrdered(ForkedChain(seed, c, event.reorgBlock, index), order, event.moved).Some?
    requires n in c && c[n].number == n && n + seed(index) < TWO_63
    ensures var b := MoveOrdered(ForkedChain(seed, c, event.reorgBlock, index), order, event.moved).value[n];
      b.(logs := []) ==
        if n >= event.reorgBlock then BlockV(n, Hash(n + seed(index)), [], c[n].reorgedHere, true) else c[n].(logs := [])
  {
    MoveOrderedKeepsBlocks(ForkedChain(seed, c, event.reorgBlock, index), order, event.moved);
    ReorgHashIs(seed, n, index);
  }

  /** The block after the last of the first k events that forked it, numbered i from 1. */
  ghost predicate ForkedBy(seed: nat -> nat, b0: BlockV, b: BlockV, n: nat, i: nat) {
    && b.number == n
    && b.hash == (if i == 0 then b0.hash else Hash(n + seed(i - 1)))
    && b.reorgedHere == b0.reorgedHere
    && (b.toBeForked <==> b0.toBeForked || i > 0)
  }

  lemma ChainStep(seed: nat -> nat, c0: map<nat, BlockV>, events: seq<Event>, orders: seq<seq<nat>>, k: nat)
    requires k < |events| && k < |orders| && ChainAfter(seed, c0, events, orders, k + 1).Some?
    ensures ChainAfter(seed, c0, events, orders, k).Some?
    ensures MoveOrdered(ForkedChain(seed, ChainAfter(seed, c0, events, orders, k).value, events[k].reorgBlock, k),
                        orders[k], events[k].moved) == ChainAfter(seed, c0, events, orders, k + 1)
  {
  }

  lemma ForkStep(seed: nat -> nat, b0: BlockV, c: map<nat, BlockV>, c': map<nat, BlockV>, event: Event, index: nat,
                 order: seq<nat>, n: nat, i: nat)
    requires MoveOrdered(ForkedChain(seed, c, event.reorgBlock, index), order, event.moved) == Some(c')
    requires n in c && n + seed(index) < TWO_63 && ForkedBy(seed, b0, c[n], n, i)
    ensures n in c' && ForkedBy(seed, b0, c'[n], n, if event.reorgBlock <= n then index + 1 else i)
  {
    EventForks(seed, c, event, index, order, n);
    assert c'[n].number == c'[n].(logs := []).number && c'[n].hash == c'[n].(logs := []).hash;
    assert c'[n].reorgedHere == c'[n].(logs := []).reorgedHere && c'[n].toBeForked == c'[n].(logs := []).toBeForked;
  }

  /** After k events a block has the hash of the last event at or below it, which is its number plus that
      event's seed, whatever hash it had before; and if there is none, the hash it had at first. */
  lemma {:induction false} HashAfter(seed: nat -> nat, c0: map<nat, BlockV>, events: seq<Event>, orders: seq<seq<nat>>,
                                     k: nat, n: nat)
    requires k <= |events| && k <= |orders| && ChainAfter(seed, c0, events, orders, k).Some? && n in c0
    requires Small(seed, n, events) && c0[n].number == n
    ensures ForkedBy(seed, c0[n], ChainAfter(seed, c0, events, orders, k).value[n], n, LastFork(events, n, k))
    decreases k
  {
    if k > 0 {
      var last: nat := k - 1;
      ChainStep(seed, c0, events, orders, last);
      HashAfter(seed, c0, events, orders, last, n);
      var c, c' := ChainAfter(seed, c0, events, orders, last).value, ChainAfter(seed, c0, events, orders, k).value;
      ForkStep(seed, c0[n], c, c', events[last], last, orders[last], n, LastFork(events, n, last));
    }
  }

  /** Two chains of one simulator, the same block: it has the same hash in both exactly when no event with
      another seed came at or below it in between; and two blocks that were forked by the same event, or by
      events with the same seed, never have the same hash. */
  lemma HashesTellForks(seed: nat -> nat, c0: map<nat, BlockV>, events: seq<Event>, orders: seq<seq<nat>>,
                        k: nat, n: nat, k': nat, n': nat)
    requires k <= |events| && k <= |orders| && ChainAfter(seed, c0, events, orders, k).Some? && n in c0
    requires k' <= |events| && k' <= |orders| && ChainAfter(seed, c0, events, orders, k').Some? && n' in c0
    requires Small(seed, n, events) && Small(seed, n', events) && c0[n].number == n && c0[n'].number == n'
    requires LastFork(events, n, k) > 0 && LastFork(events, n', k') > 0
    ensures var b, b' := ChainAfter(seed, c0, events, orders, k).value[n], ChainAfter(seed, c0, events, orders, k').value[n'];
      var i, i' := LastFork(events, n, k) - 1, LastFork(events, n', k') - 1;
      && (n == n' ==> (b.hash == b'.hash <==> seed(i) == seed(i')))
      && (seed(i) == seed(i') ==> (b.hash == b'.hash <==> n == n'))
  {
    HashAfter(seed, c0, events, orders, k, n);
    HashAfter(seed, c0, events, orders, k', n');
  }

  // ----- the original chain's marks -----

  /** The original chain is marked for its first event, and each block has the hash and the logs given. */
  lemma OriginalMarks(logs: map<nat, seq<Log>>, reorgBlock: nat, n: nat)
    requires OriginalChain(logs, reorgBlock).Some? && n in logs
    ensures n in OriginalChain(logs, reorgBlock).value
    ensures var b := OriginalChain(logs, reorgBlock).value[n];
      && b.number == n && b.logs == logs[n] && logs[n] != [] && (forall l :: l in logs[n] ==> l.hash == b.hash)
      && (b.reorgedHere <==> n == reorgBlock)
      && (b.toBeForked <==> reorgBlock != 0 && n >= reorgBlock)
  {
    assert OneHash(logs[n]);
  }

  /** It is there exactly when every block has logs, and only of one hash. */
  lemma OriginalIffOneHash(logs: map<nat, seq<Log>>, reorgBlock: nat)
    ensures OriginalChain(logs, reorgBlock).Some? <==>
      forall n :: n in logs ==> logs[n] != [] && forall l, l' :: l in logs[n] && l' in logs[n] ==> l.hash == l'.hash
  {
    forall n | n in logs
      ensures OneHash(logs[n]) <==>
        logs[n] != [] && forall l, l' :: l in logs[n] && l' in logs[n] ==> l.hash == l'.hash
    {
      if logs[n] != [] && forall l, l' :: l in logs[n] && l' in logs[n] ==> l.hash == l'.hash {
        assert forall i :: 0 <= i < |logs[n]| ==> logs[n][i] in logs[n] && logs[n][0] in logs[n];
      }
    }
  }
}
