/** The declared paths of moved transactions, and their agreement with the chains that are built. */
module ReorgPaths {
  import opened Types
  import opened ReorgSimSpec
  import opened ReorgSimTheory

  datatype Moved = Moved(from: nat, to: nat)

  /** Move number k out of block `from` names the transaction. */
  predicate MovesAt(event: Event, from: nat, k: nat, tx: Hash) {
    from in event.moved && k < |event.moved[from]| && tx in event.moved[from][k].txs
  }

  /** Every transaction is named by at most one move of the event. */
  ghost predicate AtMostOnce(event: Event) {
    forall f: nat, k: nat, f': nat, k': nat, tx :: MovesAt(event, f, k, tx) && MovesAt(event, f', k', tx) ==> f == f' && k == k'
  }

  /** The moves collected from an event: an entry for each transaction named, told by a move that names it. */
  ghost predicate Tracks(event: Event, track: map<Hash, Moved>) {
    && (forall f: nat, k: nat, tx :: MovesAt(event, f, k, tx) ==> tx in track)
    && (forall tx :: tx in track ==> Told(event, track, tx))
  }

  ghost predicate Told(event: Event, track: map<Hash, Moved>, tx: Hash)
    requires tx in track
  {
    exists f: nat, k: nat :: MovesAt(event, f, k, tx) && track[tx] == Moved(f, event.moved[f][k].newBlock)
  }

  method TrackMove(event: Event, from: nat, k: nat, track0: map<Hash, Moved>) returns (track: map<Hash, Moved>)
    requires from in event.moved && k < |event.moved[from]|
    requires forall tx :: tx in track0 ==> Told(event, track0, tx)
    ensures forall tx :: tx in track ==> Told(event, track, tx)
    ensures forall tx :: tx in track <==> tx in track0 || MovesAt(event, from, k, tx)
  {
    track := track0;
    var move := event.moved[from][k];
    for i := 0 to |move.txs|
      invariant forall tx :: tx in track <==> tx in track0 || tx in move.txs[..i]
      invariant forall tx :: tx in track ==>
        if tx in move.txs[..i] then track[tx] == Moved(from, move.newBlock) else track[tx] == track0[tx]
    {
      track := track[move.txs[i] := Moved(from, move.newBlock)];
    }
    forall tx | tx in track
      ensures Told(event, track, tx)
    {
      if tx in move.txs {
        assert MovesAt(event, from, k, tx);
      } else {
        assert Told(event, track0, tx);
      }
    }
  }

  method TrackEvent(event: Event) returns (track: map<Hash, Moved>)
    ensures Tracks(event, track)
  {
    track := map[];
    var rest := event.moved.Keys;
    while rest != {}
      invariant rest <= event.moved.Keys
      invariant forall tx :: tx in track ==> Told(event, track, tx)
      invariant forall f: nat, k: nat, tx :: f !in rest && MovesAt(event, f, k, tx) ==> tx in track
      decreases rest
    {
      var from :| from in rest;
      for k := 0 to |event.moved[from]|
        invariant forall tx :: tx in track ==> Told(event, track, tx)
        invariant forall f: nat, j: nat, tx :: f !in rest && MovesAt(event, f, j, tx) ==> tx in track
        invariant forall j: nat, tx :: j < k && MovesAt(event, from, j, tx) ==> tx in track
      {
        track := TrackMove(event, from, k, track);
      }
      rest := rest - {from};
    }
  }

  /** The blocks a transaction left, in event order. */
  function ParkOf(tracks: seq<map<Hash, Moved>>, tx: Hash): seq<nat> {
    if tracks == [] then []
    else
      var last := tracks[|tracks| - 1];
      ParkOf(tracks[..|tracks| - 1], tx) + (if tx in last then [last[tx].from] else [])
  }

  /** The block a transaction was moved to last. */
  function DestOf(tracks: seq<map<Hash, Moved>>, tx: Hash): Option<nat> {
    if tracks == [] then None
    else
      var last := tracks[|tracks| - 1];
      if tx in last then Some(last[tx].to) else DestOf(tracks[..|tracks| - 1], tx)
  }

  lemma {:induction false} ParkedIffMoved(tracks: seq<map<Hash, Moved>>, tx: Hash)
    ensures ParkOf(tracks, tx) != [] <==> DestOf(tracks, tx).Some?
    decreases |tracks|
  {
    if tracks != [] {
      ParkedIffMoved(tracks[..|tracks| - 1], tx);
    }
  }

  function ParkIn(park: map<Hash, seq<nat>>, tx: Hash): seq<nat> {
    if tx in park then park[tx] else []
  }

  function DestIn(dest: map<Hash, nat>, tx: Hash): Option<nat> {
    if tx in dest then Some(dest[tx]) else None
  }

  ghost predicate Distinct(hashes: seq<Hash>) {
    forall i, j :: 0 <= i < j < |hashes| ==> hashes[i] != hashes[j]
  }

  /** The list of hashes and the two maps speak of the same transactions. */
  ghost predicate SameKeys(hashes: seq<Hash>, park: map<Hash, seq<nat>>, dest: map<Hash, nat>) {
    forall tx :: (tx in hashes <==> tx in dest) && (tx in park <==> tx in dest)
  }

  method AppendMove(tx: Hash, move: Moved, hashes0: seq<Hash>, park0: map<Hash, seq<nat>>, dest0: map<Hash, nat>)
    returns (hashes: seq<Hash>, park: map<Hash, seq<nat>>, dest: map<Hash, nat>)
    requires Distinct(hashes0) && SameKeys(hashes0, park0, dest0)
    ensures Distinct(hashes) && SameKeys(hashes, park, dest) && hashes0 <= hashes
    ensures forall t :: ParkIn(park, t) == if t == tx then ParkIn(park0, t) + [move.from] else ParkIn(park0, t)
    ensures forall t :: DestIn(dest, t) == if t == tx then Some(move.to) else DestIn(dest0, t)
  {
    hashes := hashes0;
    park := park0[tx := (if tx in park0 then park0[tx] else []) + [move.from]];
    dest := dest0[tx := move.to];
    if tx !in hashes {
      hashes := hashes + [tx];
    }
  }

  /** The paths of `tx` once the entries outside `rest` are appended. */
  ghost predicate Appended(track: map<Hash, Moved>, rest: set<Hash>, park0: map<Hash, seq<nat>>, dest0: map<Hash, nat>,
                           park: map<Hash, seq<nat>>, dest: map<Hash, nat>, tx: Hash)
  {
    if tx in track && tx !in rest then
      ParkIn(park, tx) == ParkIn(park0, tx) + [track[tx].from] && DestIn(dest, tx) == Some(track[tx].to)
    else
      ParkIn(park, tx) == ParkIn(park0, tx) && DestIn(dest, tx) == DestIn(dest0, tx)
  }

  /** One event's entries, visited in any order, appended to the paths. */
  method AppendTrack(track: map<Hash, Moved>, hashes0: seq<Hash>, park0: map<Hash, seq<nat>>, dest0: map<Hash, nat>)
    returns (hashes: seq<Hash>, park: map<Hash, seq<nat>>, dest: map<Hash, nat>)
    requires Distinct(hashes0) && SameKeys(hashes0, park0, dest0)
    ensures Distinct(hashes) && SameKeys(hashes, park, dest) && hashes0 <= hashes
    ensures forall tx :: Appended(track, {}, park0, dest0, park, dest, tx)
  {
    hashes, park, dest := hashes0, park0, dest0;
    var rest := track.Keys;
    while rest != {}
      invariant rest <= track.Keys
      invariant Distinct(hashes) && SameKeys(hashes, park, dest) && hashes0 <= hashes
      invariant forall tx :: Appended(track, rest, park0, dest0, park, dest, tx)
      decreases rest
    {
      var tx :| tx in rest;
      ghost var park1, dest1 := park, dest;
      hashes, park, dest := AppendMove(tx, track[tx], hashes, park, dest);
      forall t
        ensures Appended(track, rest - {tx}, park0, dest0, park, dest, t)
      {
        assert Appended(track, rest, park0, dest0, park1, dest1, t);
      }
      rest := rest - {tx};
    }
  }

  /** The first event that names the transaction, counted from 0. */
  function FirstNaming(tracks: seq<map<Hash, Moved>>, tx: Hash): nat {
    if tracks == [] || tx in tracks[0] then 0 else 1 + FirstNaming(tracks[1..], tx)
  }

  /** Transactions are listed in the order of the events that first name them. */
  ghost predicate ByFirstNaming(hashes: seq<Hash>, tracks: seq<map<Hash, Moved>>) {
    forall i, j :: 0 <= i < j < |hashes| ==> FirstNaming(tracks, hashes[i]) <= FirstNaming(tracks, hashes[j])
  }

  lemma {:induction false} FirstNamingMore(tracks: seq<map<Hash, Moved>>, track: map<Hash, Moved>, tx: Hash)
    ensures FirstNaming(tracks + [track], tx) ==
      if DestOf(tracks, tx).Some? || tx in track then FirstNaming(tracks, tx) else FirstNaming(tracks, tx) + 1
    ensures DestOf(tracks, tx).Some? ==> FirstNaming(tracks, tx) < |tracks|
    ensures DestOf(tracks, tx).None? ==> FirstNaming(tracks, tx) == |tracks|
    decreases |tracks|
  {
    if tracks != [] {
      DestOfRest(tracks, tx);
      FirstNamingMore(tracks[1..], track, tx);
      assert (tracks + [track])[1..] == tracks[1..] + [track];
    }
  }

  lemma {:induction false} DestOfRest(tracks: seq<map<Hash, Moved>>, tx: Hash)
    requires tracks != []
    ensures DestOf(tracks, tx).Some? <==> tx in tracks[0] || DestOf(tracks[1..], tx).Some?
    decreases |tracks|
  {
    if |tracks| > 1 {
      var front := tracks[..|tracks| - 1];
      DestOfRest(front, tx);
      assert tracks[1..][..|tracks| - 2] == front[1..];
    }
  }

  /** The hashes listed before one event come first. */
  lemma OrderKept(hashes0: seq<Hash>, hashes: seq<Hash>, tracks: seq<map<Hash, Moved>>, track: map<Hash, Moved>)
    requires ByFirstNaming(hashes0, tracks) && hashes0 <= hashes && Distinct(hashes)
    requires forall tx :: tx in hashes0 <==> DestOf(tracks, tx).Some?
    requires forall tx :: tx in hashes ==> tx in hashes0 || tx in track
    ensures ByFirstNaming(hashes, tracks + [track])
  {
    forall i, j | 0 <= i < j < |hashes|
      ensures FirstNaming(tracks + [track], hashes[i]) <= FirstNaming(tracks + [track], hashes[j])
    {
      FirstNamingMore(tracks, track, hashes[i]);
      FirstNamingMore(tracks, track, hashes[j]);
      assert j < |hashes0| ==> hashes[i] == hashes0[i] && hashes[j] == hashes0[j];
      if j >= |hashes0| {
        assert hashes[j] !in hashes0;
      }
    }
  }

  lemma ListedOrNamed(track: map<Hash, Moved>, tracks: seq<map<Hash, Moved>>, hashes0: seq<Hash>,
                      park0: map<Hash, seq<nat>>, dest0: map<Hash, nat>, hashes: seq<Hash>, park: map<Hash, seq<nat>>,
                      dest: map<Hash, nat>)
    requires SameKeys(hashes0, park0, dest0) && SameKeys(hashes, park, dest)
    requires forall tx :: Appended(track, {}, park0, dest0, park, dest, tx)
    requires forall tx :: DestIn(dest0, tx) == DestOf(tracks, tx)
    ensures forall tx :: tx in hashes0 <==> DestOf(tracks, tx).Some?
    ensures forall tx :: tx in hashes ==> tx in hashes0 || tx in track
  {
    forall tx
      ensures tx in hashes0 <==> DestOf(tracks, tx).Some?
      ensures tx in hashes ==> tx in hashes0 || tx in track
    {
      assert DestIn(dest0, tx) == DestOf(tracks, tx);
      assert Appended(track, {}, park0, dest0, park, dest, tx);
    }
  }

  method AppendTracks(collected: seq<map<Hash, Moved>>)
    returns (hashes: seq<Hash>, park: map<Hash, seq<nat>>, dest: map<Hash, nat>)
    ensures Distinct(hashes) && SameKeys(hashes, park, dest) && ByFirstNaming(hashes, collected)
    ensures forall tx :: ParkIn(park, tx) == ParkOf(collected, tx)
    ensures forall tx :: DestIn(dest, tx) == DestOf(collected, tx)
  {
    hashes, park, dest := [], map[], map[];
    for i := 0 to |collected|
      invariant Distinct(hashes) && SameKeys(hashes, park, dest) && ByFirstNaming(hashes, collected[..i])
      invariant forall tx :: ParkIn(park, tx) == ParkOf(collected[..i], tx)
      invariant forall tx :: DestIn(dest, tx) == DestOf(collected[..i], tx)
    {
      assert collected[..i + 1][..i] == collected[..i];
      ghost var hashes0, park0, dest0 := hashes, park, dest;
      hashes, park, dest := AppendTrack(collected[i], hashes, park, dest);
      ListedOrNamed(collected[i], collected[..i], hashes0, park0, dest0, hashes, park, dest);
      OrderKept(hashes0, hashes, collected[..i], collected[i]);
      assert collected[..i] + [collected[i]] == collected[..i + 1];
      forall tx
        ensures ParkIn(park, tx) == ParkOf(collected[..i + 1], tx) && DestIn(dest, tx) == DestOf(collected[..i + 1], tx)
      {
        assert Appended(collected[i], {}, park0, dest0, park, dest, tx);
      }
    }
    assert collected[..|collected|] == collected;
  }

  /** For each moved transaction, the blocks it left in event order and the block it ends in. */
  method LogsReorgPaths(events: seq<Event>)
    returns (hashes: seq<Hash>, park: map<Hash, seq<nat>>, dest: map<Hash, nat>, ghost tracks: seq<map<Hash, Moved>>)
    ensures |tracks| == |events| && forall i :: 0 <= i < |events| ==> Tracks(events[i], tracks[i])
    ensures Distinct(hashes) && SameKeys(hashes, park, dest) && ByFirstNaming(hashes, tracks)
    ensures forall tx :: ParkIn(park, tx) == ParkOf(tracks, tx)
    ensures forall tx :: DestIn(dest, tx) == DestOf(tracks, tx)
  {
    var collected: seq<map<Hash, Moved>> := [];
    for i := 0 to |events|
      invariant |collected| == i && forall j :: 0 <= j < i ==> Tracks(events[j], collected[j])
    {
      var track := TrackEvent(events[i]);
      collected := collected + [track];
    }
    hashes, park, dest := AppendTracks(collected);
    tracks := collected;
  }

  // ----- agreement with the chains -----

  /** All logs of the transaction are in block `at`. */
  ghost predicate HoldsAll(c: map<nat, BlockV>, tx: Hash, at: nat) {
    forall n :: n in c && n != at ==> Free(c[n].logs, tx)
  }

  ghost predicate Free(logs: seq<Log>, tx: Hash) {
    forall l :: l in logs ==> l.tx != tx
  }

  lemma MoveOnceHolds(c: map<nat, BlockV>, from: nat, move: Move, tx: Hash, at: nat)
    requires from in c && MoveOnce(c, from, move).Some? && HoldsAll(c, tx, at)
    ensures tx !in move.txs ==> HoldsAll(MoveOnce(c, from, move).value, tx, at)
    ensures tx in move.txs && from == at ==> HoldsAll(MoveOnce(c, from, move).value, tx, move.newBlock)
  {
    var kept, taken := Kept(c[from].logs, move.txs), Taken(c[from].logs, move.txs);
    KeptAreOf(c[from].logs, move.txs);
    var stamped := Stamped(taken, c[move.newBlock]);
    assert Free(c[from].logs, tx) ==> Free(kept, tx);
    assert tx in move.txs ==> Free(kept, tx);
    assert tx !in move.txs || Free(c[from].logs, tx) ==> Free(stamped, tx) by {
      assert forall i :: 0 <= i < |stamped| ==> stamped[i].tx == taken[i].tx && taken[i] in taken;
    }
  }

  lemma {:induction false} MoveAllHolds(c: map<nat, BlockV>, from: nat, moves: seq<Move>, tx: Hash, at: nat)
    requires from in c && MoveAll(c, from, moves).Some? && HoldsAll(c, tx, at)
    requires forall k :: 0 <= k < |moves| ==> tx !in moves[k].txs
    ensures HoldsAll(MoveAll(c, from, moves).value, tx, at)
    decreases |moves|
  {
    if moves != [] {
      MoveAllHolds(c, from, moves[..|moves| - 1], tx, at);
      MoveOnceHolds(MoveAll(c, from, moves[..|moves| - 1]).value, from, moves[|moves| - 1], tx, at);
    }
  }

  lemma {:induction false} MoveAllMoves(c: map<nat, BlockV>, from: nat, moves: seq<Move>, tx: Hash, k: nat)
    requires from in c && MoveAll(c, from, moves).Some? && HoldsAll(c, tx, from)
    requires k < |moves| && forall j :: 0 <= j < |moves| ==> (tx in moves[j].txs <==> j == k)
    ensures HoldsAll(MoveAll(c, from, moves).value, tx, moves[k].newBlock)
    decreases |moves|
  {
    var front, last := moves[..|moves| - 1], moves[|moves| - 1];
    var c' := MoveAll(c, from, front).value;
    if k == |moves| - 1 {
      MoveAllHolds(c, from, front, tx, from);
      MoveOnceHolds(c', from, last, tx, from);
    } else {
      MoveAllMoves(c, from, front, tx, k);
      MoveOnceHolds(c', from, last, tx, moves[k].newBlock);
    }
  }

  ghost predicate Misses(moved: map<nat, seq<Move>>, from: nat, tx: Hash) {
    from in moved ==> forall k :: 0 <= k < |moved[from]| ==> tx !in moved[from][k].txs
  }

  lemma {:induction false} MoveOrderedHolds(c: map<nat, BlockV>, order: seq<nat>, moved: map<nat, seq<Move>>,
                                            tx: Hash, at: nat)
    requires MoveOrdered(c, order, moved).Some? && HoldsAll(c, tx, at)
    requires forall n :: n in order ==> Misses(moved, n, tx)
    ensures HoldsAll(MoveOrdered(c, order, moved).value, tx, at)
    decreases |order|
  {
    if order != [] {
      var front, from := order[..|order| - 1], order[|order| - 1];
      MoveOrderedHolds(c, front, moved, tx, at);
      assert Misses(moved, from, tx);
      MoveAllHolds(MoveOrdered(c, front, moved).value, from, moved[from], tx, at);
    }
  }

  lemma {:induction false} MoveOrderedMoves(c: map<nat, BlockV>, order: seq<nat>, moved: map<nat, seq<Move>>,
                                            tx: Hash, from: nat, k: nat)
    requires MoveOrdered(c, order, moved).Some? && HoldsAll(c, tx, from)
    requires forall i, j :: 0 <= i < j < |order| ==> order[i] != order[j]
    requires from in order && from in moved && k < |moved[from]|
    requires forall j :: 0 <= j < |moved[from]| ==> (tx in moved[from][j].txs <==> j == k)
    requires forall n :: n in order && n != from ==> Misses(moved, n, tx)
    ensures HoldsAll(MoveOrdered(c, order, moved).value, tx, moved[from][k].newBlock)
    decreases |order|
  {
    var front, last := order[..|order| - 1], order[|order| - 1];
    var c' := MoveOrdered(c, front, moved).value;
    if last == from {
      MoveOrderedHolds(c, front, moved, tx, from);
      MoveAllMoves(c', from, moved[from], tx, k);
    } else {
      MoveOrderedMoves(c, front, moved, tx, from, k);
      assert Misses(moved, last, tx);
      MoveAllHolds(c', last, moved[last], tx, moved[from][k].newBlock);
    }
  }

  lemma ForkHolds(seed: nat -> nat, c: map<nat, BlockV>, reorgBlock: nat, index: nat, tx: Hash, at: nat)
    requires HoldsAll(c, tx, at)
    ensures HoldsAll(ForkedChain(seed, c, reorgBlock, index), tx, at)
  {
    var f := ForkedChain(seed, c, reorgBlock, index);
    forall n | n in f && n != at
      ensures Free(f[n].logs, tx)
    {
      assert Free(c[n].logs, tx);
      assert forall i :: 0 <= i < |f[n].logs| ==> f[n].logs[i].tx == c[n].logs[i].tx && c[n].logs[i] in c[n].logs;
    }
  }

  /** One event: a transaction it does not name stays where it is; one it names moves to its target. */
  lemma EventMoves(seed: nat -> nat, c: map<nat, BlockV>, event: Event, index: nat, order: seq<nat>,
                   track: map<Hash, Moved>, tx: Hash, at: nat)
    requires MoveOrdered(ForkedChain(seed, c, event.reorgBlock, index), order, event.moved).Some?
    requires Visits(order, event.moved.Keys) && AtMostOnce(event) && Tracks(event, track)
    requires HoldsAll(c, tx, at) && (tx in track ==> track[tx].from == at)
    ensures HoldsAll(MoveOrdered(ForkedChain(seed, c, event.reorgBlock, index), order, event.moved).value, tx,
                     if tx in track then track[tx].to else at)
  {
    var f := ForkedChain(seed, c, event.reorgBlock, index);
    ForkHolds(seed, c, event.reorgBlock, index, tx, at);
    if tx in track {
      assert Told(event, track, tx);
      var from: nat, k: nat :| MovesAt(event, from, k, tx) && track[tx] == Moved(from, event.moved[from][k].newBlock);
      assert forall j: nat :: j < |event.moved[from]| && tx in event.moved[from][j].txs ==> MovesAt(event, from, j, tx);
      forall n | n in order && n != from
        ensures Misses(event.moved, n, tx)
      {
        assert forall j: nat :: j < |event.moved[n]| && tx in event.moved[n][j].txs ==> MovesAt(event, n, j, tx);
      }
      MoveOrderedMoves(f, order, event.moved, tx, from, k);
    } else {
      forall n | n in order
        ensures Misses(event.moved, n, tx)
      {
        assert forall j: nat :: j < |event.moved[n]| && tx in event.moved[n][j].txs ==> MovesAt(event, n, j, tx);
      }
      MoveOrderedHolds(f, order, event.moved, tx, at);
    }
  }

  /** Event i moves each transaction at most once, and from the block that holds all its logs. */
  ghost predicate HomeAt(seed: nat -> nat, c0: map<nat, BlockV>, events: seq<Event>, orders: seq<seq<nat>>,
                         track: map<Hash, Moved>, i: nat)
    requires i < |events| && i <= |orders|
  {
    && AtMostOnce(events[i])
    && (ChainAfter(seed, c0, events, orders, i).Some? ==>
          forall tx :: tx in track ==> HoldsAll(ChainAfter(seed, c0, events, orders, i).value, tx, track[tx].from))
  }

  ghost predicate MovesFromHome(seed: nat -> nat, c0: map<nat, BlockV>, events: seq<Event>, orders: seq<seq<nat>>,
                                tracks: seq<map<Hash, Moved>>)
    requires |events| == |orders| == |tracks|
  {
    forall i :: 0 <= i < |events| ==> HomeAt(seed, c0, events, orders, tracks[i], i)
  }

  ghost predicate Runs(seed: nat -> nat, c0: map<nat, BlockV>, events: seq<Event>, orders: seq<seq<nat>>,
                       tracks: seq<map<Hash, Moved>>)
  {
    && |events| == |orders| == |tracks|
    && (forall i :: 0 <= i < |events| ==> Visits(orders[i], events[i].moved.Keys) && Tracks(events[i], tracks[i]))
  }

  /** After k events, if they can all be carried out, all logs of the transaction are in block `at`. */
  ghost predicate HeldAfter(seed: nat -> nat, c0: map<nat, BlockV>, events: seq<Event>, orders: seq<seq<nat>>, k: nat,
                            tx: Hash, at: nat)
    requires k <= |events| && k <= |orders|
  {
    ChainAfter(seed, c0, events, orders, k).Some? ==> HoldsAll(ChainAfter(seed, c0, events, orders, k).value, tx, at)
  }

  /** Event i, seen in the chains before and after it. */
  lemma ChainMoves(seed: nat -> nat, c0: map<nat, BlockV>, events: seq<Event>, orders: seq<seq<nat>>,
                   track: map<Hash, Moved>, tx: Hash, i: nat, at: nat)
    requires i < |events| && i < |orders|
    requires AtMostOnce(events[i]) && Visits(orders[i], events[i].moved.Keys) && Tracks(events[i], track)
    requires HeldAfter(seed, c0, events, orders, i, tx, at)
    requires tx in track ==> track[tx].from == at
    ensures HeldAfter(seed, c0, events, orders, i + 1, tx, if tx in track then track[tx].to else at)
  {
    if ChainAfter(seed, c0, events, orders, i + 1).Some? {
      EventMoves(seed, ChainAfter(seed, c0, events, orders, i).value, events[i], i, orders[i], track, tx, at);
    }
  }

  lemma DestStep(tracks: seq<map<Hash, Moved>>, tx: Hash, k: nat)
    requires 0 < k <= |tracks|
    ensures DestOf(tracks[..k], tx) ==
      if tx in tracks[k - 1] then Some(tracks[k - 1][tx].to) else DestOf(tracks[..k - 1], tx)
  {
    assert tracks[..k][..k - 1] == tracks[..k - 1];
  }

  /** The declared paths are the real ones: after k events every transaction moved so far has all its
      logs in the block declared as its destination. */
  lemma {:induction false} DestinationsAgree(seed: nat -> nat, c0: map<nat, BlockV>, events: seq<Event>,
                                             orders: seq<seq<nat>>, tracks: seq<map<Hash, Moved>>, tx: Hash, k: nat)
    requires Runs(seed, c0, events, orders, tracks) && MovesFromHome(seed, c0, events, orders, tracks)
    requires k <= |events| && DestOf(tracks[..k], tx).Some?
    ensures HeldAfter(seed, c0, events, orders, k, tx, DestOf(tracks[..k], tx).value)
    decreases k
  {
    if k > 0 {
      var i := k - 1;
      DestStep(tracks, tx, k);
      assert HomeAt(seed, c0, events, orders, tracks[i], i);
      if tx !in tracks[i] {
        DestinationsAgree(seed, c0, events, orders, tracks, tx, i);
      }
      var at := if tx in tracks[i] then tracks[i][tx].from else DestOf(tracks[..i], tx).value;
      ChainMoves(seed, c0, events, orders, tracks[i], tx, i, at);
    }
  }

  /** The parked blocks are the ones left: the entry that event i adds for a transaction is the block
      that held all its logs before the event, and the event's target holds them afterwards. */
  lemma ParksAgree(seed: nat -> nat, c0: map<nat, BlockV>, events: seq<Event>, orders: seq<seq<nat>>,
                   tracks: seq<map<Hash, Moved>>, tx: Hash, i: nat)
    requires Runs(seed, c0, events, orders, tracks) && MovesFromHome(seed, c0, events, orders, tracks)
    requires i < |events| && tx in tracks[i]
    ensures var left := |ParkOf(tracks[..i], tx)|;
      && left < |ParkOf(tracks, tx)|
      && HeldAfter(seed, c0, events, orders, i, tx, ParkOf(tracks, tx)[left])
      && HeldAfter(seed, c0, events, orders, i + 1, tx, tracks[i][tx].to)
  {
    ParkGrows(tracks, tx, i, |tracks|);
    assert tracks[..|tracks|] == tracks;
    assert HomeAt(seed, c0, events, orders, tracks[i], i);
    ChainMoves(seed, c0, events, orders, tracks[i], tx, i, tracks[i][tx].from);
  }

  lemma {:induction false} ParkGrows(tracks: seq<map<Hash, Moved>>, tx: Hash, i: nat, k: nat)
    requires i < k <= |tracks| && tx in tracks[i]
    ensures var left := |ParkOf(tracks[..i], tx)|;
      left < |ParkOf(tracks[..k], tx)| && ParkOf(tracks[..k], tx)[left] == tracks[i][tx].from
    decreases k
  {
    assert tracks[..k][..k - 1] == tracks[..k - 1];
    if i < k - 1 {
      ParkGrows(tracks, tx, i, k - 1);
    }
  }
}
