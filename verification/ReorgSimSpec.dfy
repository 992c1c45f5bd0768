/** The simulator's chains as values: forking, moving logs, and chains built from a list of events. */
module ReorgSimSpec {
  import opened Words
  import opened Types

  datatype BlockV = BlockV(number: nat, hash: Hash, logs: seq<Log>, reorgedHere: bool, toBeForked: bool)

  datatype Move = Move(newBlock: nat, txs: seq<Hash>)

  datatype Event = Event(reorgBlock: nat, moved: map<nat, seq<Move>>)

  /** The reorged hash of a block: a pseudo-random number for the event, drawn from `seed`, is added to
      the block number and taken as a signed 64-bit number, of which the hash keeps the magnitude. */
  function ReorgHash(seed: nat -> nat, n: nat, index: nat): Hash {
    var i := Score(Add(n, seed(index)));
    Hash(if i < 0 then -i else i)
  }

  function Rehashed(logs: seq<Log>, h: Hash): seq<Log> {
    seq(|logs|, i requires 0 <= i < |logs| => logs[i].(hash := h))
  }

  function ForkedBlock(seed: nat -> nat, b: BlockV, index: nat): BlockV {
    var h := ReorgHash(seed, b.number, index);
    BlockV(b.number, h, Rehashed(b.logs, h), b.reorgedHere, true)
  }

  function ForkedChain(seed: nat -> nat, c: map<nat, BlockV>, reorgBlock: nat, index: nat): map<nat, BlockV> {
    map n | n in c :: if n >= reorgBlock then ForkedBlock(seed, c[n], index) else c[n]
  }

  function Taken(logs: seq<Log>, txs: seq<Hash>): seq<Log> {
    if logs == [] then []
    else
      var last := logs[|logs| - 1];
      Taken(logs[..|logs| - 1], txs) + (if last.tx in txs then [last] else [])
  }

  function Kept(logs: seq<Log>, txs: seq<Hash>): seq<Log> {
    if logs == [] then []
    else
      var last := logs[|logs| - 1];
      Kept(logs[..|logs| - 1], txs) + (if last.tx in txs then [] else [last])
  }

  function Stamped(logs: seq<Log>, target: BlockV): seq<Log> {
    seq(|logs|, i requires 0 <= i < |logs| => logs[i].(number := target.number, hash := target.hash))
  }

  function Refilled(c: map<nat, BlockV>, n: nat, logs: seq<Log>): map<nat, BlockV>
    requires n in c
  {
    c[n := c[n].(logs := logs)]
  }

  /** One move out of block `from`. None where the source panics: the target does not exist, or the
      block it moves from has no logs left. */
  function MoveOnce(c: map<nat, BlockV>, from: nat, move: Move): (r: Option<map<nat, BlockV>>)
    requires from in c
    ensures r.Some? ==> r.value.Keys == c.Keys
  {
    if move.newBlock !in c || c[from].logs == [] then None
    else
      var removed := Refilled(c, from, Kept(c[from].logs, move.txs));
      Some(Refilled(removed, move.newBlock,
                    removed[move.newBlock].logs + Stamped(Taken(c[from].logs, move.txs), c[move.newBlock])))
  }

  function MoveAll(c: map<nat, BlockV>, from: nat, moves: seq<Move>): (r: Option<map<nat, BlockV>>)
    requires from in c
    ensures r.Some? ==> r.value.Keys == c.Keys
  {
    if moves == [] then Some(c)
    else
      match MoveAll(c, from, moves[..|moves| - 1])
      case None => None
      case Some(c') => MoveOnce(c', from, moves[|moves| - 1])
  }

  /** All moves of an event, the blocks taken in the given order. */
  function MoveOrdered(c: map<nat, BlockV>, order: seq<nat>, moved: map<nat, seq<Move>>): (r: Option<map<nat, BlockV>>)
    ensures r.Some? ==> r.value.Keys == c.Keys
  {
    if order == [] then Some(c)
    else
      var from := order[|order| - 1];
      match MoveOrdered(c, order[..|order| - 1], moved)
      case None => None
      case Some(c') => if from !in c' || from !in moved then None else MoveAll(c', from, moved[from])
  }

  /** An order in which a map's iteration may visit its keys. */
  ghost predicate Visits(order: seq<nat>, keys: set<nat>) {
    && (forall i, j :: 0 <= i < j < |order| ==> order[i] != order[j])
    && (forall n :: n in order <==> n in keys)
  }

  /** The logs of block `n`, in order. */
  function Numbered(logs: seq<Log>, n: nat): seq<Log> {
    if logs == [] then []
    else
      var last := logs[|logs| - 1];
      Numbered(logs[..|logs| - 1], n) + (if last.number == n then [last] else [])
  }

  /** `m` maps the numbers of the logs to their logs, and no other number. */
  ghost predicate MapsByNumber(m: map<nat, seq<Log>>, logs: seq<Log>) {
    && (forall n: nat :: n in m <==> Numbered(logs, n) != [])
    && (forall n :: n in m ==> m[n] == Numbered(logs, n))
  }

  const NO_REORG: nat := 0

  /** The original chain; None where the source panics: a block without logs, or with logs of two hashes. */
  function OriginalChain(logs: map<nat, seq<Log>>, reorgBlock: nat): Option<map<nat, BlockV>> {
    if forall n :: n in logs ==> OneHash(logs[n]) then
      Some(map n | n in logs && logs[n] != [] :: OriginalBlock(logs[n], n, reorgBlock))
    else None
  }

  function OriginalBlock(logs: seq<Log>, n: nat, reorgBlock: nat): BlockV
    requires logs != []
  {
    BlockV(n, logs[0].hash, logs, n == reorgBlock, reorgBlock != NO_REORG && n >= reorgBlock)
  }

  predicate OneHash(logs: seq<Log>) {
    logs != [] && forall i :: 0 <= i < |logs| ==> logs[i].hash == logs[0].hash
  }

  /** The chain after the first k events, whose maps were visited in the given orders. */
  function ChainAfter(seed: nat -> nat, c0: map<nat, BlockV>, events: seq<Event>, orders: seq<seq<nat>>, k: nat)
    : (r: Option<map<nat, BlockV>>)
    requires k <= |events| && k <= |orders|
    ensures r.Some? ==> r.value.Keys == c0.Keys
  {
    if k == 0 then Some(c0)
    else
      match ChainAfter(seed, c0, events, orders, k - 1)
      case None => None
      case Some(c) =>
        MoveOrdered(ForkedChain(seed, c, events[k - 1].reorgBlock, k - 1), orders[k - 1], events[k - 1].moved)
  }

  /** `view` is what the first k events make of the original chain. */
  ghost predicate IsChain(seed: nat -> nat, c0: map<nat, BlockV>, events: seq<Event>, orders: seq<seq<nat>>, k: nat,
                          view: map<nat, BlockV>)
    requires k <= |events| && k <= |orders|
  {
    ChainAfter(seed, c0, events, orders, k) == Some(view)
  }

  /** All moves of the event start and land at or after its reorg block. */
  ghost predicate WellPlaced(event: Event) {
    && (forall n :: n in event.moved ==> n >= event.reorgBlock)
    && (forall n, k :: n in event.moved && 0 <= k < |event.moved[n]| ==> event.moved[n][k].newBlock >= event.reorgBlock)
  }
}
