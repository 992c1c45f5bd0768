/** Runs in which a hash fixes its block's number, and nothing else: replaced hashes may come back, and
    logs may change under a hash. That much keeps the engine from panicking for want of metadata, as
    both evictions go by number. */
module WatcherNumbers {
  import opened Words
  import opened Types
  import opened Listings
  import opened PollSpec
  import opened PollTheory
  import PollRuns
  import E = EngineSpec
  import K = EngineCalls
  import opened Watcher
  import opened WatcherSafety

  /** The number of the block that a hash stands for. */
  type Numbering = map<Hash, nat>

  function NumbersOf(book: Book): Numbering {
    map h | h in book :: book[h].number
  }

  ghost predicate Numbered(numbers: Numbering, b: Block) {
    b.hash in numbers && numbers[b.hash] == b.number
  }

  ghost predicate AllNumbered(numbers: Numbering, blocks: seq<Block>) {
    forall b :: b in blocks ==> Numbered(numbers, b)
  }

  /** In this round the chain shows only blocks that have the numbers their hashes stand for. */
  ghost predicate KeepsNumbers(cfg: WatcherConfig, numbers: Numbering, w: World, round: Round) {
    var o := Poll(cfg.Poller(), w.poller, round.from, round.to, round.answers).1;
    o.Polled? ==> AllNumbered(numbers, o.result.good)
  }

  ghost predicate Plain(cfg: WatcherConfig, numbers: Numbering, w: World, round: Round) {
    1 <= round.from <= round.to < TWO_63 && KeepsNumbers(cfg, numbers, w, round)
  }

  ghost predicate PlainRun(cfg: WatcherConfig, numbers: Numbering, rounds: seq<Round>) {
    forall i :: 0 <= i < |rounds| && RunOf(cfg, rounds[..i]).Going? ==>
      Plain(cfg, numbers, RunOf(cfg, rounds[..i]).world, rounds[i])
  }

  lemma HonestIsPlain(cfg: WatcherConfig, book: Book, rounds: seq<Round>)
    requires HonestRun(cfg, book, rounds)
    ensures PlainRun(cfg, NumbersOf(book), rounds)
  {
    forall i | 0 <= i < |rounds| && RunOf(cfg, rounds[..i]).Going?
      ensures Plain(cfg, NumbersOf(book), RunOf(cfg, rounds[..i]).world, rounds[i])
    {
      assert Honest(cfg, book, RunOf(cfg, rounds[..i]).world, rounds[i]);
      KeepsToBookKeepsNumbers(cfg, book, RunOf(cfg, rounds[..i]).world, rounds[i]);
    }
  }

  lemma KeepsToBookKeepsNumbers(cfg: WatcherConfig, book: Book, w: World, round: Round)
    requires KeepsToBook(cfg, book, w, round)
    ensures KeepsNumbers(cfg, NumbersOf(book), w, round)
  {
    var o := Poll(cfg.Poller(), w.poller, round.from, round.to, round.answers).1;
    if o.Polled? {
      forall g | g in o.result.good ensures Numbered(NumbersOf(book), g) {
        assert Entered(book, g);
      }
    }
  }

  // ----- one engine iteration -----

  /** All stored metadata has the numbers of its hashes. */
  ghost predicate MetasNumbered(numbers: Numbering, e: map<Hash, E.Meta>) {
    forall h :: h in e ==> h in numbers && e[h].number == numbers[h]
  }

  lemma {:induction false} SeeReorgsNumbers(numbers: Numbering, e: map<Hash, E.Meta>, blocks: seq<Block>)
    requires E.SeeReorgs(e, blocks).Pass? && MetasNumbered(numbers, e)
    ensures MetasNumbered(numbers, E.SeeReorgs(e, blocks).metas)
    decreases |blocks|
  {
    if blocks != [] {
      SeeReorgsNumbers(numbers, e, blocks[..|blocks| - 1]);
    }
  }

  lemma HashesMore(front: seq<Block>, last: Block)
    ensures Hashes(front + [last]) == Hashes(front) + {last.hash}
  {
    assert forall b :: b in front + [last] <==> b in front || b == last;
  }

  lemma OneMoreNumbered(numbers: Numbering, e: map<Hash, E.Meta>, blocks: seq<Block>)
    requires blocks != [] && Numbered(numbers, blocks[|blocks| - 1])
    requires MetasNumbered(numbers, E.SeeGoods(e, blocks[..|blocks| - 1]).metas)
    ensures MetasNumbered(numbers, E.SeeGoods(e, blocks).metas)
    ensures E.SeeGoods(e, blocks).metas.Keys ==
      E.SeeGoods(e, blocks[..|blocks| - 1]).metas.Keys + {blocks[|blocks| - 1].hash}
  {
    var q, b := E.SeeGoods(e, blocks[..|blocks| - 1]).metas, blocks[|blocks| - 1];
    var meta := E.MetaOf(q, b);
    assert E.SeeGoods(e, blocks).metas == q[b.hash := meta.(state := E.Next(meta.state, E.SeeBlock))];
  }

  lemma {:induction false} SeeGoodsNumbers(numbers: Numbering, e: map<Hash, E.Meta>, blocks: seq<Block>)
    requires MetasNumbered(numbers, e) && AllNumbered(numbers, blocks)
    ensures E.SeeGoods(e, blocks).metas.Keys == e.Keys + Hashes(blocks)
    ensures MetasNumbered(numbers, E.SeeGoods(e, blocks).metas)
    decreases |blocks|
  {
    if blocks == [] {
      assert Hashes([]) == {};
    } else {
      var front, last := blocks[..|blocks| - 1], blocks[|blocks| - 1];
      assert forall b :: b in blocks <==> b in front || b == last;
      SeeGoodsNumbers(numbers, e, front);
      HashesMore(front, last);
      assert front + [last] == blocks;
      OneMoreNumbered(numbers, e, blocks);
    }
  }

  lemma {:induction false} FinishNumbers(numbers: Numbering, e: map<Hash, E.Meta>, picked: seq<Block>, event: E.Event,
                                         reply: map<Hash, seq<E.Artifact>>)
    requires MetasNumbered(numbers, e)
    ensures MetasNumbered(numbers, E.Finish(e, picked, event, reply))
    decreases |picked|
  {
    if picked != [] {
      FinishNumbers(numbers, e, picked[..|picked| - 1], event, reply);
    }
  }

  lemma ServeReorgsNumbers(numbers: Numbering, e: map<Hash, E.Meta>, reorged: seq<Block>,
                           reply: Option<map<Hash, seq<E.Artifact>>>)
    requires MetasNumbered(numbers, e) && forall b :: b in reorged ==> b.hash in e
    ensures var s := E.ServeReorgs(e, reorged, reply);
      !s.Crashed? && (s.Served? ==> s.metas.Keys == e.Keys && MetasNumbered(numbers, s.metas))
  {
    K.SeeReorgsPasses(e, reorged);
    SeeReorgsNumbers(numbers, e, reorged);
    var p := E.SeeReorgs(e, reorged);
    if reply.Some? {
      FinishNumbers(numbers, p.metas, p.picked, E.HandleReorg, reply.value);
    }
  }

  lemma ServeGoodsNumbers(numbers: Numbering, e: map<Hash, E.Meta>, good: seq<Block>,
                          reply: Option<map<Hash, seq<E.Artifact>>>)
    requires MetasNumbered(numbers, e) && AllNumbered(numbers, good)
    ensures var s := E.ServeGoods(e, good, reply);
      !s.Crashed? && (s.Served? ==> s.metas.Keys == e.Keys + Hashes(good) && MetasNumbered(numbers, s.metas))
  {
    SeeGoodsNumbers(numbers, e, good);
    var p := E.SeeGoods(e, good);
    if reply.Some? {
      FinishNumbers(numbers, p.metas, p.picked, E.Handle, reply.value);
    }
  }

  /** The engine's iteration when every reorged block has metadata: no panic, and metadata for every good
      block besides what was there. */
  lemma ServeNumbers(numbers: Numbering, e: map<Hash, E.Meta>, r: PollerResult, reply: E.Reply)
    requires MetasNumbered(numbers, e) && AllNumbered(numbers, r.good)
    requires forall b :: b in r.reorged ==> b.hash in e
    ensures var s := E.Serve(e, r, reply);
      !s.Crashed? && (s.Served? ==> s.metas.Keys == e.Keys + Hashes(r.good) && MetasNumbered(numbers, s.metas))
  {
    ServeReorgsNumbers(numbers, e, r.reorged, reply.reorged);
    var s := E.ServeReorgs(e, r.reorged, reply.reorged);
    if s.Served? {
      ServeGoodsNumbers(numbers, s.metas, r.good, reply.good);
    }
  }

  // ----- the invariant -----

  /** Every tracked block that the next eviction will spare has metadata. */
  ghost predicate TrackedStored(t: map<nat, Block>, metas: map<Hash, E.Meta>) {
    forall n :: n in t ==> t[n].hash in metas
  }

  ghost predicate Stored(cfg: WatcherConfig, numbers: Numbering, w: World) {
    && w.poller.lastRecorded < TWO_63
    && Keyed(w.poller.tracker)
    && (forall n :: n in w.poller.tracker ==> Numbered(numbers, w.poller.tracker[n]))
    && MetasNumbered(numbers, w.metas)
    && TrackedStored(Spared(cfg, w), w.metas)
  }

  /** The engine keeps the metadata of what the poller spares, as it never evicts further up. */
  lemma SparedStayStored(cfg: WatcherConfig, numbers: Numbering, next: World, metas: map<Hash, E.Meta>, bound: int)
    requires next.metas == E.Cleared(metas, bound) && bound <= EvictionBound(cfg.Poller(), next.poller.lastRecorded)
    requires MetasNumbered(numbers, metas) && TrackedStored(next.poller.tracker, metas) && Keyed(next.poller.tracker)
    requires forall n :: n in next.poller.tracker ==> Numbered(numbers, next.poller.tracker[n])
    ensures TrackedStored(Spared(cfg, next), next.metas)
  {
    var t := Spared(cfg, next);
    forall n | n in t
      ensures t[n].hash in next.metas
    {
      assert t[n] == next.poller.tracker[n] && Numbered(numbers, t[n]);
      assert metas[t[n].hash].number == n;
    }
  }

  lemma ServedStaysStored(cfg: WatcherConfig, numbers: Numbering, w: World, m: map<nat, Fresh>, from: nat, to: nat,
                          metas: map<Hash, E.Meta>)
    requires Sensible(cfg) && 1 <= cfg.maxRetries && 1 <= from <= to < TWO_63
    requires Stored(cfg, numbers, w) && Coherent(cfg.policy, Spared(cfg, w), m, from, to)
    requires var r := Report(m, Spared(cfg, w), from, to);
      AllNumbered(numbers, r.good) && metas.Keys == w.metas.Keys + Hashes(r.good) && MetasNumbered(numbers, metas)
    ensures Stored(cfg, numbers, WorldServed(cfg, w, m, from, to, metas))
  {
    var t := Spared(cfg, w);
    var r, next := Report(m, t, from, to), WorldServed(cfg, w, m, from, to, metas);
    LastGoodOfReport(cfg.policy, t, m, from, to);
    BoundsAligned(cfg, r.lastGood);
    forall n | n in next.poller.tracker
      ensures next.poller.tracker[n].number == n && Numbered(numbers, next.poller.tracker[n])
      ensures next.poller.tracker[n].hash in metas
    {
      SettledOrigin(cfg.policy, t, m, from, to, n);
      var b := next.poller.tracker[n];
      assert b in r.good ==> Numbered(numbers, b) && b.hash in Hashes(r.good);
    }
    SparedStayStored(cfg, numbers, next, metas, E.EngineBound(cfg.Engine(), r.lastGood));
  }

  lemma FailedPollKeepsStored(cfg: WatcherConfig, numbers: Numbering, w: World)
    requires Stored(cfg, numbers, w)
    ensures Stored(cfg, numbers, w.(poller := PollerState(Spared(cfg, w), w.poller.lastRecorded)))
  {
    assert Spared(cfg, w.(poller := PollerState(Spared(cfg, w), w.poller.lastRecorded))) == Spared(cfg, w);
  }

  lemma ReorgedAreStored(cfg: WatcherConfig, numbers: Numbering, w: World, m: map<nat, Fresh>, from: nat, to: nat)
    requires Stored(cfg, numbers, w) && Coherent(cfg.policy, Spared(cfg, w), m, from, to)
    ensures forall b :: b in Report(m, Spared(cfg, w), from, to).reorged ==> b.hash in w.metas
  {
    PollRuns.ReorgedMembers(cfg.policy, Spared(cfg, w), m, from, to);
  }

  /** One round: no panic, and metadata for every tracked block again. */
  lemma RoundKeepsStored(cfg: WatcherConfig, numbers: Numbering, w: World, round: Round)
    requires Sensible(cfg) && 1 <= cfg.maxRetries
    requires Stored(cfg, numbers, w) && Plain(cfg, numbers, w, round)
    ensures !Take(cfg, w, round).Crashed?
    ensures Take(cfg, w, round).Going? ==> Stored(cfg, numbers, Take(cfg, w, round).world)
  {
    match Looked(cfg.policy, Spared(cfg, w), round.from, round.to, round.answers)
    case Err(e) =>
      FailedPollKeepsStored(cfg, numbers, w);
    case Ok(m) =>
      var r := Report(m, Spared(cfg, w), round.from, round.to);
      LookedCoherent(cfg.policy, Spared(cfg, w), round.from, round.to, round.answers);
      PollReports(cfg.Poller(), w.poller, round.from, round.to, round.answers, m);
      TakeServed(cfg, w, round, r);
      ReorgedAreStored(cfg, numbers, w, m, round.from, round.to);
      ServeNumbers(numbers, w.metas, r, round.reply);
      if E.Serve(w.metas, r, round.reply).Served? {
        ServedStaysStored(cfg, numbers, w, m, round.from, round.to, E.Serve(w.metas, r, round.reply).metas);
      }
  }

  /** Over every run in which a hash fixes its number, with at least one go-back retry configured, the
      engine never panics for want of metadata. */
  lemma {:induction false} PlainRunNeverCrashes(cfg: WatcherConfig, numbers: Numbering, rounds: seq<Round>)
    requires Sensible(cfg) && 1 <= cfg.maxRetries && PlainRun(cfg, numbers, rounds)
    ensures !RunOf(cfg, rounds).Crashed?
    ensures RunOf(cfg, rounds).Going? ==> Stored(cfg, numbers, RunOf(cfg, rounds).world)
    decreases |rounds|
  {
    if rounds != [] {
      var front := rounds[..|rounds| - 1];
      assert forall i :: 0 <= i < |front| ==> front[..i] == rounds[..i] && front[i] == rounds[i];
      PlainRunNeverCrashes(cfg, numbers, front);
      if RunOf(cfg, front).Going? {
        RoundKeepsStored(cfg, numbers, RunOf(cfg, front).world, rounds[|rounds| - 1]);
      }
    }
  }
}
