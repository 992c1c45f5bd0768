/** Poller and engine composed: a poll, then the engine's iteration over its result. */
module Watcher {
  import opened Words
  import opened Types
  import opened Listings
  import opened PollSpec
  import E = EngineSpec
  import T = EngineTheory
  import K = EngineCalls

  datatype WatcherConfig = WatcherConfig(filterRange: nat, maxRetries: nat, policy: Policy) {
    function Poller(): Config {
      Config(filterRange, policy)
    }

    function Engine(): E.EngineConfig {
      E.EngineConfig(filterRange, maxRetries)
    }
  }

  /** Both components, the block the engine saved last, and the hashes that were reported as reorged so
      far. */
  datatype World = World(poller: PollerState, metas: map<Hash, E.Meta>, saved: Option<nat>, retired: set<Hash>)

  datatype Round = Round(from: nat, to: nat, answers: Answers, reply: E.Reply)

  /** The program goes on, or has stopped on an error or on the emitter's nil-result panic, or the
      engine has panicked for want of metadata. */
  datatype Progress = Going(world: World) | Halted | Crashed

  const EMPTY := World(PollerState(map[], 0), map[], None, {})

  function Hashes(blocks: seq<Block>): set<Hash> {
    set b | b in blocks :: b.hash
  }

  function Take(cfg: WatcherConfig, w: World, round: Round): Progress {
    var (p, o) := Poll(cfg.Poller(), w.poller, round.from, round.to, round.answers);
    match o
    case Failed(e) => if e == HashesDiffer then Halted else Going(w.(poller := p))
    case Polled(result, _) =>
      match E.EngineStep(cfg.Engine(), w.metas, result, round.reply)
      case Crash => Crashed
      case Stop(_) => Halted
      case Done(metas, _, saved) => Going(World(p, metas, Some(saved), w.retired + Hashes(result.reorged)))
  }

  function RunOf(cfg: WatcherConfig, rounds: seq<Round>): Progress {
    if rounds == [] then Going(EMPTY)
    else
      match RunOf(cfg, rounds[..|rounds| - 1])
      case Going(w) => Take(cfg, w, rounds[|rounds| - 1])
      case other => other
  }

  /** A round whose poll has the result `r`. */
  lemma TakeServed(cfg: WatcherConfig, w: World, round: Round, r: PollerResult)
    requires var o := Poll(cfg.Poller(), w.poller, round.from, round.to, round.answers).1; o.Polled? && o.result == r
    ensures var s := E.EngineStep(cfg.Engine(), w.metas, r, round.reply);
      && (s.Crash? ==> Take(cfg, w, round).Crashed?)
      && (s.Done? ==>
            Take(cfg, w, round) == Going(World(Poll(cfg.Poller(), w.poller, round.from, round.to, round.answers).0,
                                               s.metas, Some(s.saved), w.retired + Hashes(r.reorged))))
  {
  }

  /** What each hash stands for. */
  datatype Content = Content(number: nat, logs: seq<Log>)

  type Book = map<Hash, Content>

  function NumberOf(book: Book, h: Hash): nat {
    if h in book then book[h].number else 0
  }

  ghost predicate Entered(book: Book, b: Block) {
    b.hash in book && book[b.hash] == Content(b.number, b.logs)
  }

  /** The chain keeps its side in this round: the blocks it shows have the number and the logs their
      hashes stand for, and no hash that was replaced comes back. */
  ghost predicate KeepsToBook(cfg: WatcherConfig, book: Book, w: World, round: Round) {
    var o := Poll(cfg.Poller(), w.poller, round.from, round.to, round.answers).1;
    o.Polled? ==> forall g :: g in o.result.good ==> Entered(book, g) && g.hash !in w.retired
  }

  ghost predicate Honest(cfg: WatcherConfig, book: Book, w: World, round: Round) {
    1 <= round.from <= round.to < TWO_63 && KeepsToBook(cfg, book, w, round)
  }

  ghost predicate HonestRun(cfg: WatcherConfig, book: Book, rounds: seq<Round>) {
    forall i :: 0 <= i < |rounds| && RunOf(cfg, rounds[..i]).Going? ==>
      Honest(cfg, book, RunOf(cfg, rounds[..i]).world, rounds[i])
  }

  ghost predicate Sensible(cfg: WatcherConfig) {
    1 <= cfg.filterRange && cfg.filterRange * cfg.maxRetries < TWO_63 && cfg.filterRange < TWO_63
  }

  // ----- the invariant -----

  ghost predicate MetaSound(book: Book, w: World, h: Hash) {
    h in w.metas ==>
      && h in book && w.metas[h].number == NumberOf(book, h)
      && (w.metas[h].state == E.Handled || (w.metas[h].state == E.HandledReorg && h in w.retired))
  }

  ghost predicate HandledIn(metas: map<Hash, E.Meta>, h: Hash) {
    h in metas && metas[h].state == E.Handled
  }

  /** Every tracked block that the next eviction will spare is Handled. */
  ghost predicate TrackedHandled(t: map<nat, Block>, metas: map<Hash, E.Meta>) {
    forall n :: n in t ==> HandledIn(metas, t[n].hash)
  }

  function Spared(cfg: WatcherConfig, w: World): map<nat, Block> {
    Evicted(w.poller.tracker, EvictionBound(cfg.Poller(), w.poller.lastRecorded))
  }

  ghost predicate Sound(cfg: WatcherConfig, book: Book, w: World) {
    && w.poller.lastRecorded < TWO_63
    && Keyed(w.poller.tracker)
    && (forall n :: n in w.poller.tracker ==>
          Entered(book, w.poller.tracker[n]) && w.poller.tracker[n].hash !in w.retired)
    && (forall h :: h in w.metas ==> MetaSound(book, w, h))
    && TrackedHandled(Spared(cfg, w), w.metas)
  }

  // ----- one engine iteration over distinct hashes -----

  lemma {:induction false} SeeReorgsOnce(e: map<Hash, E.Meta>, blocks: seq<Block>, h: Hash)
    requires E.SeeReorgs(e, blocks).Pass? && HandledIn(e, h) && T.Occurs(h, blocks) <= 1
    ensures E.SeeReorgs(e, blocks).metas[h] ==
      if T.Occurs(h, blocks) == 1 then e[h].(state := E.Reorged) else e[h]
    decreases |blocks|
  {
    if blocks != [] {
      SeeReorgsOnce(e, blocks[..|blocks| - 1], h);
    }
  }

  /** A handled block that is reported as reorged once ends HandledReorg. */
  lemma ReorgedEnds(e: map<Hash, E.Meta>, reorged: seq<Block>, reply: Option<map<Hash, seq<E.Artifact>>>, h: Hash)
    requires E.ServeReorgs(e, reorged, reply).Served?
    requires HandledIn(e, h) && T.Occurs(h, reorged) <= 1
    ensures var e' := E.ServeReorgs(e, reorged, reply).metas;
      && h in e' && e'[h].number == e[h].number
      && e'[h].state == if T.Occurs(h, reorged) == 1 then E.HandledReorg else E.Handled
  {
    SeeReorgsOnce(e, reorged, h);
    T.SeeReorgsAt(e, reorged, h);
    var p := E.SeeReorgs(e, reorged);
    T.ReorgTouchesCount(h, p.picked, p.artifacts);
    T.ServeReorgsMeta(e, reorged, reply, h);
  }

  ghost predicate ListedAs(blocks: seq<Block>, h: Hash, number: nat) {
    exists b :: b in blocks && b.hash == h && b.number == number
  }

  lemma {:induction false} SeeGoodsOnce(e: map<Hash, E.Meta>, blocks: seq<Block>, h: Hash)
    requires h !in e && T.Occurs(h, blocks) == 1
    ensures h in E.SeeGoods(e, blocks).metas && E.SeeGoods(e, blocks).metas[h].state == E.Seen
    ensures ListedAs(blocks, h, E.SeeGoods(e, blocks).metas[h].number)
    decreases |blocks|
  {
    var front, last := blocks[..|blocks| - 1], blocks[|blocks| - 1];
    assert forall b :: b in front || b == last ==> b in blocks;
    T.SeeGoodsAt(e, front, h);
    if last.hash != h {
      SeeGoodsOnce(e, front, h);
    }
  }

  /** A new hash listed once as good ends Handled, under the number it was listed with. */
  lemma NewGoodEnds(e: map<Hash, E.Meta>, good: seq<Block>, reply: Option<map<Hash, seq<E.Artifact>>>, h: Hash)
    requires E.ServeGoods(e, good, reply).Served?
    requires h !in e && T.Occurs(h, good) == 1
    ensures HandledIn(E.ServeGoods(e, good, reply).metas, h)
    ensures ListedAs(good, h, E.ServeGoods(e, good, reply).metas[h].number)
  {
    SeeGoodsOnce(e, good, h);
    T.SeeGoodsAt(e, good, h);
    T.ServeGoodsMeta(e, good, reply, h);
  }

  ghost predicate DistinctHashes(blocks: seq<Block>) {
    forall i, j :: 0 <= i < j < |blocks| ==> blocks[i].hash != blocks[j].hash
  }

  lemma {:induction false} OccursOnce(blocks: seq<Block>, h: Hash)
    requires DistinctHashes(blocks)
    ensures T.Occurs(h, blocks) == if h in Hashes(blocks) then 1 else 0
    decreases |blocks|
  {
    if blocks != [] {
      var front, last := blocks[..|blocks| - 1], blocks[|blocks| - 1];
      OccursOnce(front, h);
      assert forall b :: b in blocks <==> b in front || b == last;
      if last.hash == h {
        assert last in blocks;
        assert h !in Hashes(front);
      } else {
        assert h in Hashes(blocks) <==> h in Hashes(front);
      }
    }
  }

  lemma EnteredDistinct(book: Book, blocks: seq<Block>)
    requires Ascending(blocks) && forall b :: b in blocks ==> Entered(book, b)
    ensures DistinctHashes(blocks)
  {
    forall i, j | 0 <= i < j < |blocks|
      ensures blocks[i].hash != blocks[j].hash
    {
      assert Entered(book, blocks[i]) && Entered(book, blocks[j]);
    }
  }

  /** The engine's iteration when every reorged block is Handled and no good block was ever retired:
      no panic; the reorged end HandledReorg, the good Handled, everything else stays. */
  ghost predicate CleanInput(e: map<Hash, E.Meta>, retired: set<Hash>, r: PollerResult) {
    && DistinctHashes(r.reorged) && DistinctHashes(r.good)
    && (forall b :: b in r.reorged ==> HandledIn(e, b.hash))
    && (forall g :: g in r.good ==> g.hash !in retired && g.hash !in Hashes(r.reorged))
    && (forall h :: h in e ==> e[h].state == E.Handled || (e[h].state == E.HandledReorg && h in retired))
  }

  ghost predicate CleanOutput(e: map<Hash, E.Meta>, r: PollerResult, e': map<Hash, E.Meta>, h: Hash) {
    && (h in e' <==> h in e || h in Hashes(r.good))
    && (h in e' ==>
          && (h in e ==> e'[h].number == e[h].number)
          && (h !in e ==> ListedAs(r.good, h, e'[h].number))
          && e'[h].state == if h in Hashes(r.reorged) then E.HandledReorg
                            else if h in Hashes(r.good) then E.Handled
                            else e[h].state)
  }

  lemma CleanPass(e: map<Hash, E.Meta>, retired: set<Hash>, r: PollerResult, reply: E.Reply)
    requires CleanInput(e, retired, r)
    ensures !E.Serve(e, r, reply).Crashed?
  {
    K.SeeReorgsPasses(e, r.reorged);
  }

  lemma CleanReorgs(e: map<Hash, E.Meta>, retired: set<Hash>, r: PollerResult,
                    reply: Option<map<Hash, seq<E.Artifact>>>, h: Hash)
    requires CleanInput(e, retired, r) && E.ServeReorgs(e, r.reorged, reply).Served?
    ensures var e' := E.ServeReorgs(e, r.reorged, reply).metas;
      && (h in e' <==> h in e)
      && (h in e' ==> e'[h].number == e[h].number
                      && e'[h].state == if h in Hashes(r.reorged) then E.HandledReorg else e[h].state)
  {
    OccursOnce(r.reorged, h);
    if h in e {
      if e[h].state == E.Handled {
        ReorgedEnds(e, r.reorged, reply, h);
      } else {
        T.ReorgsAtStored(e, r.reorged, reply, h);
      }
    } else {
      T.ReorgsMissStranger(e, r.reorged, reply, h);
    }
  }

  lemma CleanServe(e: map<Hash, E.Meta>, retired: set<Hash>, r: PollerResult, reply: E.Reply, h: Hash)
    requires CleanInput(e, retired, r) && E.Serve(e, r, reply).Served?
    ensures CleanOutput(e, r, E.Serve(e, r, reply).metas, h)
  {
    CleanReorgs(e, retired, r, reply.reorged, h);
    var e1 := E.ServeReorgs(e, r.reorged, reply.reorged).metas;
    OccursOnce(r.good, h);
    if h in e1 {
      T.GoodsAtStored(e1, r.good, reply.good, h);
    } else if h in Hashes(r.good) {
      NewGoodEnds(e1, r.good, reply.good, h);
    } else {
      T.GoodsAtNew(e1, r.good, reply.good, h);
    }
  }
}
