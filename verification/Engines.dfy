/** The engine as it runs: metadata objects shared between the tracker and the lists of one
    iteration, whose states are changed through those references. */
module Engines {
  import opened Words
  import opened SortedSets
  import opened Types
  import opened EngineSpec

  class BlockMetadata {
    const blockNumber: nat
    const blockHash: Hash
    var state: State
    var artifacts: seq<Artifact>

    constructor (blockNumber: nat, blockHash: Hash)
      ensures this.blockNumber == blockNumber && this.blockHash == blockHash
      ensures state == Null && artifacts == []
    {
      this.blockNumber, this.blockHash, state, artifacts := blockNumber, blockHash, Null, [];
    }

    function View(): Meta
      reads this
    {
      Meta(blockNumber, state, artifacts)
    }

    method Fire(event: Event)
      modifies this
      ensures state == Next(old(state), event) && artifacts == old(artifacts)
    {
      state := Next(state, event);
    }
  }

  /** The metadata tracker: at most one metadata object for each block hash. */
  class MetadataTracker {
    var entries: map<Hash, Scored<BlockMetadata>>

    ghost function Objects(): set<BlockMetadata>
      reads this
    {
      set h | h in entries :: entries[h].value
    }

    ghost predicate Valid()
      reads this
    {
      forall h :: h in entries ==>
        entries[h].value.blockHash == h && entries[h].score == Score(entries[h].value.blockNumber)
    }

    function View(): map<Hash, Meta>
      reads this, Objects()
    {
      map h | h in entries :: entries[h].value.View()
    }

    constructor ()
      ensures Valid() && View() == map[] && Objects() == {}
    {
      entries := map[];
    }

    method ClearUntil(blockNumber: nat)
      requires Valid()
      modifies this
      ensures Valid() && Objects() <= old(Objects())
      ensures View() == Cleared(old(View()), Score(blockNumber))
    {
      entries := SortedSets.ClearUntil(entries, blockNumber);
    }

    method SetBlockMetadata(metadata: BlockMetadata)
      requires Valid()
      modifies this
      ensures Valid() && Objects() <= old(Objects()) + {metadata} && metadata in Objects()
      ensures entries == old(entries)[metadata.blockHash := Scored(Score(metadata.blockNumber), metadata)]
      ensures View() == old(View())[metadata.blockHash := metadata.View()]
    {
      entries := entries[metadata.blockHash := Scored(Score(metadata.blockNumber), metadata)];
      assert entries[metadata.blockHash].value == metadata;
    }

    ghost predicate Stores(metadata: BlockMetadata)
      reads this
    {
      metadata.blockHash in entries && entries[metadata.blockHash].value == metadata
    }

    /** No entry is lost, and none changes its object. */
    twostate predicate Keeps()
      reads this
    {
      forall h :: h in old(entries) ==> h in entries && entries[h].value == old(entries)[h].value
    }

    /** Looks up a block's metadata. Without an entry, a good block gets a new object that is not
        stored yet; a reorged block makes the engine panic, told here by `found`. */
    method GetBlockMetadata(blockNumber: nat, blockHash: Hash) returns (metadata: BlockMetadata, found: bool)
      requires Valid()
      ensures found <==> blockHash in entries
      ensures found ==> metadata == entries[blockHash].value
      ensures !found ==> fresh(metadata) && metadata.blockHash == blockHash && metadata.View() == Meta(blockNumber, Null, [])
    {
      found := blockHash in entries;
      if found {
        metadata := entries[blockHash].value;
      } else {
        metadata := new BlockMetadata(blockNumber, blockHash);
      }
    }
  }

  class Engine {
    const cfg: EngineConfig
    const tracker: MetadataTracker

    constructor (cfg: EngineConfig)
      ensures this.cfg == cfg && fresh(tracker) && tracker.Valid() && tracker.View() == map[]
    {
      this.cfg := cfg;
      tracker := new MetadataTracker();
    }

    /** `metadata` lists the stored objects of the picked blocks. */
    ghost predicate Lists(metadata: seq<BlockMetadata>, picked: seq<Block>)
      reads tracker
    {
      |metadata| == |picked| &&
      forall i :: 0 <= i < |picked| ==>
        picked[i].hash in tracker.entries && metadata[i] == tracker.entries[picked[i].hash].value
    }

    /** Firing on a stored object fires at its hash in the tracker, and nowhere else. */
    method SeeReorgedBlock(block: Block) returns (metadata: BlockMetadata, found: bool)
      requires tracker.Valid()
      modifies tracker.Objects()
      ensures found <==> block.hash in old(tracker.View())
      ensures found ==> tracker.Stores(metadata) && metadata.blockHash == block.hash
      ensures found ==> tracker.View() == FireAt(old(tracker.View()), block.hash, SeeReorg)
    {
      metadata, found := tracker.GetBlockMetadata(block.number, block.hash);
      if found {
        metadata.Fire(SeeReorg);
      }
    }

    method SeeReorgedBlocks(blocks: seq<Block>)
      returns (ok: bool, picked: seq<Block>, artifacts: seq<seq<Artifact>>, metadata: seq<BlockMetadata>)
      requires tracker.Valid()
      modifies tracker.Objects()
      ensures ok <==> SeeReorgs(old(tracker.View()), blocks).Pass?
      ensures ok ==> SeeReorgs(old(tracker.View()), blocks) == Pass(tracker.View(), picked, artifacts)
      ensures ok ==> Lists(metadata, picked)
    {
      picked, artifacts, metadata := [], [], [];
      for i := 0 to |blocks|
        invariant SeeReorgs(old(tracker.View()), blocks[..i]) == Pass(tracker.View(), picked, artifacts)
        invariant Lists(metadata, picked)
      {
        assert blocks[..i + 1][..i] == blocks[..i];
        var meta, found := SeeReorgedBlock(blocks[i]);
        if !found {
          PanicsLater(old(tracker.View()), blocks, i + 1);
          return false, picked, artifacts, metadata;
        }
        if meta.state == Reorged {
          picked := picked + [blocks[i]];
          metadata := metadata + [meta];
          artifacts := artifacts + [meta.artifacts];
        }
      }
      assert blocks[..|blocks|] == blocks;
      ok := true;
    }

    method FinishBlock(metadata: BlockMetadata, event: Event, reply: map<Hash, seq<Artifact>>)
      requires tracker.Valid() && tracker.Stores(metadata)
      modifies tracker, metadata
      ensures tracker.Valid() && tracker.entries == old(tracker.entries)
      ensures metadata.blockHash in old(tracker.View())
      ensures tracker.View() == FinishAt(old(tracker.View()), metadata.blockHash, event, reply)
    {
      ghost var before := tracker.View();
      metadata.Fire(event);
      metadata.artifacts := Lookup(reply, metadata.blockHash);
      assert tracker.View() == before[metadata.blockHash := metadata.View()];
      tracker.SetBlockMetadata(metadata);
    }

    method FinishBlocks(metadata: seq<BlockMetadata>, ghost picked: seq<Block>, event: Event,
                        reply: map<Hash, seq<Artifact>>)
      requires tracker.Valid() && Lists(metadata, picked)
      modifies tracker, tracker.Objects()
      ensures tracker.Valid() && tracker.Objects() == old(tracker.Objects())
      ensures tracker.View() == Finish(old(tracker.View()), picked, event, reply)
    {
      ghost var e := tracker.View();
      for i := 0 to |metadata|
        invariant tracker.Valid() && tracker.entries == old(tracker.entries)
        invariant tracker.View() == Finish(e, picked[..i], event, reply)
      {
        assert picked[..i + 1][..i] == picked[..i];
        assert tracker.entries[picked[i].hash].value == metadata[i] && metadata[i].blockHash == picked[i].hash;
        FinishBlock(metadata[i], event, reply);
      }
      assert picked[..|picked|] == picked;
    }

    method SeeGoodBlock(block: Block) returns (metadata: BlockMetadata)
      requires tracker.Valid()
      modifies tracker, tracker.Objects()
      ensures tracker.Valid() && fresh(tracker.Objects() - old(tracker.Objects())) && tracker.Keeps()
      ensures tracker.Stores(metadata) && metadata.blockHash == block.hash
      ensures var meta := MetaOf(old(tracker.View()), block);
        && metadata.View() == meta.(state := Next(meta.state, SeeBlock))
        && tracker.View() == old(tracker.View())[block.hash := metadata.View()]
    {
      var found;
      metadata, found := tracker.GetBlockMetadata(block.number, block.hash);
      ghost var before := tracker.View();
      assert found ==> metadata.View() == before[block.hash];
      metadata.Fire(SeeBlock);
      assert tracker.View() == if found then before[block.hash := metadata.View()] else before;
      tracker.SetBlockMetadata(metadata);
    }

    /** One good block: its metadata seen, and the block listed for the service if it is new. */
    method SeeAndList(block: Block, picked0: seq<Block>, metadata0: seq<BlockMetadata>)
      returns (picked: seq<Block>, metadata: seq<BlockMetadata>)
      requires tracker.Valid() && Lists(metadata0, picked0)
      modifies tracker, tracker.Objects()
      ensures tracker.Valid() && fresh(tracker.Objects() - old(tracker.Objects()))
      ensures Lists(metadata, picked)
      ensures var meta := MetaOf(old(tracker.View()), block); var next := Next(meta.state, SeeBlock);
        && tracker.View() == old(tracker.View())[block.hash := meta.(state := next)]
        && picked == if next == Seen then picked0 + [block] else picked0
    {
      var meta := SeeGoodBlock(block);
      picked, metadata := picked0, metadata0;
      if meta.state == Seen {
        picked := picked + [block];
        metadata := metadata + [meta];
      }
    }

    method SeeGoodBlocks(blocks: seq<Block>) returns (picked: seq<Block>, metadata: seq<BlockMetadata>)
      requires tracker.Valid()
      modifies tracker, tracker.Objects()
      ensures tracker.Valid() && fresh(tracker.Objects() - old(tracker.Objects()))
      ensures tracker.View() == SeeGoods(old(tracker.View()), blocks).metas
      ensures picked == SeeGoods(old(tracker.View()), blocks).picked
      ensures Lists(metadata, picked)
    {
      picked, metadata := [], [];
      for i := 0 to |blocks|
        invariant tracker.Valid() && fresh(tracker.Objects() - old(tracker.Objects()))
        invariant tracker.View() == SeeGoods(old(tracker.View()), blocks[..i]).metas
        invariant picked == SeeGoods(old(tracker.View()), blocks[..i]).picked
        invariant Lists(metadata, picked)
      {
        assert blocks[..i + 1][..i] == blocks[..i];
        picked, metadata := SeeAndList(blocks[i], picked, metadata);
      }
      assert blocks[..|blocks|] == blocks;
    }

    method ServeReorgedBlocks(reorged: seq<Block>, reply: Option<map<Hash, seq<Artifact>>>)
      returns (o: Served)
      requires tracker.Valid()
      modifies tracker, tracker.Objects()
      ensures tracker.Valid() && tracker.Objects() == old(tracker.Objects())
      ensures o == ServeReorgs(old(tracker.View()), reorged, reply)
      ensures o.Served? ==> o.metas == tracker.View()
    {
      var ok, picked, artifacts, metadata := SeeReorgedBlocks(reorged);
      if !ok {
        return Crashed;
      }
      var calls: seq<Call> := [];
      if |picked| > 0 {
        calls := [ReorgCall(picked, artifacts, reply)];
        if reply.None? {
          return Refused(calls);
        }
        FinishBlocks(metadata, picked, HandleReorg, reply.value);
      }
      o := Served(tracker.View(), calls);
    }

    method ServeGoodBlocks(good: seq<Block>, reply: Option<map<Hash, seq<Artifact>>>)
      returns (o: Served)
      requires tracker.Valid()
      modifies tracker, tracker.Objects()
      ensures tracker.Valid() && fresh(tracker.Objects() - old(tracker.Objects()))
      ensures o == ServeGoods(old(tracker.View()), good, reply)
      ensures o.Served? ==> o.metas == tracker.View()
    {
      var picked, metadata := SeeGoodBlocks(good);
      var calls: seq<Call> := [];
      if |picked| > 0 {
        calls := [GoodCall(picked, [], reply)];
        if reply.None? {
          return Refused(calls);
        }
        FinishBlocks(metadata, picked, Handle, reply.value);
      }
      o := Served(tracker.View(), calls);
    }

    /** One iteration of the engine's loop, with the service's and the gateway's replies as inputs. */
    method HandleResult(result: PollerResult, reply: Reply) returns (r: StepResult)
      requires tracker.Valid()
      modifies tracker, tracker.Objects()
      ensures tracker.Valid() && fresh(tracker.Objects() - old(tracker.Objects()))
      ensures r == EngineStep(cfg, old(tracker.View()), result, reply)
      ensures r.Done? ==> tracker.View() == r.metas && r.saved == result.lastGood
    {
      var reorgs := ServeReorgedBlocks(result.reorged, reply.reorged);
      if reorgs.Crashed? {
        return Crash;
      }
      if reorgs.Refused? {
        return Stop(reorgs.calls);
      }
      var goods := ServeGoodBlocks(result.good, reply.good);
      var calls := reorgs.calls + goods.calls;
      if goods.Refused? {
        return Stop(calls);
      }
      tracker.ClearUntil(Sub(result.lastGood, Mul(cfg.filterRange, cfg.maxRetries)));
      if !reply.saved {
        return Stop(calls);
      }
      r := Done(tracker.View(), calls, result.lastGood);
    }
  }

  /** Once the reorged pass has panicked, no later block undoes it. */
  lemma {:induction false} PanicsLater(e: map<Hash, Meta>, blocks: seq<Block>, i: nat)
    requires i <= |blocks| && SeeReorgs(e, blocks[..i]).Panicked?
    ensures SeeReorgs(e, blocks).Panicked?
    decreases |blocks|
  {
    if i == |blocks| {
      assert blocks[..i] == blocks;
    } else {
      assert blocks[..|blocks| - 1][..i] == blocks[..i];
      PanicsLater(e, blocks[..|blocks| - 1], i);
    }
  }
}
