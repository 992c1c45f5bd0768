/** The engine's state machine and what one iteration of its loop computes, as functions.
    The methods of module Engines are proved to compute exactly these functions. */
module EngineSpec {
  import opened Words
  import opened Types

  datatype State = Null | Seen | Handled | Reorged | HandledReorg | Invalid

  datatype Event = SeeBlock | Handle | SeeReorg | HandleReorg

  /** The transition table. Whatever it does not list leads to Invalid. */
  function Next(state: State, event: Event): State {
    match (state, event)
    case (Null, SeeBlock) => Seen
    case (Seen, Handle) => Handled
    case (Handled, SeeBlock) => Handled
    case (Handled, SeeReorg) => Reorged
    case (Reorged, HandleReorg) => HandledReorg
    case _ => Invalid
  }

  /** What service code makes of a block; the engine only stores it and hands it back. */
  datatype Artifact = Artifact(id: int)

  datatype Meta = Meta(number: nat, state: State, artifacts: seq<Artifact>)

  /** What the service methods and the data gateway return for one result; None is an error. */
  datatype Reply = Reply(
    reorged: Option<map<Hash, seq<Artifact>>>,
    good: Option<map<Hash, seq<Artifact>>>,
    saved: bool)

  /** A call of service code: its arguments and its reply. */
  datatype Call =
    | ReorgCall(blocks: seq<Block>, artifacts: seq<seq<Artifact>>, reply: Option<map<Hash, seq<Artifact>>>)
    | GoodCall(blocks: seq<Block>, artifacts: seq<seq<Artifact>>, reply: Option<map<Hash, seq<Artifact>>>)

  datatype EngineConfig = EngineConfig(filterRange: nat, maxRetries: nat)

  function Lookup(reply: map<Hash, seq<Artifact>>, h: Hash): seq<Artifact> {
    if h in reply then reply[h] else []
  }

  /** A pass over a result's blocks: the metadata it leaves, the blocks picked for the service,
      and the artifacts collected along with them. */
  datatype Pass = Panicked | Pass(metas: map<Hash, Meta>, picked: seq<Block>, artifacts: seq<seq<Artifact>>)

  function FireAt(e: map<Hash, Meta>, h: Hash, event: Event): map<Hash, Meta>
    requires h in e
  {
    e[h := e[h].(state := Next(e[h].state, event))]
  }

  function SeeReorgs(e: map<Hash, Meta>, blocks: seq<Block>): (p: Pass)
    ensures p.Pass? ==> p.metas.Keys == e.Keys
  {
    if blocks == [] then Pass(e, [], [])
    else
      var p, b := SeeReorgs(e, blocks[..|blocks| - 1]), blocks[|blocks| - 1];
      if p.Panicked? || b.hash !in p.metas then Panicked
      else
        var e' := FireAt(p.metas, b.hash, SeeReorg);
        if e'[b.hash].state == Reorged then
          Pass(e', p.picked + [b], p.artifacts + [e'[b.hash].artifacts])
        else
          Pass(e', p.picked, p.artifacts)
  }

  /** Metadata as looked up for a good block: made on the spot when there is none. */
  function MetaOf(e: map<Hash, Meta>, b: Block): Meta {
    if b.hash in e then e[b.hash] else Meta(b.number, Null, [])
  }

  function SeeGoods(e: map<Hash, Meta>, blocks: seq<Block>): (p: Pass)
    ensures p.Pass?
  {
    if blocks == [] then Pass(e, [], [])
    else
      var p, b := SeeGoods(e, blocks[..|blocks| - 1]), blocks[|blocks| - 1];
      var meta := MetaOf(p.metas, b);
      var e' := p.metas[b.hash := meta.(state := Next(meta.state, SeeBlock))];
      if e'[b.hash].state == Seen then Pass(e', p.picked + [b], p.artifacts + [meta.artifacts])
      else Pass(e', p.picked, p.artifacts)
  }

  function FinishAt(e: map<Hash, Meta>, h: Hash, event: Event, reply: map<Hash, seq<Artifact>>): map<Hash, Meta>
    requires h in e
  {
    e[h := Meta(e[h].number, Next(e[h].state, event), Lookup(reply, h))]
  }

  /** Fires `event` on every picked block, in order, and stores what the service returned for it. */
  function Finish(e: map<Hash, Meta>, picked: seq<Block>, event: Event, reply: map<Hash, seq<Artifact>>)
    : (e': map<Hash, Meta>)
    ensures e'.Keys == e.Keys
  {
    if picked == [] then e
    else
      var e' := Finish(e, picked[..|picked| - 1], event, reply);
      var h := picked[|picked| - 1].hash;
      if h in e' then FinishAt(e', h, event, reply) else e'
  }

  /** What one result leads to before eviction. */
  datatype Served = Crashed | Refused(calls: seq<Call>) | Served(metas: map<Hash, Meta>, calls: seq<Call>)

  function ServeReorgs(e: map<Hash, Meta>, reorged: seq<Block>, reply: Option<map<Hash, seq<Artifact>>>): Served {
    match SeeReorgs(e, reorged)
    case Panicked => Crashed
    case Pass(e1, picked, artifacts) =>
      if picked == [] then Served(e1, [])
      else
        var calls := [ReorgCall(picked, artifacts, reply)];
        if reply.None? then Refused(calls)
        else Served(Finish(e1, picked, HandleReorg, reply.value), calls)
  }

  /** The artifacts collected for good blocks are appended to the wrong list by the source, so the
      service always receives none. */
  function ServeGoods(e: map<Hash, Meta>, good: seq<Block>, reply: Option<map<Hash, seq<Artifact>>>): Served {
    var p := SeeGoods(e, good);
    if p.picked == [] then Served(p.metas, [])
    else
      var calls := [GoodCall(p.picked, [], reply)];
      if reply.None? then Refused(calls)
      else Served(Finish(p.metas, p.picked, Handle, reply.value), calls)
  }

  function Serve(e: map<Hash, Meta>, result: PollerResult, reply: Reply): Served {
    match ServeReorgs(e, result.reorged, reply.reorged)
    case Crashed => Crashed
    case Refused(calls) => Refused(calls)
    case Served(e1, calls) =>
      match ServeGoods(e1, result.good, reply.good)
      case Crashed => Crashed
      case Refused(calls') => Refused(calls + calls')
      case Served(e2, calls') => Served(e2, calls + calls')
  }

  function EngineBound(cfg: EngineConfig, lastGood: nat): int {
    Score(Sub(lastGood, Mul(cfg.filterRange, cfg.maxRetries)))
  }

  function Cleared(e: map<Hash, Meta>, bound: int): map<Hash, Meta> {
    map h | h in e && Score(e[h].number) > bound :: e[h]
  }

  /** The end of one iteration: the loop goes on, it returns an error, or it has panicked. */
  datatype StepResult = Crash | Stop(calls: seq<Call>) | Done(metas: map<Hash, Meta>, calls: seq<Call>, saved: nat)

  function EngineStep(cfg: EngineConfig, e: map<Hash, Meta>, result: PollerResult, reply: Reply): StepResult {
    match Serve(e, result, reply)
    case Crashed => Crash
    case Refused(calls) => Stop(calls)
    case Served(e', calls) =>
      if reply.saved then Done(Cleared(e', EngineBound(cfg, result.lastGood)), calls, result.lastGood)
      else Stop(calls)
  }
}
