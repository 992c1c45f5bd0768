/** What service code sees of one block hash, for any sequence of results the engine may be given:
    duplicates, returning hashes and blocks never announced included. */
module EngineTheory {
  import opened Types
  import opened EngineSpec

  /** One appearance of a hash in a service call: as a good block, with the artifacts the service
      returned for it, or as a reorged one, with the artifacts the service was given. */
  datatype Touch = GoodTouch(returned: seq<Artifact>) | ReorgTouch(given: seq<Artifact>)

  function ReorgTouches(h: Hash, blocks: seq<Block>, artifacts: seq<seq<Artifact>>): seq<Touch>
    requires |blocks| == |artifacts|
  {
    if blocks == [] then []
    else
      var last := |blocks| - 1;
      ReorgTouches(h, blocks[..last], artifacts[..last]) +
        (if blocks[last].hash == h then [ReorgTouch(artifacts[last])] else [])
  }

  function GoodTouches(h: Hash, blocks: seq<Block>, returned: seq<Artifact>): seq<Touch> {
    if blocks == [] then []
    else
      var last := |blocks| - 1;
      GoodTouches(h, blocks[..last], returned) + (if blocks[last].hash == h then [GoodTouch(returned)] else [])
  }

  function Occurs(h: Hash, blocks: seq<Block>): nat {
    if blocks == [] then 0
    else Occurs(h, blocks[..|blocks| - 1]) + (if blocks[|blocks| - 1].hash == h then 1 else 0)
  }

  function CallTouches(h: Hash, call: Call): seq<Touch> {
    match call
    case ReorgCall(blocks, artifacts, _) =>
      if |blocks| == |artifacts| then ReorgTouches(h, blocks, artifacts) else []
    case GoodCall(blocks, _, reply) =>
      GoodTouches(h, blocks, if reply.Some? then Lookup(reply.value, h) else [])
  }

  function Touches(h: Hash, calls: seq<Call>): seq<Touch> {
    if calls == [] then [] else Touches(h, calls[..|calls| - 1]) + CallTouches(h, calls[|calls| - 1])
  }

  /** The only lives a hash can have in the service's eyes: handled once, then at most reverted once,
      with the very artifacts its handling returned. */
  ghost predicate Lived(life: seq<Touch>) {
    && 1 <= |life| <= 2
    && life[0].GoodTouch?
    && (|life| == 2 ==> life[1] == ReorgTouch(life[0].returned))
  }

  ghost predicate Admissible(life: seq<Touch>) {
    life == [] || Lived(life)
  }

  /** The stored metadata agrees with what the service has seen. */
  ghost predicate Fits(meta: Meta, life: seq<Touch>) {
    && Lived(life)
    && match meta.state
       case Handled => |life| == 1 && meta.artifacts == life[0].returned
       case HandledReorg => |life| == 2
       case Invalid => true
       case _ => false
  }

  predicate AtRest(state: State) {
    state == Handled || state == HandledReorg || state == Invalid
  }

  // ----- the reorged pass -----

  /** What the pass over reorged blocks does to one stored hash. */
  ghost predicate SawReorg(before: Meta, after: Meta, touches: seq<Touch>, listed: bool) {
    && after.number == before.number && after.artifacts == before.artifacts
    && (!listed ==> after == before && touches == [])
    && (listed && before.state == Handled ==>
          touches == [ReorgTouch(before.artifacts)] && (after.state == Reorged || after.state == Invalid))
    && (listed && before.state != Handled ==> touches == [] && after.state == Invalid)
  }

  lemma ReorgTouchesSnoc(h: Hash, blocks: seq<Block>, artifacts: seq<seq<Artifact>>, b: Block, a: seq<Artifact>)
    requires |blocks| == |artifacts|
    ensures ReorgTouches(h, blocks + [b], artifacts + [a]) ==
      ReorgTouches(h, blocks, artifacts) + (if b.hash == h then [ReorgTouch(a)] else [])
  {
    assert (blocks + [b])[..|blocks|] == blocks && (artifacts + [a])[..|blocks|] == artifacts;
  }

  lemma {:induction false} SeeReorgsPairs(e: map<Hash, Meta>, blocks: seq<Block>)
    requires SeeReorgs(e, blocks).Pass?
    ensures |SeeReorgs(e, blocks).picked| == |SeeReorgs(e, blocks).artifacts|
    decreases |blocks|
  {
    if blocks != [] {
      SeeReorgsPairs(e, blocks[..|blocks| - 1]);
    }
  }

  /** One more reorged block: what it means for the hash it names, and for the others. */
  lemma SeeReorgsStep(e: map<Hash, Meta>, blocks: seq<Block>, h: Hash)
    requires blocks != [] && SeeReorgs(e, blocks).Pass? && h in e
    requires |SeeReorgs(e, blocks[..|blocks| - 1]).picked| == |SeeReorgs(e, blocks[..|blocks| - 1]).artifacts|
    requires |SeeReorgs(e, blocks).picked| == |SeeReorgs(e, blocks).artifacts|
    ensures var q, p, b := SeeReorgs(e, blocks[..|blocks| - 1]), SeeReorgs(e, blocks), blocks[|blocks| - 1];
      var next := Next(q.metas[h].state, SeeReorg);
      && p.metas[h] == (if b.hash == h then q.metas[h].(state := next) else q.metas[h])
      && ReorgTouches(h, p.picked, p.artifacts) == ReorgTouches(h, q.picked, q.artifacts) +
           (if b.hash == h && next == Reorged then [ReorgTouch(q.metas[h].artifacts)] else [])
  {
    var q, b := SeeReorgs(e, blocks[..|blocks| - 1]), blocks[|blocks| - 1];
    ReorgTouchesSnoc(h, q.picked, q.artifacts, b, q.metas[b.hash].artifacts);
  }

  lemma {:induction false} SeeReorgsAt(e: map<Hash, Meta>, blocks: seq<Block>, h: Hash)
    requires SeeReorgs(e, blocks).Pass? && h in e && AtRest(e[h].state)
    ensures |SeeReorgs(e, blocks).picked| == |SeeReorgs(e, blocks).artifacts|
    ensures SawReorg(e[h], SeeReorgs(e, blocks).metas[h],
                     ReorgTouches(h, SeeReorgs(e, blocks).picked, SeeReorgs(e, blocks).artifacts), Occurs(h, blocks) > 0)
    decreases |blocks|
  {
    SeeReorgsPairs(e, blocks);
    if blocks != [] {
      SeeReorgsAt(e, blocks[..|blocks| - 1], h);
      SeeReorgsStep(e, blocks, h);
      assert [] + [ReorgTouch(e[h].artifacts)] == [ReorgTouch(e[h].artifacts)];
    }
  }

  lemma {:induction false} ReorgTouchesCount(h: Hash, blocks: seq<Block>, artifacts: seq<seq<Artifact>>)
    requires |blocks| == |artifacts|
    ensures |ReorgTouches(h, blocks, artifacts)| == Occurs(h, blocks)
    decreases |blocks|
  {
    if blocks != [] {
      ReorgTouchesCount(h, blocks[..|blocks| - 1], artifacts[..|blocks| - 1]);
    }
  }

  /** A hash picked once is finished once; a hash not picked is left alone. */
  lemma {:induction false} FinishedAt(e: map<Hash, Meta>, picked: seq<Block>, event: Event,
                                    reply: map<Hash, seq<Artifact>>, h: Hash)
    requires h in e && Occurs(h, picked) <= 1
    ensures Finish(e, picked, event, reply)[h] ==
      if Occurs(h, picked) == 0 then e[h] else Meta(e[h].number, Next(e[h].state, event), Lookup(reply, h))
    decreases |picked|
  {
    if picked != [] {
      FinishedAt(e, picked[..|picked| - 1], event, reply, h);
    }
  }

  lemma {:induction false} PickedAreStored(e: map<Hash, Meta>, blocks: seq<Block>)
    requires SeeReorgs(e, blocks).Pass?
    ensures forall b :: b in SeeReorgs(e, blocks).picked ==> b.hash in e
    decreases |blocks|
  {
    if blocks != [] {
      PickedAreStored(e, blocks[..|blocks| - 1]);
    }
  }

  lemma {:induction false} OccursWhenListed(h: Hash, blocks: seq<Block>)
    ensures Occurs(h, blocks) > 0 <==> exists b :: b in blocks && b.hash == h
    decreases |blocks|
  {
    if blocks != [] {
      var front, last := blocks[..|blocks| - 1], blocks[|blocks| - 1];
      OccursWhenListed(h, front);
      assert forall b :: b in blocks <==> b in front || b == last;
    }
  }

  lemma TouchesOfOne(h: Hash, call: Call)
    ensures Touches(h, [call]) == CallTouches(h, call)
  {
    assert [call][..0] == [];
    assert Touches(h, []) == [];
  }

  // ----- the good pass -----

  /** What the pass over good blocks does to one hash, stored (`was`) or not. */
  ghost predicate SawGood(was: Option<Meta>, now: Option<Meta>, picks: nat, listed: bool) {
    match was
    case Some(before) =>
      && now.Some? && picks == 0
      && now.value.artifacts == before.artifacts && now.value.number == before.number
      && (now.value.state == before.state || (listed && before.state != Handled && now.value.state == Invalid))
      && (listed && before.state != Handled ==> now.value.state == Invalid)
    case None =>
      && (now.Some? <==> listed)
      && picks == (if listed then 1 else 0)
      && (listed ==> now.value.state == Seen || now.value.state == Invalid)
  }

  function At(e: map<Hash, Meta>, h: Hash): Option<Meta> {
    if h in e then Some(e[h]) else None
  }

  lemma OccursSnoc(h: Hash, blocks: seq<Block>, b: Block)
    ensures Occurs(h, blocks + [b]) == Occurs(h, blocks) + (if b.hash == h then 1 else 0)
  {
    assert (blocks + [b])[..|blocks|] == blocks;
  }

  /** One hash before and after one more good block: its metadata, how often it was picked, and
      whether it was listed. */
  ghost predicate SeenOnceMore(h: Hash, b: Block, mid: Option<Meta>, now: Option<Meta>,
                               picks: nat, picks': nat, listed: bool, listed': bool) {
    var meta := if mid.Some? then mid.value else Meta(b.number, Null, []);
    var next := Next(meta.state, SeeBlock);
    && now == (if b.hash == h then Some(meta.(state := next)) else mid)
    && picks' == picks + (if b.hash == h && next == Seen then 1 else 0)
    && listed' == (listed || b.hash == h)
  }

  lemma SeeGoodsStep(e: map<Hash, Meta>, blocks: seq<Block>, h: Hash)
    requires blocks != []
    ensures var front, b := blocks[..|blocks| - 1], blocks[|blocks| - 1];
      var q, p := SeeGoods(e, front), SeeGoods(e, blocks);
      SeenOnceMore(h, b, At(q.metas, h), At(p.metas, h), Occurs(h, q.picked), Occurs(h, p.picked),
                   Occurs(h, front) > 0, Occurs(h, blocks) > 0)
  {
    var q, b := SeeGoods(e, blocks[..|blocks| - 1]), blocks[|blocks| - 1];
    OccursSnoc(h, q.picked, b);
  }

  lemma SawGoodOnceMore(was: Option<Meta>, h: Hash, b: Block, mid: Option<Meta>, now: Option<Meta>,
                        picks: nat, picks': nat, listed: bool, listed': bool)
    requires SawGood(was, mid, picks, listed) && (was.Some? ==> AtRest(was.value.state))
    requires SeenOnceMore(h, b, mid, now, picks, picks', listed, listed')
    ensures SawGood(was, now, picks', listed')
  {
  }

  lemma {:induction false} SeeGoodsAt(e: map<Hash, Meta>, blocks: seq<Block>, h: Hash)
    requires h in e ==> AtRest(e[h].state)
    ensures SawGood(At(e, h), At(SeeGoods(e, blocks).metas, h), Occurs(h, SeeGoods(e, blocks).picked),
                    Occurs(h, blocks) > 0)
    decreases |blocks|
  {
    if blocks == [] {
      SawNoGoods(e, h);
    } else {
      var front, b := blocks[..|blocks| - 1], blocks[|blocks| - 1];
      var q, p := SeeGoods(e, front), SeeGoods(e, blocks);
      SeeGoodsAt(e, front, h);
      SeeGoodsStep(e, blocks, h);
      SawGoodOnceMore(At(e, h), h, b, At(q.metas, h), At(p.metas, h), Occurs(h, q.picked), Occurs(h, p.picked),
                      Occurs(h, front) > 0, Occurs(h, blocks) > 0);
    }
  }

  lemma SawNoGoods(e: map<Hash, Meta>, h: Hash)
    ensures SawGood(At(e, h), At(SeeGoods(e, []).metas, h), Occurs(h, SeeGoods(e, []).picked), Occurs(h, []) > 0)
  {
  }

  lemma {:induction false} GoodTouchesRepeat(h: Hash, blocks: seq<Block>, returned: seq<Artifact>)
    requires Occurs(h, blocks) <= 1
    ensures GoodTouches(h, blocks, returned) == if Occurs(h, blocks) == 1 then [GoodTouch(returned)] else []
    decreases |blocks|
  {
    if blocks != [] {
      GoodTouchesRepeat(h, blocks[..|blocks| - 1], returned);
    }
  }

  // ----- one iteration -----

  function LifeOf(lives: map<Hash, seq<Touch>>, h: Hash): seq<Touch> {
    if h in lives then lives[h] else []
  }

  ghost predicate AllFit(e: map<Hash, Meta>, lives: map<Hash, seq<Touch>>) {
    lives.Keys == e.Keys && forall h :: h in e ==> Fits(e[h], lives[h])
  }

  function CallsOf(s: Served): seq<Call> {
    if s.Crashed? then [] else s.calls
  }

  lemma ServeReorgsCalls(e: map<Hash, Meta>, reorged: seq<Block>, reply: Option<map<Hash, seq<Artifact>>>, h: Hash)
    requires SeeReorgs(e, reorged).Pass?
    requires |SeeReorgs(e, reorged).picked| == |SeeReorgs(e, reorged).artifacts|
    ensures Touches(h, CallsOf(ServeReorgs(e, reorged, reply)))
         == ReorgTouches(h, SeeReorgs(e, reorged).picked, SeeReorgs(e, reorged).artifacts)
  {
    var p := SeeReorgs(e, reorged);
    TouchesOfOne(h, ReorgCall(p.picked, p.artifacts, reply));
  }

  lemma ServeReorgsMeta(e: map<Hash, Meta>, reorged: seq<Block>, reply: Option<map<Hash, seq<Artifact>>>, h: Hash)
    requires h in e && ServeReorgs(e, reorged, reply).Served? && Occurs(h, SeeReorgs(e, reorged).picked) <= 1
    ensures var p, e' := SeeReorgs(e, reorged), ServeReorgs(e, reorged, reply).metas;
      && h in e' && e'[h].number == p.metas[h].number
      && (Occurs(h, p.picked) == 0 ==> e'[h] == p.metas[h])
      && (Occurs(h, p.picked) == 1 ==> e'[h].state == Next(p.metas[h].state, HandleReorg))
  {
    var p := SeeReorgs(e, reorged);
    if p.picked != [] {
      FinishedAt(p.metas, p.picked, HandleReorg, reply.value, h);
    }
  }

  /** One stored hash across the service of the reorged blocks. */
  ghost predicate ReorgServed(before: Meta, after: Meta, touches: seq<Touch>, listed: bool) {
    && after.number == before.number
    && (!listed ==> after == before && touches == [])
    && (listed && before.state == Handled ==>
          touches == [ReorgTouch(before.artifacts)] && (after.state == HandledReorg || after.state == Invalid))
    && (listed && before.state != Handled ==> touches == [] && after.state == Invalid)
  }

  /** A pass, then the finish of what it picked. */
  lemma ReorgServedBy(before: Meta, mid: Meta, after: Meta, touches: seq<Touch>, listed: bool)
    requires SawReorg(before, mid, touches, listed) && AtRest(before.state)
    requires after.number == mid.number
    requires |touches| == 0 ==> after == mid
    requires |touches| == 1 ==> after.state == Next(mid.state, HandleReorg)
    ensures ReorgServed(before, after, touches, listed)
  {
  }

  lemma ReorgsAtStored(e: map<Hash, Meta>, reorged: seq<Block>, reply: Option<map<Hash, seq<Artifact>>>, h: Hash)
    requires !ServeReorgs(e, reorged, reply).Crashed? && h in e && AtRest(e[h].state)
    ensures Touches(h, ServeReorgs(e, reorged, reply).calls) ==
      if Occurs(h, reorged) > 0 && e[h].state == Handled then [ReorgTouch(e[h].artifacts)] else []
    ensures ServeReorgs(e, reorged, reply).Served? ==>
      && h in ServeReorgs(e, reorged, reply).metas
      && ReorgServed(e[h], ServeReorgs(e, reorged, reply).metas[h], Touches(h, ServeReorgs(e, reorged, reply).calls),
                     Occurs(h, reorged) > 0)
  {
    var p := SeeReorgs(e, reorged);
    SeeReorgsAt(e, reorged, h);
    var touches := ReorgTouches(h, p.picked, p.artifacts);
    ReorgTouchesCount(h, p.picked, p.artifacts);
    ServeReorgsCalls(e, reorged, reply, h);
    assert Touches(h, ServeReorgs(e, reorged, reply).calls) == touches;
    if ServeReorgs(e, reorged, reply).Served? {
      ServeReorgsMeta(e, reorged, reply, h);
      var after := ServeReorgs(e, reorged, reply).metas[h];
      ReorgServedBy(e[h], p.metas[h], after, touches, Occurs(h, reorged) > 0);
    }
  }

  lemma ReorgsFit(e: map<Hash, Meta>, reorged: seq<Block>, reply: Option<map<Hash, seq<Artifact>>>,
                  h: Hash, life: seq<Touch>)
    requires !ServeReorgs(e, reorged, reply).Crashed?
    requires h in e && Fits(e[h], life)
    ensures var s := ServeReorgs(e, reorged, reply);
      && Lived(life + Touches(h, s.calls))
      && (s.Served? ==> h in s.metas && Fits(s.metas[h], life + Touches(h, s.calls)))
  {
    assert life + [] == life;
    ReorgsAtStored(e, reorged, reply, h);
  }

  lemma ServeGoodsCalls(e: map<Hash, Meta>, good: seq<Block>, reply: Option<map<Hash, seq<Artifact>>>, h: Hash)
    requires Occurs(h, SeeGoods(e, good).picked) <= 1
    ensures var returned := if reply.Some? then Lookup(reply.value, h) else [];
      Touches(h, ServeGoods(e, good, reply).calls) ==
        if Occurs(h, SeeGoods(e, good).picked) == 1 then [GoodTouch(returned)] else []
  {
    var p := SeeGoods(e, good);
    TouchesOfOne(h, GoodCall(p.picked, [], reply));
    GoodTouchesRepeat(h, p.picked, if reply.Some? then Lookup(reply.value, h) else []);
  }

  lemma ServeGoodsMeta(e: map<Hash, Meta>, good: seq<Block>, reply: Option<map<Hash, seq<Artifact>>>, h: Hash)
    requires ServeGoods(e, good, reply).Served? && Occurs(h, SeeGoods(e, good).picked) <= 1
    ensures var p, e' := SeeGoods(e, good), ServeGoods(e, good, reply).metas;
      && (h in e' <==> h in p.metas)
      && (h in e' && Occurs(h, p.picked) == 0 ==> e'[h] == p.metas[h])
      && (h in e' && Occurs(h, p.picked) == 1 ==>
            reply.Some? && e'[h] == Meta(p.metas[h].number, Next(p.metas[h].state, Handle), Lookup(reply.value, h)))
  {
    var p := SeeGoods(e, good);
    if p.picked != [] && h in p.metas {
      FinishedAt(p.metas, p.picked, Handle, reply.value, h);
    }
  }

  /** A stored hash is never given to the service as good again. */
  lemma GoodsAtStored(e: map<Hash, Meta>, good: seq<Block>, reply: Option<map<Hash, seq<Artifact>>>, h: Hash)
    requires h in e && AtRest(e[h].state)
    ensures Touches(h, ServeGoods(e, good, reply).calls) == []
    ensures ServeGoods(e, good, reply).Served? ==>
      && h in ServeGoods(e, good, reply).metas
      && SawGood(Some(e[h]), Some(ServeGoods(e, good, reply).metas[h]), 0, Occurs(h, good) > 0)
  {
    SeeGoodsAt(e, good, h);
    ServeGoodsCalls(e, good, reply, h);
    if ServeGoods(e, good, reply).Served? {
      ServeGoodsMeta(e, good, reply, h);
    }
  }

  /** A hash without metadata is given to the service exactly once, however often it is listed. */
  lemma GoodsAtNew(e: map<Hash, Meta>, good: seq<Block>, reply: Option<map<Hash, seq<Artifact>>>, h: Hash)
    requires h !in e
    ensures var returned := if reply.Some? then Lookup(reply.value, h) else [];
      Touches(h, ServeGoods(e, good, reply).calls) == if Occurs(h, good) > 0 then [GoodTouch(returned)] else []
    ensures ServeGoods(e, good, reply).Served? ==>
      (h in ServeGoods(e, good, reply).metas <==> Occurs(h, good) > 0)
    ensures ServeGoods(e, good, reply).Served? && h in ServeGoods(e, good, reply).metas ==>
      && reply.Some? && ServeGoods(e, good, reply).metas[h].artifacts == Lookup(reply.value, h)
      && (ServeGoods(e, good, reply).metas[h].state == Handled || ServeGoods(e, good, reply).metas[h].state == Invalid)
  {
    SeeGoodsAt(e, good, h);
    ServeGoodsCalls(e, good, reply, h);
    if ServeGoods(e, good, reply).Served? {
      ServeGoodsMeta(e, good, reply, h);
    }
  }

  lemma GoodsFit(e: map<Hash, Meta>, good: seq<Block>, reply: Option<map<Hash, seq<Artifact>>>,
                 h: Hash, life: seq<Touch>)
    requires FitsAt(e, h, life)
    ensures var s := ServeGoods(e, good, reply);
      && Admissible(life + Touches(h, s.calls))
      && (s.Served? ==> FitsAt(s.metas, h, life + Touches(h, s.calls)))
  {
    if h in e {
      GoodsAtStored(e, good, reply, h);
      assert life + [] == life;
    } else {
      GoodsAtNew(e, good, reply, h);
    }
  }

  lemma {:induction false} TouchesAppend(h: Hash, first: seq<Call>, second: seq<Call>)
    ensures Touches(h, first + second) == Touches(h, first) + Touches(h, second)
    decreases |second|
  {
    if second == [] {
      assert first + second == first;
    } else {
      var front := second[..|second| - 1];
      TouchesAppend(h, first, front);
      assert (first + second)[..|first + second| - 1] == first + front;
    }
  }

  /** An admissible life next to what is stored, or nothing next to nothing. */
  ghost predicate FitsAt(e: map<Hash, Meta>, h: Hash, life: seq<Touch>) {
    if h in e then Fits(e[h], life) else life == []
  }

  lemma ReorgsExtend(e: map<Hash, Meta>, reorged: seq<Block>, reply: Option<map<Hash, seq<Artifact>>>,
                     h: Hash, life: seq<Touch>)
    requires FitsAt(e, h, life)
    ensures var s := ServeReorgs(e, reorged, reply);
      var life' := life + Touches(h, CallsOf(s));
      && Admissible(life')
      && (s.Served? ==> FitsAt(s.metas, h, life'))
  {
    assert life + [] == life;
    if !ServeReorgs(e, reorged, reply).Crashed? {
      if h in e {
        ReorgsFit(e, reorged, reply, h, life);
      } else {
        ReorgsMissStranger(e, reorged, reply, h);
      }
    }
  }

  /** One result, any hash: the calls it causes extend the hash's life to an admissible one. */
  lemma ServeFits(e: map<Hash, Meta>, result: PollerResult, reply: Reply, h: Hash, life: seq<Touch>)
    requires FitsAt(e, h, life)
    ensures var s := Serve(e, result, reply);
      var life' := life + Touches(h, CallsOf(s));
      && Admissible(life')
      && (s.Served? ==> FitsAt(s.metas, h, life'))
  {
    ReorgsExtend(e, result.reorged, reply.reorged, h, life);
    var r, s := ServeReorgs(e, result.reorged, reply.reorged), Serve(e, result, reply);
    if r.Served? {
      GoodsExtend(r.metas, result.good, reply.good, h, life, r.calls);
      var g := ServeGoods(r.metas, result.good, reply.good);
      assert CallsOf(s) == r.calls + g.calls;
      assert s.Served? <==> g.Served?;
      assert s.Served? ==> s.metas == g.metas;
    } else {
      assert CallsOf(s) == CallsOf(r) && !s.Served?;
    }
  }

  lemma GoodsExtend(e: map<Hash, Meta>, good: seq<Block>, reply: Option<map<Hash, seq<Artifact>>>,
                    h: Hash, life: seq<Touch>, calls: seq<Call>)
    requires FitsAt(e, h, life + Touches(h, calls))
    ensures var s := ServeGoods(e, good, reply);
      var life' := life + Touches(h, calls + s.calls);
      && Admissible(life')
      && (s.Served? ==> FitsAt(s.metas, h, life'))
  {
    GoodsFit(e, good, reply, h, life + Touches(h, calls));
    LivesJoin(h, life, calls, ServeGoods(e, good, reply).calls);
  }

  lemma LivesJoin(h: Hash, life: seq<Touch>, first: seq<Call>, second: seq<Call>)
    ensures life + Touches(h, first + second) == (life + Touches(h, first)) + Touches(h, second)
  {
    TouchesAppend(h, first, second);
  }

  /** The reorged pass, when it does not panic, has nothing to say about a hash that is not stored. */
  lemma ReorgsMissStranger(e: map<Hash, Meta>, reorged: seq<Block>, reply: Option<map<Hash, seq<Artifact>>>, h: Hash)
    requires h !in e && !ServeReorgs(e, reorged, reply).Crashed?
    ensures Touches(h, ServeReorgs(e, reorged, reply).calls) == []
    ensures ServeReorgs(e, reorged, reply).Served? ==> h !in ServeReorgs(e, reorged, reply).metas
  {
    var p := SeeReorgs(e, reorged);
    SeeReorgsPairs(e, reorged);
    PickedAreStored(e, reorged);
    OccursWhenListed(h, p.picked);
    ReorgTouchesCount(h, p.picked, p.artifacts);
    TouchesOfOne(h, ReorgCall(p.picked, p.artifacts, reply));
  }

  // ----- whole runs -----

  datatype Input = Input(result: PollerResult, reply: Reply)

  /** The engine's metadata, and for each stored hash its life since its metadata was inserted. */
  datatype EngineRun = EngineRun(metas: map<Hash, Meta>, lives: map<Hash, seq<Touch>>)

  /** The run over all inputs, or None once the engine has panicked or returned. */
  function RunOf(cfg: EngineConfig, inputs: seq<Input>): Option<EngineRun> {
    if inputs == [] then Some(EngineRun(map[], map[]))
    else
      var run, input := RunOf(cfg, inputs[..|inputs| - 1]), inputs[|inputs| - 1];
      if run.None? then None
      else
        match EngineStep(cfg, run.value.metas, input.result, input.reply)
        case Crash => None
        case Stop(_) => None
        case Done(metas, calls, _) =>
          Some(EngineRun(metas, map h | h in metas :: LifeOf(run.value.lives, h) + Touches(h, calls)))
  }

  function StepCalls(r: StepResult): seq<Call> {
    if r.Crash? then [] else r.calls
  }

  /** At every loop head all stored states are Handled, HandledReorg or Invalid, and agree with
      what the service saw of the hash since its metadata was inserted. */
  lemma {:induction false} LoopHeadStates(cfg: EngineConfig, inputs: seq<Input>)
    requires RunOf(cfg, inputs).Some?
    ensures AllFit(RunOf(cfg, inputs).value.metas, RunOf(cfg, inputs).value.lives)
    decreases |inputs|
  {
    if inputs != [] {
      var front, input := inputs[..|inputs| - 1], inputs[|inputs| - 1];
      LoopHeadStates(cfg, front);
      var run, next := RunOf(cfg, front).value, RunOf(cfg, inputs).value;
      forall h | h in next.metas
        ensures Fits(next.metas[h], next.lives[h])
      {
        ServeFits(run.metas, input.result, input.reply, h, LifeOf(run.lives, h));
      }
    }
  }

  /** Whatever results the engine is given, even in the iteration that stops it: between insertion
      and eviction of a hash's metadata the service gets the hash as good at most once, and as
      reorged at most once and only after that, with exactly the artifacts it had returned. */
  lemma ServiceTrace(cfg: EngineConfig, inputs: seq<Input>, next: Input, h: Hash)
    requires RunOf(cfg, inputs).Some?
    ensures var run := RunOf(cfg, inputs).value;
      var life := LifeOf(run.lives, h) + Touches(h, StepCalls(EngineStep(cfg, run.metas, next.result, next.reply)));
      Admissible(life)
  {
    var run := RunOf(cfg, inputs).value;
    LoopHeadStates(cfg, inputs);
    ServeFits(run.metas, next.result, next.reply, h, LifeOf(run.lives, h));
  }

  lemma {:induction false} TouchAt(h: Hash, blocks: seq<Block>, artifacts: seq<seq<Artifact>>, i: nat)
    requires |blocks| == |artifacts| && i < |blocks| && blocks[i].hash == h
    ensures ReorgTouch(artifacts[i]) in ReorgTouches(h, blocks, artifacts)
    decreases |blocks|
  {
    if i < |blocks| - 1 {
      TouchAt(h, blocks[..|blocks| - 1], artifacts[..|blocks| - 1], i);
    }
  }

  /** A reorged block is handed over with the artifacts of its one earlier touch. */
  lemma RevertedWithReturned(e: map<Hash, Meta>, reorged: seq<Block>, p: Pass, i: nat, life: seq<Touch>)
    requires p == SeeReorgs(e, reorged) && p.Pass? && i < |p.picked| && |p.picked| == |p.artifacts|
    requires FitsAt(e, p.picked[i].hash, life)
    ensures life == [GoodTouch(p.artifacts[i])]
  {
    var h := p.picked[i].hash;
    PickedAreStored(e, reorged);
    assert p.picked[i] in p.picked;
    SeeReorgsAt(e, reorged, h);
    TouchAt(h, p.picked, p.artifacts, i);
  }

  /** The call for reorged blocks, if there is one, is an iteration's first. */
  lemma ReorgCallIsFirst(cfg: EngineConfig, e: map<Hash, Meta>, result: PollerResult, reply: Reply)
    ensures var calls, p := StepCalls(EngineStep(cfg, e, result, reply)), SeeReorgs(e, result.reorged);
      calls != [] && calls[0].ReorgCall? ==> p.Pass? && calls[0] == ReorgCall(p.picked, p.artifacts, reply.reorged)
  {
  }

  /** The artifacts that come with a block in a call for reorged blocks are the ones the service
      returned when it was given the block as good, however often the block was sighted in between. */
  lemma ArtifactRoundTrip(cfg: EngineConfig, inputs: seq<Input>, next: Input, call: Call, i: nat)
    requires RunOf(cfg, inputs).Some?
    requires StepCalls(EngineStep(cfg, RunOf(cfg, inputs).value.metas, next.result, next.reply)) != []
    requires call == StepCalls(EngineStep(cfg, RunOf(cfg, inputs).value.metas, next.result, next.reply))[0]
    requires call.ReorgCall? && i < |call.blocks|
    ensures |call.blocks| == |call.artifacts|
    ensures LifeOf(RunOf(cfg, inputs).value.lives, call.blocks[i].hash) == [GoodTouch(call.artifacts[i])]
  {
    var run := RunOf(cfg, inputs).value;
    ReorgCallIsFirst(cfg, run.metas, next.result, next.reply);
    SeeReorgsPairs(run.metas, next.result.reorged);
    LoopHeadStates(cfg, inputs);
    RevertedWithReturned(run.metas, next.result.reorged, SeeReorgs(run.metas, next.result.reorged), i,
                         LifeOf(run.lives, call.blocks[i].hash));
  }
}
