/** What the service is given: which blocks of a result, in which order and in which calls, and how an
    iteration ends. */
module EngineCalls {
  import opened Types
  import opened Selections
  import opened EngineSpec
  import opened EngineTheory

  // ----- the state machine as a language -----

  function Fired(events: seq<Event>): State {
    if events == [] then Null else Next(Fired(events[..|events| - 1]), events[|events| - 1])
  }

  /** Seen, handled, and sighted k times more. */
  function Handling(k: nat): seq<Event> {
    if k == 0 then [SeeBlock, Handle] else Handling(k - 1) + [SeeBlock]
  }

  lemma {:induction false} HandlingHandles(k: nat)
    ensures Fired(Handling(k)) == Handled
  {
    if k == 0 {
      assert [SeeBlock, Handle][..1] == [SeeBlock] && [SeeBlock][..0] == [];
    } else {
      HandlingHandles(k - 1);
      FiredMore(Handling(k - 1), SeeBlock);
    }
  }

  lemma FiredMore(events: seq<Event>, event: Event)
    ensures Fired(events + [event]) == Next(Fired(events), event)
  {
    assert (events + [event])[..|events|] == events;
  }

  /** The only orders of events that do not end in Invalid: a block is seen, handled, sighted any number
      of times, seen reorged, handled as reorged, or cut short anywhere in between. */
  ghost predicate Orderly(events: seq<Event>, state: State) {
    match state
    case Null => events == []
    case Seen => events == [SeeBlock]
    case Handled => exists k: nat :: events == Handling(k)
    case Reorged => exists k: nat :: events == Handling(k) + [SeeReorg]
    case HandledReorg => exists k: nat :: events == Handling(k) + [SeeReorg] + [HandleReorg]
    case Invalid => true
  }

  lemma OrderlyMore(events: seq<Event>, state: State, event: Event)
    requires Orderly(events, state)
    ensures Orderly(events + [event], Next(state, event))
  {
    match state {
      case Null =>
        assert events + [event] == [event];
      case Seen =>
        assert [SeeBlock] + [Handle] == Handling(0);
      case Handled =>
        var k: nat :| events == Handling(k);
        assert Handling(k) + [SeeBlock] == Handling(k + 1);
      case _ =>
    }
  }

  /** Whatever state other than Invalid the events end in, they came in its order. */
  lemma {:induction false} FiredInOrder(events: seq<Event>)
    ensures Orderly(events, Fired(events))
    decreases |events|
  {
    if events != [] {
      var front, last := events[..|events| - 1], events[|events| - 1];
      assert front + [last] == events;
      FiredInOrder(front);
      OrderlyMore(front, Fired(front), last);
    }
  }

  /** And in that order they end in that state. */
  lemma InOrderFires(k: nat)
    ensures Fired([]) == Null && Fired([SeeBlock]) == Seen && Fired(Handling(k)) == Handled
    ensures Fired(Handling(k) + [SeeReorg]) == Reorged
    ensures Fired(Handling(k) + [SeeReorg] + [HandleReorg]) == HandledReorg
  {
    assert [SeeBlock][..0] == [];
    HandlingHandles(k);
    FiredMore(Handling(k), SeeReorg);
    FiredMore(Handling(k) + [SeeReorg], HandleReorg);
  }

  // ----- the blocks picked -----

  ghost predicate FirstListing(blocks: seq<Block>, i: nat)
    requires i < |blocks|
  {
    forall j :: 0 <= j < i ==> blocks[j].hash != blocks[i].hash
  }

  ghost predicate PickedAt(indices: seq<nat>, blocks: seq<Block>, wanted: Hash -> bool) {
    forall i :: 0 <= i < |blocks| ==> (i in indices <==> wanted(blocks[i].hash) && FirstListing(blocks, i))
  }

  /** The picked blocks are the listed ones themselves, in their order: the first one of each wanted hash,
      and no others. */
  ghost predicate Picks(blocks: seq<Block>, picked: seq<Block>, wanted: Hash -> bool) {
    exists indices: seq<nat> :: Chosen(indices, blocks, picked) && PickedAt(indices, blocks, wanted)
  }

  lemma PicksNothing(wanted: Hash -> bool)
    ensures Picks([], [], wanted)
  {
    var none: seq<nat>, nothing: seq<Block> := [], [];
    assert Chosen(none, nothing, nothing) && PickedAt(none, nothing, wanted);
  }

  lemma FirstWhenUnlisted(blocks: seq<Block>, b: Block)
    ensures FirstListing(blocks + [b], |blocks|) <==> Occurs(b.hash, blocks) == 0
  {
    var all := blocks + [b];
    OccursWhenListed(b.hash, blocks);
    if Occurs(b.hash, blocks) > 0 {
      var b' :| b' in blocks && b'.hash == b.hash;
      var j :| 0 <= j < |blocks| && blocks[j] == b';
      assert all[j].hash == all[|blocks|].hash;
    } else {
      assert forall j :: 0 <= j < |blocks| ==> all[j] == blocks[j] && blocks[j] in blocks;
    }
  }

  lemma FirstAsBefore(blocks: seq<Block>, b: Block, i: nat)
    requires i < |blocks|
    ensures FirstListing(blocks + [b], i) <==> FirstListing(blocks, i)
  {
    var all := blocks + [b];
    assert forall j :: 0 <= j <= i ==> all[j] == blocks[j];
  }

  lemma PickedMore(indices: seq<nat>, blocks: seq<Block>, wanted: Hash -> bool, b: Block)
    requires PickedAt(indices, blocks, wanted) && |blocks| !in indices
    ensures PickedAt(if wanted(b.hash) && Occurs(b.hash, blocks) == 0 then indices + [|blocks|] else indices,
                     blocks + [b], wanted)
  {
    var all := blocks + [b];
    var indices' := if wanted(b.hash) && Occurs(b.hash, blocks) == 0 then indices + [|blocks|] else indices;
    FirstWhenUnlisted(blocks, b);
    forall i | 0 <= i < |all|
      ensures i in indices' <==> wanted(all[i].hash) && FirstListing(all, i)
    {
      if i < |blocks| {
        FirstAsBefore(blocks, b, i);
        assert i in indices' <==> i in indices;
      }
    }
  }

  lemma PicksMore(blocks: seq<Block>, picked: seq<Block>, wanted: Hash -> bool, b: Block)
    requires Picks(blocks, picked, wanted)
    ensures Picks(blocks + [b], if wanted(b.hash) && Occurs(b.hash, blocks) == 0 then picked + [b] else picked, wanted)
  {
    var indices: seq<nat> :| Chosen(indices, blocks, picked) && PickedAt(indices, blocks, wanted);
    ChosenMore(indices, blocks, picked, b);
    PickedMore(indices, blocks, wanted, b);
  }

  ghost predicate AllAtRest(e: map<Hash, Meta>) {
    forall h :: h in e ==> AtRest(e[h].state)
  }

  lemma GoodAppended(e: map<Hash, Meta>, front: seq<Block>, b: Block)
    ensures var q := SeeGoods(e, front);
      SeeGoods(e, front + [b]).picked ==
        q.picked + (if Next(MetaOf(q.metas, b).state, SeeBlock) == Seen then [b] else [])
  {
    assert (front + [b])[..|front|] == front;
  }

  /** Only a hash without metadata becomes Seen, and only once. */
  lemma SeenOnlyOnce(was: Option<Meta>, now: Option<Meta>, picks: nat, listed: bool, meta: Meta)
    requires SawGood(was, now, picks, listed) && (was.Some? ==> AtRest(was.value.state))
    requires if now.Some? then meta == now.value else meta.state == Null
    ensures Next(meta.state, SeeBlock) == Seen <==> was.None? && !listed
  {
  }

  lemma GoodPicked(e: map<Hash, Meta>, front: seq<Block>, b: Block)
    requires AllAtRest(e)
    ensures SeeGoods(e, front + [b]).picked == SeeGoods(e, front).picked +
      (if b.hash !in e && Occurs(b.hash, front) == 0 then [b] else [])
  {
    var q := SeeGoods(e, front);
    GoodAppended(e, front, b);
    SeeGoodsAt(e, front, b.hash);
    SeenOnlyOnce(At(e, b.hash), At(q.metas, b.hash), Occurs(b.hash, q.picked), Occurs(b.hash, front) > 0,
                 MetaOf(q.metas, b));
  }

  /** Of the good blocks, the service gets the first of each hash without metadata. */
  lemma {:induction false} GoodsPicked(e: map<Hash, Meta>, blocks: seq<Block>)
    requires AllAtRest(e)
    ensures Picks(blocks, SeeGoods(e, blocks).picked, h => h !in e)
    decreases |blocks|
  {
    if blocks == [] {
      PicksNothing(h => h !in e);
    } else {
      var front, b := blocks[..|blocks| - 1], blocks[|blocks| - 1];
      assert front + [b] == blocks;
      GoodsPicked(e, front);
      GoodPicked(e, front, b);
      PicksMore(front, SeeGoods(e, front).picked, h => h !in e, b);
    }
  }

  lemma ReorgPicked(e: map<Hash, Meta>, front: seq<Block>, b: Block)
    requires AllAtRest(e) && SeeReorgs(e, front + [b]).Pass?
    ensures SeeReorgs(e, front).Pass? && b.hash in e
    ensures SeeReorgs(e, front + [b]).picked == SeeReorgs(e, front).picked +
      (if e[b.hash].state == Handled && Occurs(b.hash, front) == 0 then [b] else [])
  {
    assert (front + [b])[..|front|] == front;
    SeeReorgsAt(e, front, b.hash);
  }

  /** Of the reorged blocks, it gets the first of each hash that is Handled. */
  lemma {:induction false} ReorgsPicked(e: map<Hash, Meta>, blocks: seq<Block>)
    requires AllAtRest(e) && SeeReorgs(e, blocks).Pass?
    ensures Picks(blocks, SeeReorgs(e, blocks).picked, h => h in e && e[h].state == Handled)
    decreases |blocks|
  {
    if blocks == [] {
      PicksNothing(h => h in e && e[h].state == Handled);
    } else {
      var front, b := blocks[..|blocks| - 1], blocks[|blocks| - 1];
      assert front + [b] == blocks;
      ReorgsPicked(e, front);
      ReorgPicked(e, front, b);
      PicksMore(front, SeeReorgs(e, front).picked, h => h in e && e[h].state == Handled, b);
    }
  }

  // ----- the calls of one iteration -----

  lemma {:induction false} SeeReorgsPasses(e: map<Hash, Meta>, blocks: seq<Block>)
    ensures SeeReorgs(e, blocks).Pass? <==> forall b :: b in blocks ==> b.hash in e
    decreases |blocks|
  {
    if blocks != [] {
      var front, last := blocks[..|blocks| - 1], blocks[|blocks| - 1];
      SeeReorgsPasses(e, front);
      assert forall b :: b in blocks <==> b in front || b == last;
    }
  }

  /** The call hands over what it should of the result's lists. */
  ghost predicate CallFits(e: map<Hash, Meta>, result: PollerResult, reply: Reply, call: Call) {
    call.blocks != [] &&
    match call
    case ReorgCall(blocks, artifacts, r) =>
      Picks(result.reorged, blocks, h => h in e && e[h].state == Handled) && |artifacts| == |blocks| && r == reply.reorged
    case GoodCall(blocks, artifacts, r) =>
      Picks(result.good, blocks, h => h !in e) && artifacts == [] && r == reply.good
  }

  /** The service has returned no error. */
  ghost predicate AllConsent(calls: seq<Call>) {
    forall i :: 0 <= i < |calls| ==> calls[i].reply.Some?
  }

  /** The calls of the reorged half: one, if anything was picked. */
  lemma ReorgHalf(e: map<Hash, Meta>, reorged: seq<Block>, reply: Option<map<Hash, seq<Artifact>>>)
    requires SeeReorgs(e, reorged).Pass?
    ensures var s, p := ServeReorgs(e, reorged, reply), SeeReorgs(e, reorged);
      && !s.Crashed? && s.calls == (if p.picked == [] then [] else [ReorgCall(p.picked, p.artifacts, reply)])
      && (s.Served? <==> AllConsent(s.calls))
  {
    var calls := ServeReorgs(e, reorged, reply).calls;
    assert calls != [] ==> calls[0].reply == reply;
  }

  /** The calls of the good half. */
  lemma GoodHalf(e: map<Hash, Meta>, good: seq<Block>, reply: Option<map<Hash, seq<Artifact>>>)
    ensures var s, p := ServeGoods(e, good, reply), SeeGoods(e, good);
      && !s.Crashed? && s.calls == (if p.picked == [] then [] else [GoodCall(p.picked, [], reply)])
      && (s.Served? <==> AllConsent(s.calls))
  {
    var calls := ServeGoods(e, good, reply).calls;
    assert calls != [] ==> calls[0].reply == reply;
  }

  /** An iteration's calls are those of its halves, the second of which is only reached after the first. */
  lemma StepOfHalves(cfg: EngineConfig, e: map<Hash, Meta>, result: PollerResult, reply: Reply)
    ensures var s, r := EngineStep(cfg, e, result, reply), ServeReorgs(e, result.reorged, reply.reorged);
      && (s.Crash? <==> r.Crashed?)
      && (r.Refused? ==> s.Stop? && s.calls == r.calls)
      && (r.Served? ==>
            var g := ServeGoods(r.metas, result.good, reply.good);
            && !s.Crash? && s.calls == r.calls + g.calls && (s.Done? <==> g.Served? && reply.saved))
  {
    var r := ServeReorgs(e, result.reorged, reply.reorged);
    if r.Served? {
      GoodHalf(r.metas, result.good, reply.good);
    }
  }

  /** Every call of an iteration hands over the result's own blocks: of the reorged ones the first of each
      Handled hash, before the good ones, of which it is the first of each hash without metadata. */
  lemma CallsFit(cfg: EngineConfig, e: map<Hash, Meta>, result: PollerResult, reply: Reply)
    requires AllAtRest(e)
    ensures var calls := StepCalls(EngineStep(cfg, e, result, reply));
      && |calls| <= 2
      && (forall i :: 0 <= i < |calls| ==> CallFits(e, result, reply, calls[i]))
      && (|calls| == 2 ==> calls[0].ReorgCall? && calls[1].GoodCall?)
  {
    var r := ServeReorgs(e, result.reorged, reply.reorged);
    StepOfHalves(cfg, e, result, reply);
    if !r.Crashed? {
      ReorgCallFits(e, result, reply);
      if r.Served? {
        GoodCallFits(e, r.metas, result, reply);
      }
    }
  }

  lemma ReorgCallFits(e: map<Hash, Meta>, result: PollerResult, reply: Reply)
    requires AllAtRest(e) && SeeReorgs(e, result.reorged).Pass?
    ensures var calls := ServeReorgs(e, result.reorged, reply.reorged).calls;
      |calls| <= 1 && (calls != [] ==> calls[0].ReorgCall? && CallFits(e, result, reply, calls[0]))
  {
    ReorgHalf(e, result.reorged, reply.reorged);
    ReorgsPicked(e, result.reorged);
    SeeReorgsPairs(e, result.reorged);
  }

  lemma GoodCallFits(e: map<Hash, Meta>, e1: map<Hash, Meta>, result: PollerResult, reply: Reply)
    requires AllAtRest(e) && ServeReorgs(e, result.reorged, reply.reorged).Served?
    requires e1 == ServeReorgs(e, result.reorged, reply.reorged).metas
    ensures var calls := ServeGoods(e1, result.good, reply.good).calls;
      |calls| <= 1 && (calls != [] ==> calls[0].GoodCall? && CallFits(e, result, reply, calls[0]))
  {
    GoodHalf(e1, result.good, reply.good);
    GoodsPickedAfter(e, e1, result.good, result.reorged, reply.reorged);
  }

  /** The reorged half leaves everything at rest, and the set of stored hashes as it was. */
  lemma GoodsPickedAfter(e: map<Hash, Meta>, e1: map<Hash, Meta>, good: seq<Block>, reorged: seq<Block>,
                         reply: Option<map<Hash, seq<Artifact>>>)
    requires AllAtRest(e) && ServeReorgs(e, reorged, reply).Served? && e1 == ServeReorgs(e, reorged, reply).metas
    ensures Picks(good, SeeGoods(e1, good).picked, h => h !in e)
  {
    forall h | h in e1
      ensures h in e && AtRest(e1[h].state)
    {
      ReorgsAtStored(e, reorged, reply, h);
    }
    assert e1.Keys == e.Keys;
    GoodsPicked(e1, good);
    PicksAlike(good, SeeGoods(e1, good).picked, h => h !in e1, h => h !in e);
  }

  lemma PicksAlike(blocks: seq<Block>, picked: seq<Block>, wanted: Hash -> bool, wanted': Hash -> bool)
    requires Picks(blocks, picked, wanted) && forall h :: wanted(h) <==> wanted'(h)
    ensures Picks(blocks, picked, wanted')
  {
    var indices: seq<nat> :| Chosen(indices, blocks, picked) && PickedAt(indices, blocks, wanted);
    assert PickedAt(indices, blocks, wanted');
  }

  // ----- how an iteration ends -----

  /** It panics exactly when a reorged block has no metadata; otherwise it goes on exactly when the service
      consented to every call and the gateway to saving, and a refused call is its last. */
  lemma StepEnds(cfg: EngineConfig, e: map<Hash, Meta>, result: PollerResult, reply: Reply)
    ensures var s := EngineStep(cfg, e, result, reply);
      && (s.Crash? <==> exists b :: b in result.reorged && b.hash !in e)
      && (s.Done? <==> !s.Crash? && reply.saved && AllConsent(StepCalls(s)))
      && (StepCalls(s) != [] ==> AllConsent(StepCalls(s)[..|StepCalls(s)| - 1]))
  {
    SeeReorgsPasses(e, result.reorged);
    StepOfHalves(cfg, e, result, reply);
    var r := ServeReorgs(e, result.reorged, reply.reorged);
    if !r.Crashed? {
      ReorgHalf(e, result.reorged, reply.reorged);
      if r.Served? {
        GoodHalf(r.metas, result.good, reply.good);
        RepliesOf(r.calls, ServeGoods(r.metas, result.good, reply.good).calls);
      } else {
        assert r.calls[..|r.calls| - 1] == [];
      }
    }
  }

  lemma RepliesOf(first: seq<Call>, second: seq<Call>)
    requires |first| <= 1 && |second| <= 1 && AllConsent(first)
    ensures AllConsent(first + second) <==> AllConsent(second)
    ensures first + second != [] ==> AllConsent((first + second)[..|first + second| - 1])
  {
    var calls := first + second;
    assert forall i :: 0 <= i < |second| ==> calls[|first| + i] == second[i];
  }

  /** What an iteration saves is the LastGoodBlock of its result. */
  lemma SavesLastGood(cfg: EngineConfig, e: map<Hash, Meta>, result: PollerResult, reply: Reply)
    ensures var s := EngineStep(cfg, e, result, reply); s.Done? ==> s.saved == result.lastGood
  {
  }

  /** The service is called at all: for the reorged blocks exactly when one of them is Handled, and for the
      good ones, unless the iteration has ended before, exactly when one of them has no metadata. */
  lemma CallsAreMade(cfg: EngineConfig, e: map<Hash, Meta>, result: PollerResult, reply: Reply)
    requires AllAtRest(e) && !EngineStep(cfg, e, result, reply).Crash?
    ensures var s := EngineStep(cfg, e, result, reply);
      && (HasReorgCall(s.calls) <==> exists b :: b in result.reorged && b.hash in e && e[b.hash].state == Handled)
      && (s.Done? ==> (HasGoodCall(s.calls) <==> exists b :: b in result.good && b.hash !in e))
  {
    var r := ServeReorgs(e, result.reorged, reply.reorged);
    StepOfHalves(cfg, e, result, reply);
    ReorgCallIsMade(e, result.reorged, reply.reorged);
    if r.Served? {
      GoodCallIsMade(e, r.metas, result.good, reply.good, result.reorged, reply.reorged);
      KindsOf(r.calls, ServeGoods(r.metas, result.good, reply.good).calls);
    } else {
      assert r.calls[0].ReorgCall?;
    }
  }

  lemma ReorgCallIsMade(e: map<Hash, Meta>, reorged: seq<Block>, reply: Option<map<Hash, seq<Artifact>>>)
    requires AllAtRest(e) && !ServeReorgs(e, reorged, reply).Crashed?
    ensures var calls := ServeReorgs(e, reorged, reply).calls;
      && |calls| <= 1 && (forall i :: 0 <= i < |calls| ==> calls[i].ReorgCall?)
      && (calls != [] <==> exists b :: b in reorged && b.hash in e && e[b.hash].state == Handled)
    ensures ServeReorgs(e, reorged, reply).Refused? ==> ServeReorgs(e, reorged, reply).calls != []
  {
    ReorgHalf(e, reorged, reply);
    ReorgsPicked(e, reorged);
    PicksSome(reorged, SeeReorgs(e, reorged).picked, h => h in e && e[h].state == Handled);
  }

  lemma GoodCallIsMade(e: map<Hash, Meta>, e1: map<Hash, Meta>, good: seq<Block>, reply: Option<map<Hash, seq<Artifact>>>,
                       reorged: seq<Block>, replyReorged: Option<map<Hash, seq<Artifact>>>)
    requires AllAtRest(e) && ServeReorgs(e, reorged, replyReorged).Served?
    requires e1 == ServeReorgs(e, reorged, replyReorged).metas
    ensures var calls := ServeGoods(e1, good, reply).calls;
      && |calls| <= 1 && (forall i :: 0 <= i < |calls| ==> calls[i].GoodCall?)
      && (calls != [] <==> exists b :: b in good && b.hash !in e)
  {
    GoodHalf(e1, good, reply);
    GoodsPickedAfter(e, e1, good, reorged, replyReorged);
    PicksSome(good, SeeGoods(e1, good).picked, h => h !in e);
  }

  ghost predicate HasReorgCall(calls: seq<Call>) {
    exists i :: 0 <= i < |calls| && calls[i].ReorgCall?
  }

  ghost predicate HasGoodCall(calls: seq<Call>) {
    exists i :: 0 <= i < |calls| && calls[i].GoodCall?
  }

  lemma KindsOf(first: seq<Call>, second: seq<Call>)
    requires |first| <= 1 && |second| <= 1
    requires forall i :: 0 <= i < |first| ==> first[i].ReorgCall?
    requires forall i :: 0 <= i < |second| ==> second[i].GoodCall?
    ensures HasReorgCall(first + second) <==> first != []
    ensures HasGoodCall(first + second) <==> second != []
  {
    var calls := first + second;
    assert first != [] ==> calls[0] == first[0];
    assert second != [] ==> calls[|first|] == second[0];
  }

  lemma PicksSome(blocks: seq<Block>, picked: seq<Block>, wanted: Hash -> bool)
    requires Picks(blocks, picked, wanted)
    ensures picked != [] <==> exists b :: b in blocks && wanted(b.hash)
  {
    var indices: seq<nat> :| Chosen(indices, blocks, picked) && PickedAt(indices, blocks, wanted);
    if picked != [] {
      var i := indices[0];
      assert i in indices && blocks[i] in blocks && wanted(blocks[i].hash);
    }
    if b :| b in blocks && wanted(b.hash) {
      var i := FirstOf(blocks, b.hash);
      assert i in indices;
    }
  }

  lemma {:induction false} FirstOf(blocks: seq<Block>, h: Hash) returns (i: nat)
    requires exists b :: b in blocks && b.hash == h
    ensures i < |blocks| && blocks[i].hash == h && FirstListing(blocks, i)
    decreases |blocks|
  {
    var front := blocks[..|blocks| - 1];
    if exists b :: b in front && b.hash == h {
      i := FirstOf(front, h);
      assert forall j :: 0 <= j <= i ==> blocks[j] == front[j];
    } else {
      i := |blocks| - 1;
      assert forall j :: 0 <= j < i ==> blocks[j] == front[j] && front[j] in front;
      assert forall b :: b in blocks <==> b in front || b == blocks[i];
    }
  }

  // ----- whole runs -----

  /** Over every run, whatever results the engine was given: the calls of the next iteration hand over the
      right blocks of its result as they are. */
  lemma ServiceIsGiven(cfg: EngineConfig, inputs: seq<Input>, next: Input)
    requires RunOf(cfg, inputs).Some?
    ensures var e := RunOf(cfg, inputs).value.metas;
      var calls := StepCalls(EngineStep(cfg, e, next.result, next.reply));
      && |calls| <= 2
      && (forall i :: 0 <= i < |calls| ==> CallFits(e, next.result, next.reply, calls[i]))
      && (|calls| == 2 ==> calls[0].ReorgCall? && calls[1].GoodCall?)
  {
    var run := RunOf(cfg, inputs).value;
    LoopHeadStates(cfg, inputs);
    forall h | h in run.metas ensures AtRest(run.metas[h].state) {
      assert Fits(run.metas[h], run.lives[h]);
    }
    CallsFit(cfg, run.metas, next.result, next.reply);
  }
}
