/** How often a hash is given to the service as good over a whole run: once per insertion of its
    metadata, so again exactly when the metadata was evicted and the hash is listed after that. */
module EngineRepeats {
  import opened Words
  import opened Types
  import opened EngineSpec
  import opened EngineTheory

  ghost predicate Listed(h: Hash, blocks: seq<Block>) {
    exists b :: b in blocks && b.hash == h
  }

  /** Whatever block is listed under the hash has the number. */
  ghost predicate NumberedAs(h: Hash, number: nat, blocks: seq<Block>) {
    forall b :: b in blocks && b.hash == h ==> b.number == number
  }

  ghost predicate HasGood(touches: seq<Touch>) {
    exists i :: 0 <= i < |touches| && touches[i].GoodTouch?
  }

  // ----- one iteration -----

  /** The metadata of a new hash has the number of a block it was listed with. */
  lemma {:induction false} NewNumber(e: map<Hash, Meta>, blocks: seq<Block>, h: Hash, number: nat)
    requires h in e ==> e[h].number == number
    requires NumberedAs(h, number, blocks)
    ensures h in SeeGoods(e, blocks).metas ==> SeeGoods(e, blocks).metas[h].number == number
    decreases |blocks|
  {
    if blocks != [] {
      var front, last := blocks[..|blocks| - 1], blocks[|blocks| - 1];
      assert forall b :: b in front || b == last ==> b in blocks;
      NewNumber(e, front, h, number);
    }
  }

  lemma {:induction false} OnlyReorgTouches(h: Hash, blocks: seq<Block>, artifacts: seq<seq<Artifact>>)
    requires |blocks| == |artifacts|
    ensures !HasGood(ReorgTouches(h, blocks, artifacts))
    decreases |blocks|
  {
    if blocks != [] {
      OnlyReorgTouches(h, blocks[..|blocks| - 1], artifacts[..|blocks| - 1]);
    }
  }

  /** The reorged blocks' half of an iteration gives no hash as good, and stores and forgets none. */
  lemma ReorgsKeepStored(e: map<Hash, Meta>, reorged: seq<Block>, reply: Option<map<Hash, seq<Artifact>>>, h: Hash)
    requires ServeReorgs(e, reorged, reply).Served? && (h in e ==> AtRest(e[h].state))
    ensures var s := ServeReorgs(e, reorged, reply);
      && !HasGood(Touches(h, s.calls)) && (h in s.metas <==> h in e)
      && (h in e ==> AtRest(s.metas[h].state) && s.metas[h].number == e[h].number)
  {
    if h in e {
      ReorgsAtStored(e, reorged, reply, h);
    } else {
      ReorgsMissStranger(e, reorged, reply, h);
    }
  }

  /** The good blocks' half: a hash without metadata is given and stored when it is listed; one with
      metadata is not given and stays stored. */
  lemma GoodsStore(e: map<Hash, Meta>, good: seq<Block>, reply: Option<map<Hash, seq<Artifact>>>, h: Hash, number: nat)
    requires ServeGoods(e, good, reply).Served? && NumberedAs(h, number, good)
    requires h in e ==> AtRest(e[h].state) && e[h].number == number
    ensures var s := ServeGoods(e, good, reply);
      && (HasGood(Touches(h, s.calls)) <==> h !in e && Listed(h, good))
      && (h in s.metas <==> h in e || Listed(h, good))
      && (h in s.metas ==> s.metas[h].number == number)
  {
    var s := ServeGoods(e, good, reply);
    OccursWhenListed(h, good);
    NewNumber(e, good, h, number);
    SeeGoodsAt(e, good, h);
    ServeGoodsMeta(e, good, reply, h);
    if h in e {
      GoodsAtStored(e, good, reply, h);
    } else {
      GoodsAtNew(e, good, reply, h);
      var returned := if reply.Some? then Lookup(reply.value, h) else [];
      assert Listed(h, good) ==> Touches(h, s.calls)[0] == GoodTouch(returned);
    }
  }

  lemma HasGoodAppend(first: seq<Touch>, second: seq<Touch>)
    ensures HasGood(first + second) <==> HasGood(first) || HasGood(second)
  {
    var both := first + second;
    if HasGood(first) {
      var i :| 0 <= i < |first| && first[i].GoodTouch?;
      assert both[i] == first[i];
    }
    if HasGood(second) {
      var i :| 0 <= i < |second| && second[i].GoodTouch?;
      assert both[|first| + i] == second[i];
    }
  }

  lemma ServeStores(e: map<Hash, Meta>, result: PollerResult, reply: Reply, h: Hash, number: nat)
    requires Serve(e, result, reply).Served? && NumberedAs(h, number, result.good)
    requires h in e ==> AtRest(e[h].state) && e[h].number == number
    ensures var s := Serve(e, result, reply);
      && (HasGood(Touches(h, s.calls)) <==> h !in e && Listed(h, result.good))
      && (h in s.metas <==> h in e || Listed(h, result.good))
      && (h in s.metas ==> s.metas[h].number == number)
  {
    var r := ServeReorgs(e, result.reorged, reply.reorged);
    ReorgsKeepStored(e, result.reorged, reply.reorged, h);
    GoodsStore(r.metas, result.good, reply.good, h, number);
    var g := ServeGoods(r.metas, result.good, reply.good);
    TouchesAppend(h, r.calls, g.calls);
    HasGoodAppend(Touches(h, r.calls), Touches(h, g.calls));
  }

  // ----- whole runs -----

  ghost predicate FixesNumber(inputs: seq<Input>, h: Hash, number: nat) {
    forall i :: 0 <= i < |inputs| ==> NumberedAs(h, number, inputs[i].result.good)
  }

  lemma {:induction false} PrefixRuns(cfg: EngineConfig, inputs: seq<Input>, k: nat)
    requires RunOf(cfg, inputs).Some? && k <= |inputs|
    ensures RunOf(cfg, inputs[..k]).Some?
    decreases |inputs|
  {
    if k == |inputs| {
      assert inputs[..k] == inputs;
    } else {
      assert inputs[..|inputs| - 1][..k] == inputs[..k];
      PrefixRuns(cfg, inputs[..|inputs| - 1], k);
    }
  }

  /** The metadata stored before input k. */
  function MetasBefore(cfg: EngineConfig, inputs: seq<Input>, k: nat): map<Hash, Meta>
    requires k <= |inputs|
  {
    if RunOf(cfg, inputs[..k]).Some? then RunOf(cfg, inputs[..k]).value.metas else map[]
  }

  /** Iteration k gives the hash to the service as good. */
  ghost predicate GivenAt(cfg: EngineConfig, inputs: seq<Input>, h: Hash, k: nat) {
    && k < |inputs|
    && HasGood(Touches(h, StepCalls(EngineStep(cfg, MetasBefore(cfg, inputs, k), inputs[k].result, inputs[k].reply))))
  }

  /** The eviction at the end of iteration k reaches the number. */
  predicate Reaches(cfg: EngineConfig, inputs: seq<Input>, k: nat, number: nat) {
    k < |inputs| && Score(number) <= EngineBound(cfg, inputs[k].result.lastGood)
  }

  ghost predicate NumberStored(cfg: EngineConfig, inputs: seq<Input>, h: Hash, number: nat, k: nat)
    requires k <= |inputs|
  {
    var e := MetasBefore(cfg, inputs, k);
    h in e ==> AtRest(e[h].state) && e[h].number == number
  }

  /** One iteration of a run, seen by one hash. */
  lemma StepStores(cfg: EngineConfig, inputs: seq<Input>, h: Hash, number: nat, k: nat)
    requires RunOf(cfg, inputs).Some? && k < |inputs| && FixesNumber(inputs, h, number)
    requires NumberStored(cfg, inputs, h, number, k)
    ensures GivenAt(cfg, inputs, h, k) <==> h !in MetasBefore(cfg, inputs, k) && Listed(h, inputs[k].result.good)
    ensures h in MetasBefore(cfg, inputs, k + 1) <==>
      (h in MetasBefore(cfg, inputs, k) || Listed(h, inputs[k].result.good)) && !Reaches(cfg, inputs, k, number)
    ensures h in MetasBefore(cfg, inputs, k + 1) ==> MetasBefore(cfg, inputs, k + 1)[h].number == number
  {
    PrefixRuns(cfg, inputs, k);
    PrefixRuns(cfg, inputs, k + 1);
    assert inputs[..k + 1][..k] == inputs[..k];
    var e := MetasBefore(cfg, inputs, k);
    ServeStores(e, inputs[k].result, inputs[k].reply, h, number);
  }

  lemma AtRestBefore(cfg: EngineConfig, inputs: seq<Input>, h: Hash, k: nat)
    requires RunOf(cfg, inputs).Some? && k <= |inputs|
    ensures var e := MetasBefore(cfg, inputs, k); h in e ==> AtRest(e[h].state)
  {
    PrefixRuns(cfg, inputs, k);
    LoopHeadStates(cfg, inputs[..k]);
    var run := RunOf(cfg, inputs[..k]).value;
    assert h in run.metas ==> Fits(run.metas[h], run.lives[h]);
  }

  lemma NothingBefore(cfg: EngineConfig, inputs: seq<Input>)
    ensures MetasBefore(cfg, inputs, 0) == map[]
  {
    assert inputs[..0] == [];
  }

  lemma {:induction false} NumbersStored(cfg: EngineConfig, inputs: seq<Input>, h: Hash, number: nat, k: nat)
    requires RunOf(cfg, inputs).Some? && k <= |inputs| && FixesNumber(inputs, h, number)
    ensures NumberStored(cfg, inputs, h, number, k)
  {
    AtRestBefore(cfg, inputs, h, k);
    if k == 0 {
      NothingBefore(cfg, inputs);
    } else {
      var last: nat := k - 1;
      NumbersStored(cfg, inputs, h, number, last);
      StepStores(cfg, inputs, h, number, last);
    }
  }

  // ----- the history of one hash -----

  /** What an iteration has to do with a hash: whether it gives it to the service as good, lists it as
      good, and evicts up to its number. */
  datatype Moment = Moment(given: bool, listed: bool, reached: bool)

  /** Whether the hash has metadata before moment k. */
  predicate StoredIn(history: seq<Moment>, k: nat)
    requires k <= |history|
  {
    k > 0 && (StoredIn(history, k - 1) || history[k - 1].listed) && !history[k - 1].reached
  }

  /** It is given exactly when it is listed without metadata. */
  ghost predicate Lawful(history: seq<Moment>) {
    forall k :: 0 <= k < |history| ==> (history[k].given <==> !StoredIn(history, k) && history[k].listed)
  }

  ghost predicate Twice(history: seq<Moment>) {
    exists i, j :: 0 <= i < j < |history| && history[i].given && history[j].given
  }

  ghost predicate ReachedBetween(history: seq<Moment>, i: nat, j: nat) {
    exists k :: i <= k < j && k < |history| && history[k].reached
  }

  ghost predicate ListedAfterReached(history: seq<Moment>) {
    exists i, j :: 0 <= i < j < |history| && history[i].given && history[j].listed && ReachedBetween(history, i, j)
  }

  /** As long as a hash given at i is not given again, its metadata is there until an eviction reaches it. */
  lemma {:induction false} StoredUntilReached(history: seq<Moment>, i: nat, j: nat)
    requires Lawful(history) && i < j <= |history| && history[i].given
    requires forall m :: i < m < j ==> !history[m].given
    ensures StoredIn(history, j) <==> !ReachedBetween(history, i, j)
    decreases j
  {
    if i < j - 1 {
      StoredUntilReached(history, i, j - 1);
    }
    assert ReachedBetween(history, i, j) <==> ReachedBetween(history, i, j - 1) || history[j - 1].reached;
  }

  /** The first time the hash is given after i. */
  lemma {:induction false} FirstAfter(history: seq<Moment>, i: nat, j: nat) returns (m: nat)
    requires i < j < |history| && history[j].given
    ensures i < m <= j && history[m].given && forall n :: i < n < m ==> !history[n].given
    decreases j
  {
    if n :| i < n < j && history[n].given {
      m := FirstAfter(history, i, n);
    } else {
      m := j;
    }
  }

  lemma TwiceIff(history: seq<Moment>)
    requires Lawful(history)
    ensures Twice(history) <==> ListedAfterReached(history)
  {
    if Twice(history) {
      var i, j :| 0 <= i < j < |history| && history[i].given && history[j].given;
      var m := FirstAfter(history, i, j);
      StoredUntilReached(history, i, m);
      assert history[m].listed && ReachedBetween(history, i, m);
    }
    if ListedAfterReached(history) {
      var i, j :| 0 <= i < j < |history| && history[i].given && history[j].listed && ReachedBetween(history, i, j);
      if forall m :: i < m < j ==> !history[m].given {
        StoredUntilReached(history, i, j);
        assert history[j].given;
      }
    }
  }

  // ----- the history a run gives a hash -----

  ghost function History(cfg: EngineConfig, inputs: seq<Input>, h: Hash, number: nat): seq<Moment> {
    seq(|inputs|, k requires 0 <= k < |inputs| =>
      Moment(GivenAt(cfg, inputs, h, k), Listed(h, inputs[k].result.good), Reaches(cfg, inputs, k, number)))
  }

  lemma {:induction false} StoredAsTold(cfg: EngineConfig, inputs: seq<Input>, h: Hash, number: nat, k: nat)
    requires RunOf(cfg, inputs).Some? && FixesNumber(inputs, h, number) && k <= |inputs|
    ensures h in MetasBefore(cfg, inputs, k) <==> StoredIn(History(cfg, inputs, h, number), k)
  {
    if k == 0 {
      NothingBefore(cfg, inputs);
    } else {
      var last: nat := k - 1;
      StoredAsTold(cfg, inputs, h, number, last);
      NumbersStored(cfg, inputs, h, number, last);
      StepStores(cfg, inputs, h, number, last);
    }
  }

  lemma HistoryIsLawful(cfg: EngineConfig, inputs: seq<Input>, h: Hash, number: nat)
    requires RunOf(cfg, inputs).Some? && FixesNumber(inputs, h, number)
    ensures Lawful(History(cfg, inputs, h, number))
  {
    var history := History(cfg, inputs, h, number);
    forall k | 0 <= k < |history|
      ensures history[k].given <==> !StoredIn(history, k) && history[k].listed
    {
      StoredAsTold(cfg, inputs, h, number, k);
      NumbersStored(cfg, inputs, h, number, k);
      StepStores(cfg, inputs, h, number, k);
    }
  }

  ghost predicate GivenTwice(cfg: EngineConfig, inputs: seq<Input>, h: Hash) {
    exists i: nat, j: nat :: i < j < |inputs| && GivenAt(cfg, inputs, h, i) && GivenAt(cfg, inputs, h, j)
  }

  /** In some iteration from i on and before j the eviction reaches the number. */
  ghost predicate EvictedBetween(cfg: EngineConfig, inputs: seq<Input>, number: nat, i: nat, j: nat) {
    exists k: nat :: i <= k < j && Reaches(cfg, inputs, k, number)
  }

  /** The hash is given, then its number is reached by an eviction, then it is listed as good. */
  ghost predicate ListedAfterEviction(cfg: EngineConfig, inputs: seq<Input>, h: Hash, number: nat) {
    exists i: nat, j: nat :: i < j < |inputs| && GivenAt(cfg, inputs, h, i) && Listed(h, inputs[j].result.good)
      && EvictedBetween(cfg, inputs, number, i, j)
  }

  lemma MomentAsTold(cfg: EngineConfig, inputs: seq<Input>, h: Hash, number: nat, k: nat)
    requires k < |inputs|
    ensures var history := History(cfg, inputs, h, number);
      && |history| == |inputs|
      && (history[k].given <==> GivenAt(cfg, inputs, h, k))
      && (history[k].listed <==> Listed(h, inputs[k].result.good))
      && (history[k].reached <==> Reaches(cfg, inputs, k, number))
  {
  }

  lemma TwiceAsTold(cfg: EngineConfig, inputs: seq<Input>, h: Hash, number: nat)
    ensures GivenTwice(cfg, inputs, h) <==> Twice(History(cfg, inputs, h, number))
  {
    var history := History(cfg, inputs, h, number);
    assert |history| == |inputs|;
    forall k: nat | k < |inputs|
      ensures history[k].given <==> GivenAt(cfg, inputs, h, k)
    {
      MomentAsTold(cfg, inputs, h, number, k);
    }
    TwiceByMoments(cfg, inputs, h, history);
  }

  lemma TwiceByMoments(cfg: EngineConfig, inputs: seq<Input>, h: Hash, history: seq<Moment>)
    requires |history| == |inputs|
    requires forall k: nat :: k < |inputs| ==> (history[k].given <==> GivenAt(cfg, inputs, h, k))
    ensures GivenTwice(cfg, inputs, h) <==> Twice(history)
  {
    if GivenTwice(cfg, inputs, h) {
      var i: nat, j: nat :| i < j < |inputs| && GivenAt(cfg, inputs, h, i) && GivenAt(cfg, inputs, h, j);
      assert history[i].given && history[j].given;
    }
    if Twice(history) {
      var i, j :| 0 <= i < j < |history| && history[i].given && history[j].given;
      assert GivenAt(cfg, inputs, h, i) && GivenAt(cfg, inputs, h, j);
    }
  }

  lemma BetweenAsTold(cfg: EngineConfig, inputs: seq<Input>, h: Hash, number: nat, i: nat, j: nat)
    ensures EvictedBetween(cfg, inputs, number, i, j) <==> ReachedBetween(History(cfg, inputs, h, number), i, j)
  {
    var history := History(cfg, inputs, h, number);
    if EvictedBetween(cfg, inputs, number, i, j) {
      var k: nat :| i <= k < j && Reaches(cfg, inputs, k, number);
      MomentAsTold(cfg, inputs, h, number, k);
      assert history[k].reached;
    }
    if ReachedBetween(history, i, j) {
      var k :| i <= k < j && k < |history| && history[k].reached;
      MomentAsTold(cfg, inputs, h, number, k);
      assert Reaches(cfg, inputs, k, number);
    }
  }

  lemma AfterEvictionAsTold(cfg: EngineConfig, inputs: seq<Input>, h: Hash, number: nat)
    ensures ListedAfterEviction(cfg, inputs, h, number) <==> ListedAfterReached(History(cfg, inputs, h, number))
  {
    var history := History(cfg, inputs, h, number);
    if ListedAfterEviction(cfg, inputs, h, number) {
      var i: nat, j: nat :| i < j < |inputs| && GivenAt(cfg, inputs, h, i) && Listed(h, inputs[j].result.good)
        && EvictedBetween(cfg, inputs, number, i, j);
      BetweenAsTold(cfg, inputs, h, number, i, j);
      MomentAsTold(cfg, inputs, h, number, i);
      MomentAsTold(cfg, inputs, h, number, j);
      assert history[i].given && history[j].listed;
    }
    if ListedAfterReached(history) {
      var i, j :| 0 <= i < j < |history| && history[i].given && history[j].listed && ReachedBetween(history, i, j);
      BetweenAsTold(cfg, inputs, h, number, i, j);
      MomentAsTold(cfg, inputs, h, number, i);
      MomentAsTold(cfg, inputs, h, number, j);
      assert GivenAt(cfg, inputs, h, i) && Listed(h, inputs[j].result.good);
    }
  }

  /** Over any run, a hash that fixes its number is given to the service as good more than once exactly
      when it is listed again after an eviction has reached its number. */
  lemma GivenTwiceIff(cfg: EngineConfig, inputs: seq<Input>, h: Hash, number: nat)
    requires RunOf(cfg, inputs).Some? && FixesNumber(inputs, h, number)
    ensures GivenTwice(cfg, inputs, h) <==> ListedAfterEviction(cfg, inputs, h, number)
  {
    HistoryIsLawful(cfg, inputs, h, number);
    TwiceIff(History(cfg, inputs, h, number));
    TwiceAsTold(cfg, inputs, h, number);
    AfterEvictionAsTold(cfg, inputs, h, number);
  }
}
