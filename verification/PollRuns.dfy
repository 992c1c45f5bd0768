/** Whole runs of the poller over arbitrary windows and answers: the tracker is an exact cache
    of what was last emitted. */
module PollRuns {
  import opened Types
  import opened Listings
  import opened PollSpec
  import opened PollTheory

  datatype Round = Round(from: nat, to: nat, answers: Answers)

  /** `emitted` holds, by number, the good block emitted last. */
  datatype Run = Run(state: PollerState, emitted: map<nat, Block>)

  function Emit(emitted: map<nat, Block>, good: seq<Block>): map<nat, Block> {
    if good == [] then emitted
    else
      var last := good[|good| - 1];
      Emit(emitted, good[..|good| - 1])[last.number := last]
  }

  function Step(cfg: Config, run: Run, round: Round): Run {
    var (s, o) := Poll(cfg, run.state, round.from, round.to, round.answers);
    Run(s, if o.Polled? then Emit(run.emitted, o.result.good) else run.emitted)
  }

  /** The run of a freshly built poller. Rounds whose poll fails emit nothing but still evict. */
  function RunOf(cfg: Config, rounds: seq<Round>): Run {
    if rounds == [] then Run(PollerState(map[], 0), map[])
    else Step(cfg, RunOf(cfg, rounds[..|rounds| - 1]), rounds[|rounds| - 1])
  }

  /** Entry `n` of a cache is the block emitted last at `n`. */
  ghost predicate Exact(policy: Policy, t: map<nat, Block>, emitted: map<nat, Block>, n: nat) {
    n in t ==>
      && n in emitted
      && t[n] == emitted[n]
      && t[n].number == n
      && (policy == Fast ==> t[n].logs != [])
  }

  ghost predicate CacheExact(policy: Policy, run: Run) {
    forall n :: n in run.state.tracker ==> Exact(policy, run.state.tracker, run.emitted, n)
  }

  /** In no round so far did the poller's eviction reach `floor`. */
  ghost predicate EvictsBelow(cfg: Config, rounds: seq<Round>, floor: int) {
    forall i :: 0 <= i <= |rounds| ==> EvictionBound(cfg, RunOf(cfg, rounds[..i]).state.lastRecorded) < floor
  }

  lemma {:induction false} EmitListing(emitted: map<nat, Block>, m: map<nat, Block>, lo: nat, hi: nat, n: nat)
    requires Keyed(m)
    ensures n in Emit(emitted, Listing(m, lo, hi)) <==> n in emitted || (lo <= n < hi && n in m)
    ensures n in Emit(emitted, Listing(m, lo, hi)) ==>
      Emit(emitted, Listing(m, lo, hi))[n] == if lo <= n < hi && n in m then m[n] else emitted[n]
    decreases hi
  {
    if lo < hi {
      EmitListing(emitted, m, lo, hi - 1, n);
      var all, front := Listing(m, lo, hi), Listing(m, lo, hi - 1);
      if hi - 1 in m {
        assert all[..|all| - 1] == front;
      } else {
        assert all == front;
      }
    }
  }

  lemma SettlingKeepsExact(policy: Policy, t: map<nat, Block>, emitted: map<nat, Block>, m: map<nat, Fresh>,
                           from: nat, to: nat, n: nat)
    requires Exact(policy, t, emitted, n) && Coherent(policy, t, m, from, to)
    ensures Exact(policy, Settled(m, t, policy, from, to + 1),
                  Emit(emitted, Listing(FreshBlocks(m), from, to + 1)), n)
  {
    SettledAt(m, t, policy, from, to + 1, n);
    EmitListing(emitted, FreshBlocks(m), from, to + 1, n);
  }

  lemma StepKeepsCache(cfg: Config, run: Run, round: Round)
    requires CacheExact(cfg.policy, run)
    ensures CacheExact(cfg.policy, Step(cfg, run, round))
  {
    var t := Evicted(run.state.tracker, EvictionBound(cfg, run.state.lastRecorded));
    var looked := Looked(cfg.policy, t, round.from, round.to, round.answers);
    var next := Step(cfg, run, round);
    if looked.Ok? {
      LookedCoherent(cfg.policy, t, round.from, round.to, round.answers);
      forall n | n in next.state.tracker
        ensures Exact(cfg.policy, next.state.tracker, next.emitted, n)
      {
        SettlingKeepsExact(cfg.policy, t, run.emitted, looked.value, round.from, round.to, n);
      }
    }
  }

  /** Over every run, each tracked block is the block last emitted as good at its number, and
      under PolicyFast it has at least one log. */
  lemma {:induction false} CacheIsExact(cfg: Config, rounds: seq<Round>)
    ensures CacheExact(cfg.policy, RunOf(cfg, rounds))
    decreases |rounds|
  {
    if rounds != [] {
      CacheIsExact(cfg, rounds[..|rounds| - 1]);
      StepKeepsCache(cfg, RunOf(cfg, rounds[..|rounds| - 1]), rounds[|rounds| - 1]);
    }
  }

  /** A report made from an exact tracker. */
  lemma ReportOfExact(policy: Policy, t: map<nat, Block>, m: map<nat, Fresh>, from: nat, to: nat,
                      emitted: map<nat, Block>)
    requires Coherent(policy, t, m, from, to) && forall n :: n in t ==> Exact(policy, t, emitted, n)
    ensures var r := Report(m, t, from, to);
      && Ascending(r.reorged)
      && Ascending(r.good)
      && (forall n :: n in t && from <= n <= to ==> exists g :: g in r.good && g.number == n)
      && (forall b :: b in r.reorged <==>
            && b.number in t && b == t[b.number] && from <= b.number <= to
            && exists g :: g in r.good && g.number == b.number && Differs(b, g))
      && (forall b :: b in r.reorged ==> b.number in emitted && b == emitted[b.number])
  {
    assert Keyed(t) by {
      assert forall n :: n in t ==> Exact(policy, t, emitted, n);
    }
    ReportMembers(policy, t, m, from, to);
    forall b | b in Report(m, t, from, to).reorged
      ensures b.number in emitted && b == emitted[b.number]
    {
      assert Exact(policy, t, emitted, b.number);
    }
  }

  /** After any run, the next poll reports as reorged, in ascending order, exactly the tracked
      blocks of its window whose replacement differs in hash or number of logs; each of them is the
      block that was last emitted as good at its number. */
  lemma ReorgedWereEmitted(cfg: Config, rounds: seq<Round>, next: Round)
    requires Poll(cfg, RunOf(cfg, rounds).state, next.from, next.to, next.answers).1.Polled?
    ensures
      var run := RunOf(cfg, rounds);
      var t := Evicted(run.state.tracker, EvictionBound(cfg, run.state.lastRecorded));
      var r := Poll(cfg, run.state, next.from, next.to, next.answers).1.result;
      && Ascending(r.reorged)
      && Ascending(r.good)
      && (forall n :: n in t && next.from <= n <= next.to ==> exists g :: g in r.good && g.number == n)
      && (forall b :: b in r.reorged <==>
            && b.number in t && b == t[b.number] && next.from <= b.number <= next.to
            && exists g :: g in r.good && g.number == b.number && Differs(b, g))
      && (forall b :: b in r.reorged ==> b.number in run.emitted && b == run.emitted[b.number])
  {
    var run := RunOf(cfg, rounds);
    var t := Evicted(run.state.tracker, EvictionBound(cfg, run.state.lastRecorded));
    CacheIsExact(cfg, rounds);
    forall n | n in t ensures Exact(cfg.policy, t, run.emitted, n) {
      assert Exact(cfg.policy, run.state.tracker, run.emitted, n);
    }
    LookedCoherent(cfg.policy, t, next.from, next.to, next.answers);
    ReportOfExact(cfg.policy, t, Looked(cfg.policy, t, next.from, next.to, next.answers).value, next.from, next.to,
                  run.emitted);
  }

  /** The reported good blocks are the fresh blocks of the window. */
  lemma GoodMembers(policy: Policy, t: map<nat, Block>, m: map<nat, Fresh>, from: nat, to: nat)
    requires Coherent(policy, t, m, from, to)
    ensures Ascending(Report(m, t, from, to).good)
    ensures forall n :: n in m && from <= n <= to ==> m[n].block in Report(m, t, from, to).good
    ensures forall g :: g in Report(m, t, from, to).good ==> from <= g.number <= to && g.number in m && g == m[g.number].block
  {
    ListingAscends(FreshBlocks(m), from, to + 1);
    ListingMembers(FreshBlocks(m), from, to + 1);
    forall n | n in m && from <= n <= to
      ensures m[n].block in Report(m, t, from, to).good
    {
      assert FreshBlocks(m)[n] in Listing(FreshBlocks(m), from, to + 1);
    }
  }

  /** The reported reorged blocks are the tracked ones that forked. */
  lemma ReorgedMembers(policy: Policy, t: map<nat, Block>, m: map<nat, Fresh>, from: nat, to: nat)
    requires Keyed(t) && Coherent(policy, t, m, from, to)
    ensures Ascending(Report(m, t, from, to).reorged)
    ensures forall b :: b in Report(m, t, from, to).reorged <==>
      b.number in t && b == t[b.number] && Forks(m, t, from, to, b.number)
  {
    var replaced := Replaced(m, t);
    ListingAscends(replaced, from, to + 1);
    ListingMembers(replaced, from, to + 1);
    forall n | n in t && Forks(m, t, from, to, n)
      ensures t[n] in Report(m, t, from, to).reorged
    {
      assert CoherentAt(policy, t, m, from, to, n);
      assert replaced[n] in Listing(replaced, from, to + 1);
    }
    forall b | b in Report(m, t, from, to).reorged
      ensures b.number in t && b == t[b.number] && Forks(m, t, from, to, b.number)
    {
      assert b.number in m && CoherentAt(policy, t, m, from, to, b.number);
    }
  }

  lemma ReportMembers(policy: Policy, t: map<nat, Block>, m: map<nat, Fresh>, from: nat, to: nat)
    requires Keyed(t) && Coherent(policy, t, m, from, to)
    ensures var r := Report(m, t, from, to);
      && Ascending(r.reorged)
      && Ascending(r.good)
      && (forall n :: n in t && from <= n <= to ==> exists g :: g in r.good && g.number == n)
      && (forall b :: b in r.reorged <==>
            && b.number in t && b == t[b.number] && from <= b.number <= to
            && exists g :: g in r.good && g.number == b.number && Differs(b, g))
  {
    GoodMembers(policy, t, m, from, to);
    ReorgedMembers(policy, t, m, from, to);
    forall n | n in t && from <= n <= to
      ensures exists g :: g in Report(m, t, from, to).good && g.number == n
    {
      assert CoherentAt(policy, t, m, from, to, n);
      assert m[n].block in Report(m, t, from, to).good;
    }
    forall b | b in Report(m, t, from, to).reorged
      ensures exists g :: g in Report(m, t, from, to).good && g.number == b.number && Differs(b, g)
    {
      assert CoherentAt(policy, t, m, from, to, b.number);
      assert m[b.number].block in Report(m, t, from, to).good;
    }
  }

  /** In an ascending list, the block of a number is unique. */
  lemma OneGoodPerNumber(good: seq<Block>, b: Block, g: Block)
    requires Ascending(good) && g in good && g.number == b.number
    ensures forall g' :: g' in good && g'.number == b.number ==> g' == g
  {
  }
}
