/** Safety of every run of poller and engine together, and where it ends. */
module WatcherSafety {
  import opened Words
  import opened Types
  import opened Listings
  import opened PollSpec
  import opened PollTheory
  import PollRuns
  import E = EngineSpec
  import opened Watcher

  lemma BoundsAligned(cfg: WatcherConfig, last: nat)
    requires Sensible(cfg) && 1 <= cfg.maxRetries && last < TWO_63
    ensures E.EngineBound(cfg.Engine(), last) <= EvictionBound(cfg.Poller(), last)
  {
    var depth := cfg.filterRange * cfg.maxRetries;
    assert Mul(cfg.filterRange, cfg.maxRetries) == depth >= cfg.filterRange;
    ScoreOfDifference(last, cfg.filterRange);
    ScoreOfDifference(last, depth);
  }

  /** A poll of an honest round, seen from the engine: every reorged block is Handled, and no good one
      was ever retired or is being retired. */
  lemma PollFeedsEngine(cfg: WatcherConfig, book: Book, w: World, m: map<nat, Fresh>, from: nat, to: nat)
    requires Sound(cfg, book, w) && Coherent(cfg.policy, Spared(cfg, w), m, from, to)
    requires forall g :: g in Report(m, Spared(cfg, w), from, to).good ==> Entered(book, g) && g.hash !in w.retired
    ensures CleanInput(w.metas, w.retired, Report(m, Spared(cfg, w), from, to))
  {
    var t := Spared(cfg, w);
    var r := Report(m, t, from, to);
    PollRuns.ReportMembers(cfg.policy, t, m, from, to);
    EnteredDistinct(book, r.reorged);
    EnteredDistinct(book, r.good);
    forall g | g in r.good
      ensures g.hash !in Hashes(r.reorged)
    {
      forall b | b in r.reorged
        ensures b.hash != g.hash
      {
        var g' :| g' in r.good && g'.number == b.number && Differs(b, g');
        PollRuns.OneGoodPerNumber(r.good, b, g');
        assert Entered(book, b) && Entered(book, g);
      }
    }
  }

  /** What the tracker holds at `n` afterwards is a good block of this round, or an untouched tracked one. */
  lemma SettledOrigin(policy: Policy, t: map<nat, Block>, m: map<nat, Fresh>, from: nat, to: nat, n: nat)
    requires Keyed(t) && Coherent(policy, t, m, from, to)
    requires n in Settled(m, t, policy, from, to + 1)
    ensures var b := Settled(m, t, policy, from, to + 1)[n];
      var r := Report(m, t, from, to);
      && b.number == n
      && (b in r.good || (n in t && b == t[n] && b !in r.reorged))
  {
    SettledAt(m, t, policy, from, to + 1, n);
    ListingMembers(FreshBlocks(m), from, to + 1);
    ListingAscends(Replaced(m, t), from, to + 1);
    if from <= n <= to && n in m && Entry(m, t, policy, n) == Some(m[n].block) {
      assert FreshBlocks(m)[n] in Report(m, t, from, to).good;
    }
  }

  lemma TrackerStaysHandled(cfg: WatcherConfig, book: Book, w: World, m: map<nat, Fresh>, from: nat, to: nat,
                            metas: map<Hash, E.Meta>, n: nat)
    requires Sound(cfg, book, w) && Coherent(cfg.policy, Spared(cfg, w), m, from, to)
    requires forall g :: g in Report(m, Spared(cfg, w), from, to).good ==> Entered(book, g) && g.hash !in w.retired
    requires forall h :: CleanOutput(w.metas, Report(m, Spared(cfg, w), from, to), metas, h)
    requires n in Settled(m, Spared(cfg, w), cfg.policy, from, to + 1)
    ensures var b := Settled(m, Spared(cfg, w), cfg.policy, from, to + 1)[n];
      && b.number == n && Entered(book, b) && HandledIn(metas, b.hash)
      && b.hash !in w.retired + Hashes(Report(m, Spared(cfg, w), from, to).reorged)
  {
    var t := Spared(cfg, w);
    var b, r := Settled(m, t, cfg.policy, from, to + 1)[n], Report(m, t, from, to);
    SettledOrigin(cfg.policy, t, m, from, to, n);
    PollFeedsEngine(cfg, book, w, m, from, to);
    PollRuns.ReportMembers(cfg.policy, t, m, from, to);
    assert CleanOutput(w.metas, r, metas, b.hash);
    if b !in r.good {
      forall b' | b' in r.reorged
        ensures b'.hash != b.hash
      {
        assert Entered(book, b') && Entered(book, b);
      }
    }
  }

  lemma MetaStaysSound(book: Book, w: World, r: PollerResult, metas: map<Hash, E.Meta>, h: Hash, next: World)
    requires MetaSound(book, w, h) && CleanOutput(w.metas, r, metas, h)
    requires forall g :: g in r.good ==> Entered(book, g)
    requires next.metas.Keys <= metas.Keys && forall k :: k in next.metas ==> next.metas[k] == metas[k]
    requires next.retired == w.retired + Hashes(r.reorged)
    ensures MetaSound(book, next, h)
  {
  }

  /** One round from a sound world: no crash, and a sound world again. */
  lemma RoundKeepsSound(cfg: WatcherConfig, book: Book, w: World, round: Round)
    requires Sensible(cfg) && 1 <= cfg.maxRetries
    requires Sound(cfg, book, w) && Honest(cfg, book, w, round)
    ensures !Take(cfg, w, round).Crashed?
    ensures Take(cfg, w, round).Going? ==> Sound(cfg, book, Take(cfg, w, round).world)
  {
    match Looked(cfg.policy, Spared(cfg, w), round.from, round.to, round.answers)
    case Err(e) =>
      FailedPollKeepsSound(cfg, book, w);
    case Ok(m) =>
      LookedCoherent(cfg.policy, Spared(cfg, w), round.from, round.to, round.answers);
      PollReports(cfg.Poller(), w.poller, round.from, round.to, round.answers, m);
      TakeServed(cfg, w, round, Report(m, Spared(cfg, w), round.from, round.to));
      ResultKeepsSound(cfg, book, w, m, round.from, round.to, round.reply);
  }

  lemma FailedPollKeepsSound(cfg: WatcherConfig, book: Book, w: World)
    requires Sound(cfg, book, w)
    ensures Sound(cfg, book, w.(poller := PollerState(Spared(cfg, w), w.poller.lastRecorded)))
  {
    var next := w.(poller := PollerState(Spared(cfg, w), w.poller.lastRecorded));
    assert Spared(cfg, next) == Spared(cfg, w);
    assert forall h :: h in w.metas ==> MetaSound(book, w, h);
  }

  /** The world after the engine has served the report of `m`. */
  function WorldServed(cfg: WatcherConfig, w: World, m: map<nat, Fresh>, from: nat, to: nat, metas: map<Hash, E.Meta>): World {
    var t := Spared(cfg, w);
    var r := Report(m, t, from, to);
    World(PollerState(Settled(m, t, cfg.policy, from, to + 1), r.lastGood),
          E.Cleared(metas, E.EngineBound(cfg.Engine(), r.lastGood)),
          Some(r.lastGood),
          w.retired + Hashes(r.reorged))
  }

  lemma ResultKeepsSound(cfg: WatcherConfig, book: Book, w: World, m: map<nat, Fresh>, from: nat, to: nat, reply: E.Reply)
    requires Sensible(cfg) && 1 <= cfg.maxRetries && 1 <= from <= to < TWO_63
    requires Sound(cfg, book, w) && Coherent(cfg.policy, Spared(cfg, w), m, from, to)
    requires forall g :: g in Report(m, Spared(cfg, w), from, to).good ==> Entered(book, g) && g.hash !in w.retired
    ensures var s := E.Serve(w.metas, Report(m, Spared(cfg, w), from, to), reply);
      !s.Crashed? && (s.Served? ==> Sound(cfg, book, WorldServed(cfg, w, m, from, to, s.metas)))
  {
    var t := Spared(cfg, w);
    var r := Report(m, t, from, to);
    PollFeedsEngine(cfg, book, w, m, from, to);
    CleanPass(w.metas, w.retired, r, reply);
    var s := E.Serve(w.metas, r, reply);
    if s.Served? {
      forall h ensures CleanOutput(w.metas, r, s.metas, h) {
        CleanServe(w.metas, w.retired, r, reply, h);
      }
      ServedIsSound(cfg, book, w, m, from, to, s.metas);
    }
  }

  lemma ServedIsSound(cfg: WatcherConfig, book: Book, w: World, m: map<nat, Fresh>, from: nat, to: nat,
                      metas: map<Hash, E.Meta>)
    requires Sensible(cfg) && 1 <= cfg.maxRetries && 1 <= from <= to < TWO_63
    requires Sound(cfg, book, w) && Coherent(cfg.policy, Spared(cfg, w), m, from, to)
    requires forall g :: g in Report(m, Spared(cfg, w), from, to).good ==> Entered(book, g) && g.hash !in w.retired
    requires forall h :: CleanOutput(w.metas, Report(m, Spared(cfg, w), from, to), metas, h)
    ensures Sound(cfg, book, WorldServed(cfg, w, m, from, to, metas))
  {
    var t := Spared(cfg, w);
    var r, next := Report(m, t, from, to), WorldServed(cfg, w, m, from, to, metas);
    LastGoodOfReport(cfg.policy, t, m, from, to);
    BoundsAligned(cfg, r.lastGood);
    forall n | n in next.poller.tracker
      ensures next.poller.tracker[n].number == n && Entered(book, next.poller.tracker[n])
      ensures HandledIn(metas, next.poller.tracker[n].hash) && next.poller.tracker[n].hash !in next.retired
    {
      TrackerStaysHandled(cfg, book, w, m, from, to, metas, n);
    }
    forall h | h in metas
      ensures metas[h].number == NumberOf(book, h)
      ensures MetaSound(book, next, h)
    {
      assert CleanOutput(w.metas, r, metas, h);
      assert h in w.metas ==> MetaSound(book, w, h);
      NumbersStaySound(book, w, r, metas, h);
      MetaStaysSound(book, w, r, metas, h, next);
    }
    SparedAreKept(cfg, book, next, metas, E.EngineBound(cfg.Engine(), r.lastGood));
  }

  /** The engine keeps what the poller spares. */
  lemma SparedAreKept(cfg: WatcherConfig, book: Book, next: World, metas: map<Hash, E.Meta>, bound: int)
    requires next.metas == E.Cleared(metas, bound) && bound <= EvictionBound(cfg.Poller(), next.poller.lastRecorded)
    requires forall h :: h in metas ==> metas[h].number == NumberOf(book, h)
    requires forall n :: n in next.poller.tracker ==>
      && next.poller.tracker[n].number == n && Entered(book, next.poller.tracker[n])
      && HandledIn(metas, next.poller.tracker[n].hash)
    ensures TrackedHandled(Spared(cfg, next), next.metas)
  {
    var t := Spared(cfg, next);
    forall n | n in t
      ensures HandledIn(next.metas, t[n].hash)
    {
      assert t[n] == next.poller.tracker[n];
      assert metas[t[n].hash].number == n;
    }
  }

  lemma NumbersStaySound(book: Book, w: World, r: PollerResult, metas: map<Hash, E.Meta>, h: Hash)
    requires h in metas && CleanOutput(w.metas, r, metas, h)
    requires h in w.metas ==> w.metas[h].number == NumberOf(book, h)
    requires forall g :: g in r.good ==> Entered(book, g)
    ensures metas[h].number == NumberOf(book, h)
  {
    if h !in w.metas {
      var g :| g in r.good && g.hash == h && g.number == metas[h].number;
      assert Entered(book, g);
    }
  }

  /** Over every honest run, with at least one go-back retry configured: the engine never panics for
      want of metadata, and the world stays sound. */
  lemma {:induction false} RunKeepsSound(cfg: WatcherConfig, book: Book, rounds: seq<Round>)
    requires Sensible(cfg) && 1 <= cfg.maxRetries && HonestRun(cfg, book, rounds)
    ensures !RunOf(cfg, rounds).Crashed?
    ensures RunOf(cfg, rounds).Going? ==> Sound(cfg, book, RunOf(cfg, rounds).world)
    decreases |rounds|
  {
    if rounds != [] {
      var front := rounds[..|rounds| - 1];
      assert forall i :: 0 <= i < |front| ==> front[..i] == rounds[..i] && front[i] == rounds[i];
      RunKeepsSound(cfg, book, front);
      if RunOf(cfg, front).Going? {
        RoundKeepsSound(cfg, book, RunOf(cfg, front).world, rounds[|rounds| - 1]);
      }
    }
  }

  /** End to end. After every honest run, each block the poller still tracks at its next eviction is
      Handled, no stored state is Invalid, and the next honest round does not panic. */
  lemma EndToEnd(cfg: WatcherConfig, book: Book, rounds: seq<Round>, next: Round)
    requires Sensible(cfg) && 1 <= cfg.maxRetries && HonestRun(cfg, book, rounds)
    requires RunOf(cfg, rounds).Going? && Honest(cfg, book, RunOf(cfg, rounds).world, next)
    ensures TrackedHandled(Spared(cfg, RunOf(cfg, rounds).world), RunOf(cfg, rounds).world.metas)
    ensures forall h :: h in RunOf(cfg, rounds).world.metas ==>
      RunOf(cfg, rounds).world.metas[h].state == E.Handled || RunOf(cfg, rounds).world.metas[h].state == E.HandledReorg
    ensures !Take(cfg, RunOf(cfg, rounds).world, next).Crashed?
  {
    RunKeepsSound(cfg, book, rounds);
    var w := RunOf(cfg, rounds).world;
    assert forall h :: h in w.metas ==> MetaSound(book, w, h);
    RoundKeepsSound(cfg, book, w, next);
  }

  /** What is reported as reorged was never reported before; when the service has served the result, it
      ends HandledReorg, and what is reported as good ends Handled. */
  ghost predicate EndStates(w: World, r: PollerResult, reply: E.Reply) {
    var s := E.Serve(w.metas, r, reply);
    && (forall b :: b in r.reorged ==> b.hash !in w.retired)
    && (s.Served? ==>
          && (forall b :: b in r.reorged ==> b.hash in s.metas && s.metas[b.hash].state == E.HandledReorg)
          && (forall g :: g in r.good ==> HandledIn(s.metas, g.hash)))
  }

  lemma RoundEnds(cfg: WatcherConfig, book: Book, w: World, round: Round, r: PollerResult)
    requires Sound(cfg, book, w) && KeepsToBook(cfg, book, w, round)
    requires var o := Poll(cfg.Poller(), w.poller, round.from, round.to, round.answers).1; o.Polled? && o.result == r
    ensures EndStates(w, r, round.reply)
  {
    var t := Spared(cfg, w);
    LookedCoherent(cfg.policy, t, round.from, round.to, round.answers);
    var m := Looked(cfg.policy, t, round.from, round.to, round.answers).value;
    assert r == Report(m, t, round.from, round.to);
    PollFeedsEngine(cfg, book, w, m, round.from, round.to);
    PollRuns.ReorgedMembers(cfg.policy, t, m, round.from, round.to);
    if E.Serve(w.metas, r, round.reply).Served? {
      ServedStates(w.metas, w.retired, r, round.reply);
    }
  }

  /** No hash is reported as reorged twice: what that round reports was not reported before. */
  lemma NeverReorgedTwice(cfg: WatcherConfig, book: Book, rounds: seq<Round>, next: Round, r: PollerResult)
    requires Sensible(cfg) && 1 <= cfg.maxRetries && HonestRun(cfg, book, rounds)
    requires RunOf(cfg, rounds).Going?
    requires var o := Poll(cfg.Poller(), RunOf(cfg, rounds).world.poller, next.from, next.to, next.answers).1;
      o.Polled? && o.result == r
    ensures forall b :: b in r.reorged ==> b.hash !in RunOf(cfg, rounds).world.retired
    ensures DistinctHashes(r.reorged)
  {
    RunKeepsSound(cfg, book, rounds);
    var w := RunOf(cfg, rounds).world;
    var t := Spared(cfg, w);
    LookedCoherent(cfg.policy, t, next.from, next.to, next.answers);
    var m := Looked(cfg.policy, t, next.from, next.to, next.answers).value;
    PollRuns.ReorgedMembers(cfg.policy, t, m, next.from, next.to);
    EnteredDistinct(book, r.reorged);
  }

  /** The states that round leaves. */
  lemma EndToEndStates(cfg: WatcherConfig, book: Book, rounds: seq<Round>, next: Round, r: PollerResult)
    requires Sensible(cfg) && 1 <= cfg.maxRetries && HonestRun(cfg, book, rounds)
    requires RunOf(cfg, rounds).Going? && Honest(cfg, book, RunOf(cfg, rounds).world, next)
    requires var o := Poll(cfg.Poller(), RunOf(cfg, rounds).world.poller, next.from, next.to, next.answers).1;
      o.Polled? && o.result == r
    ensures EndStates(RunOf(cfg, rounds).world, r, next.reply)
  {
    RunKeepsSound(cfg, book, rounds);
    RoundEnds(cfg, book, RunOf(cfg, rounds).world, next, r);
  }

  lemma ServedStates(e: map<Hash, E.Meta>, retired: set<Hash>, r: PollerResult, reply: E.Reply)
    requires CleanInput(e, retired, r) && E.Serve(e, r, reply).Served?
    ensures var metas := E.Serve(e, r, reply).metas;
      && (forall b :: b in r.reorged ==> b.hash in metas && metas[b.hash].state == E.HandledReorg)
      && (forall g :: g in r.good ==> HandledIn(metas, g.hash))
  {
    var metas := E.Serve(e, r, reply).metas;
    forall h ensures CleanOutput(e, r, metas, h) {
      CleanServe(e, retired, r, reply, h);
    }
    forall b | b in r.reorged
      ensures b.hash in metas && metas[b.hash].state == E.HandledReorg
    {
      assert HandledIn(e, b.hash) && b.hash in Hashes(r.reorged);
      assert CleanOutput(e, r, metas, b.hash);
    }
    forall g | g in r.good
      ensures HandledIn(metas, g.hash)
    {
      assert g.hash in Hashes(r.good);
      assert CleanOutput(e, r, metas, g.hash);
    }
  }
}
