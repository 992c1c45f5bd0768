/** The two evictions against the next window: nothing that the next window still needs is gone. */
module Alignment {
  import opened Words
  import opened Types
  import opened PollSpec
  import opened PollTheory
  import opened PollRuns
  import E = EngineSpec
  import W = EmitterTheory
  import S = EmitterSpec

  /** With the recorded block below the head, the poller's bound does not reach the start of the next
      normal window, for the bound of this or of any earlier, lower recorded block, wrapped or not. */
  lemma PollerBoundBelowNextWindow(cfg: S.EmitterConfig, policy: Policy, earlier: nat, last: nat, head: nat)
    requires W.Bounded(cfg) && W.Recordable(cfg, last) && earlier <= last < head
    ensures EvictionBound(Config(cfg.filterRange, policy), earlier) < W.Between(cfg, last, head).0
  {
    ScoreOfDifference(earlier, cfg.filterRange);
  }

  /** The engine forgets no more than the poller exactly when there is at least one go-back retry. */
  lemma EngineBoundBelowPollerBound(cfg: S.EmitterConfig, policy: Policy, last: nat)
    requires W.Bounded(cfg) && last < TWO_63 && cfg.filterRange * cfg.maxRetries < TWO_63
    ensures var engine := E.EngineBound(E.EngineConfig(cfg.filterRange, cfg.maxRetries), last);
      engine <= EvictionBound(Config(cfg.filterRange, policy), last) <==> 1 <= cfg.maxRetries
  {
    var depth := cfg.filterRange * cfg.maxRetries;
    if 1 <= cfg.maxRetries {
      assert depth >= cfg.filterRange;
    } else {
      assert depth == 0;
    }
    assert Mul(cfg.filterRange, cfg.maxRetries) == depth;
    ScoreOfDifference(last, cfg.filterRange);
    ScoreOfDifference(last, depth);
  }

  /** With at least one retry, the engine's bound stays below the next window too. */
  lemma BoundsBelowNextWindow(cfg: S.EmitterConfig, policy: Policy, earlier: nat, last: nat, head: nat)
    requires W.Bounded(cfg) && W.Recordable(cfg, last) && earlier <= last < head
    requires cfg.filterRange * cfg.maxRetries < TWO_63
    ensures EvictionBound(Config(cfg.filterRange, policy), earlier) < W.Between(cfg, last, head).0
    ensures 1 <= cfg.maxRetries ==>
      E.EngineBound(E.EngineConfig(cfg.filterRange, cfg.maxRetries), earlier) < W.Between(cfg, last, head).0
  {
    PollerBoundBelowNextWindow(cfg, policy, earlier, last, head);
    EngineBoundBelowPollerBound(cfg, policy, earlier);
  }

  lemma RangesCompare(r: nat, j: nat, k: nat)
    requires 1 <= r
    ensures j * r <= r * k <==> j <= k
  {
    var d: int := k - j;
    assert r * k - j * r == d * r;
    if d >= 0 {
      assert d * r >= 0;
    } else {
      assert d * r <= 0 - r;
    }
  }

  /** The window against the bound, with the products named. */
  lemma WindowAgainstBound(start: nat, last: nat, r: nat, retries: nat, k: nat, depth: nat, back: nat, from: int, now: int)
    requires 1 <= r && start <= last + 1 && (k < retries <==> back + r <= depth)
    requires from == W.Max(start, last + 1 - r) && now == W.Max(start, from - back)
    ensures last - depth < now <==> k < retries || last - depth < start
  {
  }

  /** The engine remembers as many ranges as there are retries, and a reorg episode goes back one range a
      time from a window that already looks one range back. So the window of the k-th go-back starts above
      all that was evicted when the episode began exactly when k is not the last retry, or the start block
      lies above that anyway. */
  lemma GoBacksAgainstEviction(cfg: S.EmitterConfig, s: S.Status, envs: seq<S.Env>, last: nat, head: nat)
    requires W.Bounded(cfg) && W.Recordable(cfg, last) && last < head
    requires cfg.maxRetries + 1 < TWO_63 && cfg.filterRange * cfg.maxRetries < TWO_63
    requires s.isReorging && s.retries == 1 && !s.goBackFirstStart && s.from == W.Between(cfg, last, head).0
    requires W.AllReorg(envs) && W.StatusAfterAll(cfg, s, envs).Some?
    ensures var (now, k) := W.StatusAfterAll(cfg, s, envs).value;
      var bound := E.EngineBound(E.EngineConfig(cfg.filterRange, cfg.maxRetries), last);
      bound < now.from <==> k < cfg.maxRetries || bound < cfg.start
  {
    var p := W.StatusAfterAll(cfg, s, envs).value;
    W.Episode(cfg, s, envs);
    BackAgainstEviction(cfg, last, p.1, s.from, p.0.from);
  }

  lemma BackAgainstEviction(cfg: S.EmitterConfig, last: nat, k: nat, from: int, now: int)
    requires 1 <= cfg.filterRange && cfg.start <= last + 1 && last < TWO_63 && cfg.filterRange * cfg.maxRetries < TWO_63
    requires from == W.Max(cfg.start, last + 1 - cfg.filterRange) && now == W.Max(cfg.start, from - k * cfg.filterRange)
    ensures var bound := E.EngineBound(E.EngineConfig(cfg.filterRange, cfg.maxRetries), last);
      bound < now <==> k < cfg.maxRetries || bound < cfg.start
  {
    EngineBoundIs(cfg, last);
    BackInRanges(cfg.start, last, cfg.filterRange, cfg.maxRetries, k, from, now);
  }

  lemma BackInRanges(start: nat, last: nat, r: nat, retries: nat, k: nat, from: int, now: int)
    requires 1 <= r && start <= last + 1
    requires from == W.Max(start, last + 1 - r) && now == W.Max(start, from - k * r)
    ensures last - r * retries < now <==> k < retries || last - r * retries < start
  {
    var depth, back := r * retries, k * r;
    RangesCompare(r, k + 1, retries);
    assert (k + 1) * r == back + r;
    WindowAgainstBound(start, last, r, retries, k, depth, back, from, now);
  }

  /** Before the last retry, that holds for everything evicted at lower records as well. */
  lemma GoBacksAboveEvictions(cfg: S.EmitterConfig, s: S.Status, envs: seq<S.Env>, earlier: nat, last: nat, head: nat)
    requires W.Bounded(cfg) && W.Recordable(cfg, last) && earlier <= last < head
    requires cfg.maxRetries + 1 < TWO_63 && cfg.filterRange * cfg.maxRetries < TWO_63
    requires s.isReorging && s.retries == 1 && !s.goBackFirstStart && s.from == W.Between(cfg, last, head).0
    requires W.AllReorg(envs) && W.StatusAfterAll(cfg, s, envs).Some?
    requires W.StatusAfterAll(cfg, s, envs).value.1 < cfg.maxRetries
    ensures E.EngineBound(E.EngineConfig(cfg.filterRange, cfg.maxRetries), earlier)
          < W.StatusAfterAll(cfg, s, envs).value.0.from
  {
    GoBacksAgainstEviction(cfg, s, envs, last, head);
    EngineBoundIs(cfg, earlier);
    EngineBoundIs(cfg, last);
  }

  /** Over the integers, the engine's bound is as many ranges below the record as there are retries. */
  lemma EngineBoundIs(cfg: S.EmitterConfig, last: nat)
    requires last < TWO_63 && cfg.filterRange * cfg.maxRetries < TWO_63
    ensures E.EngineBound(E.EngineConfig(cfg.filterRange, cfg.maxRetries), last) == last - cfg.filterRange * cfg.maxRetries
  {
    var depth := cfg.filterRange * cfg.maxRetries;
    assert Mul(cfg.filterRange, cfg.maxRetries) == depth;
    ScoreOfDifference(last, depth);
  }

  /** A block worth tracking under the policy. */
  predicate Lasting(policy: Policy, b: Block) {
    policy != Fast || b.logs != []
  }

  lemma StepKeepsAbove(cfg: Config, run: Run, round: Round, n: nat)
    requires CacheExact(cfg.policy, run)
    requires EvictionBound(cfg, run.state.lastRecorded) < Score(n)
    requires n in run.emitted && Lasting(cfg.policy, run.emitted[n]) ==> n in run.state.tracker
    ensures var next := Step(cfg, run, round);
      n in next.emitted && Lasting(cfg.policy, next.emitted[n]) ==> n in next.state.tracker
  {
    var t := Evicted(run.state.tracker, EvictionBound(cfg, run.state.lastRecorded));
    var looked := Looked(cfg.policy, t, round.from, round.to, round.answers);
    if looked.Ok? {
      LookedCoherent(cfg.policy, t, round.from, round.to, round.answers);
      EmitListing(run.emitted, FreshBlocks(looked.value), round.from, round.to + 1, n);
      SettledAt(looked.value, t, cfg.policy, round.from, round.to + 1, n);
    }
  }

  lemma {:induction false} NothingEvictedAbove(cfg: Config, rounds: seq<Round>, n: nat)
    requires n < TWO_63 && EvictsBelow(cfg, rounds, n)
    ensures var run := RunOf(cfg, rounds);
      n in run.emitted && Lasting(cfg.policy, run.emitted[n]) ==> n in run.state.tracker
    decreases |rounds|
  {
    if rounds != [] {
      var front := rounds[..|rounds| - 1];
      assert forall i :: 0 <= i <= |front| ==> front[..i] == rounds[..i];
      NothingEvictedAbove(cfg, front, n);
      CacheIsExact(cfg, front);
      assert rounds[..|front|] == front;
      StepKeepsAbove(cfg, RunOf(cfg, front), rounds[|rounds| - 1], n);
    }
  }

  /** As long as the recorded block has only grown, every block of the next normal window that was
      emitted (with logs, under PolicyFast) is still tracked when that window is polled, so if it
      changed it is reported as reorged. */
  lemma ChangeInNextWindowIsReported(ecfg: S.EmitterConfig, cfg: Config, rounds: seq<Round>, head: nat, next: Round,
                                     n: nat)
    requires W.Bounded(ecfg) && cfg.filterRange == ecfg.filterRange
    requires var last := RunOf(cfg, rounds).state.lastRecorded;
      && W.Recordable(ecfg, last) && last < head
      && (forall i :: 0 <= i <= |rounds| ==> RunOf(cfg, rounds[..i]).state.lastRecorded <= last)
      && (next.from, next.to) == W.Between(ecfg, last, head)
    requires next.from <= n <= next.to < TWO_63
    requires n in RunOf(cfg, rounds).emitted && Lasting(cfg.policy, RunOf(cfg, rounds).emitted[n])
    requires Poll(cfg, RunOf(cfg, rounds).state, next.from, next.to, next.answers).1.Polled?
    ensures var old' := RunOf(cfg, rounds).emitted[n];
      var r := Poll(cfg, RunOf(cfg, rounds).state, next.from, next.to, next.answers).1.result;
      exists g :: g in r.good && g.number == n && (Differs(old', g) <==> old' in r.reorged)
  {
    var run := RunOf(cfg, rounds);
    forall i | 0 <= i <= |rounds|
      ensures EvictionBound(cfg, RunOf(cfg, rounds[..i]).state.lastRecorded) < n
    {
      PollerBoundBelowNextWindow(ecfg, cfg.policy, RunOf(cfg, rounds[..i]).state.lastRecorded, run.state.lastRecorded, head);
    }
    NothingEvictedAbove(cfg, rounds, n);
    CacheIsExact(cfg, rounds);
    assert rounds[..|rounds|] == rounds;
    var t := Evicted(run.state.tracker, EvictionBound(cfg, run.state.lastRecorded));
    assert n in t && t[n] == run.emitted[n];
    ReorgedWereEmitted(cfg, rounds, next);
    var r := Poll(cfg, run.state, next.from, next.to, next.answers).1.result;
    var g :| g in r.good && g.number == n;
    OneGoodPerNumber(r.good, run.emitted[n], g);
  }
}
