/** The emitter's windows over the integers: single windows, reorg episodes, and progress. */
module EmitterTheory {
  import opened Words
  import opened Types
  import opened EmitterSpec

  function Max(a: int, b: int): int {
    if a >= b then a else b
  }

  function Smaller(a: int, b: int): int {
    if a <= b then a else b
  }

  ghost predicate Bounded(cfg: EmitterConfig) {
    1 <= cfg.start && 1 <= cfg.filterRange && cfg.start + cfg.filterRange + 1 < TWO_63
  }

  /** A recorded block from which no window arithmetic overflows. */
  ghost predicate Recordable(cfg: EmitterConfig, last: nat) {
    cfg.start <= last + 1 && last + cfg.filterRange + 1 < TWO_63
  }

  /** Nothing wraps in the arithmetic of a normal window. */
  lemma NormalWindowBetween(cfg: EmitterConfig, last: nat, head: nat)
    requires Bounded(cfg) && Recordable(cfg, last) && head < TWO_63
    ensures var (from, to) := NormalWindow(cfg.start, head, last, cfg.filterRange);
      && Max(cfg.start, from) == Max(cfg.start, Smaller(head, last + 1) - cfg.filterRange)
      && to == Smaller(head, last + cfg.filterRange)
  {
    AddExact(last, 1);
    AddExact(last, cfg.filterRange);
    var firstNew := Min(head, last + 1);
    if cfg.filterRange <= firstNew {
      SubExact(firstNew, cfg.filterRange);
    }
  }

  /** The window in normal mode is [max(start, min(head, last + 1) - range), min(head, last + range)],
      whatever wrapped on the way. */
  lemma NormalWindowIs(cfg: EmitterConfig, prev: Status, gateway: Gateway, last: nat, head: nat)
    requires Bounded(cfg) && Recordable(cfg, last) && head < TWO_63
    requires gateway == Found(last) || (gateway == NotFound && last == cfg.start)
    requires gateway == NotFound || !prev.goBackFirstStart
    requires !prev.isReorging && last != head
    ensures Compute(cfg, prev, gateway, Some(head)).1.NewStatus?
    ensures var next := Compute(cfg, prev, gateway, Some(head)).1.next;
      && next.from == Max(cfg.start, Smaller(head, last + 1) - cfg.filterRange)
      && next.to == Smaller(head, last + cfg.filterRange)
      && next.current == head
  {
    NormalWindowBetween(cfg, last, head);
  }

  lemma FirstRunWindowAhead(cfg: EmitterConfig, prev: Status, last: nat)
    requires Bounded(cfg) && Recordable(cfg, last) && prev.retries == 0
    ensures FirstRunWindow(cfg.start, last, cfg.filterRange, prev) == (last + 1, last + cfg.filterRange)
  {
    assert cfg.filterRange * prev.retries == 0;
    AddExact(last, 1);
    SubExact(last + 1, 0);
    AddExact(last + 1, cfg.filterRange);
    SubExact(last + 1 + cfg.filterRange, 1);
  }

  /** A first run starts right above the recorded block, and looks neither back nor at the head: it
      ends a whole range above the record, wherever the head is. */
  lemma FirstRunWindowIs(cfg: EmitterConfig, prev: Status, last: nat, head: nat)
    requires Bounded(cfg) && Recordable(cfg, last)
    requires prev.goBackFirstStart && prev.retries == 0
    ensures Compute(cfg, prev, Found(last), Some(head)).1.NewStatus?
    ensures var next := Compute(cfg, prev, Found(last), Some(head)).1.next;
      && next.from == last + 1
      && next.to == last + cfg.filterRange
      && next.current == head
  {
    FirstRunWindowAhead(cfg, prev, last);
  }

  /** Going back: one range below the previous window, but not below the start block. */
  lemma ReorgingWindowIs(cfg: EmitterConfig, prev: Status, gateway: Gateway, last: nat, head: nat)
    requires Bounded(cfg) && prev.from < TWO_63
    requires gateway == Found(last) || (gateway == NotFound && last == cfg.start)
    requires gateway == NotFound || !prev.goBackFirstStart
    requires prev.isReorging && last != head
    ensures prev.retries > cfg.maxRetries <==> Compute(cfg, prev, gateway, Some(head)).1 == MaxRetriesReached
    ensures prev.retries <= cfg.maxRetries ==>
      && Compute(cfg, prev, gateway, Some(head)).1.NewStatus?
      && var next := Compute(cfg, prev, gateway, Some(head)).1.next;
      && next.from == Max(cfg.start, prev.from - cfg.filterRange)
      && next.to == Smaller(prev.to, head)
      && next.current == head && next.retries == prev.retries
  {
  }

  // ----- reorg episodes -----

  /** The loop's status after the iterations of a session that have not ended it. */
  function StatusAfterAll(cfg: EmitterConfig, status: Status, envs: seq<Env>): Option<(Status, nat)>
    decreases |envs|
  {
    if envs == [] then Some((status, 0))
    else
      match StatusAfterAll(cfg, status, envs[..|envs| - 1])
      case None => None
      case Some(p) =>
        match Iterate(cfg, p.0, envs[|envs| - 1])
        case Skipped(left) => Some((left, p.1))
        case Emitted(_, next) => Some((next, p.1 + 1))
        case _ => None
  }

  ghost predicate AllReorg(envs: seq<Env>) {
    forall i :: 0 <= i < |envs| ==> envs[i].poll == FromReorged
  }

  /** k ranges below `from`, one at a time. */
  function Back(from: int, filterRange: nat, k: nat): (r: int)
    ensures r <= from
  {
    if k == 0 then from else Back(from, filterRange, k - 1) - filterRange
  }

  lemma {:induction false} BackIs(from: int, filterRange: nat, k: nat)
    ensures Back(from, filterRange, k) == from - k * filterRange
  {
    if k > 0 {
      BackIs(from, filterRange, k - 1);
      assert k * filterRange == (k - 1) * filterRange + filterRange;
    }
  }

  ghost predicate InEpisode(cfg: EmitterConfig, s: Status, now: Status, k: nat) {
    && now.from == Max(cfg.start, Back(s.from, cfg.filterRange, k))
    && now.to <= s.to
    && now.retries == k + 1
    && k <= cfg.maxRetries
    && now.isReorging && !now.goBackFirstStart
  }

  lemma {:induction false} EpisodeGoesBack(cfg: EmitterConfig, s: Status, envs: seq<Env>)
    requires Bounded(cfg) && cfg.maxRetries + 1 < TWO_63
    requires s.isReorging && s.retries == 1 && !s.goBackFirstStart && cfg.start <= s.from < TWO_63
    requires AllReorg(envs) && StatusAfterAll(cfg, s, envs).Some?
    ensures var p := StatusAfterAll(cfg, s, envs).value; InEpisode(cfg, s, p.0, p.1)
    decreases |envs|
  {
    if envs != [] {
      var front, env := envs[..|envs| - 1], envs[|envs| - 1];
      EpisodeGoesBack(cfg, s, front);
      var p := StatusAfterAll(cfg, s, front).value;
      EpisodeStep(cfg, p.0, env, Back(s.from, cfg.filterRange, p.1));
    }
  }

  /** An episode begins when the poll of window [f, t] finds its first block reorged. As long as every
      further poll finds the same, after k go-back polls the window starts at exactly
      max(start, f - k * range), its end has not grown, k + 1 retries are counted, and k is at most
      the configured maximum. */
  lemma Episode(cfg: EmitterConfig, s: Status, envs: seq<Env>)
    requires Bounded(cfg) && cfg.maxRetries + 1 < TWO_63
    requires s.isReorging && s.retries == 1 && !s.goBackFirstStart && cfg.start <= s.from < TWO_63
    requires AllReorg(envs) && StatusAfterAll(cfg, s, envs).Some?
    ensures var (now, k) := StatusAfterAll(cfg, s, envs).value;
      && now.from == Max(cfg.start, s.from - k * cfg.filterRange)
      && now.to <= s.to
      && now.retries == k + 1
      && k <= cfg.maxRetries
  {
    EpisodeGoesBack(cfg, s, envs);
    BackIs(s.from, cfg.filterRange, StatusAfterAll(cfg, s, envs).value.1);
  }

  lemma EpisodeStep(cfg: EmitterConfig, now: Status, env: Env, start: int)
    requires Bounded(cfg) && cfg.maxRetries + 1 < TWO_63
    requires now.isReorging && !now.goBackFirstStart && env.poll == FromReorged
    requires now.from == Max(cfg.start, start) && start < TWO_63
    ensures var i := Iterate(cfg, now, env);
      match i
      case Skipped(left) => left == now
      case Emitted(_, next) =>
        && next.from == Max(cfg.start, start - cfg.filterRange) && next.to <= now.to
        && next.retries == now.retries + 1 && now.retries <= cfg.maxRetries
        && next.isReorging && !next.goBackFirstStart
      case _ => true
  {
    if Iterate(cfg, now, env).Emitted? {
      var last := if env.gateway.NotFound? then cfg.start else env.gateway.last;
      ReorgingWindowIs(cfg, now, env.gateway, last, env.head.value);
    }
  }

  /** The attempt after k go-back polls ends the loop exactly when k is the configured maximum. */
  lemma EpisodeEnds(cfg: EmitterConfig, s: Status, envs: seq<Env>, last: nat, head: nat)
    requires Bounded(cfg) && cfg.maxRetries + 1 < TWO_63
    requires s.isReorging && s.retries == 1 && !s.goBackFirstStart && cfg.start <= s.from < TWO_63
    requires AllReorg(envs) && StatusAfterAll(cfg, s, envs).Some?
    requires last != head
    ensures var (now, k) := StatusAfterAll(cfg, s, envs).value;
      Compute(cfg, now, Found(last), Some(head)).1 == MaxRetriesReached <==> k == cfg.maxRetries
  {
    EpisodeGoesBack(cfg, s, envs);
    var p := StatusAfterAll(cfg, s, envs).value;
    ReorgingWindowIs(cfg, p.0, Found(last), last, head);
  }

  // ----- progress without reorgs -----

  /** The window computed in normal mode, as a pair. */
  function Between(cfg: EmitterConfig, last: nat, head: nat): (int, int) {
    (Max(cfg.start, Smaller(head, last + 1) - cfg.filterRange), Smaller(head, last + cfg.filterRange))
  }

  /** When the head has grown past both windows, what one window newly covers lies in the next one
      too, so every block is polled at least twice. */
  lemma DoubleSighting(cfg: EmitterConfig, last: nat, head: nat, head': nat, n: nat)
    requires Bounded(cfg) && Recordable(cfg, last) && last < head
    requires var to := Between(cfg, last, head).1; to < head'
    requires last < n <= Between(cfg, last, head).1
    ensures var to := Between(cfg, last, head).1;
      && last < to
      && Between(cfg, last, head).0 <= n
      && Between(cfg, to, head').0 <= n <= Between(cfg, to, head').1
  {
  }

  /** The recorded block after k clean normal iterations at a standing head. */
  function Recorded(cfg: EmitterConfig, last: nat, head: nat, k: nat): nat
    requires last <= head
    ensures Recorded(cfg, last, head, k) <= head
  {
    if k == 0 then last
    else
      var r := Recorded(cfg, last, head, k - 1);
      if r == head then r else Smaller(head, r + cfg.filterRange)
  }

  /** A standing head is reached in exactly ceil((head - last) / range) iterations. */
  lemma {:induction false} Progress(cfg: EmitterConfig, last: nat, head: nat, k: nat)
    requires 1 <= cfg.filterRange && last <= head
    ensures Recorded(cfg, last, head, k) == Smaller(head, last + k * cfg.filterRange)
    ensures Recorded(cfg, last, head, k) == head <==> k >= Ceiling(head - last, cfg.filterRange)
  {
    if k > 0 {
      Progress(cfg, last, head, k - 1);
      assert k * cfg.filterRange == (k - 1) * cfg.filterRange + cfg.filterRange;
    }
    CeilingDivision(head - last, cfg.filterRange, k);
  }

  /** d / r, rounded up. */
  function Ceiling(d: nat, r: nat): nat
    requires 1 <= r
  {
    (d + r - 1) / r
  }

  lemma CeilingDivision(d: nat, r: nat, k: nat)
    requires 1 <= r
    ensures k * r >= d <==> k >= Ceiling(d, r)
  {
    var q := Ceiling(d, r);
    assert q * r <= d + r - 1 < q * r + r;
    if k >= q {
      assert k * r >= q * r;
    } else {
      assert k * r <= (q - 1) * r == q * r - r;
    }
  }

  lemma RecordedReaches(cfg: EmitterConfig, last: nat, head: nat, k: nat, saved: Option<nat>)
    requires 1 <= cfg.filterRange && last <= head && saved == Some(Recorded(cfg, last, head, k))
    ensures saved == Some(Smaller(head, last + k * cfg.filterRange))
    ensures saved == Some(head) <==> k >= Ceiling(head - last, cfg.filterRange)
  {
    Progress(cfg, last, head, k);
  }

  /** Each of those iterations is the loop's: the loop at `r` polls a window ending at the next
      recorded block. */
  lemma ProgressStep(cfg: EmitterConfig, status: Status, last: nat, head: nat, k: nat)
    requires Bounded(cfg) && Recordable(cfg, head) && cfg.start <= last + 1 && last <= head
    requires !status.isReorging && !status.goBackFirstStart
    requires Recorded(cfg, last, head, k) < head
    ensures var i := Iterate(cfg, status, Env(Found(Recorded(cfg, last, head, k)), Some(head), Clean));
      && i.Emitted?
      && (i.next.from, i.next.to) == Between(cfg, Recorded(cfg, last, head, k), head)
      && i.next.to == Recorded(cfg, last, head, k + 1)
      && Recorded(cfg, last, head, k) < i.next.to
      && !i.next.isReorging && !i.next.goBackFirstStart
  {
    Progress(cfg, last, head, k);
    assert k * cfg.filterRange >= 0;
    NormalWindowIs(cfg, status, Found(Recorded(cfg, last, head, k)), Recorded(cfg, last, head, k), head);
  }
}
