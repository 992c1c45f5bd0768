/** Without go-back retries the engine forgets blocks that the poller still tracks, and panics when
    one of them is reorged. */
module WatcherCrash {
  import opened Words
  import opened Types
  import opened Listings
  import opened PollSpec
  import opened PollTheory
  import opened PollViews
  import PollRuns
  import E = EngineSpec
  import K = EngineCalls
  import opened Watcher
  import opened WatcherNumbers

  /** No honest run panics. */
  ghost predicate NeverCrashes(cfg: WatcherConfig) {
    forall book: Book, rounds: seq<Round> :: HonestRun(cfg, book, rounds) ==> !RunOf(cfg, rounds).Crashed?
  }

  /** Nor does any run in which a hash fixes its number, whatever else the chain does. */
  ghost predicate NeverCrashesPlain(cfg: WatcherConfig) {
    forall numbers: Numbering, rounds: seq<Round> :: PlainRun(cfg, numbers, rounds) ==> !RunOf(cfg, rounds).Crashed?
  }

  const BEFORE := Hash(1)
  const AFTER := Hash(2)

  function TheLog(start: nat, h: Hash): Log {
    Log(start + 1, h, Hash(0), 0)
  }

  function Middle(start: nat, h: Hash): Block {
    Block(false, start + 1, h, [TheLog(start, h)])
  }

  /** Three blocks; the one in the middle has the hash `h`, and the only log. */
  function ChainOf(start: nat, h: Hash): map<nat, Block> {
    map[start := Block(false, start, Hash(0), []),
        start + 1 := Middle(start, h),
        start + 2 := Block(false, start + 2, Hash(3), [])]
  }

  function HeadersOf(start: nat, h: Hash): map<nat, Hash> {
    map[start := Hash(0), start + 1 := h, start + 2 := Hash(3)]
  }

  function Showing(start: nat, h: Hash): Answers {
    Answers(Some([TheLog(start, h)]), HeadersOf(start, h), HeadersOf(start, h))
  }

  const CONSENT := E.Reply(Some(map[]), Some(map[]), true)

  function Polling(start: nat, h: Hash, from: nat, to: nat): Round {
    Round(from, to, Showing(start, h), CONSENT)
  }

  /** What the four hashes stand for. */
  function BookOf(start: nat): Book {
    map[Hash(0) := Content(start, []),
        BEFORE := Content(start + 1, [TheLog(start, BEFORE)]),
        AFTER := Content(start + 1, [TheLog(start, AFTER)]),
        Hash(3) := Content(start + 2, [])]
  }

  ghost predicate Window(start: nat, from: nat, to: nat) {
    start <= from <= start + 1 <= to <= start + 2
  }

  lemma ChainAt(start: nat, h: Hash, n: nat)
    requires start <= n <= start + 2
    ensures var b := ChainOf(start, h)[n];
      && n in ChainOf(start, h) && b.number == n && !b.migrated
      && n in HeadersOf(start, h) && HeadersOf(start, h)[n] == b.hash
      && b.logs == if n == start + 1 then [TheLog(start, h)] else []
  {
  }

  lemma ShowingShows(start: nat, h: Hash, from: nat, to: nat)
    requires Window(start, from, to)
    ensures Shows(ChainOf(start, h), from, to, Showing(start, h))
  {
    var v, logs := ChainOf(start, h), [TheLog(start, h)];
    forall n | start <= n <= start + 2
      ensures n in v && LogsAt(logs, n) == v[n].logs
      ensures n in HeadersOf(start, h) && HeadersOf(start, h)[n] == v[n].hash
    {
      ChainAt(start, h, n);
      LogsAtOwn(logs, start + 1, n);
    }
  }

  /** A poll of the three blocks sees the middle one as it is. */
  lemma Seen(policy: Policy, t: map<nat, Block>, start: nat, h: Hash, from: nat, to: nat)
    requires policy != ExpensiveBlock && Window(start, from, to)
    ensures Looked(policy, t, from, to, Showing(start, h)).Ok?
    ensures var m := Looked(policy, t, from, to, Showing(start, h)).value;
      && Coherent(policy, t, m, from, to)
      && start + 1 in m && m[start + 1].block.(migrated := false) == Middle(start, h)
      && forall n :: n in m ==> start <= n <= start + 2 && m[n].block.(migrated := false) == ChainOf(start, h)[n]
  {
    ShowingShows(start, h, from, to);
    LookedView(policy, t, from, to, Showing(start, h), ChainOf(start, h));
    assert ChainOf(start, h)[start + 1] == Middle(start, h);
  }

  lemma ChainEntered(start: nat, h: Hash, n: nat, b: Block)
    requires (h == BEFORE || h == AFTER) && start <= n <= start + 2
    requires b.(migrated := false) == ChainOf(start, h)[n]
    ensures Entered(BookOf(start), b)
  {
  }

  /** The good blocks of such a poll are in the book. */
  lemma GoodsEntered(policy: Policy, t: map<nat, Block>, start: nat, h: Hash, from: nat, to: nat, m: map<nat, Fresh>)
    requires policy != ExpensiveBlock && Window(start, from, to) && (h == BEFORE || h == AFTER)
    requires Looked(policy, t, from, to, Showing(start, h)) == Ok(m)
    ensures forall g :: g in Report(m, t, from, to).good ==> Entered(BookOf(start), g)
  {
    Seen(policy, t, start, h, from, to);
    PollRuns.GoodMembers(policy, t, m, from, to);
    forall g | g in Report(m, t, from, to).good
      ensures Entered(BookOf(start), g)
    {
      ChainEntered(start, h, g.number, g);
    }
  }

  lemma PollingIsHonest(cfg: WatcherConfig, book: Book, w: World, start: nat, h: Hash, round: Round)
    requires cfg.policy != ExpensiveBlock && Window(start, round.from, round.to) && (h == BEFORE || h == AFTER)
    requires book == BookOf(start) && round == Polling(start, h, round.from, round.to)
    requires w.retired == {} && 1 <= round.from && round.to < TWO_63
    ensures Honest(cfg, book, w, round)
  {
    Seen(cfg.policy, Spared(cfg, w), start, h, round.from, round.to);
    GoodsEntered(cfg.policy, Spared(cfg, w), start, h, round.from, round.to,
                 Looked(cfg.policy, Spared(cfg, w), round.from, round.to, Showing(start, h)).value);
  }

  /** The world after the first round: the block in the middle is tracked, and the engine knows nothing. */
  ghost predicate Forgotten(start: nat, w: World) {
    && w.metas == map[] && w.retired == {}
    && w.poller.lastRecorded == start + 1
    && start + 1 in w.poller.tracker
    && w.poller.tracker[start + 1] == Middle(start, BEFORE)
  }

  /** Without retries the engine's bound is the LastGoodBlock itself. */
  lemma BoundWithoutRetries(cfg: E.EngineConfig, last: nat)
    requires cfg.maxRetries == 0 && last < TWO_63
    ensures E.EngineBound(cfg, last) == last
  {
    assert cfg.filterRange * 0 == 0;
  }

  lemma NothingReorged(policy: Policy, m: map<nat, Fresh>, from: nat, to: nat)
    requires Coherent(policy, map[], m, from, to)
    ensures Report(m, map[], from, to).reorged == [] && Report(m, map[], from, to).lastGood == to
    ensures forall n :: n in m ==> !m[n].forked
  {
    PollRuns.ReorgedMembers(policy, map[], m, from, to);
    assert forall n :: n in m ==> CoherentAt(policy, map[], m, from, to, n);
    var reorged := Report(m, map[], from, to).reorged;
    assert forall b :: b !in reorged;
  }

  /** An engine that knows nothing serves good blocks and, without retries, forgets them at once. */
  lemma ServedAndForgotten(cfg: E.EngineConfig, book: Book, r: PollerResult)
    requires cfg.maxRetries == 0 && r.reorged == [] && r.lastGood == r.to < TWO_63
    requires Ascending(r.good) && forall g :: g in r.good ==> Entered(book, g) && g.number <= r.to
    ensures var s := E.EngineStep(cfg, map[], r, CONSENT);
      s.Done? && s.metas == map[]
  {
    var none: map<Hash, E.Meta> := map[];
    BoundWithoutRetries(cfg, r.lastGood);
    EnteredDistinct(book, r.good);
    assert CleanInput(none, {}, r);
    assert E.SeeReorgs(none, []) == E.Pass(none, [], []);
    var s := E.Serve(none, r, CONSENT);
    assert s.Served?;
    forall h ensures CleanOutput(none, r, s.metas, h) {
      CleanServe(none, {}, r, CONSENT, h);
    }
    forall h | h in s.metas
      ensures s.metas[h].number <= r.to
    {
      assert CleanOutput(none, r, s.metas, h) && ListedAs(r.good, h, s.metas[h].number);
    }
    assert E.Cleared(s.metas, r.lastGood) == map[];
  }

  /** The first poll, by a poller that tracks nothing. */
  lemma FirstPoll(policy: Policy, start: nat, m: map<nat, Fresh>)
    requires policy != ExpensiveBlock
    requires Looked(policy, map[], start, start + 1, Showing(start, BEFORE)) == Ok(m)
    ensures var r := Report(m, map[], start, start + 1);
      && r.reorged == [] && r.lastGood == start + 1
      && Ascending(r.good) && (forall g :: g in r.good ==> Entered(BookOf(start), g) && g.number <= start + 1)
    ensures start in m ==> !m[start].forked
    ensures var t := Settled(m, map[], policy, start, start + 2);
      start + 1 in t && t[start + 1] == Middle(start, BEFORE)
  {
    Seen(policy, map[], start, BEFORE, start, start + 1);
    NothingReorged(policy, m, start, start + 1);
    PollRuns.GoodMembers(policy, map[], m, start, start + 1);
    GoodsEntered(policy, map[], start, BEFORE, start, start + 1, m);
    SettledAt(m, map[], policy, start, start + 2, start + 1);
    assert CoherentAt(policy, map[], m, start, start + 1, start + 1);
  }

  lemma FirstRound(cfg: WatcherConfig, start: nat, round: Round)
    requires cfg.maxRetries == 0 && cfg.policy != ExpensiveBlock && start + 1 < TWO_63
    requires round == Polling(start, BEFORE, start, start + 1)
    ensures Take(cfg, EMPTY, round).Going? && Forgotten(start, Take(cfg, EMPTY, round).world)
    ensures var o := Poll(cfg.Poller(), EMPTY.poller, round.from, round.to, round.answers).1;
      o.Polled? && !o.fromReorged && o.result.lastGood == start + 1
  {
    assert Spared(cfg, EMPTY) == map[];
    Seen(cfg.policy, map[], start, BEFORE, start, start + 1);
    var m := Looked(cfg.policy, map[], start, start + 1, Showing(start, BEFORE)).value;
    FirstPoll(cfg.policy, start, m);
    var r := Report(m, map[], start, start + 1);
    ServedAndForgotten(cfg.Engine(), BookOf(start), r);
    RoundGoes(cfg, EMPTY, round, map[], m, map[]);
    assert Hashes([]) == {};
  }

  /** A round whose poll sees `m` and whose engine iteration comes to its end. */
  lemma RoundGoes(cfg: WatcherConfig, w: World, round: Round, t: map<nat, Block>, m: map<nat, Fresh>,
                  metas: map<Hash, E.Meta>)
    requires t == Spared(cfg, w) && Looked(cfg.policy, t, round.from, round.to, round.answers) == Ok(m)
    requires var s := E.EngineStep(cfg.Engine(), w.metas, Report(m, t, round.from, round.to), round.reply);
      s.Done? && s.metas == metas
    ensures var r := Report(m, t, round.from, round.to);
      && Poll(cfg.Poller(), w.poller, round.from, round.to, round.answers).1
           == Polled(r, round.from in m && m[round.from].forked)
      && Take(cfg, w, round) ==
           Going(World(PollerState(Settled(m, t, cfg.policy, round.from, round.to + 1), r.lastGood), metas,
                       Some(r.lastGood), w.retired + Hashes(r.reorged)))
  {
    PollReports(cfg.Poller(), w.poller, round.from, round.to, round.answers, m);
    TakeServed(cfg, w, round, Report(m, t, round.from, round.to));
  }

  lemma StillTracked(cfg: WatcherConfig, start: nat, w: World)
    requires 1 <= cfg.filterRange < TWO_63 && start + 1 < TWO_63 && Forgotten(start, w)
    ensures start + 1 in Spared(cfg, w) && Spared(cfg, w)[start + 1] == Middle(start, BEFORE)
  {
    ScoreOfDifference(start + 1, cfg.filterRange);
  }

  /** The block in the middle has another hash now: the poller reports its reorg to an engine that has
      no metadata for it. */
  lemma SecondRound(cfg: WatcherConfig, start: nat, w: World, round: Round)
    requires 1 <= cfg.filterRange < TWO_63 && cfg.policy != ExpensiveBlock && start + 1 < TWO_63
    requires Forgotten(start, w) && start <= round.from <= start + 1
    requires round == Polling(start, AFTER, round.from, start + 2)
    ensures Take(cfg, w, round).Crashed?
  {
    var t := Spared(cfg, w);
    StillTracked(cfg, start, w);
    Seen(cfg.policy, t, start, AFTER, round.from, start + 2);
    var m := Looked(cfg.policy, t, round.from, start + 2, Showing(start, AFTER)).value;
    SpotsReorg(cfg.policy, t, m, round.from, start + 2, start + 1);
    RoundCrashes(cfg, w, round, t, m, t[start + 1]);
  }

  lemma RoundCrashes(cfg: WatcherConfig, w: World, round: Round, t: map<nat, Block>, m: map<nat, Fresh>, b: Block)
    requires t == Spared(cfg, w) && Looked(cfg.policy, t, round.from, round.to, round.answers) == Ok(m)
    requires w.metas == map[] && b in Report(m, t, round.from, round.to).reorged
    ensures Take(cfg, w, round).Crashed?
  {
    var r := Report(m, t, round.from, round.to);
    K.SeeReorgsPasses(w.metas, r.reorged);
    PollReports(cfg.Poller(), w.poller, round.from, round.to, round.answers, m);
    TakeServed(cfg, w, round, r);
  }

  lemma SpotsReorg(policy: Policy, t: map<nat, Block>, m: map<nat, Fresh>, from: nat, to: nat, n: nat)
    requires Coherent(policy, t, m, from, to) && Forks(m, t, from, to, n) && t[n].number == n
    ensures t[n] in Report(m, t, from, to).reorged
  {
    assert CoherentAt(policy, t, m, from, to, n);
    ListingMembers(Replaced(m, t), from, to + 1);
    assert Replaced(m, t)[n] in Listing(Replaced(m, t), from, to + 1);
  }

  lemma HonestTwo(cfg: WatcherConfig, book: Book, first: Round, second: Round, w: World)
    requires Take(cfg, EMPTY, first) == Going(w)
    requires Honest(cfg, book, EMPTY, first) && Honest(cfg, book, w, second)
    ensures HonestRun(cfg, book, [first, second]) && RunOf(cfg, [first, second]) == Take(cfg, w, second)
  {
    var rounds := [first, second];
    assert rounds[..1] == [first] && [first][..0] == [] && rounds[..0] == [];
    forall i | 0 <= i < |rounds| && RunOf(cfg, rounds[..i]).Going?
      ensures Honest(cfg, book, RunOf(cfg, rounds[..i]).world, rounds[i])
    {
      assert i == 0 || i == 1;
    }
  }

  /** The blocks up to start + 1 are polled, then a window that holds block start + 1 again, under
      another hash. */
  lemma CrashWithoutRetries(cfg: WatcherConfig, start: nat, from: nat)
    requires Sensible(cfg) && cfg.maxRetries == 0 && cfg.policy != ExpensiveBlock
    requires 1 <= start <= from <= start + 1 && start + 2 < TWO_63
    ensures var rounds := [Polling(start, BEFORE, start, start + 1), Polling(start, AFTER, from, start + 2)];
      HonestRun(cfg, BookOf(start), rounds) && RunOf(cfg, rounds).Crashed?
  {
    var first, second := Polling(start, BEFORE, start, start + 1), Polling(start, AFTER, from, start + 2);
    FirstRound(cfg, start, first);
    CrashAfter(cfg, BookOf(start), start, first, second, Take(cfg, EMPTY, first).world);
  }

  lemma CrashAfter(cfg: WatcherConfig, book: Book, start: nat, first: Round, second: Round, w: World)
    requires 1 <= cfg.filterRange < TWO_63 && cfg.policy != ExpensiveBlock
    requires 1 <= start <= second.from <= start + 1 && start + 2 < TWO_63 && book == BookOf(start)
    requires first == Polling(start, BEFORE, start, start + 1) && second == Polling(start, AFTER, second.from, start + 2)
    requires Take(cfg, EMPTY, first) == Going(w) && Forgotten(start, w)
    ensures HonestRun(cfg, book, [first, second]) && RunOf(cfg, [first, second]).Crashed?
  {
    SecondRound(cfg, start, w, second);
    PollingIsHonest(cfg, book, EMPTY, start, BEFORE, first);
    PollingIsHonest(cfg, book, w, start, AFTER, second);
    HonestTwo(cfg, book, first, second, w);
  }

  /** Exactly the configurations with at least one go-back retry never panic, in honest runs and in all
      runs in which a hash fixes its number alike. */
  lemma NeverCrashesIff(cfg: WatcherConfig)
    requires Sensible(cfg) && cfg.policy != ExpensiveBlock
    ensures NeverCrashes(cfg) <==> 1 <= cfg.maxRetries
    ensures NeverCrashesPlain(cfg) <==> 1 <= cfg.maxRetries
  {
    if 1 <= cfg.maxRetries {
      NeverCrashesWithRetries(cfg);
    } else {
      CrashWithoutRetries(cfg, 1, 1);
      HonestIsPlain(cfg, BookOf(1), [Polling(1, BEFORE, 1, 2), Polling(1, AFTER, 1, 3)]);
    }
  }

  lemma NeverCrashesWithRetries(cfg: WatcherConfig)
    requires Sensible(cfg) && 1 <= cfg.maxRetries
    ensures NeverCrashes(cfg) && NeverCrashesPlain(cfg)
  {
    forall numbers: Numbering, rounds: seq<Round> | PlainRun(cfg, numbers, rounds)
      ensures !RunOf(cfg, rounds).Crashed?
    {
      PlainRunNeverCrashes(cfg, numbers, rounds);
    }
    forall book: Book, rounds: seq<Round> | HonestRun(cfg, book, rounds)
      ensures !RunOf(cfg, rounds).Crashed?
    {
      HonestIsPlain(cfg, book, rounds);
    }
  }
}
