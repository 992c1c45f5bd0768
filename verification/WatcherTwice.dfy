/** A run of the whole program in which an honest chain makes it give one hash to the service twice: the
    record drops by more than the engine remembers. */
module WatcherTwice {
  import opened Words
  import opened Types
  import opened Listings
  import opened PollSpec
  import opened PollTheory
  import opened PollViews
  import opened EmitterSpec
  import PollRuns
  import B = EmitterTheory
  import E = EngineSpec
  import T = EngineTheory
  import Q = EngineRepeats
  import W = Watcher
  import N = WatcherNumbers
  import C = WatcherCrash
  import P = WatcherPanics
  import opened WatcherRuns
  import opened WatcherRepeats

  // ----- a turn over one view of the chain -----

  /** The round shows the chain `v` in its window, and service and gateway consent. */
  ghost predicate ShowsRound(policy: Policy, round: W.Round, v: map<nat, Block>) {
    policy != ExpensiveBlock && Shows(v, round.from, round.to, round.answers) && round.reply == C.CONSENT
  }

  /** What the poller's fresh data is then. */
  ghost predicate Saw(policy: Policy, t: map<nat, Block>, m: map<nat, Fresh>, round: W.Round, v: map<nat, Block>) {
    && Looked(policy, t, round.from, round.to, round.answers) == Ok(m)
    && Coherent(policy, t, m, round.from, round.to)
    && (forall n :: round.from <= n <= round.to ==> n in v)
    && (forall n :: n in m ==> round.from <= n <= round.to && m[n].block.(migrated := false) == v[n])
    && (forall n :: round.from <= n <= round.to && v[n].logs != [] ==> n in m)
  }

  lemma RoundSees(cfg: W.WatcherConfig, w: W.World, round: W.Round, v: map<nat, Block>) returns (m: map<nat, Fresh>)
    requires ShowsRound(cfg.policy, round, v)
    ensures Saw(cfg.policy, W.Spared(cfg, w), m, round, v)
  {
    LookedView(cfg.policy, W.Spared(cfg, w), round.from, round.to, round.answers, v);
    m := Looked(cfg.policy, W.Spared(cfg, w), round.from, round.to, round.answers).value;
  }

  lemma ConsentIsDone(cfg: E.EngineConfig, e: map<Hash, E.Meta>, r: PollerResult)
    requires !E.EngineStep(cfg, e, r, C.CONSENT).Crash?
    ensures E.EngineStep(cfg, e, r, C.CONSENT).Done?
  {
  }

  /** What such a round reports, and the world it leaves. */
  ghost predicate Reported(cfg: W.WatcherConfig, w: W.World, round: W.Round, t: map<nat, Block>, m: map<nat, Fresh>) {
    var r := Report(m, t, round.from, round.to);
    && Poll(cfg.Poller(), w.poller, round.from, round.to, round.answers).1
         == Polled(r, round.from in m && m[round.from].forked)
    && W.Take(cfg, w, round).Going?
    && W.Take(cfg, w, round).world.poller == PollerState(Settled(m, t, cfg.policy, round.from, round.to + 1), r.lastGood)
    && W.Take(cfg, w, round).world.retired == w.retired + W.Hashes(r.reorged)
  }

  lemma RoundReports(cfg: W.WatcherConfig, w: W.World, round: W.Round, v: map<nat, Block>, m: map<nat, Fresh>)
    requires ShowsRound(cfg.policy, round, v) && Saw(cfg.policy, W.Spared(cfg, w), m, round, v)
    requires !W.Take(cfg, w, round).Crashed?
    ensures Reported(cfg, w, round, W.Spared(cfg, w), m)
  {
    ServedReports(cfg, w, round, W.Spared(cfg, w), m);
  }

  lemma ServedReports(cfg: W.WatcherConfig, w: W.World, round: W.Round, t: map<nat, Block>, m: map<nat, Fresh>)
    requires t == W.Spared(cfg, w) && Looked(cfg.policy, t, round.from, round.to, round.answers) == Ok(m)
    requires round.reply == C.CONSENT && !W.Take(cfg, w, round).Crashed?
    ensures Reported(cfg, w, round, t, m)
  {
    var r := Report(m, t, round.from, round.to);
    PollReports(cfg.Poller(), w.poller, round.from, round.to, round.answers, m);
    W.TakeServed(cfg, w, round, r);
    ConsentIsDone(cfg.Engine(), w.metas, r);
  }

  /** The chain is honest in such a round when its blocks are in the book and were never replaced. */
  lemma ViewKeepsToBook(cfg: W.WatcherConfig, book: W.Book, w: W.World, round: W.Round, v: map<nat, Block>)
    requires ShowsRound(cfg.policy, round, v)
    requires Honest(book, w, round, v)
    ensures W.KeepsToBook(cfg, book, w, round)
  {
    var m := RoundSees(cfg, w, round, v);
    var t := W.Spared(cfg, w);
    PollReports(cfg.Poller(), w.poller, round.from, round.to, round.answers, m);
    PollRuns.GoodMembers(cfg.policy, t, m, round.from, round.to);
    forall g | g in Report(m, t, round.from, round.to).good
      ensures W.Entered(book, g) && g.hash !in w.retired
    {
      assert g.(migrated := false) == v[g.number];
      assert W.Entered(book, v[g.number]);
    }
  }

  lemma ListsSeen(policy: Policy, t: map<nat, Block>, m: map<nat, Fresh>, round: W.Round, v: map<nat, Block>, n: nat)
    requires Saw(policy, t, m, round, v) && round.from <= n <= round.to && v[n].logs != []
    ensures var r := Report(m, t, round.from, round.to);
      Q.Listed(v[n].hash, r.good) && exists g :: g in r.good && g.number == n
  {
    PollRuns.GoodMembers(policy, t, m, round.from, round.to);
    var g := m[n].block;
    assert g.(migrated := false) == v[n];
    assert CoherentAt(policy, t, m, round.from, round.to, n);
    assert g in Report(m, t, round.from, round.to).good && g.number == n;
  }

  lemma TracksSeen(policy: Policy, t: map<nat, Block>, m: map<nat, Fresh>, round: W.Round, v: map<nat, Block>, n: nat)
    requires Saw(policy, t, m, round, v) && round.from <= n <= round.to && v[n].logs != []
    ensures var t' := Settled(m, t, policy, round.from, round.to + 1); n in t' && t'[n].hash == v[n].hash
  {
    SettledAt(m, t, policy, round.from, round.to + 1, n);
    assert m[n].block.(migrated := false) == v[n];
  }

  lemma EmitterGoes(cfg: EmitterConfig, policy: Policy, s: System, turn: Turn, next: Status, o: Outcome)
    requires turn.Turn? && WindowOf(cfg, s, turn.head) == NewStatus(next)
    requires o == OutcomeOf(cfg, policy, s, next, turn) && o.Polled? && Advance(cfg, policy, s, turn).On?
    ensures var e := Advance(cfg, policy, s, turn).system.emitting;
      e.saved == Some(o.result.lastGood) && e.status == Updated(next, o.fromReorged)
    ensures !next.goBackFirstStart
  {
    EngineSaves(cfg, policy, s, next, turn);
    P.EmitterTakes(cfg, s.emitting, EmitterTurn(turn.head, o, W.Take(ConfigOf(cfg, policy), s.world, RoundOf(next, turn)).world.saved), next, o.fromReorged);
  }

  // ----- the chain -----

  const LOW := Hash(1)
  const BEFORE := Hash(2)
  const AFTER := Hash(3)
  const TOP := Hash(4)

  function Blk(n: nat, h: Hash): Block {
    Block(false, n, h, [Log(n, h, Hash(0), 0)])
  }

  function ChainOf(start: nat, h: Hash): map<nat, Block> {
    map[start := Blk(start, LOW), start + 1 := Blk(start + 1, h), start + 2 := Blk(start + 2, TOP)]
  }

  function ContentOf(n: nat, h: Hash): W.Content {
    W.Content(n, Blk(n, h).logs)
  }

  function BookOf(start: nat): W.Book {
    map[LOW := ContentOf(start, LOW), BEFORE := ContentOf(start + 1, BEFORE),
        AFTER := ContentOf(start + 1, AFTER), TOP := ContentOf(start + 2, TOP)]
  }

  /** The three blocks as the book has them; the middle one has the hash `h`. */
  ghost predicate ViewOf(book: W.Book, start: nat, h: Hash, v: map<nat, Block>) {
    && (forall n :: start <= n <= start + 2 ==> n in v && W.Entered(book, v[n]) && v[n].logs != [])
    && v[start].hash == LOW && v[start + 1].hash == h && v[start + 2].hash == TOP
  }

  /** The head stands at `head`, the node shows the chain in the window, and all consent. */
  ghost predicate ShowsTurn(turn: Turn, head: nat, from: nat, to: nat, v: map<nat, Block>) {
    turn.Turn? && turn.head == Some(head) && turn.reply == C.CONSENT && Shows(v, from, to, turn.answers)
  }

  lemma ChainIsView(start: nat, h: Hash)
    requires h == BEFORE || h == AFTER
    ensures ViewOf(BookOf(start), start, h, ChainOf(start, h)) && WellFormed(ChainOf(start, h))
  {
    var v := ChainOf(start, h);
    assert v[start] == Blk(start, LOW) && v[start + 1] == Blk(start + 1, h) && v[start + 2] == Blk(start + 2, TOP);
    forall n | start <= n <= start + 2
      ensures n in v && W.Entered(BookOf(start), v[n]) && v[n].logs != []
    {
      assert n == start || n == start + 1 || n == start + 2;
    }
  }

  lemma InView(book: W.Book, start: nat, h: Hash, v: map<nat, Block>)
    requires ViewOf(book, start, h, v)
    ensures forall n :: start <= n <= start + 2 ==> n in v
  {
  }

  /** There is such a turn. */
  lemma TurnFor(v: map<nat, Block>, head: nat, from: nat, to: nat) returns (turn: Turn)
    requires WellFormed(v) && forall n :: from <= n <= to ==> n in v
    ensures ShowsTurn(turn, head, from, to, v)
  {
    turn := Turn(Some(head), AnswersOf(v, from, to), C.CONSENT);
    AnswersShow(v, from, to);
  }

  ghost predicate Tight(cfg: EmitterConfig, policy: Policy) {
    Sensible(cfg) && cfg.filterRange == 1 && cfg.maxRetries == 1 && cfg.start + 6 < TWO_63 && policy != ExpensiveBlock
  }

  // ----- three turns -----

  /** The block in the middle is tracked, and nothing above it. */
  ghost predicate TracksReplaced(start: nat, t: map<nat, Block>) {
    (forall n :: n in t ==> n <= start + 1) && start + 1 in t && t[start + 1].hash == BEFORE
  }

  /** After the first turn: the window [start, start + 1] is polled. */
  ghost predicate AfterFirst(cfg: EmitterConfig, s: System) {
    var p := s.world.poller;
    && p.lastRecorded == cfg.start + 1 && s.world.retired == {}
    && TracksReplaced(cfg.start, p.tracker)
    && s.emitting.saved == Some(cfg.start + 1)
    && !s.emitting.status.isReorging && !s.emitting.status.goBackFirstStart && s.emitting.status.retries == 0
  }

  /** After the second: the window [start + 1, start + 2] is polled and its first block reorged, so that
      the record has dropped to the start block. */
  ghost predicate AfterSecond(cfg: EmitterConfig, s: System) {
    var e := s.emitting.status;
    && s.world.retired <= {BEFORE} && s.emitting.saved == Some(cfg.start)
    && e.isReorging && !e.goBackFirstStart && e.retries == 1 && e.from == cfg.start + 1 && e.to == cfg.start + 2
  }

  lemma FirstWindow(cfg: EmitterConfig, policy: Policy)
    requires Tight(cfg, policy)
    ensures WindowOf(cfg, P.NEW, Some(cfg.start + 1)).NewStatus?
    ensures var next := WindowOf(cfg, P.NEW, Some(cfg.start + 1)).next; next.from == cfg.start && next.to == cfg.start + 1
  {
    B.NormalWindowIs(cfg, P.ORIGIN, NotFound, cfg.start, cfg.start + 1);
  }

  lemma SecondWindow(cfg: EmitterConfig, policy: Policy, s: System)
    requires Tight(cfg, policy) && AfterFirst(cfg, s)
    ensures WindowOf(cfg, s, Some(cfg.start + 2)).NewStatus?
    ensures var next := WindowOf(cfg, s, Some(cfg.start + 2)).next;
      next.from == cfg.start + 1 && next.to == cfg.start + 2 && next.retries == 0
  {
    B.NormalWindowIs(cfg, s.emitting.status, Found(cfg.start + 1), cfg.start + 1, cfg.start + 2);
  }

  lemma ThirdWindow(cfg: EmitterConfig, policy: Policy, s: System)
    requires Tight(cfg, policy) && AfterSecond(cfg, s)
    ensures WindowOf(cfg, s, Some(cfg.start + 2)).NewStatus?
    ensures var next := WindowOf(cfg, s, Some(cfg.start + 2)).next; next.from == cfg.start && next.to == cfg.start + 2
  {
    B.ReorgingWindowIs(cfg, s.emitting.status, Found(cfg.start), cfg.start, cfg.start + 2);
  }

  /** A turn that shows the chain is honest and goes on. */
  lemma TurnGoesOn(cfg: EmitterConfig, policy: Policy, book: W.Book, s: System, turn: Turn, next: Status,
                   v: map<nat, Block>)
    requires Sensible(cfg) && 1 <= cfg.maxRetries && Inv(cfg, policy, book, s)
    requires TurnFits(cfg, s, turn) && turn.Turn? && WindowOf(cfg, s, turn.head) == NewStatus(next)
    requires ShowsRound(policy, RoundOf(next, turn), v)
    requires Honest(book, s.world, RoundOf(next, turn), v)
    ensures TurnOk(cfg, policy, book, s, turn)
    ensures Advance(cfg, policy, s, turn).On? && Inv(cfg, policy, book, Advance(cfg, policy, s, turn).system)
    ensures !W.Take(ConfigOf(cfg, policy), s.world, RoundOf(next, turn)).Crashed?
    ensures W.Take(ConfigOf(cfg, policy), s.world, RoundOf(next, turn)).Going? &&
      Advance(cfg, policy, s, turn).system.world == W.Take(ConfigOf(cfg, policy), s.world, RoundOf(next, turn)).world
  {
    var wcfg, round := ConfigOf(cfg, policy), RoundOf(next, turn);
    ViewKeepsToBook(wcfg, book, s.world, round, v);
    TurnKeepsInv(cfg, policy, book, s, turn);
    var m := RoundSees(wcfg, s.world, round, v);
    RoundReports(wcfg, s.world, round, v, m);
  }

  /** The first report: nothing is reorged. */
  lemma FirstReport(policy: Policy, m: map<nat, Fresh>, round: W.Round, v: map<nat, Block>)
    requires Saw(policy, map[], m, round, v)
    ensures var r := Report(m, map[], round.from, round.to); r.reorged == [] && r.lastGood == round.to
    ensures round.from in m ==> !m[round.from].forked
    ensures Settled(m, map[], policy, round.from, round.to + 1).Keys <= m.Keys
  {
    C.NothingReorged(policy, m, round.from, round.to);
  }

  /** A tracked block that has another hash by now is reported. */
  lemma MiddleForks(policy: Policy, t: map<nat, Block>, m: map<nat, Fresh>, round: W.Round, v: map<nat, Block>, n: nat)
    requires Saw(policy, t, m, round, v) && Keyed(t) && round.from <= n <= round.to
    requires n in t && t[n].hash != v[n].hash && v[n].logs != []
    ensures n in m && m[n].forked && t[n] in Report(m, t, round.from, round.to).reorged
  {
    assert m[n].block.(migrated := false) == v[n];
    C.SpotsReorg(policy, t, m, round.from, round.to, n);
    assert CoherentAt(policy, t, m, round.from, round.to, n);
  }

  /** The second report: the first block of the window is reorged, and nothing else. */
  lemma SecondReport(policy: Policy, t: map<nat, Block>, m: map<nat, Fresh>, round: W.Round, book: W.Book, start: nat,
                     v: map<nat, Block>)
    requires 1 <= start && start + 2 < TWO_63 && round.from == start + 1 && round.to == start + 2
    requires Saw(policy, t, m, round, v) && Keyed(t) && ViewOf(book, start, AFTER, v)
    requires start + 1 in t && t[start + 1].hash == BEFORE && forall n :: n in t ==> n <= start + 1
    ensures var r := Report(m, t, round.from, round.to);
      r.lastGood == start && W.Hashes(r.reorged) <= {BEFORE}
    ensures start + 1 in m && m[start + 1].forked
  {
    MiddleForks(policy, t, m, round, v, start + 1);
    ListsSeen(policy, t, m, round, v, start + 2);
    DropsBelow(policy, t, m, round, start);
  }

  /** A reorg of the first block of a window with another good block records the block before. */
  lemma DropsBelow(policy: Policy, t: map<nat, Block>, m: map<nat, Fresh>, round: W.Round, start: nat)
    requires 1 <= start && start + 2 < TWO_63 && round.from == start + 1 && round.to == start + 2
    requires Coherent(policy, t, m, round.from, round.to) && Keyed(t)
    requires start + 1 in t && t[start + 1].hash == BEFORE && forall n :: n in t ==> n <= start + 1
    requires var r := Report(m, t, round.from, round.to);
      t[start + 1] in r.reorged && exists g :: g in r.good && g.number == start + 2
    ensures var r := Report(m, t, round.from, round.to);
      r.lastGood == start && W.Hashes(r.reorged) <= {BEFORE}
  {
    var r := Report(m, t, round.from, round.to);
    PollRuns.ReorgedMembers(policy, t, m, round.from, round.to);
    PollRuns.GoodMembers(policy, t, m, round.from, round.to);
    LastGoodOfReport(policy, t, m, round.from, round.to);
    forall b | b in r.reorged
      ensures b.number == start + 1 && b.hash == BEFORE
    {
    }
    assert r.reorged[0] in r.reorged;
    var g :| g in r.good && g.number == start + 2;
    var i :| 0 <= i < |r.good| && r.good[i] == g;
    assert i < |r.good| - 1 ==> r.good[i].number < r.good[|r.good| - 1].number;
  }

  /** The turn's input to the engine. */
  ghost predicate Feeds(cfg: EmitterConfig, policy: Policy, s: System, turn: Turn, lastGood: nat) {
    var inputs := InputOf(cfg, policy, s, turn);
    |inputs| == 1 && inputs[0].result.lastGood == lastGood
  }

  /** The turn's good blocks list the hash. */
  ghost predicate FeedsHash(cfg: EmitterConfig, policy: Policy, s: System, turn: Turn, h: Hash) {
    var inputs := InputOf(cfg, policy, s, turn);
    |inputs| == 1 && Q.Listed(h, inputs[0].result.good)
  }

  ghost predicate GoesOn(cfg: EmitterConfig, policy: Policy, book: W.Book, s: System, turn: Turn) {
    && TurnOk(cfg, policy, book, s, turn)
    && Advance(cfg, policy, s, turn).On?
    && Inv(cfg, policy, book, Advance(cfg, policy, s, turn).system)
  }

  /** The poll of a round and what it leaves to the poller. */
  ghost predicate Polls(cfg: W.WatcherConfig, w: W.World, round: W.Round, lastGood: nat, fromReorged: bool) {
    var o := Poll(cfg.Poller(), w.poller, round.from, round.to, round.answers).1;
    o.Polled? && o.result.lastGood == lastGood && o.fromReorged == fromReorged
  }

  ghost predicate Lists(cfg: W.WatcherConfig, w: W.World, round: W.Round, h: Hash) {
    var o := Poll(cfg.Poller(), w.poller, round.from, round.to, round.answers).1;
    o.Polled? && Q.Listed(h, o.result.good)
  }

  lemma FirstRound(cfg: W.WatcherConfig, w: W.World, round: W.Round, book: W.Book, start: nat,
                   v: map<nat, Block>)
    requires ShowsRound(cfg.policy, round, v) && ViewOf(book, start, BEFORE, v)
    requires w.poller.tracker == map[] && w.retired == {}
    requires round.from == start && round.to == start + 1 && !W.Take(cfg, w, round).Crashed?
    ensures Polls(cfg, w, round, start + 1, false) && Lists(cfg, w, round, LOW)
    ensures W.Take(cfg, w, round).Going?
    ensures var w' := W.Take(cfg, w, round).world;
      w'.poller.lastRecorded == start + 1 && w'.retired == {} && TracksReplaced(start, w'.poller.tracker)
  {
    assert W.Spared(cfg, w) == map[];
    var m := RoundSees(cfg, w, round, v);
    RoundReports(cfg, w, round, v, m);
    FirstFacts(cfg.policy, m, round, book, start, v);
    FirstPolls(cfg, w, round, start, m);
  }

  lemma FirstFacts(policy: Policy, m: map<nat, Fresh>, round: W.Round, book: W.Book, start: nat, v: map<nat, Block>)
    requires Saw(policy, map[], m, round, v) && ViewOf(book, start, BEFORE, v)
    requires round.from == start && round.to == start + 1
    ensures var r := Report(m, map[], round.from, round.to);
      r.reorged == [] && r.lastGood == start + 1 && Q.Listed(LOW, r.good)
    ensures start in m ==> !m[start].forked
    ensures forall n :: n in m ==> n <= start + 1
    ensures var t' := Settled(m, map[], policy, round.from, round.to + 1);
      t'.Keys <= m.Keys && start + 1 in t' && t'[start + 1].hash == BEFORE
  {
    FirstReport(policy, m, round, v);
    ListsSeen(policy, map[], m, round, v, start);
    TracksSeen(policy, map[], m, round, v, start + 1);
  }

  lemma FirstPolls(cfg: W.WatcherConfig, w: W.World, round: W.Round, start: nat, m: map<nat, Fresh>)
    requires Reported(cfg, w, round, map[], m) && w.retired == {} && round.from == start && round.to == start + 1
    requires var r := Report(m, map[], round.from, round.to);
      r.reorged == [] && r.lastGood == start + 1 && Q.Listed(LOW, r.good)
    requires start in m ==> !m[start].forked
    requires forall n :: n in m ==> n <= start + 1
    requires var t' := Settled(m, map[], cfg.policy, round.from, round.to + 1);
      t'.Keys <= m.Keys && start + 1 in t' && t'[start + 1].hash == BEFORE
    ensures Polls(cfg, w, round, start + 1, false) && Lists(cfg, w, round, LOW)
    ensures W.Take(cfg, w, round).Going?
    ensures var w' := W.Take(cfg, w, round).world;
      w'.poller.lastRecorded == start + 1 && w'.retired == {} && TracksReplaced(start, w'.poller.tracker)
  {
    assert W.Hashes([]) == {};
  }

  lemma SparedReplaced(cfg: W.WatcherConfig, w: W.World, start: nat)
    requires cfg.filterRange == 1 && start + 1 < TWO_63 && w.poller.lastRecorded == start + 1
    requires Keyed(w.poller.tracker) && TracksReplaced(start, w.poller.tracker)
    ensures Keyed(W.Spared(cfg, w)) && TracksReplaced(start, W.Spared(cfg, w))
  {
    ScoreOfDifference(start + 1, 1);
  }

  lemma SecondRound(cfg: W.WatcherConfig, w: W.World, round: W.Round, book: W.Book, start: nat,
                    v: map<nat, Block>)
    requires ShowsRound(cfg.policy, round, v) && ViewOf(book, start, AFTER, v) && cfg.filterRange == 1
    requires 1 <= start && start + 2 < TWO_63 && round.from == start + 1 && round.to == start + 2
    requires w.poller.lastRecorded == start + 1 && w.retired == {} && Keyed(w.poller.tracker)
    requires TracksReplaced(start, w.poller.tracker) && !W.Take(cfg, w, round).Crashed?
    ensures Polls(cfg, w, round, start, true)
    ensures W.Take(cfg, w, round).Going? && W.Take(cfg, w, round).world.retired <= {BEFORE}
  {
    var t := W.Spared(cfg, w);
    SparedReplaced(cfg, w, start);
    var m := RoundSees(cfg, w, round, v);
    RoundReports(cfg, w, round, v, m);
    SecondReport(cfg.policy, t, m, round, book, start, v);
    SecondPolls(cfg, w, round, start, t, m);
  }

  lemma SecondPolls(cfg: W.WatcherConfig, w: W.World, round: W.Round, start: nat, t: map<nat, Block>, m: map<nat, Fresh>)
    requires Reported(cfg, w, round, t, m) && w.retired == {} && round.from == start + 1
    requires var r := Report(m, t, round.from, round.to); r.lastGood == start && W.Hashes(r.reorged) <= {BEFORE}
    requires start + 1 in m && m[start + 1].forked
    ensures Polls(cfg, w, round, start, true)
    ensures W.Take(cfg, w, round).Going? && W.Take(cfg, w, round).world.retired <= {BEFORE}
  {
  }

  lemma ThirdRound(cfg: W.WatcherConfig, w: W.World, round: W.Round, book: W.Book, start: nat,
                    v: map<nat, Block>)
    requires ShowsRound(cfg.policy, round, v) && ViewOf(book, start, AFTER, v)
    requires round.from == start && round.to == start + 2 && !W.Take(cfg, w, round).Crashed?
    ensures Lists(cfg, w, round, LOW)
  {
    var m := RoundSees(cfg, w, round, v);
    RoundReports(cfg, w, round, v, m);
    ListsSeen(cfg.policy, W.Spared(cfg, w), m, round, v, start);
  }

  /** The blocks of a window are in the book, and none is retired. */
  ghost predicate Honest(book: W.Book, w: W.World, round: W.Round, v: map<nat, Block>) {
    forall n :: round.from <= n <= round.to ==> n in v && W.Entered(book, v[n]) && v[n].hash !in w.retired
  }

  lemma ChainIsHonest(book: W.Book, w: W.World, round: W.Round, start: nat, h: Hash, v: map<nat, Block>)
    requires (h == BEFORE || h == AFTER) && ViewOf(book, start, h, v)
    requires start <= round.from && round.to <= start + 2 && w.retired <= {BEFORE} && (h == BEFORE ==> w.retired == {})
    ensures Honest(book, w, round, v)
  {
    forall n | round.from <= n <= round.to
      ensures n in v && W.Entered(book, v[n]) && v[n].hash !in w.retired
    {
      assert n == start || n == start + 1 || n == start + 2;
    }
  }

  lemma FirstGoes(cfg: EmitterConfig, policy: Policy, book: W.Book, s: System, turn: Turn, next: Status, v: map<nat, Block>)
    requires Tight(cfg, policy) && Inv(cfg, policy, book, s) && s.world.retired == {} && !s.emitting.status.isReorging
    requires ShowsTurn(turn, cfg.start + 1, cfg.start, cfg.start + 1, v) && ViewOf(book, cfg.start, BEFORE, v)
    requires WindowOf(cfg, s, turn.head) == NewStatus(next) && next.from == cfg.start && next.to == cfg.start + 1
    ensures GoesOn(cfg, policy, book, s, turn)
    ensures W.Take(ConfigOf(cfg, policy), s.world, RoundOf(next, turn)).Going? &&
      Advance(cfg, policy, s, turn).system.world == W.Take(ConfigOf(cfg, policy), s.world, RoundOf(next, turn)).world
  {
    ChainIsHonest(book, s.world, RoundOf(next, turn), cfg.start, BEFORE, v);
    TurnGoesOn(cfg, policy, book, s, turn, next, v);
  }

  lemma FirstTurn(cfg: EmitterConfig, policy: Policy, book: W.Book, s: System, turn: Turn, next: Status, v: map<nat, Block>)
    requires Tight(cfg, policy) && Inv(cfg, policy, book, s) && !s.emitting.status.isReorging
    requires s.world.poller.tracker == map[] && s.world.retired == {}
    requires ShowsTurn(turn, cfg.start + 1, cfg.start, cfg.start + 1, v) && ViewOf(book, cfg.start, BEFORE, v)
    requires WindowOf(cfg, s, turn.head) == NewStatus(next) && next.from == cfg.start && next.to == cfg.start + 1
    ensures GoesOn(cfg, policy, book, s, turn) && AfterFirst(cfg, Advance(cfg, policy, s, turn).system)
    ensures Feeds(cfg, policy, s, turn, cfg.start + 1) && FeedsHash(cfg, policy, s, turn, LOW)
  {
    FirstGoes(cfg, policy, book, s, turn, next, v);
    FirstRound(ConfigOf(cfg, policy), s.world, RoundOf(next, turn), book, cfg.start, v);
    FirstLeaves(cfg, policy, s, turn, next, OutcomeOf(cfg, policy, s, next, turn));
  }

  lemma FirstLeaves(cfg: EmitterConfig, policy: Policy, s: System, turn: Turn, next: Status, o: Outcome)
    requires turn.Turn? && WindowOf(cfg, s, turn.head) == NewStatus(next)
    requires o == OutcomeOf(cfg, policy, s, next, turn) && o.Polled? && !o.fromReorged && o.result.lastGood == cfg.start + 1
    requires Q.Listed(LOW, o.result.good) && Advance(cfg, policy, s, turn).On?
    requires var w := Advance(cfg, policy, s, turn).system.world;
      w.poller.lastRecorded == cfg.start + 1 && w.retired == {} && TracksReplaced(cfg.start, w.poller.tracker)
    ensures AfterFirst(cfg, Advance(cfg, policy, s, turn).system)
    ensures Feeds(cfg, policy, s, turn, cfg.start + 1) && FeedsHash(cfg, policy, s, turn, LOW)
  {
    EmitterGoes(cfg, policy, s, turn, next, o);
  }

  lemma ReorgingStatus(next: Status)
    requires next.retries == 0 && !next.goBackFirstStart
    ensures var u := Updated(next, true);
      u.isReorging && !u.goBackFirstStart && u.retries == 1 && u.from == next.from && u.to == next.to
  {
    AddExact(0, 1);
  }

  lemma SecondGoes(cfg: EmitterConfig, policy: Policy, book: W.Book, s: System, turn: Turn, next: Status, v: map<nat, Block>)
    requires Tight(cfg, policy) && Inv(cfg, policy, book, s) && AfterFirst(cfg, s)
    requires ShowsTurn(turn, cfg.start + 2, cfg.start + 1, cfg.start + 2, v) && ViewOf(book, cfg.start, AFTER, v)
    requires WindowOf(cfg, s, turn.head) == NewStatus(next)
    ensures GoesOn(cfg, policy, book, s, turn)
    ensures W.Take(ConfigOf(cfg, policy), s.world, RoundOf(next, turn)).Going? &&
      Advance(cfg, policy, s, turn).system.world == W.Take(ConfigOf(cfg, policy), s.world, RoundOf(next, turn)).world
  {
    SecondWindow(cfg, policy, s);
    ChainIsHonest(book, s.world, RoundOf(next, turn), cfg.start, AFTER, v);
    TurnGoesOn(cfg, policy, book, s, turn, next, v);
  }

  lemma SecondTurn(cfg: EmitterConfig, policy: Policy, book: W.Book, s: System, turn: Turn, next: Status, v: map<nat, Block>)
    requires Tight(cfg, policy) && Inv(cfg, policy, book, s) && AfterFirst(cfg, s)
    requires ShowsTurn(turn, cfg.start + 2, cfg.start + 1, cfg.start + 2, v) && ViewOf(book, cfg.start, AFTER, v)
    requires WindowOf(cfg, s, turn.head) == NewStatus(next)
    ensures GoesOn(cfg, policy, book, s, turn) && AfterSecond(cfg, Advance(cfg, policy, s, turn).system)
    ensures Feeds(cfg, policy, s, turn, cfg.start)
  {
    SecondWindow(cfg, policy, s);
    SecondGoes(cfg, policy, book, s, turn, next, v);
    SecondRound(ConfigOf(cfg, policy), s.world, RoundOf(next, turn), book, cfg.start, v);
    SecondLeaves(cfg, policy, s, turn, next, OutcomeOf(cfg, policy, s, next, turn));
  }

  lemma SecondLeaves(cfg: EmitterConfig, policy: Policy, s: System, turn: Turn, next: Status, o: Outcome)
    requires turn.Turn? && WindowOf(cfg, s, turn.head) == NewStatus(next)
    requires next.from == cfg.start + 1 && next.to == cfg.start + 2 && next.retries == 0
    requires o == OutcomeOf(cfg, policy, s, next, turn) && o.Polled? && o.fromReorged && o.result.lastGood == cfg.start
    requires Advance(cfg, policy, s, turn).On? && Advance(cfg, policy, s, turn).system.world.retired <= {BEFORE}
    ensures AfterSecond(cfg, Advance(cfg, policy, s, turn).system) && Feeds(cfg, policy, s, turn, cfg.start)
  {
    EmitterGoes(cfg, policy, s, turn, next, o);
    ReorgingStatus(next);
  }

  lemma ThirdTurn(cfg: EmitterConfig, policy: Policy, book: W.Book, s: System, turn: Turn, next: Status, v: map<nat, Block>)
    requires Tight(cfg, policy) && Inv(cfg, policy, book, s) && AfterSecond(cfg, s)
    requires ShowsTurn(turn, cfg.start + 2, cfg.start, cfg.start + 2, v) && ViewOf(book, cfg.start, AFTER, v)
    requires WindowOf(cfg, s, turn.head) == NewStatus(next)
    ensures GoesOn(cfg, policy, book, s, turn) && FeedsHash(cfg, policy, s, turn, LOW)
  {
    var round := RoundOf(next, turn);
    ThirdWindow(cfg, policy, s);
    ChainIsHonest(book, s.world, round, cfg.start, AFTER, v);
    TurnGoesOn(cfg, policy, book, s, turn, next, v);
    ThirdRound(ConfigOf(cfg, policy), s.world, round, book, cfg.start, v);
  }

  // ----- the run -----

  /** A fine run, the system it leads to, and what it gives the engine. */
  ghost predicate RunsTo(cfg: EmitterConfig, policy: Policy, book: W.Book, s0: System, turns: seq<Turn>, s: System,
                         inputs: seq<T.Input>)
  {
    && TurnsOk(cfg, policy, book, s0, turns)
    && RunOf(cfg, policy, s0, turns) == On(s)
    && InputsOf(cfg, policy, s0, turns) == inputs
  }

  /** One more turn that goes on. */
  lemma OneMore(cfg: EmitterConfig, policy: Policy, book: W.Book, s0: System, turns: seq<Turn>, s: System,
                inputs: seq<T.Input>, turn: Turn)
    requires RunsTo(cfg, policy, book, s0, turns, s, inputs) && GoesOn(cfg, policy, book, s, turn)
    ensures RunsTo(cfg, policy, book, s0, turns + [turn], Advance(cfg, policy, s, turn).system,
                   inputs + InputOf(cfg, policy, s, turn))
  {
    var more := turns + [turn];
    assert more[..|turns|] == turns;
    forall i | 0 <= i < |more| && RunOf(cfg, policy, s0, more[..i]).On?
      ensures TurnOk(cfg, policy, book, RunOf(cfg, policy, s0, more[..i]).system, more[i])
    {
      if i < |turns| {
        assert more[..i] == turns[..i];
      }
    }
  }

  /** Three inputs: the hash is listed in the first, whose eviction reaches it, and in the third. */
  lemma TwiceInThree(cfg: E.EngineConfig, inputs: seq<T.Input>, h: Hash, number: nat)
    requires T.RunOf(cfg, inputs).Some? && Q.FixesNumber(inputs, h, number) && |inputs| == 3
    requires Q.Listed(h, inputs[0].result.good) && Q.Listed(h, inputs[2].result.good)
    requires Q.Reaches(cfg, inputs, 0, number)
    ensures Q.GivenTwice(cfg, inputs, h)
  {
    Q.NothingBefore(cfg, inputs);
    Q.StepStores(cfg, inputs, h, number, 0);
    assert Q.EvictedBetween(cfg, inputs, number, 0, 2);
    assert Q.ListedAfterEviction(cfg, inputs, h, number);
    Q.GivenTwiceIff(cfg, inputs, h, number);
  }

  /** The turns that show the chain, and that go on as the lemmas above say. */
  lemma FindFirst(cfg: EmitterConfig, policy: Policy, book: W.Book, s: System, v: map<nat, Block>) returns (turn: Turn)
    requires Tight(cfg, policy) && s == P.NEW && Inv(cfg, policy, book, s)
    requires WellFormed(v) && ViewOf(book, cfg.start, BEFORE, v)
    ensures GoesOn(cfg, policy, book, s, turn) && AfterFirst(cfg, Advance(cfg, policy, s, turn).system)
      && Feeds(cfg, policy, s, turn, cfg.start + 1) && FeedsHash(cfg, policy, s, turn, LOW)
  {
    InView(book, cfg.start, BEFORE, v);
    turn := TurnFor(v, cfg.start + 1, cfg.start, cfg.start + 1);
    FirstWindow(cfg, policy);
    FirstTurn(cfg, policy, book, s, turn, WindowOf(cfg, s, turn.head).next, v);
  }

  lemma AddFirst(cfg: EmitterConfig, policy: Policy, book: W.Book, turns0: seq<Turn>, s0: System, inputs0: seq<T.Input>,
                 v: map<nat, Block>)
    returns (turns: seq<Turn>, s: System, inputs: seq<T.Input>)
    requires Tight(cfg, policy) && s0 == P.NEW && inputs0 == []
    requires WellFormed(v) && ViewOf(book, cfg.start, BEFORE, v)
    requires RunsTo(cfg, policy, book, P.NEW, turns0, s0, inputs0) && Inv(cfg, policy, book, s0)
    ensures RunsTo(cfg, policy, book, P.NEW, turns, s, inputs) && Inv(cfg, policy, book, s) && AfterFirst(cfg, s)
    ensures |inputs| == 1 && inputs[0].result.lastGood == cfg.start + 1 && Q.Listed(LOW, inputs[0].result.good)
  {
    var turn := FindFirst(cfg, policy, book, s0, v);
    turns, s, inputs := AddTurn(cfg, policy, book, turns0, s0, inputs0, turn);
  }

  lemma FindSecond(cfg: EmitterConfig, policy: Policy, book: W.Book, s: System, v: map<nat, Block>) returns (turn: Turn)
    requires Tight(cfg, policy) && AfterFirst(cfg, s) && Inv(cfg, policy, book, s)
    requires WellFormed(v) && ViewOf(book, cfg.start, AFTER, v)
    ensures GoesOn(cfg, policy, book, s, turn) && AfterSecond(cfg, Advance(cfg, policy, s, turn).system)
      && Feeds(cfg, policy, s, turn, cfg.start)
  {
    InView(book, cfg.start, AFTER, v);
    turn := TurnFor(v, cfg.start + 2, cfg.start + 1, cfg.start + 2);
    SecondWindow(cfg, policy, s);
    SecondTurn(cfg, policy, book, s, turn, WindowOf(cfg, s, turn.head).next, v);
  }

  lemma AddSecond(cfg: EmitterConfig, policy: Policy, book: W.Book, turns0: seq<Turn>, s0: System, inputs0: seq<T.Input>,
                 v: map<nat, Block>)
    returns (turns: seq<Turn>, s: System, inputs: seq<T.Input>)
    requires Tight(cfg, policy) && AfterFirst(cfg, s0)
    requires WellFormed(v) && ViewOf(book, cfg.start, AFTER, v)
    requires RunsTo(cfg, policy, book, P.NEW, turns0, s0, inputs0) && Inv(cfg, policy, book, s0)
    ensures RunsTo(cfg, policy, book, P.NEW, turns, s, inputs) && Inv(cfg, policy, book, s) && AfterSecond(cfg, s)
    ensures inputs0 <= inputs && |inputs| == |inputs0| + 1
  {
    var turn := FindSecond(cfg, policy, book, s0, v);
    turns, s, inputs := AddTurn(cfg, policy, book, turns0, s0, inputs0, turn);
  }

  lemma FindThird(cfg: EmitterConfig, policy: Policy, book: W.Book, s: System, v: map<nat, Block>) returns (turn: Turn)
    requires Tight(cfg, policy) && AfterSecond(cfg, s) && Inv(cfg, policy, book, s)
    requires WellFormed(v) && ViewOf(book, cfg.start, AFTER, v)
    ensures GoesOn(cfg, policy, book, s, turn) && FeedsHash(cfg, policy, s, turn, LOW)
  {
    InView(book, cfg.start, AFTER, v);
    turn := TurnFor(v, cfg.start + 2, cfg.start, cfg.start + 2);
    ThirdWindow(cfg, policy, s);
    ThirdTurn(cfg, policy, book, s, turn, WindowOf(cfg, s, turn.head).next, v);
  }

  lemma AddThird(cfg: EmitterConfig, policy: Policy, book: W.Book, turns0: seq<Turn>, s0: System, inputs0: seq<T.Input>,
                 v: map<nat, Block>)
    returns (turns: seq<Turn>, s: System, inputs: seq<T.Input>)
    requires Tight(cfg, policy) && AfterSecond(cfg, s0)
    requires WellFormed(v) && ViewOf(book, cfg.start, AFTER, v)
    requires RunsTo(cfg, policy, book, P.NEW, turns0, s0, inputs0) && Inv(cfg, policy, book, s0)
    ensures RunsTo(cfg, policy, book, P.NEW, turns, s, inputs)
    ensures inputs0 <= inputs && |inputs| == |inputs0| + 1 && Q.Listed(LOW, inputs[|inputs0|].result.good)
  {
    var turn := FindThird(cfg, policy, book, s0, v);
    turns, s, inputs := AddTurn(cfg, policy, book, turns0, s0, inputs0, turn);
  }

  lemma AddTurn(cfg: EmitterConfig, policy: Policy, book: W.Book, turns0: seq<Turn>, s0: System, inputs0: seq<T.Input>,
                turn: Turn)
    returns (turns: seq<Turn>, s: System, inputs: seq<T.Input>)
    requires RunsTo(cfg, policy, book, P.NEW, turns0, s0, inputs0) && GoesOn(cfg, policy, book, s0, turn)
    ensures RunsTo(cfg, policy, book, P.NEW, turns, s, inputs)
    ensures s == Advance(cfg, policy, s0, turn).system && Inv(cfg, policy, book, s)
    ensures inputs == inputs0 + InputOf(cfg, policy, s0, turn)
  {
    OneMore(cfg, policy, book, P.NEW, turns0, s0, inputs0, turn);
    turns, s, inputs := turns0 + [turn], Advance(cfg, policy, s0, turn).system, inputs0 + InputOf(cfg, policy, s0, turn);
  }

  lemma NewIsFine(cfg: EmitterConfig, policy: Policy, book: W.Book)
    requires Tight(cfg, policy)
    ensures Initial(cfg, P.NEW) && Inv(cfg, policy, book, P.NEW) && RunsTo(cfg, policy, book, P.NEW, [], P.NEW, [])
  {
    RunKeepsInv(cfg, policy, book, P.NEW, []);
  }

  /** A run of a new program whose first input lists the lowest block, and records the one above, and whose
      third lists the lowest block again. */
  ghost predicate ThreeInputs(cfg: EmitterConfig, policy: Policy, book: W.Book, turns: seq<Turn>, s: System,
                              inputs: seq<T.Input>)
  {
    && RunsTo(cfg, policy, book, P.NEW, turns, s, inputs)
    && |inputs| == 3 && inputs[0].result.lastGood == cfg.start + 1
    && Q.Listed(LOW, inputs[0].result.good) && Q.Listed(LOW, inputs[2].result.good)
  }

  /** Three turns from a new program, and what they give the engine. */
  lemma ThreeTurns(cfg: EmitterConfig, policy: Policy, book: W.Book) returns (turns: seq<Turn>, s: System, inputs: seq<T.Input>)
    requires Tight(cfg, policy) && book == BookOf(cfg.start)
    ensures ThreeInputs(cfg, policy, book, turns, s, inputs)
  {
    ChainIsView(cfg.start, BEFORE);
    ChainIsView(cfg.start, AFTER);
    turns, s, inputs := TurnsOfViews(cfg, policy, book, ChainOf(cfg.start, BEFORE), ChainOf(cfg.start, AFTER));
  }

  /** The three turns, one after the other found and added to the run. */
  lemma TurnsOfViews(cfg: EmitterConfig, policy: Policy, book: W.Book, v1: map<nat, Block>, v2: map<nat, Block>)
    returns (turns: seq<Turn>, s: System, inputs: seq<T.Input>)
    requires Tight(cfg, policy) && WellFormed(v1) && WellFormed(v2)
    requires ViewOf(book, cfg.start, BEFORE, v1) && ViewOf(book, cfg.start, AFTER, v2)
    ensures ThreeInputs(cfg, policy, book, turns, s, inputs)
  {
    NewIsFine(cfg, policy, book);
    turns, s, inputs := AddFirst(cfg, policy, book, [], P.NEW, [], v1);
    turns, s, inputs := AddSecond(cfg, policy, book, turns, s, inputs, v2);
    turns, s, inputs := AddThird(cfg, policy, book, turns, s, inputs, v2);
  }

  lemma TwiceByInputs(cfg: EmitterConfig, policy: Policy, book: W.Book, turns: seq<Turn>, s: System, inputs: seq<T.Input>)
    requires Tight(cfg, policy) && ThreeInputs(cfg, policy, book, turns, s, inputs)
    requires LOW in book && book[LOW].number == cfg.start
    ensures Q.GivenTwice(EngineOf(cfg), inputs, LOW)
  {
    var numbers := N.NumbersOf(book);
    NewIsFine(cfg, policy, book);
    P.OkRunIsPlain(cfg, policy, book, P.NEW, turns);
    EngineRuns(cfg, policy, P.NEW, turns);
    InputsPlain(cfg, policy, numbers, P.NEW, turns);
    InputsFixNumber(numbers, inputs, LOW);
    BoundIs(cfg, policy);
    TwiceInThree(EngineOf(cfg), inputs, LOW, cfg.start);
  }

  lemma LowInBook(book: W.Book, start: nat)
    requires book == BookOf(start)
    ensures LOW in book && book[LOW].number == start
  {
  }

  /** With range 1 and one retry, for every start block and policy: an honest run in which one hash is
      given to the service as good twice. The block `start` is handled, and forgotten as start + 1 is
      recorded; start + 1 is replaced, so that `start` is recorded; the window that goes back holds it. */
  lemma HandledTwice(cfg: EmitterConfig, policy: Policy, book: W.Book) returns (turns: seq<Turn>)
    requires Tight(cfg, policy) && book == BookOf(cfg.start)
    ensures Initial(cfg, P.NEW) && TurnsOk(cfg, policy, book, P.NEW, turns)
    ensures RunOf(cfg, policy, P.NEW, turns).On?
    ensures Q.GivenTwice(EngineOf(cfg), InputsOf(cfg, policy, P.NEW, turns), LOW)
  {
    var s, inputs;
    turns, s, inputs := ThreeTurns(cfg, policy, book);
    NewIsFine(cfg, policy, book);
    LowInBook(book, cfg.start);
    TwiceByInputs(cfg, policy, book, turns, s, inputs);
  }

  lemma BoundIs(cfg: EmitterConfig, policy: Policy)
    requires Tight(cfg, policy)
    ensures E.EngineBound(EngineOf(cfg), cfg.start + 1) == cfg.start
  {
    assert Mul(1, 1) == 1;
    ScoreOfDifference(cfg.start + 1, 1);
  }
}
