/** The whole program without go-back retries: windows that the emitter does compute lead the engine
    into its panic. */
module WatcherPanics {
  import opened Words
  import opened Types
  import opened PollSpec
  import opened EmitterSpec
  import R = EmitterRuns
  import B = EmitterTheory
  import W = Watcher
  import N = WatcherNumbers
  import C = WatcherCrash
  import opened WatcherRuns

  /** No run of the whole program panics. */
  ghost predicate NeverPanics(cfg: EmitterConfig, policy: Policy) {
    forall book: W.Book, s0: System, turns: seq<Turn> ::
      Initial(cfg, s0) && TurnsOk(cfg, policy, book, s0, turns) ==> !RunOf(cfg, policy, s0, turns).Panic?
  }

  /** Nor does any in which a hash fixes its number, whatever else the chain does. */
  ghost predicate NeverPanicsPlain(cfg: EmitterConfig, policy: Policy) {
    forall numbers: N.Numbering, s0: System, turns: seq<Turn> ::
      Initial(cfg, s0) && TurnsPlain(cfg, policy, numbers, s0, turns) ==> !RunOf(cfg, policy, s0, turns).Panic?
  }

  const ORIGIN := Status(0, 0, 0, 0, true, false, 0)

  /** A program that has never run before. */
  const NEW := System(R.Emitting(ORIGIN, None, []), W.EMPTY)

  /** The head stands one block above the start block; then one block higher, and the block below it
      has been replaced. */
  function First(cfg: EmitterConfig): Turn {
    Turn(Some(cfg.start + 1), C.Showing(cfg.start, C.BEFORE), C.CONSENT)
  }

  function Second(cfg: EmitterConfig): Turn {
    Turn(Some(cfg.start + 2), C.Showing(cfg.start, C.AFTER), C.CONSENT)
  }

  ghost predicate Fit(cfg: EmitterConfig, policy: Policy) {
    Sensible(cfg) && policy != ExpensiveBlock && cfg.start + cfg.filterRange + 3 < TWO_63
  }

  /** The system after the first turn. */
  ghost predicate Prepared(cfg: EmitterConfig, s: System) {
    && C.Forgotten(cfg.start, s.world)
    && s.emitting.saved == Some(cfg.start + 1)
    && !s.emitting.status.isReorging && !s.emitting.status.goBackFirstStart
  }

  lemma FirstWindow(cfg: EmitterConfig)
    requires B.Bounded(cfg)
    ensures WindowOf(cfg, NEW, Some(cfg.start + 1)).NewStatus?
    ensures var next := WindowOf(cfg, NEW, Some(cfg.start + 1)).next; next.from == cfg.start && next.to == cfg.start + 1
  {
    B.NormalWindowIs(cfg, ORIGIN, NotFound, cfg.start, cfg.start + 1);
  }

  lemma SecondWindow(cfg: EmitterConfig, s: System)
    requires B.Bounded(cfg) && cfg.start + cfg.filterRange + 3 < TWO_63 && Prepared(cfg, s)
    ensures WindowOf(cfg, s, Some(cfg.start + 2)).NewStatus?
    ensures var next := WindowOf(cfg, s, Some(cfg.start + 2)).next;
      cfg.start <= next.from <= cfg.start + 1 && next.to == cfg.start + 2
  {
    B.NormalWindowIs(cfg, s.emitting.status, Found(cfg.start + 1), cfg.start + 1, cfg.start + 2);
  }

  /** A turn whose poll finds no reorg, and whose result the engine serves. */
  lemma TurnGoes(cfg: EmitterConfig, policy: Policy, s: System, turn: Turn, next: Status, w: W.World, o: Outcome)
    requires turn.Turn? && WindowOf(cfg, s, turn.head) == NewStatus(next)
    requires W.Take(ConfigOf(cfg, policy), s.world, RoundOf(next, turn)) == W.Going(w)
    requires o == OutcomeOf(cfg, policy, s, next, turn) && o.Polled? && !o.fromReorged
    ensures Advance(cfg, policy, s, turn).On?
    ensures var s' := Advance(cfg, policy, s, turn).system;
      && s'.world == w && s'.emitting.saved == Some(o.result.lastGood)
      && !s'.emitting.status.isReorging && !s'.emitting.status.goBackFirstStart
  {
    EngineSaves(cfg, policy, s, next, turn);
    EmitterTakes(cfg, s.emitting, EmitterTurn(turn.head, o, W.Take(ConfigOf(cfg, policy), s.world, RoundOf(next, turn)).world.saved), next, false);
  }

  /** The emitter's part of a turn with a result. */
  lemma EmitterTakes(cfg: EmitterConfig, e: R.Emitting, turn: R.Turn, next: Status, fromReorged: bool)
    requires turn.Turn? && turn.poll == (if fromReorged then FromReorged else Clean)
    requires Compute(cfg, e.status, R.GatewayOf(e.saved), turn.head).1 == NewStatus(next)
    ensures R.Take(cfg, e, turn).saved == Some(turn.lastGood)
    ensures R.Take(cfg, e, turn).status == Updated(next, fromReorged) && !next.goBackFirstStart
  {
  }

  lemma TurnPrepares(cfg: EmitterConfig, policy: Policy, s: System, turn: Turn, next: Status, round: W.Round, w: W.World)
    requires turn.Turn? && WindowOf(cfg, s, turn.head) == NewStatus(next) && round == RoundOf(next, turn)
    requires W.Take(ConfigOf(cfg, policy), s.world, round) == W.Going(w) && C.Forgotten(cfg.start, w)
    requires var o := Poll(ConfigOf(cfg, policy).Poller(), s.world.poller, round.from, round.to, round.answers).1;
      o.Polled? && !o.fromReorged && o.result.lastGood == cfg.start + 1
    ensures Advance(cfg, policy, s, turn).On? && Prepared(cfg, Advance(cfg, policy, s, turn).system)
  {
    TurnGoes(cfg, policy, s, turn, next, w, OutcomeOf(cfg, policy, s, next, turn));
  }

  lemma FirstTurnOk(cfg: EmitterConfig, policy: Policy, book: W.Book, turn: Turn, next: Status)
    requires Fit(cfg, policy) && turn == First(cfg) && book == C.BookOf(cfg.start)
    requires WindowOf(cfg, NEW, turn.head) == NewStatus(next)
    ensures TurnOk(cfg, policy, book, NEW, turn)
  {
    FirstWindow(cfg);
    assert RoundOf(next, turn) == C.Polling(cfg.start, C.BEFORE, cfg.start, cfg.start + 1);
    C.PollingIsHonest(ConfigOf(cfg, policy), book, W.EMPTY, cfg.start, C.BEFORE, RoundOf(next, turn));
  }

  lemma FirstTurnGoes(cfg: EmitterConfig, policy: Policy, turn: Turn, next: Status)
    requires Fit(cfg, policy) && cfg.maxRetries == 0 && turn == First(cfg)
    requires WindowOf(cfg, NEW, turn.head) == NewStatus(next)
    ensures Advance(cfg, policy, NEW, turn).On? && Prepared(cfg, Advance(cfg, policy, NEW, turn).system)
  {
    var wcfg, round := ConfigOf(cfg, policy), RoundOf(next, turn);
    FirstWindow(cfg);
    assert round == C.Polling(cfg.start, C.BEFORE, cfg.start, cfg.start + 1);
    C.FirstRound(wcfg, cfg.start, round);
    TurnPrepares(cfg, policy, NEW, turn, next, round, W.Take(wcfg, NEW.world, round).world);
  }

  lemma SecondTurnOk(cfg: EmitterConfig, policy: Policy, book: W.Book, s: System, turn: Turn, next: Status)
    requires Fit(cfg, policy) && Prepared(cfg, s) && turn == Second(cfg) && book == C.BookOf(cfg.start)
    requires WindowOf(cfg, s, turn.head) == NewStatus(next)
    ensures TurnOk(cfg, policy, book, s, turn)
  {
    SecondWindow(cfg, s);
    assert RoundOf(next, turn) == C.Polling(cfg.start, C.AFTER, next.from, next.to);
    C.PollingIsHonest(ConfigOf(cfg, policy), book, s.world, cfg.start, C.AFTER, RoundOf(next, turn));
  }

  lemma SecondTurnPanics(cfg: EmitterConfig, policy: Policy, s: System, turn: Turn, next: Status)
    requires Fit(cfg, policy) && Prepared(cfg, s) && turn == Second(cfg)
    requires WindowOf(cfg, s, turn.head) == NewStatus(next)
    ensures Advance(cfg, policy, s, turn).Panic?
  {
    SecondWindow(cfg, s);
    assert RoundOf(next, turn) == C.Polling(cfg.start, C.AFTER, next.from, cfg.start + 2);
    C.SecondRound(ConfigOf(cfg, policy), cfg.start, s.world, RoundOf(next, turn));
  }

  lemma RunOfTwo(cfg: EmitterConfig, policy: Policy, book: W.Book, first: Turn, second: Turn, s: System)
    requires Advance(cfg, policy, NEW, first) == On(s)
    requires TurnOk(cfg, policy, book, NEW, first) && TurnOk(cfg, policy, book, s, second)
    ensures TurnsOk(cfg, policy, book, NEW, [first, second])
    ensures RunOf(cfg, policy, NEW, [first, second]) == Advance(cfg, policy, s, second)
  {
    var turns := [first, second];
    assert turns[..1] == [first] && [first][..0] == [] && turns[..0] == [];
    forall i | 0 <= i < |turns| && RunOf(cfg, policy, NEW, turns[..i]).On?
      ensures TurnOk(cfg, policy, book, RunOf(cfg, policy, NEW, turns[..i]).system, turns[i])
    {
      assert i == 0 || i == 1;
    }
  }

  lemma PanicsInSecondTurn(cfg: EmitterConfig, policy: Policy, book: W.Book, first: Turn, second: Turn)
    requires Fit(cfg, policy) && cfg.maxRetries == 0
    requires book == C.BookOf(cfg.start) && first == First(cfg) && second == Second(cfg)
    ensures TurnsOk(cfg, policy, book, NEW, [first, second]) && RunOf(cfg, policy, NEW, [first, second]).Panic?
  {
    FirstWindow(cfg);
    FirstTurnOk(cfg, policy, book, first, WindowOf(cfg, NEW, first.head).next);
    FirstTurnGoes(cfg, policy, first, WindowOf(cfg, NEW, first.head).next);
    var s := Advance(cfg, policy, NEW, first).system;
    SecondWindow(cfg, s);
    SecondTurnOk(cfg, policy, book, s, second, WindowOf(cfg, s, second.head).next);
    SecondTurnPanics(cfg, policy, s, second, WindowOf(cfg, s, second.head).next);
    RunOfTwo(cfg, policy, book, first, second, s);
  }

  /** Without retries, a new program panics in its second turn, for every start block and range. */
  lemma PanicsWithoutRetries(cfg: EmitterConfig, policy: Policy)
    requires Fit(cfg, policy) && cfg.maxRetries == 0
    ensures var turns := [First(cfg), Second(cfg)];
      && Initial(cfg, NEW) && TurnsOk(cfg, policy, C.BookOf(cfg.start), NEW, turns)
      && RunOf(cfg, policy, NEW, turns).Panic?
  {
    PanicsInSecondTurn(cfg, policy, C.BookOf(cfg.start), First(cfg), Second(cfg));
  }

  lemma OkRunIsPlain(cfg: EmitterConfig, policy: Policy, book: W.Book, s0: System, turns: seq<Turn>)
    requires TurnsOk(cfg, policy, book, s0, turns)
    ensures TurnsPlain(cfg, policy, N.NumbersOf(book), s0, turns)
  {
    forall i | 0 <= i < |turns| && RunOf(cfg, policy, s0, turns[..i]).On?
      ensures TurnPlain(cfg, policy, N.NumbersOf(book), RunOf(cfg, policy, s0, turns[..i]).system, turns[i])
    {
      OkIsPlain(cfg, policy, book, RunOf(cfg, policy, s0, turns[..i]).system, turns[i]);
    }
  }

  /** The whole program never panics for want of metadata exactly when at least one go-back retry is
      configured: when the chain is honest, and when a hash just fixes its number. */
  lemma NeverPanicsIff(cfg: EmitterConfig, policy: Policy)
    requires Fit(cfg, policy)
    ensures NeverPanics(cfg, policy) <==> 1 <= cfg.maxRetries
    ensures NeverPanicsPlain(cfg, policy) <==> 1 <= cfg.maxRetries
  {
    if 1 <= cfg.maxRetries {
      NeverPanicsWithRetries(cfg, policy);
    } else {
      PanicsWithoutRetries(cfg, policy);
      OkRunIsPlain(cfg, policy, C.BookOf(cfg.start), NEW, [First(cfg), Second(cfg)]);
    }
  }

  lemma NeverPanicsWithRetries(cfg: EmitterConfig, policy: Policy)
    requires Sensible(cfg) && 1 <= cfg.maxRetries
    ensures NeverPanics(cfg, policy) && NeverPanicsPlain(cfg, policy)
  {
    forall numbers: N.Numbering, s0: System, turns: seq<Turn> | Initial(cfg, s0) && TurnsPlain(cfg, policy, numbers, s0, turns)
      ensures !RunOf(cfg, policy, s0, turns).Panic?
    {
      RunKeepsBase(cfg, policy, numbers, s0, turns);
    }
    forall book: W.Book, s0: System, turns: seq<Turn> | Initial(cfg, s0) && TurnsOk(cfg, policy, book, s0, turns)
      ensures !RunOf(cfg, policy, s0, turns).Panic?
    {
      OkRunIsPlain(cfg, policy, book, s0, turns);
    }
  }
}
