/** Emitter, poller and engine together: the emitter computes the window from the block the engine
    saved, the poller polls it, the engine serves the result and saves its LastGoodBlock. The
    handshake (module Handshake) makes this alternation the only order there is. */
module WatcherRuns {
  import opened Words
  import opened Types
  import opened Listings
  import opened PollSpec
  import opened PollTheory
  import opened EmitterSpec
  import R = EmitterRuns
  import B = EmitterTheory
  import E = EngineSpec
  import K = EngineCalls
  import I = EmitterTurns
  import W = Watcher
  import N = WatcherNumbers
  import opened WatcherSafety

  datatype System = System(emitting: R.Emitting, world: W.World)

  /** A turn: the emitter's loop is restarted, or it goes on with what the node, the service and the
      gateway reply. */
  datatype Turn = Restart(origin: Status) | Turn(head: Option<nat>, answers: Answers, reply: E.Reply)

  datatype Progress = On(system: System) | Off | Panic

  function ConfigOf(cfg: EmitterConfig, policy: Policy): W.WatcherConfig {
    W.WatcherConfig(cfg.filterRange, cfg.maxRetries, policy)
  }

  function WindowOf(cfg: EmitterConfig, s: System, head: Option<nat>): Computed {
    Compute(cfg, s.emitting.status, R.GatewayOf(s.emitting.saved), head).1
  }

  function ReplyOf(o: Outcome): PollReply {
    match o
    case Failed(_) => PollFailed
    case Polled(_, fromReorged) => if fromReorged then FromReorged else Clean
  }

  function RoundOf(next: Status, turn: Turn): W.Round
    requires turn.Turn?
  {
    W.Round(next.from, next.to, turn.answers, turn.reply)
  }

  function OutcomeOf(cfg: EmitterConfig, policy: Policy, s: System, next: Status, turn: Turn): Outcome
    requires turn.Turn?
  {
    Poll(ConfigOf(cfg, policy).Poller(), s.world.poller, next.from, next.to, turn.answers).1
  }

  /** The emitter's part of a turn once its poll is known, with the block that the engine then saved. */
  function EmitterTurn(head: Option<nat>, o: Outcome, saved: Option<nat>): R.Turn {
    R.Turn(head, ReplyOf(o), if o.Polled? && saved.Some? then saved.value else 0)
  }

  function Advance(cfg: EmitterConfig, policy: Policy, s: System, turn: Turn): Progress {
    match turn
    case Restart(origin) => On(s.(emitting := R.Take(cfg, s.emitting, R.Restart(origin))))
    case Turn(head, answers, reply) =>
      match WindowOf(cfg, s, head)
      case NewStatus(next) =>
        var o := OutcomeOf(cfg, policy, s, next, turn);
        (match W.Take(ConfigOf(cfg, policy), s.world, RoundOf(next, turn))
         case Going(w) => On(System(R.Take(cfg, s.emitting, EmitterTurn(head, o, w.saved)), w))
         case Halted => Off
         case Crashed => Panic)
      case _ => On(s.(emitting := R.Take(cfg, s.emitting, R.Turn(head, Clean, 0))))
  }

  function RunOf(cfg: EmitterConfig, policy: Policy, s0: System, turns: seq<Turn>): Progress {
    if turns == [] then On(s0)
    else
      match RunOf(cfg, policy, s0, turns[..|turns| - 1])
      case On(s) => Advance(cfg, policy, s, turns[|turns| - 1])
      case other => other
  }

  /** What the surroundings keep to, whatever the chain shows: the head stays at or above the start block
      and above the window being gone back from, and numbers stay small. */
  ghost predicate TurnFits(cfg: EmitterConfig, s: System, turn: Turn) {
    match turn
    case Restart(origin) => origin.goBackFirstStart && origin.retries == 0 && !origin.isReorging
    case Turn(head, _, _) =>
      && (head.Some? ==>
            && cfg.start <= head.value < TWO_63
            && (s.emitting.status.isReorging && !s.emitting.status.goBackFirstStart ==>
                  s.emitting.status.from <= head.value))
      && (WindowOf(cfg, s, head).NewStatus? ==> WindowOf(cfg, s, head).next.to + cfg.filterRange + 1 < TWO_63)
  }

  /** Besides, the blocks shown have the numbers that their hashes stand for. */
  ghost predicate TurnPlain(cfg: EmitterConfig, policy: Policy, numbers: N.Numbering, s: System, turn: Turn) {
    && TurnFits(cfg, s, turn)
    && (turn.Turn? && WindowOf(cfg, s, turn.head).NewStatus? ==>
          N.KeepsNumbers(ConfigOf(cfg, policy), numbers, s.world, RoundOf(WindowOf(cfg, s, turn.head).next, turn)))
  }

  /** Besides, the chain keeps to the book. */
  ghost predicate TurnOk(cfg: EmitterConfig, policy: Policy, book: W.Book, s: System, turn: Turn) {
    && TurnFits(cfg, s, turn)
    && (turn.Turn? && WindowOf(cfg, s, turn.head).NewStatus? ==>
          W.KeepsToBook(ConfigOf(cfg, policy), book, s.world, RoundOf(WindowOf(cfg, s, turn.head).next, turn)))
  }

  ghost predicate TurnsPlain(cfg: EmitterConfig, policy: Policy, numbers: N.Numbering, s0: System, turns: seq<Turn>) {
    forall i :: 0 <= i < |turns| && RunOf(cfg, policy, s0, turns[..i]).On? ==>
      TurnPlain(cfg, policy, numbers, RunOf(cfg, policy, s0, turns[..i]).system, turns[i])
  }

  ghost predicate TurnsOk(cfg: EmitterConfig, policy: Policy, book: W.Book, s0: System, turns: seq<Turn>) {
    forall i :: 0 <= i < |turns| && RunOf(cfg, policy, s0, turns[..i]).On? ==>
      TurnOk(cfg, policy, book, RunOf(cfg, policy, s0, turns[..i]).system, turns[i])
  }

  lemma OkIsPlain(cfg: EmitterConfig, policy: Policy, book: W.Book, s: System, turn: Turn)
    requires TurnOk(cfg, policy, book, s, turn)
    ensures TurnPlain(cfg, policy, N.NumbersOf(book), s, turn)
  {
    if turn.Turn? && WindowOf(cfg, s, turn.head).NewStatus? {
      N.KeepsToBookKeepsNumbers(ConfigOf(cfg, policy), book, s.world, RoundOf(WindowOf(cfg, s, turn.head).next, turn));
    }
  }

  ghost predicate Initial(cfg: EmitterConfig, s: System) {
    R.Initial(cfg, s.emitting) && s.world == W.EMPTY
  }

  ghost predicate Sensible(cfg: EmitterConfig) {
    B.Bounded(cfg) && cfg.filterRange * cfg.maxRetries < TWO_63
  }

  /** The emitter's invariant, metadata for what the poller tracks, and the agreement of the poller's own
      record with the saved block. */
  ghost predicate Base(cfg: EmitterConfig, policy: Policy, numbers: N.Numbering, s: System) {
    && R.Inv(cfg, s.emitting)
    && N.Stored(ConfigOf(cfg, policy), numbers, s.world)
    && (s.emitting.windows != [] ==> s.emitting.saved == Some(s.world.poller.lastRecorded))
  }

  /** The same with the soundness of poller and engine. */
  ghost predicate Inv(cfg: EmitterConfig, policy: Policy, book: W.Book, s: System) {
    Base(cfg, policy, N.NumbersOf(book), s) && W.Sound(ConfigOf(cfg, policy), book, s.world)
  }

  /** Every window the emitter computes is fit for the poller. */
  lemma WindowFits(cfg: EmitterConfig, s: System, turn: Turn)
    requires Sensible(cfg) && R.Inv(cfg, s.emitting) && turn.Turn? && TurnFits(cfg, s, turn)
    requires WindowOf(cfg, s, turn.head).NewStatus?
    ensures var next := WindowOf(cfg, s, turn.head).next; cfg.start <= next.from <= next.to < TWO_63
  {
    if s.emitting.status.goBackFirstStart && s.emitting.saved.Some? {
      B.FirstRunWindowIs(cfg, s.emitting.status, s.emitting.saved.value, turn.head.value);
    } else if s.emitting.status.isReorging {
      B.ReorgingWindowIs(cfg, s.emitting.status, R.GatewayOf(s.emitting.saved), s.emitting.saved.value, turn.head.value);
    } else {
      var last := if s.emitting.saved.Some? then s.emitting.saved.value else cfg.start;
      B.NormalWindowIs(cfg, s.emitting.status, R.GatewayOf(s.emitting.saved), last, turn.head.value);
    }
  }

  lemma LastGoodInWindow(cfg: EmitterConfig, policy: Policy, s: System, next: Status, turn: Turn)
    requires Keyed(s.world.poller.tracker) && turn.Turn?
    requires 1 <= next.from <= next.to < TWO_63
    ensures var o := OutcomeOf(cfg, policy, s, next, turn);
      o.Polled? ==> next.from - 1 <= o.result.lastGood <= next.to
  {
    var t := W.Spared(ConfigOf(cfg, policy), s.world);
    if Looked(policy, t, next.from, next.to, turn.answers).Ok? {
      LookedCoherent(policy, t, next.from, next.to, turn.answers);
      LastGoodOfReport(policy, t, Looked(policy, t, next.from, next.to, turn.answers).value, next.from, next.to);
    }
  }

  /** The poll's LastGoodBlock is what the emitter's own runs take for granted of it. */
  lemma EmitterTurnOk(cfg: EmitterConfig, policy: Policy, s: System, turn: Turn, next: Status, o: Outcome)
    requires Sensible(cfg) && R.Inv(cfg, s.emitting) && turn.Turn? && TurnFits(cfg, s, turn)
    requires Keyed(s.world.poller.tracker)
    requires WindowOf(cfg, s, turn.head) == NewStatus(next) && o == OutcomeOf(cfg, policy, s, next, turn)
    requires W.Take(ConfigOf(cfg, policy), s.world, RoundOf(next, turn)).Going?
    ensures R.TurnOk(cfg, s.emitting,
                     EmitterTurn(turn.head, o, W.Take(ConfigOf(cfg, policy), s.world, RoundOf(next, turn)).world.saved))
  {
    WindowFits(cfg, s, turn);
    LastGoodInWindow(cfg, policy, s, next, turn);
    EngineSaves(cfg, policy, s, next, turn);
  }

  /** What the engine saves of a poll's result is its LastGoodBlock, which is the poller's record. */
  lemma EngineSaves(cfg: EmitterConfig, policy: Policy, s: System, next: Status, turn: Turn)
    requires turn.Turn? && W.Take(ConfigOf(cfg, policy), s.world, RoundOf(next, turn)).Going?
    ensures var o, w := OutcomeOf(cfg, policy, s, next, turn), W.Take(ConfigOf(cfg, policy), s.world, RoundOf(next, turn)).world;
      o.Polled? ==> w.saved == Some(o.result.lastGood) && w.poller.lastRecorded == o.result.lastGood
  {
    var o := OutcomeOf(cfg, policy, s, next, turn);
    if o.Polled? {
      K.SavesLastGood(ConfigOf(cfg, policy).Engine(), s.world.metas, o.result, turn.reply);
    }
  }

  lemma PolledTurnKeepsBase(cfg: EmitterConfig, policy: Policy, numbers: N.Numbering, s: System, turn: Turn, next: Status)
    requires Sensible(cfg) && 1 <= cfg.maxRetries && Base(cfg, policy, numbers, s)
    requires turn.Turn? && TurnPlain(cfg, policy, numbers, s, turn) && WindowOf(cfg, s, turn.head) == NewStatus(next)
    ensures !Advance(cfg, policy, s, turn).Panic?
    ensures Advance(cfg, policy, s, turn).On? ==> Base(cfg, policy, numbers, Advance(cfg, policy, s, turn).system)
  {
    var o := OutcomeOf(cfg, policy, s, next, turn);
    WindowFits(cfg, s, turn);
    N.RoundKeepsStored(ConfigOf(cfg, policy), numbers, s.world, RoundOf(next, turn));
    var taken := W.Take(ConfigOf(cfg, policy), s.world, RoundOf(next, turn));
    if taken.Going? {
      EmitterTurnOk(cfg, policy, s, turn, next, o);
      R.TakeKeepsInv(cfg, s.emitting, EmitterTurn(turn.head, o, taken.world.saved));
      RecordsAgree(cfg, policy, s, next, turn);
    }
  }

  /** Without a new block nothing is polled: poller, engine, windows and record stay as they are. */
  lemma IdleTurnChangesNothing(cfg: EmitterConfig, policy: Policy, s: System, turn: Turn)
    requires turn.Turn? && I.IdleTurn(cfg, s.emitting, R.Turn(turn.head, Clean, 0))
    ensures Advance(cfg, policy, s, turn)
         == On(s.(emitting := s.emitting.(status := s.emitting.status.(goBackFirstStart := false))))
  {
    I.IdleTurnChangesNothing(cfg, s.emitting, R.Turn(turn.head, Clean, 0));
  }

  /** After a round the poller's record is the LastGoodBlock that was saved, if there was a result. */
  lemma RecordsAgree(cfg: EmitterConfig, policy: Policy, s: System, next: Status, turn: Turn)
    requires turn.Turn?
    requires WindowOf(cfg, s, turn.head) == NewStatus(next)
    requires s.emitting.windows != [] ==> s.emitting.saved == Some(s.world.poller.lastRecorded)
    requires W.Take(ConfigOf(cfg, policy), s.world, RoundOf(next, turn)).Going?
    ensures var w := W.Take(ConfigOf(cfg, policy), s.world, RoundOf(next, turn)).world;
      var e := R.Take(cfg, s.emitting, EmitterTurn(turn.head, OutcomeOf(cfg, policy, s, next, turn), w.saved));
      e.windows != [] ==> e.saved == Some(w.poller.lastRecorded)
  {
    EngineSaves(cfg, policy, s, next, turn);
  }

  lemma TurnKeepsBase(cfg: EmitterConfig, policy: Policy, numbers: N.Numbering, s: System, turn: Turn)
    requires Sensible(cfg) && 1 <= cfg.maxRetries && Base(cfg, policy, numbers, s)
    requires TurnPlain(cfg, policy, numbers, s, turn)
    ensures !Advance(cfg, policy, s, turn).Panic?
    ensures Advance(cfg, policy, s, turn).On? ==> Base(cfg, policy, numbers, Advance(cfg, policy, s, turn).system)
  {
    if turn.Turn? && WindowOf(cfg, s, turn.head).NewStatus? {
      PolledTurnKeepsBase(cfg, policy, numbers, s, turn, WindowOf(cfg, s, turn.head).next);
    } else if turn.Turn? {
      R.TakeKeepsInv(cfg, s.emitting, R.Turn(turn.head, Clean, 0));
    } else {
      R.TakeKeepsInv(cfg, s.emitting, R.Restart(turn.origin));
    }
  }

  lemma TurnKeepsInv(cfg: EmitterConfig, policy: Policy, book: W.Book, s: System, turn: Turn)
    requires Sensible(cfg) && 1 <= cfg.maxRetries && Inv(cfg, policy, book, s) && TurnOk(cfg, policy, book, s, turn)
    ensures !Advance(cfg, policy, s, turn).Panic?
    ensures Advance(cfg, policy, s, turn).On? ==> Inv(cfg, policy, book, Advance(cfg, policy, s, turn).system)
  {
    OkIsPlain(cfg, policy, book, s, turn);
    TurnKeepsBase(cfg, policy, N.NumbersOf(book), s, turn);
    if turn.Turn? && WindowOf(cfg, s, turn.head).NewStatus? {
      WindowFits(cfg, s, turn);
      RoundKeepsSound(ConfigOf(cfg, policy), book, s.world, RoundOf(WindowOf(cfg, s, turn.head).next, turn));
    }
  }

  /** The initial system has nothing tracked and nothing stored. */
  lemma InitialIsBase(cfg: EmitterConfig, policy: Policy, numbers: N.Numbering, s: System)
    requires Initial(cfg, s)
    ensures Base(cfg, policy, numbers, s)
  {
  }

  /** In runs where a hash fixes its number the program never panics for want of metadata. */
  lemma {:induction false} RunKeepsBase(cfg: EmitterConfig, policy: Policy, numbers: N.Numbering, s0: System,
                                        turns: seq<Turn>)
    requires Sensible(cfg) && 1 <= cfg.maxRetries && Initial(cfg, s0) && TurnsPlain(cfg, policy, numbers, s0, turns)
    ensures !RunOf(cfg, policy, s0, turns).Panic?
    ensures RunOf(cfg, policy, s0, turns).On? ==> Base(cfg, policy, numbers, RunOf(cfg, policy, s0, turns).system)
    decreases |turns|
  {
    if turns == [] {
      InitialIsBase(cfg, policy, numbers, s0);
    } else {
      var front := turns[..|turns| - 1];
      assert forall i :: 0 <= i < |front| ==> front[..i] == turns[..i] && front[i] == turns[i];
      RunKeepsBase(cfg, policy, numbers, s0, front);
      if RunOf(cfg, policy, s0, front).On? {
        TurnKeepsBase(cfg, policy, numbers, RunOf(cfg, policy, s0, front).system, turns[|turns| - 1]);
      }
    }
  }

  lemma {:induction false} RunKeepsInv(cfg: EmitterConfig, policy: Policy, book: W.Book, s0: System, turns: seq<Turn>)
    requires Sensible(cfg) && 1 <= cfg.maxRetries && Initial(cfg, s0) && TurnsOk(cfg, policy, book, s0, turns)
    ensures !RunOf(cfg, policy, s0, turns).Panic?
    ensures RunOf(cfg, policy, s0, turns).On? ==> Inv(cfg, policy, book, RunOf(cfg, policy, s0, turns).system)
    decreases |turns|
  {
    if turns == [] {
      InitialIsBase(cfg, policy, N.NumbersOf(book), s0);
    } else {
      var front := turns[..|turns| - 1];
      assert forall i :: 0 <= i < |front| ==> front[..i] == turns[..i] && front[i] == turns[i];
      RunKeepsInv(cfg, policy, book, s0, front);
      if RunOf(cfg, policy, s0, front).On? {
        TurnKeepsInv(cfg, policy, book, RunOf(cfg, policy, s0, front).system, turns[|turns| - 1]);
      }
    }
  }

  /** The turn's reorged blocks were never reported before; if its result is served, they end HandledReorg
      and its good ones Handled. */
  ghost predicate TurnEnds(cfg: EmitterConfig, policy: Policy, s: System, turn: Turn) {
    turn.Turn? && WindowOf(cfg, s, turn.head).NewStatus? ==>
      var o := OutcomeOf(cfg, policy, s, WindowOf(cfg, s, turn.head).next, turn);
      o.Polled? ==> EndStates(s.world, o.result, turn.reply)
  }

  lemma TurnEndStates(cfg: EmitterConfig, policy: Policy, book: W.Book, s: System, turn: Turn)
    requires Inv(cfg, policy, book, s) && TurnOk(cfg, policy, book, s, turn)
    ensures TurnEnds(cfg, policy, s, turn)
  {
    if turn.Turn? && WindowOf(cfg, s, turn.head).NewStatus? {
      var next := WindowOf(cfg, s, turn.head).next;
      var o := OutcomeOf(cfg, policy, s, next, turn);
      if o.Polled? {
        RoundEnds(ConfigOf(cfg, policy), book, s.world, RoundOf(next, turn), o.result);
      }
    }
  }

  /** Every turn of a run ends that way. */
  lemma AllTurnsEnd(cfg: EmitterConfig, policy: Policy, book: W.Book, s0: System, turns: seq<Turn>)
    requires Sensible(cfg) && 1 <= cfg.maxRetries && Initial(cfg, s0) && TurnsOk(cfg, policy, book, s0, turns)
    ensures forall i :: 0 <= i < |turns| && RunOf(cfg, policy, s0, turns[..i]).On? ==>
      TurnEnds(cfg, policy, RunOf(cfg, policy, s0, turns[..i]).system, turns[i])
  {
    forall i | 0 <= i < |turns| && RunOf(cfg, policy, s0, turns[..i]).On?
      ensures TurnEnds(cfg, policy, RunOf(cfg, policy, s0, turns[..i]).system, turns[i])
    {
      assert forall j :: 0 <= j < i ==> turns[..i][..j] == turns[..j] && turns[..i][j] == turns[j];
      RunKeepsInv(cfg, policy, book, s0, turns[..i]);
      TurnEndStates(cfg, policy, book, RunOf(cfg, policy, s0, turns[..i]).system, turns[i]);
    }
  }

  /** The whole program, over every run with restarts, reorgs, failing polls and arbitrary service
      artifacts: it never panics for want of metadata; every window polled was well-formed and left no
      gap below the recorded block; what the poller tracks is Handled by the engine; the poller's
      record is the saved block; no hash is ever reported as reorged twice; and in every turn the reorged
      blocks end HandledReorg and the good ones Handled. */
  lemma WholeRun(cfg: EmitterConfig, policy: Policy, book: W.Book, s0: System, turns: seq<Turn>)
    requires Sensible(cfg) && 1 <= cfg.maxRetries && Initial(cfg, s0) && TurnsOk(cfg, policy, book, s0, turns)
    ensures !RunOf(cfg, policy, s0, turns).Panic?
    ensures RunOf(cfg, policy, s0, turns).On? ==>
      var s := RunOf(cfg, policy, s0, turns).system;
      var e := s.emitting;
      && (forall i :: 0 <= i < |e.windows| ==> R.WellFormed(cfg, e.windows[i]))
      && (e.windows != [] ==>
            && e.saved == Some(s.world.poller.lastRecorded)
            && forall n :: e.windows[0].from <= n <= e.saved.value ==> R.Covered(e.windows, n))
      && W.TrackedHandled(W.Spared(ConfigOf(cfg, policy), s.world), s.world.metas)
      && (forall h :: h in s.world.metas ==>
            s.world.metas[h].state == E.Handled || s.world.metas[h].state == E.HandledReorg)
    ensures forall i :: 0 <= i < |turns| && RunOf(cfg, policy, s0, turns[..i]).On? ==>
      TurnEnds(cfg, policy, RunOf(cfg, policy, s0, turns[..i]).system, turns[i])
  {
    RunKeepsInv(cfg, policy, book, s0, turns);
    AllTurnsEnd(cfg, policy, book, s0, turns);
    if RunOf(cfg, policy, s0, turns).On? {
      var w := RunOf(cfg, policy, s0, turns).system.world;
      assert forall h :: h in w.metas ==> W.MetaSound(book, w, h);
    }
  }
}
