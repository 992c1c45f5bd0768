/** Whole runs of the emitter against the recorded block it gets back from the engine, mixing first
    runs, normal windows, go-back windows and restarts of the loop. */
module EmitterRuns {
  import opened Words
  import opened Types
  import opened EmitterSpec
  import opened EmitterTheory

  /** A polled window whose result was emitted, with the head and the recorded block it was computed from. */
  datatype Polled = Polled(from: nat, to: nat, head: nat, last: nat)

  /** The emitter's loop, the recorded block, and the windows so far. */
  datatype Emitting = Emitting(status: Status, saved: Option<nat>, windows: seq<Polled>)

  /** A turn of the loop, with the LastGoodBlock that the engine saves if a result is emitted; or a
      restart of the loop, with the status object it always restarts from. */
  datatype Turn = Restart(origin: Status) | Turn(head: Option<nat>, poll: PollReply, lastGood: nat)

  function GatewayOf(saved: Option<nat>): Gateway {
    if saved.Some? then Found(saved.value) else NotFound
  }

  function IterationOf(cfg: EmitterConfig, e: Emitting, turn: Turn): Iteration
    requires turn.Turn?
  {
    Iterate(cfg, e.status, Env(GatewayOf(e.saved), turn.head, turn.poll))
  }

  function Take(cfg: EmitterConfig, e: Emitting, turn: Turn): Emitting {
    if turn.Restart? then e.(status := turn.origin)
    else
      match IterationOf(cfg, e, turn)
      case Emitted(_, next) =>
        Emitting(next, Some(turn.lastGood), e.windows + [Polled(next.from, next.to, next.current, next.lastRecorded)])
      case Skipped(left) => e.(status := left)
      case _ => e
  }

  /** What the surroundings of a turn keep to. A restart starts from a status without retries (method
      Emitters.Loop). The head is never below the start block, nor below the window that is being gone
      back from. The saved block is the LastGoodBlock of the emitted result, which is not below the
      window by more than one, nor above it (lemma PollTheory.LastGoodOfReport). */
  ghost predicate TurnOk(cfg: EmitterConfig, e: Emitting, turn: Turn) {
    match turn
    case Restart(origin) => origin.goBackFirstStart && origin.retries == 0 && !origin.isReorging
    case Turn(head, _, lastGood) =>
      && (head.Some? ==>
            && cfg.start <= head.value < TWO_63
            && (e.status.isReorging && !e.status.goBackFirstStart ==> e.status.from <= head.value))
      && lastGood + cfg.filterRange + 1 < TWO_63
      && (IterationOf(cfg, e, turn).Emitted? ==>
            var w := IterationOf(cfg, e, turn).next; w.from - 1 <= lastGood <= w.to)
  }

  function RunOf(cfg: EmitterConfig, e0: Emitting, turns: seq<Turn>): Emitting {
    if turns == [] then e0 else Take(cfg, RunOf(cfg, e0, turns[..|turns| - 1]), turns[|turns| - 1])
  }

  ghost predicate TurnsOk(cfg: EmitterConfig, e0: Emitting, turns: seq<Turn>) {
    forall i :: 0 <= i < |turns| ==> TurnOk(cfg, RunOf(cfg, e0, turns[..i]), turns[i])
  }

  /** A freshly built emitter, restarted over a recorded block that is at most one below the start. */
  ghost predicate Initial(cfg: EmitterConfig, e: Emitting) {
    && e.windows == []
    && e.status.goBackFirstStart && e.status.retries == 0 && !e.status.isReorging
    && (e.saved.Some? ==> Recordable(cfg, e.saved.value))
  }

  // ----- no gaps -----

  ghost predicate Covered(windows: seq<Polled>, n: int) {
    exists i :: 0 <= i < |windows| && windows[i].from <= n <= windows[i].to
  }

  ghost predicate WellFormed(cfg: EmitterConfig, w: Polled) {
    cfg.start <= w.from <= w.to && w.from <= w.last + 1
  }

  /** What every turn keeps. */
  ghost predicate Inv(cfg: EmitterConfig, e: Emitting) {
    && (e.saved.Some? ==> Recordable(cfg, e.saved.value))
    && (e.status.goBackFirstStart ==> e.status.retries == 0 && !e.status.isReorging)
    && (e.status.isReorging ==>
          && e.saved.Some? && e.windows != []
          && cfg.start <= e.status.from <= e.status.to && e.status.from <= e.saved.value + 1)
    && (forall i :: 0 <= i < |e.windows| ==> WellFormed(cfg, e.windows[i]))
    && (e.windows != [] ==>
          e.saved.Some? && forall n :: e.windows[0].from <= n <= e.saved.value ==> Covered(e.windows, n))
  }

  /** The three kinds of emitted windows. */
  ghost predicate Kind(cfg: EmitterConfig, e: Emitting, next: Status) {
    var last := if e.saved.Some? then e.saved.value else cfg.start;
    && next.lastRecorded == last && !next.goBackFirstStart
    && if e.status.goBackFirstStart && e.saved.Some? then
         next.from == last + 1 && next.to == last + cfg.filterRange
       else if e.status.isReorging then
         next.from == Max(cfg.start, e.status.from - cfg.filterRange) && next.to == Smaller(e.status.to, next.current)
       else
         (next.from, next.to) == Between(cfg, last, next.current)
  }

  lemma EmittedKind(cfg: EmitterConfig, e: Emitting, turn: Turn)
    requires Bounded(cfg) && Inv(cfg, e) && turn.Turn? && TurnOk(cfg, e, turn)
    requires e.status.isReorging ==> e.status.from < TWO_63
    requires IterationOf(cfg, e, turn).Emitted?
    ensures Kind(cfg, e, IterationOf(cfg, e, turn).next)
    ensures IterationOf(cfg, e, turn).next.current == turn.head.value
  {
    var last := if e.saved.Some? then e.saved.value else cfg.start;
    if e.status.goBackFirstStart && e.saved.Some? {
      FirstRunWindowIs(cfg, e.status, last, turn.head.value);
    } else if e.status.isReorging {
      ReorgingWindowIs(cfg, e.status, GatewayOf(e.saved), last, turn.head.value);
    } else {
      NormalWindowIs(cfg, e.status, GatewayOf(e.saved), last, turn.head.value);
    }
  }

  lemma CoveredByMore(windows: seq<Polled>, p: Polled, n: int)
    requires p.from <= n <= p.to || Covered(windows, n)
    ensures Covered(windows + [p], n)
  {
    var more := windows + [p];
    if p.from <= n <= p.to {
      assert more[|windows|] == p;
    } else {
      var i :| 0 <= i < |windows| && windows[i].from <= n <= windows[i].to;
      assert more[i] == windows[i];
    }
  }

  lemma TakeKeepsInv(cfg: EmitterConfig, e: Emitting, turn: Turn)
    requires Bounded(cfg) && Inv(cfg, e) && TurnOk(cfg, e, turn)
    ensures Inv(cfg, Take(cfg, e, turn))
  {
    if turn.Turn? && IterationOf(cfg, e, turn).Emitted? {
      EmittedKind(cfg, e, turn);
      var e', w := Take(cfg, e, turn), IterationOf(cfg, e, turn).next;
      var p := Polled(w.from, w.to, w.current, w.lastRecorded);
      assert WellFormed(cfg, p);
      forall n | e'.windows[0].from <= n <= turn.lastGood
        ensures Covered(e'.windows, n)
      {
        assert w.from <= n || Covered(e.windows, n);
        CoveredByMore(e.windows, p, n);
      }
    }
  }

  lemma {:induction false} RunKeepsInv(cfg: EmitterConfig, e0: Emitting, turns: seq<Turn>)
    requires Bounded(cfg) && Initial(cfg, e0) && TurnsOk(cfg, e0, turns)
    ensures Inv(cfg, RunOf(cfg, e0, turns))
    decreases |turns|
  {
    if turns != [] {
      var front := turns[..|turns| - 1];
      assert forall i :: 0 <= i < |front| ==> turns[..i] == front[..i] && turns[i] == front[i];
      RunKeepsInv(cfg, e0, front);
      TakeKeepsInv(cfg, RunOf(cfg, e0, front), turns[|turns| - 1]);
    }
  }

  /** Over every run: each window given to the poller satisfies start <= from <= to, starts at most one
      above the recorded block, and every block from the first window's start up to the recorded block
      lies in some polled window. */
  lemma NoGaps(cfg: EmitterConfig, e0: Emitting, turns: seq<Turn>)
    requires Bounded(cfg) && Initial(cfg, e0) && TurnsOk(cfg, e0, turns)
    ensures var e := RunOf(cfg, e0, turns);
      && (forall i :: 0 <= i < |e.windows| ==> WellFormed(cfg, e.windows[i]))
      && (e.windows != [] ==>
            e.saved.Some? && forall n :: e.windows[0].from <= n <= e.saved.value ==> Covered(e.windows, n))
  {
    RunKeepsInv(cfg, e0, turns);
  }

  /** A go-back window ends before it starts exactly when the head has dropped below its start: the
      assumption on heads in TurnOk is not idle. */
  lemma GoBackWindowNeedsHead(cfg: EmitterConfig, prev: Status, last: nat, head: nat)
    requires Bounded(cfg) && prev.isReorging && !prev.goBackFirstStart && prev.retries <= cfg.maxRetries
    requires cfg.start <= prev.from <= prev.to && prev.from < TWO_63 && last != head
    ensures var next := Compute(cfg, prev, Found(last), Some(head)).1;
      next.NewStatus? && (next.next.from <= next.next.to <==> Max(cfg.start, prev.from - cfg.filterRange) <= head)
  {
    ReorgingWindowIs(cfg, prev, Found(last), last, head);
  }

  // ----- progress -----

  /** Turns at a standing head whose polls find no reorg, so that the end of each window is saved. */
  ghost predicate CleanTurns(cfg: EmitterConfig, e0: Emitting, head: nat, turns: seq<Turn>) {
    forall i :: 0 <= i < |turns| ==> CleanTurn(cfg, RunOf(cfg, e0, turns[..i]), head, turns[i])
  }

  ghost predicate CleanTurn(cfg: EmitterConfig, e: Emitting, head: nat, turn: Turn) {
    && turn.Turn? && turn.head == Some(head) && turn.poll == Clean
    && (IterationOf(cfg, e, turn).Emitted? ==> turn.lastGood == IterationOf(cfg, e, turn).next.to)
  }

  /** The loop in normal mode over the given record. */
  ghost predicate Steady(e: Emitting, last: nat) {
    e.saved == Some(last) && !e.status.isReorging && !e.status.goBackFirstStart
  }

  lemma CleanTurnRecords(cfg: EmitterConfig, e: Emitting, last: nat, head: nat, k: nat, turn: Turn)
    requires Bounded(cfg) && Recordable(cfg, head) && cfg.start <= last + 1 && last <= head
    requires Steady(e, Recorded(cfg, last, head, k)) && CleanTurn(cfg, e, head, turn)
    ensures Steady(Take(cfg, e, turn), Recorded(cfg, last, head, k + 1))
  {
    if Recorded(cfg, last, head, k) < head {
      ProgressStep(cfg, e.status, last, head, k);
    }
  }

  lemma {:induction false} CleanTurnsRecord(cfg: EmitterConfig, e0: Emitting, last: nat, head: nat, turns: seq<Turn>)
    requires Bounded(cfg) && Recordable(cfg, head) && cfg.start <= last + 1 && last <= head
    requires Steady(e0, last) && CleanTurns(cfg, e0, head, turns)
    ensures Steady(RunOf(cfg, e0, turns), Recorded(cfg, last, head, |turns|))
    decreases |turns|
  {
    if turns != [] {
      var front, turn := turns[..|turns| - 1], turns[|turns| - 1];
      var e := RunOf(cfg, e0, front);
      forall i | 0 <= i < |front|
        ensures CleanTurn(cfg, RunOf(cfg, e0, front[..i]), head, front[i])
      {
        assert turns[..i] == front[..i];
        assert CleanTurn(cfg, RunOf(cfg, e0, turns[..i]), head, turns[i]);
      }
      CleanTurnsRecord(cfg, e0, last, head, front);
      assert CleanTurn(cfg, RunOf(cfg, e0, turns[..|front|]), head, turns[|front|]);
      CleanTurnRecords(cfg, e, last, head, |front|, turn);
      assert RunOf(cfg, e0, turns) == Take(cfg, e, turn);
    }
  }

  /** After k such turns of the loop min(head, last + k * range) is recorded, so a standing head is
      reached in exactly ceil((head - last) / range) turns. */
  lemma StandingHeadIsReached(cfg: EmitterConfig, e0: Emitting, last: nat, head: nat, turns: seq<Turn>)
    requires Bounded(cfg) && Recordable(cfg, head) && cfg.start <= last + 1 && last <= head
    requires Steady(e0, last) && CleanTurns(cfg, e0, head, turns)
    ensures RunOf(cfg, e0, turns).saved == Some(Smaller(head, last + |turns| * cfg.filterRange))
    ensures RunOf(cfg, e0, turns).saved == Some(head) <==> |turns| >= Ceiling(head - last, cfg.filterRange)
  {
    var k, saved := |turns|, RunOf(cfg, e0, turns).saved;
    CleanTurnsRecord(cfg, e0, last, head, turns);
    RecordedReaches(cfg, last, head, k, saved);
  }
}
