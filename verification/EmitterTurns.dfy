/** When an iteration of the emitter's loop does what: it waits, emits, returns or panics; it never polls
    without a new block but on a first run; and its retry counter counts the reorgs in a row. */
module EmitterTurns {
  import opened Words
  import opened Types
  import opened EmitterSpec
  import opened EmitterTheory
  import opened EmitterRuns

  // ----- one iteration -----

  /** The record that an iteration starts from. */
  function RecordOf(cfg: EmitterConfig, gateway: Gateway): nat {
    if gateway.Found? then gateway.last else cfg.start
  }

  /** Gateway and node have answered. */
  predicate Answered(env: Env) {
    !env.gateway.GatewayError? && env.head.Some?
  }

  /** A first run over a record, which goes on even when there is no new block. */
  predicate FirstRun(status: Status, gateway: Gateway) {
    status.goBackFirstStart && gateway.Found?
  }

  /** There is nothing new: the head is the record. */
  predicate Idle(cfg: EmitterConfig, status: Status, env: Env) {
    Answered(env) && env.head == Some(RecordOf(cfg, env.gateway)) && !FirstRun(status, env.gateway)
  }

  /** The retries of a reorg are used up. */
  predicate GivesUp(cfg: EmitterConfig, status: Status, gateway: Gateway) {
    status.isReorging && !FirstRun(status, gateway) && status.retries > cfg.maxRetries
  }

  /** Exactly when an iteration waits, emits, panics and returns. */
  lemma IterationKinds(cfg: EmitterConfig, status: Status, env: Env)
    ensures var i := Iterate(cfg, status, env);
      var polls := Answered(env) && !Idle(cfg, status, env) && !GivesUp(cfg, status, env.gateway);
      && (i.Skipped? <==> Idle(cfg, status, env))
      && (i.Emitted? <==> polls && (env.poll == Clean || env.poll == FromReorged))
      && (i.Panicked? <==> polls && env.poll == NilResult)
      && (i.Returned? <==> !Idle(cfg, status, env) && (polls ==> env.poll == PollFailed))
  {
  }

  /** What an emission leaves: the mark of a reorg, and one retry more or none. */
  lemma EmittedStatus(cfg: EmitterConfig, status: Status, env: Env)
    requires Iterate(cfg, status, env).Emitted? && status.retries + 1 < TWO_64
    ensures var next := Iterate(cfg, status, env).next;
      && (next.isReorging <==> env.poll == FromReorged)
      && next.retries == (if env.poll == FromReorged then status.retries + 1 else 0)
      && !next.goBackFirstStart && next.lastRecorded == RecordOf(cfg, env.gateway) && Some(next.current) == env.head
  {
    ComputedStatus(cfg, status, env.gateway, env.head);
    AddExact(status.retries, 1);
  }

  /** What a computed status takes over, and what it starts anew. */
  lemma ComputedStatus(cfg: EmitterConfig, status: Status, gateway: Gateway, head: Option<nat>)
    requires Compute(cfg, status, gateway, head).1.NewStatus?
    ensures var next := Compute(cfg, status, gateway, head).1.next;
      && next.retries == status.retries && !next.goBackFirstStart
      && next.lastRecorded == RecordOf(cfg, gateway) && Some(next.current) == head
  {
  }

  // ----- one loopEmit -----

  /** The status iteration i of a session starts from. */
  function StatusBefore(status: Status, trace: seq<Iteration>, i: nat): Status
    requires i <= |trace|
  {
    if i == 0 then status
    else if trace[i - 1].Skipped? || trace[i - 1].Emitted? then StatusAfter(trace[i - 1]) else status
  }

  predicate GoesOn(i: Iteration) {
    i.Skipped? || i.Emitted?
  }

  ghost predicate Steps(cfg: EmitterConfig, status: Status, envs: seq<Env>, trace: seq<Iteration>, i: nat)
    requires i < |trace| <= |envs|
  {
    trace[i] == Iterate(cfg, StatusBefore(status, trace, i), envs[i])
  }

  /** Each iteration starts from the status the one before it leaves; all but the last go on; and the
      session is over early only because the last did not. */
  ghost predicate Chained(cfg: EmitterConfig, status: Status, envs: seq<Env>, trace: seq<Iteration>) {
    && |trace| <= |envs|
    && (forall i :: 0 <= i < |trace| ==> Steps(cfg, status, envs, trace, i))
    && (forall i :: 0 <= i < |trace| - 1 ==> GoesOn(trace[i]))
    && (|trace| < |envs| ==> trace != [] && !GoesOn(trace[|trace| - 1]))
  }

  lemma {:induction false} SessionIsChained(cfg: EmitterConfig, status: Status, envs: seq<Env>)
    ensures Chained(cfg, status, envs, Session(cfg, status, envs))
    decreases |envs|
  {
    if envs != [] {
      var first := Iterate(cfg, status, envs[0]);
      if GoesOn(first) {
        SessionIsChained(cfg, StatusAfter(first), envs[1..]);
        ChainedMore(cfg, status, envs, first, Session(cfg, StatusAfter(first), envs[1..]));
      }
    }
  }

  lemma StatusShifts(status: Status, first: Iteration, rest: seq<Iteration>, i: nat)
    requires GoesOn(first) && i <= |rest| && forall k :: 0 <= k < i ==> GoesOn(rest[k])
    ensures StatusBefore(status, [first] + rest, i + 1) == StatusBefore(StatusAfter(first), rest, i)
  {
    var trace := [first] + rest;
    assert i > 0 ==> trace[i] == rest[i - 1];
  }

  lemma StepsShift(cfg: EmitterConfig, status: Status, envs: seq<Env>, first: Iteration, rest: seq<Iteration>, i: nat)
    requires envs != [] && GoesOn(first) && i < |rest| < |envs| && forall k :: 0 <= k < i ==> GoesOn(rest[k])
    requires Steps(cfg, StatusAfter(first), envs[1..], rest, i)
    ensures Steps(cfg, status, envs, [first] + rest, i + 1)
  {
    StatusShifts(status, first, rest, i);
    assert ([first] + rest)[i + 1] == rest[i] && envs[i + 1] == envs[1..][i];
  }

  lemma ChainedMore(cfg: EmitterConfig, status: Status, envs: seq<Env>, first: Iteration, rest: seq<Iteration>)
    requires envs != [] && first == Iterate(cfg, status, envs[0]) && GoesOn(first)
    requires Chained(cfg, StatusAfter(first), envs[1..], rest)
    ensures Chained(cfg, status, envs, [first] + rest)
  {
    var trace := [first] + rest;
    forall i: nat | i < |trace|
      ensures Steps(cfg, status, envs, trace, i)
    {
      if i > 0 {
        StepsShift(cfg, status, envs, first, rest, i - 1);
      }
    }
    forall i | 0 <= i < |trace| - 1
      ensures GoesOn(trace[i])
    {
      assert i > 0 ==> trace[i] == rest[i - 1];
    }
    assert rest != [] ==> trace[|trace| - 1] == rest[|rest| - 1];
  }

  // ----- whole runs -----

  /** A turn whose head is the record, but for a first run over a record. */
  predicate IdleTurn(cfg: EmitterConfig, e: Emitting, turn: Turn) {
    turn.Turn? && Idle(cfg, e.status, Env(GatewayOf(e.saved), turn.head, turn.poll))
  }

  /** Such a turn leaves windows and record as they are; it only drops the mark of a first run, when there
      was no record to look at. */
  lemma IdleTurnChangesNothing(cfg: EmitterConfig, e: Emitting, turn: Turn)
    requires IdleTurn(cfg, e, turn)
    ensures Take(cfg, e, turn) == e.(status := e.status.(goBackFirstStart := false))
  {
  }

  /** The window was computed at a head that is not the record it was computed from, or is a first run's. */
  ghost predicate Fresh(w: Polled) {
    w.head == w.last ==> w.from == w.last + 1
  }

  ghost predicate AllFresh(windows: seq<Polled>) {
    forall i :: 0 <= i < |windows| ==> Fresh(windows[i])
  }

  lemma TakeKeepsFresh(cfg: EmitterConfig, e: Emitting, turn: Turn)
    requires Bounded(cfg) && Inv(cfg, e) && TurnOk(cfg, e, turn) && AllFresh(e.windows)
    ensures AllFresh(Take(cfg, e, turn).windows)
  {
    if turn.Turn? && IterationOf(cfg, e, turn).Emitted? {
      var next := IterationOf(cfg, e, turn).next;
      IterationKinds(cfg, e.status, Env(GatewayOf(e.saved), turn.head, turn.poll));
      EmittedKind(cfg, e, turn);
      assert Fresh(Polled(next.from, next.to, next.current, next.lastRecorded));
    }
  }

  /** Over every run, no window is polled without a new block but on a first run, which starts right above
      the record. */
  lemma {:induction false} PolledForNewBlocks(cfg: EmitterConfig, e0: Emitting, turns: seq<Turn>)
    requires Bounded(cfg) && Initial(cfg, e0) && TurnsOk(cfg, e0, turns)
    ensures AllFresh(RunOf(cfg, e0, turns).windows)
    decreases |turns|
  {
    if turns != [] {
      var front := turns[..|turns| - 1];
      assert forall i :: 0 <= i < |front| ==> turns[..i] == front[..i] && turns[i] == front[i];
      PolledForNewBlocks(cfg, e0, front);
      RunKeepsInv(cfg, e0, front);
      TakeKeepsFresh(cfg, RunOf(cfg, e0, front), turns[|turns| - 1]);
    }
  }

  /** How many polls in a row, up to now, have found their first block reorged since the loop was started. */
  function Streak(cfg: EmitterConfig, e0: Emitting, turns: seq<Turn>): nat {
    if turns == [] then 0
    else
      var front, turn := turns[..|turns| - 1], turns[|turns| - 1];
      if turn.Restart? then 0
      else if !IterationOf(cfg, RunOf(cfg, e0, front), turn).Emitted? then Streak(cfg, e0, front)
      else if turn.poll == FromReorged then Streak(cfg, e0, front) + 1
      else 0
  }

  lemma {:induction false} StreakIsShort(cfg: EmitterConfig, e0: Emitting, turns: seq<Turn>)
    ensures Streak(cfg, e0, turns) <= |turns|
    decreases |turns|
  {
    if turns != [] {
      StreakIsShort(cfg, e0, turns[..|turns| - 1]);
    }
  }

  /** Over every run the retry counter is that number, and the reorg mark is set exactly when it is not
      zero. */
  lemma {:induction false} RetriesAreStreak(cfg: EmitterConfig, e0: Emitting, turns: seq<Turn>)
    requires Initial(cfg, e0) && |turns| + 1 < TWO_64
    requires forall i :: 0 <= i < |turns| && turns[i].Restart? ==> turns[i].origin.retries == 0 && !turns[i].origin.isReorging
    ensures var status := RunOf(cfg, e0, turns).status;
      status.retries == Streak(cfg, e0, turns) && (status.isReorging <==> Streak(cfg, e0, turns) > 0)
    decreases |turns|
  {
    if turns != [] {
      var front, turn := turns[..|turns| - 1], turns[|turns| - 1];
      var e := RunOf(cfg, e0, front);
      RetriesAreStreak(cfg, e0, front);
      StreakIsShort(cfg, e0, front);
      if turn.Turn? && IterationOf(cfg, e, turn).Emitted? {
        EmittedStatus(cfg, e.status, Env(GatewayOf(e.saved), turn.head, turn.poll));
      }
      if turn.Turn? && IterationOf(cfg, e, turn).Skipped? {
        SkippedStatus(cfg, e.status, Env(GatewayOf(e.saved), turn.head, turn.poll));
      }
    }
  }

  lemma SkippedStatus(cfg: EmitterConfig, status: Status, env: Env)
    requires Iterate(cfg, status, env).Skipped?
    ensures var left := Iterate(cfg, status, env).left;
      left.retries == status.retries && left.isReorging == status.isReorging
  {
  }
}
