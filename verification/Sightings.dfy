/** Blocks polled at a time when they existed. A first run does not cap its window at the head, so a
    block can be recorded without ever having been there to be polled. */
module Sightings {
  import opened Words
  import opened Types
  import opened EmitterSpec
  import opened EmitterTheory
  import opened EmitterRuns

  ghost predicate Sighted(windows: seq<Polled>, n: int) {
    exists i :: 0 <= i < |windows| && windows[i].from <= n <= windows[i].to && n <= windows[i].head
  }

  function LastHead(e: Emitting): nat
    requires e.windows != []
  {
    e.windows[|e.windows| - 1].head
  }

  /** No recorded block beyond the head of the last poll is still to be seen: a first run may start
      above them all. */
  ghost predicate Ready(e: Emitting) {
    e.windows != [] && e.saved.Some? ==>
      forall n | e.windows[0].from <= n <= e.saved.value :: LastHead(e) < n ==> Sighted(e.windows, n)
  }

  /** A first run is about to be made. */
  predicate FirstRunNext(e: Emitting, turn: Turn) {
    turn.Turn? && e.status.goBackFirstStart
  }

  /** Once the loop has emitted something (again), no first run is made before it is ready. */
  ghost predicate RestartsReady(cfg: EmitterConfig, e0: Emitting, turns: seq<Turn>) {
    forall i :: 0 <= i < |turns| ==>
      var e := RunOf(cfg, e0, turns[..i]);
      FirstRunNext(e, turns[i]) && e.windows != e0.windows ==> Ready(e)
  }

  ghost predicate SightInv(cfg: EmitterConfig, e: Emitting) {
    e.windows != [] && e.saved.Some? ==>
      forall n | e.windows[0].from <= n <= e.saved.value ::
        n <= LastHead(e) || n <= e.saved.value - cfg.filterRange ==> Sighted(e.windows, n)
  }

  lemma SightedByMore(windows: seq<Polled>, p: Polled, n: int)
    requires (p.from <= n <= p.to && n <= p.head) || Sighted(windows, n)
    ensures Sighted(windows + [p], n)
  {
    var more := windows + [p];
    if Sighted(windows, n) {
      var i :| 0 <= i < |windows| && windows[i].from <= n <= windows[i].to && n <= windows[i].head;
      assert more[i] == windows[i];
    } else {
      assert more[|windows|] == p;
    }
  }

  lemma TakeKeepsSightings(cfg: EmitterConfig, e: Emitting, turn: Turn)
    requires Bounded(cfg) && Inv(cfg, e) && TurnOk(cfg, e, turn) && SightInv(cfg, e)
    requires FirstRunNext(e, turn) ==> Ready(e)
    ensures SightInv(cfg, Take(cfg, e, turn))
  {
    if turn.Turn? && IterationOf(cfg, e, turn).Emitted? {
      EmittedKind(cfg, e, turn);
      var e', w := Take(cfg, e, turn), IterationOf(cfg, e, turn).next;
      var p := Polled(w.from, w.to, w.current, w.lastRecorded);
      forall n | e'.windows[0].from <= n <= turn.lastGood
                 && (n <= LastHead(e') || n <= turn.lastGood - cfg.filterRange)
        ensures Sighted(e'.windows, n)
      {
        assert w.from <= n ==> n <= w.to && n <= w.current;
        if n < w.from {
          assert e.windows != [] && WellFormed(cfg, e.windows[0]);
          assert Sighted(e.windows, n);
        }
        SightedByMore(e.windows, p, n);
      }
    }
  }

  /** From a state that is fit for it on, runs whose restarts wait keep the invariants. */
  lemma {:induction false} RunKeepsSightings(cfg: EmitterConfig, e0: Emitting, turns: seq<Turn>)
    requires Bounded(cfg) && Inv(cfg, e0) && SightInv(cfg, e0) && Ready(e0)
    requires TurnsOk(cfg, e0, turns) && RestartsReady(cfg, e0, turns)
    ensures Inv(cfg, RunOf(cfg, e0, turns)) && SightInv(cfg, RunOf(cfg, e0, turns))
    decreases |turns|
  {
    if turns != [] {
      var front := turns[..|turns| - 1];
      assert forall i :: 0 <= i < |front| ==> turns[..i] == front[..i] && turns[i] == front[i];
      RunKeepsSightings(cfg, e0, front);
      var e := RunOf(cfg, e0, front);
      ReadyIsOfWindows(cfg, e0, front);
      TakeKeepsInv(cfg, e, turns[|turns| - 1]);
      TakeKeepsSightings(cfg, e, turns[|turns| - 1]);
    }
  }

  /** As long as nothing is emitted, nothing is saved either. */
  lemma {:induction false} ReadyIsOfWindows(cfg: EmitterConfig, e0: Emitting, turns: seq<Turn>)
    ensures |RunOf(cfg, e0, turns).windows| >= |e0.windows|
    ensures RunOf(cfg, e0, turns).windows == e0.windows ==> RunOf(cfg, e0, turns).saved == e0.saved
    decreases |turns|
  {
    if turns != [] {
      ReadyIsOfWindows(cfg, e0, turns[..|turns| - 1]);
    }
  }

  /** Every recorded block, from the first window's start on and up to the head of the last poll, was
      polled while it existed. */
  ghost predicate AllSighted(e: Emitting) {
    e.windows != [] && e.saved.Some? ==>
      forall n | e.windows[0].from <= n <= e.saved.value :: n <= LastHead(e) ==> Sighted(e.windows, n)
  }

  /** That holds over every run whose restarts wait until the emitter is ready for them. */
  lemma RecordedWereSighted(cfg: EmitterConfig, e0: Emitting, turns: seq<Turn>)
    requires Bounded(cfg) && Initial(cfg, e0) && TurnsOk(cfg, e0, turns) && RestartsReady(cfg, e0, turns)
    ensures AllSighted(RunOf(cfg, e0, turns))
  {
    RunKeepsSightings(cfg, e0, turns);
  }

  /** However the program goes on from here, as long as later restarts wait, no recorded block is missed. */
  ghost predicate SafeFrom(cfg: EmitterConfig, e: Emitting) {
    forall turns :: TurnsOk(cfg, e, turns) && RestartsReady(cfg, e, turns) ==> AllSighted(RunOf(cfg, e, turns))
  }

  /** The turn that loses a block: a first run at a head that has grown past it. */
  function LosingTurn(cfg: EmitterConfig, last: nat): Turn {
    Turn(Some(last + cfg.filterRange), Clean, last + cfg.filterRange)
  }

  lemma UnreadyLoses(cfg: EmitterConfig, e: Emitting, n: nat)
    requires Bounded(cfg) && Inv(cfg, e) && e.status.goBackFirstStart && e.windows != []
    requires e.windows[0].from <= n <= e.saved.value && !Sighted(e.windows, n)
    requires e.saved.value + 2 * cfg.filterRange + 1 < TWO_63
    ensures var turns := [LosingTurn(cfg, e.saved.value)];
      TurnsOk(cfg, e, turns) && RestartsReady(cfg, e, turns) && !AllSighted(RunOf(cfg, e, turns))
  {
    var last, turn := e.saved.value, LosingTurn(cfg, e.saved.value);
    FirstRunWindowIs(cfg, e.status, last, turn.head.value);
    assert [turn][..0] == [];
    var e' := Take(cfg, e, turn);
    assert e'.windows == e.windows + [Polled(last + 1, last + cfg.filterRange, last + cfg.filterRange, last)];
    assert RunOf(cfg, e, [turn]) == e';
    assert !Sighted(e'.windows, n) by {
      assert forall i :: 0 <= i < |e.windows| ==> e'.windows[i] == e.windows[i];
    }
  }

  /** A restart is safe, in every continuation, exactly when the emitter is ready for it. The windows
      polled and the recorded block tell, before the restart. */
  lemma RestartIsSafeIff(cfg: EmitterConfig, e0: Emitting, turns: seq<Turn>, origin: Status)
    requires Bounded(cfg) && Initial(cfg, e0) && TurnsOk(cfg, e0, turns) && RestartsReady(cfg, e0, turns)
    requires RunOf(cfg, e0, turns).saved.Some? ==>
      RunOf(cfg, e0, turns).saved.value + 2 * cfg.filterRange + 1 < TWO_63
    requires origin.goBackFirstStart && origin.retries == 0 && !origin.isReorging
    ensures var e := RunOf(cfg, e0, turns).(status := origin); SafeFrom(cfg, e) <==> Ready(e)
  {
    RunKeepsSightings(cfg, e0, turns);
    var e := RunOf(cfg, e0, turns).(status := origin);
    if Ready(e) {
      forall later | TurnsOk(cfg, e, later) && RestartsReady(cfg, e, later)
        ensures AllSighted(RunOf(cfg, e, later))
      {
        RunKeepsSightings(cfg, e, later);
      }
    } else {
      var n: nat :| e.windows[0].from <= n <= e.saved.value && LastHead(e) < n && !Sighted(e.windows, n);
      UnreadyLoses(cfg, e, n);
    }
  }

  /** The recorded block is there already, or lies below all windows. */
  predicate CaughtUp(e: Emitting) {
    e.windows != [] && e.saved.Some? ==> e.saved.value <= LastHead(e) || e.saved.value < e.windows[0].from
  }

  /** Unless the chain has shrunk, being ready is having caught up. */
  lemma ReadyIsCaughtUp(e: Emitting)
    requires forall i :: 0 <= i < |e.windows| ==> e.windows[i].head <= LastHead(e)
    ensures Ready(e) <==> CaughtUp(e)
  {
    if !CaughtUp(e) {
      assert !Sighted(e.windows, e.saved.value);
    }
  }

  const CFG := EmitterConfig(1, 10, 3)
  const ORIGIN := Status(0, 0, 0, 0, true, false, 0)
  const E0 := Emitting(ORIGIN, Some(10), [])
  const E1 := Emitting(Status(11, 20, 12, 10, false, false, 0), Some(20), [Polled(11, 20, 12, 10)])
  const E3 := Emitting(Status(21, 30, 13, 20, false, false, 0), Some(30), E1.windows + [Polled(21, 30, 13, 20)])
  const E4 := Emitting(Status(21, 40, 50, 30, false, false, 0), Some(40), E3.windows + [Polled(21, 40, 50, 30)])

  lemma FirstTurn()
    ensures TurnOk(CFG, E0, Turn(Some(12), Clean, 20)) && Take(CFG, E0, Turn(Some(12), Clean, 20)) == E1
  {
    FirstRunWindowIs(CFG, ORIGIN, 10, 12);
  }

  lemma ThirdTurn()
    ensures var e := E1.(status := ORIGIN);
      TurnOk(CFG, e, Turn(Some(13), Clean, 30)) && Take(CFG, e, Turn(Some(13), Clean, 30)) == E3
  {
    FirstRunWindowIs(CFG, ORIGIN, 20, 13);
  }

  lemma FourthTurn()
    ensures TurnOk(CFG, E3, Turn(Some(50), Clean, 40)) && Take(CFG, E3, Turn(Some(50), Clean, 40)) == E4
  {
    NormalWindowIs(CFG, E3.status, Found(30), 30, 50);
  }

  /** The turn is fine, and leads from one state to the other. */
  ghost predicate Leads(cfg: EmitterConfig, e: Emitting, turn: Turn, e': Emitting) {
    TurnOk(cfg, e, turn) && Take(cfg, e, turn) == e'
  }

  lemma OneMore(cfg: EmitterConfig, e0: Emitting, turns: seq<Turn>, turn: Turn, e: Emitting, e': Emitting)
    requires TurnsOk(cfg, e0, turns) && RunOf(cfg, e0, turns) == e && Leads(cfg, e, turn, e')
    ensures TurnsOk(cfg, e0, turns + [turn]) && RunOf(cfg, e0, turns + [turn]) == e'
  {
    var more := turns + [turn];
    assert more[..|turns|] == turns;
    forall i | 0 <= i < |more|
      ensures TurnOk(cfg, RunOf(cfg, e0, more[..i]), more[i])
    {
      if i < |turns| {
        assert more[..i] == turns[..i];
      }
    }
  }

  /** A run of five turns through the given states. */
  lemma RunOfFive(cfg: EmitterConfig, t0: Turn, t1: Turn, t2: Turn, t3: Turn, t4: Turn,
                  e0: Emitting, e1: Emitting, e2: Emitting, e3: Emitting, e4: Emitting, e5: Emitting)
    requires Leads(cfg, e0, t0, e1) && Leads(cfg, e1, t1, e2) && Leads(cfg, e2, t2, e3)
    requires Leads(cfg, e3, t3, e4) && Leads(cfg, e4, t4, e5)
    ensures TurnsOk(cfg, e0, [t0, t1, t2, t3, t4])
    ensures RunOf(cfg, e0, [t0, t1, t2]) == e3 && RunOf(cfg, e0, [t0, t1, t2, t3, t4]) == e5
  {
    OneMore(cfg, e0, [], t0, e0, e1);
    assert [] + [t0] == [t0];
    OneMore(cfg, e0, [t0], t1, e1, e2);
    assert [t0] + [t1] == [t0, t1];
    OneMore(cfg, e0, [t0, t1], t2, e2, e3);
    assert [t0, t1] + [t2] == [t0, t1, t2];
    OneMore(cfg, e0, [t0, t1, t2], t3, e3, e4);
    assert [t0, t1, t2] + [t3] == [t0, t1, t2, t3];
    OneMore(cfg, e0, [t0, t1, t2, t3], t4, e4, e5);
    assert [t0, t1, t2, t3] + [t4] == [t0, t1, t2, t3, t4];
  }

  /** The second turn fails, as the node does not tell its head, and so the loop is restarted. */
  const TURNS :=
    [Turn(Some(12), Clean, 20), Turn(None, Clean, 20), Restart(ORIGIN), Turn(Some(13), Clean, 30), Turn(Some(50), Clean, 40)]

  lemma SecondTurn()
    ensures TurnOk(CFG, E1, TURNS[1]) && IterationOf(CFG, E1, TURNS[1]).Returned? && Take(CFG, E1, TURNS[1]) == E1
  {
  }

  lemma ThirdRestarts()
    ensures Leads(CFG, E1, Restart(ORIGIN), E1.(status := ORIGIN))
  {
  }

  lemma TurnsRun()
    ensures TurnsOk(CFG, E0, TURNS)
    ensures RunOf(CFG, E0, TURNS[..3]) == E1.(status := ORIGIN) && RunOf(CFG, E0, TURNS) == E4
  {
    FirstTurn();
    SecondTurn();
    ThirdRestarts();
    ThirdTurn();
    FourthTurn();
    RunOfFive(CFG, TURNS[0], TURNS[1], TURNS[2], TURNS[3], TURNS[4], E0, E1, E1, E1.(status := ORIGIN), E3, E4);
    assert TURNS[..3] == [TURNS[0], TURNS[1], TURNS[2]];
    assert TURNS == [TURNS[0], TURNS[1], TURNS[2], TURNS[3], TURNS[4]];
  }

  /** A block that a first run recorded beyond the head, and that no later window holds. */
  lemma Lost(e1: Emitting, e4: Emitting, n: nat)
    requires |e1.windows| == 1 && |e4.windows| == 3 && e4.windows[0] == e1.windows[0] && e1.saved.Some?
    requires e1.windows[0].from <= n <= e1.saved.value && e1.windows[0].head < n
    requires n < e4.windows[1].from && n < e4.windows[2].from
    ensures !Ready(e1) && !Sighted(e4.windows, n)
  {
    assert !Sighted(e1.windows, n);
  }

  /** Restarting unready loses blocks: range 10, recorded block 10. A first run at head 12 polls 11-20
      and records 20; the next turn fails; restarted at head 13 the loop polls 21-30 and records 30;
      then normal windows go on from 21. Block 15 is recorded, and no poll ever saw it. */
  lemma EarlyRestartLosesBlock()
    ensures Bounded(CFG) && Initial(CFG, E0) && TurnsOk(CFG, E0, TURNS)
    ensures RunOf(CFG, E0, TURNS[..3]) == E1.(status := ORIGIN) && !Ready(E1.(status := ORIGIN))
    ensures RunOf(CFG, E0, TURNS) == E4
    ensures E4.windows[0].from <= 15 <= E4.saved.value && 15 <= LastHead(E4) && !Sighted(E4.windows, 15)
  {
    TurnsRun();
    Lost(E1.(status := ORIGIN), E4, 15);
  }
}
