/** Emitter and engine as two processes over two unbuffered channels. A send and the receive that
    meets it are one joint step; everything else is a step of one process. */
module Handshake {
  import opened Types

  /** Where the emitter is: about to read the recorded block and poll, blocked in the send of a
      result, or blocked until the engine syncs. */
  datatype Emitter = Computing | Sending(result: PollerResult) | AwaitingSync

  /** Where the engine is: blocked in the receive, working on a result, done with it and about to save
      its LastGoodBlock, blocked in the sync send, or gone, with the sync channel closed behind it. */
  datatype Engine = Receiving | Handling(result: PollerResult) | Saving(result: PollerResult) | Syncing | Gone

  /** A read of the recorded block, with the number of results emitted before it. */
  datatype Read = Read(emitted: nat, value: Option<nat>)

  datatype State = State(
    emitter: Emitter,
    engine: Engine,
    saved: Option<nat>,
    emitted: seq<PollerResult>,
    handled: seq<PollerResult>,
    observed: seq<Read>)

  datatype Step =
    | Skip                         // the emitter reads the recorded block and finds no new block
    | Poll(result: PollerResult)   // the emitter reads the recorded block and polls
    | Emit                         // the result changes hands
    | Handle                       // the engine finishes with the result
    | Save                         // the engine saves its LastGoodBlock
    | Sync                         // the engine lets the emitter go on
    | Leave                        // the engine returns an error and closes the sync channel
    | SyncClosed                   // the emitter's receive from the closed channel returns at once

  ghost predicate Enabled(s: State, step: Step) {
    match step
    case Skip => s.emitter.Computing?
    case Poll(_) => s.emitter.Computing?
    case Emit => s.emitter.Sending? && s.engine.Receiving?
    case Handle => s.engine.Handling?
    case Save => s.engine.Saving?
    case Sync => s.emitter.AwaitingSync? && s.engine.Syncing?
    case Leave => s.engine.Handling? || s.engine.Saving?
    case SyncClosed => s.emitter.AwaitingSync? && s.engine.Gone?
  }

  function Apply(s: State, step: Step): State
    requires Enabled(s, step)
  {
    match step
    case Skip => s.(observed := s.observed + [Read(|s.emitted|, s.saved)])
    case Poll(r) => s.(emitter := Sending(r), observed := s.observed + [Read(|s.emitted|, s.saved)])
    case Emit => s.(emitter := AwaitingSync, engine := Handling(s.emitter.result), emitted := s.emitted + [s.emitter.result])
    case Handle => s.(engine := Saving(s.engine.result), handled := s.handled + [s.engine.result])
    case Save => s.(engine := Syncing, saved := Some(s.engine.result.lastGood))
    case Sync => s.(emitter := Computing, engine := Receiving)
    case Leave => s.(engine := Gone)
    case SyncClosed => s.(emitter := Computing)
  }

  ghost predicate Initial(s: State) {
    s.emitter == Computing && s.engine == Receiving && s.emitted == [] && s.handled == [] && s.observed == []
  }

  ghost predicate Follows(s: State, s': State) {
    exists step :: Enabled(s, step) && s' == Apply(s, step)
  }

  /** Any interleaving: each state is followed by what one enabled step makes of it. */
  ghost predicate Behaviour(states: seq<State>) {
    && states != []
    && Initial(states[0])
    && forall i :: 0 <= i < |states| - 1 ==> Follows(states[i], states[i + 1])
  }

  /** The recorded block after k results have been emitted and handled. */
  function SavedAfter(initial: Option<nat>, emitted: seq<PollerResult>, k: nat): Option<nat>
    requires k <= |emitted|
  {
    if k == 0 then initial else Some(emitted[k - 1].lastGood)
  }

  /** The control points that occur together while the engine lives. */
  ghost predicate InStep(s: State) {
    match s.engine
    case Receiving => !s.emitter.AwaitingSync? && s.emitted == s.handled
    case Handling(r) => s.emitter.AwaitingSync? && s.emitted == s.handled + [r]
    case Saving(r) => s.emitter.AwaitingSync? && s.emitted == s.handled && s.emitted != [] && s.emitted[|s.emitted| - 1] == r
    case Syncing => s.emitter.AwaitingSync? && s.emitted == s.handled
    case Gone => s.emitted == s.handled || (s.emitted != [] && s.emitted[..|s.emitted| - 1] == s.handled)
  }

  /** What is saved: the latest LastGoodBlock at the ends of a handshake, and the one before it from the
      moment a result changes hands until it is saved, for good if the engine leaves in between. */
  ghost predicate SavedInStep(initial: Option<nat>, s: State) {
    match s.engine
    case Receiving => s.saved == SavedAfter(initial, s.emitted, |s.emitted|)
    case Syncing => s.saved == SavedAfter(initial, s.emitted, |s.emitted|)
    case _ => s.emitted != [] && s.saved == SavedAfter(initial, s.emitted, |s.emitted| - 1)
  }

  /** A read returned the LastGoodBlock of the latest result emitted before it. */
  ghost predicate Current(initial: Option<nat>, s: State, read: Read) {
    read.emitted <= |s.emitted| && read.value == SavedAfter(initial, s.emitted, read.emitted)
  }

  /** Every read did. */
  ghost predicate ReadsCurrent(initial: Option<nat>, s: State) {
    forall i :: 0 <= i < |s.observed| ==> Current(initial, s, s.observed[i])
  }

  /** A read is current, unless it happened after the last emission and the engine has left: then it
      returned what is saved. */
  ghost predicate ReadInStep(initial: Option<nat>, s: State, read: Read) {
    && read.emitted <= |s.emitted|
    && (read.emitted == |s.emitted| ==> s.emitter.Computing? || s.emitter.Sending?)
    && if s.engine.Gone? && read.emitted == |s.emitted| then read.value == s.saved else Current(initial, s, read)
  }

  ghost predicate Inv(initial: Option<nat>, s: State) {
    && InStep(s)
    && SavedInStep(initial, s)
    && (forall i :: 0 <= i < |s.observed| ==> ReadInStep(initial, s, s.observed[i]))
  }

  lemma StepKeepsInv(initial: Option<nat>, s: State, step: Step)
    requires Inv(initial, s) && Enabled(s, step)
    ensures Inv(initial, Apply(s, step))
  {
  }

  lemma {:induction false} BehaviourKeepsInv(states: seq<State>, i: nat)
    requires Behaviour(states) && i < |states|
    ensures Inv(states[0].saved, states[i])
  {
    if i > 0 {
      BehaviourKeepsInv(states, i - 1);
      assert Follows(states[i - 1], states[i - 1 + 1]);
      var step :| Enabled(states[i - 1], step) && states[i] == Apply(states[i - 1], step);
      StepKeepsInv(states[0].saved, states[i - 1], step);
    }
  }

  /** In every interleaving the handled results are the emitted ones, each once and in order, with at
      most the last one outstanding; as long as the engine lives, every range computation has read
      the LastGoodBlock of the latest emitted result; and what a gone engine leaves saved is the one
      before it. */
  lemma HandshakeSafety(states: seq<State>, i: nat)
    requires Behaviour(states) && i < |states|
    ensures var s := states[i];
      && s.handled <= s.emitted && |s.emitted| <= |s.handled| + 1
      && (!s.engine.Gone? ==> ReadsCurrent(states[0].saved, s))
      && (s.engine.Gone? ==> s.emitted != [] && s.saved == SavedAfter(states[0].saved, s.emitted, |s.emitted| - 1))
      && (s.emitter.Computing? && !s.engine.Gone? ==>
            s.handled == s.emitted && s.saved == SavedAfter(states[0].saved, s.emitted, |s.emitted|))
  {
    BehaviourKeepsInv(states, i);
  }

  /** The two never wait for each other forever: some step is enabled exactly when the engine lives or
      the emitter is not blocked in a send to it. */
  lemma NoDeadlock(states: seq<State>, i: nat)
    requires Behaviour(states) && i < |states|
    ensures (exists step :: Enabled(states[i], step)) <==> !(states[i].engine.Gone? && states[i].emitter.Sending?)
  {
    BehaviourKeepsInv(states, i);
    var s := states[i];
    if s.emitter.Computing? {
      assert Enabled(s, Skip);
    } else if s.emitter.AwaitingSync? {
      assert s.engine.Handling? ==> Enabled(s, Handle);
      assert s.engine.Saving? ==> Enabled(s, Save);
      assert s.engine.Syncing? ==> Enabled(s, Sync);
      assert s.engine.Gone? ==> Enabled(s, SyncClosed);
    } else {
      assert s.engine.Receiving? ==> Enabled(s, Emit);
    }
  }

  /** The engine has left without saving its last result, whose LastGoodBlock is not the recorded one,
      and the emitter has read the record since. */
  ghost predicate ReadAfterLoss(initial: Option<nat>, s: State) {
    && s.engine.Gone? && s.emitted != []
    && SavedAfter(initial, s.emitted, |s.emitted| - 1) != SavedAfter(initial, s.emitted, |s.emitted|)
    && exists i :: 0 <= i < |s.observed| && s.observed[i].emitted == |s.emitted|
  }

  /** Exactly when range computations have read stale records, in every interleaving. */
  lemma StaleReadIff(states: seq<State>, i: nat)
    requires Behaviour(states) && i < |states|
    ensures !ReadsCurrent(states[0].saved, states[i]) <==> ReadAfterLoss(states[0].saved, states[i])
  {
    BehaviourKeepsInv(states, i);
    var initial, s := states[0].saved, states[i];
    assert forall j :: 0 <= j < |s.observed| ==> ReadInStep(initial, s, s.observed[j]);
    if ReadAfterLoss(initial, s) {
      var j :| 0 <= j < |s.observed| && s.observed[j].emitted == |s.emitted|;
      assert !Current(initial, s, s.observed[j]);
    }
  }

  /** It happens: the engine leaves with a result in hand, and the emitter, released by the closed
      channel, computes from a stale record. */
  lemma StaleReadAfterEngineLeft(r: PollerResult)
    ensures
      var s0 := State(Computing, Receiving, None, [], [], []);
      var s1 := Apply(s0, Poll(r));
      var s2 := Apply(s1, Emit);
      var s3 := Apply(s2, Leave);
      var s4 := Apply(s3, SyncClosed);
      var s5 := Apply(s4, Skip);
      Behaviour([s0, s1, s2, s3, s4, s5]) && !ReadsCurrent(None, s5)
  {
    var s0 := State(Computing, Receiving, None, [], [], []);
    var s1 := Apply(s0, Poll(r));
    var s2 := Apply(s1, Emit);
    var s3 := Apply(s2, Leave);
    var s4 := Apply(s3, SyncClosed);
    var s5 := Apply(s4, Skip);
    assert s5.observed[1] == Read(1, None);
    assert Enabled(s0, Poll(r)) && Enabled(s1, Emit) && Enabled(s2, Leave) && Enabled(s3, SyncClosed) && Enabled(s4, Skip);
    assert Follows(s0, s1) && Follows(s1, s2) && Follows(s2, s3) && Follows(s3, s4) && Follows(s4, s5);
  }
}
