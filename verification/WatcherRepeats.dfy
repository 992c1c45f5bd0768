/** How often the whole program gives a hash to the service as good: once, unless the recorded block
    drops so far that a window reaches back below an eviction of the engine. */
module WatcherRepeats {
  import opened Words
  import opened Types
  import opened PollSpec
  import opened PollTheory
  import opened EmitterSpec
  import PollRuns
  import E = EngineSpec
  import T = EngineTheory
  import Q = EngineRepeats
  import W = Watcher
  import N = WatcherNumbers
  import opened WatcherRuns

  /** What the engine is given in a turn of the loop, if its poll has a result. */
  function InputOf(cfg: EmitterConfig, policy: Policy, s: System, turn: Turn): seq<T.Input> {
    if turn.Turn? && WindowOf(cfg, s, turn.head).NewStatus? then
      match OutcomeOf(cfg, policy, s, WindowOf(cfg, s, turn.head).next, turn)
      case Failed(_) => []
      case Polled(result, _) => [T.Input(result, turn.reply)]
    else []
  }

  /** What the engine is given over a run. */
  function InputsOf(cfg: EmitterConfig, policy: Policy, s0: System, turns: seq<Turn>): seq<T.Input> {
    if turns == [] then []
    else
      var front := turns[..|turns| - 1];
      InputsOf(cfg, policy, s0, front) +
        match RunOf(cfg, policy, s0, front)
        case On(s) => InputOf(cfg, policy, s, turns[|turns| - 1])
        case _ => []
  }

  function EngineOf(cfg: EmitterConfig): E.EngineConfig {
    E.EngineConfig(cfg.filterRange, cfg.maxRetries)
  }

  lemma OneMoreInput(cfg: E.EngineConfig, inputs: seq<T.Input>, input: T.Input)
    requires T.RunOf(cfg, inputs).Some?
    requires E.EngineStep(cfg, T.RunOf(cfg, inputs).value.metas, input.result, input.reply).Done?
    ensures T.RunOf(cfg, inputs + [input]).Some?
    ensures T.RunOf(cfg, inputs + [input]).value.metas
         == E.EngineStep(cfg, T.RunOf(cfg, inputs).value.metas, input.result, input.reply).metas
  {
    assert (inputs + [input])[..|inputs|] == inputs;
  }

  /** The engine of the program is the engine run on those inputs. */
  lemma {:induction false} EngineRuns(cfg: EmitterConfig, policy: Policy, s0: System, turns: seq<Turn>)
    requires Initial(cfg, s0) && RunOf(cfg, policy, s0, turns).On?
    ensures var run := T.RunOf(EngineOf(cfg), InputsOf(cfg, policy, s0, turns));
      run.Some? && run.value.metas == RunOf(cfg, policy, s0, turns).system.world.metas
    decreases |turns|
  {
    if turns != [] {
      var front, turn := turns[..|turns| - 1], turns[|turns| - 1];
      EngineRuns(cfg, policy, s0, front);
      var s := RunOf(cfg, policy, s0, front).system;
      var input := InputOf(cfg, policy, s, turn);
      TurnRuns(cfg, policy, s, turn);
      if input == [] {
        assert InputsOf(cfg, policy, s0, front) + [] == InputsOf(cfg, policy, s0, front);
      } else {
        OneMoreInput(EngineOf(cfg), InputsOf(cfg, policy, s0, front), input[0]);
      }
    }
  }

  /** A turn changes the metadata as the engine's iteration over its input does. */
  lemma TurnRuns(cfg: EmitterConfig, policy: Policy, s: System, turn: Turn)
    requires Advance(cfg, policy, s, turn).On?
    ensures var input, metas := InputOf(cfg, policy, s, turn), Advance(cfg, policy, s, turn).system.world.metas;
      && (input == [] ==> metas == s.world.metas)
      && (input != [] ==>
            && |input| == 1
            && E.EngineStep(EngineOf(cfg), s.world.metas, input[0].result, input[0].reply).Done?
            && metas == E.EngineStep(EngineOf(cfg), s.world.metas, input[0].result, input[0].reply).metas)
  {
    if turn.Turn? && WindowOf(cfg, s, turn.head).NewStatus? {
      var next := WindowOf(cfg, s, turn.head).next;
      var o := OutcomeOf(cfg, policy, s, next, turn);
      assert Advance(cfg, policy, s, turn).system.world == W.Take(ConfigOf(cfg, policy), s.world, RoundOf(next, turn)).world;
      if o.Polled? {
        W.TakeServed(ConfigOf(cfg, policy), s.world, RoundOf(next, turn), o.result);
      }
    }
  }

  /** The good blocks of an input have the numbers of their hashes, and lie in its window. */
  ghost predicate InputPlain(numbers: N.Numbering, input: T.Input) {
    && N.AllNumbered(numbers, input.result.good)
    && forall g :: g in input.result.good ==> input.result.from <= g.number < TWO_63
  }

  lemma PollStaysInWindow(cfg: Config, s: PollerState, from: nat, to: nat, a: Answers, o: Outcome)
    requires o == Poll(cfg, s, from, to, a).1 && o.Polled?
    ensures o.result.from == from && forall g :: g in o.result.good ==> from <= g.number <= to
  {
    var t := Evicted(s.tracker, EvictionBound(cfg, s.lastRecorded));
    LookedCoherent(cfg.policy, t, from, to, a);
    PollRuns.GoodMembers(cfg.policy, t, Looked(cfg.policy, t, from, to, a).value, from, to);
  }

  lemma TurnInputPlain(cfg: EmitterConfig, policy: Policy, numbers: N.Numbering, s: System, turn: Turn)
    requires TurnPlain(cfg, policy, numbers, s, turn)
    ensures forall input :: input in InputOf(cfg, policy, s, turn) ==> InputPlain(numbers, input)
  {
    if turn.Turn? && WindowOf(cfg, s, turn.head).NewStatus? {
      var next := WindowOf(cfg, s, turn.head).next;
      var o := OutcomeOf(cfg, policy, s, next, turn);
      if o.Polled? {
        PollStaysInWindow(ConfigOf(cfg, policy).Poller(), s.world.poller, next.from, next.to, turn.answers, o);
      }
    }
  }

  lemma {:induction false} InputsPlain(cfg: EmitterConfig, policy: Policy, numbers: N.Numbering, s0: System,
                                       turns: seq<Turn>)
    requires TurnsPlain(cfg, policy, numbers, s0, turns)
    ensures forall input :: input in InputsOf(cfg, policy, s0, turns) ==> InputPlain(numbers, input)
    decreases |turns|
  {
    if turns != [] {
      var front := turns[..|turns| - 1];
      assert forall i :: 0 <= i < |front| ==> front[..i] == turns[..i] && front[i] == turns[i];
      InputsPlain(cfg, policy, numbers, s0, front);
      if RunOf(cfg, policy, s0, front).On? {
        TurnInputPlain(cfg, policy, numbers, RunOf(cfg, policy, s0, front).system, turns[|turns| - 1]);
      }
    }
  }

  lemma InputsFixNumber(numbers: N.Numbering, inputs: seq<T.Input>, h: Hash)
    requires h in numbers && forall input :: input in inputs ==> InputPlain(numbers, input)
    ensures Q.FixesNumber(inputs, h, numbers[h])
  {
    forall i, b | 0 <= i < |inputs| && b in inputs[i].result.good && b.hash == h
      ensures b.number == numbers[h]
    {
      assert inputs[i] in inputs && N.Numbered(numbers, b);
    }
  }

  /** Over every run of the whole program in which a hash fixes its number: the service is given a hash
      as good more than once if and only if the hash is listed again after the engine's eviction has
      reached its number. */
  lemma HandledTwiceIff(cfg: EmitterConfig, policy: Policy, numbers: N.Numbering, s0: System, turns: seq<Turn>, h: Hash)
    requires Initial(cfg, s0) && TurnsPlain(cfg, policy, numbers, s0, turns) && RunOf(cfg, policy, s0, turns).On?
    requires h in numbers
    ensures var inputs := InputsOf(cfg, policy, s0, turns);
      Q.GivenTwice(EngineOf(cfg), inputs, h) <==> Q.ListedAfterEviction(EngineOf(cfg), inputs, h, numbers[h])
  {
    var inputs := InputsOf(cfg, policy, s0, turns);
    EngineRuns(cfg, policy, s0, turns);
    InputsPlain(cfg, policy, numbers, s0, turns);
    InputsFixNumber(numbers, inputs, h);
    Q.GivenTwiceIff(EngineOf(cfg), inputs, h, numbers[h]);
  }

  /** Every window starts above all evictions of the engine before it. */
  ghost predicate WindowsAbove(cfg: E.EngineConfig, inputs: seq<T.Input>) {
    forall k, j :: 0 <= k < j < |inputs| ==> E.EngineBound(cfg, inputs[k].result.lastGood) < inputs[j].result.from
  }

  /** A hash whose number an eviction has reached is in no window that starts above. */
  lemma UnlistedAbove(cfg: E.EngineConfig, numbers: N.Numbering, inputs: seq<T.Input>, h: Hash, k: nat, j: nat)
    requires WindowsAbove(cfg, inputs) && forall input :: input in inputs ==> InputPlain(numbers, input)
    requires k < j < |inputs| && h in numbers && Q.Reaches(cfg, inputs, k, numbers[h])
    ensures !Q.Listed(h, inputs[j].result.good)
  {
    assert InputPlain(numbers, inputs[j]);
    forall b | b in inputs[j].result.good
      ensures b.hash != h
    {
      assert N.Numbered(numbers, b);
    }
  }

  /** As long as they do, the service is given no hash twice. */
  lemma HandledOnce(cfg: EmitterConfig, policy: Policy, numbers: N.Numbering, s0: System, turns: seq<Turn>, h: Hash)
    requires Initial(cfg, s0) && TurnsPlain(cfg, policy, numbers, s0, turns) && RunOf(cfg, policy, s0, turns).On?
    requires h in numbers && WindowsAbove(EngineOf(cfg), InputsOf(cfg, policy, s0, turns))
    ensures !Q.GivenTwice(EngineOf(cfg), InputsOf(cfg, policy, s0, turns), h)
  {
    var ecfg, inputs := EngineOf(cfg), InputsOf(cfg, policy, s0, turns);
    HandledTwiceIff(cfg, policy, numbers, s0, turns, h);
    InputsPlain(cfg, policy, numbers, s0, turns);
    if Q.ListedAfterEviction(ecfg, inputs, h, numbers[h]) {
      var i: nat, j: nat :| i < j < |inputs| && Q.GivenAt(ecfg, inputs, h, i) && Q.Listed(h, inputs[j].result.good)
        && Q.EvictedBetween(ecfg, inputs, numbers[h], i, j);
      var k: nat :| i <= k < j && Q.Reaches(ecfg, inputs, k, numbers[h]);
      UnlistedAbove(ecfg, numbers, inputs, h, k, j);
      assert false;
    }
  }
}
