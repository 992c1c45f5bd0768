/** Polls whose answers all come from one view of the chain: a reorg is reported once, and
    PolicyFast reports what PolicyExpensive reports about blocks with logs. */
module PollViews {
  import opened Words
  import opened Types
  import opened Listings
  import opened PollSpec
  import opened PollTheory
  import opened PollRuns

  /** The answers `a` for the window show the chain `v`: its logs, its headers, nothing else. */
  ghost predicate Shows(v: map<nat, Block>, from: nat, to: nat, a: Answers) {
    && Keyed(v)
    && (forall n :: n in v ==> !v[n].migrated)
    && (forall n :: from <= n <= to ==> n in v)
    && a.logs.Some?
    && (forall l :: l in a.logs.value ==> from <= l.number <= to && l.hash == v[l.number].hash)
    && (forall n :: from <= n <= to ==> LogsAt(a.logs.value, n) == v[n].logs)
    && (forall n :: from <= n <= to ==> n in a.headers && a.headers[n] == v[n].hash)
    && (forall n :: from <= n <= to ==> n in a.missing && a.missing[n] == v[n].hash)
  }

  // ----- there are such answers for every chain -----

  /** The logs of the blocks `lo <= n < hi` of the chain. */
  function LogsOf(v: map<nat, Block>, lo: nat, hi: nat): seq<Log>
    decreases hi
  {
    if hi <= lo then [] else LogsOf(v, lo, hi - 1) + (if hi - 1 in v then v[hi - 1].logs else [])
  }

  /** A client's answers when the chain is `v`. */
  function AnswersOf(v: map<nat, Block>, from: nat, to: nat): Answers {
    var headers := map n | n in v :: v[n].hash;
    Answers(Some(LogsOf(v, from, to + 1)), headers, headers)
  }

  /** Blocks under their own numbers, whose logs carry the number and the hash of their block. */
  ghost predicate WellFormed(v: map<nat, Block>) {
    forall n :: n in v ==>
      && v[n].number == n && !v[n].migrated
      && forall l :: l in v[n].logs ==> l.number == n && l.hash == v[n].hash
  }

  lemma {:induction false} LogsAtAppend(a: seq<Log>, b: seq<Log>, n: nat)
    ensures LogsAt(a + b, n) == LogsAt(a, n) + LogsAt(b, n)
    decreases |a|
  {
    if a == [] {
      assert a + b == b;
    } else {
      LogsAtAppend(a[1..], b, n);
      assert (a + b)[1..] == a[1..] + b;
    }
  }

  lemma {:induction false} LogsAtOwn(logs: seq<Log>, own: nat, n: nat)
    requires forall i :: 0 <= i < |logs| ==> logs[i].number == own
    ensures LogsAt(logs, n) == if n == own then logs else []
    decreases |logs|
  {
    if logs != [] {
      LogsAtOwn(logs[1..], own, n);
    }
  }

  lemma {:induction false} LogsOfAt(v: map<nat, Block>, lo: nat, hi: nat, n: nat)
    requires WellFormed(v)
    ensures LogsAt(LogsOf(v, lo, hi), n) == if lo <= n < hi && n in v then v[n].logs else []
    decreases hi
  {
    if lo < hi {
      LogsOfAt(v, lo, hi - 1, n);
      if hi - 1 in v {
        LogsAtAppend(LogsOf(v, lo, hi - 1), v[hi - 1].logs, n);
        LogsAtOwn(v[hi - 1].logs, hi - 1, n);
      } else {
        assert LogsOf(v, lo, hi) == LogsOf(v, lo, hi - 1);
      }
    }
  }

  lemma {:induction false} LogsOfAre(v: map<nat, Block>, lo: nat, hi: nat)
    requires WellFormed(v)
    ensures forall l :: l in LogsOf(v, lo, hi) ==> lo <= l.number < hi && l.number in v && l.hash == v[l.number].hash
    decreases hi
  {
    if lo < hi {
      LogsOfAre(v, lo, hi - 1);
    }
  }

  /** Every well-formed chain can be shown. */
  lemma AnswersShow(v: map<nat, Block>, from: nat, to: nat)
    requires WellFormed(v) && forall n :: from <= n <= to ==> n in v
    ensures Shows(v, from, to, AnswersOf(v, from, to))
  {
    var a, logs := AnswersOf(v, from, to), LogsOf(v, from, to + 1);
    assert a.logs == Some(logs) && a.missing == a.headers;
    LogsOfAre(v, from, to + 1);
    forall n | from <= n <= to
      ensures LogsAt(logs, n) == v[n].logs && n in a.headers && a.headers[n] == v[n].hash
    {
      LogsOfAt(v, from, to + 1, n);
    }
  }

  lemma ViewHasOneHash(from: nat, to: nat, a: Answers, v: map<nat, Block>)
    requires Shows(v, from, to, a)
    ensures OneHashPerBlock(a.logs.value)
  {
    var logs := a.logs.value;
    forall i | 0 <= i < |logs| ensures logs[i].hash == v[logs[i].number].hash {
      assert logs[i] in logs;
    }
  }

  /** The logs of a block of the chain, collected. */
  lemma CollectedAt(from: nat, to: nat, a: Answers, v: map<nat, Block>, n: nat)
    requires Shows(v, from, to, a)
    ensures Collect(map[], a.logs.value).Ok?
    ensures n in Collect(map[], a.logs.value).value <==> from <= n <= to && v[n].logs != []
    ensures n in Collect(map[], a.logs.value).value ==> Collect(map[], a.logs.value).value[n] == Fresh(false, v[n])
  {
    var logs := a.logs.value;
    ViewHasOneHash(from, to, a, v);
    CollectGathers(logs);
    LogsAtMembers(logs, n);
    if from <= n <= to && v[n].logs != [] {
      assert LogsAt(logs, n)[0] in LogsAt(logs, n);
    }
  }

  lemma AssembledView(policy: Policy, from: nat, to: nat, a: Answers, v: map<nat, Block>)
    requires policy != ExpensiveBlock && Shows(v, from, to, a)
    ensures Assembled(policy, from, to, a).Ok?
    ensures forall n :: n in Assembled(policy, from, to, a).value <==>
      from <= n <= to && (policy == Expensive || v[n].logs != [])
    ensures forall n :: n in Assembled(policy, from, to, a).value ==>
      Assembled(policy, from, to, a).value[n] == Fresh(false, v[n])
  {
    CollectedAt(from, to, a, v, from);
    var m := Collect(map[], a.logs.value).value;
    forall n: nat
      ensures n in m <==> from <= n <= to && v[n].logs != []
      ensures n in m ==> m[n] == Fresh(false, v[n])
    {
      CollectedAt(from, to, a, v, n);
    }
  }

  /** The poll sees the window's blocks that have logs, or are tracked, or all of them, as they are. */
  lemma LookedView(policy: Policy, t: map<nat, Block>, from: nat, to: nat, a: Answers, v: map<nat, Block>)
    requires policy != ExpensiveBlock && Shows(v, from, to, a)
    ensures Looked(policy, t, from, to, a).Ok?
    ensures Coherent(policy, t, Looked(policy, t, from, to, a).value, from, to)
    ensures forall n :: n in Looked(policy, t, from, to, a).value <==>
      from <= n <= to && (policy == Expensive || v[n].logs != [] || n in t)
    ensures forall n :: n in Looked(policy, t, from, to, a).value ==>
      Looked(policy, t, from, to, a).value[n].block.(migrated := false) == v[n]
  {
    AssembledView(policy, from, to, a, v);
    LookedCoherent(policy, t, from, to, a);
  }

  lemma LoggedGoods(policy: Policy, t: map<nat, Block>, from: nat, to: nat, a: Answers, v: map<nat, Block>)
    requires policy != ExpensiveBlock && Shows(v, from, to, a)
    ensures Looked(policy, t, from, to, a).Ok?
    ensures WithLogs(Report(Looked(policy, t, from, to, a).value, t, from, to).good) == Listing(Logged(v), from, to + 1)
  {
    LookedView(policy, t, from, to, a, v);
    var m := Looked(policy, t, from, to, a).value;
    WithLogsOfListing(FreshBlocks(m), from, to + 1);
    ListingAgrees(Logged(FreshBlocks(m)), Logged(v), from, to + 1);
  }

  /** A poll of one chain succeeds, and its good blocks with logs are the chain's. */
  lemma PollOfView(cfg: Config, s: PollerState, from: nat, to: nat, a: Answers, v: map<nat, Block>, o: Outcome)
    requires cfg.policy != ExpensiveBlock && Shows(v, from, to, a)
    requires o == Poll(cfg, s, from, to, a).1
    ensures o.Polled? && WithLogs(o.result.good) == Listing(Logged(v), from, to + 1)
  {
    LoggedGoods(cfg.policy, Evicted(s.tracker, EvictionBound(cfg, s.lastRecorded)), from, to, a, v);
  }

  /** Polling any part of a window again while the chain stays the same reports no reorg, the same
      blocks with logs, and the end of the part as its LastGoodBlock. */
  lemma ReorgReportedOnce(cfg: Config, s: PollerState, from: nat, to: nat, a: Answers, lo: nat, hi: nat, b: Answers,
                          v: map<nat, Block>, s1: PollerState, o1: Outcome, o2: Outcome)
    requires cfg.policy != ExpensiveBlock && from <= lo && hi <= to
    requires Shows(v, from, to, a) && Shows(v, lo, hi, b)
    requires (s1, o1) == Poll(cfg, s, from, to, a)
    requires o2 == Poll(cfg, s1, lo, hi, b).1
    ensures o1.Polled? && WithLogs(o1.result.good) == Listing(Logged(v), from, to + 1)
    ensures o2.Polled? && WithLogs(o2.result.good) == Listing(Logged(v), lo, hi + 1)
    ensures o2 == Polled(PollerResult(lo, hi, hi, o2.result.good, []), false)
  {
    PollOfView(cfg, s, from, to, a, v, o1);
    PollOfView(cfg, s1, lo, hi, b, v, o2);
    TrackedAsSeen(cfg.policy, Evicted(s.tracker, EvictionBound(cfg, s.lastRecorded)), from, to, a, v);
    NoForksAgain(cfg.policy, Evicted(s1.tracker, EvictionBound(cfg, s1.lastRecorded)), lo, hi, b, v);
  }

  lemma NoForksAgain(policy: Policy, t: map<nat, Block>, from: nat, to: nat, a: Answers, v: map<nat, Block>)
    requires policy != ExpensiveBlock && Shows(v, from, to, a)
    requires forall n :: n in t && from <= n <= to ==> !Differs(t[n], v[n])
    ensures Looked(policy, t, from, to, a).Ok?
    ensures forall n :: n in Looked(policy, t, from, to, a).value ==> !Looked(policy, t, from, to, a).value[n].forked
    ensures Report(Looked(policy, t, from, to, a).value, t, from, to).reorged == []
  {
    LookedView(policy, t, from, to, a, v);
    var m := Looked(policy, t, from, to, a).value;
    ListingAgrees(Replaced(m, t), map[], from, to + 1);
    ListingOfNothing(from, to + 1);
  }

  lemma {:induction false} ListingOfNothing(lo: nat, hi: nat)
    ensures Listing(map[], lo, hi) == []
    decreases hi
  {
    if lo < hi {
      ListingOfNothing(lo, hi - 1);
    }
  }

  /** After a poll every tracked block of the window has the hash and logs the poll saw. */
  lemma TrackedAsSeen(policy: Policy, t: map<nat, Block>, from: nat, to: nat, a: Answers, v: map<nat, Block>)
    requires policy != ExpensiveBlock && Shows(v, from, to, a)
    ensures Looked(policy, t, from, to, a).Ok?
    ensures var t' := Settled(Looked(policy, t, from, to, a).value, t, policy, from, to + 1);
      forall n :: n in t' && from <= n <= to ==> t'[n].hash == v[n].hash && t'[n].logs == v[n].logs
  {
    LookedView(policy, t, from, to, a, v);
    var m := Looked(policy, t, from, to, a).value;
    var t' := Settled(m, t, policy, from, to + 1);
    forall n | n in t' && from <= n <= to
      ensures t'[n].hash == v[n].hash && t'[n].logs == v[n].logs
    {
      SettledAt(m, t, policy, from, to + 1, n);
      EntryAsSeen(policy, t, m, from, to, n, v[n]);
    }
  }

  /** The entry a poll leaves is what it saw. */
  lemma EntryAsSeen(policy: Policy, t: map<nat, Block>, m: map<nat, Fresh>, from: nat, to: nat, n: nat, b: Block)
    requires Coherent(policy, t, m, from, to) && from <= n <= to && Entry(m, t, policy, n).Some?
    requires n in m ==> m[n].block.(migrated := false) == b
    ensures Entry(m, t, policy, n).value.hash == b.hash && Entry(m, t, policy, n).value.logs == b.logs
  {
    assert n in m ==> CoherentAt(policy, t, m, from, to, n);
  }

  /** The tracker one pipeline leaves; a poll that fails leaves it as it was. */
  function TrackerOf(policy: Policy, t: map<nat, Block>, from: nat, to: nat, a: Answers): map<nat, Block> {
    match Looked(policy, t, from, to, a)
    case Err(_) => t
    case Ok(m) => Settled(m, t, policy, from, to + 1)
  }

  // ----- PolicyFast against PolicyExpensive -----

  /** At `n`, one map holds what the other holds with logs. */
  ghost predicate AgreeAt(fast: map<nat, Block>, expensive: map<nat, Block>, n: nat) {
    && (n in fast <==> n in expensive && expensive[n].logs != [])
    && (n in fast ==> fast[n] == expensive[n])
  }

  /** Agreement everywhere: the Fast tracker is the Expensive one without its empty blocks. */
  lemma AgreeEverywhere(fast: map<nat, Block>, expensive: map<nat, Block>)
    ensures fast == Logged(expensive) <==> forall n: nat :: AgreeAt(fast, expensive, n)
  {
    if forall n: nat :: AgreeAt(fast, expensive, n) {
      forall n: nat
        ensures n in fast <==> n in Logged(expensive)
        ensures n in fast ==> fast[n] == Logged(expensive)[n]
      {
        assert AgreeAt(fast, expensive, n);
      }
    }
  }

  /** What the two policies saw of block `n` of one chain, given trackers that agree there. */
  ghost predicate SawTheSame(tf: map<nat, Block>, te: map<nat, Block>, mf: map<nat, Fresh>, me: map<nat, Fresh>,
                             from: nat, to: nat, n: nat)
  {
    && AgreeAt(tf, te, n)
    && Coherent(Fast, tf, mf, from, to)
    && Coherent(Expensive, te, me, from, to)
    && (n in me <==> from <= n <= to)
    && (n in mf <==> from <= n <= to && (me[n].block.logs != [] || n in tf))
    && (n in mf ==> mf[n].block.(migrated := false) == me[n].block.(migrated := false))
  }

  lemma SawOneChain(tf: map<nat, Block>, te: map<nat, Block>, from: nat, to: nat, fast: Answers, expensive: Answers,
                    v: map<nat, Block>, n: nat)
    requires Shows(v, from, to, fast) && Shows(v, from, to, expensive) && AgreeAt(tf, te, n)
    ensures Looked(Fast, tf, from, to, fast).Ok? && Looked(Expensive, te, from, to, expensive).Ok?
    ensures SawTheSame(tf, te, Looked(Fast, tf, from, to, fast).value, Looked(Expensive, te, from, to, expensive).value,
                       from, to, n)
  {
    LookedView(Fast, tf, from, to, fast, v);
    LookedView(Expensive, te, from, to, expensive, v);
    var mf, me := Looked(Fast, tf, from, to, fast).value, Looked(Expensive, te, from, to, expensive).value;
    if n in mf {
      assert mf[n].block.(migrated := false) == v[n] == me[n].block.(migrated := false);
    }
  }

  lemma SameReplaced(tf: map<nat, Block>, te: map<nat, Block>, mf: map<nat, Fresh>, me: map<nat, Fresh>,
                     from: nat, to: nat, n: nat)
    requires SawTheSame(tf, te, mf, me, from, to, n)
    ensures AgreeAt(Replaced(mf, tf), Replaced(me, te), n)
  {
    assert n in mf ==> CoherentAt(Fast, tf, mf, from, to, n);
    assert n in me ==> CoherentAt(Expensive, te, me, from, to, n);
  }

  lemma SameEntry(tf: map<nat, Block>, te: map<nat, Block>, mf: map<nat, Fresh>, me: map<nat, Fresh>,
                  from: nat, to: nat, n: nat)
    requires SawTheSame(tf, te, mf, me, from, to, n) && from <= n <= to
    ensures Entry(me, te, Expensive, n) == Some(me[n].block)
    ensures Entry(mf, tf, Fast, n) == if me[n].block.logs != [] then Some(me[n].block) else None
  {
    assert n in mf ==> CoherentAt(Fast, tf, mf, from, to, n);
    assert CoherentAt(Expensive, te, me, from, to, n);
  }

  lemma SameTrackers(tf: map<nat, Block>, te: map<nat, Block>, mf: map<nat, Fresh>, me: map<nat, Fresh>,
                     from: nat, to: nat, n: nat)
    requires SawTheSame(tf, te, mf, me, from, to, n)
    ensures AgreeAt(Settled(mf, tf, Fast, from, to + 1), Settled(me, te, Expensive, from, to + 1), n)
  {
    SettledAt(mf, tf, Fast, from, to + 1, n);
    SettledAt(me, te, Expensive, from, to + 1, n);
    if from <= n <= to {
      SameEntry(tf, te, mf, me, from, to, n);
    }
  }

  lemma SameReorgs(tf: map<nat, Block>, te: map<nat, Block>, mf: map<nat, Fresh>, me: map<nat, Fresh>,
                   from: nat, to: nat)
    requires forall n: nat :: from <= n <= to ==> SawTheSame(tf, te, mf, me, from, to, n)
    ensures Listing(Replaced(mf, tf), from, to + 1) == WithLogs(Listing(Replaced(me, te), from, to + 1))
  {
    WithLogsOfListing(Replaced(me, te), from, to + 1);
    forall n: nat | from <= n <= to
      ensures AgreeAt(Replaced(mf, tf), Replaced(me, te), n)
    {
      assert SawTheSame(tf, te, mf, me, from, to, n);
      SameReplaced(tf, te, mf, me, from, to, n);
    }
    ListingsAgree(Replaced(mf, tf), Replaced(me, te), from, to);
  }

  lemma ListingsAgree(fast: map<nat, Block>, expensive: map<nat, Block>, from: nat, to: nat)
    requires forall n: nat :: from <= n <= to ==> AgreeAt(fast, expensive, n)
    ensures Listing(fast, from, to + 1) == Listing(Logged(expensive), from, to + 1)
  {
    forall n: nat | from <= n < to + 1
      ensures n in fast <==> n in Logged(expensive)
      ensures n in fast ==> fast[n] == Logged(expensive)[n]
    {
      assert AgreeAt(fast, expensive, n);
    }
    ListingAgrees(fast, Logged(expensive), from, to + 1);
  }

  /** The Fast report and the Expensive one, up to what Expensive says about empty blocks. */
  ghost predicate SameWithLogs(fast: PollerResult, expensive: PollerResult) {
    fast.reorged == WithLogs(expensive.reorged) && WithLogs(fast.good) == WithLogs(expensive.good)
  }

  /** One pipeline step over one chain. Trackers that agree at a number, be it outside the window, still
      agree there afterwards; when they agree on the window, both policies report the same reorged blocks
      with logs and the same good blocks with logs, and Fast reports no other reorgs. */
  lemma FastRefinesExpensive(tf: map<nat, Block>, te: map<nat, Block>, from: nat, to: nat,
                             fast: Answers, expensive: Answers, v: map<nat, Block>)
    requires Shows(v, from, to, fast) && Shows(v, from, to, expensive)
    ensures Looked(Fast, tf, from, to, fast).Ok? && Looked(Expensive, te, from, to, expensive).Ok?
    ensures forall n :: AgreeAt(tf, te, n) ==>
      AgreeAt(TrackerOf(Fast, tf, from, to, fast), TrackerOf(Expensive, te, from, to, expensive), n)
    ensures (forall n: nat :: from <= n <= to ==> AgreeAt(tf, te, n)) ==>
      SameWithLogs(Report(Looked(Fast, tf, from, to, fast).value, tf, from, to),
                   Report(Looked(Expensive, te, from, to, expensive).value, te, from, to))
  {
    LoggedGoods(Fast, tf, from, to, fast, v);
    LoggedGoods(Expensive, te, from, to, expensive, v);
    var mf, me := Looked(Fast, tf, from, to, fast).value, Looked(Expensive, te, from, to, expensive).value;
    forall n | AgreeAt(tf, te, n)
      ensures SawTheSame(tf, te, mf, me, from, to, n)
      ensures AgreeAt(TrackerOf(Fast, tf, from, to, fast), TrackerOf(Expensive, te, from, to, expensive), n)
    {
      SawOneChain(tf, te, from, to, fast, expensive, v, n);
      SameTrackers(tf, te, mf, me, from, to, n);
    }
    if forall n: nat :: from <= n <= to ==> AgreeAt(tf, te, n) {
      SameReorgs(tf, te, mf, me, from, to);
    }
  }

  // ----- whole runs of two pollers -----

  /** Both clients show the same chain in every round, through the same windows. */
  ghost predicate ShowTheSame(fast: seq<Round>, expensive: seq<Round>) {
    && |fast| == |expensive|
    && forall i :: 0 <= i < |fast| ==> SameView(fast[i], expensive[i])
  }

  ghost predicate SameView(fast: Round, expensive: Round) {
    && fast.from == expensive.from && fast.to == expensive.to
    && exists v :: Shows(v, fast.from, fast.to, fast.answers) && Shows(v, fast.from, fast.to, expensive.answers)
  }

  lemma EvictionKeepsAgreement(tf: map<nat, Block>, te: map<nat, Block>, bf: int, be: int, n: nat)
    requires AgreeAt(tf, te, n) && bf < Score(n) && be < Score(n)
    ensures AgreeAt(Evicted(tf, bf), Evicted(te, be), n)
  {
  }

  lemma StepKeepsAgreement(filterRange: nat, rf: Run, re: Run, fast: Round, expensive: Round, n: nat)
    requires SameView(fast, expensive) && AgreeAt(rf.state.tracker, re.state.tracker, n)
    requires EvictionBound(Config(filterRange, Fast), rf.state.lastRecorded) < Score(n)
    requires EvictionBound(Config(filterRange, Expensive), re.state.lastRecorded) < Score(n)
    ensures AgreeAt(Step(Config(filterRange, Fast), rf, fast).state.tracker,
                    Step(Config(filterRange, Expensive), re, expensive).state.tracker, n)
  {
    var bf := EvictionBound(Config(filterRange, Fast), rf.state.lastRecorded);
    var be := EvictionBound(Config(filterRange, Expensive), re.state.lastRecorded);
    var v :| Shows(v, fast.from, fast.to, fast.answers) && Shows(v, fast.from, fast.to, expensive.answers);
    EvictionKeepsAgreement(rf.state.tracker, re.state.tracker, bf, be, n);
    FastRefinesExpensive(Evicted(rf.state.tracker, bf), Evicted(re.state.tracker, be), fast.from, fast.to,
                         fast.answers, expensive.answers, v);
  }

  /** Over whole runs of two pollers, each of which evicts by its own last recorded block: they agree on
      every number that neither has evicted so far. */
  lemma {:induction false} TrackersAgree(filterRange: nat, fast: seq<Round>, expensive: seq<Round>, n: nat)
    requires ShowTheSame(fast, expensive) && n < TWO_63
    requires EvictsBelow(Config(filterRange, Fast), fast, n) && EvictsBelow(Config(filterRange, Expensive), expensive, n)
    ensures AgreeAt(RunOf(Config(filterRange, Fast), fast).state.tracker,
                    RunOf(Config(filterRange, Expensive), expensive).state.tracker, n)
    decreases |fast|
  {
    if fast != [] {
      var k := |fast| - 1;
      EvictsBelowPrefix(Config(filterRange, Fast), fast, n);
      EvictsBelowPrefix(Config(filterRange, Expensive), expensive, n);
      TrackersAgree(filterRange, fast[..k], expensive[..k], n);
      StepKeepsAgreement(filterRange, RunOf(Config(filterRange, Fast), fast[..k]),
                         RunOf(Config(filterRange, Expensive), expensive[..k]), fast[k], expensive[k], n);
    }
  }

  lemma EvictsBelowPrefix(cfg: Config, rounds: seq<Round>, floor: int)
    requires EvictsBelow(cfg, rounds, floor) && rounds != []
    ensures var front := rounds[..|rounds| - 1];
      EvictsBelow(cfg, front, floor) && EvictionBound(cfg, RunOf(cfg, front).state.lastRecorded) < floor
  {
    var front := rounds[..|rounds| - 1];
    assert forall i :: 0 <= i <= |front| ==> front[..i] == rounds[..i];
  }

  /** After such runs, a poll of one chain through a window that neither poller has evicted into makes
      Fast report what Expensive reports about blocks with logs, and no other reorgs. */
  lemma FastRefinesExpensiveOverRuns(filterRange: nat, fast: seq<Round>, expensive: seq<Round>,
                                     nf: Round, ne: Round, of: Outcome, oe: Outcome)
    requires ShowTheSame(fast, expensive) && SameView(nf, ne) && nf.to < TWO_63
    requires EvictsBelow(Config(filterRange, Fast), fast, nf.from)
    requires EvictsBelow(Config(filterRange, Expensive), expensive, nf.from)
    requires of == Poll(Config(filterRange, Fast), RunOf(Config(filterRange, Fast), fast).state, nf.from, nf.to, nf.answers).1
    requires oe == Poll(Config(filterRange, Expensive), RunOf(Config(filterRange, Expensive), expensive).state,
                        ne.from, ne.to, ne.answers).1
    ensures of.Polled? && oe.Polled? && SameWithLogs(of.result, oe.result)
  {
    var cf, ce := Config(filterRange, Fast), Config(filterRange, Expensive);
    var sf, se := RunOf(cf, fast).state, RunOf(ce, expensive).state;
    assert fast[..|fast|] == fast && expensive[..|expensive|] == expensive;
    var bf, be := EvictionBound(cf, sf.lastRecorded), EvictionBound(ce, se.lastRecorded);
    forall n: nat | nf.from <= n <= nf.to
      ensures AgreeAt(Evicted(sf.tracker, bf), Evicted(se.tracker, be), n)
    {
      TrackersAgree(filterRange, fast, expensive, n);
      EvictionKeepsAgreement(sf.tracker, se.tracker, bf, be, n);
    }
    var v :| Shows(v, nf.from, nf.to, nf.answers) && Shows(v, nf.from, nf.to, ne.answers);
    FastRefinesExpensive(Evicted(sf.tracker, bf), Evicted(se.tracker, be), nf.from, nf.to, nf.answers, ne.answers, v);
  }
}
