/** What a poll checks of arbitrary answers: exactly when it gets through, exactly which error it ends
    with otherwise, and what its blocks are made of when it gets through. */
module PollChecks {
  import opened Types
  import opened Listings
  import opened PollSpec
  import opened PollTheory
  import PollRuns

  /** Some log of the window comes from a block for which the node has no header. */
  ghost predicate Unheaded(logs: seq<Log>, headers: map<nat, Hash>, from: nat, to: nat) {
    exists l :: l in logs && from <= l.number <= to && l.number !in headers
  }

  /** Some log of the window has another block hash than the header for its number: the chain has changed
      between the two requests. */
  ghost predicate Contradicted(logs: seq<Log>, headers: map<nat, Hash>, from: nat, to: nat) {
    exists l :: l in logs && from <= l.number <= to && l.number in headers && l.hash != headers[l.number]
  }

  /** The node has a header for every number of the window. */
  ghost predicate AllHeaded(headers: map<nat, Hash>, from: nat, to: nat) {
    forall n :: from <= n <= to ==> n in headers
  }

  // ----- the fetching half -----

  lemma CollectedHashes(logs: seq<Log>, l: Log)
    requires Collect(map[], logs).Ok? && l in logs
    ensures l.number in Collect(map[], logs).value && Collect(map[], logs).value[l.number].block.hash == l.hash
  {
    CollectGathers(logs);
    LogsAtMembers(logs, l.number);
    var m := Collect(map[], logs).value;
    var first := LogsAt(logs, l.number)[0];
    assert first in LogsAt(logs, l.number);
    var i :| 0 <= i < |logs| && logs[i] == l;
    var j :| 0 <= j < |logs| && logs[j] == first;
    assert logs[i].number == logs[j].number;
  }

  /** The headers agree with the collected logs exactly when no log is contradicted, and lack a collected
      block exactly when they lack a log's. */
  lemma ChecksTold(logs: seq<Log>, headers: map<nat, Hash>, from: nat, to: nat)
    requires Collect(map[], logs).Ok?
    ensures var m := Collect(map[], logs).value;
      && (HeadersAgree(m, from, to, headers) <==> !Contradicted(logs, headers, from, to))
      && ((exists n :: n in m && from <= n <= to && n !in headers) <==> Unheaded(logs, headers, from, to))
  {
    var m := Collect(map[], logs).value;
    CollectGathers(logs);
    if !HeadersAgree(m, from, to, headers) {
      var n :| n in headers && from <= n <= to && n in m && m[n].block.hash != headers[n];
      var l :| l in logs && l.number == n;
      CollectedHashes(logs, l);
      assert Contradicted(logs, headers, from, to);
    }
    if Contradicted(logs, headers, from, to) {
      var l :| l in logs && from <= l.number <= to && l.number in headers && l.hash != headers[l.number];
      CollectedHashes(logs, l);
    }
    if n :| n in m && from <= n <= to && n !in headers {
      var l :| l in logs && l.number == n;
      assert Unheaded(logs, headers, from, to);
    }
    if Unheaded(logs, headers, from, to) {
      var l :| l in logs && from <= l.number <= to && l.number !in headers;
      CollectedHashes(logs, l);
    }
  }

  /** How the cheap policies' fetching ends, in terms of logs and headers. */
  lemma CheapEnds(from: nat, to: nat, a: Answers)
    ensures var r := PollCheap(from, to, a);
      && (r == Err(FetchError) <==>
            a.logs.None? || (OneHashPerBlock(a.logs.value) && Unheaded(a.logs.value, a.headers, from, to)))
      && (r == Err(HashesDiffer) <==>
            a.logs.Some? &&
            (!OneHashPerBlock(a.logs.value) ||
             (!Unheaded(a.logs.value, a.headers, from, to) && Contradicted(a.logs.value, a.headers, from, to))))
      && (r.Ok? || r == Err(FetchError) || r == Err(HashesDiffer))
  {
    if a.logs.Some? {
      CollectGathers(a.logs.value);
      CollectFailsOnHashes(map[], a.logs.value);
      if Collect(map[], a.logs.value).Ok? {
        ChecksTold(a.logs.value, a.headers, from, to);
      }
    }
  }

  /** How the expensive policy's does. */
  lemma ExpensiveEnds(from: nat, to: nat, a: Answers)
    ensures var r := PollExpensive(from, to, a);
      && (r == Err(FetchError) <==> a.logs.None? || !AllHeaded(a.headers, from, to))
      && (r == Err(HashesDiffer) <==>
            a.logs.Some? && AllHeaded(a.headers, from, to) &&
            (!OneHashPerBlock(a.logs.value) || Contradicted(a.logs.value, a.headers, from, to)))
      && (r.Ok? || r == Err(FetchError) || r == Err(HashesDiffer))
  {
    if a.logs.Some? {
      CollectGathers(a.logs.value);
      CollectFailsOnHashes(map[], a.logs.value);
      if Collect(map[], a.logs.value).Ok? {
        ChecksTold(a.logs.value, a.headers, from, to);
      }
    }
  }

  /** The hashes conflict, among the logs or between logs and headers, and nothing failed before that was
      noticed. */
  ghost predicate Conflicts(policy: Policy, from: nat, to: nat, a: Answers) {
    policy != ExpensiveBlock && a.logs.Some? &&
    var logs := a.logs.value;
    if policy == Expensive then
      AllHeaded(a.headers, from, to) && (!OneHashPerBlock(logs) || Contradicted(logs, a.headers, from, to))
    else
      !OneHashPerBlock(logs) || (!Unheaded(logs, a.headers, from, to) && Contradicted(logs, a.headers, from, to))
  }

  /** Logs and headers were fetched, and agree. */
  ghost predicate Agrees(policy: Policy, from: nat, to: nat, a: Answers) {
    policy != ExpensiveBlock && a.logs.Some? &&
    var logs := a.logs.value;
    && OneHashPerBlock(logs) && !Contradicted(logs, a.headers, from, to)
    && if policy == Expensive then AllHeaded(a.headers, from, to) else !Unheaded(logs, a.headers, from, to)
  }

  lemma AssembledEnds(policy: Policy, from: nat, to: nat, a: Answers)
    ensures var r := Assembled(policy, from, to, a);
      && (r.Ok? <==> Agrees(policy, from, to, a))
      && (r == Err(HashesDiffer) <==> Conflicts(policy, from, to, a))
      && (r == Err(NotImplemented) <==> policy == ExpensiveBlock)
  {
    CheapEnds(from, to, a);
    ExpensiveEnds(from, to, a);
  }

  // ----- whole polls -----

  /** A fetched block: the window's ones under PolicyExpensive, the ones with logs otherwise. */
  ghost predicate Fetched(policy: Policy, from: nat, to: nat, logs: seq<Log>, n: nat) {
    (exists l :: l in logs && l.number == n) || (policy == Expensive && from <= n <= to)
  }

  /** Every tracked block of the window that was not fetched has a header. */
  ghost predicate MissingHeaded(policy: Policy, t: map<nat, Block>, from: nat, to: nat, a: Answers)
    requires a.logs.Some?
  {
    forall n :: n in t && from <= n <= to && !Fetched(policy, from, to, a.logs.value, n) ==> n in a.missing
  }

  lemma AssembledKeys(policy: Policy, from: nat, to: nat, a: Answers, n: nat)
    requires Assembled(policy, from, to, a).Ok?
    ensures n in Assembled(policy, from, to, a).value <==> Fetched(policy, from, to, a.logs.value, n)
  {
    CollectGathers(a.logs.value);
  }

  /** For any answers: a poll has a result exactly when logs and headers agree and every missing block has a
      header; it fails on conflicting hashes exactly when they conflict; the block policy is not there; and
      whatever else fails is a fetch. */
  lemma PollEnds(cfg: Config, s: PollerState, from: nat, to: nat, a: Answers)
    ensures var t, o := Evicted(s.tracker, EvictionBound(cfg, s.lastRecorded)), Poll(cfg, s, from, to, a).1;
      && (o.Polled? <==> Agrees(cfg.policy, from, to, a) && MissingHeaded(cfg.policy, t, from, to, a))
      && (o == Failed(HashesDiffer) <==> Conflicts(cfg.policy, from, to, a))
      && (o == Failed(NotImplemented) <==> cfg.policy == ExpensiveBlock)
      && o != Failed(ProcessReorg)
  {
    var t := Evicted(s.tracker, EvictionBound(cfg, s.lastRecorded));
    AssembledEnds(cfg.policy, from, to, a);
    AssembledErrors(cfg.policy, from, to, a);
    if Assembled(cfg.policy, from, to, a).Ok? {
      var m := Assembled(cfg.policy, from, to, a).value;
      forall n: nat
        ensures n in m <==> Fetched(cfg.policy, from, to, a.logs.value, n)
      {
        AssembledKeys(cfg.policy, from, to, a, n);
      }
      assert Missing(m, t, from, to) <= a.missing.Keys <==> MissingHeaded(cfg.policy, t, from, to, a);
    }
  }

  /** What a good block of a poll with a result is made of: all its logs of the answer, in order, under one
      hash, which is that of the node's header for its number; without logs, of the header fetched with them
      under PolicyExpensive, and otherwise of the one fetched because the block is tracked. */
  ghost predicate MadeOf(policy: Policy, a: Answers, g: Block)
    requires a.logs.Some?
  {
    && g.logs == LogsAt(a.logs.value, g.number)
    && (forall l :: l in g.logs ==> l.hash == g.hash)
    && if policy == Expensive || g.logs != [] then g.number in a.headers && a.headers[g.number] == g.hash
       else g.number in a.missing && a.missing[g.number] == g.hash
  }

  lemma AssembledMadeOf(policy: Policy, from: nat, to: nat, a: Answers, n: nat)
    requires Assembled(policy, from, to, a).Ok? && n in Assembled(policy, from, to, a).value && from <= n <= to
    ensures MadeOf(policy, a, Assembled(policy, from, to, a).value[n].block)
    ensures policy != Expensive ==> Assembled(policy, from, to, a).value[n].block.logs != []
  {
    var logs := a.logs.value;
    var m := Collect(map[], logs).value;
    CollectGathers(logs);
    LogsAtMembers(logs, n);
    AssembledShape(policy, from, to, a);
    var g := Assembled(policy, from, to, a).value[n].block;
    if n in m {
      forall l | l in g.logs ensures l.hash == g.hash {
        CollectedHashes(logs, l);
      }
    } else {
      assert policy == Expensive && g.logs == [];
    }
  }

  /** The blocks a poll sees are made of what was answered. */
  lemma LookedMadeOf(policy: Policy, t: map<nat, Block>, from: nat, to: nat, a: Answers, n: nat)
    requires Looked(policy, t, from, to, a).Ok? && n in Looked(policy, t, from, to, a).value && from <= n <= to
    ensures MadeOf(policy, a, Looked(policy, t, from, to, a).value[n].block)
  {
    var m := Assembled(policy, from, to, a).value;
    var g := Looked(policy, t, from, to, a).value[n].block;
    if n in m {
      AssembledMadeOf(policy, from, to, a, n);
      assert g.logs == m[n].block.logs && g.hash == m[n].block.hash && g.number == m[n].block.number;
    } else {
      AssembledShape(policy, from, to, a);
      CollectGathers(a.logs.value);
      LogsAtMembers(a.logs.value, n);
      assert g.logs == [] && g.number == n;
    }
  }

  /** For any answers: every good block of a poll with a result is made of them, and each fetched block of
      the window is among the good ones. */
  lemma GoodsMadeOf(cfg: Config, s: PollerState, from: nat, to: nat, a: Answers, o: Outcome)
    requires o == Poll(cfg, s, from, to, a).1 && o.Polled?
    ensures a.logs.Some?
    ensures forall g :: g in o.result.good ==> from <= g.number <= to && MadeOf(cfg.policy, a, g)
    ensures forall n :: from <= n <= to && Fetched(cfg.policy, from, to, a.logs.value, n) ==>
      exists g :: g in o.result.good && g.number == n
    ensures o.result.from == from && o.result.to == to
  {
    var t := Evicted(s.tracker, EvictionBound(cfg, s.lastRecorded));
    var m := Looked(cfg.policy, t, from, to, a).value;
    LookedCoherent(cfg.policy, t, from, to, a);
    PollRuns.GoodMembers(cfg.policy, t, m, from, to);
    forall g | g in o.result.good
      ensures from <= g.number <= to && MadeOf(cfg.policy, a, g)
    {
      LookedMadeOf(cfg.policy, t, from, to, a, g.number);
    }
    forall n | from <= n <= to && Fetched(cfg.policy, from, to, a.logs.value, n)
      ensures exists g :: g in o.result.good && g.number == n
    {
      AssembledKeys(cfg.policy, from, to, a, n);
      assert n in m && CoherentAt(cfg.policy, t, m, from, to, n);
      assert m[n].block in o.result.good;
    }
  }

  /** After any run of the poller: the next poll calls for going back exactly when one of the blocks it
      reports as reorged is the window's first. */
  lemma GoesBackIff(cfg: Config, rounds: seq<PollRuns.Round>, from: nat, to: nat, a: Answers, o: Outcome)
    requires o == Poll(cfg, PollRuns.RunOf(cfg, rounds).state, from, to, a).1 && o.Polled?
    ensures o.fromReorged <==> exists b :: b in o.result.reorged && b.number == from
  {
    var run := PollRuns.RunOf(cfg, rounds);
    var t := Evicted(run.state.tracker, EvictionBound(cfg, run.state.lastRecorded));
    PollRuns.CacheIsExact(cfg, rounds);
    forall n | n in t ensures t[n].number == n {
      assert PollRuns.Exact(cfg.policy, run.state.tracker, run.emitted, n);
    }
    LookedCoherent(cfg.policy, t, from, to, a);
    GoesBackFor(cfg.policy, t, Looked(cfg.policy, t, from, to, a).value, from, to);
  }

  lemma GoesBackFor(policy: Policy, t: map<nat, Block>, m: map<nat, Fresh>, from: nat, to: nat)
    requires Keyed(t) && Coherent(policy, t, m, from, to)
    ensures from in m && m[from].forked <==> exists b :: b in Report(m, t, from, to).reorged && b.number == from
  {
    PollRuns.ReorgedMembers(policy, t, m, from, to);
    if from in m && m[from].forked {
      assert CoherentAt(policy, t, m, from, to, from);
      assert t[from] in Report(m, t, from, to).reorged;
    }
    if b :| b in Report(m, t, from, to).reorged && b.number == from {
      assert CoherentAt(policy, t, m, from, to, from);
    }
  }

  /** A tracked block of the window is reported as reorged exactly when its replacement has another hash, or
      more logs, or fewer. */
  lemma ReportedIff(cfg: Config, s: PollerState, from: nat, to: nat, a: Answers, o: Outcome, n: nat)
    requires o == Poll(cfg, s, from, to, a).1 && o.Polled? && Keyed(s.tracker)
    requires n in Evicted(s.tracker, EvictionBound(cfg, s.lastRecorded)) && from <= n <= to
    ensures exists g :: g in o.result.good && g.number == n
    ensures forall g :: g in o.result.good && g.number == n ==>
      (s.tracker[n] in o.result.reorged <==> s.tracker[n].hash != g.hash || |s.tracker[n].logs| != |g.logs|)
  {
    var t := Evicted(s.tracker, EvictionBound(cfg, s.lastRecorded));
    var m := Looked(cfg.policy, t, from, to, a).value;
    LookedCoherent(cfg.policy, t, from, to, a);
    PollRuns.GoodMembers(cfg.policy, t, m, from, to);
    PollRuns.ReorgedMembers(cfg.policy, t, m, from, to);
    assert CoherentAt(cfg.policy, t, m, from, to, n);
    assert m[n].block in o.result.good && t[n] == s.tracker[n] && t[n].number == n;
  }
}
