/** What the functions of PollSpec mean: the fresh data in terms of the client's answers,
    the forks in terms of the tracker, and LastGoodBlock in terms of the report. */
module PollTheory {
  import opened Words
  import opened Types
  import opened Listings
  import opened PollSpec

  /** The logs of block `n`, in the order of the answer. */
  function LogsAt(logs: seq<Log>, n: nat): seq<Log> {
    if logs == [] then []
    else (if logs[0].number == n then [logs[0]] else []) + LogsAt(logs[1..], n)
  }

  ghost predicate OneHashPerBlock(logs: seq<Log>) {
    forall i, j :: 0 <= i < |logs| && 0 <= j < |logs| && logs[i].number == logs[j].number ==>
      logs[i].hash == logs[j].hash
  }

  ghost predicate AgreesWith(m: map<nat, Fresh>, logs: seq<Log>) {
    forall i :: 0 <= i < |logs| && logs[i].number in m ==> m[logs[i].number].block.hash == logs[i].hash
  }

  lemma LogsAtMembers(logs: seq<Log>, n: nat)
    ensures LogsAt(logs, n) != [] <==> exists i :: 0 <= i < |logs| && logs[i].number == n
    ensures forall l :: l in LogsAt(logs, n) ==> l in logs && l.number == n
  {
    if logs != [] {
      LogsAtMembers(logs[1..], n);
      if exists i :: 0 <= i < |logs| && logs[i].number == n {
        var i :| 0 <= i < |logs| && logs[i].number == n;
        if i > 0 {
          assert logs[1..][i - 1].number == n;
        }
      }
    }
  }

  /** Collecting succeeds exactly when no hashes conflict. */
  lemma {:induction false} CollectSucceeds(m: map<nat, Fresh>, logs: seq<Log>)
    ensures Collect(m, logs).Ok? <==> AgreesWith(m, logs) && OneHashPerBlock(logs)
    decreases |logs|
  {
    if logs != [] {
      var log := logs[0];
      if log.number !in m {
        var m' := m[log.number := NewFresh(log.number, log.hash, [log])];
        Front(m, m', logs);
        CollectSucceeds(m', logs[1..]);
      } else if m[log.number].block.hash == log.hash {
        var m' := m[log.number := AppendLog(m[log.number], log)];
        Front(m, m', logs);
        CollectSucceeds(m', logs[1..]);
      }
    }
  }

  lemma Front(m: map<nat, Fresh>, m': map<nat, Fresh>, logs: seq<Log>)
    requires logs != []
    requires m'.Keys == m.Keys + {logs[0].number}
    requires forall n :: n in m ==> m'[n].block.hash == m[n].block.hash
    requires m'[logs[0].number].block.hash == logs[0].hash
    ensures AgreesWith(m', logs[1..]) && OneHashPerBlock(logs[1..]) <==> AgreesWith(m, logs) && OneHashPerBlock(logs)
  {
    var rest := logs[1..];
    assert forall i :: 1 <= i < |logs| ==> logs[i] == rest[i - 1];
    assert forall i :: 0 <= i < |rest| ==> rest[i] == logs[i + 1];
  }

  /** The entry at `n` once `logs` are collected on top of `m`. */
  function Gathered(m: map<nat, Fresh>, logs: seq<Log>, n: nat): Option<Fresh> {
    if n in m then Some(m[n].(block := m[n].block.(logs := m[n].block.logs + LogsAt(logs, n))))
    else if LogsAt(logs, n) != [] then Some(NewFresh(n, LogsAt(logs, n)[0].hash, LogsAt(logs, n)))
    else None
  }

  lemma {:induction false} CollectGathersOnto(m: map<nat, Fresh>, logs: seq<Log>, n: nat)
    requires Collect(m, logs).Ok?
    ensures n in Collect(m, logs).value <==> Gathered(m, logs, n).Some?
    ensures n in Collect(m, logs).value ==> Collect(m, logs).value[n] == Gathered(m, logs, n).value
    decreases |logs|
  {
    if logs == [] {
      assert n in m ==> m[n].block.logs + [] == m[n].block.logs;
    } else {
      var log := logs[0];
      var m' := if log.number !in m then m[log.number := NewFresh(log.number, log.hash, [log])]
                else m[log.number := AppendLog(m[log.number], log)];
      CollectGathersOnto(m', logs[1..], n);
      GatheredStep(m, m', logs, n);
    }
  }

  lemma GatheredStep(m: map<nat, Fresh>, m': map<nat, Fresh>, logs: seq<Log>, n: nat)
    requires logs != []
    requires logs[0].number !in m ==> m' == m[logs[0].number := NewFresh(logs[0].number, logs[0].hash, [logs[0]])]
    requires logs[0].number in m ==> m' == m[logs[0].number := AppendLog(m[logs[0].number], logs[0])]
    ensures Gathered(m', logs[1..], n) == Gathered(m, logs, n)
  {
    var log, later := logs[0], LogsAt(logs[1..], n);
    if n != log.number {
      assert LogsAt(logs, n) == later;
    } else if n in m {
      assert (m[n].block.logs + [log]) + later == m[n].block.logs + ([log] + later);
    }
  }

  /** Block for block, the collected map is the answer's logs: it exists exactly when no two logs
      of a block disagree on its hash. */
  lemma CollectGathers(logs: seq<Log>)
    ensures Collect(map[], logs).Ok? <==> OneHashPerBlock(logs)
    ensures Collect(map[], logs).Ok? ==>
      forall n: nat :: (n in Collect(map[], logs).value <==> exists l :: l in logs && l.number == n)
    ensures Collect(map[], logs).Ok? ==>
      forall n :: n in Collect(map[], logs).value ==>
        LogsAt(logs, n) != []
        && Collect(map[], logs).value[n] == NewFresh(n, LogsAt(logs, n)[0].hash, LogsAt(logs, n))
  {
    CollectSucceeds(map[], logs);
    if Collect(map[], logs).Ok? {
      forall n: nat
        ensures n in Collect(map[], logs).value <==> exists l :: l in logs && l.number == n
        ensures n in Collect(map[], logs).value ==> Some(Collect(map[], logs).value[n]) == Gathered(map[], logs, n)
      {
        CollectGathersOnto(map[], logs, n);
        LogsAtMembers(logs, n);
      }
    }
  }

  /** The marked result for `n`, told against the tracker. */
  ghost predicate CoherentAt(policy: Policy, t: map<nat, Block>, m: map<nat, Fresh>, from: nat, to: nat, n: nat)
    requires n in m
  {
    && m[n].block.number == n
    && (m[n].forked <==> Forks(m, t, from, to, n))
    && (m[n].block.migrated <==> policy != Expensive && m[n].forked && m[n].block.logs == [])
    && (policy != Expensive && m[n].block.logs == [] ==> n in t)
  }

  /** The marked results of a poll, with fresh data for every tracked block of the window. */
  ghost predicate Coherent(policy: Policy, t: map<nat, Block>, m: map<nat, Fresh>, from: nat, to: nat) {
    && (forall n :: n in t && from <= n <= to ==> n in m)
    && (forall n :: n in m ==> CoherentAt(policy, t, m, from, to, n))
  }

  lemma AssembledShape(policy: Policy, from: nat, to: nat, a: Answers)
    requires Assembled(policy, from, to, a).Ok?
    ensures var m := Assembled(policy, from, to, a).value;
      && (forall n :: n in m ==>
            m[n] == NewFresh(n, m[n].block.hash, m[n].block.logs) && (policy != Expensive ==> m[n].block.logs != []))
      && (policy == Expensive ==> forall n :: from <= n <= to ==> n in m)
  {
    CollectGathers(a.logs.value);
  }

  lemma {:induction false} CollectFailsOnHashes(m: map<nat, Fresh>, logs: seq<Log>)
    ensures Collect(m, logs).Err? ==> Collect(m, logs).error == HashesDiffer
    decreases |logs|
  {
    if logs != [] {
      var log := logs[0];
      if log.number !in m {
        CollectFailsOnHashes(m[log.number := NewFresh(log.number, log.hash, [log])], logs[1..]);
      } else if m[log.number].block.hash == log.hash {
        CollectFailsOnHashes(m[log.number := AppendLog(m[log.number], log)], logs[1..]);
      }
    }
  }

  lemma AssembledErrors(policy: Policy, from: nat, to: nat, a: Answers)
    ensures Assembled(policy, from, to, a).Err? ==> Assembled(policy, from, to, a).error != ProcessReorg
  {
    if a.logs.Some? {
      CollectFailsOnHashes(map[], a.logs.value);
    }
  }

  /** Completing and marking, told of one number. */
  lemma MarkedAt(policy: Policy, t: map<nat, Block>, m: map<nat, Fresh>, headers: map<nat, Hash>, from: nat, to: nat,
                 n: nat)
    requires forall k :: k in m ==>
      m[k] == NewFresh(k, m[k].block.hash, m[k].block.logs) && (policy != Expensive ==> m[k].block.logs != [])
    requires policy == Expensive ==> forall k :: from <= k <= to ==> k in m
    requires Missing(m, t, from, to) <= headers.Keys
    ensures var all := Completed(m, Missing(m, t, from, to), headers).value;
      var marked := Marked(all, t, Missing(m, t, from, to), from, to);
      && (n in t && from <= n <= to ==> n in marked)
      && (n in marked ==> n in all && CoherentAt(policy, t, marked, from, to, n))
  {
  }

  /** Whatever the client answers, a poll that gets through has fresh data for every tracked block
      of its window, and forks exactly the ones whose hash or number of logs changed. */
  lemma LookedCoherent(policy: Policy, t: map<nat, Block>, from: nat, to: nat, a: Answers)
    requires Looked(policy, t, from, to, a).Ok?
    ensures Coherent(policy, t, Looked(policy, t, from, to, a).value, from, to)
  {
    AssembledShape(policy, from, to, a);
    var m := Looked(policy, t, from, to, a).value;
    forall n: nat
      ensures n in t && from <= n <= to ==> n in m
      ensures n in m ==> CoherentAt(policy, t, m, from, to, n)
    {
      MarkedAt(policy, t, Assembled(policy, from, to, a).value, a.missing, from, to, n);
    }
  }

  /** LastGoodBlock is the end of a reorg-free window. Otherwise it is the block before the first
      reorged one, except when that one is the last good block. */
  ghost predicate LastGoodIs(r: PollerResult, lastGood: nat) {
    && r.from - 1 <= lastGood <= r.to
    && (r.reorged == [] ==> lastGood == r.to)
    && (r.reorged != [] ==>
          && r.good != []
          && var first, last := r.reorged[0].number, r.good[|r.good| - 1].number;
          && first <= last
          && lastGood == if first == last then first else first - 1)
  }

  lemma LastGoodOfLists(r: PollerResult)
    requires Ascending(r.good)
    requires forall i :: 0 <= i < |r.good| ==> r.from <= r.good[i].number <= r.to
    requires r.reorged != [] ==> r.from <= r.reorged[0].number
    requires r.reorged != [] ==> exists i :: 0 <= i < |r.good| && r.good[i].number == r.reorged[0].number
    requires 1 <= r.from <= r.to < TWO_63
    ensures LastGoodIs(r, LastGoodBlock(r))
  {
    if r.reorged != [] {
      var i :| 0 <= i < |r.good| && r.good[i].number == r.reorged[0].number;
      assert i < |r.good| - 1 ==> r.good[i].number < r.good[|r.good| - 1].number;
    }
  }

  /** Every reorged block of a report is a tracked one, and the same report carries its
      replacement among the good blocks. */
  lemma ReorgedIsReplaced(policy: Policy, t: map<nat, Block>, m: map<nat, Fresh>, from: nat, to: nat, i: nat)
    requires Keyed(t) && Coherent(policy, t, m, from, to)
    requires i < |Report(m, t, from, to).reorged|
    ensures var r := Report(m, t, from, to);
      var b := r.reorged[i];
      && from <= b.number <= to && b.number in t && b == t[b.number]
      && exists j :: 0 <= j < |r.good| && r.good[j].number == b.number && Differs(b, r.good[j])
  {
    var b := Listing(Replaced(m, t), from, to + 1)[i];
    ListingAscends(Replaced(m, t), from, to + 1);
    assert b in Listing(Replaced(m, t), from, to + 1);
    ListingMembers(FreshBlocks(m), from, to + 1);
    assert FreshBlocks(m)[b.number] in Listing(FreshBlocks(m), from, to + 1);
  }

  /** The branch of LastGoodBlock without good blocks is never taken by a poll. */
  lemma LastGoodOfReport(policy: Policy, t: map<nat, Block>, m: map<nat, Fresh>, from: nat, to: nat)
    requires Keyed(t) && Coherent(policy, t, m, from, to)
    requires 1 <= from <= to < TWO_63
    ensures LastGoodIs(Report(m, t, from, to), Report(m, t, from, to).lastGood)
  {
    var r := Report(m, t, from, to);
    GoodInWindow(policy, t, m, from, to);
    if r.reorged != [] {
      ReorgedIsReplaced(policy, t, m, from, to, 0);
    }
    LastGoodOfLists(r);
    ReportedLastGood(m, t, from, to);
  }

  lemma ReportedLastGood(m: map<nat, Fresh>, t: map<nat, Block>, from: nat, to: nat)
    ensures Report(m, t, from, to).lastGood == LastGoodBlock(Report(m, t, from, to))
  {
  }

  lemma GoodInWindow(policy: Policy, t: map<nat, Block>, m: map<nat, Fresh>, from: nat, to: nat)
    requires Coherent(policy, t, m, from, to)
    ensures var good := Report(m, t, from, to).good;
      Ascending(good) && forall i :: 0 <= i < |good| ==> from <= good[i].number <= to
  {
    FreshAreKeyed(policy, t, m, from, to);
    ListingAscends(FreshBlocks(m), from, to + 1);
    var good := Report(m, t, from, to).good;
    forall i | 0 <= i < |good| ensures from <= good[i].number <= to {
      assert good[i] in good;
    }
  }

  lemma FreshAreKeyed(policy: Policy, t: map<nat, Block>, m: map<nat, Fresh>, from: nat, to: nat)
    requires Coherent(policy, t, m, from, to)
    ensures Keyed(FreshBlocks(m))
  {
    assert forall n :: n in m ==> CoherentAt(policy, t, m, from, to, n);
  }

  /** A poll that sees `m`, in one line. */
  lemma PollReports(cfg: Config, s: PollerState, from: nat, to: nat, a: Answers, m: map<nat, Fresh>)
    requires Looked(cfg.policy, Evicted(s.tracker, EvictionBound(cfg, s.lastRecorded)), from, to, a) == Ok(m)
    ensures var t := Evicted(s.tracker, EvictionBound(cfg, s.lastRecorded));
      Poll(cfg, s, from, to, a) ==
      (PollerState(Settled(m, t, cfg.policy, from, to + 1), Report(m, t, from, to).lastGood),
       Polled(Report(m, t, from, to), from in m && m[from].forked))
  {
  }

  lemma SettledAt(m: map<nat, Fresh>, t: map<nat, Block>, policy: Policy, lo: nat, hi: nat, k: nat)
    ensures k in Settled(m, t, policy, lo, hi) <==> if lo <= k < hi then Entry(m, t, policy, k).Some? else k in t
    ensures k in Settled(m, t, policy, lo, hi) ==>
      Settled(m, t, policy, lo, hi)[k] == if lo <= k < hi then Entry(m, t, policy, k).value else t[k]
  {
    assert Entry(m, t, policy, k).Some? ==> k in t.Keys + m.Keys;
  }
}
