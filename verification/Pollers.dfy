/** The poller as it runs: loops over block numbers that fill the result map, mark forks,
    and update the tracker. Every method is proved to compute its function of PollSpec. */
module Pollers {
  import opened Words
  import opened SortedSets
  import opened Types
  import opened Listings
  import opened PollSpec
  import opened PollTheory

  class BlockTracker {
    var entries: map<nat, Scored<Block>>

    ghost predicate Valid()
      reads this
    {
      forall n :: n in entries ==> entries[n].score == Score(n) && entries[n].value.number == n
    }

    function Contents(): map<nat, Block>
      reads this
    {
      Values(entries)
    }

    constructor ()
      ensures Valid() && Contents() == map[]
    {
      entries := map[];
    }

    method AddTrackerBlock(b: Block)
      requires Valid()
      modifies this
      ensures Valid() && Contents() == old(Contents())[b.number := b]
    {
      entries := entries[b.number := Scored(Score(b.number), b)];
    }

    function GetTrackerBlock(n: nat): (r: Option<Block>)
      reads this
      ensures r.Some? <==> n in Contents()
      ensures r.Some? ==> r.value == Contents()[n]
    {
      if n in entries then Some(entries[n].value) else None
    }

    method RemoveBlock(n: nat) returns (removed: bool)
      requires Valid()
      modifies this
      ensures Valid() && removed == (n in old(Contents())) && Contents() == old(Contents()) - {n}
    {
      removed := n in entries;
      entries := entries - {n};
    }

    /** The write through the tracked block's pointer: the block stays, emptied, under its fresh hash. */
    method EmptyInPlace(n: nat, freshHash: Hash)
      requires Valid() && n in Contents()
      modifies this
      ensures Valid()
      ensures Contents() == old(Contents())[n := old(Contents())[n].(hash := freshHash, logs := [])]
    {
      var e := entries[n];
      entries := entries[n := e.(value := e.value.(hash := freshHash, logs := []))];
    }

    method ClearUntil(blockNumber: nat)
      requires Valid()
      modifies this
      ensures Valid() && Contents() == Evicted(old(Contents()), Score(blockNumber))
    {
      entries := SortedSets.ClearUntil(entries, blockNumber);
    }
  }

  method CollectLogs(m0: map<nat, Fresh>, logs: seq<Log>) returns (r: Result<map<nat, Fresh>, PollError>)
    ensures r == Collect(m0, logs)
  {
    var m: map<nat, Fresh> := m0;
    for i := 0 to |logs|
      invariant Collect(m0, logs) == Collect(m, logs[i..])
    {
      var log := logs[i];
      assert logs[i..][0] == log && logs[i..][1..] == logs[i + 1..];
      if log.number !in m {
        m := m[log.number := NewFresh(log.number, log.hash, [log])];
      } else {
        if m[log.number].block.hash != log.hash {
          return Err(HashesDiffer);
        }
        m := m[log.number := AppendLog(m[log.number], log)];
      }
    }
    return Ok(m);
  }

  method CollectHeaders(m0: map<nat, Fresh>, from: nat, to: nat, headers: map<nat, Hash>)
    returns (r: Result<map<nat, Fresh>, PollError>)
    ensures r == if HeadersAgree(m0, from, to, headers) then Ok(WithHeaders(m0, from, to, headers))
                 else Err(HashesDiffer)
  {
    var m: map<nat, Fresh> := m0;
    var n := from;
    while n <= to
      invariant from <= n && (n == from || n <= to + 1)
      invariant forall k :: k in m <==> k in m0 || (k in headers && from <= k < n)
      invariant forall k :: k in m ==> m[k] == if k in m0 then m0[k] else NewFresh(k, headers[k], [])
      invariant forall k :: k in headers && from <= k < n && k in m0 ==> m0[k].block.hash == headers[k]
    {
      if n in headers {
        if n in m {
          if m[n].block.hash != headers[n] {
            return Err(HashesDiffer);
          }
        } else {
          m := m[n := NewFresh(n, headers[n], [])];
        }
      }
      n := n + 1;
    }
    assert m == WithHeaders(m0, from, to, headers);
    r := Ok(m);
  }

  /** One batch call: a header for every requested number, or a failure of the whole batch. */
  method GetHeadersByNumbers(numbers: seq<nat>, node: map<nat, Hash>)
    returns (r: Option<map<nat, Hash>>)
    ensures r.Some? <==> forall n :: n in numbers ==> n in node
    ensures r.Some? ==> r.value == map n | n in numbers && n in node :: node[n]
  {
    var headers: map<nat, Hash> := map[];
    for i := 0 to |numbers|
      invariant headers == map n | n in numbers[..i] && n in node :: node[n]
      invariant forall n :: n in numbers[..i] ==> n in node
    {
      if numbers[i] !in node {
        return None;
      }
      headers := headers[numbers[i] := node[numbers[i]]];
    }
    assert numbers[..|numbers|] == numbers;
    return Some(headers);
  }

  method RunPollCheap(from: nat, to: nat, a: Answers) returns (r: Result<map<nat, Fresh>, PollError>)
    ensures r == PollCheap(from, to, a)
  {
    if a.logs.None? {
      return Err(FetchError);
    }
    var collected := CollectLogs(map[], a.logs.value);
    if collected.Err? {
      return collected;
    }
    var m := collected.value;
    var targetBlocks: seq<nat> := [];
    var n := from;
    while n <= to
      invariant from <= n && (n == from || n <= to + 1)
      invariant forall k :: k in targetBlocks <==> k in m && from <= k < n
    {
      if n in m {
        targetBlocks := targetBlocks + [n];
      }
      n := n + 1;
    }
    var headers := GetHeadersByNumbers(targetBlocks, a.headers);
    if headers.None? {
      return Err(FetchError);
    }
    r := CollectHeaders(m, from, to, headers.value);
    assert WithHeaders(m, from, to, headers.value) == m;
    assert HeadersAgree(m, from, to, headers.value) <==> HeadersAgree(m, from, to, a.headers);
  }

  /** Headers fetched for the whole window say what the node says. */
  lemma WholeWindowFetched(m: map<nat, Fresh>, from: nat, to: nat, headers: map<nat, Hash>, node: map<nat, Hash>)
    requires forall n :: n in headers <==> from <= n <= to && n in node
    requires forall n :: n in headers ==> headers[n] == node[n]
    ensures WithHeaders(m, from, to, headers) == WithHeaders(m, from, to, node)
    ensures HeadersAgree(m, from, to, headers) <==> HeadersAgree(m, from, to, node)
  {
  }

  method RunPollExpensive(from: nat, to: nat, a: Answers) returns (r: Result<map<nat, Fresh>, PollError>)
    requires from <= to + 1
    ensures r == PollExpensive(from, to, a)
  {
    var blockNumbers := new nat[to - from + 1];
    var n, c := from, 0;
    while n <= to
      invariant from <= n <= to + 1 && c == n - from
      invariant forall i :: 0 <= i < c ==> blockNumbers[i] == from + i
    {
      blockNumbers[c] := n;
      n, c := n + 1, c + 1;
    }
    assert forall k :: k in blockNumbers[..] <==> from <= k <= to by {
      forall k | from <= k <= to ensures k in blockNumbers[..] {
        assert blockNumbers[..][k - from] == k;
      }
    }
    var headers := GetHeadersByNumbers(blockNumbers[..], a.headers);
    if a.logs.None? || headers.None? {
      return Err(FetchError);
    }
    var collected := CollectLogs(map[], a.logs.value);
    if collected.Err? {
      return collected;
    }
    var m := collected.value;
    r := CollectHeaders(m, from, to, headers.value);
    WholeWindowFetched(m, from, to, headers.value, a.headers);
  }

  method RunPoll(policy: Policy, from: nat, to: nat, a: Answers) returns (r: Result<map<nat, Fresh>, PollError>)
    requires policy == Expensive ==> from <= to + 1
    ensures r == Assembled(policy, from, to, a)
  {
    match policy
    case ExpensiveBlock => r := Err(NotImplemented);
    case Expensive => r := RunPollExpensive(from, to, a);
    case _ => r := RunPollCheap(from, to, a);
  }

  /** Collects the missing numbers with the source's downward loop over an unsigned counter.
      The loop ends because the window starts above zero; from zero it would wrap forever. */
  method CollectMissing(from: nat, to: nat, tracker: BlockTracker, m: map<nat, Fresh>) returns (missing: seq<nat>)
    requires 1 <= from && to < TWO_64
    ensures forall i, j :: 0 <= i < j < |missing| ==> missing[i] > missing[j]
    ensures forall n :: n in missing <==> n in Missing(m, tracker.Contents(), from, to)
  {
    missing := [];
    var n := to;
    while n >= from
      invariant n <= to && (from <= to ==> from <= n + 1)
      invariant forall i :: 0 <= i < |missing| ==> missing[i] > n
      invariant forall i, j :: 0 <= i < j < |missing| ==> missing[i] > missing[j]
      invariant forall k :: k in missing <==> n < k && k in Missing(m, tracker.Contents(), from, to)
      decreases n
    {
      var found := tracker.GetTrackerBlock(n);
      if found.Some? && n !in m {
        missing := missing + [n];
      }
      n := Sub(n, 1);
    }
  }

  /** The loop's counter after k decrements. */
  function Down(n: nat, k: nat): nat {
    if k == 0 then n else Sub(Down(n, k - 1), 1)
  }

  lemma {:induction false} DownIs(n: nat, k: nat)
    requires k <= n < TWO_64
    ensures Down(n, k) == n - k
  {
    if k > 0 {
      DownIs(n, k - 1);
      SubExact(n - (k - 1), 1);
    }
  }

  /** The downward loop gets below its window's start exactly when that is not block 0. */
  lemma DownwardLoopEnds(from: nat, to: nat)
    requires to < TWO_64
    ensures (exists k :: Down(to, k) < from) <==> 1 <= from
  {
    if 1 <= from {
      DownIs(to, to);
      assert Down(to, to) < from;
    }
  }

  lemma {:induction false} CardinalityOfDistinct(s: seq<nat>, elements: set<nat>)
    requires forall i, j :: 0 <= i < j < |s| ==> s[i] > s[j]
    requires forall n :: n in elements <==> n in s
    ensures |elements| == |s|
  {
    if s == [] {
      assert elements == {};
    } else {
      var front, last := s[..|s| - 1], s[|s| - 1];
      assert forall n :: n in s <==> n in front || n == last;
      CardinalityOfDistinct(front, elements - {last});
    }
  }

  /** Filling in headers of exactly the missing numbers completes the result map. */
  lemma CompletedByHeaders(m: map<nat, Fresh>, missing: set<nat>, from: nat, to: nat,
                           node: map<nat, Hash>, headers: map<nat, Hash>)
    requires forall n :: n in missing ==> from <= n <= to && n !in m && n in node
    requires headers.Keys == missing && forall n :: n in missing ==> headers[n] == node[n]
    ensures HeadersAgree(m, from, to, headers)
    ensures Completed(m, missing, node) == Ok(WithHeaders(m, from, to, headers))
  {
    var completed, filled := Completed(m, missing, node).value, WithHeaders(m, from, to, headers);
    assert completed.Keys == filled.Keys;
    assert forall n :: n in filled ==> filled[n] == completed[n];
    assert completed == filled;
  }

  lemma NothingMissing(m: map<nat, Fresh>, node: map<nat, Hash>)
    ensures Completed(m, {}, node) == Ok(m)
  {
    assert Completed(m, {}, node).value == m;
  }

  method PollMissing(from: nat, to: nat, tracker: BlockTracker, m: map<nat, Fresh>, node: map<nat, Hash>)
    returns (r: Result<map<nat, Fresh>, PollError>, missing: seq<nat>)
    requires 1 <= from && to < TWO_64
    ensures forall n :: n in missing <==> n in Missing(m, tracker.Contents(), from, to)
    ensures r == Completed(m, Missing(m, tracker.Contents(), from, to), node)
  {
    missing := CollectMissing(from, to, tracker, m);
    ghost var absent := Missing(m, tracker.Contents(), from, to);
    if |missing| == 0 {
      assert absent == {};
      NothingMissing(m, node);
      return Ok(m), missing;
    }
    var headers := GetHeadersByNumbers(missing, node);
    if headers.None? {
      return Err(FetchError), missing;
    }
    assert headers.value.Keys == absent;
    if |headers.value| != |missing| {
      CardinalityOfDistinct(missing, absent);
      assert false;
      return Err(FetchError), missing;
    }
    CompletedByHeaders(m, absent, from, to, node, headers.value);
    r := CollectHeaders(m, from, to, headers.value);
  }

  /** Marks as forked every fresh block whose hash or number of logs is not the tracked one's. */
  method FindReorg(from: nat, to: nat, missing: seq<nat>, ghost absent: set<nat>,
                   tracker: BlockTracker, m0: map<nat, Fresh>)
    returns (r: Result<map<nat, Fresh>, PollError>)
    requires forall n :: n in missing <==> n in absent
    ensures r.Err? <==> exists n :: n in tracker.Contents() && from <= n <= to && n !in m0
    ensures r.Err? ==> r.error == ProcessReorg
    ensures r.Ok? ==> r.value == Marked(m0, tracker.Contents(), absent, from, to)
  {
    var m: map<nat, Fresh> := m0;
    ghost var t := tracker.Contents();
    var n := from;
    while n <= to
      invariant from <= n && (n == from || n <= to + 1)
      invariant m.Keys == m0.Keys
      invariant forall k :: k in m ==>
        m[k] == if k < n && Forks(m0, t, from, to, k) then Mark(m0[k], k in absent) else m0[k]
      invariant forall k :: k in t && from <= k < n ==> k in m0
    {
      var tracked := tracker.GetTrackerBlock(n);
      if tracked.Some? {
        if n !in m {
          return Err(ProcessReorg);
        }
        if Differs(tracked.value, m[n].block) {
          if n in missing {
            m := m[n := m[n].(block := m[n].block.(migrated := true))];
          }
          m := m[n := m[n].(forked := true)];
        }
      }
      n := n + 1;
    }
    r := Ok(m);
  }

  method HandleBlocksMissingPolicy(n: nat, tracker: BlockTracker, freshHash: Hash, policy: Policy)
    returns (ok: bool)
    requires tracker.Valid() && n in tracker.Contents()
    modifies tracker
    ensures tracker.Valid() && ok
    ensures tracker.Contents() ==
      if policy == Fast then old(tracker.Contents()) - {n}
      else old(tracker.Contents())[n := old(tracker.Contents())[n].(hash := freshHash, logs := [])]
  {
    if policy == Fast {
      ok := tracker.RemoveBlock(n);
    } else {
      tracker.EmptyInPlace(n, freshHash);
      ok := true;
    }
  }

  method AddTrackerBlockPolicy(tracker: BlockTracker, b: Block, policy: Policy)
    requires tracker.Valid()
    modifies tracker
    ensures tracker.Valid()
    ensures tracker.Contents() == if policy == Fast && b.logs == [] then old(tracker.Contents())
                                  else old(tracker.Contents())[b.number := b]
  {
    if policy == Fast {
      if |b.logs| == 0 {
        return;
      }
    }
    tracker.AddTrackerBlock(b);
  }

  /** The tracker after the fresh block `f` at number `n` is processed. */
  ghost function Processed(t: map<nat, Block>, f: Fresh, policy: Policy, n: nat): map<nat, Block> {
    if policy == Fast && f.block.logs == [] then
      if f.forked && f.block.migrated then t - {n} else t
    else t[n := f.block]
  }

  lemma NothingSettled(m: map<nat, Fresh>, t: map<nat, Block>, policy: Policy, lo: nat, hi: nat)
    requires hi <= lo
    ensures Settled(m, t, policy, lo, hi) == t
  {
    var s := Settled(m, t, policy, lo, hi);
    assert s.Keys == t.Keys;
  }

  lemma SettledStep(m: map<nat, Fresh>, t: map<nat, Block>, policy: Policy, lo: nat, n: nat)
    requires lo <= n
    ensures Settled(m, t, policy, lo, n + 1) ==
      if n in m then Processed(Settled(m, t, policy, lo, n), m[n], policy, n) else Settled(m, t, policy, lo, n)
  {
    var before := Settled(m, t, policy, lo, n);
    var after := Settled(m, t, policy, lo, n + 1);
    var expected := if n in m then Processed(before, m[n], policy, n) else before;
    forall k: nat
      ensures k in after <==> k in expected
      ensures k in after ==> after[k] == expected[k]
    {
      SettledAt(m, t, policy, lo, n, k);
      SettledAt(m, t, policy, lo, n + 1, k);
    }
    assert after.Keys == expected.Keys;
  }

  /** One iteration of the result loop: a forked block is answered with the tracked one. */
  method ProcessNumber(n: nat, from: nat, tracker: BlockTracker, m: map<nat, Fresh>, ghost t: map<nat, Block>,
                       policy: Policy, good0: seq<Block>, reorged0: seq<Block>)
    returns (ok: bool, good: seq<Block>, reorged: seq<Block>)
    requires tracker.Valid() && from <= n && (n in m ==> m[n].block.number == n)
    requires good0 == Listing(FreshBlocks(m), from, n) && reorged0 == Listing(Replaced(m, t), from, n)
    requires tracker.Contents() == Settled(m, t, policy, from, n)
    modifies tracker
    ensures tracker.Valid()
    ensures ok <==> (n in m && m[n].forked ==> n in t)
    ensures ok ==> good == Listing(FreshBlocks(m), from, n + 1) && reorged == Listing(Replaced(m, t), from, n + 1)
    ensures ok ==> tracker.Contents() == Settled(m, t, policy, from, n + 1)
  {
    SettledAt(m, t, policy, from, n, n);
    SettledStep(m, t, policy, from, n);
    ok, good, reorged := true, good0, reorged0;
    if n in m {
      if m[n].forked {
        var tracked := tracker.GetTrackerBlock(n);
        if tracked.None? {
          return false, good, reorged;
        }
        reorged := reorged + [tracked.value];
        if m[n].block.migrated {
          ok := HandleBlocksMissingPolicy(n, tracker, m[n].block.hash, policy);
        }
      }
      AddTrackerBlockPolicy(tracker, m[n].block, policy);
      good := good + [m[n].block];
    }
  }

  ghost predicate ForksTracked(m: map<nat, Fresh>, t: map<nat, Block>, lo: nat, hi: nat) {
    forall n :: n in m && lo <= n < hi && m[n].forked ==> n in t
  }

  /** Collects the result while the tracker is updated number by number. */
  method ProcessResult(from: nat, to: nat, tracker: BlockTracker, m: map<nat, Fresh>, policy: Policy)
    returns (ok: bool, good: seq<Block>, reorged: seq<Block>)
    requires tracker.Valid() && forall n :: n in m ==> m[n].block.number == n
    modifies tracker
    ensures tracker.Valid()
    ensures ok <==> ForksTracked(m, old(tracker.Contents()), from, to + 1)
    ensures ok ==> good == Listing(FreshBlocks(m), from, to + 1)
    ensures ok ==> reorged == Listing(Replaced(m, old(tracker.Contents())), from, to + 1)
    ensures ok ==> tracker.Contents() == Settled(m, old(tracker.Contents()), policy, from, to + 1)
  {
    ghost var t := tracker.Contents();
    ok, good, reorged := true, [], [];
    NothingSettled(m, t, policy, from, from);
    if to < from {
      NothingSettled(m, t, policy, from, to + 1);
      return;
    }
    var n := from;
    while n <= to
      invariant from <= n <= to + 1
      invariant ok && tracker.Valid()
      invariant ForksTracked(m, t, from, n)
      invariant good == Listing(FreshBlocks(m), from, n) && reorged == Listing(Replaced(m, t), from, n)
      invariant tracker.Contents() == Settled(m, t, policy, from, n)
    {
      ok, good, reorged := ProcessNumber(n, from, tracker, m, t, policy, good, reorged);
      if !ok {
        return;
      }
      n := n + 1;
    }
  }

  /** The reading half of a poll, before the tracker is updated. It never ends in the internal
      ProcessReorg error: every tracked block of the window has fresh data when the two are compared. */
  method Look(policy: Policy, from: nat, to: nat, tracker: BlockTracker, a: Answers)
    returns (r: Result<map<nat, Fresh>, PollError>)
    requires 1 <= from && to < TWO_64 && (policy == Expensive ==> from <= to + 1)
    ensures r == Looked(policy, tracker.Contents(), from, to, a)
    ensures r.Err? ==> r.error != ProcessReorg
    ensures r.Ok? ==> forall n :: n in r.value ==>
      r.value[n].block.number == n && (r.value[n].forked ==> n in tracker.Contents())
  {
    ghost var t := tracker.Contents();
    r := RunPoll(policy, from, to, a);
    if r.Err? {
      AssembledErrors(policy, from, to, a);
      return;
    }
    ghost var absent := Missing(r.value, t, from, to);
    AssembledShape(policy, from, to, a);
    var missing;
    r, missing := PollMissing(from, to, tracker, r.value, a.missing);
    if r.Ok? {
      r := FindReorg(from, to, missing, absent, tracker, r.value);
    }
  }

  class Poller {
    const cfg: Config
    var lastRecordedBlock: nat
    const tracker: BlockTracker

    ghost predicate Valid()
      reads this, tracker
    {
      tracker.Valid()
    }

    function State(): PollerState
      reads this, tracker
    {
      PollerState(tracker.Contents(), lastRecordedBlock)
    }

    constructor (cfg: Config)
      ensures Valid() && fresh(tracker)
      ensures this.cfg == cfg && State() == PollerState(map[], 0)
    {
      this.cfg := cfg;
      lastRecordedBlock := 0;
      tracker := new BlockTracker();
    }

    method Poll(from: nat, to: nat, a: Answers) returns (o: Outcome)
      requires Valid()
      requires 1 <= from && to < TWO_64 && (cfg.policy == Expensive ==> from <= to + 1)
      modifies this, tracker
      ensures Valid()
      ensures (State(), o) == PollSpec.Poll(cfg, old(State()), from, to, a)
      ensures o.Failed? ==> o.error != ProcessReorg
    {
      tracker.ClearUntil(Sub(lastRecordedBlock, cfg.filterRange));
      var looked := Look(cfg.policy, from, to, tracker, a);
      if looked.Err? {
        return Failed(looked.error);
      }
      o := Conclude(from, to, looked.value);
    }

    /** The second half of Poll: fork marks in, result out, tracker and last recorded block updated. */
    method Conclude(from: nat, to: nat, m: map<nat, Fresh>) returns (o: Outcome)
      requires Valid()
      requires forall n :: n in m ==> m[n].block.number == n && (m[n].forked ==> n in State().tracker)
      modifies this, tracker
      ensures Valid()
      ensures (State(), o) == Concluded(cfg.policy, old(State()).tracker, m, from, to)
    {
      var ok, good, reorged := ProcessResult(from, to, tracker, m, cfg.policy);
      if !ok {
        assert false;
        return Failed(ProcessReorg);
      }
      var result := PollerResult(from, to, 0, good, reorged);
      result := result.(lastGood := LastGoodBlock(result));
      lastRecordedBlock := result.lastGood;
      o := Polled(result, from in m && m[from].forked);
    }
  }
}
