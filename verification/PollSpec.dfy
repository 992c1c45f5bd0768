/** What one call of the poller computes, stage by stage, as functions of the tracker's
    contents and of the client's answers. The methods of module Pollers are proved to
    compute exactly these functions. */
module PollSpec {
  import opened Words
  import opened Types
  import opened Listings

  datatype PollError = FetchError | HashesDiffer | ProcessReorg | NotImplemented

  /** A fresh block, with the mark that it differs from the tracked one. */
  datatype Fresh = Fresh(forked: bool, block: Block)

  /** What the client replies during one poll: the filtered logs, the headers fetched
      along with them, and the headers fetched later for the missing blocks. A header
      batch fails as a whole when one of the requested numbers has no reply. */
  datatype Answers = Answers(logs: Option<seq<Log>>, headers: map<nat, Hash>, missing: map<nat, Hash>)

  datatype Config = Config(filterRange: nat, policy: Policy)

  datatype PollerState = PollerState(tracker: map<nat, Block>, lastRecorded: nat)

  datatype Outcome = Failed(error: PollError) | Polled(result: PollerResult, fromReorged: bool)

  function NewFresh(number: nat, hash: Hash, logs: seq<Log>): Fresh {
    Fresh(false, Block(false, number, hash, logs))
  }

  function AppendLog(f: Fresh, log: Log): Fresh {
    f.(block := f.block.(logs := f.block.logs + [log]))
  }

  function Collect(m: map<nat, Fresh>, logs: seq<Log>): Result<map<nat, Fresh>, PollError>
    decreases |logs|
  {
    if logs == [] then Ok(m)
    else
      var log := logs[0];
      if log.number !in m then
        Collect(m[log.number := NewFresh(log.number, log.hash, [log])], logs[1..])
      else if m[log.number].block.hash != log.hash then
        Err(HashesDiffer)
      else
        Collect(m[log.number := AppendLog(m[log.number], log)], logs[1..])
  }

  predicate HeadersAgree(m: map<nat, Fresh>, from: nat, to: nat, headers: map<nat, Hash>) {
    forall n :: n in headers && from <= n <= to && n in m ==> m[n].block.hash == headers[n]
  }

  /** Adds an empty block for every header of the window that no log came from. */
  function WithHeaders(m: map<nat, Fresh>, from: nat, to: nat, headers: map<nat, Hash>): map<nat, Fresh> {
    m + map n | n in headers && from <= n <= to && n !in m :: NewFresh(n, headers[n], [])
  }

  function PollCheap(from: nat, to: nat, a: Answers): Result<map<nat, Fresh>, PollError> {
    if a.logs.None? then Err(FetchError)
    else
      match Collect(map[], a.logs.value)
      case Err(e) => Err(e)
      case Ok(m) =>
        if exists n :: n in m && from <= n <= to && n !in a.headers then Err(FetchError)
        else if !HeadersAgree(m, from, to, a.headers) then Err(HashesDiffer)
        else Ok(m)
  }

  function PollExpensive(from: nat, to: nat, a: Answers): Result<map<nat, Fresh>, PollError> {
    if a.logs.None? || exists n :: from <= n <= to && n !in a.headers then Err(FetchError)
    else
      match Collect(map[], a.logs.value)
      case Err(e) => Err(e)
      case Ok(m) =>
        if !HeadersAgree(m, from, to, a.headers) then Err(HashesDiffer)
        else Ok(WithHeaders(m, from, to, a.headers))
  }

  function Assembled(policy: Policy, from: nat, to: nat, a: Answers): Result<map<nat, Fresh>, PollError> {
    match policy
    case ExpensiveBlock => Err(NotImplemented)
    case Expensive => PollExpensive(from, to, a)
    case _ => PollCheap(from, to, a)
  }

  /** The tracked numbers of the window that the fresh data lacks. */
  function Missing(m: map<nat, Fresh>, t: map<nat, Block>, from: nat, to: nat): set<nat> {
    set n | n in t && from <= n <= to && n !in m
  }

  function Completed(m: map<nat, Fresh>, missing: set<nat>, headers: map<nat, Hash>)
    : Result<map<nat, Fresh>, PollError>
  {
    if !(missing <= headers.Keys) then Err(FetchError)
    else Ok(m + map n | n in missing :: NewFresh(n, headers[n], []))
  }

  predicate Differs(tracked: Block, seen: Block) {
    tracked.hash != seen.hash || |tracked.logs| != |seen.logs|
  }

  predicate Forks(m: map<nat, Fresh>, t: map<nat, Block>, from: nat, to: nat, n: nat) {
    from <= n <= to && n in t && n in m && Differs(t[n], m[n].block)
  }

  function Mark(f: Fresh, migrated: bool): Fresh {
    Fresh(true, if migrated then f.block.(migrated := true) else f.block)
  }

  function Marked(m: map<nat, Fresh>, t: map<nat, Block>, missing: set<nat>, from: nat, to: nat)
    : map<nat, Fresh>
  {
    map n | n in m :: if Forks(m, t, from, to, n) then Mark(m[n], n in missing) else m[n]
  }

  function FreshBlocks(m: map<nat, Fresh>): map<nat, Block> {
    map n | n in m :: m[n].block
  }

  /** The tracked blocks that were replaced. */
  function Replaced(m: map<nat, Fresh>, t: map<nat, Block>): map<nat, Block> {
    map n | n in m && m[n].forked && n in t :: t[n]
  }

  /** The tracker's entry for `n` once the fresh block `m[n]` is processed. */
  function Entry(m: map<nat, Fresh>, t: map<nat, Block>, policy: Policy, n: nat): Option<Block> {
    if n !in m then
      if n in t then Some(t[n]) else None
    else if policy == Fast && m[n].block.logs == [] then
      if n in t && !(m[n].forked && m[n].block.migrated) then Some(t[n]) else None
    else Some(m[n].block)
  }

  /** The tracker once the numbers `lo <= n < hi` are processed. */
  function Settled(m: map<nat, Fresh>, t: map<nat, Block>, policy: Policy, lo: nat, hi: nat): map<nat, Block> {
    map n | n in t.Keys + m.Keys && (if lo <= n < hi then Entry(m, t, policy, n).Some? else n in t)
      :: if lo <= n < hi then Entry(m, t, policy, n).value else t[n]
  }

  function LastGoodBlock(r: PollerResult): nat {
    if |r.reorged| != 0 then
      if |r.good| != 0 then
        var lastGood := r.good[|r.good| - 1].number;
        var firstReorg := r.reorged[0].number;
        if lastGood > firstReorg then Sub(firstReorg, 1) else lastGood
      else Sub(r.from, 1)
    else r.to
  }

  /** The poller keeps only what lies above the bound. */
  function Evicted(t: map<nat, Block>, bound: int): map<nat, Block> {
    map n | n in t && Score(n) > bound :: t[n]
  }

  function EvictionBound(cfg: Config, lastRecorded: nat): int {
    Score(Sub(lastRecorded, cfg.filterRange))
  }

  /** The fresh data of one poll: what the policy fetched, the blocks missing from it,
      and all of it with the forks marked. */
  function Looked(policy: Policy, t: map<nat, Block>, from: nat, to: nat, a: Answers)
    : Result<map<nat, Fresh>, PollError>
  {
    match Assembled(policy, from, to, a)
    case Err(e) => Err(e)
    case Ok(m) =>
      var missing := Missing(m, t, from, to);
      match Completed(m, missing, a.missing)
      case Err(e) => Err(e)
      case Ok(m') => Ok(Marked(m', t, missing, from, to))
  }

  function Report(m: map<nat, Fresh>, t: map<nat, Block>, from: nat, to: nat): PollerResult {
    var r := PollerResult(from, to, 0,
                          Listing(FreshBlocks(m), from, to + 1),
                          Listing(Replaced(m, t), from, to + 1));
    r.(lastGood := LastGoodBlock(r))
  }

  /** The end of a poll: report, and bring the tracker up to date. */
  function Concluded(policy: Policy, t: map<nat, Block>, m: map<nat, Fresh>, from: nat, to: nat)
    : (PollerState, Outcome)
  {
    var r := Report(m, t, from, to);
    (PollerState(Settled(m, t, policy, from, to + 1), r.lastGood), Polled(r, from in m && m[from].forked))
  }

  function Poll(cfg: Config, s: PollerState, from: nat, to: nat, a: Answers): (PollerState, Outcome) {
    var t := Evicted(s.tracker, EvictionBound(cfg, s.lastRecorded));
    match Looked(cfg.policy, t, from, to, a)
    case Err(e) => (PollerState(t, s.lastRecorded), Failed(e))
    case Ok(m) => Concluded(cfg.policy, t, m, from, to)
  }
}
