/** The emitter as it runs: status objects that are changed through references, one of which
    outlives the loop that replaced it. */
module Emitters {
  import opened Words
  import opened Types
  import opened EmitterSpec

  class EmitterStatus {
    var from: nat
    var to: nat
    var current: nat
    var lastRecorded: nat
    var goBackFirstStart: bool
    var isReorging: bool
    var retries: nat

    constructor Zero()
      ensures View() == Status(0, 0, 0, 0, false, false, 0)
    {
      from, to, current, lastRecorded := 0, 0, 0, 0;
      goBackFirstStart, isReorging, retries := false, false, 0;
    }

    constructor (s: Status)
      ensures View() == s
    {
      from, to, current, lastRecorded := s.from, s.to, s.current, s.lastRecorded;
      goBackFirstStart, isReorging, retries := s.goBackFirstStart, s.isReorging, s.retries;
    }

    function View(): Status
      reads this
    {
      Status(from, to, current, lastRecorded, goBackFirstStart, isReorging, retries)
    }
  }

  method ComputeWindow(cfg: EmitterConfig, prev: EmitterStatus, head: nat, last: nat)
    returns (window: Option<(nat, nat)>)
    modifies prev
    ensures (prev.View(), window) == Window(cfg, old(prev.View()), head, last)
  {
    if prev.goBackFirstStart {
      prev.goBackFirstStart := false;
      window := Some(FirstRunWindow(cfg.start, last, cfg.filterRange, prev.View()));
    } else if prev.isReorging {
      window := ReorgingWindow(cfg.start, head, cfg.filterRange, cfg.maxRetries, prev.View());
    } else {
      window := Some(NormalWindow(cfg.start, head, last, cfg.filterRange));
    }
    if window.Some? {
      prev.from, prev.to := window.value.0, window.value.1;
    }
  }

  /** Returns a new status object, and leaves its marks on the old one. */
  method ComputeStatus(cfg: EmitterConfig, prev: EmitterStatus, gateway: Gateway, head: Option<nat>)
    returns (computed: Computed)
    modifies prev
    ensures (prev.View(), computed) == Compute(cfg, old(prev.View()), gateway, head)
  {
    var last := cfg.start;
    match gateway {
      case GatewayError => return Unavailable;
      case NotFound => prev.goBackFirstStart := false;
      case Found(n) => last := n;
    }
    if head.None? {
      return Unavailable;
    }
    if last == head.value && !prev.goBackFirstStart {
      return NoNewBlock;
    }
    prev.current, prev.lastRecorded := head.value, last;
    var window := ComputeWindow(cfg, prev, head.value, last);
    if window.None? {
      return MaxRetriesReached;
    }
    var from, to := window.value.0, window.value.1;
    if from < cfg.start {
      from := cfg.start;
    }
    computed := NewStatus(Status(from, to, head.value, last, false, prev.isReorging, prev.retries));
  }

  /** One iteration of loopEmit. The status to go on with is the given object when the iteration was
      skipped, and a new one when a result was emitted. The given object keeps its retry counter and
      its reorg flag in any case. */
  method IterateOnce(cfg: EmitterConfig, status: EmitterStatus, env: Env)
    returns (i: Iteration, next: EmitterStatus)
    modifies status
    ensures i == Iterate(cfg, old(status.View()), env)
    ensures i.Emitted? ==> fresh(next)
    ensures !i.Emitted? ==> next == status
    ensures i.Skipped? || i.Emitted? ==> next.View() == StatusAfter(i)
    ensures status.retries == old(status.retries) && status.isReorging == old(status.isReorging)
  {
    next := status;
    var computed := ComputeStatus(cfg, status, env.gateway, env.head);
    if status.goBackFirstStart && computed.NoNewBlock? {
      assert false;  // the source polls in this case, but "no new block" is never said on a first run
    }
    if computed.NoNewBlock? {
      return Skipped(status.View()), status;
    }
    if !computed.NewStatus? || env.poll.PollFailed? {
      return Returned(status.View()), status;
    }
    if env.poll.NilResult? {
      return Panicked, status;
    }
    next := new EmitterStatus(computed.next);
    next.isReorging := env.poll.FromReorged?;
    next.retries := if next.isReorging then Add(next.retries, 1) else 0;
    i := Emitted(status.View(), next.View());
  }

  /** One loopEmit over the given surroundings. Whatever happens in it, the retry counter and the
      reorg flag of the status object it was given stay as they were: the loop counts on the objects
      that replace it. */
  method LoopEmit(cfg: EmitterConfig, status0: EmitterStatus, envs: seq<Env>) returns (trace: seq<Iteration>)
    modifies status0
    ensures trace == Session(cfg, old(status0.View()).(goBackFirstStart := true), envs)
    ensures status0.retries == old(status0.retries) && status0.isReorging == old(status0.isReorging)
  {
    var status := status0;
    status.goBackFirstStart := true;
    ghost var initial := status.View();
    trace := [];
    for k := 0 to |envs|
      invariant status == status0 || fresh(status)
      invariant status0.retries == old(status0.retries) && status0.isReorging == old(status0.isReorging)
      invariant Session(cfg, initial, envs) == trace + Session(cfg, status.View(), envs[k..])
    {
      assert envs[k..][0] == envs[k] && envs[k..][1..] == envs[k + 1..];
      var i;
      i, status := IterateOnce(cfg, status, envs[k]);
      trace := trace + [i];
      if !(i.Skipped? || i.Emitted?) {
        return;
      }
    }
  }

  /** The outer loop, which starts loopEmit again whenever it returns, always with the same status
      object. Every session therefore starts, and makes its first run, with no retries counted. */
  method Loop(cfg: EmitterConfig, sessions: seq<seq<Env>>) returns (starts: seq<Status>, traces: seq<seq<Iteration>>)
    ensures |starts| == |traces| == |sessions|
    ensures forall k :: 0 <= k < |starts| ==>
      starts[k].goBackFirstStart && starts[k].retries == 0 && !starts[k].isReorging
      && traces[k] == Session(cfg, starts[k], sessions[k])
  {
    var status := new EmitterStatus.Zero();
    starts, traces := [], [];
    for k := 0 to |sessions|
      invariant fresh(status) && status.retries == 0 && !status.isReorging
      invariant |starts| == |traces| == k
      invariant forall j :: 0 <= j < k ==>
        starts[j].goBackFirstStart && starts[j].retries == 0 && !starts[j].isReorging
        && traces[j] == Session(cfg, starts[j], sessions[j])
    {
      starts := starts + [status.View().(goBackFirstStart := true)];
      var trace := LoopEmit(cfg, status, sessions[k]);
      traces := traces + [trace];
    }
  }
}
