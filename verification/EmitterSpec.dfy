/** The emitter's window arithmetic and one iteration of its loop, as functions on status values. */
module EmitterSpec {
  import opened Words
  import opened Types

  datatype Status = Status(
    from: nat,
    to: nat,
    current: nat,
    lastRecorded: nat,
    goBackFirstStart: bool,
    isReorging: bool,
    retries: nat)

  datatype EmitterConfig = EmitterConfig(start: nat, filterRange: nat, maxRetries: nat)

  function NormalWindow(start: nat, head: nat, last: nat, filterRange: nat): (nat, nat) {
    var firstNew := Min(head, Add(last, 1));
    (if filterRange > firstNew then start else Sub(firstNew, filterRange), Min(head, Add(last, filterRange)))
  }

  /** The go-back window; None when the retries are used up. */
  function ReorgingWindow(start: nat, head: nat, filterRange: nat, maxRetries: nat, prev: Status): Option<(nat, nat)> {
    if prev.retries > maxRetries then None
    else Some((if filterRange > prev.from then start else Sub(prev.from, filterRange), Min(prev.to, head)))
  }

  function FirstRunWindow(start: nat, last: nat, filterRange: nat, prev: Status): (nat, nat) {
    var goBack := Mul(filterRange, prev.retries);
    var firstNew := Add(last, 1);
    var from := if goBack > firstNew then start else Sub(firstNew, goBack);
    (from, Sub(Add(from, filterRange), 1))
  }

  /** The window for a status, and the status as the computation leaves it. */
  function Window(cfg: EmitterConfig, prev: Status, head: nat, last: nat): (Status, Option<(nat, nat)>) {
    var (next, window) :=
      if prev.goBackFirstStart then
        (prev.(goBackFirstStart := false), Some(FirstRunWindow(cfg.start, last, cfg.filterRange, prev)))
      else if prev.isReorging then
        (prev, ReorgingWindow(cfg.start, head, cfg.filterRange, cfg.maxRetries, prev))
      else
        (prev, Some(NormalWindow(cfg.start, head, last, cfg.filterRange)));
    (if window.Some? then next.(from := window.value.0, to := window.value.1) else next, window)
  }

  datatype Gateway = Found(last: nat) | NotFound | GatewayError

  datatype Computed = NewStatus(next: Status) | NoNewBlock | MaxRetriesReached | Unavailable

  /** The window computation around the emitter's resources: the status as it is left behind, and
      what the computation returns. */
  function Compute(cfg: EmitterConfig, prev: Status, gateway: Gateway, head: Option<nat>): (Status, Computed) {
    if gateway.GatewayError? then (prev, Unavailable)
    else
      var prev := if gateway.NotFound? then prev.(goBackFirstStart := false) else prev;
      var last := if gateway.NotFound? then cfg.start else gateway.last;
      if head.None? then (prev, Unavailable)
      else if last == head.value && !prev.goBackFirstStart then (prev, NoNewBlock)
      else
        var (left, window) := Window(cfg, prev.(current := head.value, lastRecorded := last), head.value, last);
        if window.None? then (left, MaxRetriesReached)
        else
          var from := if window.value.0 < cfg.start then cfg.start else window.value.0;
          (left, NewStatus(Status(from, window.value.1, head.value, last, false, left.isReorging, left.retries)))
  }

  /** What Poll returns to the loop. `NilResult` is the hash mismatch, which comes without a result. */
  datatype PollReply = Clean | FromReorged | NilResult | PollFailed

  datatype Env = Env(gateway: Gateway, head: Option<nat>, poll: PollReply)

  /** How an iteration ends: skipped, a result emitted and a new status in place, loopEmit returned
      an error, or the emitter panicked on a nil result. */
  datatype Iteration = Skipped(left: Status) | Emitted(left: Status, next: Status) | Returned(left: Status) | Panicked

  function Updated(next: Status, reorging: bool): Status {
    next.(isReorging := reorging, retries := if reorging then Add(next.retries, 1) else 0)
  }

  function Iterate(cfg: EmitterConfig, status: Status, env: Env): Iteration {
    var (left, computed) := Compute(cfg, status, env.gateway, env.head);
    match computed
    case NoNewBlock => Skipped(left)
    case MaxRetriesReached => Returned(left)
    case Unavailable => Returned(left)
    case NewStatus(next) =>
      match env.poll
      case Clean => Emitted(left, Updated(next, false))
      case FromReorged => Emitted(left, Updated(next, true))
      case NilResult => Panicked
      case PollFailed => Returned(left)
  }

  /** The status a loop is in after an iteration that did not end it. */
  function StatusAfter(i: Iteration): Status
    requires i.Skipped? || i.Emitted?
  {
    if i.Skipped? then i.left else i.next
  }

  /** The iterations of one loopEmit, from its starting status, up to the one that ends it. */
  function Session(cfg: EmitterConfig, status: Status, envs: seq<Env>): seq<Iteration>
    decreases |envs|
  {
    if envs == [] then []
    else
      var i := Iterate(cfg, status, envs[0]);
      if i.Skipped? || i.Emitted? then [i] + Session(cfg, StatusAfter(i), envs[1..]) else [i]
  }
}
