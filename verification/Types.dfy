/** The values that poller, emitter, engine and simulator exchange. */
module Types {
  datatype Option<+T> = None | Some(value: T)

  datatype Result<+T, +E> = Ok(value: T) | Err(error: E)

  /** Block hashes and transaction hashes. */
  datatype Hash = Hash(bits: int)

  /** An event log; `data` stands for every field that neither component looks at. */
  datatype Log = Log(number: nat, hash: Hash, tx: Hash, data: int)

  datatype Block = Block(migrated: bool, number: nat, hash: Hash, logs: seq<Log>)

  datatype Policy = Fast | Normal | Expensive | ExpensiveBlock

  datatype PollerResult = PollerResult(
    from: nat,
    to: nat,
    lastGood: nat,
    good: seq<Block>,
    reorged: seq<Block>)
}
