/** What the database library promises: a map from keys to data. */
module DbMap {
  import opened Options
  import opened AsciiFields

  const DB_INSERT := 1
  const DB_REPLACE := 2
  const DB_STORE := 3

  /** The return code of db_store, from the map alone. */
  function StoreCode(m: map<string, string>, key: string, flag: int): int {
    if flag !in {DB_INSERT, DB_REPLACE, DB_STORE} then -1
    else if key in m then (if flag == DB_INSERT then 1 else 0)
    else (if flag == DB_REPLACE then -1 else 0)
  }

  datatype Op = FetchOp(key: string) | DeleteOp(key: string) | StoreOp(key: string, data: string, flag: int)

  datatype Answer = Data(data: Option<string>) | Code(code: int)

  /** What an operation answers and leaves, from the map alone. */
  function MapAnswer(m: map<string, string>, op: Op): Answer {
    match op
    case FetchOp(key) => Data(if key in m then Some(m[key]) else None)
    case DeleteOp(key) => Code(if key in m then 0 else -1)
    case StoreOp(key, data, flag) => Code(StoreCode(m, key, flag))
  }

  function MapStep(m: map<string, string>, op: Op): map<string, string> {
    match op
    case FetchOp(key) => m
    case DeleteOp(key) => m - {key}
    case StoreOp(key, data, flag) => if StoreCode(m, key, flag) == 0 then m[key := data] else m
  }

  function MapRun(m: map<string, string>, ops: seq<Op>): map<string, string> {
    if ops == [] then m else MapStep(MapRun(m, ops[..|ops| - 1]), ops[|ops| - 1])
  }
}
