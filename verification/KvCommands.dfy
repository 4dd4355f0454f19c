/** The commands the key/value service puts into the log (src/kvraft/server.go, Op). */
module KvCommands {
  datatype Kind = Get | Put | Append

  /** `num` numbers the requests of client `id`. */
  datatype Op = Op(id: int, num: int, kind: Kind, key: string, value: string)

  /** The log holds requests, and the no-op strings a new leader may add. */
  datatype Command = NoOp(text: string) | Request(op: Op)
}
