/** The serverless handlers' shared state: the key-value store holding
    the registry, the ballots, the audit log, the lucky-draw history and
    the admin password. Each handler reads a whole value, changes it in
    memory and writes it back; a write reports success or failure, which
    the model takes as an input. */
module Kv {
  import opened Model

  class Store {
    var members: seq<Member>
    var votes: seq<Vote>
    var logs: seq<LogEntry>
    var drawLogs: seq<DrawLogEntry>
    var adminPassword: Option<string>

    constructor(members: seq<Member>, votes: seq<Vote>, logs: seq<LogEntry>,
                drawLogs: seq<DrawLogEntry>, adminPassword: Option<string>)
      ensures this.members == members && this.votes == votes && this.logs == logs
      ensures this.drawLogs == drawLogs && this.adminPassword == adminPassword
    {
      this.members := members;
      this.votes := votes;
      this.logs := logs;
      this.drawLogs := drawLogs;
      this.adminPassword := adminPassword;
    }
  }

  /** An HTTP answer: its status code and its JSON body. */
  datatype Reply<B> = Reply(status: nat, body: B)
}
