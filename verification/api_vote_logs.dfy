/** The audit-log handler: every method but the preflight reads the view. */
module VoteLogsApi {
  import opened Model
  import opened Kv

  datatype LogsBody = Empty | LogList(logs: seq<LogEntry>)

  /** The reply to a request, given the stored log (which no request changes). */
  function Handle(logs: seq<LogEntry>, verb: HttpMethod): (r: Reply<LogsBody>)
    ensures verb == OPTIONS ==> r == Reply(200, Empty)
    ensures verb != OPTIONS ==> (r.status == 200 && r.body.LogList? &&
              |r.body.logs| <= RecentLimit && |r.body.logs| <= |logs| &&
              forall i :: 0 <= i < |r.body.logs| ==> r.body.logs[i] == logs[|logs| - 1 - i])
  {
    RecentAt(logs);
    if verb == OPTIONS then Reply(200, Empty) else Reply(200, LogList(Recent(logs)))
  }

  /** With at most 100 stored entries the reply is the whole log reversed,
      and with more it is the newest 100. */
  lemma HandleSize(logs: seq<LogEntry>, verb: HttpMethod)
    requires verb != OPTIONS
    ensures |logs| <= RecentLimit ==> Handle(logs, verb).body.logs == Reverse(logs)
    ensures |logs| > RecentLimit ==> |Handle(logs, verb).body.logs| == RecentLimit
  {
    RecentAt(logs);
    if |logs| <= RecentLimit {
      RecentSmall(logs);
    }
  }
}
