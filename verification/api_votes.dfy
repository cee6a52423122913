/** The ballots handler: list, submit (with its audit-log entries) and
    reset, behind the usual method dispatch. */
module VotesApi {
  import opened Model
  import opened VoteLog
  import opened Kv

  datatype VotesBody = Empty | VoteList(votes: seq<Vote>) | Saved(id: string) | Failure(error: string) | Cleared

  const MissingFields: string := "Missing voterName or scores"
  const SaveFailed: string := "Failed to save vote"

  /** `voteId` and `timestamp` stand for `Date.now().toString()` and the
      ISO clock reading; `votesOk` and `logsOk` are the two writes' results. */
  method Handle(kv: Store, verb: HttpMethod, voterName: Option<string>, scores: Option<Scores>,
                voteId: string, timestamp: string, votesOk: bool, logsOk: bool) returns (reply: Reply<VotesBody>)
    modifies kv
    ensures kv.members == old(kv.members) && kv.drawLogs == old(kv.drawLogs) && kv.adminPassword == old(kv.adminPassword)
    ensures verb == OPTIONS ==> reply == Reply(200, Empty) && unchanged(kv)
    ensures verb == GET ==> reply == Reply(200, VoteList(old(kv.votes))) && unchanged(kv)
    ensures verb == POST && (!Truthy(voterName) || scores.None?) ==>
              reply == Reply(400, Failure(MissingFields)) && unchanged(kv)
    ensures verb == POST && Truthy(voterName) && scores.Some? ==>
              kv.votes == (if votesOk then old(kv.votes) + [Vote(voteId, voterName.value, timestamp, scores.value)] else old(kv.votes)) &&
              kv.logs == (if votesOk && logsOk
                          then old(kv.logs) + DeriveLogs(voteId, voterName.value, timestamp, scores.value, old(kv.members))
                          else old(kv.logs)) &&
              reply == if votesOk then Reply(200, Saved(voteId)) else Reply(500, Failure(SaveFailed))
    ensures verb == DELETE ==>
              kv.votes == (if votesOk then [] else old(kv.votes)) &&
              kv.logs == (if logsOk then [] else old(kv.logs)) &&
              reply == Reply(200, Cleared)
    ensures verb in {PUT, PATCH, HEAD} ==> reply == Reply(405, Empty) && unchanged(kv)
  {
    if verb == OPTIONS {
      return Reply(200, Empty);
    }
    if verb == GET {
      return Reply(200, VoteList(kv.votes));
    }
    if verb == POST {
      if !Truthy(voterName) || scores.None? {
        return Reply(400, Failure(MissingFields));
      }
      var vote := Vote(voteId, voterName.value, timestamp, scores.value);
      var votes := kv.votes + [vote];
      if !votesOk {
        return Reply(500, Failure(SaveFailed));
      }
      kv.votes := votes;
      var logs := AppendLogs(kv.logs, voteId, voterName.value, timestamp, scores.value, kv.members);
      if logsOk {
        kv.logs := logs;
      }
      return Reply(200, Saved(voteId));
    }
    if verb == DELETE {
      if votesOk {
        kv.votes := [];
      }
      if logsOk {
        kv.logs := [];
      }
      return Reply(200, Cleared);
    }
    return Reply(405, Empty);
  }
}
