/** The browser's storage layer over the HTTP API. Reads that fail fall
    back to a constant and never throw; writes that fail rethrow to the
    page. The server behind the API is the Express server. */
module Storage {
  import opened Model
  import opened Registry
  import opened VoteLog
  import opened Aggregation
  import opened ExpressServer

  /** How a call through the API client ended. */
  datatype Outcome = Done | Threw(message: string)

  /** The error the API client raises for a reply that is not 2xx: the
      status text, not the status code. */
  function ApiError(statusText: string): (r: string)
    ensures |r| == |statusText| + 11 && r[11..] == statusText
  {
    "API error: " + statusText
  }

  /** A member as the server stores it: a falsy photo becomes null. */
  function Stored(m: Member): (r: Member)
    ensures r.id == m.id && r.name == m.name
    ensures r.photo.None? || r.photo.value != ""
    ensures m.photo.None? || m.photo.value != "" ==> r == m
  {
    Member(m.id, m.name, NullIfFalsy(m.photo))
  }

  /** `calculateResults`. With the local flag the leaderboard is computed
      in the browser from the given members and ballots; otherwise the
      results endpoint's reply is returned, and a failed call gives an
      empty board with no votes instead of an error. */
  method CalculateResults(useLocalStorage: bool, members: seq<Member>, votes: seq<Vote>,
                          reply: Option<Results>) returns (r: Results)
    ensures useLocalStorage ==> r == Leaderboard(members, votes)
    ensures !useLocalStorage && reply.Some? ==> r == reply.value
    ensures !useLocalStorage && reply.None? ==> r.results == [] && r.totalVotes == 0
  {
    if useLocalStorage {
      r := Aggregation.CalculateResults(members, votes);
      return;
    }
    if reply.Some? {
      r := reply.value;
    } else {
      r := Results([], 0);
    }
  }

  /** `getVoteLogs(voteId)`: the per-ballot list for a truthy id, the
      recent list otherwise, and an empty list when the request fails.
      Whatever happens, only stored entries are shown and nothing is
      thrown. */
  method GetVoteLogs(server: Server, voteId: Option<string>, failure: Option<string>) returns (r: seq<LogEntry>)
    ensures failure.Some? ==> r == []
    ensures failure.None? && Truthy(voteId) ==> r == LogsOfVote(server.logs, voteId.value)
    ensures failure.None? && !Truthy(voteId) ==> |r| == (if |server.logs| <= RecentLimit then |server.logs| else RecentLimit)
    ensures failure.None? && !Truthy(voteId) ==> forall i :: 0 <= i < |r| ==> r[i] == server.logs[|server.logs| - 1 - i]
    ensures forall e :: e in r ==> e in server.logs
    ensures Truthy(voteId) ==> forall e :: e in r ==> e.voteId == voteId.value
  {
    if failure.Some? {
      return [];
    }
    if Truthy(voteId) {
      r := server.LogsOf(voteId.value);
    } else {
      r := server.RecentLogs();
      forall e | e in r ensures e in server.logs {
        var i :| 0 <= i < |r| && r[i] == e;
        assert server.logs[|server.logs| - 1 - i] in server.logs;
      }
    }
  }

  /** `addMember`: a request that fails rethrows and leaves the store as
      it was; one that arrives is stored (when the server's write
      succeeds) and reported done. */
  method AddMember(server: Server, member: Member, failure: Option<string>, writeOk: bool) returns (outcome: Outcome)
    modifies server
    ensures failure.Some? ==> outcome == Threw(failure.value) && server.members == old(server.members)
    ensures failure.None? ==> outcome == Done
    ensures failure.None? ==> server.members == if writeOk then old(server.members) + [Stored(member)] else old(server.members)
    ensures server.votes == old(server.votes) && server.logs == old(server.logs)
  {
    if failure.Some? {
      return Threw(failure.value);
    }
    var reply := server.AddMember(member.id, member.name, member.photo, writeOk);
    outcome := Done;
  }

  /** `updateMember`: a failed request, or the server's 404 for an unknown
      id, rethrows with the store unchanged. */
  method UpdateMember(server: Server, id: string, name: string, photo: Option<string>,
                      failure: Option<string>, writeOk: bool) returns (outcome: Outcome)
    modifies server
    ensures outcome == Done <==> failure.None? && FindIndex(old(server.members), id).Some?
    ensures failure.Some? ==> outcome == Threw(failure.value)
    ensures failure.None? && FindIndex(old(server.members), id).None? ==> outcome == Threw(ApiError("Not Found"))
    ensures server.members == if outcome == Done && writeOk then UpdateFirst(old(server.members), id, name, photo).value
                              else old(server.members)
    ensures server.votes == old(server.votes) && server.logs == old(server.logs)
  {
    if failure.Some? {
      return Threw(failure.value);
    }
    var reply := server.UpdateMember(id, name, photo, writeOk);
    if reply == NotFound {
      outcome := Threw(ApiError("Not Found"));
    } else {
      outcome := Done;
    }
  }

  /** `deleteMember`: a failed request rethrows with the store unchanged;
      the server itself never refuses a delete. */
  method DeleteMember(server: Server, id: string, failure: Option<string>, writeOk: bool) returns (outcome: Outcome)
    modifies server
    ensures failure.Some? ==> outcome == Threw(failure.value) && server.members == old(server.members)
    ensures failure.None? ==> outcome == Done
    ensures failure.None? ==> server.members == if writeOk then RemoveAll(old(server.members), id) else old(server.members)
    ensures server.votes == old(server.votes) && server.logs == old(server.logs)
  {
    if failure.Some? {
      return Threw(failure.value);
    }
    var reply := server.DeleteMember(id, writeOk);
    outcome := Done;
  }
}
