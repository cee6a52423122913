/** The Express server: members, ballots and the audit log kept as three
    JSON files, here three fields. Every route reads a whole file, changes
    it in memory and writes it back; a write that fails leaves that file as
    it was, and the server answers success all the same because it never
    looks at the write's result. */
module ExpressServer {
  import opened Model
  import opened Registry
  import opened VoteLog
  import opened Aggregation

  datatype MemberReply = MemberSaved(id: string) | Updated | NotFound | Deleted

  function MemberStatus(r: MemberReply): nat {
    if r.NotFound? then 404 else 200
  }

  class Server {
    var members: seq<Member>
    var votes: seq<Vote>
    var logs: seq<LogEntry>

    constructor(members: seq<Member>, votes: seq<Vote>, logs: seq<LogEntry>)
      ensures this.members == members && this.votes == votes && this.logs == logs
    {
      this.members := members;
      this.votes := votes;
      this.logs := logs;
    }

    /** POST /api/members: no validation and no duplicate check; the
        member is appended with its photo normalised. */
    method AddMember(id: string, name: string, photo: Option<string>, writeOk: bool) returns (reply: MemberReply)
      modifies this
      ensures members == if writeOk then old(members) + [Member(id, name, NullIfFalsy(photo))] else old(members)
      ensures votes == old(votes) && logs == old(logs)
      ensures reply == MemberSaved(id)
    {
      var updated := members + [Member(id, name, NullIfFalsy(photo))];
      if writeOk {
        members := updated;
      }
      reply := MemberSaved(id);
    }

    /** PUT /api/members/:id: 404 when the id is unknown, otherwise the
        first member with the id is rewritten. */
    method UpdateMember(id: string, name: string, photo: Option<string>, writeOk: bool) returns (reply: MemberReply)
      modifies this
      ensures (forall j :: 0 <= j < |old(members)| ==> old(members)[j].id != id) <==> reply == NotFound
      ensures reply == NotFound || reply == Updated
      ensures members == if reply == Updated && writeOk then UpdateFirst(old(members), id, name, photo).value else old(members)
      ensures votes == old(votes) && logs == old(logs)
    {
      var index := FindIndex(members, id);
      if index.Some? {
        var i := index.value;
        var updated := members[i := Member(members[i].id, name, NullIfFalsy(photo))];
        assert updated == UpdateFirst(members, id, name, photo).value;
        if writeOk {
          members := updated;
        }
        reply := Updated;
      } else {
        reply := NotFound;
      }
    }

    /** DELETE /api/members/:id: every member with the id goes, and the
        route succeeds whether or not one existed. */
    method DeleteMember(id: string, writeOk: bool) returns (reply: MemberReply)
      modifies this
      ensures members == if writeOk then RemoveAll(old(members), id) else old(members)
      ensures votes == old(votes) && logs == old(logs)
      ensures reply == Deleted
    {
      var filtered := RemoveAll(members, id);
      if writeOk {
        members := filtered;
      }
      reply := Deleted;
    }

    /** POST /api/votes: the ballot is appended as submitted (no budget
        re-check), then one log entry per positive score is appended. The
        log file is written even when the ballot's write failed. */
    method SubmitVote(voterName: string, scores: Scores, voteId: string, timestamp: string,
                      votesOk: bool, logsOk: bool) returns (id: string)
      modifies this
      ensures votes == if votesOk then old(votes) + [Vote(voteId, voterName, timestamp, scores)] else old(votes)
      ensures logs == if logsOk then old(logs) + DeriveLogs(voteId, voterName, timestamp, scores, old(members)) else old(logs)
      ensures members == old(members)
      ensures id == voteId
    {
      var updatedVotes := votes + [Vote(voteId, voterName, timestamp, scores)];
      if votesOk {
        votes := updatedVotes;
      }
      var updatedLogs := AppendLogs(logs, voteId, voterName, timestamp, scores, members);
      if logsOk {
        logs := updatedLogs;
      }
      id := voteId;
    }

    /** GET /api/vote-logs: at most 100 entries, the newest first. */
    method RecentLogs() returns (r: seq<LogEntry>)
      ensures |r| <= RecentLimit && |r| == if |logs| <= RecentLimit then |logs| else RecentLimit
      ensures forall i :: 0 <= i < |r| ==> r[i] == logs[|logs| - 1 - i]
    {
      r := Recent(logs);
      RecentAt(logs);
    }

    /** GET /api/vote-logs/:voteId: the entries of one ballot, in stored order. */
    method LogsOf(voteId: string) returns (r: seq<LogEntry>)
      ensures r == LogsOfVote(logs, voteId)
      ensures forall e :: e in r <==> e in logs && e.voteId == voteId
    {
      r := LogsOfVote(logs, voteId);
      LogsOfVoteMembers(logs, voteId);
    }

    /** GET /api/results. */
    method Results() returns (r: Aggregation.Results)
      ensures r == Leaderboard(members, votes)
    {
      r := CalculateResults(members, votes);
    }

    /** DELETE /api/votes: both the ballots and the log are emptied. */
    method ResetVotes(votesOk: bool, logsOk: bool)
      modifies this
      ensures votes == if votesOk then [] else old(votes)
      ensures logs == if logsOk then [] else old(logs)
      ensures members == old(members)
    {
      if votesOk {
        votes := [];
      }
      if logsOk {
        logs := [];
      }
    }
  }
}
