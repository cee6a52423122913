/** The serverless results handler. Unlike the other handlers it reads its
    registry and ballots from JSON files under /tmp, not from the
    key-value store, so it sees only what was written there. */
module ResultsApi {
  import opened Model
  import opened Files
  import opened Aggregation
  import opened Kv

  datatype ResultsBody = Empty | Board(results: Aggregation.Results)

  const MembersFile: string := "/tmp/members.json"
  const VotesFile: string := "/tmp/votes.json"

  /** Any method other than the preflight gets the leaderboard. The file
      contents are maps from path to value; a read that throws, or a file
      that is missing, gives an empty list. */
  method Handle(verb: HttpMethod, memberFiles: map<string, seq<Member>>, voteFiles: map<string, seq<Vote>>,
                membersReadFails: bool, votesReadFails: bool) returns (reply: Reply<ResultsBody>)
    ensures verb == OPTIONS ==> reply == Reply(200, Empty)
    ensures verb != OPTIONS ==> reply == Reply(200, Board(Leaderboard(
              ReadJSON(memberFiles, MembersFile, [], membersReadFails),
              ReadJSON(voteFiles, VotesFile, [], votesReadFails))))
  {
    if verb == OPTIONS {
      return Reply(200, Empty);
    }
    var members := ReadJSON(memberFiles, MembersFile, [], membersReadFails);
    var votes := ReadJSON(voteFiles, VotesFile, [], votesReadFails);
    var r := CalculateResults(members, votes);
    return Reply(200, Board(r));
  }

  /** Without readable files the board is empty and counts no ballots. */
  lemma NoFilesNoBoard()
    ensures Leaderboard(ReadJSON(map[], MembersFile, [], false), ReadJSON(map[], VotesFile, [], false)) == Aggregation.Results([], 0)
  {
    LeaderboardShape([], []);
  }
}
