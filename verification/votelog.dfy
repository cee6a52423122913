/** The audit log a ballot produces: one denormalised entry per score key
    with a positive value, in key order, and the per-ballot view of the
    stored log. */
module VoteLog {
  import opened Model
  import opened Registry

  /** The entries of a ballot with a positive score, in key order. */
  function Positive(scores: Scores): (r: Scores)
    ensures forall e :: e in r <==> e in scores && e.1 > 0
  {
    if scores == [] then []
    else
      var last := scores[|scores| - 1];
      assert scores == scores[..|scores| - 1] + [last];
      Positive(scores[..|scores| - 1]) + (if last.1 > 0 then [last] else [])
  }

  /** A single key is kept exactly when its score is positive. */
  lemma PositiveSingle(e: (string, int))
    ensures Positive([e]) == if e.1 > 0 then [e] else []
  {
    assert [e][..0] == [];
  }

  /** The filter works piecewise over a concatenation, so the kept entries
      stay in key order and each keeps its multiplicity. */
  lemma {:induction false} PositiveAppend(a: Scores, b: Scores)
    ensures Positive(a + b) == Positive(a) + Positive(b)
    decreases |b|
  {
    if b == [] {
      assert a + b == a;
    } else {
      var init, last := b[..|b| - 1], b[|b| - 1];
      var tail := if last.1 > 0 then [last] else [];
      PositiveAppend(a, init);
      calc {
        Positive(a + b);
      == { assert (a + b)[..|a + b| - 1] == a + init && (a + b)[|a + b| - 1] == last; }
        Positive(a + init) + tail;
      ==
        (Positive(a) + Positive(init)) + tail;
      ==
        Positive(a) + (Positive(init) + tail);
      }
    }
  }

  /** The entry one positive score produces. */
  function EntryFor(voteId: string, voterName: string, timestamp: string, members: seq<Member>, e: (string, int)): LogEntry
  {
    LogEntry(voteId, voterName, e.0, MemberName(members, e.0), e.1, timestamp)
  }

  /** The entries a submitted ballot appends to the log. */
  function DeriveLogs(voteId: string, voterName: string, timestamp: string, scores: Scores, members: seq<Member>): seq<LogEntry>
  {
    if scores == [] then []
    else
      var last := scores[|scores| - 1];
      DeriveLogs(voteId, voterName, timestamp, scores[..|scores| - 1], members)
        + (if last.1 > 0 then [EntryFor(voteId, voterName, timestamp, members, last)] else [])
  }

  /** The derived entries are the positive scores in key order, one entry each. */
  lemma {:induction false} DeriveLogsAt(voteId: string, voterName: string, timestamp: string, scores: Scores, members: seq<Member>)
    ensures |DeriveLogs(voteId, voterName, timestamp, scores, members)| == |Positive(scores)|
    ensures forall i :: 0 <= i < |Positive(scores)| ==>
              DeriveLogs(voteId, voterName, timestamp, scores, members)[i] == EntryFor(voteId, voterName, timestamp, members, Positive(scores)[i])
    decreases |scores|
  {
    if scores != [] {
      DeriveLogsAt(voteId, voterName, timestamp, scores[..|scores| - 1], members);
    }
  }

  /** One more score key extends the derived entries by at most that key's entry. */
  lemma DeriveLogsStep(voteId: string, voterName: string, timestamp: string, scores: Scores, k: nat, members: seq<Member>)
    requires k < |scores|
    ensures DeriveLogs(voteId, voterName, timestamp, scores[..k + 1], members)
         == DeriveLogs(voteId, voterName, timestamp, scores[..k], members)
            + (if scores[k].1 > 0 then [LogEntry(voteId, voterName, scores[k].0, MemberName(members, scores[k].0), scores[k].1, timestamp)] else [])
  {
    assert scores[..k + 1][..k] == scores[..k];
  }

  /** The `Object.keys(scores).forEach` loop that pushes the entries of
      a submitted ballot onto the log it read. */
  method AppendLogs(logs: seq<LogEntry>, voteId: string, voterName: string, timestamp: string,
                    scores: Scores, members: seq<Member>) returns (r: seq<LogEntry>)
    ensures r == logs + DeriveLogs(voteId, voterName, timestamp, scores, members)
  {
    r := logs;
    for k := 0 to |scores|
      invariant r == logs + DeriveLogs(voteId, voterName, timestamp, scores[..k], members)
    {
      DeriveLogsStep(voteId, voterName, timestamp, scores, k, members);
      var score := scores[k].1;
      if score > 0 {
        var memberName := MemberName(members, scores[k].0);
        r := r + [LogEntry(voteId, voterName, scores[k].0, memberName, score, timestamp)];
        assert r == logs + DeriveLogs(voteId, voterName, timestamp, scores[..k + 1], members);
      }
    }
    assert scores[..|scores|] == scores;
  }

  /** Every derived entry carries the ballot's id, voter and timestamp, a
      positive score that the ballot gave to that id, and the registry name
      of that id or 'Unknown'. */
  lemma DeriveLogsFields(voteId: string, voterName: string, timestamp: string, scores: Scores, members: seq<Member>)
    ensures forall e :: e in DeriveLogs(voteId, voterName, timestamp, scores, members) ==>
              e.voteId == voteId && e.voterName == voterName && e.timestamp == timestamp &&
              e.score > 0 && (e.memberId, e.score) in scores &&
              e.memberName == MemberName(members, e.memberId)
  {
    var r := DeriveLogs(voteId, voterName, timestamp, scores, members);
    DeriveLogsAt(voteId, voterName, timestamp, scores, members);
    forall e | e in r
      ensures e.voteId == voteId && e.voterName == voterName && e.timestamp == timestamp &&
              e.score > 0 && (e.memberId, e.score) in scores &&
              e.memberName == MemberName(members, e.memberId)
    {
      var i :| 0 <= i < |r| && r[i] == e;
      assert Positive(scores)[i] in Positive(scores);
    }
  }

  /** `logs.filter(log => log.voteId === voteId)`. */
  function LogsOfVote(logs: seq<LogEntry>, voteId: string): seq<LogEntry>
  {
    if logs == [] then []
    else
      var last := logs[|logs| - 1];
      LogsOfVote(logs[..|logs| - 1], voteId) + (if last.voteId == voteId then [last] else [])
  }

  /** The view holds exactly the stored entries of that ballot. */
  lemma {:induction false} LogsOfVoteMembers(logs: seq<LogEntry>, voteId: string)
    ensures forall e :: e in LogsOfVote(logs, voteId) <==> e in logs && e.voteId == voteId
    decreases |logs|
  {
    if logs != [] {
      LogsOfVoteMembers(logs[..|logs| - 1], voteId);
      assert logs == logs[..|logs| - 1] + [logs[|logs| - 1]];
    }
  }

  lemma {:induction false} LogsOfVoteAppend(a: seq<LogEntry>, b: seq<LogEntry>, voteId: string)
    ensures LogsOfVote(a + b, voteId) == LogsOfVote(a, voteId) + LogsOfVote(b, voteId)
    decreases |b|
  {
    if b == [] {
      assert a + b == a;
    } else {
      var init, last := b[..|b| - 1], b[|b| - 1];
      var tail := if last.voteId == voteId then [last] else [];
      LogsOfVoteAppend(a, init, voteId);
      calc {
        LogsOfVote(a + b, voteId);
      == { assert (a + b)[..|a + b| - 1] == a + init && (a + b)[|a + b| - 1] == last; }
        LogsOfVote(a + init, voteId) + tail;
      ==
        (LogsOfVote(a, voteId) + LogsOfVote(init, voteId)) + tail;
      ==
        LogsOfVote(a, voteId) + (LogsOfVote(init, voteId) + tail);
      }
    }
  }

  lemma {:induction false} LogsOfVoteNone(logs: seq<LogEntry>, voteId: string)
    requires forall i :: 0 <= i < |logs| ==> logs[i].voteId != voteId
    ensures LogsOfVote(logs, voteId) == []
    decreases |logs|
  {
    if logs != [] {
      LogsOfVoteNone(logs[..|logs| - 1], voteId);
    }
  }

  lemma {:induction false} LogsOfVoteAll(logs: seq<LogEntry>, voteId: string)
    requires forall i :: 0 <= i < |logs| ==> logs[i].voteId == voteId
    ensures LogsOfVote(logs, voteId) == logs
    decreases |logs|
  {
    if logs != [] {
      LogsOfVoteAll(logs[..|logs| - 1], voteId);
      assert logs == logs[..|logs| - 1] + [logs[|logs| - 1]];
    }
  }

  /** After a submission with a fresh ballot id, the per-ballot view of the
      log is exactly the entries that submission derived, in key order. */
  lemma LogsOfNewVote(old_logs: seq<LogEntry>, voteId: string, voterName: string, timestamp: string,
                      scores: Scores, members: seq<Member>)
    requires forall i :: 0 <= i < |old_logs| ==> old_logs[i].voteId != voteId
    ensures LogsOfVote(old_logs + DeriveLogs(voteId, voterName, timestamp, scores, members), voteId)
         == DeriveLogs(voteId, voterName, timestamp, scores, members)
  {
    var d := DeriveLogs(voteId, voterName, timestamp, scores, members);
    LogsOfVoteAppend(old_logs, d, voteId);
    LogsOfVoteNone(old_logs, voteId);
    LogsOfVoteAll(d, voteId);
  }
}
