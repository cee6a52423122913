/** The lucky-draw history handler: the newest-first view and the append
    of one validated entry. */
module LuckyDrawLogsApi {
  import opened Model
  import opened Kv

  /** The `winners` field of a request: absent, present but not an array,
      or an array of winner records. */
  datatype WinnersField = Absent | NotArray | Winners(list: seq<Member>)

  datatype DrawLogsBody = Empty | History(entries: seq<DrawLogEntry>) | Logged(id: string) | Failure(error: string)

  const MissingFields: string := "Missing required fields: drawId, timestamp, winners"
  const SaveFailed: string := "Failed to save lucky draw log"

  /** `drawCount || winners.length`: an absent or zero count is replaced by
      the number of winners. */
  function EffectiveCount(drawCount: Option<int>, winners: seq<Member>): (r: int)
    ensures drawCount.Some? && drawCount.value != 0 ==> r == drawCount.value
    ensures drawCount.None? || drawCount.value == 0 ==> r == |winners|
  {
    if drawCount.Some? && drawCount.value != 0 then drawCount.value else |winners|
  }

  /** A POST is accepted exactly when drawId and timestamp are non-empty
      strings and winners is an array (an empty array included). */
  predicate Acceptable(drawId: Option<string>, timestamp: Option<string>, winners: WinnersField) {
    Truthy(drawId) && Truthy(timestamp) && winners.Winners?
  }

  method Handle(kv: Store, verb: HttpMethod, drawId: Option<string>, timestamp: Option<string>,
                winners: WinnersField, drawCount: Option<int>, writeOk: bool) returns (reply: Reply<DrawLogsBody>)
    modifies kv
    ensures kv.members == old(kv.members) && kv.votes == old(kv.votes) && kv.logs == old(kv.logs)
    ensures kv.adminPassword == old(kv.adminPassword)
    ensures verb == OPTIONS ==> reply == Reply(200, Empty) && unchanged(kv)
    ensures verb == GET ==> reply == Reply(200, History(Recent(old(kv.drawLogs)))) && unchanged(kv)
    ensures verb == POST && !Acceptable(drawId, timestamp, winners) ==>
              reply == Reply(400, Failure(MissingFields)) && unchanged(kv)
    ensures verb == POST && Acceptable(drawId, timestamp, winners) ==>
              var entry := DrawLogEntry(drawId.value, timestamp.value, winners.list, EffectiveCount(drawCount, winners.list));
              kv.drawLogs == (if writeOk then old(kv.drawLogs) + [entry] else old(kv.drawLogs)) &&
              reply == if writeOk then Reply(200, Logged(drawId.value)) else Reply(500, Failure(SaveFailed))
    ensures verb !in {OPTIONS, GET, POST} ==> reply == Reply(405, Empty) && unchanged(kv)
  {
    if verb == OPTIONS {
      return Reply(200, Empty);
    }
    if verb == GET {
      return Reply(200, History(Recent(kv.drawLogs)));
    }
    if verb == POST {
      if !Truthy(drawId) || !Truthy(timestamp) || !winners.Winners? {
        return Reply(400, Failure(MissingFields));
      }
      var entry := DrawLogEntry(drawId.value, timestamp.value, winners.list, EffectiveCount(drawCount, winners.list));
      var logs := kv.drawLogs + [entry];
      if !writeOk {
        return Reply(500, Failure(SaveFailed));
      }
      kv.drawLogs := logs;
      return Reply(200, Logged(drawId.value));
    }
    return Reply(405, Empty);
  }
}
