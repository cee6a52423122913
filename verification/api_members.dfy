/** The registry handler of the serverless deployment: list and add. */
module MembersApi {
  import opened Model
  import opened Kv

  datatype MembersBody = Empty | MemberList(members: seq<Member>) | Added(id: string) | Failure(error: string)

  const MissingFields: string := "Missing id or name"
  const SaveFailed: string := "Failed to save member"

  /** `writeOk` is the result of writing the registry back. */
  method Handle(kv: Store, verb: HttpMethod, id: Option<string>, name: Option<string>, photo: Option<string>,
                writeOk: bool) returns (reply: Reply<MembersBody>)
    modifies kv
    ensures kv.votes == old(kv.votes) && kv.logs == old(kv.logs)
    ensures kv.drawLogs == old(kv.drawLogs) && kv.adminPassword == old(kv.adminPassword)
    ensures verb == OPTIONS ==> reply == Reply(200, Empty) && unchanged(kv)
    ensures verb == GET ==> reply == Reply(200, MemberList(old(kv.members))) && unchanged(kv)
    ensures verb == POST && (!Truthy(id) || !Truthy(name)) ==>
              reply == Reply(400, Failure(MissingFields)) && unchanged(kv)
    ensures verb == POST && Truthy(id) && Truthy(name) ==>
              kv.members == (if writeOk then old(kv.members) + [Member(id.value, name.value, NullIfFalsy(photo))] else old(kv.members)) &&
              reply == if writeOk then Reply(200, Added(id.value)) else Reply(500, Failure(SaveFailed))
    ensures verb !in {OPTIONS, GET, POST} ==> reply == Reply(405, Empty) && unchanged(kv)
  {
    if verb == OPTIONS {
      return Reply(200, Empty);
    }
    if verb == GET {
      return Reply(200, MemberList(kv.members));
    }
    if verb == POST {
      if !Truthy(id) || !Truthy(name) {
        return Reply(400, Failure(MissingFields));
      }
      var members := kv.members + [Member(id.value, name.value, NullIfFalsy(photo))];
      if !writeOk {
        return Reply(500, Failure(SaveFailed));
      }
      kv.members := members;
      return Reply(200, Added(id.value));
    }
    return Reply(405, Empty);
  }
}
