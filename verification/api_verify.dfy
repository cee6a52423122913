/** The password check: the reply says only whether the submitted
    password equals the stored one. */
module VerifyApi {
  import opened Model
  import opened Kv

  datatype VerifyBody = Empty | Verdict(valid: bool) | Failure(error: string)

  const Required: string := "Password is required"

  function Verify(stored: Option<string>, verb: HttpMethod, password: Option<string>): (r: Reply<VerifyBody>)
    ensures verb == OPTIONS ==> r == Reply(200, Empty)
    ensures verb == POST && !Truthy(password) ==> r == Reply(400, Failure(Required))
    ensures verb == POST && Truthy(password) ==> (r.status == 200 && r.body.Verdict? &&
              (r.body.valid <==> stored == password))
    ensures verb !in {OPTIONS, POST} ==> r == Reply(405, Empty)
  {
    if verb == OPTIONS then Reply(200, Empty)
    else if verb == POST then
      if !Truthy(password) then Reply(400, Failure(Required))
      else Reply(200, Verdict(password == stored))
    else Reply(405, Empty)
  }

  /** The reply depends on the stored password only through whether it
      matches: two stores that agree on that answer identically, so the
      reply cannot carry the password itself. */
  lemma VerifyRevealsOnlyMatch(stored1: Option<string>, stored2: Option<string>, verb: HttpMethod, password: Option<string>)
    requires (stored1 == password) == (stored2 == password)
    ensures Verify(stored1, verb, password) == Verify(stored2, verb, password)
  {
  }
}
