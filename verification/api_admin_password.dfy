/** The admin password handler: a status query that never reveals the
    password, and the reset with its checks in order. */
module AdminPasswordApi {
  import opened Model
  import opened Kv

  datatype PasswordBody = Empty | Status(present: bool, isDefault: bool) | Failure(error: string) | Changed(message: string)

  const DefaultPassword: string := "0909"
  const MinLength: nat := 4
  const NewRequired: string := "New password is required"
  const TooShort: string := "Password must be at least 4 characters"
  const CurrentIncorrect: string := "Current password is incorrect"
  const ChangedMessage: string := "Password updated successfully"

  /** GET: whether a password is stored, and whether it is the default one. */
  function StatusOf(stored: Option<string>): (r: PasswordBody)
    ensures r.Status? && (r.present <==> stored.Some? && stored.value != "")
    ensures r.isDefault <==> stored == Some(DefaultPassword)
  {
    Status(Truthy(stored), stored == Some(DefaultPassword))
  }

  /** The outcome of a reset request against the stored password: the
      missing and short new password are refused first, then a supplied
      current password must match; an omitted one is not checked. */
  function ResetOutcome(stored: Option<string>, currentPassword: Option<string>, newPassword: Option<string>): (r: Reply<PasswordBody>)
    ensures r.status in {200, 400, 401}
    ensures r.status == 200 <==> (Truthy(newPassword) && |newPassword.value| >= MinLength &&
              (Truthy(currentPassword) ==> Some(currentPassword.value) == stored))
    ensures r.status == 400 <==> !Truthy(newPassword) || |newPassword.value| < MinLength
    ensures r.status == 401 <==> (Truthy(newPassword) && |newPassword.value| >= MinLength &&
              Truthy(currentPassword) && Some(currentPassword.value) != stored)
  {
    if !Truthy(newPassword) then Reply(400, Failure(NewRequired))
    else if |newPassword.value| < MinLength then Reply(400, Failure(TooShort))
    else if Truthy(currentPassword) && Some(currentPassword.value) != stored then Reply(401, Failure(CurrentIncorrect))
    else Reply(200, Changed(ChangedMessage))
  }

  /** `writeOk` is the result of writing the new password. The handler
      does not look at it: a failed write still answers 200. */
  method Handle(kv: Store, verb: HttpMethod, currentPassword: Option<string>, newPassword: Option<string>,
                writeOk: bool)
    returns (reply: Reply<PasswordBody>)
    modifies kv
    ensures kv.members == old(kv.members) && kv.votes == old(kv.votes) && kv.logs == old(kv.logs)
    ensures kv.drawLogs == old(kv.drawLogs)
    ensures verb == OPTIONS ==> reply == Reply(200, Empty) && unchanged(kv)
    ensures verb == GET ==> reply == Reply(200, StatusOf(old(kv.adminPassword))) && unchanged(kv)
    ensures verb in {POST, PUT} ==>
              reply == ResetOutcome(old(kv.adminPassword), currentPassword, newPassword) &&
              kv.adminPassword == if reply.status == 200 && writeOk then newPassword else old(kv.adminPassword)
    ensures verb !in {OPTIONS, GET, POST, PUT} ==> reply == Reply(405, Empty) && unchanged(kv)
  {
    if verb == OPTIONS {
      return Reply(200, Empty);
    }
    if verb == GET {
      return Reply(200, StatusOf(kv.adminPassword));
    }
    if verb == POST || verb == PUT {
      if !Truthy(newPassword) {
        return Reply(400, Failure(NewRequired));
      }
      if |newPassword.value| < MinLength {
        return Reply(400, Failure(TooShort));
      }
      if Truthy(currentPassword) {
        var current := kv.adminPassword;
        if Some(currentPassword.value) != current {
          return Reply(401, Failure(CurrentIncorrect));
        }
      }
      if writeOk {
        kv.adminPassword := newPassword;
      }
      return Reply(200, Changed(ChangedMessage));
    }
    return Reply(405, Empty);
  }

  /** Anyone who omits the current password can replace it: the reset
      needs only a new password of four or more characters. */
  lemma ResetWithoutCurrent(stored: Option<string>, newPassword: string)
    requires |newPassword| >= MinLength
    ensures ResetOutcome(stored, None, Some(newPassword)).status == 200
    ensures ResetOutcome(stored, Some(""), Some(newPassword)).status == 200
  {
  }

  /** A reset the checks accept is reported as done even when the write
      fails, and the old password then stays. */
  method FailedWriteStillSucceeds(kv: Store, currentPassword: Option<string>, newPassword: string)
    returns (reply: Reply<PasswordBody>)
    requires |newPassword| >= MinLength
    requires !Truthy(currentPassword) || currentPassword == kv.adminPassword
    modifies kv
    ensures reply == Reply(200, Changed(ChangedMessage))
    ensures kv.adminPassword == old(kv.adminPassword)
  {
    reply := Handle(kv, POST, currentPassword, Some(newPassword), false);
  }
}
