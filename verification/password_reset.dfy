/** The Config page's password reset form: three fields checked in order
    in the browser, then one request, then a success line or an error
    line. Messages are looked up in the translation table with a built-in
    bilingual text as fallback. */
module PasswordReset {
  import opened Model
  import opened Text
  import opened I18n
  import opened Language
  import AdminPasswordApi
  import Storage

  /** The shortest new password the form accepts. */
  const MinLength: nat := 4

  /** The form's verdict before any request is made. */
  datatype ResetCheck = FieldsRequired | TooShort | Mismatch | SendReset(currentPassword: string, newPassword: string)

  /** `handleResetPassword`'s checks, in the page's order: every field
      filled, then the new password long enough, then the confirmation
      equal to it. Only a form that passes all three is sent. */
  function CheckReset(currentPassword: string, newPassword: string, confirmPassword: string): (r: ResetCheck)
    ensures r == FieldsRequired <==> currentPassword == "" || newPassword == "" || confirmPassword == ""
    ensures r == TooShort <==>
              currentPassword != "" && newPassword != "" && confirmPassword != "" && |newPassword| < MinLength
    ensures r == Mismatch <==>
              currentPassword != "" && newPassword != "" && confirmPassword != "" && |newPassword| >= MinLength &&
              newPassword != confirmPassword
    ensures r.SendReset? ==> r.currentPassword == currentPassword && r.newPassword == newPassword &&
                             newPassword == confirmPassword
  {
    if currentPassword == "" || newPassword == "" || confirmPassword == "" then FieldsRequired
    else if |newPassword| < MinLength then TooShort
    else if newPassword != confirmPassword then Mismatch
    else SendReset(currentPassword, newPassword)
  }

  /** A reset the form lets through passes the server's own checks on the
      new password: the server answers 200 when the current password is
      the stored one and 401 otherwise, never 400. */
  lemma SentResetReachesPasswordCheck(stored: Option<string>, currentPassword: string, newPassword: string,
                                      confirmPassword: string)
    requires CheckReset(currentPassword, newPassword, confirmPassword).SendReset?
    ensures AdminPasswordApi.ResetOutcome(stored, Some(currentPassword), Some(newPassword)).status
              == if stored == Some(currentPassword) then 200 else 401
  {
    var r := AdminPasswordApi.ResetOutcome(stored, Some(currentPassword), Some(newPassword));
    assert Truthy(Some(newPassword)) && |newPassword| >= AdminPasswordApi.MinLength;
    assert Truthy(Some(currentPassword));
  }

  // ---------------------------------------------------------------------
  // The bilingual texts the page falls back to.

  function RequiredFallback(): string {
    "All fi" + "elds a" + "re req" + "uired " + "/ กรุณ" + "ากรอกข"
      + "้อมูลค" + "รบถ้วน"
  }

  function MinLengthFallback(): string {
    "Passwo" + "rd mus" + "t be a" + "t leas" + "t 4 ch" + "aracte"
      + "rs / ร" + "หัสผ่า" + "นต้องม" + "ีอย่าง" + "น้อย 4" + " ตัวอั"
      + "กษร"
  }

  function MismatchFallback(): string {
    "New pa" + "ssword" + "s do n" + "ot mat" + "ch / ร" + "หัสผ่า"
      + "นใหม่ไ" + "ม่ตรงก" + "ัน"
  }

  function SuccessFallback(): string {
    "Passwo" + "rd res" + "et suc" + "cessfu" + "lly! P" + "age wi"
      + "ll rel" + "oad..." + " / รีเ" + "ซ็ตรหั" + "สผ่านส" + "ำเร็จ!"
      + " ระบบจ" + "ะรีโหล" + "ดหน้าเ" + "ว็บ..."
  }

  function FailedFallback(): string {
    "Failed" + " to re" + "set pa" + "ssword" + " / รีเ" + "ซ็ตรหั"
      + "สผ่านไ" + "ม่สำเร" + "็จ"
  }

  function IncorrectFallback(): string {
    "Curren" + "t pass" + "word i" + "s inco" + "rrect " + "/ รหัส"
      + "ผ่านปั" + "จจุบัน" + "ไม่ถูก" + "ต้อง"
  }

  // ---------------------------------------------------------------------
  // Messages.

  /** `t(key) || fallback`: the looked-up value when it is truthy,
      otherwise the fallback text. */
  function OrFallback(n: Node, fallback: string): (r: Node)
    ensures NodeTruthy(n) ==> r == n
    ensures !NodeTruthy(n) ==> r == Phrase(fallback)
  {
    if NodeTruthy(n) then n else Phrase(fallback)
  }

  /** A `config.` message as the page computes it from a translation
      table (the page's own is `Translations()`). */
  function ConfigMessageAsWritten(table: Node, lang: string, key: string, fallback: string): Node
  {
    OrFallback(T(table, lang, key), fallback)
  }

  /** `t` never returns a falsy value for a non-empty key, so from a table
      with no `config` section the fallback is never shown: the page shows
      the raw key instead. */
  lemma RawKeyShown(table: Node, lang: string, key: string, fallback: string)
    requires HasNoConfig(table, lang) && StartsWith(key, "config.")
    ensures ConfigMessageAsWritten(table, lang, key, fallback) == Phrase(key)
  {
    assert key == "config." + key[7..];
    ConfigUntranslatedIn(table, lang, key[7..]);
  }

  /** The shipped table is such a table, in every language. */
  lemma FallbackNeverShown(lang: string, rest: string, fallback: string)
    ensures ConfigMessageAsWritten(Translations(), lang, "config." + rest, fallback) == Phrase("config." + rest)
  {
    ConfigKeysUntranslated(lang, rest);
  }

  /** An empty form, in any language, shows `config.passwordRequired`
      rather than either translation of "All fields are required". */
  lemma EmptyFormShowsRawKey(lang: string)
    ensures ConfigMessageAsWritten(Translations(), lang, "config.passwordRequired", RequiredFallback())
            != Phrase(RequiredFallback())
  {
    NoConfigSection(lang);
    RawKeyShown(Translations(), lang, "config.passwordRequired", RequiredFallback());
    assert RequiredFallback()[0] == 'A';
  }

  /** The lookup the fallback was meant for: the translated phrase when the
      table has a non-empty one for the key, and the fallback otherwise. */
  function Localized(root: Node, lang: string, key: string, fallback: string): (r: string)
    ensures Resolve(root, lang, key).None? ==> r == fallback
    ensures var v := Resolve(root, lang, key);
            v.Some? && v.value.Phrase? && v.value.text != "" ==> r == v.value.text
    ensures fallback != "" ==> r != ""
  {
    var v := Resolve(root, lang, key);
    if v.Some? && v.value.Phrase? && v.value.text != "" then v.value.text else fallback
  }

  /** A `config.` message as intended. */
  function ConfigMessage(table: Node, lang: string, key: string, fallback: string): string
  {
    Localized(table, lang, key, fallback)
  }

  /** From a table with no `config` section the intended message is the
      fallback text. */
  lemma FallbackShown(table: Node, lang: string, key: string, fallback: string)
    requires HasNoConfig(table, lang) && StartsWith(key, "config.")
    ensures ConfigMessage(table, lang, key, fallback) == fallback
  {
    assert key == "config." + key[7..];
    ConfigWalkMisses(Child(Some(table), lang), key[7..]);
  }

  /** With the shipped table every intended `config.` message is its
      fallback text. */
  lemma ConfigMessageIsFallback(lang: string, rest: string, fallback: string)
    ensures ConfigMessage(Translations(), lang, "config." + rest, fallback) == fallback
  {
    ConfigKeysUnresolved(lang, rest);
  }

  /** No message: the empty string React renders as nothing. */
  const NoMessage: Node := Phrase("")

  /** The error line for a form that was not sent, as the page computes it. */
  function CheckError(table: Node, check: ResetCheck, lang: string): (r: Node)
    ensures check.SendReset? <==> !NodeTruthy(r)
  {
    match check
    case FieldsRequired => ConfigMessageAsWritten(table, lang, "config.passwordRequired", RequiredFallback())
    case TooShort => ConfigMessageAsWritten(table, lang, "config.passwordMinLength", MinLengthFallback())
    case Mismatch => ConfigMessageAsWritten(table, lang, "config.passwordMismatch", MismatchFallback())
    case SendReset(_, _) => NoMessage
  }

  /** The same error line with the intended lookup. */
  function CheckErrorIntended(table: Node, check: ResetCheck, lang: string): (r: Node)
    ensures check.SendReset? <==> !NodeTruthy(r)
  {
    match check
    case FieldsRequired => Phrase(ConfigMessage(table, lang, "config.passwordRequired", RequiredFallback()))
    case TooShort => Phrase(ConfigMessage(table, lang, "config.passwordMinLength", MinLengthFallback()))
    case Mismatch => Phrase(ConfigMessage(table, lang, "config.passwordMismatch", MismatchFallback()))
    case SendReset(_, _) => NoMessage
  }

  // ---------------------------------------------------------------------
  // Errors from the request.

  /** What the page makes of a failed request. */
  datatype ResetError = CurrentIncorrect | ShowRaw(message: string)

  /** As written: the thrown message (or a default when it is empty) is
      searched for '401' and 'incorrect'; a hit means a wrong current
      password, anything else is shown as it is. */
  function MapResetError(thrown: string): (r: ResetError)
    ensures var m := if thrown == "" then FailedFallback() else thrown;
            (r == CurrentIncorrect <==> Contains(m, "401") || Contains(m, "incorrect")) &&
            (r.ShowRaw? ==> r.message == m)
  {
    var m := if thrown == "" then FailedFallback() else thrown;
    if Contains(m, "401") || Contains(m, "incorrect") then CurrentIncorrect else ShowRaw(m)
  }

  /** A string that lacks one of the characters of `part` does not contain it. */
  lemma {:induction false} MissingChar(s: string, part: string, c: char)
    requires c in part && c !in s
    ensures !Contains(s, part)
    decreases |s|
  {
    if s != [] {
      MissingChar(s[1..], part, c);
    }
  }

  /** The message the API client throws for the server's 401 does not
      hold '401'... */
  lemma UnauthorizedLacksCode()
    ensures !Contains("API error: Unauthorized", "401")
  {
    MissingChar("API error: Unauthorized", "401", '4');
  }

  /** ... nor 'incorrect'. */
  lemma UnauthorizedLacksIncorrect()
    ensures !Contains("API error: Unauthorized", "incorrect")
  {
    assert 'c' !in "API error: Unauthorized";
    MissingChar("API error: Unauthorized", "incorrect", 'c');
  }

  /** The API client reports a refused request by its status text, so the
      server's 401 for a wrong current password arrives as
      "API error: Unauthorized" and is shown raw. */
  lemma UnauthorizedShownRaw()
    ensures MapResetError(Storage.ApiError("Unauthorized")) == ShowRaw("API error: Unauthorized")
  {
    assert Storage.ApiError("Unauthorized") == "API error: Unauthorized";
    UnauthorizedLacksCode();
    UnauthorizedLacksIncorrect();
  }

  /** How the reset request ended: the server's status when it answered,
      and the message the client threw. */
  datatype CallResult = Succeeded | Failed(status: Option<nat>, message: string)

  /** The mapping keyed on the server's answer: its 401 is the wrong
      current password whatever the message says; other failures are
      mapped as before. */
  function MapResetFailure(status: Option<nat>, thrown: string): (r: ResetError)
    ensures status == Some(401) ==> r == CurrentIncorrect
    ensures status != Some(401) ==> r == MapResetError(thrown)
  {
    if status == Some(401) then CurrentIncorrect else MapResetError(thrown)
  }



  /** The error line for a failed request, as the page computes it. */
  function FailureError(table: Node, e: ResetError, lang: string): (r: Node)
    ensures NodeTruthy(r)
    ensures e.ShowRaw? && e.message != "" ==> r == Phrase(e.message)
  {
    match e
    case CurrentIncorrect => ConfigMessageAsWritten(table, lang, "config.currentPasswordIncorrect", IncorrectFallback())
    case ShowRaw(m) => Phrase(if m == "" then FailedFallback() else m)
  }

  /** The same error line with the intended lookup. */
  function FailureErrorIntended(table: Node, e: ResetError, lang: string): (r: Node)
    ensures NodeTruthy(r)
    ensures e.ShowRaw? && e.message != "" ==> r == Phrase(e.message)
  {
    match e
    case CurrentIncorrect => Phrase(ConfigMessage(table, lang, "config.currentPasswordIncorrect", IncorrectFallback()))
    case ShowRaw(m) => Phrase(if m == "" then FailedFallback() else m)
  }

  // ---------------------------------------------------------------------
  // The whole handler.

  /** The form after a submission: the error and success lines, whether
      the request went out, and whether the three fields were cleared. */
  datatype ResetView = ResetView(error: Node, success: Node, requested: bool, cleared: bool)

  /** `handleResetPassword` as written: a form that fails a check shows
      that check's message and sends nothing; a sent form shows the success
      line and clears the fields, or shows the error line the thrown
      message maps to and keeps them. Exactly one of the two lines shows. */
  function HandleReset(table: Node, lang: string, currentPassword: string, newPassword: string, confirmPassword: string,
                       result: CallResult): (r: ResetView)
    ensures r.requested <==> CheckReset(currentPassword, newPassword, confirmPassword).SendReset?
    ensures r.cleared <==> r.requested && result.Succeeded?
    ensures !NodeTruthy(r.error) <==> r.cleared
    ensures NodeTruthy(r.success) <==> r.cleared
    ensures !r.requested ==> r.error == CheckError(table, CheckReset(currentPassword, newPassword, confirmPassword), lang)
    ensures r.requested && result.Failed? ==> r.error == FailureError(table, MapResetError(result.message), lang)
  {
    var check := CheckReset(currentPassword, newPassword, confirmPassword);
    if !check.SendReset? then ResetView(CheckError(table, check, lang), NoMessage, false, false)
    else if result.Succeeded? then
      ResetView(NoMessage, ConfigMessageAsWritten(table, lang, "config.passwordResetSuccess", SuccessFallback()), true, true)
    else ResetView(FailureError(table, MapResetError(result.message), lang), NoMessage, true, false)
  }

  /** As written, a failed check shows its raw `config.` key. */
  lemma CheckErrorShowsKey(table: Node, check: ResetCheck, lang: string)
    requires HasNoConfig(table, lang)
    ensures check == FieldsRequired ==> CheckError(table, check, lang) == Phrase("config.passwordRequired")
    ensures check == TooShort ==> CheckError(table, check, lang) == Phrase("config.passwordMinLength")
    ensures check == Mismatch ==> CheckError(table, check, lang) == Phrase("config.passwordMismatch")
  {
    match check
    case FieldsRequired => RawKeyShown(table, lang, "config.passwordRequired", RequiredFallback());
    case TooShort => RawKeyShown(table, lang, "config.passwordMinLength", MinLengthFallback());
    case Mismatch => RawKeyShown(table, lang, "config.passwordMismatch", MismatchFallback());
    case SendReset(_, _) =>
  }

  /** As written, every message the form takes from the table is its raw
      `config.` key: the failed check's, the success line's, and the wrong
      current password's when the thrown message holds '401'. */
  lemma RawKeysShown(table: Node, lang: string, currentPassword: string, newPassword: string, confirmPassword: string,
                     result: CallResult)
    requires HasNoConfig(table, lang)
    ensures var r := HandleReset(table, lang, currentPassword, newPassword, confirmPassword, result);
            var check := CheckReset(currentPassword, newPassword, confirmPassword);
            (check == FieldsRequired ==> r.error == Phrase("config.passwordRequired")) &&
            (check == TooShort ==> r.error == Phrase("config.passwordMinLength")) &&
            (check == Mismatch ==> r.error == Phrase("config.passwordMismatch")) &&
            (r.cleared ==> r.success == Phrase("config.passwordResetSuccess")) &&
            (r.requested && result.Failed? && Contains(result.message, "401") ==>
               r.error == Phrase("config.currentPasswordIncorrect"))
  {
    var check := CheckReset(currentPassword, newPassword, confirmPassword);
    if !check.SendReset? {
      CheckErrorShowsKey(table, check, lang);
    } else if result.Succeeded? {
      RawKeyShown(table, lang, "config.passwordResetSuccess", SuccessFallback());
    } else if Contains(result.message, "401") {
      assert MapResetError(result.message) == CurrentIncorrect;
      RawKeyShown(table, lang, "config.currentPasswordIncorrect", IncorrectFallback());
    }
  }

  /** As written, a sent form the server refuses with 401 shows the API
      client's raw "API error: Unauthorized". */
  lemma UnauthorizedResetShownRaw(table: Node, lang: string, currentPassword: string, newPassword: string, confirmPassword: string)
    requires CheckReset(currentPassword, newPassword, confirmPassword).SendReset?
    ensures HandleReset(table, lang, currentPassword, newPassword, confirmPassword,
                        Failed(Some(401), Storage.ApiError("Unauthorized"))).error
            == Phrase("API error: Unauthorized")
  {
    UnauthorizedShownRaw();
  }

  /** `handleResetPassword` as intended: the bilingual fallbacks where the
      table has no entry, and the server's 401 read from its status. */
  function HandleResetIntended(table: Node, lang: string, currentPassword: string, newPassword: string, confirmPassword: string,
                               result: CallResult): (r: ResetView)
    ensures r.requested <==> CheckReset(currentPassword, newPassword, confirmPassword).SendReset?
    ensures r.cleared <==> r.requested && result.Succeeded?
    ensures !NodeTruthy(r.error) <==> r.cleared
    ensures NodeTruthy(r.success) <==> r.cleared
    ensures !r.requested ==> r.error == CheckErrorIntended(table, CheckReset(currentPassword, newPassword, confirmPassword), lang)
    ensures r.requested && result.Failed? ==>
              r.error == FailureErrorIntended(table, MapResetFailure(result.status, result.message), lang)
  {
    var check := CheckReset(currentPassword, newPassword, confirmPassword);
    if !check.SendReset? then ResetView(CheckErrorIntended(table, check, lang), NoMessage, false, false)
    else if result.Succeeded? then
      assert SuccessFallback()[0] == 'P';
      ResetView(NoMessage, Phrase(ConfigMessage(table, lang, "config.passwordResetSuccess", SuccessFallback())), true, true)
    else ResetView(FailureErrorIntended(table, MapResetFailure(result.status, result.message), lang), NoMessage, true, false)
  }

  /** A sent reset with the wrong current password is reported as such by
      the intended handler, whatever text the client puts in its error. */
  lemma WrongCurrentPasswordRecognised(table: Node, lang: string, stored: Option<string>, currentPassword: string,
                                       newPassword: string, confirmPassword: string, thrown: string)
    requires CheckReset(currentPassword, newPassword, confirmPassword).SendReset?
    requires stored != Some(currentPassword)
    ensures var status := AdminPasswordApi.ResetOutcome(stored, Some(currentPassword), Some(newPassword)).status;
            MapResetFailure(Some(status), thrown) == CurrentIncorrect &&
            HandleResetIntended(table, lang, currentPassword, newPassword, confirmPassword, Failed(Some(status), thrown)).error
              == FailureErrorIntended(table, CurrentIncorrect, lang)
  {
    SentResetReachesPasswordCheck(stored, currentPassword, newPassword, confirmPassword);
  }

  /** With the intended lookup a failed check shows the page's bilingual text. */
  lemma CheckErrorShowsFallback(table: Node, check: ResetCheck, lang: string)
    requires HasNoConfig(table, lang)
    ensures check == FieldsRequired ==> CheckErrorIntended(table, check, lang) == Phrase(RequiredFallback())
    ensures check == TooShort ==> CheckErrorIntended(table, check, lang) == Phrase(MinLengthFallback())
    ensures check == Mismatch ==> CheckErrorIntended(table, check, lang) == Phrase(MismatchFallback())
  {
    match check
    case FieldsRequired => FallbackShown(table, lang, "config.passwordRequired", RequiredFallback());
    case TooShort => FallbackShown(table, lang, "config.passwordMinLength", MinLengthFallback());
    case Mismatch => FallbackShown(table, lang, "config.passwordMismatch", MismatchFallback());
    case SendReset(_, _) =>
  }

  /** With the intended handler and the shipped table the messages are the
      page's bilingual texts: the first failed check's text, the success
      text, and for the server's 401 the wrong-current-password text. */
  lemma IntendedMessages(table: Node, lang: string, currentPassword: string, newPassword: string, confirmPassword: string,
                        result: CallResult)
    requires HasNoConfig(table, lang)
    ensures var r := HandleResetIntended(table, lang, currentPassword, newPassword, confirmPassword, result);
            var check := CheckReset(currentPassword, newPassword, confirmPassword);
            (check == FieldsRequired ==> r.error == Phrase(RequiredFallback())) &&
            (check == TooShort ==> r.error == Phrase(MinLengthFallback())) &&
            (check == Mismatch ==> r.error == Phrase(MismatchFallback())) &&
            (r.cleared ==> r.success == Phrase(SuccessFallback())) &&
            (r.requested && result.Failed? && result.status == Some(401) ==> r.error == Phrase(IncorrectFallback()))
  {
    var check := CheckReset(currentPassword, newPassword, confirmPassword);
    if !check.SendReset? {
      CheckErrorShowsFallback(table, check, lang);
    } else if result.Succeeded? {
      FallbackShown(table, lang, "config.passwordResetSuccess", SuccessFallback());
    } else if result.status == Some(401) {
      FallbackShown(table, lang, "config.currentPasswordIncorrect", IncorrectFallback());
    }
  }
}
