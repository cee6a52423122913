/** The client-side login gate in front of the admin pages: one input, one
    hard-coded password, and an error line that any edit clears. */
module Gate {
  import opened Model
  import opened I18n
  import opened Language

  const CorrectPassword: string := "0909"

  /** The gate's three pieces of state. No error is an empty phrase. */
  datatype GateState = GateState(password: string, isAuthenticated: bool, error: Node)

  const NoError: Node := Phrase("")

  const Initial: GateState := GateState("", false, NoError)

  /** What the user can do: type into the input, or submit the form. */
  datatype GateEvent = Input(value: string) | SubmitForm

  /** One event. `message` is the translated `password.error` at the time. */
  function Step(s: GateState, e: GateEvent, message: Node): (r: GateState)
    ensures e.Input? ==> r == GateState(e.value, s.isAuthenticated, NoError)
    ensures e == SubmitForm ==> (r.isAuthenticated <==> s.isAuthenticated || s.password == CorrectPassword)
    ensures e == SubmitForm && s.password != CorrectPassword ==> r.password == "" && r.error == message
  {
    match e
    case Input(value) => GateState(value, s.isAuthenticated, NoError)
    case SubmitForm =>
      if s.password == CorrectPassword then GateState(s.password, true, NoError)
      else GateState("", s.isAuthenticated, message)
  }

  /** A sequence of events from a given state. */
  function Run(s: GateState, events: seq<GateEvent>, message: Node): GateState
    decreases |events|
  {
    if events == [] then s else Run(Step(s, events[0], message), events[1..], message)
  }

  /** Nothing ever signs the user out again. */
  lemma {:induction false} StaysAuthenticated(s: GateState, events: seq<GateEvent>, message: Node)
    requires s.isAuthenticated
    ensures Run(s, events, message).isAuthenticated
    decreases |events|
  {
    if events != [] {
      StaysAuthenticated(Step(s, events[0], message), events[1..], message);
    }
  }

  /** The only way in is to type the password: without an input of exactly
      '0909', an unauthenticated gate whose input does not hold it stays
      closed whatever else happens. */
  lemma {:induction false} OnlyThePasswordOpens(s: GateState, events: seq<GateEvent>, message: Node)
    requires !s.isAuthenticated && s.password != CorrectPassword
    requires forall i :: 0 <= i < |events| ==> events[i] != Input(CorrectPassword)
    ensures !Run(s, events, message).isAuthenticated
    decreases |events|
  {
    if events != [] {
      var next := Step(s, events[0], message);
      assert events[0] != Input(CorrectPassword);
      assert forall i :: 0 <= i < |events[1..]| ==> events[1..][i] == events[i + 1];
      OnlyThePasswordOpens(next, events[1..], message);
    }
  }

  /** Typing the password and submitting opens the gate from any state. */
  lemma TypeAndSubmit(s: GateState, message: Node)
    ensures Run(s, [Input(CorrectPassword), SubmitForm], message).isAuthenticated
  {
    var s1 := Step(s, Input(CorrectPassword), message);
    assert [Input(CorrectPassword), SubmitForm][1..] == [SubmitForm];
    assert Run(s, [Input(CorrectPassword), SubmitForm], message) == Run(s1, [SubmitForm], message);
  }

  /** What the gate renders. */
  datatype View = Children | LoginForm(showsError: bool)

  function Render(s: GateState): (v: View)
    ensures v == Children <==> s.isAuthenticated
    ensures v.LoginForm? ==> (v.showsError <==> NodeTruthy(s.error))
  {
    if s.isAuthenticated then Children else LoginForm(NodeTruthy(s.error))
  }

  /** The component. */
  class PasswordGate {
    var password: string
    var isAuthenticated: bool
    var error: Node

    function State(): GateState
      reads this
    {
      GateState(password, isAuthenticated, error)
    }

    constructor()
      ensures State() == Initial
    {
      password := "";
      isAuthenticated := false;
      error := NoError;
    }

    /** The input's `onChange`. */
    method ChangeInput(value: string)
      modifies this
      ensures State() == Step(old(State()), Input(value), NoError)
    {
      password := value;
      error := NoError;
    }

    /** `handleSubmit` with the stored language `lang`: a wrong password
        shows a non-empty error. */
    method Submit(lang: string)
      modifies this
      ensures State() == Step(old(State()), SubmitForm, T(Translations(), lang, "password.error"))
      ensures old(password) != CorrectPassword ==> NodeTruthy(error)
    {
      if password == CorrectPassword {
        isAuthenticated := true;
        error := NoError;
      } else {
        error := T(Translations(), lang, "password.error");
        password := "";
      }
    }
  }
}
