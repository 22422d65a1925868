/**
 * The client's top-level state: the create-account form check, the merge of
 * a SEND_DATA message into the state, error notifications, and the reset to
 * NULL_STATE when the connection closes.
 */
module App {

  import opened Protocol

  const BothTooShort := "Username and password too short. Please provide lengths of at least 3 and 5"
  const UsernameTooShort := "Username must be at least 3 characters long."
  const UsernameTooLong := "Username cannot be over 15 characters long."
  const PasswordTooShort := "Password must be at least 5 characters long."

  /** The verdict of the create-account form: send the request, or show one error message. */
  datatype FormVerdict = SendCreateAccount | Notify(message: string)

  /**
   * `handleCreateAccount`'s chain of length tests: a username of 3 to 15
   * characters with a password of at least 5 is sent; otherwise exactly one
   * of four messages is chosen.
   */
  function CheckCreateAccount(username: string, password: string): (v: FormVerdict)
    ensures v == SendCreateAccount <==> 3 <= |username| <= 15 && |password| >= 5
    ensures v == Notify(BothTooShort) <==> |username| < 3 && |password| < 5
    ensures v == Notify(UsernameTooShort) <==> |username| < 3 && |password| >= 5
    ensures v == Notify(UsernameTooLong) <==> |username| > 15
    ensures v == Notify(PasswordTooShort) <==> 3 <= |username| <= 15 && |password| < 5
  {
    if |username| > 2 && |username| < 16 && |password| > 4 then SendCreateAccount
    else if |username| < 3 && |username| < 16 && |password| < 5 then Notify(BothTooShort)
    else if |username| < 3 then Notify(UsernameTooShort)
    else if |username| > 15 then Notify(UsernameTooLong)
    else Notify(PasswordTooShort)
  }

  /** The verdict is always the request or one of the four messages, never anything else. */
  lemma VerdictIsOneOfFive(username: string, password: string)
    ensures CheckCreateAccount(username, password) in
      {SendCreateAccount, Notify(BothTooShort), Notify(UsernameTooShort), Notify(UsernameTooLong), Notify(PasswordTooShort)}
  {
  }

  /** The SEND_DATA message as the client reads it. */
  datatype SendDataMessage = SendDataMessage(
    population: int,
    lumber: real, iron: real, clay: real, wheat: real,
    maxLumber: real, maxIron: real, maxClay: real, maxWheat: real,
    lumberRate: real, ironRate: real, clayRate: real, wheatRate: real,
    fields: seq<seq<GridSlot>>,
    buildings: seq<seq<GridSlot>>,
    mapCell: seq<int>,  // the `map` field (`map` is a keyword in Dafny)
    inbox: seq<Letter>)

  /** The component state; `connected` stands for a non-null `connection`. */
  datatype AppState = AppState(
    connected: bool,
    token: string,
    username: string,
    population: int,
    lumber: real, iron: real, clay: real, wheat: real,
    maxLumber: real, maxIron: real, maxClay: real, maxWheat: real,
    lumberRate: real, ironRate: real, clayRate: real, wheatRate: real,
    fields: seq<seq<GridSlot>>,
    buildings: seq<seq<GridSlot>>,
    mapCell: seq<int>,  // the `map` field (`map` is a keyword in Dafny)
    inbox: seq<Letter>,
    errorMessage: string)

  const NullState := AppState(
    false, "", "", 0,
    0.0, 0.0, 0.0, 0.0,
    0.0, 0.0, 0.0, 0.0,
    0.0, 0.0, 0.0, 0.0,
    [[GridSlot("", 0)]], [[GridSlot("", 0)]],
    [0, 0], [], "")

  /** The seventeen fields a SEND_DATA message sets. */
  function Payload(s: AppState): SendDataMessage {
    SendDataMessage(s.population, s.lumber, s.iron, s.clay, s.wheat,
                    s.maxLumber, s.maxIron, s.maxClay, s.maxWheat,
                    s.lumberRate, s.ironRate, s.clayRate, s.wheatRate,
                    s.fields, s.buildings, s.mapCell, s.inbox)
  }

  /** The four fields a SEND_DATA message must leave alone. */
  datatype Session = Session(connected: bool, token: string, username: string, errorMessage: string)

  function SessionOf(s: AppState): Session {
    Session(s.connected, s.token, s.username, s.errorMessage)
  }

  /** A state is determined by its payload fields and its session fields: there are no others. */
  lemma PayloadAndSessionDetermineState(a: AppState, b: AppState)
    requires Payload(a) == Payload(b) && SessionOf(a) == SessionOf(b)
    ensures a == b
  {
    assert a.population == Payload(a).population == Payload(b).population == b.population;
  }

  /**
   * The `setState` merge of a SEND_DATA message: afterwards the payload
   * fields are the message's and the session fields are the old ones.
   */
  function MergeSendData(s: AppState, m: SendDataMessage): (r: AppState)
    ensures Payload(r) == m
    ensures SessionOf(r) == SessionOf(s)
  {
    s.(population := m.population,
       lumber := m.lumber, iron := m.iron, clay := m.clay, wheat := m.wheat,
       maxLumber := m.maxLumber, maxIron := m.maxIron, maxClay := m.maxClay, maxWheat := m.maxWheat,
       lumberRate := m.lumberRate, ironRate := m.ironRate, clayRate := m.clayRate, wheatRate := m.wheatRate,
       fields := m.fields, buildings := m.buildings, mapCell := m.mapCell, inbox := m.inbox)
  }

  /** Merging the same message twice is the same as merging it once. */
  lemma MergeIsIdempotent(s: AppState, m: SendDataMessage)
    ensures MergeSendData(MergeSendData(s, m), m) == MergeSendData(s, m)
  {
    PayloadAndSessionDetermineState(MergeSendData(MergeSendData(s, m), m), MergeSendData(s, m));
  }

  datatype ClientMessage = CreateAccount(username: string, password: string)

  class AppComponent {
    var state: AppState
    /** Messages written to the connection, oldest first. */
    var sent: seq<ClientMessage>

    constructor ()
      ensures state == NullState && sent == []
    {
      state := NullState;
      sent := [];
    }

    /** `handleErrorNotification`: shows `message` (the five-second clearing timer is not modelled). */
    method HandleErrorNotification(message: string)
      modifies this
      ensures state == old(state).(errorMessage := message) && sent == old(sent)
    {
      state := state.(errorMessage := message);
    }

    /**
     * `handleCreateAccount`: without a connection nothing happens; otherwise
     * the request is sent or exactly one error message is shown.
     */
    method HandleCreateAccount(username: string, password: string)
      modifies this
      ensures !old(state.connected) ==> state == old(state) && sent == old(sent)
      ensures old(state.connected) && CheckCreateAccount(username, password) == SendCreateAccount ==>
        state == old(state) && sent == old(sent) + [CreateAccount(username, password)]
      ensures old(state.connected) && CheckCreateAccount(username, password).Notify? ==>
        state == old(state).(errorMessage := CheckCreateAccount(username, password).message) && sent == old(sent)
    {
      if state.connected {
        var verdict := CheckCreateAccount(username, password);
        if verdict == SendCreateAccount {
          sent := sent + [CreateAccount(username, password)];
        } else {
          HandleErrorNotification(verdict.message);
        }
      }
    }

    /** The SEND_DATA branch of the message handler. */
    method OnSendData(m: SendDataMessage)
      modifies this
      ensures state == MergeSendData(old(state), m) && sent == old(sent)
    {
      state := MergeSendData(state, m);
    }

    /** The connection's `close` handler: back to NULL_STATE (reconnecting is not modelled). */
    method OnClose()
      modifies this
      ensures state == NullState && sent == old(sent)
      ensures !state.connected && state.token == ""
    {
      state := NullState;
    }
  }
}
