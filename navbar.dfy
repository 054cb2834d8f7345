/**
 * The dashboard's navigation bar: switching to another user by id, and
 * opening the AI chat once a user is selected. The data fetch is given as its
 * outcome.
 */
module Navbar {
  import opened Wrappers
  import opened Values
  import opened Text
  import opened UserContext

  /** What `fetchData` settled with. */
  datatype FetchOutcome = Resolved(data: Json) | Rejected(message: string)

  const ConnectionMessage := "Unable to connect to the server. Please check your internet connection."
  const ConfigurationMessage := "System configuration error. Please contact support."
  const UnknownUserMessage := "This user ID doesn't exist. Please try another."
  const GenericMessage := "An error occurred while fetching user data. Please try again."
  const SelectUserMessage := "Please select a user before accessing AI chat."

  /** The message of the error the switch caught: falsy data is turned into "User not found". */
  function CaughtMessage(outcome: FetchOutcome): (m: string)
    requires !(outcome.Resolved? && JsTruthy(outcome.data))
    ensures outcome.Rejected? ==> m == outcome.message
    ensures outcome.Resolved? ==> ErrorMessage(m) == UnknownUserMessage
  {
    if outcome.Rejected? then outcome.message else "User not found"
  }

  /** The error shown for a caught message, classified in the order of the handler's checks. */
  function ErrorMessage(message: string): (r: string)
    ensures message == "Failed to fetch" ==> r == ConnectionMessage
    ensures message != "Failed to fetch" && (exists i :: OccursAt(message, "Backend URL", i)) ==> r == ConfigurationMessage
    ensures message == "User not found" ==> r == UnknownUserMessage
    ensures r in {ConnectionMessage, ConfigurationMessage, UnknownUserMessage, GenericMessage}
    ensures r == GenericMessage <==>
      message != "Failed to fetch" && (forall i :: !OccursAt(message, "Backend URL", i)) && message != "User not found"
  {
    ContainsIffOccurs(message, "Backend URL");
    NotFoundHasNoBackendUrl();
    if message == "Failed to fetch" then ConnectionMessage
    else if Contains(message, "Backend URL") then ConfigurationMessage
    else if message == "User not found" then UnknownUserMessage
    else GenericMessage
  }

  /** The message thrown for falsy data does not mention the back-end URL. */
  lemma {:induction false} NotFoundHasNoBackendUrl()
    ensures forall i :: !OccursAt("User not found", "Backend URL", i)
  {
    var m, sub := "User not found", "Backend URL";
    assert m[0] == 'U' && m[1] == 's' && m[2] == 'e' && m[3] == 'r' && sub[0] == 'B';
    forall i | 0 <= i <= |m| - |sub|
      ensures !OccursAt(m, sub, i)
    {
      assert m[i..i + |sub|][0] == m[i];
    }
  }

  /** The message `fetchData` throws when the back-end URL is not configured. */
  const MissingBackendUrl :=
    "Backend URL" + " is not defined in the .env file or is not exposed properly in the production environment."

  /** A missing back-end URL is reported as a configuration error. */
  lemma {:induction false} MissingBackendUrlIsConfiguration()
    ensures ErrorMessage(MissingBackendUrl) == ConfigurationMessage
  {
    assert MissingBackendUrl[0..11] == "Backend URL";
    assert OccursAt(MissingBackendUrl, "Backend URL", 0);
  }

  /** The navigation bar's state, and the user context it writes. */
  class NavbarState {
    var newUserID: string
    var error: string
    var loading: bool
    var popoverOpen: bool
    var aiChatOpen: bool
    const users: UserProvider

    constructor(users: UserProvider)
      ensures this.users == users
      ensures newUserID == "" && error == "" && !loading && !popoverOpen && !aiChatOpen
    {
      this.users := users;
      newUserID := "";
      error := "";
      loading := false;
      popoverOpen := false;
      aiChatOpen := false;
    }

    /** The user-id input's change handler. */
    method SetNewUserID(id: string)
      modifies this
      ensures newUserID == id
      ensures error == old(error) && loading == old(loading) && popoverOpen == old(popoverOpen)
      ensures aiChatOpen == old(aiChatOpen)
    {
      newUserID := id;
    }

    /** The part of `handleUserSwitch` before the fetch is awaited. */
    method BeginUserSwitch()
      modifies this
      ensures loading && error == ""
      ensures newUserID == old(newUserID) && popoverOpen == old(popoverOpen) && aiChatOpen == old(aiChatOpen)
    {
      loading := true;
      error := "";
    }

    /**
     * The part after the fetch for `id` settled. Truthy data selects the user,
     * closes the popover and clears the input; anything else shows the
     * classified error and keeps the current user. Loading always ends.
     */
    method FinishUserSwitch(id: string, outcome: FetchOutcome)
      modifies this, users
      ensures !loading
      ensures aiChatOpen == old(aiChatOpen)
      ensures outcome.Resolved? && JsTruthy(outcome.data) ==>
        && users.currentUser == Some(id) && users.metadata == Some(outcome.data)
        && !popoverOpen && newUserID == "" && error == old(error)
      ensures !(outcome.Resolved? && JsTruthy(outcome.data)) ==>
        && error == ErrorMessage(CaughtMessage(outcome))
        && users.currentUser == old(users.currentUser) && users.metadata == old(users.metadata)
        && popoverOpen == old(popoverOpen) && newUserID == old(newUserID)
    {
      if outcome.Resolved? && JsTruthy(outcome.data) {
        users.SetUser(id, outcome.data);
        popoverOpen := false;
        newUserID := "";
      } else {
        error := ErrorMessage(CaughtMessage(outcome));
      }
      loading := false;
    }

    /** `handleUserSwitch` for the id typed when it was started. */
    method HandleUserSwitch(outcome: FetchOutcome)
      modifies this, users
      ensures !loading
      ensures aiChatOpen == old(aiChatOpen)
      ensures outcome.Resolved? && JsTruthy(outcome.data) ==>
        && users.currentUser == Some(old(newUserID)) && users.metadata == Some(outcome.data)
        && !popoverOpen && newUserID == "" && error == ""
      ensures !(outcome.Resolved? && JsTruthy(outcome.data)) ==>
        && error == ErrorMessage(CaughtMessage(outcome))
        && users.currentUser == old(users.currentUser) && users.metadata == old(users.metadata)
        && popoverOpen == old(popoverOpen) && newUserID == old(newUserID)
    {
      var id := newUserID;
      BeginUserSwitch();
      FinishUserSwitch(id, outcome);
    }

    /** `handleKeyPress`: Enter starts a switch, unless one is running or the id is empty. */
    method HandleKeyPress(key: string, outcome: FetchOutcome) returns (switched: bool)
      modifies this, users
      ensures switched <==> key == "Enter" && !old(loading) && old(newUserID) != ""
      ensures !switched ==>
        && newUserID == old(newUserID) && error == old(error) && loading == old(loading)
        && popoverOpen == old(popoverOpen) && aiChatOpen == old(aiChatOpen)
        && users.currentUser == old(users.currentUser) && users.metadata == old(users.metadata)
      ensures switched ==> !loading
    {
      switched := key == "Enter" && !loading && newUserID != "";
      if switched {
        HandleUserSwitch(outcome);
      }
    }

    /** `handleAIChatToggle`: without a selected user it asks for one instead of opening the chat. */
    method HandleAIChatToggle()
      modifies this
      ensures users.currentUser.None? || users.currentUser == Some("") ==>
        && error == SelectUserMessage && popoverOpen && aiChatOpen == old(aiChatOpen)
      ensures users.currentUser.Some? && users.currentUser.value != "" ==>
        && aiChatOpen == !old(aiChatOpen) && error == old(error) && popoverOpen == old(popoverOpen)
      ensures newUserID == old(newUserID) && loading == old(loading)
    {
      if users.currentUser.None? || users.currentUser.value == "" {
        error := SelectUserMessage;
        popoverOpen := true;
        return;
      }
      aiChatOpen := !aiChatOpen;
    }
  }
}
