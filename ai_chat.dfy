/** The AI chat panel: a message list the user appends to. */
module AIChat {
  import opened Text

  datatype Sender = User | Ai

  datatype Message = Message(text: string, sender: Sender)

  /** The assistant's opening message. */
  const Greeting := Message("Hello! I'm your InstaBuddy AI assistant. How can I help you analyze your Instagram profile?", Ai)

  /** Input that `input.trim()` reduces to the empty string. */
  predicate Blank(s: string) {
    forall i :: 0 <= i < |s| ==> IsJsSpace(s[i])
  }

  /** The component's state: the conversation so far and the text being typed. */
  class Chat {
    var messages: seq<Message>
    var input: string

    /** The conversation opens with the greeting alone and an empty input. */
    constructor()
      ensures messages == [Greeting] && input == ""
    {
      messages := [Greeting];
      input := "";
    }

    /** The input box's change handler. */
    method SetInput(s: string)
      modifies this
      ensures input == s && messages == old(messages)
    {
      input := s;
    }

    /**
     * `sendMessage`: blank input changes nothing; any other input is appended
     * unchanged (not trimmed) as the user's message and the input is cleared.
     * Earlier messages are kept, so the list only ever grows.
     */
    method SendMessage()
      modifies this
      ensures Blank(old(input)) ==> messages == old(messages) && input == old(input)
      ensures !Blank(old(input)) ==> messages == old(messages) + [Message(old(input), User)] && input == ""
      ensures |messages| >= |old(messages)| && messages[..|old(messages)|] == old(messages)
    {
      JsTrimEmptyIffBlank(input);
      if JsTrim(input) == "" {
        return;
      }
      messages := messages + [Message(input, User)];
      input := "";
    }
  }
}
