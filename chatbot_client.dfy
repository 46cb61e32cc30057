/** The chat page (src/components/chatbot-client.tsx): the transcript, the
    input field and the in-flight flag, driven by `handleSendMessage`. */
module ChatbotClient {
  import opened Types
  import opened JsText

  datatype Role = User | Assistant

  datatype Message = Message(role: Role, content: string)

  /** What is sent to the chat service: the new message and the prior turns. */
  datatype ChatRequest = ChatRequest(message: string, chatHistory: seq<Message>)

  /** The reply shown when the request fails. */
  const Apology: string := "I'm sorry, I encountered an error. Please try again."

  /** Turns alternate, starting with the user. */
  predicate Alternating(ms: seq<Message>)
  {
    forall i :: 0 <= i < |ms| ==> ms[i].role == (if i % 2 == 0 then User else Assistant)
  }

  /** The transcript of a page that was only ever driven by `handleSendMessage`:
      user and assistant turns alternate, and a request is in flight exactly
      when the last turn is the user's. */
  predicate WellFormed(ms: seq<Message>, isLoading: bool)
  {
    Alternating(ms) && (isLoading <==> |ms| % 2 == 1)
  }

  /** Appending the turn whose role is due flips the in-flight flag and keeps
      the transcript well formed. */
  lemma AppendKeepsWellFormed(ms: seq<Message>, m: Message, isLoading: bool)
    requires WellFormed(ms, isLoading)
    requires m.role == (if isLoading then Assistant else User)
    ensures WellFormed(ms + [m], !isLoading)
  {
    var ms' := ms + [m];
    forall i | 0 <= i < |ms'|
      ensures ms'[i].role == (if i % 2 == 0 then User else Assistant)
    {
      if i < |ms| {
        assert ms'[i] == ms[i];
      }
    }
  }

  class ChatPage {
    var messages: seq<Message>
    var input: string
    var isLoading: bool

    constructor ()
      ensures messages == [] && input == "" && !isLoading
      ensures WellFormed(messages, isLoading)
    {
      messages := [];
      input := "";
      isLoading := false;
    }

    /** `handleSendMessage` up to its `await`. A blank input or a request in
        flight changes nothing and sends nothing. Otherwise the user's turn is
        appended, the input cleared, the flag set, and the request carries the
        input and exactly the turns that came before it. */
    method BeginSend() returns (request: Option<ChatRequest>)
      modifies this
      ensures IsBlank(old(input)) || old(isLoading) ==>
        request == None && messages == old(messages) && input == old(input) && isLoading == old(isLoading)
      ensures !(IsBlank(old(input)) || old(isLoading)) ==>
        && request == Some(ChatRequest(old(input), old(messages)))
        && messages == old(messages) + [Message(User, old(input))]
        && input == "" && isLoading
      ensures WellFormed(old(messages), old(isLoading)) ==> WellFormed(messages, isLoading)
    {
      if IsBlank(input) || isLoading {
        return None;
      }
      var userMessage := Message(User, input);
      var chatHistory := messages;
      if WellFormed(messages, isLoading) {
        AppendKeepsWellFormed(messages, userMessage, isLoading);
      }
      messages := messages + [userMessage];
      var sent := input;
      input := "";
      isLoading := true;
      request := Some(ChatRequest(sent, chatHistory));
    }

    /** `handleSendMessage` after its `await`: the reply (`None` when the
        request failed) or the apology is appended as one assistant turn, and
        the flag is cleared. Only runs after a `BeginSend` that sent. */
    method CompleteSend(reply: Option<string>)
      requires isLoading
      modifies this
      ensures messages == old(messages) + [Message(Assistant, if reply.Some? then reply.value else Apology)]
      ensures !isLoading && input == old(input)
      ensures WellFormed(old(messages), old(isLoading)) ==> WellFormed(messages, isLoading)
    {
      var botMessage := Message(Assistant, if reply.Some? then reply.value else Apology);
      if WellFormed(messages, isLoading) {
        AppendKeepsWellFormed(messages, botMessage, isLoading);
      }
      messages := messages + [botMessage];
      isLoading := false;
    }
  }

  /** `handleSendMessage` when nothing else happens during its `await`: a
      blank input or a request in flight changes nothing; otherwise the
      transcript grows by the user's turn and then the reply (or the apology),
      earlier turns are untouched, the history sent is the transcript as it
      was, and the page is at rest again. */
  method SendMessage(page: ChatPage, reply: Option<string>) returns (request: Option<ChatRequest>)
    modifies page
    ensures IsBlank(old(page.input)) || old(page.isLoading) ==>
      request == None && page.messages == old(page.messages) && page.input == old(page.input)
      && page.isLoading == old(page.isLoading)
    ensures !(IsBlank(old(page.input)) || old(page.isLoading)) ==>
      && request == Some(ChatRequest(old(page.input), old(page.messages)))
      && page.messages == old(page.messages) + [Message(User, old(page.input)),
           Message(Assistant, if reply.Some? then reply.value else Apology)]
      && page.input == "" && !page.isLoading
    ensures |page.messages| >= |old(page.messages)| && page.messages[..|old(page.messages)|] == old(page.messages)
  {
    request := page.BeginSend();
    if request.Some? {
      page.CompleteSend(reply);
    }
  }
}
