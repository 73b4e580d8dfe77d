/**
  The health assistant chat: a message log seeded with a welcome message, replaced
  wholesale by the assistant service's updates, and appended to by the patient's sends.
 */
module HealthChat {
  import opened Options
  import opened Text

  datatype Role = User | Assistant

  datatype ChatMessage = ChatMessage(role: Role, content: string)

  /** The assistant's greeting that opens every conversation. */
  const WelcomeText: string :=
    "Hello! \U{1F44B} I'm your MediCare Health Assistant. I can help you with:\n\n" +
    "\U{2022} **Appointment enquiries** - Check your bookings\n" +
    "\U{2022} **Health tips** - General wellness advice\n" +
    "\U{2022} **Preparation guides** - Get ready for procedures\n" +
    "\U{2022} **Hospital information** - Services & directions\n\n" +
    "How can I assist you today?"

  const Welcome: ChatMessage := ChatMessage(Assistant, WelcomeText)

  /** The texts of the quick-question buttons, in display order. */
  const QuickQuestions: seq<string> := [
    "View my appointments",
    "How to prepare for surgery?",
    "Medication reminders",
    "General health tips"
  ]

  /** The guard of `handleSend`: a non-blank input, a conversation, and no send in flight. */
  predicate CanSend(input: string, conversation: Option<string>, isLoading: bool) {
    Trim(input) != [] && conversation.Some? && !isLoading
  }

  /** The send button is enabled for a non-blank input while no send is in flight. */
  predicate SendButtonEnabled(input: string, isLoading: bool) {
    Trim(input) != [] && !isLoading
  }

  /** The optimistic append of a send: the trimmed input as the patient's message. */
  function AppendUserMessage(messages: seq<ChatMessage>, input: string): seq<ChatMessage> {
    messages + [ChatMessage(User, Trim(input))]
  }

  /**
    A send adds exactly one message, at the end, leaving the earlier ones as they were;
    it is the patient's, and its text is the input without its surrounding whitespace.
   */
  lemma AppendUserMessageSpec(messages: seq<ChatMessage>, input: string)
    requires Trim(input) != []
    ensures var after := AppendUserMessage(messages, input);
            && |after| == |messages| + 1
            && after[..|messages|] == messages
            && after[|messages|].role == User
            && after[|messages|].content != []
            && !IsWhitespace(after[|messages|].content[0])
            && !IsWhitespace(after[|messages|].content[|after[|messages|].content| - 1])
    ensures exists i, j :: 0 <= i <= j <= |input| && AppendUserMessage(messages, input)[|messages|].content == input[i..j]
  {
    var i, j := TrimIsSlice(input);
  }

  /** The button is enabled exactly when a send would go through, given a conversation. */
  lemma ButtonMatchesGuard(input: string, conversation: Option<string>, isLoading: bool)
    ensures conversation.Some? ==> (SendButtonEnabled(input, isLoading) <==> CanSend(input, conversation, isLoading))
    ensures conversation.None? ==> !CanSend(input, conversation, isLoading)
    ensures (forall k :: 0 <= k < |input| ==> IsWhitespace(input[k])) ==> !SendButtonEnabled(input, isLoading)
  {
    TrimEmptyIff(input);
  }

  /** The quick questions are offered while the log holds at most the welcome message. */
  predicate QuickQuestionsVisible(messages: seq<ChatMessage>) {
    |messages| <= 1
  }

  /** The page's state. */
  class ChatSession {
    var messages: seq<ChatMessage>
    var input: string
    var isLoading: bool
    /** The id of the assistant conversation, once created. */
    var conversation: Option<string>

    constructor ()
      ensures messages == [] && input == "" && !isLoading && conversation.None?
    {
      messages := [];
      input := "";
      isLoading := false;
      conversation := None;
    }

    predicate QuickQuestionsShown()
      reads this
    {
      QuickQuestionsVisible(messages)
    }

    predicate SendEnabled()
      reads this
    {
      SendButtonEnabled(input, isLoading)
    }

    /**
      `initConversation`, once the service created conversation `id`: the log is the
      welcome message alone, whatever it held.
     */
    method InitConversation(id: string)
      modifies this`conversation, this`messages
      ensures conversation == Some(id)
      ensures messages == [Welcome]
      ensures QuickQuestionsShown()
    {
      conversation := Some(id);
      messages := [Welcome];
    }

    /** A subscription update: it replaces the whole log when it carries messages. */
    method OnSubscriptionUpdate(update: Option<seq<ChatMessage>>)
      modifies this`messages
      ensures update.Some? ==> messages == update.value
      ensures update.None? ==> messages == old(messages)
    {
      if update.Some? {
        messages := update.value;
      }
    }

    /** Typing in the input box, which is disabled while a send is in flight. */
    method SetInput(text: string)
      requires !isLoading
      modifies this`input
      ensures input == text
    {
      input := text;
    }

    /** A click on quick question `k`, which is on screen only while the log is short. */
    method AskQuickQuestion(k: nat)
      requires k < |QuickQuestions| && QuickQuestionsShown()
      modifies this`input
      ensures input == QuickQuestions[k]
      ensures SendEnabled() <==> !isLoading
    {
      input := QuickQuestions[k];
      assert input[0] == QuestionInitial(k);
    }

    /**
      `handleSend` up to its `await`: when the guard holds, the trimmed input is
      appended as the patient's message, the input is cleared, a send is in flight,
      and the text to post is returned; otherwise nothing changes.
     */
    method Send() returns (posted: Option<string>)
      modifies this`messages, this`input, this`isLoading
      ensures old(CanSend(input, conversation, isLoading)) ==>
                && messages == AppendUserMessage(old(messages), old(input))
                && input == "" && isLoading
                && posted == Some(Trim(old(input)))
      ensures !old(CanSend(input, conversation, isLoading)) ==>
                messages == old(messages) && input == old(input) && isLoading == old(isLoading) && posted.None?
    {
      if !CanSend(input, conversation, isLoading) {
        return None;
      }
      var userMessage := Trim(input);
      input := "";
      isLoading := true;
      messages := messages + [ChatMessage(User, userMessage)];
      posted := Some(userMessage);
    }

    /** The `finally` of `handleSend`: whether the post succeeded or failed, the send is over. */
    method SendSettled()
      modifies this`isLoading
      ensures !isLoading
    {
      isLoading := false;
    }
  }

  /** The first character of quick question `k`: none of them is blank. */
  function QuestionInitial(k: nat): (c: char)
    requires k < |QuickQuestions|
    ensures !IsWhitespace(c)
  {
    QuickQuestions[k][0]
  }

  /**
    A whole exchange: after the conversation opens, the quick questions are offered;
    a non-blank question typed and sent is posted trimmed, the log becomes the welcome
    and that question, and the quick questions are gone. A second click on Send finds
    the input cleared and posts nothing, and once the first send settles nothing is loading.
   */
  method OpeningExchange(id: string, text: string) returns (session: ChatSession, first: Option<string>, second: Option<string>)
    requires Trim(text) != []
    ensures first == Some(Trim(text)) && second.None?
    ensures |session.messages| == 2 && session.messages[0] == Welcome
    ensures session.messages[1] == ChatMessage(User, Trim(text))
    ensures !session.QuickQuestionsShown()
    ensures !session.isLoading && session.input == ""
  {
    session := new ChatSession();
    session.InitConversation(id);
    session.SetInput(text);
    assert CanSend(session.input, session.conversation, session.isLoading);
    first := session.Send();
    assert session.messages == [Welcome, ChatMessage(User, Trim(text))];
    TrimEmptyIff("");
    assert !CanSend(session.input, session.conversation, session.isLoading);
    second := session.Send();
    session.SendSettled();
  }
}
