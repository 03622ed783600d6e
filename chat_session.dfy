/**
 * The `useAIChat` hook's state (src/hooks/useAIChat.ts): the message list,
 * the loading flag, the error text and the conversation memory, changed by
 * `sendMessage` and `clearChat`.
 *
 * The assistant's reply is produced asynchronously from random templates;
 * here it is a parameter: `Some(text)` when a reply arrived, `None` for the
 * `catch` branch. That branch is kept as written, although the reply
 * computation catches its own failures and so never throws.
 */
module ChatSession {
  import opened Wrappers
  import opened Text
  import opened Seqs
  import opened ChatAnalysis
  import opened ChatMemory

  datatype Role = User | Assistant

  datatype ChatMessage = ChatMessage(
    role: Role,
    content: string,
    sentiment: Sentiment,
    category: string,
    keywords: Option<seq<string>>)

  const WelcomeText: string :=
    "¡Hola! Soy el asistente de IA de Nicolas. Puedo ayudarte con información sobre sus proyectos, habilidades, experiencia y más. ¿En qué puedo ayudarte?"

  /** The single assistant message a fresh or cleared chat shows. */
  const Welcome: ChatMessage := ChatMessage(Assistant, WelcomeText, Positive, "greeting", None)

  const FailureText: string := "Error al procesar la solicitud. Por favor, intenta de nuevo."

  /** The user's message as `sendMessage` records it, with its analysis attached. */
  function UserMessage(message: string): ChatMessage {
    ChatMessage(User, message, AnalyzeSentiment(message), Categorize(message),
                Some(Found(AllKeywords, Lower(message))))
  }

  /** The assistant message appended when a reply arrives. */
  function ReplyMessage(text: string): ChatMessage {
    ChatMessage(Assistant, text, Positive, "response", None)
  }

  /** The keyword walk inside `updateMemory`: push each keyword not yet among the interests. */
  method MergeInterests(interests: seq<string>, keywords: seq<string>) returns (merged: seq<string>)
    ensures merged == AppendAbsent(interests, keywords)
  {
    merged := interests;
    var i := 0;
    while i < |keywords|
      invariant 0 <= i <= |keywords|
      invariant merged == AppendAbsent(interests, keywords[..i])
    {
      assert keywords[..i + 1][..i] == keywords[..i];
      if keywords[i] !in merged {
        merged := merged + [keywords[i]];
      }
      i := i + 1;
    }
    assert keywords[..i] == keywords;
  }

  class Chat {
    var messages: seq<ChatMessage>
    var isLoading: bool
    var error: Option<string>
    var previousQuestions: seq<string>
    var userInterests: seq<string>
    var conversationContext: seq<string>
    var userMood: Mood
    var sessionTopics: seq<string>

    /** The conversation memory as one value. */
    function Memory(): Memory
      reads this
    {
      ChatMemory.Memory(previousQuestions, userInterests, conversationContext, userMood, sessionTopics)
    }

    /**
     * Windows bounded, lists duplicate-free; the mood is only ever set to
     * friendly or professional.
     */
    ghost predicate Valid()
      reads this
    {
      Wellformed(Memory()) && (userMood == Friendly || userMood == Professional)
    }

    constructor ()
      ensures Valid()
      ensures messages == [Welcome] && !isLoading && error == None && Memory() == EmptyMemory
    {
      messages := [Welcome];
      isLoading := false;
      error := None;
      previousQuestions, userInterests, conversationContext := [], [], [];
      userMood := Friendly;
      sessionTopics := [];
    }

    /** The state updater inside `sendMessage`: push, trim the windows, add new keywords and topic. */
    method Remember(message: string, sentiment: Sentiment, category: string, keywords: seq<string>)
      requires Valid()
      modifies this
      ensures Valid()
      ensures Memory() == Remembered(old(Memory()), message, sentiment, category, keywords)
      ensures messages == old(messages) && isLoading == old(isLoading) && error == old(error)
    {
      ghost var before := Memory();
      RememberedWellformed(before, message, sentiment, category, keywords);

      previousQuestions := previousQuestions + [message];
      if |previousQuestions| > QuestionWindow {
        previousQuestions := previousQuestions[|previousQuestions| - QuestionWindow..];
      }

      userInterests := MergeInterests(userInterests, keywords);

      conversationContext := conversationContext + [ContextEntry(category, message)];
      if |conversationContext| > ContextWindow {
        conversationContext := conversationContext[|conversationContext| - ContextWindow..];
      }

      if sentiment == Positive {
        userMood := Friendly;
      } else if sentiment == Negative {
        userMood := Professional;
      }

      if category !in sessionTopics {
        sessionTopics := sessionTopics + [category];
      }
    }

    /**
     * `sendMessage`. A blank message changes nothing. Otherwise the user's
     * message is appended, the memory is updated, then either the reply is
     * appended or the error text is set; loading ends false either way.
     */
    method SendMessage(message: string, reply: Option<string>)
      requires Valid()
      modifies this
      ensures Valid()
      ensures AllSpace(message) ==>
        messages == old(messages) && isLoading == old(isLoading) && error == old(error)
        && Memory() == old(Memory())
      ensures !AllSpace(message) ==>
        && messages == old(messages) + [UserMessage(message)]
                       + (if reply.Some? then [ReplyMessage(reply.value)] else [])
        && error == (if reply.Some? then None else Some(FailureText))
        && !isLoading
        && Memory() == Remembered(old(Memory()), message, AnalyzeSentiment(message),
                                  Categorize(message), Found(AllKeywords, Lower(message)))
    {
      TrimEmptyIff(message);
      if Trim(message) == [] {
        return;
      }
      var sentiment := AnalyzeSentiment(message);
      var category := Categorize(message);
      var keywords := ExtractKeywords(message);
      Accept(ChatMessage(User, message, sentiment, category, Some(keywords)), reply);
    }

    /** The accepted-message part of `sendMessage`, for a message already analysed. */
    method Accept(user: ChatMessage, reply: Option<string>)
      requires Valid()
      requires user.keywords.Some?
      modifies this
      ensures Valid()
      ensures messages == old(messages) + [user]
                          + (if reply.Some? then [ReplyMessage(reply.value)] else [])
      ensures error == (if reply.Some? then None else Some(FailureText))
      ensures !isLoading
      ensures Memory() == Remembered(old(Memory()), user.content, user.sentiment, user.category,
                                     user.keywords.value)
    {
      messages := messages + [user];
      isLoading := true;
      error := None;

      Remember(user.content, user.sentiment, user.category, user.keywords.value);
      match reply {
        case Some(text) =>
          messages := messages + [ReplyMessage(text)];
        case None =>
          error := Some(FailureText);
      }
      isLoading := false;
    }

    /** `clearChat`: one welcome message, an empty memory, no error. */
    method ClearChat()
      requires Valid()
      modifies this
      ensures Valid()
      ensures messages == [Welcome] && error == None && Memory() == EmptyMemory
      ensures isLoading == old(isLoading)
    {
      messages := [Welcome];
      previousQuestions, userInterests, conversationContext := [], [], [];
      userMood := Friendly;
      sessionTopics := [];
      error := None;
    }
  }
}
