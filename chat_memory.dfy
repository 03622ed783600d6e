/**
 * The chat widget's conversation memory (src/hooks/useAIChat.ts): a sliding
 * window of the last 10 questions, a window of the last 5 context entries,
 * duplicate-free lists of keywords and topics seen, and a mood that follows
 * the sentiment of the last non-neutral message.
 */
module ChatMemory {
  import opened Seqs
  import opened ChatAnalysis

  datatype Mood = Friendly | Professional | Curious | Casual

  datatype Memory = Memory(
    previousQuestions: seq<string>,
    userInterests: seq<string>,
    conversationContext: seq<string>,
    userMood: Mood,
    sessionTopics: seq<string>)

  const QuestionWindow: nat := 10
  const ContextWindow: nat := 5

  /** The memory a fresh (or cleared) chat starts with. */
  const EmptyMemory: Memory := Memory([], [], [], Friendly, [])

  /** Positive messages make the assistant friendly, negative ones professional. */
  function NextMood(mood: Mood, sentiment: Sentiment): Mood {
    match sentiment
    case Positive => Friendly
    case Negative => Professional
    case Neutral => mood
  }

  /** The context entry written for a message: `${category}: ${message}`. */
  function ContextEntry(category: string, message: string): string {
    category + ": " + message
  }

  /** The memory after one accepted message, as the state updater computes it. */
  function Remembered(m: Memory, message: string, sentiment: Sentiment, category: string,
                      keywords: seq<string>): Memory {
    Memory(
      KeepLast(m.previousQuestions + [message], QuestionWindow),
      AppendAbsent(m.userInterests, keywords),
      KeepLast(m.conversationContext + [ContextEntry(category, message)], ContextWindow),
      NextMood(m.userMood, sentiment),
      AddAbsent(m.sessionTopics, category))
  }

  /** Bounded windows and duplicate-free lists. */
  predicate Wellformed(m: Memory) {
    && |m.previousQuestions| <= QuestionWindow
    && |m.conversationContext| <= ContextWindow
    && NoDup(m.userInterests)
    && NoDup(m.sessionTopics)
  }

  /**
   * After an update the question window holds at most 10 entries, ends with
   * the message and is the tail of the old window plus the message; the
   * context window likewise holds at most 5 and ends with the new entry.
   */
  lemma RememberedWindows(m: Memory, message: string, sentiment: Sentiment, category: string,
                          keywords: seq<string>)
    ensures var r := Remembered(m, message, sentiment, category, keywords);
      var qs := m.previousQuestions + [message];
      var cs := m.conversationContext + [ContextEntry(category, message)];
      && |r.previousQuestions| == (if |qs| < QuestionWindow then |qs| else QuestionWindow)
      && r.previousQuestions == qs[|qs| - |r.previousQuestions|..]
      && r.previousQuestions[|r.previousQuestions| - 1] == message
      && |r.conversationContext| == (if |cs| < ContextWindow then |cs| else ContextWindow)
      && r.conversationContext == cs[|cs| - |r.conversationContext|..]
      && r.conversationContext[|r.conversationContext| - 1] == ContextEntry(category, message)
  {
    KeepLastWindow(m.previousQuestions + [message], QuestionWindow);
    KeepLastWindow(m.conversationContext + [ContextEntry(category, message)], ContextWindow);
  }

  /**
   * Interests and topics stay duplicate-free, keep what they held, and come
   * to include every extracted keyword and the category; nothing else is added.
   */
  lemma RememberedLists(m: Memory, message: string, sentiment: Sentiment, category: string,
                        keywords: seq<string>)
    requires NoDup(m.userInterests) && NoDup(m.sessionTopics)
    ensures var r := Remembered(m, message, sentiment, category, keywords);
      && NoDup(r.userInterests) && NoDup(r.sessionTopics)
      && (forall k :: k in keywords ==> k in r.userInterests)
      && (forall k :: k in m.userInterests ==> k in r.userInterests)
      && (forall k :: k in r.userInterests ==> k in m.userInterests || k in keywords)
      && category in r.sessionTopics
      && (forall t :: t in r.sessionTopics <==> t in m.sessionTopics || t == category)
  {
    AppendAbsentSpec(m.userInterests, keywords);
    var r := AppendAbsent(m.userInterests, keywords);
    assert forall k :: k in m.userInterests ==> k in r[..|m.userInterests|];
  }

  /** Mood becomes friendly on a positive message, professional on a negative one, else stays. */
  lemma RememberedMood(m: Memory, message: string, category: string, keywords: seq<string>)
    ensures Remembered(m, message, Positive, category, keywords).userMood == Friendly
    ensures Remembered(m, message, Negative, category, keywords).userMood == Professional
    ensures Remembered(m, message, Neutral, category, keywords).userMood == m.userMood
  {
  }

  /** Every update keeps the memory well-formed. */
  lemma RememberedWellformed(m: Memory, message: string, sentiment: Sentiment, category: string,
                             keywords: seq<string>)
    requires Wellformed(m)
    ensures Wellformed(Remembered(m, message, sentiment, category, keywords))
  {
    RememberedWindows(m, message, sentiment, category, keywords);
    RememberedLists(m, message, sentiment, category, keywords);
  }
}
