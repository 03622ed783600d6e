/**
 * The chat widget's message analysis (src/hooks/useAIChat.ts): a sentiment
 * classifier that counts listed words, a topic categoriser that returns the
 * label of the first rule whose words occur, and a keyword extractor.
 * Every test runs on the lower-cased message and is a plain substring test,
 * so `hi` also matches inside `this` or `which`.
 */
module ChatAnalysis {
  import opened Text
  import opened Seqs

  datatype Sentiment = Positive | Neutral | Negative

  const PositiveWords: seq<string> := [
    "genial", "excelente", "increíble", "fantástico", "perfecto", "bueno", "me gusta", "gracias",
    "hola", "hi", "hello", "wow", "impresionante", "increible"]

  const NegativeWords: seq<string> := [
    "malo", "terrible", "horrible", "odio", "no me gusta", "problema", "error", "falla", "bug",
    "lento", "feo"]

  /** The listed words that occur in `text`, in list order. */
  function Found(words: seq<string>, text: string): (r: seq<string>)
    ensures |r| <= |words|
    ensures forall w :: w in r <==> w in words && Includes(text, w)
    ensures NoDup(words) ==> NoDup(r)
    ensures (forall w :: w in words ==> !Includes(text, w)) ==> r == []
  {
    if words == [] then []
    else
      var last := words[|words| - 1];
      var init := words[..|words| - 1];
      assert words == init + [last];
      Found(init, text) + (if Includes(text, last) then [last] else [])
  }

  /** `words.filter(w => text.includes(w)).length`. */
  function CountFound(words: seq<string>, text: string): nat {
    |Found(words, text)|
  }

  /** `analyzeSentiment`: compare the positive and the negative counts. */
  function AnalyzeSentiment(message: string): (r: Sentiment)
    ensures var pos := CountFound(PositiveWords, Lower(message));
            var neg := CountFound(NegativeWords, Lower(message));
            && (r == Positive <==> pos > neg)
            && (r == Negative <==> neg > pos)
            && (r == Neutral <==> pos == neg)
  {
    var lower := Lower(message);
    var pos := CountFound(PositiveWords, lower);
    var neg := CountFound(NegativeWords, lower);
    if pos > neg then Positive else if neg > pos then Negative else Neutral
  }

  lemma {:induction false} LowerIdempotent(s: string)
    ensures Lower(Lower(s)) == Lower(s)
  {
    var l := Lower(s);
    assert forall i :: 0 <= i < |l| ==> Lower(l)[i] == l[i];
  }

  /** Capital letters do not change the sentiment (the text is lower-cased first). */
  lemma SentimentIgnoresCase(message: string)
    ensures AnalyzeSentiment(Lower(message)) == AnalyzeSentiment(message)
  {
    LowerIdempotent(message);
  }

  /** A message with none of the listed words is neutral. */
  lemma NoListedWordIsNeutral(message: string)
    requires forall w :: w in PositiveWords + NegativeWords ==> !Includes(Lower(message), w)
    ensures AnalyzeSentiment(message) == Neutral
  {
    var lower := Lower(message);
    assert forall w :: w in PositiveWords ==> w in PositiveWords + NegativeWords;
    assert forall w :: w in NegativeWords ==> w in PositiveWords + NegativeWords;
  }

  /** A rule of a first-match table: its outcome applies when any of its words occurs. */
  datatype Rule = Rule(words: seq<string>, outcome: string)

  predicate Fires(rule: Rule, text: string) {
    exists w :: w in rule.words && Includes(text, w)
  }

  /** Index of the first rule that fires, or `|rules|` when none does. */
  function FirstFiring(rules: seq<Rule>, text: string): (i: nat)
    ensures i <= |rules|
    ensures i < |rules| ==> Fires(rules[i], text)
    ensures forall j :: 0 <= j < i ==> !Fires(rules[j], text)
  {
    if rules == [] then 0
    else if Fires(rules[0], text) then 0
    else 1 + FirstFiring(rules[1..], text)
  }

  /** The outcome of the first firing rule, or `fallback`. */
  function FirstOutcome(rules: seq<Rule>, text: string, fallback: string): string {
    var i := FirstFiring(rules, text);
    if i < |rules| then rules[i].outcome else fallback
  }

  /** The categoriser's rules, in the order the source tests them. */
  const CategoryRules: seq<Rule> := [
    Rule(["hola", "hi", "hello"], "greeting"),
    Rule(["proyecto", "project"], "projects"),
    Rule(["habilidad", "skill", "tecnologia"], "skills"),
    Rule(["contacto", "contact", "email"], "contact"),
    Rule(["experiencia", "experience", "trabajo"], "experience"),
    Rule(["github", "repositorio"], "github"),
    Rule(["edad", "años", "viejo", "joven"], "personal"),
    Rule(["donde", "ubicacion", "vive"], "location"),
    Rule(["como es", "personalidad", "caracter"], "personality"),
    Rule(["ayuda", "help"], "help")]

  /** `categorizeMessage`. */
  function Categorize(message: string): (r: string)
  {
    FirstOutcome(CategoryRules, Lower(message), "general")
  }

  /**
   * The category is the topic of the first rule, in the fixed order, whose
   * words occur in the lower-cased message; `general` when none does.
   */
  lemma CategorizeFirstMatch(message: string)
    ensures var text := Lower(message);
      || (Categorize(message) == "general" && forall j :: 0 <= j < |CategoryRules| ==> !Fires(CategoryRules[j], text))
      || (exists i :: 0 <= i < |CategoryRules| && Fires(CategoryRules[i], text)
            && Categorize(message) == CategoryRules[i].outcome
            && forall j :: 0 <= j < i ==> !Fires(CategoryRules[j], text))
  {
  }

  /**
   * A greeting word wins over every later topic: a message with `hola` and
   * `proyecto` is a greeting, and so is any message with `hi` anywhere.
   */
  lemma GreetingWins(message: string)
    requires Includes(Lower(message), "hola") || Includes(Lower(message), "hi")
      || Includes(Lower(message), "hello")
    ensures Categorize(message) == "greeting"
  {
    assert Fires(CategoryRules[0], Lower(message));
  }

  /** `hi` occurs inside `which`, so by `GreetingWins` this question is a greeting. */
  lemma HiInsideAWord()
    ensures Includes("which project?", "hi")
  {
    var text := "which project?";
    assert text[1..3] == "hi";
    OccursIncludes(text, "hi", 1);
  }

  const TechKeywords: seq<string> := [
    "react", "typescript", "javascript", "node", "flutter", "unity", "c#", "python", "mongodb",
    "html", "css", "tailwind"]

  const ProjectKeywords: seq<string> := [
    "juntea", "chapiri", "goblin", "nuevo mundo", "portfolio", "e-commerce", "app", "juego", "web"]

  const SkillKeywords: seq<string> := [
    "frontend", "backend", "full stack", "desarrollo", "programacion", "coding"]

  /** The keyword list the extractor walks: tech, then project, then skill words. */
  const AllKeywords: seq<string> := TechKeywords + ProjectKeywords + SkillKeywords

  lemma AllKeywordsDistinct()
    ensures NoDup(AllKeywords) && |AllKeywords| == 27
  {
  }

  /**
   * `extractKeywords`: walk the keyword list and push every keyword the
   * lower-cased message contains. The result is exactly the contained
   * keywords, in list order, without duplicates and at most 27 of them.
   */
  method ExtractKeywords(message: string) returns (keywords: seq<string>)
    ensures keywords == Found(AllKeywords, Lower(message))
    ensures forall k :: k in keywords <==> k in AllKeywords && Includes(Lower(message), k)
    ensures NoDup(keywords) && |keywords| <= 27
  {
    keywords := CollectFound(AllKeywords, Lower(message));
    AllKeywordsDistinct();
  }

  /** The walk of `extractKeywords` over any word list: push each word `text` contains. */
  method CollectFound(words: seq<string>, text: string) returns (found: seq<string>)
    ensures found == Found(words, text)
  {
    found := [];
    var i := 0;
    while i < |words|
      invariant 0 <= i <= |words|
      invariant found == Found(words[..i], text)
    {
      var word := words[i];
      assert words[..i + 1][..i] == words[..i];
      if Includes(text, word) {
        found := found + [word];
      }
      i := i + 1;
    }
    assert words[..i] == words;
  }
}
