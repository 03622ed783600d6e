/**
 * Response post-processing of the chat widget (src/hooks/useAIChat.ts):
 * `learnFromPatterns` and `enhanceAIResponse` decorate a generated reply,
 * and `getSmartFallbackResponse` answers from a fixed first-match table.
 */
module ChatResponse {
  import opened Wrappers
  import opened Text
  import opened ChatAnalysis
  import opened ChatMemory

  const SimilarSuffix: string :=
    " Por cierto, veo que te interesa este tema. ¿Te gustaría que profundice más en algún aspecto específico?"
  const CuriousSuffix: string :=
    " ¿Hay algo más específico que te gustaría saber? Puedo darte más detalles sobre cualquier aspecto."
  const TechnicalSuffix: string :=
    " Desde una perspectiva técnica, puedo explicarte más detalles sobre la implementación si te interesa."
  const GreetingPrefix: string := "¡Hola! 👋 "
  const GreetingSuffix: string := " ¿En qué más puedo ayudarte?"
  const ShortSuffix: string :=
    " ¿Te gustaría saber más sobre algún aspecto específico del trabajo de Nicolas?"

  /** Replies shorter than this are expanded. */
  const ShortReply: nat := 20

  predicate IsGreeting(lower: string) {
    Includes(lower, "hola") || Includes(lower, "hi") || Includes(lower, "hello")
  }

  /**
   * `lowerMessage.split(' ')[k]`. Past the last piece the value is
   * `undefined`, and `includes(undefined)` searches for the text "undefined".
   */
  function WordOrUndefined(lower: string, k: nat): string {
    var words := Split(lower, ' ');
    if k < |words| then words[k] else "undefined"
  }

  /** A previous question counts as similar when it contains the first or the second word. */
  predicate IsSimilar(question: string, lower: string) {
    Includes(Lower(question), WordOrUndefined(lower, 0))
    || Includes(Lower(question), WordOrUndefined(lower, 1))
  }

  predicate HasSimilarQuestion(m: Memory, lower: string) {
    exists q :: q in m.previousQuestions && IsSimilar(q, lower)
  }

  /** `learnFromPatterns`. */
  function LearnFromPatterns(message: string, response: string, memory: Option<Memory>): string {
    match memory
    case None => response
    case Some(m) =>
      if HasSimilarQuestion(m, Lower(message)) then response + SimilarSuffix
      else if m.userMood == Curious then response + CuriousSuffix
      else if m.userMood == Professional then response + TechnicalSuffix
      else response
  }

  /**
   * The learned reply always begins with the given reply, and it is the
   * given reply unchanged exactly when there is no memory, or no similar
   * question and a mood other than curious or professional.
   */
  lemma LearnFromPatternsSpec(message: string, response: string, memory: Option<Memory>)
    ensures var r := LearnFromPatterns(message, response, memory);
      && StartsWith(r, response)
      && (r == response <==>
            memory.None?
            || (!HasSimilarQuestion(memory.value, Lower(message))
                && memory.value.userMood != Curious && memory.value.userMood != Professional))
  {
    var r := LearnFromPatterns(message, response, memory);
    assert r[..|response|] == response;
  }

  /**
   * A message that starts with a space has an empty first word, which every
   * question contains: with any previous question, the reply gets the
   * "similar question" suffix.
   */
  lemma {:induction false} LeadingSpaceIsAlwaysSimilar(message: string, response: string, m: Memory)
    requires message != [] && message[0] == ' '
    requires m.previousQuestions != []
    ensures LearnFromPatterns(message, response, Some(m)) == response + SimilarSuffix
  {
    var lower := Lower(message);
    assert lower[0] == ' ';
    SplitFirst(lower, ' ', 0);
    assert WordOrUndefined(lower, 0) == [];
    var q := m.previousQuestions[0];
    assert StartsWith(Lower(q), []);
    assert IsSimilar(q, lower);
  }

  /**
   * A message already among the previous questions is similar to itself:
   * its first word occurs in it. `sendMessage` records the message in the
   * memory before the delayed reply is decorated, and the arrays it pushes
   * into are shared with the memory handed to the reply, so this is the
   * case that holds in the running page.
   */
  lemma OwnQuestionIsSimilar(message: string, response: string, m: Memory)
    requires message in m.previousQuestions
    ensures LearnFromPatterns(message, response, Some(m)) == response + SimilarSuffix
  {
    var lower := Lower(message);
    SplitHead(lower, ' ');
    assert StartsWith(lower, WordOrUndefined(lower, 0));
    assert IsSimilar(message, lower);
  }

  /** `enhanceAIResponse`. */
  function EnhanceResponse(aiResponse: string, originalMessage: string, memory: Option<Memory>): (r: string)
    ensures Includes(r, aiResponse)
    ensures memory.None? && !IsGreeting(Lower(originalMessage)) && |aiResponse| >= ShortReply
            ==> r == aiResponse
  {
    if IsGreeting(Lower(originalMessage)) then
      OccursIncludes(GreetingPrefix + aiResponse + GreetingSuffix, aiResponse, |GreetingPrefix|);
      GreetingPrefix + aiResponse + GreetingSuffix
    else if |aiResponse| < ShortReply then
      IncludesPrefix(aiResponse, ShortSuffix);
      aiResponse + ShortSuffix
    else
      LearnFromPatternsSpec(originalMessage, aiResponse, memory);
      var learned := LearnFromPatterns(originalMessage, aiResponse, memory);
      IncludesPrefix(aiResponse, learned[|aiResponse|..]);
      assert aiResponse + learned[|aiResponse|..] == learned;
      learned
  }

  /**
   * In a chat whose memory is kept by `sendMessage` the mood is never
   * curious, so the "curious" suffix can never be chosen.
   */
  lemma CuriousSuffixUnreachable(message: string, response: string, m: Memory)
    requires m.userMood == Friendly || m.userMood == Professional
    ensures LearnFromPatterns(message, response, Some(m)) != response + CuriousSuffix
  {
    // The three suffixes have different lengths (104, 98 and 101 characters).
    assert |SimilarSuffix| != |CuriousSuffix| && |TechnicalSuffix| != |CuriousSuffix|;
  }

  /** The fallback's first-match table: the words that select each canned reply. */
  const FallbackRules: seq<Rule> := [
    Rule(["hola", "hi", "hello"],
      "¡Hola! 👋 Soy el asistente de IA de Nicolas. Me da mucho gusto saludarte. Puedo ayudarte con información sobre sus proyectos, habilidades, experiencia y más. ¿En qué puedo ayudarte hoy?"),
    Rule(["como estas", "como va", "que tal"],
      "¡Muy bien, gracias por preguntar! 😊 Estoy aquí para ayudarte con cualquier información sobre Nicolas y su trabajo. ¿Hay algo específico que te gustaría saber?"),
    Rule(["lindo", "guapo", "bonito", "atractivo", "monito"],
      "¡Qué pregunta tan interesante! 😊 Basándome en su portfolio, puedo decirte que Nicolas es un desarrollador muy talentoso y apasionado por su trabajo. Su creatividad y dedicación se reflejan en cada proyecto que ha creado. ¿Te interesa conocer más sobre sus habilidades técnicas o proyectos?"),
    Rule(["habilidad", "skill", "tecnologia"],
      "Nicolas domina un stack tecnológico completo: React, TypeScript, Node.js, Flutter, Unity, C#, Python, MongoDB y más. Su versatilidad le permite trabajar en desarrollo web, móvil y de juegos. ¿Te interesa alguna tecnología específica?"),
    Rule(["quien es", "que hace"],
      "Nicolas Paniagua es un desarrollador Full Stack de Argentina. Es un profesional apasionado por la tecnología que ha trabajado en proyectos increíbles como aplicaciones móviles, plataformas e-commerce, videojuegos y este mismo portfolio. ¿Te interesa conocer más sobre algún aspecto específico de su trabajo?"),
    Rule(["edad", "años"],
      "Nicolas es un desarrollador joven y talentoso. Aunque no especifica su edad exacta en el portfolio, puedo ver que es un profesional con experiencia sólida en desarrollo Full Stack. Su portfolio muestra proyectos maduros y bien ejecutados. ¿Te gustaría saber más sobre su experiencia?"),
    Rule(["donde vive", "ubicacion"],
      "Nicolas vive en Argentina. Es un desarrollador Full Stack con una perspectiva global, siempre abierto a oportunidades y colaboraciones internacionales. ¿Te interesa conocer más sobre su trabajo o cómo contactarlo?"),
    Rule(["proyecto", "project"],
      "Nicolas ha desarrollado varios proyectos impresionantes: Juntea (app móvil de eventos), Chapiri (plataforma e-commerce), Goblin Attack (juego 2D), y este portfolio interactivo. Cada proyecto muestra diferentes habilidades y enfoques técnicos. ¿Quieres saber más sobre algún proyecto específico?"),
    Rule(["contacto", "contact", "email"],
      "Puedes contactar a Nicolas a través de su email: nicolas.paniagua05f@gmail.com, LinkedIn: linkedin.com/in/nicolas-paniagua-80150a256, o GitHub: github.com/nicolas-netizen. Está disponible para oportunidades y colaboraciones."),
    Rule(["github", "repositorio"],
      "Nicolas tiene varios repositorios interesantes en GitHub: github.com/nicolas-netizen. Sus proyectos incluyen aplicaciones web, móviles, juegos y este mismo portfolio. ¿Quieres que te cuente sobre algún proyecto específico?"),
    Rule(["como es", "personalidad", "caracter"],
      "Basándome en su portfolio, Nicolas es un desarrollador apasionado, técnicamente excelente, innovador y versátil. Combina excelencia técnica con soft skills excepcionales. Es el tipo de profesional que cualquier empresa querría tener en su equipo. ¿Te interesa conocer más sobre su metodología de trabajo?"),
    Rule(["experiencia", "experience", "trabajo"],
      "Nicolas es un desarrollador Full Stack con experiencia diversa en desarrollo web empresarial, aplicaciones móviles nativas, videojuegos, infraestructura y e-commerce. Ha liderado equipos y mentorizado desarrolladores. ¿Te interesa conocer más detalles sobre algún aspecto específico?"),
    Rule(["portfolio", "portafolio", "sitio"],
      "¡Estás usando el portfolio de Nicolas! 🎉 Este sitio web fue desarrollado con React, TypeScript, Tailwind CSS, Framer Motion y muchas tecnologías modernas. Incluye una terminal interactiva con IA, múltiples temas y diseño responsive. ¿Te gusta la experiencia?"),
    Rule(["ayuda", "help"],
      "Puedo ayudarte con información sobre Nicolas: sus proyectos, habilidades, experiencia, personalidad, contacto y más. Solo pregúntame lo que necesites saber. ¿Por dónde empezamos?")]

  /** The generic replies one of which is picked at random when no rule fires. */
  const GenericResponses: seq<string> := [
    "Interesante pregunta sobre Nicolas. Es un desarrollador Full Stack muy talentoso con experiencia en múltiples tecnologías. ¿Te gustaría saber más sobre sus proyectos, habilidades o experiencia?",
    "Buena pregunta. Nicolas es un desarrollador versátil con un portfolio impresionante. Puedo ayudarte con información sobre sus proyectos, habilidades técnicas, experiencia o cómo contactarlo. ¿Qué te interesa más?",
    "Nicolas es un desarrollador talentoso con experiencia en React, Node.js, Flutter y Unity. ¿Quieres que te cuente sobre algún aspecto específico de su trabajo?",
    "Puedo ayudarte con información detallada sobre Nicolas y su trabajo. ¿Te interesa conocer sus proyectos, habilidades, experiencia o cómo contactarlo?"]

  /**
   * `getSmartFallbackResponse`; `pick` stands for the random index
   * `Math.floor(Math.random() * 4)`.
   */
  function SmartFallback(message: string, pick: nat): string
    requires pick < |GenericResponses|
  {
    FirstOutcome(FallbackRules, Lower(message), GenericResponses[pick])
  }

  /**
   * The fallback is the canned reply of the first rule whose words occur,
   * or, when none does, one of the generic replies.
   */
  lemma SmartFallbackSpec(message: string, pick: nat)
    requires pick < |GenericResponses|
    ensures var text := Lower(message);
      var i := FirstFiring(FallbackRules, text);
      && (i < |FallbackRules| ==>
            && SmartFallback(message, pick) == FallbackRules[i].outcome
            && Fires(FallbackRules[i], text)
            && forall j :: 0 <= j < i ==> !Fires(FallbackRules[j], text))
      && (i == |FallbackRules| ==>
            && SmartFallback(message, pick) in GenericResponses
            && forall j :: 0 <= j < |FallbackRules| ==> !Fires(FallbackRules[j], text))
  {
  }

  /**
   * The fallback greets exactly the messages the categoriser files as
   * greetings: both tables start with the same rule words.
   */
  lemma FallbackGreetsGreetings(message: string, pick: nat)
    requires pick < |GenericResponses|
    ensures Categorize(message) == "greeting" ==> SmartFallback(message, pick) == FallbackRules[0].outcome
    ensures !(Categorize(message) == "greeting") ==> FirstFiring(FallbackRules, Lower(message)) != 0
  {
    var text := Lower(message);
    assert FallbackRules[0].words == CategoryRules[0].words;
    assert Fires(FallbackRules[0], text) == Fires(CategoryRules[0], text);
    if !Fires(CategoryRules[0], text) {
      var i := FirstFiring(CategoryRules, text);
      assert i != 0 ==> i == |CategoryRules| || CategoryRules[i].outcome != "greeting";
    }
  }
}
