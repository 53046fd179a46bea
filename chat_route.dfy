/**
 * The intervention chat endpoint: checks the language-model configuration
 * first, then reads the body, requires an intervention type, asks for the
 * intervention text and answers with it cleaned of markdown, echoing the
 * type. The model request is an abstract outcome.
 */
module ChatRoute {
  import opened Text
  import Config
  import Prompts
  import Glm

  /** The body's `type` field: missing (or another falsy value), the empty
      string, or one of the seven types. */
  datatype TypeField = NoType | EmptyType | GivenType(kind: Prompts.Intervention)

  /** Reading the body: it throws, or yields its four fields. */
  datatype Body =
    | BodyThrew(error: Thrown)
    | Body(kind: TypeField, sessionCount: Option<int>, lastReminderTime: Option<string>, userPattern: Option<string>)

  datatype Response =
    | Success(message: string, kind: Prompts.Intervention)
    | Failure(status: int, error: string)

  const MissingPrefix: string := "Missing environment variables: "

  /** The error text for a failed configuration check. */
  function MissingMessage(missing: seq<string>): (r: string)
    ensures StartsWith(r, MissingPrefix)
    ensures |missing| == 1 ==> r == MissingPrefix + missing[0]
  {
    MissingPrefix + Join(missing, ", ")
  }

  /** Both model settings missing: the names are joined with a comma and
      a space, in check order. */
  lemma TwoMissingNames()
    ensures MissingMessage(["GLM_API_KEY", "GLM_BASE_URL"]) == MissingPrefix + "GLM_API_KEY, GLM_BASE_URL"
  {
  }

  /** `POST`, with `glm` the loaded model configuration and `outcome` how
      the model request ends. */
  method Post(glm: Config.GlmConfig, body: Body, outcome: Glm.ChatOutcome) returns (response: Response)
    ensures Config.EmptyNames(Config.GlmFields(glm)) != [] ==>
      response == Failure(500, MissingMessage(Config.EmptyNames(Config.GlmFields(glm))))
    ensures Config.EmptyNames(Config.GlmFields(glm)) == [] && body.BodyThrew? ==>
      response == Failure(500, ErrorMessage(body.error, "Unknown error"))
    ensures Config.EmptyNames(Config.GlmFields(glm)) == [] && body.Body? && !body.kind.GivenType? ==>
      response == Failure(400, "Intervention type is required")
    ensures Config.EmptyNames(Config.GlmFields(glm)) == [] && body.Body? && body.kind.GivenType? ==>
      response == Success(
        Glm.ParseAIResponse(Glm.GetAIIntervention(
          Prompts.PromptContext(body.kind.kind, body.sessionCount, body.lastReminderTime, body.userPattern), outcome)),
        body.kind.kind)
  {
    var validation := Config.ValidateConfig(glm);
    if !validation.valid {
      return Failure(500, MissingMessage(validation.missing));
    }
    if body.BodyThrew? {
      return Failure(500, ErrorMessage(body.error, "Unknown error"));
    }
    if !body.kind.GivenType? {
      return Failure(400, "Intervention type is required");
    }
    var context := Prompts.PromptContext(body.kind.kind, body.sessionCount, body.lastReminderTime, body.userPattern);
    var message := Glm.GetAIIntervention(context, outcome);
    response := Success(Glm.ParseAIResponse(message), body.kind.kind);
  }

  /** With the configuration loaded from the environment, the only name that
      can be reported missing is the API key, and the error reads so. */
  lemma MissingKeyMessage(env: Config.Env)
    ensures Config.EmptyNames(Config.GlmFields(Config.Load(env).glm)) != [] <==> Config.Load(env).glm.apiKey == ""
    ensures Config.Load(env).glm.apiKey == "" ==>
      MissingMessage(Config.EmptyNames(Config.GlmFields(Config.Load(env).glm)))
      == MissingPrefix + "GLM_API_KEY"
  {
    Config.LoadedGlmMissesOnlyTheKey(env);
  }

  /** A successful answer never holds a `*`, whatever the model said, and a
      failed model request yields the type's static prompt. */
  lemma SuccessMessage(context: Prompts.PromptContext, outcome: Glm.ChatOutcome)
    ensures '*' !in Glm.ParseAIResponse(Glm.GetAIIntervention(context, outcome))
    ensures !outcome.ChatOk? ==>
      Glm.ParseAIResponse(Glm.GetAIIntervention(context, outcome)) == Trim(Prompts.StaticPrompt(context.kind))
  {
    Glm.ParseAIResponseProperties(Glm.GetAIIntervention(context, outcome));
    if !outcome.ChatOk? {
      StaticPromptsPlain(context.kind);
    }
  }

  predicate Plain(s: string)
  {
    '*' !in s && '#' !in s
  }

  /** The static prompts hold neither `*` nor `#`. Each prompt is shown
      plain by its own lemma, so the solver expands one literal at a time. */
  lemma StaticPromptsPlain(k: Prompts.Intervention)
    ensures Plain(Prompts.StaticPrompt(k))
  {
    match k
    case Posture => PosturePlain();
    case Hydration => HydrationPlain();
    case Stretch => StretchPlain();
    case Movement => MovementPlain();
    case Procrastination => ProcrastinationPlain();
    case Overwork => OverworkPlain();
    case Reflection => ReflectionPlain();
  }

  lemma PosturePlain()
    ensures Plain(Prompts.StaticPrompt(Prompts.Posture))
  {
  }

  lemma HydrationPlain()
    ensures Plain(Prompts.StaticPrompt(Prompts.Hydration))
  {
  }

  lemma StretchPlain()
    ensures Plain(Prompts.StaticPrompt(Prompts.Stretch))
  {
  }

  lemma MovementPlain()
    ensures Plain(Prompts.StaticPrompt(Prompts.Movement))
  {
  }

  lemma ProcrastinationPlain()
    ensures Plain(Prompts.StaticPrompt(Prompts.Procrastination))
  {
  }

  lemma OverworkPlain()
    ensures Plain(Prompts.StaticPrompt(Prompts.Overwork))
  {
  }

  lemma ReflectionPlain()
    ensures Plain(Prompts.StaticPrompt(Prompts.Reflection))
  {
  }
}
