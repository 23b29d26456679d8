/**
 * The story router (server/routers.ts): image upload, the two-stage story pipeline
 * and the owner-checked story endpoints. The language model (`invokeLLM`), the blob
 * store (`storagePut`), `uuidv4`, `Date.now` and the JSON library are inputs.
 */
module Routers {
  import opened Wrappers
  import opened Schema
  import opened JsValues
  import opened Db

  // ---------------------------------------------------------------------------
  // The shapes invokeLLM accepts and returns

  datatype ImageUrl = ImageUrl(url: string, detail: string)

  datatype ContentPart = TextPart(text: string) | ImagePart(image: ImageUrl)

  datatype Content = PlainText(text: string) | Parts(parts: seq<ContentPart>)

  datatype ChatRole = SystemTurn | UserTurn

  datatype ChatMessage = ChatMessage(role: ChatRole, content: Content)

  datatype ParamKind = StringParam | StringArrayParam

  datatype ParamDecl = ParamDecl(name: string, kind: ParamKind, description: string)

  /** A function tool: its name, description, parameter schema and required parameters. */
  datatype ToolDecl = ToolDecl(name: string, description: string, params: seq<ParamDecl>, required: seq<string>)

  /** A request: messages, declared tools, and the tool the model is forced to call, if any. */
  datatype ChatRequest = ChatRequest(messages: seq<ChatMessage>, tools: seq<ToolDecl>, toolChoice: Option<string>)

  /** One tool call of a reply: the tool's name and its JSON-encoded arguments. */
  datatype ToolCall = ToolCall(name: string, arguments: string)

  /** A choice's message: `content` is None when it is not a string. */
  datatype ReplyMessage = ReplyMessage(content: Option<string>, toolCalls: Option<seq<ToolCall>>)

  /** What invokeLLM does: it throws, or replies with a list of choices. */
  datatype ModelOutcome = ModelFailed | Replied(choices: seq<ReplyMessage>)

  type Llm = ChatRequest -> ModelOutcome

  /** JSON.parse (None when it throws) and JSON.stringify. */
  datatype JsonLib = JsonLib(parse: string -> Option<JsValue>, stringify: JsValue -> string)

  /** The validated input of generateStory. */
  datatype StoryInput = StoryInput(imageUrl: string, imageBase64: Option<string>)

  /** The errors the router reports; nothing else reaches the caller. */
  datatype RouteError = GenerateFailed | UploadFailed | Unauthorized

  function ErrorMessage(e: RouteError): string
  {
    match e
    case GenerateFailed => "Failed to generate story"
    case UploadFailed => "Failed to upload image"
    case Unauthorized => "Unauthorized"
  }

  // ---------------------------------------------------------------------------
  // Stage 1: extraction by a forced tool call

  const JpegDataUrlPrefix := "data:image/jpeg;base64,"

  /** `input.imageBase64` is truthy: present and not empty. */
  predicate InlineImage(input: StoryInput)
  {
    input.imageBase64.Some? && input.imageBase64.value != ""
  }

  /** The image part of the analysis request: the inline image as a data URL, else the uploaded URL. */
  function ImageContent(input: StoryInput): (r: ImageUrl)
    ensures r.detail == "high"
    ensures InlineImage(input) ==>
      JpegDataUrlPrefix <= r.url && r.url[|JpegDataUrlPrefix|..] == input.imageBase64.value
    ensures !InlineImage(input) ==> r.url == input.imageUrl
  {
    if InlineImage(input) then ImageUrl(JpegDataUrlPrefix + input.imageBase64.value, "high")
    else ImageUrl(input.imageUrl, "high")
  }

  const ToolName := "extract_story_elements"

  const ExtractionTool := ToolDecl(
    ToolName,
    "Extract key story elements from the image",
    [ ParamDecl("title", StringParam, "A compelling title for the story"),
      ParamDecl("genre", StringParam, "Genre of the story (e.g., fantasy, mystery, romance, sci-fi)"),
      ParamDecl("mood", StringParam, "The mood or atmosphere (e.g., mysterious, joyful, dark, peaceful)"),
      ParamDecl("characters", StringArrayParam, "Main characters in the story"),
      ParamDecl("setting", StringParam, "The setting or location of the story"),
      ParamDecl("imageDescription", StringParam, "Detailed description of what is in the image") ],
    ["title", "genre", "mood", "characters", "setting", "imageDescription"])

  const AnalystInstruction :=
    "You are a creative storyteller and image analyst. Analyze the provided image and extract key story elements. You must use the extract_story_elements function to structure your analysis."

  const AnalysisQuestion :=
    "Analyze this image and extract story elements. What story could this image inspire? Provide a detailed analysis."

  function AnalysisRequest(image: ImageUrl): ChatRequest
  {
    ChatRequest(
      [ ChatMessage(SystemTurn, PlainText(AnalystInstruction)),
        ChatMessage(UserTurn, Parts([ImagePart(image), TextPart(AnalysisQuestion)])) ],
      [ExtractionTool],
      Some(ToolName))
  }

  /** `response.choices[0].message`; reading it throws (None) when the call failed or there is no choice. */
  function FirstReply(o: ModelOutcome): Option<ReplyMessage>
  {
    if o.Replied? && |o.choices| > 0 then Some(o.choices[0]) else None
  }

  /** `message.tool_calls?.[0]`. */
  function FirstToolCall(m: ReplyMessage): Option<ToolCall>
  {
    if m.toolCalls.Some? && |m.toolCalls.value| > 0 then Some(m.toolCalls.value[0]) else None
  }

  /** The elements substituted when the tool call cannot be used. */
  const DefaultElements: JsValue := Obj(map[
    "title" := Str("Untitled Story"),
    "genre" := Str("Fiction"),
    "mood" := Str("Mysterious"),
    "characters" := Arr([Str("The Protagonist")]),
    "setting" := Str("An Unknown Place"),
    "imageDescription" := Str("An intriguing image")])

  /** The tool call can be used: it exists, names the declared tool, and its arguments parse. */
  predicate UsableToolCall(m: ReplyMessage, parse: string -> Option<JsValue>)
  {
    var call := FirstToolCall(m);
    call.Some? && call.value.name == ToolName && parse(call.value.arguments).Some?
  }

  /** The story elements: the parsed arguments, unvalidated, or the default. */
  function ToolElements(m: ReplyMessage, parse: string -> Option<JsValue>): (r: JsValue)
    ensures r != DefaultElements ==>
      UsableToolCall(m, parse) && parse(FirstToolCall(m).value.arguments) == Some(r)
  {
    if UsableToolCall(m, parse) then parse(FirstToolCall(m).value.arguments).value else DefaultElements
  }

  // ---------------------------------------------------------------------------
  // Stage 2: synthesis

  const PromptHeader :=
    "\nYou are a master storyteller. Based on the following image analysis and story elements, write a compelling and engaging story.\n\n"

  const PromptFooter :=
    "\n\nWrite a complete story (300-500 words) that incorporates these elements. Make it engaging, vivid, and emotionally resonant. The story should feel inspired by the image.\n"

  const StorytellerInstruction :=
    "You are a creative and talented storyteller. Write engaging, vivid stories that captivate the reader."

  function PromptText(description: string, title: string, genre: string, mood: string, cast: string, setting: string): string
  {
    PromptHeader
    + "Image Description: " + description
    + "\nTitle: " + title
    + "\nGenre: " + genre
    + "\nMood: " + mood
    + "\nCharacters: " + cast
    + "\nSetting: " + setting
    + PromptFooter
  }

  /**
   * The synthesis prompt, or None when building it throws: reading a field of null or
   * undefined, converting a field that cannot be converted, or calling `join` on a
   * `characters` that is not an array.
   */
  function SynthesisPrompt(e: JsValue): (r: Option<string>)
    ensures r.Some? ==> e.Obj? && Prop(e, "characters").Arr? && Convertible(Prop(e, "characters"))
  {
    var description, title, genre, mood, characters, setting :=
      Read(e, "imageDescription"), Read(e, "title"), Read(e, "genre"),
      Read(e, "mood"), Read(e, "characters"), Read(e, "setting");
    if description.None? || title.None? || genre.None? || mood.None? || characters.None? || setting.None? then None
    else
      var d, t, g, m, c, st :=
        ToText(description.value), ToText(title.value), ToText(genre.value),
        ToText(mood.value), CallJoin(characters.value, ", "), ToText(setting.value);
      if d.Some? && t.Some? && g.Some? && m.Some? && c.Some? && st.Some?
      then Some(PromptText(d.value, t.value, g.value, m.value, c.value, st.value))
      else None
  }

  function SynthesisRequest(prompt: string): ChatRequest
  {
    ChatRequest(
      [ ChatMessage(SystemTurn, PlainText(StorytellerInstruction)),
        ChatMessage(UserTurn, PlainText(prompt)) ],
      [],
      None)
  }

  /** The story body: the content when it is a string, otherwise "". */
  function StoryText(m: ReplyMessage): string
  {
    if m.content.Some? then m.content.value else ""
  }

  // ---------------------------------------------------------------------------
  // The insert record

  /**
   * What a nullable text column receives for a JavaScript value: a string as it is, null
   * or undefined as NULL, another value as its `String()` form. A run that reaches the
   * insert has converted these fields for the prompt already, so a conversion that throws
   * never gets here.
   */
  function ColumnText(v: JsValue): Option<string>
  {
    if Nullish(v) then None else if v.Str? then Some(v.s) else ToText(v)
  }

  /** A column holds an element as given: a string as it is, a null or missing one as NULL. */
  predicate StoredAs(v: JsValue, column: Option<string>)
  {
    (v.Str? ==> column == Some(v.s)) && (Nullish(v) ==> column == None)
  }

  /** The record passed to createStory. */
  function StoryRecord(id: string, userId: string, imageUrl: string, e: JsValue, text: string,
                       stringify: JsValue -> string): (r: InsertStory)
    ensures r.id == id && r.userId == userId && r.imageUrl == imageUrl && r.story == text
    ensures r.characters == Some(stringify(Prop(e, "characters")))
    ensures StoredAs(Prop(e, "imageDescription"), r.imageDescription) && StoredAs(Prop(e, "title"), r.title)
    ensures StoredAs(Prop(e, "genre"), r.genre) && StoredAs(Prop(e, "mood"), r.mood)
    ensures StoredAs(Prop(e, "setting"), r.setting)
  {
    InsertStory(
      id := id,
      userId := userId,
      imageUrl := imageUrl,
      imageDescription := ColumnText(Prop(e, "imageDescription")),
      story := text,
      title := ColumnText(Prop(e, "title")),
      genre := ColumnText(Prop(e, "genre")),
      mood := ColumnText(Prop(e, "mood")),
      characters := Some(stringify(Prop(e, "characters"))),
      setting := ColumnText(Prop(e, "setting")))
  }

  /**
   * Everything generateStory does before persisting: the record to insert, or the
   * single error every throw becomes.
   */
  function Pipeline(input: StoryInput, caller: string, llm: Llm, json: JsonLib, freshId: string)
    : (r: Result<InsertStory, RouteError>)
    ensures r.Err? ==> r.error == GenerateFailed
    ensures r.Ok? ==> r.value.id == freshId && r.value.userId == caller && r.value.imageUrl == input.imageUrl
  {
    match FirstReply(llm(AnalysisRequest(ImageContent(input))))
    case None => Err(GenerateFailed)
    case Some(analysis) =>
      var elements := ToolElements(analysis, json.parse);
      match SynthesisPrompt(elements)
      case None => Err(GenerateFailed)
      case Some(prompt) =>
        match FirstReply(llm(SynthesisRequest(prompt)))
        case None => Err(GenerateFailed)
        case Some(reply) =>
          Ok(StoryRecord(freshId, caller, input.imageUrl, elements, StoryText(reply), json.stringify))
  }

  // ---------------------------------------------------------------------------
  // What the pipeline promises

  /** The analysis request forces the one declared tool and carries the image part first. */
  lemma AnalysisRequestForcesTool(input: StoryInput)
    ensures var req := AnalysisRequest(ImageContent(input));
      && req.tools == [ExtractionTool] && req.toolChoice == Some(ExtractionTool.name)
      && ExtractionTool.required == seq(|ExtractionTool.params|, i requires 0 <= i < |ExtractionTool.params| => ExtractionTool.params[i].name)
      && |req.messages| == 2 && req.messages[1].content.Parts?
      && req.messages[1].content.parts[0] == ImagePart(ImageContent(input))
    ensures ImageContent(input).detail == "high"
    ensures InlineImage(input) ==> ImageContent(input).url == JpegDataUrlPrefix + input.imageBase64.value
    ensures !InlineImage(input) ==> ImageContent(input).url == input.imageUrl
  {
  }

  /** No tool call, another tool's call, or arguments JSON.parse rejects: the default elements. */
  lemma FallbackToDefault(m: ReplyMessage, parse: string -> Option<JsValue>)
    requires || m.toolCalls.None? || m.toolCalls.value == []
             || m.toolCalls.value[0].name != ToolName
             || parse(m.toolCalls.value[0].arguments).None?
    ensures ToolElements(m, parse) == DefaultElements
  {
  }

  /** Otherwise the parsed arguments are used as they are, unvalidated. */
  lemma ParsedArgumentsUsed(m: ReplyMessage, parse: string -> Option<JsValue>, v: JsValue)
    requires m.toolCalls.Some? && |m.toolCalls.value| > 0
    requires m.toolCalls.value[0].name == ToolName && parse(m.toolCalls.value[0].arguments) == Some(v)
    ensures ToolElements(m, parse) == v
  {
  }

  /**
   * What the template and `join` need of the elements: an object whose `characters` is an
   * array, and every field the prompt shows convertible to text.
   */
  predicate PromptBuildable(e: JsValue)
  {
    && e.Obj? && "characters" in e.props && e.props["characters"].Arr?
    && Convertible(e.props["characters"])
    && Convertible(Prop(e, "imageDescription")) && Convertible(Prop(e, "title"))
    && Convertible(Prop(e, "genre")) && Convertible(Prop(e, "mood")) && Convertible(Prop(e, "setting"))
  }

  /** Building the prompt throws exactly when the elements are not buildable. */
  lemma PromptDefinedIff(e: JsValue)
    ensures SynthesisPrompt(e).Some? <==> PromptBuildable(e)
  {
    if !Nullish(e) && !e.Obj? {
      assert Prop(e, "characters") == JsValue.Undefined;
    }
  }

  /** A field that is an object with its own `toString` makes the prompt throw. */
  lemma OwnToStringFails(e: JsValue, field: string)
    requires e.Obj? && field in e.props && e.props[field].Obj? && "toString" in e.props[field].props
    requires field in {"imageDescription", "title", "genre", "mood", "setting"}
    ensures SynthesisPrompt(e).None?
  {
    PromptDefinedIff(e);
  }

  /** The default elements give this prompt. */
  lemma DefaultPrompt()
    ensures SynthesisPrompt(DefaultElements) ==
      Some(PromptText("An intriguing image", "Untitled Story", "Fiction", "Mysterious", "The Protagonist",
                      "An Unknown Place"))
  {
    assert Prop(DefaultElements, "characters") == Arr([Str("The Protagonist")]);
    assert JoinItems([Str("The Protagonist")], ", ") == Some("The Protagonist");
  }

  /** The analysis reply, when invokeLLM gives one. */
  function AnalysisReply(input: StoryInput, llm: Llm): Option<ReplyMessage>
  {
    FirstReply(llm(AnalysisRequest(ImageContent(input))))
  }

  /**
   * The pipeline fails exactly when one of its throws happens: the analysis call, the
   * prompt, or the synthesis call. On success the record carries the fresh id, the
   * caller, the uploaded URL (never the data URL) and the serialised characters.
   */
  lemma PipelineOutcome(input: StoryInput, caller: string, llm: Llm, json: JsonLib, freshId: string)
    ensures var p := Pipeline(input, caller, llm, json, freshId);
      p.Ok? <==>
        && AnalysisReply(input, llm).Some?
        && var e := ToolElements(AnalysisReply(input, llm).value, json.parse);
           && PromptBuildable(e)
           && FirstReply(llm(SynthesisRequest(SynthesisPrompt(e).value))).Some?
    ensures var p := Pipeline(input, caller, llm, json, freshId);
      p.Err? ==> p.error == GenerateFailed
    ensures var p := Pipeline(input, caller, llm, json, freshId);
      p.Ok? ==>
        && p.value.id == freshId && p.value.userId == caller && p.value.imageUrl == input.imageUrl
        && p.value.characters ==
             Some(json.stringify(Prop(ToolElements(AnalysisReply(input, llm).value, json.parse), "characters")))
        && (InlineImage(input) && !(JpegDataUrlPrefix <= input.imageUrl) ==> p.value.imageUrl != ImageContent(input).url)
  {
    var p := Pipeline(input, caller, llm, json, freshId);
    if AnalysisReply(input, llm).Some? {
      PromptDefinedIff(ToolElements(AnalysisReply(input, llm).value, json.parse));
    }
    if p.Ok? && InlineImage(input) && p.value.imageUrl == ImageContent(input).url {
      assert JpegDataUrlPrefix <= ImageContent(input).url;
    }
  }

  /** Parsed arguments without `characters` make the run fail although the model replied. */
  lemma MissingCharactersFail(input: StoryInput, caller: string, llm: Llm, json: JsonLib, freshId: string)
    requires AnalysisReply(input, llm).Some?
    requires var e := ToolElements(AnalysisReply(input, llm).value, json.parse);
      e.Obj? && "characters" !in e.props
    ensures Pipeline(input, caller, llm, json, freshId) == Err(GenerateFailed)
  {
    PromptDefinedIff(ToolElements(AnalysisReply(input, llm).value, json.parse));
  }

  /** Extraction substituted the default: the record holds the documented default metadata. */
  lemma DefaultRecord(input: StoryInput, caller: string, llm: Llm, json: JsonLib, freshId: string)
    requires AnalysisReply(input, llm).Some? && !UsableToolCall(AnalysisReply(input, llm).value, json.parse)
    requires FirstReply(llm(SynthesisRequest(PromptText("An intriguing image", "Untitled Story", "Fiction",
                                                         "Mysterious", "The Protagonist", "An Unknown Place")))).Some?
    ensures var reply := FirstReply(llm(SynthesisRequest(PromptText("An intriguing image", "Untitled Story",
                                      "Fiction", "Mysterious", "The Protagonist", "An Unknown Place")))).value;
      Pipeline(input, caller, llm, json, freshId) ==
        Ok(InsertStory(freshId, caller, input.imageUrl, Some("An intriguing image"), StoryText(reply),
                       Some("Untitled Story"), Some("Fiction"), Some("Mysterious"),
                       Some(json.stringify(Arr([Str("The Protagonist")]))), Some("An Unknown Place")))
  {
    DefaultPrompt();
  }

  /** The parsed arguments as the tool's schema describes them: six fields, all strings. */
  function ElementsObject(title: string, genre: string, mood: string, cast: seq<string>, setting: string,
                          description: string): JsValue
  {
    Obj(map[
      "title" := Str(title), "genre" := Str(genre), "mood" := Str(mood),
      "characters" := StrArray(cast),
      "setting" := Str(setting), "imageDescription" := Str(description)])
  }

  /** A run whose three steps all return gives the record built from the elements and the reply. */
  lemma PipelineSucceeds(input: StoryInput, caller: string, llm: Llm, json: JsonLib, freshId: string,
                         e: JsValue, prompt: string, reply: ReplyMessage)
    requires AnalysisReply(input, llm).Some? && ToolElements(AnalysisReply(input, llm).value, json.parse) == e
    requires SynthesisPrompt(e) == Some(prompt) && FirstReply(llm(SynthesisRequest(prompt))) == Some(reply)
    ensures Pipeline(input, caller, llm, json, freshId) ==
            Ok(StoryRecord(freshId, caller, input.imageUrl, e, StoryText(reply), json.stringify))
  {
  }

  /** The fields of a schema-conforming object, as the prompt and the record read them. */
  lemma ElementsObjectFields(title: string, genre: string, mood: string, cast: seq<string>, setting: string,
                             description: string)
    ensures var e := ElementsObject(title, genre, mood, cast, setting, description);
      && Prop(e, "title") == Str(title) && Prop(e, "genre") == Str(genre) && Prop(e, "mood") == Str(mood)
      && Prop(e, "characters") == StrArray(cast)
      && Prop(e, "setting") == Str(setting) && Prop(e, "imageDescription") == Str(description)
  {
  }

  /** The record built from a schema-conforming object holds its fields as given. */
  lemma RecordOfElements(id: string, userId: string, imageUrl: string, title: string, genre: string, mood: string,
                         cast: seq<string>, setting: string, description: string, text: string,
                         stringify: JsValue -> string)
    ensures StoryRecord(id, userId, imageUrl, ElementsObject(title, genre, mood, cast, setting, description), text, stringify) ==
            InsertStory(id, userId, imageUrl, Some(description), text, Some(title), Some(genre), Some(mood),
                        Some(stringify(StrArray(cast))), Some(setting))
  {
    ElementsObjectFields(title, genre, mood, cast, setting, description);
  }

  /** When the model fills the tool's schema, the prompt embeds the six fields, the characters joined by ", ". */
  lemma SchemaConformingPrompt(title: string, genre: string, mood: string, cast: seq<string>, setting: string,
                               description: string)
    ensures SynthesisPrompt(ElementsObject(title, genre, mood, cast, setting, description)) ==
            Some(PromptText(description, title, genre, mood, JoinStrings(cast, ", "), setting))
  {
    ElementsObjectFields(title, genre, mood, cast, setting, description);
    JoinOfStrings(cast, ", ");
  }

  /** ... and the record stores the six fields as the model gave them. */
  lemma SchemaConformingRun(input: StoryInput, caller: string, llm: Llm, json: JsonLib, freshId: string,
                            title: string, genre: string, mood: string, cast: seq<string>, setting: string,
                            description: string)
    requires AnalysisReply(input, llm).Some?
    requires ToolElements(AnalysisReply(input, llm).value, json.parse) ==
             ElementsObject(title, genre, mood, cast, setting, description)
    ensures var prompt := PromptText(description, title, genre, mood, JoinStrings(cast, ", "), setting);
      var reply := FirstReply(llm(SynthesisRequest(prompt)));
      reply.Some? ==>
        Pipeline(input, caller, llm, json, freshId) ==
          Ok(InsertStory(freshId, caller, input.imageUrl, Some(description), StoryText(reply.value),
                         Some(title), Some(genre), Some(mood),
                         Some(json.stringify(StrArray(cast))),
                         Some(setting)))
  {
    var e := ElementsObject(title, genre, mood, cast, setting, description);
    var prompt := PromptText(description, title, genre, mood, JoinStrings(cast, ", "), setting);
    var reply := FirstReply(llm(SynthesisRequest(prompt)));
    SchemaConformingPrompt(title, genre, mood, cast, setting, description);
    if reply.Some? {
      PipelineSucceeds(input, caller, llm, json, freshId, e, prompt, reply.value);
      RecordOfElements(freshId, caller, input.imageUrl, title, genre, mood, cast, setting, description,
                       StoryText(reply.value), json.stringify);
    }
  }

  const AlleyCatArguments :=
    "{\"title\":\"The Alley Cat\",\"genre\":\"fantasy\",\"mood\":\"whimsical\",\"characters\":[\"Whiskers\"],\"setting\":\"a rainy alley\",\"imageDescription\":\"a cat in rain\"}"

  /**
   * An end-to-end run: the upload URL is persisted (not the data URL), with the
   * extracted title and the characters as JSON text.
   */
  lemma AlleyCatRun(json: JsonLib, prose: string)
    requires json.parse(AlleyCatArguments) ==
             Some(ElementsObject("The Alley Cat", "fantasy", "whimsical", ["Whiskers"], "a rainy alley", "a cat in rain"))
    requires json.stringify(Arr([Str("Whiskers")])) == "[\"Whiskers\"]"
    ensures
      var llm := (req: ChatRequest) =>
        if req.toolChoice.Some? then Replied([ReplyMessage(None, Some([ToolCall(ToolName, AlleyCatArguments)]))])
        else Replied([ReplyMessage(Some(prose), None)]);
      var input := StoryInput("https://store/stories/171-cat.jpg", Some("Y2F0"));
      var p := Pipeline(input, "u-1", llm, json, "id-1");
      && p.Ok?
      && p.value.title == Some("The Alley Cat")
      && p.value.imageUrl == "https://store/stories/171-cat.jpg"
      && p.value.imageUrl != ImageContent(input).url
      && p.value.characters == Some("[\"Whiskers\"]")
      && p.value.story == prose
  {
    var llm := (req: ChatRequest) =>
      if req.toolChoice.Some? then Replied([ReplyMessage(None, Some([ToolCall(ToolName, AlleyCatArguments)]))])
      else Replied([ReplyMessage(Some(prose), None)]);
    var input := StoryInput("https://store/stories/171-cat.jpg", Some("Y2F0"));
    var e := ElementsObject("The Alley Cat", "fantasy", "whimsical", ["Whiskers"], "a rainy alley", "a cat in rain");
    assert AnalysisReply(input, llm) == Some(ReplyMessage(None, Some([ToolCall(ToolName, AlleyCatArguments)])));
    SchemaConformingPrompt("The Alley Cat", "fantasy", "whimsical", ["Whiskers"], "a rainy alley", "a cat in rain");
    SchemaConformingRun(input, "u-1", llm, json, "id-1", "The Alley Cat", "fantasy", "whimsical", ["Whiskers"],
                        "a rainy alley", "a cat in rain");
    assert seq(1, i requires 0 <= i < 1 => Str(["Whiskers"][i])) == [Str("Whiskers")];
    assert ImageContent(input).url == JpegDataUrlPrefix + "Y2F0";
    assert ImageContent(input).url[0] == 'd';
  }

  /**
   * generateStory for the caller `caller`: extraction, the fallback, synthesis, then
   * createStory with a fresh id. A throw before persistence is reported as
   * GenerateFailed and stores nothing; a null from createStory is still a success.
   */
  method GenerateStory(db: Database, env: DbEnv, now: Time, caller: string, input: StoryInput,
                       llm: Llm, json: JsonLib, freshId: string)
    returns (r: Result<Option<StoryRow>, RouteError>)
    requires db.Valid()
    modifies db
    ensures db.Valid() && db.users == old(db.users)
    ensures Pipeline(input, caller, llm, json, freshId).Err? ==>
      r == Err(GenerateFailed) && db.handle == old(db.handle) && db.stories == old(db.stories)
    ensures Pipeline(input, caller, llm, json, freshId).Ok? ==>
      var record := Pipeline(input, caller, llm, json, freshId).value;
      && db.handle == ConnectStep(old(db.handle), env)
      && if db.handle.Some? && Insertable(old(db.stories), record)
         then db.stories == old(db.stories) + [NewStoryRow(record, now)] && r == Ok(Some(NewStoryRow(record, now)))
         else db.stories == old(db.stories) && r == Ok(None)
  {
    var imageContent := ImageContent(input);
    var analysis := FirstReply(llm(AnalysisRequest(imageContent)));
    if analysis.None? {
      return Err(GenerateFailed);
    }
    var storyElements := DefaultElements;
    var toolCall := FirstToolCall(analysis.value);
    if toolCall.Some? && toolCall.value.name == ToolName {
      var parsed := json.parse(toolCall.value.arguments);
      if parsed.Some? {
        storyElements := parsed.value;
      }
    }
    var storyPrompt := SynthesisPrompt(storyElements);
    if storyPrompt.None? {
      return Err(GenerateFailed);
    }
    var storyResponse := FirstReply(llm(SynthesisRequest(storyPrompt.value)));
    if storyResponse.None? {
      return Err(GenerateFailed);
    }
    var story := StoryText(storyResponse.value);
    var storyId := freshId;
    var savedStory := db.CreateStory(env, StoryRecord(storyId, caller, input.imageUrl, storyElements, story, json.stringify), now);
    r := Ok(savedStory);
  }

  // ---------------------------------------------------------------------------
  // The story endpoints

  /** getMyStories: the caller's stories, newest first. */
  method GetMyStories(db: Database, env: DbEnv, caller: string) returns (r: seq<StoryRow>)
    modifies db`handle
    ensures db.handle == ConnectStep(old(db.handle), env)
    ensures r == if db.handle.Some? then UserStories(db.stories, caller) else []
  {
    r := db.GetUserStories(env, caller);
  }

  /** getStory: the story with this id, whoever owns it. */
  method GetStory(db: Database, env: DbEnv, id: string) returns (r: Option<StoryRow>)
    modifies db`handle
    ensures db.handle == ConnectStep(old(db.handle), env)
    ensures r == if db.handle.Some? then FindStory(db.stories, id) else None
  {
    r := db.GetStory(env, id);
  }

  /**
   * deleteStory: fetches the story and deletes it only when it exists and belongs to
   * the caller; otherwise Unauthorized, and nothing is deleted.
   */
  method DeleteStory(db: Database, env: DbEnv, caller: string, id: string) returns (r: Result<bool, RouteError>)
    requires db.Valid()
    modifies db
    ensures db.Valid() && db.users == old(db.users)
    ensures db.handle == ConnectStep(old(db.handle), env)
    ensures var found := if db.handle.Some? then FindStory(old(db.stories), id) else None;
      if found.None? || found.value.userId != caller
      then r == Err(Unauthorized) && db.stories == old(db.stories)
      else r == Ok(true) && db.stories == DeleteRows(old(db.stories), id)
  {
    var story := db.GetStory(env, id);
    if story.None? || story.value.userId != caller {
      return Err(Unauthorized);
    }
    ConnectStepSettles(old(db.handle), env);
    var success := db.DeleteStory(env, id);
    r := Ok(success);
  }

  // ---------------------------------------------------------------------------
  // Image upload

  predicate IsDigit(c: char)
  {
    '0' <= c <= '9'
  }

  predicate AllDigits(s: string)
  {
    forall i :: 0 <= i < |s| ==> IsDigit(s[i])
  }

  /** A number's decimal text, as `${Date.now()}` writes it. */
  function Decimal(n: nat): (s: string)
    ensures |s| > 0 && AllDigits(s)
  {
    if n < 10 then ["0123456789"[n]] else Decimal(n / 10) + ["0123456789"[n % 10]]
  }

  /** The number a string of decimal digits denotes. */
  function DecimalValue(s: string): nat
    requires AllDigits(s)
  {
    if s == [] then 0 else DecimalValue(s[..|s| - 1]) * 10 + (s[|s| - 1] as int - '0' as int)
  }

  lemma {:induction false} DecimalRoundTrip(n: nat)
    ensures DecimalValue(Decimal(n)) == n
  {
    var s := Decimal(n);
    if n >= 10 {
      DecimalRoundTrip(n / 10);
      assert s[..|s| - 1] == Decimal(n / 10);
    }
  }

  /** The storage key of an upload: `stories/<millis>-<filename>`. */
  function UploadKey(millis: Time, filename: string): (key: string)
    ensures |key| == 9 + |Decimal(millis)| + |filename|
    ensures "stories/" <= key && key[8..8 + |Decimal(millis)|] == Decimal(millis)
    ensures key[8 + |Decimal(millis)|] == '-' && key[|key| - |filename|..] == filename
  {
    "stories/" + Decimal(millis) + "-" + filename
  }

  /** The length of the leading run of digits. */
  function DigitRun(s: string): (n: nat)
    ensures n <= |s| && AllDigits(s[..n])
    ensures n < |s| ==> !IsDigit(s[n])
  {
    if s == [] || !IsDigit(s[0]) then 0
    else
      var n := 1 + DigitRun(s[1..]);
      assert s[..n] == [s[0]] + s[1..][..n - 1];
      n
  }

  lemma {:induction false} DigitRunOfDigits(d: string, rest: string)
    requires AllDigits(d)
    requires rest != [] ==> !IsDigit(rest[0])
    ensures DigitRun(d + rest) == |d|
  {
    if d != [] {
      assert (d + rest)[1..] == d[1..] + rest;
      DigitRunOfDigits(d[1..], rest);
    } else {
      assert d + rest == rest;
    }
  }

  /** Reads a storage key back into its time and file name. */
  function ParseUploadKey(key: string): Option<(Time, string)>
  {
    if |key| < 8 || key[..8] != "stories/" then None
    else
      var rest := key[8..];
      var n := DigitRun(rest);
      if n == 0 || n == |rest| || rest[n] != '-' then None
      else Some((DecimalValue(rest[..n]), rest[n + 1..]))
  }

  /** The key determines the time and the file name it was built from, whatever the name holds. */
  lemma UploadKeyRoundTrip(millis: Time, filename: string)
    ensures ParseUploadKey(UploadKey(millis, filename)) == Some((millis, filename))
  {
    var key := UploadKey(millis, filename);
    var d := Decimal(millis);
    assert key[..8] == "stories/";
    var rest := key[8..];
    assert rest == d + ("-" + filename);
    DigitRunOfDigits(d, "-" + filename);
    assert rest[..|d|] == d;
    assert rest[|d| + 1..] == filename;
    DecimalRoundTrip(millis);
  }

  /** One write to the blob store: key, payload (the base64 text; its decoding is the store's), content type. */
  datatype PutRequest = PutRequest(key: string, data: string, contentType: string)

  /** uploadImage: stores the image under its time-stamped key; any storage failure is UploadFailed. */
  function UploadImage(base64: string, filename: string, millis: Time, storagePut: PutRequest -> Option<string>)
    : (r: Result<string, RouteError>)
    ensures r.Ok? <==> storagePut(PutRequest(UploadKey(millis, filename), base64, "image/jpeg")).Some?
    ensures r.Ok? ==> r.value == storagePut(PutRequest(UploadKey(millis, filename), base64, "image/jpeg")).value
    ensures r.Err? ==> r.error == UploadFailed
  {
    match storagePut(PutRequest(UploadKey(millis, filename), base64, "image/jpeg"))
    case Some(url) => Ok(url)
    case None => Err(UploadFailed)
  }
}
