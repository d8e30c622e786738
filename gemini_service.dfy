/** The service layer: builds the instruction for the generative model,
    describes the JSON shape it must answer in, and turns the single call's
    outcome into a recipe or a message for the user. */
module GeminiService {
  import opened Wrappers
  import opened Types
  import opened Strings

  // ---------------------------------------------------------------------------
  // Persona selection
  // ---------------------------------------------------------------------------

  const GourmetPersona :=
    "You are a pretentious, high-end "
    + "Michelin star chef. Turn these "
    + "potentially garbage ingredients "
    + "into a 'deconstructed' or "
    + "'elevated' culinary masterpiece. "
    + "Use fancy culinary jargon."
  const HilariousPersona :=
    "You are a chaotic, slightly "
    + "unhinged mad scientist chef. Create "
    + "a recipe that is technically edible "
    + "but hilarious, questioning the "
    + "user's life choices or inventing "
    + "wild physics-based cooking methods "
    + "(like 'Quantum Spaghetti')."
  const IndianPersona :=
    "You are a creative Indian chef. "
    + "Transform these ingredients into a "
    + "Desi masterpiece. Use Indian "
    + "cooking techniques (like "
    + "Tadka/Tempering, Bhuna, Dum) and "
    + "flavor profiles. Even if the "
    + "ingredients are weird, try to make "
    + "a Curry, Sabzi, or Chaat out of "
    + "them. Use Hindi/English culinary "
    + "terms where appropriate."
  /** The `default` persona: used for 'easy' and for any tag not listed. */
  const PragmaticPersona :=
    "You are a pragmatic chef who hates "
    + "doing dishes. Create the absolute "
    + "easiest, quickest, lowest-effort "
    + "edible meal possible from these "
    + "ingredients. Focus on microwave "
    + "shortcuts, one-bowl solutions, and "
    + "minimal prep. Keep instructions "
    + "very simple."

  /** The `switch` on the style tag; the string comparison is `===`. */
  function StylePrompt(tag: string): string
  {
    if tag == "gourmet" then GourmetPersona
    else if tag == "hilarious" then HilariousPersona
    else if tag == "indian" then IndianPersona
    else PragmaticPersona
  }

  // ---------------------------------------------------------------------------
  // Backstory clause
  // ---------------------------------------------------------------------------

  const BackstoryRequested :=
    "Also, write a creative, absurd, or "
    + "deeply emotional backstory for why "
    + "this dish exists."
  const BackstoryDeclined :=
    "No backstory needed. Return an "
    + "empty string for the backstory "
    + "field."

  function BackstoryPrompt(includeBackstory: bool): string
  {
    if includeBackstory then BackstoryRequested else BackstoryDeclined
  }

  // ---------------------------------------------------------------------------
  // Prompt template
  // ---------------------------------------------------------------------------

  /** The line that carries the ingredients, up to where they are spliced in. */
  const IngredientsLead := "\n    Ingredients provided: "
  const SpecialConditionHeading :=
    "    SPECIAL CONDITION: If the "
    + "ingredients provided are clearly "
    + "insufficient for a meal (e.g., "
    + "\"nothing\", \"dust\", \"water only\", "
    + "\"air\") or strictly non-food items, "
    + "IGNORE the requested cooking style. "
    + "Instead:"
  const SetGroceryFlag := "    1. Set \"is_grocery\" to true."
  const SetGroceryTitle :=
    "    2. Set \"title\" to \"Time to Buy "
    + "Groceries\"."
  const SetGroceryTagline :=
    "    3. Set \"tagline\" to a witty "
    + "remark about the empty fridge."
  const SetShoppingList :=
    "    4. Set \"ingredients_list\" to a "
    + "recommended shopping list of basics."
  const SetGroceryTrip :=
    "    5. Set \"steps\" to humorous "
    + "instructions on how to go to the "
    + "grocery store."
  const SetGroceryRoast :=
    "    6. Set \"chef_comment\" to a "
    + "friendly roast about their lack of "
    + "food."
  /** The override for inadequate ingredients, one template line per part. */
  const SpecialCondition :=
    SpecialConditionHeading + "\n" + SetGroceryFlag + "\n" + SetGroceryTitle + "\n"
    + SetGroceryTagline + "\n" + SetShoppingList + "\n" + SetGroceryTrip + "\n" + SetGroceryRoast
  /** Everything after the backstory line: a blank line, the special
      condition and the template's closing indentation. */
  const GroceryBlock := "\n\n" + SpecialCondition + "\n  "

  /** The prompt template: a line break and indentation, the persona, the
      ingredients line with the ingredients spliced in verbatim, a full stop,
      the backstory clause on a new line and the grocery block. */
  function Template(persona: string, ingredients: string, clause: string): string
  {
    TemplateWith(persona, ingredients, clause, GroceryBlock)
  }

  /** The template with an arbitrary closing block in place of the grocery
      block, so that proofs about its shape never look inside the long
      literals. */
  function TemplateWith(persona: string, ingredients: string, clause: string, block: string): string
  {
    "\n    " + persona + IngredientsLead + ingredients + (".\n    " + clause + block)
  }

  /** The instruction sent to the model for one request: the template filled
      with the persona of the style and the clause of the backstory flag. */
  function BuildPrompt(params: GenerateRecipeParams): string
  {
    Template(StylePrompt(StyleTag(params.style)), params.ingredients,
             BackstoryPrompt(params.includeBackstory))
  }

  /** Persona selection is total: the three named tags each get their own
      persona and every other tag, 'easy' included, gets the pragmatic one. */
  lemma PersonaSelection(tag: string)
    ensures StylePrompt(tag) == GourmetPersona <==> tag == "gourmet"
    ensures StylePrompt(tag) == HilariousPersona <==> tag == "hilarious"
    ensures StylePrompt(tag) == IndianPersona <==> tag == "indian"
    ensures StylePrompt(tag) == PragmaticPersona <==> tag !in {"gourmet", "hilarious", "indian"}
  {
  }

  /** The four cooking styles select four different personas. */
  lemma StylePersonasDistinct(s: CookingStyle, t: CookingStyle)
    ensures StylePrompt(StyleTag(s)) == StylePrompt(StyleTag(t)) <==> s == t
  {
  }

  /** The backstory clause asks for a story exactly when one is requested. */
  lemma BackstoryChoice(includeBackstory: bool)
    ensures BackstoryPrompt(includeBackstory) == BackstoryRequested <==> includeBackstory
    ensures BackstoryPrompt(includeBackstory) == BackstoryDeclined <==> !includeBackstory
  {
  }

  /** The prompt is, in this order and with nothing else in it: a line
      break and indentation, the persona, the ingredients lead, the
      ingredients spliced in verbatim, a full stop and a new indented line,
      the backstory clause and the grocery block, which closes every prompt.
      This holds for every persona and clause, so in particular for the ones
      `BuildPrompt` chooses. */
  lemma PromptLayout(persona: string, ingredients: string, clause: string)
    ensures
      var prompt := Template(persona, ingredients, clause);
      var start := 5 + |persona| + |IngredientsLead|;
      && OccursAt(prompt, "\n    ", 0)
      && OccursAt(prompt, persona, 5)
      && OccursAt(prompt, IngredientsLead, 5 + |persona|)
      && OccursAt(prompt, ingredients, start)
      && OccursAt(prompt, ".\n    ", start + |ingredients|)
      && OccursAt(prompt, clause, start + |ingredients| + 6)
      && |prompt| == start + |ingredients| + 6 + |clause| + |GroceryBlock|
      && OccursAt(prompt, GroceryBlock, |prompt| - |GroceryBlock|)
  {
    SpliceLayout(persona, ingredients, clause, GroceryBlock);
  }

  /** `PromptLayout` for an arbitrary closing block, so that the solver
      never looks inside the long literals. */
  lemma SpliceLayout(persona: string, ingredients: string, clause: string, block: string)
    ensures
      var prompt := TemplateWith(persona, ingredients, clause, block);
      var start := 5 + |persona| + |IngredientsLead|;
      && OccursAt(prompt, "\n    ", 0)
      && OccursAt(prompt, persona, 5)
      && OccursAt(prompt, IngredientsLead, 5 + |persona|)
      && OccursAt(prompt, ingredients, start)
      && OccursAt(prompt, ".\n    ", start + |ingredients|)
      && OccursAt(prompt, clause, start + |ingredients| + 6)
      && |prompt| == start + |ingredients| + 6 + |clause| + |block|
      && OccursAt(prompt, block, |prompt| - |block|)
  {
  }

  /** The two directives that set the grocery fallback's flag and title
      each sit on their own line of the special condition. */
  lemma GroceryDirectivesInBlock()
    ensures OccursAt(GroceryBlock, SetGroceryFlag, 3 + |SpecialConditionHeading|)
    ensures OccursAt(GroceryBlock, SetGroceryTitle, 4 + |SpecialConditionHeading| + |SetGroceryFlag|)
  {
    BlockLayout(SpecialConditionHeading, SetGroceryFlag, SetGroceryTitle,
                SetGroceryTagline, SetShoppingList, SetGroceryTrip, SetGroceryRoast);
  }

  /** `GroceryDirectivesInBlock` for arbitrary lines. */
  lemma BlockLayout(l0: string, l1: string, l2: string, l3: string, l4: string, l5: string, l6: string)
    ensures
      var block := "\n\n" + (l0 + "\n" + l1 + "\n" + l2 + "\n" + l3 + "\n" + l4 + "\n" + l5 + "\n" + l6) + "\n  ";
      && OccursAt(block, l1, 3 + |l0|)
      && OccursAt(block, l2, 4 + |l0| + |l1|)
  {
  }

  /** Every prompt, whatever the persona, ingredients or backstory clause,
      contains each of them and the directives that set `is_grocery` and
      the grocery title. */
  lemma PromptIncludesEveryPart(persona: string, ingredients: string, clause: string)
    ensures
      var prompt := Template(persona, ingredients, clause);
      && Includes(prompt, persona)
      && Includes(prompt, ingredients)
      && Includes(prompt, clause)
      && Includes(prompt, SetGroceryFlag)
      && Includes(prompt, SetGroceryTitle)
  {
    GroceryDirectivesInBlock();
    TemplateIncludes(persona, ingredients, clause, GroceryBlock,
                     3 + |SpecialConditionHeading|, 4 + |SpecialConditionHeading| + |SetGroceryFlag|);
  }

  /** `PromptIncludesEveryPart` for arbitrary parts. */
  lemma TemplateIncludes(persona: string, ingredients: string, clause: string, block: string,
                         flagAt: int, titleAt: int)
    requires OccursAt(block, SetGroceryFlag, flagAt) && OccursAt(block, SetGroceryTitle, titleAt)
    ensures
      var prompt := TemplateWith(persona, ingredients, clause, block);
      && Includes(prompt, persona)
      && Includes(prompt, ingredients)
      && Includes(prompt, clause)
      && Includes(prompt, SetGroceryFlag)
      && Includes(prompt, SetGroceryTitle)
  {
    var prompt := TemplateWith(persona, ingredients, clause, block);
    var start := 5 + |persona| + |IngredientsLead|;
    SpliceLayout(persona, ingredients, clause, block);
    IncludedAt(prompt, persona, 5);
    IncludedAt(prompt, ingredients, start);
    IncludedAt(prompt, clause, start + |ingredients| + 6);
    IncludedWithin(prompt, block, |prompt| - |block|, SetGroceryFlag, flagAt);
    IncludedWithin(prompt, block, |prompt| - |block|, SetGroceryTitle, titleAt);
  }

  /** The two backstory clauses differ in their second-to-last character
      ("exists." against "field."). */
  lemma BackstoryClauseEnding(includeBackstory: bool)
    ensures
      var clause := BackstoryPrompt(includeBackstory);
      clause[|clause| - 2] == if includeBackstory then 's' else 'd'
  {
  }

  /** For a fixed persona the prompt determines the rest of the request:
      the ingredients and the backstory flag can be read back from it. */
  lemma PromptInjective(persona: string, x: string, y: string, f: bool, g: bool)
    ensures Template(persona, x, BackstoryPrompt(f)) == Template(persona, y, BackstoryPrompt(g))
            <==> x == y && f == g
  {
    if Template(persona, x, BackstoryPrompt(f)) == Template(persona, y, BackstoryPrompt(g)) {
      BackstoryClauseEnding(f);
      BackstoryClauseEnding(g);
      SpliceInjective("\n    " + persona + IngredientsLead, x, y,
                      BackstoryPrompt(f), BackstoryPrompt(g), GroceryBlock);
    }
  }

  /** The start of the word after "You are a " in each style's persona:
      "pretentious", "chaotic", "creative" and "pragmatic". */
  function OpeningOf(style: CookingStyle): string
  {
    match style
    case Gourmet => "pre"
    case Hilarious => "cha"
    case Indian => "cre"
    case Easy => "pra"
  }

  /** Characters 10 to 12 of each persona are its style's opening, and the
      four openings differ, so they tell the four styles apart. */
  lemma PersonaOpening(s: CookingStyle, t: CookingStyle)
    ensures |StylePrompt(StyleTag(s))| >= 13
    ensures StylePrompt(StyleTag(s))[10..13] == OpeningOf(s)
    ensures OpeningOf(s) == OpeningOf(t) <==> s == t
  {
    match s
    case Gourmet => GourmetOpening();
    case Hilarious => HilariousOpening();
    case Indian => IndianOpening();
    case Easy => PragmaticOpening();
  }

  /** Each persona constant, looked at on its own: its characters 10 to 12. */
  lemma GourmetOpening()
    ensures |GourmetPersona| >= 13 && GourmetPersona[10..13] == "pre"
  {
    assert GourmetPersona[10] == 'p' && GourmetPersona[11] == 'r' && GourmetPersona[12] == 'e';
  }

  lemma HilariousOpening()
    ensures |HilariousPersona| >= 13 && HilariousPersona[10..13] == "cha"
  {
    assert HilariousPersona[10] == 'c' && HilariousPersona[11] == 'h' && HilariousPersona[12] == 'a';
  }

  lemma IndianOpening()
    ensures |IndianPersona| >= 13 && IndianPersona[10..13] == "cre"
  {
    assert IndianPersona[10] == 'c' && IndianPersona[11] == 'r' && IndianPersona[12] == 'e';
  }

  lemma PragmaticOpening()
    ensures |PragmaticPersona| >= 13 && PragmaticPersona[10..13] == "pra"
  {
    assert PragmaticPersona[10] == 'p' && PragmaticPersona[11] == 'r' && PragmaticPersona[12] == 'a';
  }

  /** Equal prompts start with the same thirteen persona characters,
      whatever block closes them. */
  lemma SamePersonaOpening(pa: string, xa: string, ca: string,
                           pb: string, xb: string, cb: string, block: string)
    requires |pa| >= 13 && |pb| >= 13
    requires TemplateWith(pa, xa, ca, block) == TemplateWith(pb, xb, cb, block)
    ensures pa[10..13] == pb[10..13]
  {
    var prompt := TemplateWith(pa, xa, ca, block);
    SpliceLayout(pa, xa, ca, block);
    SpliceLayout(pb, xb, cb, block);
    assert pa[10..13] == prompt[15..18] by {
      assert prompt[5..5 + |pa|][10..13] == prompt[15..18];
    }
    assert pb[10..13] == prompt[15..18] by {
      assert prompt[5..5 + |pb|][10..13] == prompt[15..18];
    }
  }

  /** Two requests with the same prompt have the same cooking style. */
  lemma PromptDeterminesStyle(p: GenerateRecipeParams, q: GenerateRecipeParams)
    requires BuildPrompt(p) == BuildPrompt(q)
    ensures p.style == q.style
  {
    PersonaOpening(p.style, q.style);
    PersonaOpening(q.style, p.style);
    SamePersonaOpening(StylePrompt(StyleTag(p.style)), p.ingredients, BackstoryPrompt(p.includeBackstory),
                       StylePrompt(StyleTag(q.style)), q.ingredients, BackstoryPrompt(q.includeBackstory),
                       GroceryBlock);
  }

  /** No two requests share a prompt: style, ingredients and backstory
      flag can all be read back from the instruction sent to the model. */
  lemma BuildPromptInjective(p: GenerateRecipeParams, q: GenerateRecipeParams)
    ensures BuildPrompt(p) == BuildPrompt(q) <==> p == q
  {
    if BuildPrompt(p) == BuildPrompt(q) {
      PromptDeterminesStyle(p, q);
      PromptInjective(StylePrompt(StyleTag(p.style)), p.ingredients, q.ingredients,
                      p.includeBackstory, q.includeBackstory);
    }
  }

  /** Text spliced between a fixed head and a tail `".\n    " + clause +
      block` is recovered from the whole, and so is the clause when the
      candidate clauses differ in their second-to-last character. */
  lemma SpliceInjective(head: string, x: string, y: string, cx: string, cy: string, block: string)
    requires |cx| >= 2 && |cy| >= 2
    requires cx[|cx| - 2] == cy[|cy| - 2] ==> cx == cy
    requires head + x + (".\n    " + cx + block) == head + y + (".\n    " + cy + block)
    ensures x == y && cx == cy
  {
    var px := head + x + (".\n    " + cx + block);
    var k := |px| - |block| - 2;
    assert px[k] == cx[|cx| - 2];
    var py := head + y + (".\n    " + cy + block);
    assert py[k] == cy[|cy| - 2];
    assert |x| == |y|;
    assert x == px[|head|..|head| + |x|];
  }

  // ---------------------------------------------------------------------------
  // Response schema
  // ---------------------------------------------------------------------------

  /** The primitive and array types a schema field can declare. */
  datatype SchemaType = BooleanType | StringType | ArrayType(items: SchemaType)

  /** An object schema: declared properties and the names that must be present. */
  datatype ObjectSchema = ObjectSchema(properties: map<string, SchemaType>, required: seq<string>)

  /** The structured-output contract sent with every request. */
  const ResponseSchema := ObjectSchema(
    map[
      "is_grocery" := BooleanType,
      "title" := StringType,
      "tagline" := StringType,
      "ingredients_list" := ArrayType(StringType),
      "steps" := ArrayType(StringType),
      "backstory" := StringType,
      "chef_comment" := StringType],
    ["is_grocery", "title", "ingredients_list", "steps", "chef_comment"])

  /** The JSON values a schema-conforming answer is made of. */
  datatype JsonValue = JsonBool(b: bool) | JsonString(s: string) | JsonArray(elements: seq<JsonValue>)

  predicate HasType(v: JsonValue, t: SchemaType)
  {
    match t
    case BooleanType => v.JsonBool?
    case StringType => v.JsonString?
    case ArrayType(items) =>
      v.JsonArray? && forall i | 0 <= i < |v.elements| :: HasType(v.elements[i], items)
  }

  /** A JSON object satisfies an object schema: every required name is
      present and every declared name that is present has its declared type. */
  predicate Conforms(obj: map<string, JsonValue>, schema: ObjectSchema)
  {
    && (forall name | name in schema.required :: name in obj)
    && (forall name | name in obj && name in schema.properties ::
          HasType(obj[name], schema.properties[name]))
  }

  function JsonStrings(xs: seq<string>): JsonValue
  {
    JsonArray(seq(|xs|, i requires 0 <= i < |xs| => JsonString(xs[i])))
  }

  /** The JSON object a recipe is read from: each field under its own key. */
  function RecipeJson(r: Recipe): map<string, JsonValue>
  {
    map[
      "is_grocery" := JsonBool(r.is_grocery),
      "title" := JsonString(r.title),
      "tagline" := JsonString(r.tagline),
      "ingredients_list" := JsonStrings(r.ingredients_list),
      "steps" := JsonStrings(r.steps),
      "backstory" := JsonString(r.backstory),
      "chef_comment" := JsonString(r.chef_comment)]
  }

  /** The schema declares exactly the seven recipe fields with their types,
      so every recipe, read back as JSON, conforms to it. */
  lemma RecipeConformsToSchema(r: Recipe)
    ensures RecipeJson(r).Keys == ResponseSchema.properties.Keys
    ensures Conforms(RecipeJson(r), ResponseSchema)
  {
  }

  /** Every required name is declared; `tagline` and `backstory` are
      declared but not required, so an answer may leave both out. */
  lemma SchemaRequiredFields(r: Recipe)
    ensures forall name | name in ResponseSchema.required :: name in ResponseSchema.properties
    ensures "tagline" in ResponseSchema.properties && "tagline" !in ResponseSchema.required
    ensures "backstory" in ResponseSchema.properties && "backstory" !in ResponseSchema.required
    ensures Conforms(RecipeJson(r) - {"tagline", "backstory"}, ResponseSchema)
  {
  }

  // ---------------------------------------------------------------------------
  // The service request
  // ---------------------------------------------------------------------------

  const ModelName := "gemini-2.5-flash"
  const ResponseMimeType := "application/json"

  /** The arguments of the single `generateContent` call. */
  datatype GenerateContentRequest = GenerateContentRequest(
    model: string,
    contents: string,
    responseMimeType: string,
    responseSchema: ObjectSchema)

  /** The request for a prompt: every other argument is fixed. */
  function BuildRequest(prompt: string): GenerateContentRequest
  {
    GenerateContentRequest(ModelName, prompt, ResponseMimeType, ResponseSchema)
  }

  /** Model, response format and schema are the same for every request,
      and two requests differ exactly when their prompts do. */
  lemma OnlyThePromptVaries(p: string, q: string)
    ensures BuildRequest(p).model == BuildRequest(q).model == ModelName
    ensures BuildRequest(p).responseMimeType == BuildRequest(q).responseMimeType == ResponseMimeType
    ensures BuildRequest(p).responseSchema == BuildRequest(q).responseSchema == ResponseSchema
    ensures BuildRequest(p) == BuildRequest(q) <==> p == q
  {
  }

  // ---------------------------------------------------------------------------
  // Outcome of the call and error classification
  // ---------------------------------------------------------------------------

  /** What the single service call produced: a response whose `text` may be
      missing, or a rejection carrying an error whose `message` may be missing. */
  datatype ServiceOutcome = Responded(text: Option<string>) | Rejected(message: Option<string>)

  const NoContentMessage := "No content " + "generated."
  const RateLimitCode := "429"
  const RateLimitMessage :=
    "Too many chefs in the kitchen "
    + "(Rate Limit). Please wait a moment."
  const ApiErrorFallback := "The oven exploded " + "(API Error)."

  /** The `try` block after the call: a missing or empty text throws
      "No content generated.", otherwise the text is parsed. A failure
      carries the `message` of what was thrown. */
  function TryGenerate(outcome: ServiceOutcome, parse: string -> Result<Recipe, string>)
    : Result<Recipe, Option<string>>
  {
    match outcome
    case Rejected(message) => Failure(message)
    case Responded(text) =>
      if text.None? || text.value == "" then Failure(Some(NoContentMessage))
      else
        match parse(text.value)
        case Success(recipe) => Success(recipe)
        case Failure(message) => Failure(Some(message))
  }

  /** None of the three fixed messages mentions the rate-limit code, so the
      `catch` passes each of them through unchanged. */
  lemma NoContentMessageLacksCode()
    ensures !Includes(NoContentMessage, RateLimitCode)
  {
    NotIncludedWithoutFirstChar(NoContentMessage, RateLimitCode);
  }

  lemma ApiErrorFallbackLacksCode()
    ensures !Includes(ApiErrorFallback, RateLimitCode)
  {
    NotIncludedWithoutFirstChar(ApiErrorFallback, RateLimitCode);
  }

  lemma RateLimitMessageLacksCode()
    ensures !Includes(RateLimitMessage, RateLimitCode)
  {
    RateLimitMessageLacksFour();
    NotIncludedWithoutFirstChar(RateLimitMessage, RateLimitCode);
  }

  lemma RateLimitMessageLacksFour()
    ensures '4' !in RateLimitMessage
  {
  }

  /** The `catch` block: the message of the error it rethrows. The result is
      never empty and never itself signals a rate limit. */
  function CaughtMessage(message: Option<string>): (rethrown: string)
    ensures rethrown != ""
    ensures !Includes(rethrown, RateLimitCode)
  {
    RateLimitMessageLacksCode();
    ApiErrorFallbackLacksCode();
    if message.Some? && Includes(message.value, RateLimitCode) then RateLimitMessage
    else if message.Some? && message.value != "" then message.value
    else ApiErrorFallback
  }

  /** The whole handling of one outcome: a recipe, or the rethrown message. */
  function HandleOutcome(outcome: ServiceOutcome, parse: string -> Result<Recipe, string>)
    : Result<Recipe, string>
  {
    match TryGenerate(outcome, parse)
    case Success(recipe) => Success(recipe)
    case Failure(message) => Failure(CaughtMessage(message))
  }

  /** `generateRecipe`: one call to the service with the built request, one
      attempt, and the handling of its outcome. `service` stands for the
      remote model and `parse` for `JSON.parse`. */
  function GenerateRecipe(params: GenerateRecipeParams,
                          service: GenerateContentRequest -> ServiceOutcome,
                          parse: string -> Result<Recipe, string>): Result<Recipe, string>
  {
    HandleOutcome(service(BuildRequest(BuildPrompt(params))), parse)
  }

  // ---------------------------------------------------------------------------
  // Properties of the error handling
  // ---------------------------------------------------------------------------

  /** The catch's classification, read backwards from what it rethrows: the
      rate-limit message comes only from a message that contains "429" (or
      already is that text), the fallback only from a missing or empty
      message (or the fallback text itself), and anything else is the
      caught message unchanged. */
  lemma CatchClassification(message: Option<string>)
    ensures CaughtMessage(message) == RateLimitMessage <==>
      message.Some? && (Includes(message.value, RateLimitCode) || message.value == RateLimitMessage)
    ensures CaughtMessage(message) == ApiErrorFallback <==>
      message.None? || message.value == "" || message.value == ApiErrorFallback
    ensures CaughtMessage(message) !in {RateLimitMessage, ApiErrorFallback} ==>
      message == Some(CaughtMessage(message))
  {
    if message.Some? && !Includes(message.value, RateLimitCode) && message.value != "" {
      // the message comes back unchanged, whatever text it is
      assert CaughtMessage(message) == message.value;
    } else {
      RateLimitMessageLacksCode();
      ApiErrorFallbackLacksCode();
    }
  }

  /** Rethrowing a message through the same `catch` leaves it unchanged. */
  lemma CatchIdempotent(message: Option<string>)
    ensures CaughtMessage(Some(CaughtMessage(message))) == CaughtMessage(message)
  {
  }

  /** A recipe comes back exactly when the service answered with a non-empty
      text that parses, and it is the parsed value itself. */
  lemma SucceedsExactlyWhenParsed(params: GenerateRecipeParams,
                                  service: GenerateContentRequest -> ServiceOutcome,
                                  parse: string -> Result<Recipe, string>, recipe: Recipe)
    ensures GenerateRecipe(params, service, parse) == Success(recipe) <==>
      var outcome := service(BuildRequest(BuildPrompt(params)));
      && outcome.Responded? && outcome.text.Some? && outcome.text.value != ""
      && parse(outcome.text.value) == Success(recipe)
  {
  }

  /** A missing or empty response text fails with exactly "No content
      generated.": the catch sees no "429" in it and rethrows it as is. */
  lemma EmptyResponseFails(text: Option<string>, parse: string -> Result<Recipe, string>)
    requires text.None? || text.value == ""
    ensures HandleOutcome(Responded(text), parse) == Failure(NoContentMessage)
  {
    NoContentMessageLacksCode();
  }

  /** A rejection whose message contains "429" becomes the rate-limit message. */
  lemma RateLimitedRejection(message: string, parse: string -> Result<Recipe, string>)
    requires Includes(message, RateLimitCode)
    ensures HandleOutcome(Rejected(Some(message)), parse) == Failure(RateLimitMessage)
  {
  }

  /** So does a parse error whose message contains "429": `JSON.parse` runs
      inside the same `try`. */
  lemma RateLimitedParseError(text: string, parse: string -> Result<Recipe, string>, error: string)
    requires text != "" && parse(text) == Failure(error) && Includes(error, RateLimitCode)
    ensures HandleOutcome(Responded(Some(text)), parse) == Failure(RateLimitMessage)
  {
  }

  /** Any other rejection keeps its own message when it has a non-empty one
      and otherwise gets the fallback; a missing message never counts as a
      rate limit. */
  lemma OtherRejection(message: Option<string>, parse: string -> Result<Recipe, string>)
    requires message.None? || !Includes(message.value, RateLimitCode)
    ensures HandleOutcome(Rejected(message), parse) ==
      Failure(if message.Some? && message.value != "" then message.value else ApiErrorFallback)
  {
  }

  /** Likewise for a parse error without "429". */
  lemma OtherParseError(text: string, parse: string -> Result<Recipe, string>, error: string)
    requires text != "" && parse(text) == Failure(error) && !Includes(error, RateLimitCode)
    ensures HandleOutcome(Responded(Some(text)), parse) ==
      Failure(if error != "" then error else ApiErrorFallback)
  {
  }

  /** Every failure carries a non-empty message for the user, and none that
      would be taken for a rate limit if it were caught again. */
  lemma FailureIsDisplayable(outcome: ServiceOutcome, parse: string -> Result<Recipe, string>)
    ensures
      var result := HandleOutcome(outcome, parse);
      result.Failure? ==> result.error != "" && !Includes(result.error, RateLimitCode)
  {
  }
}
