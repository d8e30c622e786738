# The Alchemical Fridge: recipe generation service

This project models `generateRecipe`, the one service function of The
Alchemical Fridge. It turns a user's ingredients, a cooking style and a
backstory flag into an instruction for the Gemini model, sends it with a
fixed JSON response schema, and returns the parsed recipe. On failure it
rethrows a user-facing message. The model is pure: functions over values
plus lemmas about them.

- `Types` (`types.dfy`) holds the cooking styles, the recipe record and the
  request parameters of `types.ts`. The TypeScript string-literal union
  `CookingStyle` becomes a datatype, and `StyleTag` gives each style's
  runtime string.
- `Strings` (`strings.dfy`) holds `Includes`, the substring test behind
  `String.prototype.includes`. It is proved equal to "occurs at some index".
- `GeminiService` (`gemini_service.dfy`) holds the rest, in source order:
  - the persona `switch` and the backstory clause;
  - the prompt template (`Template`, filled by `BuildPrompt`);
  - the response schema and the request (`BuildRequest`);
  - the `try` block (`TryGenerate`) and the `catch` block (`CaughtMessage`);
  - their composition, `GenerateRecipe`.
- `Wrappers` (`wrappers.dfy`) holds `Option` and `Result`.

The `switch` compares the runtime string, because TypeScript types are
erased. So `StylePrompt` takes a string: the `default` branch covers `'easy'`
and every other string.

The remote model and `JSON.parse` are function parameters of
`GenerateRecipe`:
- `service` maps a request to a `ServiceOutcome`. That is either a response
  whose `text` may be missing, or a rejection whose `message` may be missing.
- `parse` maps a text to a recipe or to an error message.

Everything the adapter does with these results is modelled exactly:
- The empty-text check.
- The fact that a parse error and the "No content generated." error both pass
  through the same `catch`.
- The `'429'` substring test.
- The `error.message || fallback` choice, in which an empty message also
  falls back.

There are no separate error kinds. The code carries only a message string
and classifies a rate limit by a substring test, so the model does the same:
a failure is a `Result.Failure` holding the rethrown message.

## Model

| member | source | states |
|---|---|---|
| `Types.StyleTag` | types.ts:1 | each cooking style has one of the four runtime tags 'gourmet', 'hilarious', 'indian', 'easy' |
| `Types.StyleTagInjective` | types.ts:1 | two styles have the same tag exactly when they are the same style |
| `Strings.Includes` | geminiService.ts:80 | the substring test `String.prototype.includes`; no contract of its own, its meaning ("occurs at some index", both directions) is `Strings.IncludesIffOccurs` |
| `Strings.IncludesIffOccurs` | geminiService.ts:80 | the substring test used by the catch holds exactly when the text occurs at some index |
| `GeminiService.StylePrompt` | geminiService.ts:12-25 | the `switch` on the runtime style tag with its `default`; no contract of its own, its behaviour is stated by `PersonaSelection` and `StylePersonasDistinct` |
| `GeminiService.PersonaSelection` | geminiService.ts:12-25 | for each of 'gourmet', 'hilarious' and 'indian', that tag and only that tag selects its persona; the pragmatic persona is chosen exactly for every other tag, 'easy' included |
| `GeminiService.StylePersonasDistinct` | geminiService.ts:12-25 | the four cooking styles get four pairwise different personas |
| `GeminiService.BackstoryPrompt` | geminiService.ts:27-29 | the backstory ternary; no contract of its own, stated by `BackstoryChoice` and `BackstoryClauseEnding` |
| `GeminiService.BackstoryChoice` | geminiService.ts:27-29 | the story request is chosen exactly when a backstory is wanted, and the "no backstory" clause exactly when it is not |
| `GeminiService.BackstoryClauseEnding` | geminiService.ts:27-29 | the two clauses differ in their second-to-last character, so the flag can be read off the clause |
| `GeminiService.TemplateWith` | geminiService.ts:31-43 | the backtick template with the closing block as a parameter; no contract of its own, its shape is stated by `SpliceLayout` and used by the template lemmas below |
| `GeminiService.Template` | geminiService.ts:31-43 | the template closed by the grocery block; no contract of its own, stated by `PromptLayout`, `PromptIncludesEveryPart` and `PromptInjective` |
| `GeminiService.BuildPrompt` | geminiService.ts:12-43 | the prompt of one request: the template filled with the style's persona and the flag's clause; no contract of its own, stated by `BuildPromptInjective` and, through `Template`, by the layout lemmas |
| `GeminiService.PromptLayout` | geminiService.ts:31-43 | for every persona, ingredients and clause, the prompt is exactly: a line break and indentation, the persona, the ingredients lead, the verbatim ingredients, ".", a new indented line, the clause and the grocery block; it gives the exact length, and the grocery block closes every prompt |
| `GeminiService.GroceryDirectivesInBlock` | geminiService.ts:36-38 | the directives that set "is_grocery" to true and the title to "Time to Buy Groceries" each sit on their own line of the special condition, at a stated offset |
| `GeminiService.PromptIncludesEveryPart` | geminiService.ts:31-43 | every prompt contains its persona, the ingredients, its backstory clause and both grocery directives |
| `GeminiService.PromptInjective` | geminiService.ts:31-43 | with the persona fixed, two prompts are equal exactly when the ingredients and the backstory flags are equal |
| `GeminiService.PersonaOpening` | geminiService.ts:12-25 | characters 10 to 12 of each style's persona ("pre", "cha", "cre", "pra") differ from style to style |
| `GeminiService.PromptDeterminesStyle` | geminiService.ts:12-43 | two requests with the same prompt have the same cooking style |
| `GeminiService.BuildPromptInjective` | geminiService.ts:12-43 | two requests get the same prompt exactly when they have the same style, ingredients and backstory flag |
| `GeminiService.RecipeConformsToSchema` | geminiService.ts:51-68 | the schema declares exactly the seven recipe fields, and every recipe, read as JSON, conforms to it with each field's declared type |
| `GeminiService.SchemaRequiredFields` | geminiService.ts:68 | every required name is declared; 'tagline' and 'backstory' are declared but not required, so an answer without them still conforms |
| `GeminiService.BuildRequest` | geminiService.ts:46-71 | the arguments of the `generateContent` call for a prompt; no contract of its own, stated by `OnlyThePromptVaries` |
| `GeminiService.OnlyThePromptVaries` | geminiService.ts:46-71 | every request names model "gemini-2.5-flash", MIME type "application/json" and the same schema; two requests are equal exactly when their prompts are |
| `GeminiService.TryGenerate` | geminiService.ts:45-76 | the `try` block: the empty-text check and the parse; no contract of its own, stated through `HandleOutcome` by `SucceedsExactlyWhenParsed` and `EmptyResponseFails` |
| `GeminiService.HandleOutcome` | geminiService.ts:45-84 | the `try` block followed by the `catch`; no contract of its own, stated by `CatchClassification`, `EmptyResponseFails`, the rejection and parse-error lemmas and `FailureIsDisplayable` |
| `GeminiService.GenerateRecipe` | geminiService.ts:4-85 | `generateRecipe`: one service call with the built request, then the handling of its outcome; no contract of its own, stated by `SucceedsExactlyWhenParsed` |
| `GeminiService.NoContentMessageLacksCode` | geminiService.ts:74 | "No content generated." does not contain "429" |
| `GeminiService.RateLimitMessageLacksCode` | geminiService.ts:81 | the rate-limit message does not itself contain "429" |
| `GeminiService.ApiErrorFallbackLacksCode` | geminiService.ts:83 | the fallback message does not contain "429" |
| `GeminiService.CaughtMessage` | geminiService.ts:78-83 | the message the catch rethrows is never empty and never contains "429" |
| `GeminiService.CatchClassification` | geminiService.ts:80-83 | the catch yields the rate-limit message exactly for a message containing "429" (or that text itself), and the fallback exactly for a missing or empty message (or the fallback text itself); any other result is the caught message unchanged |
| `GeminiService.CatchIdempotent` | geminiService.ts:78-83 | passing a rethrown message through the catch again leaves it unchanged |
| `GeminiService.SucceedsExactlyWhenParsed` | geminiService.ts:45-76 | generation returns a recipe exactly when the service answered with a non-empty text that parses, and the recipe is the parsed value |
| `GeminiService.EmptyResponseFails` | geminiService.ts:73-74 | a missing or empty response text fails with exactly "No content generated." |
| `GeminiService.RateLimitedRejection` | geminiService.ts:80-81 | a rejection whose message contains "429" fails with the rate-limit message |
| `GeminiService.RateLimitedParseError` | geminiService.ts:76-81 | a parse error whose message contains "429" also fails with the rate-limit message, because parsing runs inside the same try |
| `GeminiService.OtherRejection` | geminiService.ts:80-83 | a rejection without "429" fails with its own message if that is non-empty, else with "The oven exploded (API Error)." |
| `GeminiService.OtherParseError` | geminiService.ts:76-83 | a parse error without "429" fails with its own message if non-empty, else with the fallback |
| `GeminiService.FailureIsDisplayable` | geminiService.ts:78-83 | every failure carries a non-empty message that would not read as a rate limit if caught again |

## Left out

- The React front end (`App.tsx`) is not part of this model. It only calls `generateRecipe` and shows its result or its message.
- Creating the client from the `API_KEY` environment variable (geminiService.ts:10) is left out. It is configuration outside the `try`, and it has no branch of its own.
- The network call, and anything the remote model decides, is the `service` parameter. The model does not capture whether the answer sets `is_grocery` for inadequate ingredients, since the prompt only asks for it.
- `JSON.parse` is the `parse` parameter. A parsed recipe is taken to have every field. The `as Recipe` cast checks nothing, so a real answer could lack `tagline` or `backstory`, and the model does not represent such a partial recipe.
- The `console.error` logging has no effect on the result and is left out.
- `async`/`await` and the promise wrapper are left out. The model has one call and one outcome, with no concurrency.
- A thrown value that is `null` or `undefined`, or whose `message` is present but is not a string, is not modelled. The model has only a present or missing message string, and its `Rejected(None)` always yields "The oven exploded (API Error).". In the source, the outcome depends on the value:
  - `null` or `undefined`: `error.message` at geminiService.ts:80 throws a `TypeError` of its own, so the `catch` classifies nothing.
  - A number, a boolean or a plain object as `message`: `error.message?.includes` at line 80 throws a `TypeError` the same way.
  - An array as `message`: it is searched element by element by `Array.prototype.includes`, so `['429']` reaches the rate-limit branch. Otherwise line 83 rethrows the array's `String(...)` form, which is empty for `[]` because an empty array is truthy.
- A Dafny `string` is a sequence of Unicode scalar values, while a JavaScript string is a sequence of UTF-16 code units. Concatenation, equality and the ASCII search for "429" behave the same either way. But the lengths and offsets in `PromptLayout` count code points, so they differ from JavaScript's `.length` when the ingredients contain characters outside the Basic Multilingual Plane (an emoji, say). A lone surrogate in the ingredients or in an error message cannot be represented at all.
- The model does not claim that a prompt contains no other style's persona. That is false in general, because the user's ingredients are spliced in verbatim and can contain any text. `PromptLayout` states instead which persona sits in the persona slot.
