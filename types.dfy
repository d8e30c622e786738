/** The shared domain types of the recipe generator. */
module Types {

  /** The persona the user picks for the chef. */
  datatype CookingStyle = Gourmet | Hilarious | Indian | Easy

  /** The string tag a style carries at run time (the TypeScript type is a
      union of string literals). */
  function StyleTag(style: CookingStyle): (tag: string)
    ensures tag in {"gourmet", "hilarious", "indian", "easy"}
  {
    match style
    case Gourmet => "gourmet"
    case Hilarious => "hilarious"
    case Indian => "indian"
    case Easy => "easy"
  }

  /** Distinct styles carry distinct tags, so a tag identifies its style. */
  lemma StyleTagInjective(s: CookingStyle, t: CookingStyle)
    ensures StyleTag(s) == StyleTag(t) <==> s == t
  {
  }

  /** A generated recipe, exactly the seven fields the service is asked for. */
  datatype Recipe = Recipe(
    is_grocery: bool,
    title: string,
    tagline: string,
    ingredients_list: seq<string>,
    steps: seq<string>,
    backstory: string,
    chef_comment: string)

  /** What the caller asks for: free-text ingredients, a persona and whether
      the dish should come with a backstory. */
  datatype GenerateRecipeParams = GenerateRecipeParams(
    ingredients: string,
    style: CookingStyle,
    includeBackstory: bool)
}
