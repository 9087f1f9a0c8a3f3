/**
 * The create page: six form fields with their initial values, the request
 * body built from them, and the select options the category and diet
 * fields offer.
 */
module CreateRecipe {
  import opened Wrappers
  import opened RecipeModels
  import opened Constants

  /** The request body; the form's `dietType` is sent as `diet_type`. */
  datatype RecipePayload = RecipePayload(
    title: string,
    description: string,
    ingredients: string,
    instructions: string,
    category: string,
    dietType: string)

  /** The body as the server reads it: every key is present. */
  function PayloadInput(p: RecipePayload): RecipeInput {
    RecipeInput(Some(p.title), Some(p.category), Some(p.dietType), Some(p.description),
                Some(p.ingredients), Some(p.instructions))
  }

  /** The option values of a select filled from a table. */
  function Codes(table: seq<Choice>): (codes: seq<string>)
    ensures |codes| == |table|
    ensures forall i :: 0 <= i < |table| ==> codes[i] == table[i].code
  {
    if table == [] then [] else [table[0].code] + Codes(table[1..])
  }

  /** The category options as the page lists them: the whole filter table, "All" included. */
  function CategoryOptionsAsWritten(): seq<string> {
    Codes(Categories)
  }

  function DietTypeOptionsAsWritten(): seq<string> {
    Codes(DietTypes)
  }

  /** Choosing "All" submits the empty code, which the server never accepts. */
  lemma AllOptionIsRejected(p: RecipePayload)
    requires p.category == CategoryOptionsAsWritten()[0] || p.dietType == DietTypeOptionsAsWritten()[0]
    ensures "" in CategoryOptionsAsWritten() && "" in DietTypeOptionsAsWritten()
    ensures Validate(PayloadInput(p)).Rejected?
  {
    assert ParseCategory("") == None && ParseDietType("") == None;
  }

  /** The category options without the filter-only "All" entry. */
  function CategoryOptions(): seq<string> {
    Codes(Categories[1..])
  }

  function DietTypeOptions(): seq<string> {
    Codes(DietTypes[1..])
  }

  /** Every option the corrected selects offer is a code the server accepts, and every code is offered. */
  lemma OptionsAreServerChoices()
    ensures forall code :: code in CategoryOptions() <==> ParseCategory(code).Some?
    ensures forall code :: code in DietTypeOptions() <==> ParseDietType(code).Some?
  {
    TablesMatchBackendChoices();
    forall code | ParseCategory(code).Some?
      ensures code in CategoryOptions()
    {
      var i := CategoryIndex(ParseCategory(code).value);
      assert CategoryOptions()[i] == code;
    }
    forall code | ParseDietType(code).Some?
      ensures code in DietTypeOptions()
    {
      var i := DietTypeIndex(ParseDietType(code).value);
      assert DietTypeOptions()[i] == code;
    }
  }

  /** What the server needs of the four text fields, once it has trimmed them. */
  predicate TextFieldsOk(p: RecipePayload) {
    && 0 < |Trim(p.title)| <= TitleMaxLength && Trim(p.ingredients) != "" && Trim(p.instructions) != ""
    && NullFree(Trim(p.title)) && NullFree(Trim(p.ingredients)) && NullFree(Trim(p.instructions))
    && NullFree(Trim(p.description))
  }

  /**
   * A body whose choices come from the corrected selects is accepted
   * exactly when its trimmed text fields are, and the row gets the trimmed
   * text and the chosen category and diet type.
   */
  lemma PayloadAcceptance(p: RecipePayload)
    requires p.category in CategoryOptions() && p.dietType in DietTypeOptions()
    ensures Validate(PayloadInput(p)).Accepted? <==> TextFieldsOk(p)
    ensures Validate(PayloadInput(p)).Accepted? ==>
      && CategoryCode(Validate(PayloadInput(p)).fields.category) == p.category
      && DietTypeCode(Validate(PayloadInput(p)).fields.dietType) == p.dietType
      && Validate(PayloadInput(p)).fields.title == Trim(p.title)
      && Validate(PayloadInput(p)).fields.ingredients == Trim(p.ingredients)
      && Validate(PayloadInput(p)).fields.instructions == Trim(p.instructions)
      && Validate(PayloadInput(p)).fields.description == Some(Trim(p.description))
  {
    OptionsAreServerChoices();
  }

  /** The form's initial choices, "BR" and "NON", are among the offered options. */
  lemma InitialChoicesAreOffered()
    ensures "BR" in CategoryOptions() && "NON" in DietTypeOptions()
  {
    OptionsAreServerChoices();
    assert ParseCategory("BR").Some? && ParseDietType("NON").Some?;
  }

  /** The value of a string of decimal digits, most significant first. */
  function DigitsValue(s: string): nat
    requires forall i :: 0 <= i < |s| ==> '0' <= s[i] <= '9'
  {
    if s == [] then 0 else 10 * DigitsValue(s[..|s| - 1]) + (s[|s| - 1] - '0') as nat
  }

  /**
   * The decimal digits of a natural number, as a template string prints an
   * id: they read back as `n`, and only zero itself starts with `0`.
   */
  function DecimalText(n: nat): (s: string)
    ensures |s| > 0
    ensures forall i :: 0 <= i < |s| ==> '0' <= s[i] <= '9'
    ensures DigitsValue(s) == n
    ensures s[0] == '0' ==> n == 0 && s == "0"
  {
    var digit := ['0' + (n % 10) as char];
    if n < 10 then digit
    else
      var s := DecimalText(n / 10) + digit;
      assert s[..|s| - 1] == DecimalText(n / 10);
      s
  }

  /** The page's fields and location. */
  class CreateRecipeForm {
    var title: string
    var description: string
    var ingredients: string
    var instructions: string
    var category: string
    var dietType: string
    var location: string

    constructor(location: string)
      ensures title == "" && description == "" && ingredients == "" && instructions == ""
      ensures category == "BR" && dietType == "NON" && this.location == location
    {
      title, description, ingredients, instructions := "", "", "", "";
      category, dietType := "BR", "NON";
      this.location := location;
    }

    /** The body built from the current fields. */
    function Payload(): (p: RecipePayload)
      reads this
      ensures p.title == title && p.description == description && p.ingredients == ingredients
      ensures p.instructions == instructions && p.category == category && p.dietType == dietType
    {
      RecipePayload(title, description, ingredients, instructions, category, dietType)
    }

    method SetText(title: string, description: string, ingredients: string, instructions: string)
      modifies this
      ensures this.title == title && this.description == description
      ensures this.ingredients == ingredients && this.instructions == instructions
      ensures category == old(category) && dietType == old(dietType) && location == old(location)
    {
      this.title, this.description := title, description;
      this.ingredients, this.instructions := ingredients, instructions;
    }

    /** Picking the `i`-th option of the category select, "All" (index 0) included. */
    method SelectCategory(i: nat)
      requires i < |CategoryOptionsAsWritten()|
      modifies this
      ensures category == CategoryOptionsAsWritten()[i]
      ensures title == old(title) && description == old(description) && ingredients == old(ingredients)
      ensures instructions == old(instructions) && dietType == old(dietType) && location == old(location)
    {
      category := CategoryOptionsAsWritten()[i];
    }

    /** Picking the `i`-th option of the diet select, "All" (index 0) included. */
    method SelectDietType(i: nat)
      requires i < |DietTypeOptionsAsWritten()|
      modifies this
      ensures dietType == DietTypeOptionsAsWritten()[i]
      ensures title == old(title) && description == old(description) && ingredients == old(ingredients)
      ensures instructions == old(instructions) && category == old(category) && location == old(location)
    {
      dietType := DietTypeOptionsAsWritten()[i];
    }

    /** The inputs marked `required` (title, ingredients, instructions) all hold a value. */
    predicate RequiredFilled()
      reads this
    {
      title != "" && ingredients != "" && instructions != ""
    }

    /**
     * Submitting the form: with a required input empty the browser sends
     * nothing and the page stays as it is; otherwise `handleSubmit` runs.
     */
    method Submit(created: Option<nat>) returns (body: Option<RecipePayload>)
      modifies this
      ensures Payload() == old(Payload())
      ensures !old(RequiredFilled()) ==> body.None? && location == old(location)
      ensures old(RequiredFilled()) ==>
        && body == Some(old(Payload()))
        && (created.Some? ==> location == "/recipes/" + DecimalText(created.value))
        && (created.None? ==> location == old(location))
    {
      if !RequiredFilled() {
        return None;
      }
      var sent := HandleSubmit(created);
      body := Some(sent);
    }

    /** `handleSubmit`: post the body; a created recipe's id leads to its page, a failure stays. */
    method HandleSubmit(created: Option<nat>) returns (body: RecipePayload)
      modifies this
      ensures body == old(Payload()) && Payload() == old(Payload())
      ensures created.Some? ==> location == "/recipes/" + DecimalText(created.value)
      ensures created.None? ==> location == old(location)
    {
      body := Payload();
      if created.Some? {
        location := "/recipes/" + DecimalText(created.value);
      }
    }
  }
}
