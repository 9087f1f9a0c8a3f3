/**
 * The `Recipe` model of the backend: its two choice enums, the column
 * constraints declared on each field, the defaults, and `__str__`.
 */
module RecipeModels {
  import opened Wrappers

  /** `Recipe.Category`, in declaration order. */
  datatype Category = Breakfast | Lunch | Dinner | Dessert | Snack | Other

  /** `Recipe.DietType`, in declaration order. */
  datatype DietType = Veg | NonVeg | Vegan

  const TitleMaxLength: nat := 250
  const CategoryMaxLength: nat := 2
  const DietTypeMaxLength: nat := 3

  const DefaultCategory: Category := Other
  const DefaultDietType: DietType := NonVeg

  /** The stored value of a category; it always fits the column. */
  function CategoryCode(c: Category): (code: string)
    ensures 0 < |code| <= CategoryMaxLength
  {
    match c
    case Breakfast => "BR"
    case Lunch => "LU"
    case Dinner => "DI"
    case Dessert => "DE"
    case Snack => "SN"
    case Other => "OT"
  }

  function CategoryLabel(c: Category): string {
    match c
    case Breakfast => "Breakfast"
    case Lunch => "Lunch"
    case Dinner => "Dinner"
    case Dessert => "Dessert"
    case Snack => "Snack"
    case Other => "Other"
  }

  /** The stored value of a diet type; it always fits the column. */
  function DietTypeCode(d: DietType): (code: string)
    ensures 0 < |code| <= DietTypeMaxLength
  {
    match d
    case Veg => "VEG"
    case NonVeg => "NON"
    case Vegan => "VGN"
  }

  function DietTypeLabel(d: DietType): string {
    match d
    case Veg => "Vegetarian"
    case NonVeg => "Non-Vegetarian"
    case Vegan => "Vegan"
  }

  /** Every member of each enum, in the order `.choices` lists them. */
  const AllCategories: seq<Category> := [Breakfast, Lunch, Dinner, Dessert, Snack, Other]
  const AllDietTypes: seq<DietType> := [Veg, NonVeg, Vegan]

  /** Where a category stands in the choice list: every member is listed. */
  function CategoryIndex(c: Category): (i: nat)
    ensures i < |AllCategories| && AllCategories[i] == c
  {
    match c
    case Breakfast => 0
    case Lunch => 1
    case Dinner => 2
    case Dessert => 3
    case Snack => 4
    case Other => 5
  }

  /** Where a diet type stands in the choice list: every member is listed. */
  function DietTypeIndex(d: DietType): (i: nat)
    ensures i < |AllDietTypes| && AllDietTypes[i] == d
  {
    match d
    case Veg => 0
    case NonVeg => 1
    case Vegan => 2
  }

  /** Choice validation of a submitted category code. */
  function ParseCategory(code: string): (r: Option<Category>)
    ensures forall c :: r == Some(c) <==> CategoryCode(c) == code
  {
    if code == "BR" then Some(Breakfast)
    else if code == "LU" then Some(Lunch)
    else if code == "DI" then Some(Dinner)
    else if code == "DE" then Some(Dessert)
    else if code == "SN" then Some(Snack)
    else if code == "OT" then Some(Other)
    else None
  }

  /** Choice validation of a submitted diet-type code. */
  function ParseDietType(code: string): (r: Option<DietType>)
    ensures forall d :: r == Some(d) <==> DietTypeCode(d) == code
  {
    if code == "VEG" then Some(Veg)
    else if code == "NON" then Some(NonVeg)
    else if code == "VGN" then Some(Vegan)
    else None
  }

  /** A stored recipe row. `description` is nullable; timestamps are integers. */
  datatype Recipe = Recipe(
    id: nat,
    owner: nat,
    title: string,
    category: Category,
    dietType: DietType,
    description: Option<string>,
    ingredients: string,
    instructions: string,
    createdAt: int,
    updatedAt: int)

  /**
   * The column constraints of a row: `title` is a non-blank CharField of at
   * most 250 characters, `ingredients` and `instructions` are non-blank
   * TextFields, `description` may be blank or null. The choice constraints
   * hold by construction of `Category` and `DietType`.
   */
  predicate WellFormed(r: Recipe) {
    && 0 < |r.title| <= TitleMaxLength && r.ingredients != "" && r.instructions != ""
    && IsTrimmed(r.title) && IsTrimmed(r.ingredients) && IsTrimmed(r.instructions)
    && (r.description.Some? ==> IsTrimmed(r.description.value))
    && NullFree(r.title) && NullFree(r.ingredients) && NullFree(r.instructions)
    && (r.description.Some? ==> NullFree(r.description.value))
  }

  /** No U+0000 character: a string field refuses text holding one. */
  predicate NullFree(s: string) {
    '\0' !in s
  }

  /** `Recipe.__str__`: a row reads as its title. */
  function RecipeStr(r: Recipe): (s: string)
    ensures s == r.title
    ensures WellFormed(r) ==> 0 < |s| <= TitleMaxLength && IsTrimmed(s)
  {
    r.title
  }

  /** The whitespace characters a string field strips from both of its ends. */
  predicate IsSpace(c: char) {
    c == ' ' || c == '\t' || c == '\n' || c == '\r' || c == '\U{0B}' || c == '\U{0C}'
  }

  /** Neither end of `s` is whitespace. */
  predicate IsTrimmed(s: string) {
    s != [] ==> !IsSpace(s[0]) && !IsSpace(s[|s| - 1])
  }

  function TrimStart(s: string): (r: string)
    ensures |r| <= |s| && r == s[|s| - |r|..]
    ensures r != [] ==> !IsSpace(r[0])
    ensures forall i :: 0 <= i < |s| - |r| ==> IsSpace(s[i])
  {
    if s != [] && IsSpace(s[0]) then TrimStart(s[1..]) else s
  }

  function TrimEnd(s: string): (r: string)
    ensures |r| <= |s| && r == s[..|r|]
    ensures r != [] ==> !IsSpace(r[|r| - 1])
    ensures forall i :: |r| <= i < |s| ==> IsSpace(s[i])
  {
    if s != [] && IsSpace(s[|s| - 1]) then TrimEnd(s[..|s| - 1]) else s
  }

  /** The number of whitespace characters that lead `s`. */
  function LeadingSpaces(s: string): (n: nat)
    ensures n <= |s|
    ensures forall k :: 0 <= k < n ==> IsSpace(s[k])
    ensures n < |s| ==> !IsSpace(s[n])
  {
    |s| - |TrimStart(s)|
  }

  /**
   * Python's `str.strip()`, as a string field applies it before validation:
   * the result is the part of `s` between its leading and its trailing
   * whitespace, and is empty exactly when `s` is blank.
   */
  function Trim(s: string): (r: string)
    ensures IsTrimmed(r)
    ensures LeadingSpaces(s) + |r| <= |s|
    ensures r == s[LeadingSpaces(s)..LeadingSpaces(s) + |r|]
    ensures forall k :: LeadingSpaces(s) + |r| <= k < |s| ==> IsSpace(s[k])
    ensures r == [] <==> forall k :: 0 <= k < |s| ==> IsSpace(s[k])
  {
    TrimEnd(TrimStart(s))
  }

  /** Trimming leaves a trimmed string alone, so it is idempotent. */
  lemma TrimmedIsFixed(s: string)
    requires IsTrimmed(s)
    ensures Trim(s) == s
  {
  }

  lemma TrimIdempotent(s: string)
    ensures Trim(Trim(s)) == Trim(s)
  {
    TrimmedIsFixed(Trim(s));
  }

  /** The writable fields of a create/update request body; `None` is an absent key. */
  datatype RecipeInput = RecipeInput(
    title: Option<string>,
    category: Option<string>,
    dietType: Option<string>,
    description: Option<string>,
    ingredients: Option<string>,
    instructions: Option<string>)

  /** The validated writable fields, with the model's defaults filled in. */
  datatype RecipeFields = RecipeFields(
    title: string,
    category: Category,
    dietType: DietType,
    description: Option<string>,
    ingredients: string,
    instructions: string)

  datatype Validated = Accepted(fields: RecipeFields) | Rejected(errors: seq<string>)

  /** A required string field: present, not blank once trimmed, and free of U+0000. */
  predicate RequiredText(v: Option<string>) {
    v.Some? && Trim(v.value) != "" && NullFree(Trim(v.value))
  }

  /** A nullable, blankable string field: `null`, or text free of U+0000 once trimmed. */
  predicate OptionalText(v: Option<string>) {
    v.None? || NullFree(Trim(v.value))
  }

  /** The title's `max_length` applies to the trimmed value. */
  predicate TitleOk(v: Option<string>) {
    RequiredText(v) && |Trim(v.value)| <= TitleMaxLength
  }

  /** A nullable, blankable text field keeps `null` and is trimmed otherwise. */
  function TrimOptional(v: Option<string>): (r: Option<string>)
    ensures r.None? <==> v.None?
    ensures r.Some? ==> r.value == Trim(v.value)
  {
    match v
    case None => None
    case Some(s) => Some(Trim(s))
  }

  /** An absent choice field takes its default; a present one must be a valid code. */
  predicate ChoiceOk<T>(v: Option<string>, parse: string -> Option<T>) {
    v.None? || parse(v.value).Some?
  }

  /** The names of the fields that fail their declared constraint, in declaration order. */
  function FieldErrors(input: RecipeInput): seq<string> {
    (if TitleOk(input.title) then [] else ["title"])
    + (if ChoiceOk(input.category, ParseCategory) then [] else ["category"])
    + (if ChoiceOk(input.dietType, ParseDietType) then [] else ["diet_type"])
    + (if OptionalText(input.description) then [] else ["description"])
    + (if RequiredText(input.ingredients) then [] else ["ingredients"])
    + (if RequiredText(input.instructions) then [] else ["instructions"])
  }

  /**
   * Validation of a request body against the field declarations: string
   * fields are trimmed first, the blank, length and U+0000 tests apply to
   * the trimmed text and the trimmed text is what is stored; absent choice
   * fields take the defaults `OT` and `NON`.
   */
  function Validate(input: RecipeInput): (v: Validated)
    ensures v.Accepted? <==>
      TitleOk(input.title) && RequiredText(input.ingredients) && RequiredText(input.instructions)
      && ChoiceOk(input.category, ParseCategory) && ChoiceOk(input.dietType, ParseDietType)
      && OptionalText(input.description)
    ensures v.Rejected? ==> v.errors != []
    ensures v.Accepted? ==>
      && v.fields.title == Trim(input.title.value)
      && v.fields.ingredients == Trim(input.ingredients.value)
      && v.fields.instructions == Trim(input.instructions.value)
      && v.fields.description == TrimOptional(input.description)
      && (input.category.None? ==> v.fields.category == DefaultCategory)
      && (input.category.Some? ==> CategoryCode(v.fields.category) == input.category.value)
      && (input.dietType.None? ==> v.fields.dietType == DefaultDietType)
      && (input.dietType.Some? ==> DietTypeCode(v.fields.dietType) == input.dietType.value)
  {
    var errors := FieldErrors(input);
    if errors != [] then Rejected(errors)
    else
      Accepted(RecipeFields(
        Trim(input.title.value),
        if input.category.None? then DefaultCategory else ParseCategory(input.category.value).value,
        if input.dietType.None? then DefaultDietType else ParseDietType(input.dietType.value).value,
        TrimOptional(input.description),
        Trim(input.ingredients.value),
        Trim(input.instructions.value)))
  }

  /** One leading whitespace character is dropped; a non-space first character stops the scan. */
  lemma TrimStartStep(c: char, s: string)
    ensures IsSpace(c) ==> TrimStart([c] + s) == TrimStart(s)
    ensures !IsSpace(c) ==> TrimStart([c] + s) == [c] + s
  {
    assert ([c] + s)[0] == c && ([c] + s)[1..] == s;
  }

  /** One trailing whitespace character is dropped; a non-space last character stops the scan. */
  lemma TrimEndStep(s: string, c: char)
    ensures IsSpace(c) ==> TrimEnd(s + [c]) == TrimEnd(s)
    ensures !IsSpace(c) ==> TrimEnd(s + [c]) == s + [c]
  {
    assert (s + [c])[|s|] == c && (s + [c])[..|s|] == s;
  }

  /** Trimming a blank string leaves nothing. */
  lemma TrimBlankExample()
    ensures Trim(" \t") == ""
  {
    TrimStartStep(' ', "\t");
    TrimStartStep('\t', "");
    assert [' '] + "\t" == " \t" && ['\t'] + "" == "\t";
  }

  /** Trimming a padded string leaves its text. */
  lemma TrimPaddedExample()
    ensures Trim("  x ") == "x"
  {
    assert TrimStart("  x ") == "x " by {
      assert "  x " == [' '] + " x " && " x " == [' '] + "x " && "x " == ['x'] + " ";
      TrimStartStep(' ', " x ");
      TrimStartStep(' ', "x ");
      TrimStartStep('x', " ");
    }
    assert TrimEnd("x ") == "x" by {
      assert "x " == "x" + [' '] && "x" == "" + ['x'];
      TrimEndStep("x", ' ');
      TrimEndStep("", 'x');
    }
  }

  /** A blank title is rejected, and a padded one is stored without its padding. */
  lemma TitleIsTrimmedBeforeValidation(input: RecipeInput)
    ensures input.title == Some(" \t") ==> Validate(input).Rejected?
    ensures input.title == Some("  x ") && Validate(input).Accepted? ==>
              Validate(input).fields.title == "x"
  {
    TrimBlankExample();
    TrimPaddedExample();
  }

  /** Text holding U+0000 is refused, in a required field and in the description alike. */
  lemma NullCharacterIsRejected(input: RecipeInput)
    ensures input.title == Some("a\0b") ==> Validate(input).Rejected?
    ensures input.description == Some("a\0b") ==> Validate(input).Rejected?
  {
    TrimmedIsFixed("a\0b");
    assert "a\0b"[1] == '\0';
  }

  /** A row built from validated fields satisfies every column constraint. */
  lemma AcceptedRowIsWellFormed(input: RecipeInput, id: nat, owner: nat, now: int)
    requires Validate(input).Accepted?
    ensures
      var f := Validate(input).fields;
      WellFormed(Recipe(id, owner, f.title, f.category, f.dietType, f.description,
                        f.ingredients, f.instructions, now, now))
  {
  }
}
