/**
 * The edit page: a record of form values loaded from the recipe, changed
 * one key at a time, and sent back whole with a PUT.
 */
module EditRecipe {
  import opened Wrappers
  import opened RecipeModels
  import opened LikeModels
  import opened RecipeSerializers

  /** A form record: key to value, `None` standing for JSON `null`. */
  type Record = map<string, Option<string>>

  /** The record before the recipe arrives: the six keys, all empty. */
  const EmptyRecord: Record := map[
    "title" := Some(""), "description" := Some(""), "ingredients" := Some(""),
    "instructions" := Some(""), "category" := Some(""), "diet_type" := Some("")]

  /** The string-valued keys of the recipe response. */
  function RecordOf(r: RecipeOut): (m: Record)
    ensures Field(m, "title") == Some(r.title) && Field(m, "description") == r.description
    ensures Field(m, "category") == Some(r.category) && Field(m, "diet_type") == Some(r.dietType)
    ensures Field(m, "ingredients") == Some(r.ingredients) && Field(m, "instructions") == Some(r.instructions)
  {
    map[
      "owner" := Some(r.owner), "title" := Some(r.title), "category" := Some(r.category),
      "diet_type" := Some(r.dietType), "description" := r.description,
      "ingredients" := Some(r.ingredients), "instructions" := Some(r.instructions)]
  }

  /** A body key as the server reads it: absent and `null` alike are no value. */
  function Field(m: Record, key: string): (v: Option<string>)
    ensures v.Some? <==> key in m && m[key].Some?
    ensures v.Some? ==> v.value == m[key].value
  {
    if key in m then m[key] else None
  }

  /** The writable fields the server validates in a PUT body. */
  function InputOf(m: Record): RecipeInput {
    RecipeInput(Field(m, "title"), Field(m, "category"), Field(m, "diet_type"),
                Field(m, "description"), Field(m, "ingredients"), Field(m, "instructions"))
  }

  /** The writable fields of a stored row. */
  function FieldsOf(r: Recipe): RecipeFields {
    RecipeFields(r.title, r.category, r.dietType, r.description, r.ingredients, r.instructions)
  }

  /**
   * Saving a loaded recipe without changes is accepted and writes back the
   * row's own fields: a well-formed row's text is already trimmed.
   */
  lemma UnchangedEditKeepsFields(s: Store, rid: nat, requestUser: Option<nat>)
    requires Valid(s) && rid in s.recipes && WellFormed(s.recipes[rid])
    ensures Validate(InputOf(RecordOf(Serialize(s, rid, requestUser)))) == Accepted(FieldsOf(s.recipes[rid]))
  {
    var row := s.recipes[rid];
    var v := Validate(InputOf(RecordOf(Serialize(s, rid, requestUser))));
    assert ParseCategory(CategoryCode(row.category)) == Some(row.category);
    assert ParseDietType(DietTypeCode(row.dietType)) == Some(row.dietType);
    TrimmedIsFixed(row.title);
    TrimmedIsFixed(row.ingredients);
    TrimmedIsFixed(row.instructions);
    if row.description.Some? {
      TrimmedIsFixed(row.description.value);
    }
    assert v.Accepted?;
    assert ParseCategory(CategoryCode(v.fields.category)) == Some(v.fields.category);
    assert ParseDietType(DietTypeCode(v.fields.dietType)) == Some(v.fields.dietType);
  }

  /**
   * The inputs marked `required` (title, ingredients, instructions) all
   * hold a value; the browser fires `onSubmit` only then. A `null` value
   * shows as an empty input.
   */
  predicate RequiredFilled(m: Record) {
    && Field(m, "title").Some? && Field(m, "title").value != ""
    && Field(m, "ingredients").Some? && Field(m, "ingredients").value != ""
    && Field(m, "instructions").Some? && Field(m, "instructions").value != ""
  }

  /**
   * The record before the recipe arrives is never sent: its title is empty,
   * so the browser stops the submit. Were it sent, the server would reject
   * it, since the empty title and codes do not validate.
   */
  lemma EmptyRecordIsRejected()
    ensures !RequiredFilled(EmptyRecord)
    ensures Validate(InputOf(EmptyRecord)).Rejected?
  {
    assert Field(EmptyRecord, "title") == Some("");
    assert Trim("") == "";
    assert !TitleOk(InputOf(EmptyRecord).title);
  }

  /** A change to one writable key reaches the server as that field and leaves the others. */
  lemma ChangedTitleIsSent(m: Record, value: string)
    ensures InputOf(m["title" := Some(value)]) == InputOf(m).(title := Some(value))
  {
  }

  /** The route of the recipe's detail page. */
  function DetailRoute(id: string): string {
    "/recipes/" + id
  }

  /** The API path the page reads and writes. */
  function RecipePath(id: string): string {
    "/api/recipes/" + id + "/"
  }

  /** The page for the recipe with route parameter `id`. */
  class EditRecipeForm {
    const id: string
    var recipeData: Record
    var location: string

    constructor(id: string, location: string)
      ensures this.id == id && recipeData == EmptyRecord && this.location == location
    {
      this.id := id;
      recipeData := EmptyRecord;
      this.location := location;
    }

    /** `fetchRecipe`: the response replaces the record; a failure goes home. */
    method LoadRecipe(response: Option<RecipeOut>) returns (path: string)
      modifies this
      ensures path == RecipePath(id)
      ensures response.Some? ==> recipeData == RecordOf(response.value) && location == old(location)
      ensures response.None? ==> recipeData == old(recipeData) && location == "/"
    {
      path := RecipePath(id);
      if response.Some? {
        recipeData := RecordOf(response.value);
      } else {
        location := "/";
      }
    }

    /** `handleChange`: the input's `name` takes its `value`, every other key is kept. */
    method HandleChange(name: string, value: string)
      modifies this
      ensures recipeData == old(recipeData)[name := Some(value)]
      ensures location == old(location)
    {
      recipeData := recipeData[name := Some(value)];
    }

    /**
     * Submitting the form: with a required input empty the browser sends
     * nothing and the page stays as it is; otherwise `handleSubmit` runs.
     */
    method Submit(ok: bool) returns (request: Option<(string, Record)>)
      modifies this
      ensures recipeData == old(recipeData)
      ensures !RequiredFilled(recipeData) ==> request.None? && location == old(location)
      ensures RequiredFilled(recipeData) ==>
        && request == Some((RecipePath(id), recipeData))
        && location == (if ok then DetailRoute(id) else old(location))
    {
      if !RequiredFilled(recipeData) {
        return None;
      }
      var path, body := HandleSubmit(ok);
      request := Some((path, body));
    }

    /** `handleSubmit`: PUT the whole record; on success show the recipe, on failure stay. */
    method HandleSubmit(ok: bool) returns (path: string, body: Record)
      modifies this
      ensures path == RecipePath(id) && body == recipeData
      ensures recipeData == old(recipeData)
      ensures location == (if ok then DetailRoute(id) else old(location))
    {
      path, body := RecipePath(id), recipeData;
      if ok {
        location := DetailRoute(id);
      }
    }
  }
}
