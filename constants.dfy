/** The client's code/name tables for the category and diet filters and form selects. */
module Constants {
  import opened RecipeModels

  datatype Choice = Choice(code: string, name: string)

  const Categories: seq<Choice> := [
    Choice("", "All"),
    Choice("BR", "Breakfast"),
    Choice("LU", "Lunch"),
    Choice("DI", "Dinner"),
    Choice("DE", "Dessert"),
    Choice("SN", "Snack"),
    Choice("OT", "Other")
  ]

  const DietTypes: seq<Choice> := [
    Choice("", "All"),
    Choice("VEG", "Vegetarian"),
    Choice("NON", "Non-Vegetarian"),
    Choice("VGN", "Vegan")
  ]

  predicate DistinctCodes(table: seq<Choice>) {
    forall i, j :: 0 <= i < j < |table| ==> table[i].code != table[j].code
  }

  /** The first entry of each table is the "no filter" entry. */
  lemma TablesStartWithAll()
    ensures |Categories| > 0 && Categories[0] == Choice("", "All")
    ensures |DietTypes| > 0 && DietTypes[0] == Choice("", "All")
  {
  }

  lemma TableCodesDistinct()
    ensures DistinctCodes(Categories)
    ensures DistinctCodes(DietTypes)
  {
  }

  /**
   * Past the "All" entry, each table lists the backend choices in the same
   * order, with the backend's code and label.
   */
  lemma TablesMatchBackendChoices()
    ensures |Categories| == |AllCategories| + 1
    ensures forall i :: 0 <= i < |AllCategories| ==>
      Categories[i + 1] == Choice(CategoryCode(AllCategories[i]), CategoryLabel(AllCategories[i]))
    ensures |DietTypes| == |AllDietTypes| + 1
    ensures forall i :: 0 <= i < |AllDietTypes| ==>
      DietTypes[i + 1] == Choice(DietTypeCode(AllDietTypes[i]), DietTypeLabel(AllDietTypes[i]))
  {
  }
}
