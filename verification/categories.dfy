/**
 * The category manager: the list of named option presets, the draft of a new
 * category, and the copy of the category being edited. Storage writes are left
 * to the caller; where their outcome matters it arrives as `saved`.
 */
module Categories {
  import opened Optional
  import opened Text
  import Lists

  /** A named preset of wheel options. */
  datatype Category = Category(id: string, name: string, options: seq<string>)

  /** Which of its three screens the manager shows. */
  datatype Screen = EditScreen | AddScreen | ListScreen

  /** `DEFAULT_CATEGORIES`: four presets with ids "1" to "4", none of them empty. */
  function DefaultCategories(): (cats: seq<Category>)
    ensures |cats| == 4
    ensures cats[0].id == "1" && cats[1].id == "2" && cats[2].id == "3" && cats[3].id == "4"
    ensures forall i :: 0 <= i < |cats| ==> |cats[i].options| > 0
  {
    [
      Category("1", "What to eat",
        ["Pizza", "Rice", "Noodles", "Burger", "Salad", "Sushi", "Pasta", "Steak"]),
      Category("2", "Who gonna pay",
        ["Me", "My GF", "Split", "Someone else", "Take turns"]),
      Category("3", "What to do in spare time",
        ["Play badminton", "Watch movies", "Read books", "Play games", "Go for a walk", "Exercise", "Cook", "Sleep"]),
      Category("4", "Truth or Dare", [
        "Truth: What is your biggest fear?",
        "Truth: What is your most embarrassing moment?",
        "Truth: What is your biggest regret?",
        "Truth: What is your biggest secret?",
        "Truth: What is your biggest dream?",
        "Dare: Do your best dance move",
        "Dare: Sing a song out loud",
        "Dare: Call a friend and tell them you love them",
        "Dare: Do 10 push-ups",
        "Dare: Let someone post anything they want on your social media",
        "Dare: Let the group give you a makeover",
        "Dare: Let someone tickle you for 30 seconds"
      ])
    ]
  }

  /** The ids of the categories, in order. */
  function Ids(cats: seq<Category>): (ids: seq<string>)
    ensures |ids| == |cats|
    ensures forall i :: 0 <= i < |cats| ==> ids[i] == cats[i].id
  {
    if cats == [] then [] else [cats[0].id] + Ids(cats[1..])
  }

  /** No two categories share an id. */
  predicate DistinctIds(cats: seq<Category>) {
    forall i, j :: 0 <= i < j < |cats| ==> cats[i].id != cats[j].id
  }

  /** The default presets have distinct ids. */
  lemma DefaultCategoriesDistinct()
    ensures DistinctIds(DefaultCategories())
  {
  }

  /** `categories.map(cat => cat.id === category.id ? category : cat)`. */
  function ReplaceById(cats: seq<Category>, category: Category): (r: seq<Category>)
    ensures |r| == |cats|
    ensures forall i :: 0 <= i < |cats| ==> r[i] == if cats[i].id == category.id then category else cats[i]
  {
    if cats == [] then []
    else [if cats[0].id == category.id then category else cats[0]] + ReplaceById(cats[1..], category)
  }

  /** Replacing keeps every id in place. */
  lemma ReplaceByIdKeepsIds(cats: seq<Category>, category: Category)
    ensures Ids(ReplaceById(cats, category)) == Ids(cats)
  {
    var r := ReplaceById(cats, category);
    assert forall i :: 0 <= i < |cats| ==> Ids(r)[i] == Ids(cats)[i];
  }

  /** Replacing an id that no category carries changes nothing; replacing twice is replacing once. */
  lemma ReplaceByIdIdempotent(cats: seq<Category>, category: Category)
    ensures ReplaceById(ReplaceById(cats, category), category) == ReplaceById(cats, category)
    ensures category.id !in Ids(cats) ==> ReplaceById(cats, category) == cats
  {
    if category.id !in Ids(cats) {
      forall i | 0 <= i < |cats|
        ensures cats[i].id != category.id
      {
        assert Ids(cats)[i] == cats[i].id;
      }
    }
  }

  /** The filter test of the delete confirmation. */
  function OtherCategory(id: string): Category -> bool {
    (c: Category) => c.id != id
  }

  /** The categories without any that carries `id`. */
  function RemoveCategory(cats: seq<Category>, id: string): (r: seq<Category>)
    ensures forall i :: 0 <= i < |r| ==> r[i].id != id && r[i] in cats
    ensures forall i :: 0 <= i < |cats| && cats[i].id != id ==> cats[i] in r
  {
    Lists.Filter(cats, OtherCategory(id))
  }

  /** Deleting keeps the remaining categories in their original order. */
  lemma RemoveCategoryAppend(a: seq<Category>, b: seq<Category>, id: string)
    ensures RemoveCategory(a + b, id) == RemoveCategory(a, id) + RemoveCategory(b, id)
  {
    Lists.FilterAppend(a, b, OtherCategory(id));
  }

  /** The filter test of the option remove buttons. */
  function OtherText(x: string): string -> bool {
    (o: string) => o != x
  }

  /** An option list without any occurrence of `x`. */
  function RemoveText(texts: seq<string>, x: string): (r: seq<string>)
    ensures x !in r
    ensures forall y :: y in r <==> y in texts && y != x
  {
    Lists.Filter(texts, OtherText(x))
  }

  /** Removing a text keeps the other texts in their original order. */
  lemma RemoveTextAppend(a: seq<string>, b: seq<string>, x: string)
    ensures RemoveText(a + b, x) == RemoveText(a, x) + RemoveText(b, x)
  {
    Lists.FilterAppend(a, b, OtherText(x));
  }

  /** Removing a text that is not there changes nothing. */
  lemma RemoveAbsentText(texts: seq<string>, x: string)
    requires x !in texts
    ensures RemoveText(texts, x) == texts
  {
    Lists.FilterKeepsAll(texts, OtherText(x));
  }

  /** The component's state. */
  class CategoryManager {
    var categories: seq<Category>
    var isEditing: bool
    var editingCategory: Option<Category>
    var newOption: string
    var newCategoryName: string
    var showAddCategory: bool
    var newCategoryOptions: seq<string>

    /** The edit screen is open exactly when there is a category being edited. */
    ghost predicate Valid()
      reads this
    {
      isEditing <==> editingCategory.Some?
    }

    constructor ()
      ensures Valid()
      ensures categories == DefaultCategories()
      ensures !isEditing && editingCategory == None && newOption == "" && newCategoryName == ""
      ensures !showAddCategory && newCategoryOptions == []
    {
      categories := DefaultCategories();
      isEditing, editingCategory := false, None;
      newOption, newCategoryName := "", "";
      showAddCategory, newCategoryOptions := false, [];
    }

    /** Which screen is rendered: editing wins over adding, adding over the list. */
    function CurrentScreen(): (screen: Screen)
      reads this
      ensures screen == EditScreen <==> isEditing && editingCategory.Some?
      ensures screen == AddScreen <==> !(isEditing && editingCategory.Some?) && showAddCategory
    {
      if isEditing && editingCategory.Some? then EditScreen
      else if showAddCategory then AddScreen
      else ListScreen
    }

    /**
     * `handleSaveCategory` up to its `await`: the list takes the edited copy
     * by id and the write starts. The edit screen stays open while the write
     * is pending; `SaveFinished` is the rest of the handler.
     */
    method HandleSaveCategory(category: Category)
      requires Valid()
      modifies this
      ensures Valid()
      ensures categories == ReplaceById(old(categories), category)
      ensures isEditing == old(isEditing) && editingCategory == old(editingCategory)
      ensures newOption == old(newOption) && newCategoryName == old(newCategoryName)
      ensures showAddCategory == old(showAddCategory) && newCategoryOptions == old(newCategoryOptions)
    {
      categories := ReplaceById(categories, category);
    }

    /**
     * The rest of `handleSaveCategory`, once the write has settled: a
     * successful write closes the editor, discarding the copy; a failed one
     * is only logged.
     */
    method SaveFinished(saved: bool)
      requires Valid()
      modifies this
      ensures Valid()
      ensures saved ==> !isEditing && editingCategory == None
      ensures !saved ==> isEditing == old(isEditing) && editingCategory == old(editingCategory)
      ensures categories == old(categories)
      ensures newOption == old(newOption) && newCategoryName == old(newCategoryName)
      ensures showAddCategory == old(showAddCategory) && newCategoryOptions == old(newCategoryOptions)
    {
      if saved {
        isEditing := false;
        editingCategory := None;
      }
    }

    /** The edit screen's Save button: starts saving the copy being edited, if any. */
    method SaveEditing()
      requires Valid()
      modifies this
      ensures Valid()
      ensures old(editingCategory).None? ==> categories == old(categories)
      ensures old(editingCategory).Some? ==> categories == ReplaceById(old(categories), old(editingCategory).value)
      ensures isEditing == old(isEditing) && editingCategory == old(editingCategory)
      ensures newOption == old(newOption) && newCategoryName == old(newCategoryName)
      ensures showAddCategory == old(showAddCategory) && newCategoryOptions == old(newCategoryOptions)
    {
      if editingCategory.Some? {
        HandleSaveCategory(editingCategory.value);
      }
    }

    /** The text field of the new-option row. */
    method SetNewOption(text: string)
      requires Valid()
      modifies this
      ensures Valid()
      ensures newOption == text
      ensures categories == old(categories) && isEditing == old(isEditing) && editingCategory == old(editingCategory)
      ensures newCategoryName == old(newCategoryName)
      ensures showAddCategory == old(showAddCategory) && newCategoryOptions == old(newCategoryOptions)
    {
      newOption := text;
    }

    /** The Category Name field of the add screen. */
    method SetNewCategoryName(text: string)
      requires Valid()
      modifies this
      ensures Valid()
      ensures newCategoryName == text
      ensures categories == old(categories) && isEditing == old(isEditing) && editingCategory == old(editingCategory)
      ensures newOption == old(newOption)
      ensures showAddCategory == old(showAddCategory) && newCategoryOptions == old(newCategoryOptions)
    {
      newCategoryName := text;
    }

    /** `handleAddNewOption`: appends the trimmed input to the draft options unless it is blank. */
    method HandleAddNewOption()
      requires Valid()
      modifies this
      ensures Valid()
      ensures IsBlank(old(newOption)) ==> newCategoryOptions == old(newCategoryOptions) && newOption == old(newOption)
      ensures !IsBlank(old(newOption)) ==>
                newCategoryOptions == old(newCategoryOptions) + [Trim(old(newOption))] && newOption == ""
      ensures categories == old(categories) && isEditing == old(isEditing) && editingCategory == old(editingCategory)
      ensures newCategoryName == old(newCategoryName) && showAddCategory == old(showAddCategory)
    {
      if IsBlank(newOption) {
        return;
      }
      newCategoryOptions := newCategoryOptions + [Trim(newOption)];
      newOption := "";
    }

    /** `handleRemoveNewOption`: drops every draft option equal to `x`. */
    method HandleRemoveNewOption(x: string)
      requires Valid()
      modifies this
      ensures Valid()
      ensures newCategoryOptions == RemoveText(old(newCategoryOptions), x)
      ensures categories == old(categories) && isEditing == old(isEditing) && editingCategory == old(editingCategory)
      ensures newOption == old(newOption) && newCategoryName == old(newCategoryName)
      ensures showAddCategory == old(showAddCategory)
    {
      newCategoryOptions := RemoveText(newCategoryOptions, x);
    }

    /** The Add button of the list screen. */
    method OpenAddCategory()
      requires Valid()
      modifies this
      ensures Valid()
      ensures showAddCategory
      ensures categories == old(categories) && isEditing == old(isEditing) && editingCategory == old(editingCategory)
      ensures newOption == old(newOption) && newCategoryName == old(newCategoryName)
      ensures newCategoryOptions == old(newCategoryOptions)
    {
      showAddCategory := true;
    }

    /** The add screen's close and Cancel buttons: discard the draft. */
    method CancelAddCategory()
      requires Valid()
      modifies this
      ensures Valid()
      ensures !showAddCategory && newCategoryName == "" && newCategoryOptions == []
      ensures categories == old(categories) && isEditing == old(isEditing) && editingCategory == old(editingCategory)
      ensures newOption == old(newOption)
    {
      showAddCategory := false;
      newCategoryName := "";
      newCategoryOptions := [];
    }

    /**
     * `handleAddCategory`: unless the name is blank, appends a category with
     * id `newId`, the trimmed name and the draft options, then resets the
     * draft and closes the add screen (whatever the storage write does).
     */
    method HandleAddCategory(newId: string)
      requires Valid()
      modifies this
      ensures Valid()
      ensures IsBlank(old(newCategoryName)) ==>
                && categories == old(categories) && newCategoryName == old(newCategoryName)
                && newCategoryOptions == old(newCategoryOptions) && showAddCategory == old(showAddCategory)
      ensures !IsBlank(old(newCategoryName)) ==>
                && categories == old(categories) + [Category(newId, Trim(old(newCategoryName)), old(newCategoryOptions))]
                && newCategoryName == "" && newCategoryOptions == [] && !showAddCategory
      ensures isEditing == old(isEditing) && editingCategory == old(editingCategory) && newOption == old(newOption)
    {
      if IsBlank(newCategoryName) {
        return;
      }
      var category := Category(newId, Trim(newCategoryName), newCategoryOptions);
      categories := categories + [category];
      newCategoryName := "";
      newCategoryOptions := [];
      showAddCategory := false;
    }

    /** The Delete branch of the confirmation dialog: drops every category with this id. */
    method ConfirmDelete(id: string)
      requires Valid()
      modifies this
      ensures Valid()
      ensures categories == RemoveCategory(old(categories), id)
      ensures isEditing == old(isEditing) && editingCategory == old(editingCategory)
      ensures newOption == old(newOption) && newCategoryName == old(newCategoryName)
      ensures showAddCategory == old(showAddCategory) && newCategoryOptions == old(newCategoryOptions)
    {
      categories := RemoveCategory(categories, id);
    }

    /** The pencil button: opens the edit screen on a copy of `category`. */
    method StartEditing(category: Category)
      requires Valid()
      modifies this
      ensures Valid()
      ensures isEditing && editingCategory == Some(category)
      ensures categories == old(categories) && newOption == old(newOption) && newCategoryName == old(newCategoryName)
      ensures showAddCategory == old(showAddCategory) && newCategoryOptions == old(newCategoryOptions)
    {
      editingCategory := Some(category);
      isEditing := true;
    }

    /** The edit screen's close and Cancel buttons: drop the copy, leave the list alone. */
    method CancelEditing()
      requires Valid()
      modifies this
      ensures Valid()
      ensures !isEditing && editingCategory == None
      ensures categories == old(categories) && newOption == old(newOption) && newCategoryName == old(newCategoryName)
      ensures showAddCategory == old(showAddCategory) && newCategoryOptions == old(newCategoryOptions)
    {
      isEditing := false;
      editingCategory := None;
    }

    /** The name field of the edit screen: renames the copy being edited, if any. */
    method RenameEditing(text: string)
      requires Valid()
      modifies this
      ensures Valid()
      ensures old(editingCategory).None? ==> editingCategory == None
      ensures old(editingCategory).Some? ==> editingCategory == Some(old(editingCategory).value.(name := text))
      ensures categories == old(categories) && isEditing == old(isEditing)
      ensures newOption == old(newOption) && newCategoryName == old(newCategoryName)
      ensures showAddCategory == old(showAddCategory) && newCategoryOptions == old(newCategoryOptions)
    {
      if editingCategory.Some? {
        editingCategory := Some(editingCategory.value.(name := text));
      }
    }

    /**
     * `handleAddOption`: with a category being edited and a non-blank input,
     * appends the trimmed input to the copy's options; its id and name stay.
     */
    method HandleAddOption()
      requires Valid()
      modifies this
      ensures Valid()
      ensures old(editingCategory).None? || IsBlank(old(newOption)) ==>
                editingCategory == old(editingCategory) && newOption == old(newOption)
      ensures old(editingCategory).Some? && !IsBlank(old(newOption)) ==>
                && editingCategory.Some?
                && editingCategory.value.id == old(editingCategory).value.id
                && editingCategory.value.name == old(editingCategory).value.name
                && editingCategory.value.options == old(editingCategory).value.options + [Trim(old(newOption))]
                && newOption == ""
      ensures categories == old(categories) && isEditing == old(isEditing) && newCategoryName == old(newCategoryName)
      ensures showAddCategory == old(showAddCategory) && newCategoryOptions == old(newCategoryOptions)
    {
      if editingCategory.None? || IsBlank(newOption) {
        return;
      }
      var edited := editingCategory.value;
      editingCategory := Some(edited.(options := edited.options + [Trim(newOption)]));
      newOption := "";
    }

    /**
     * `handleRemoveOption`: with a category being edited, drops every option
     * of the copy equal to `x`; its id and name stay.
     */
    method HandleRemoveOption(x: string)
      requires Valid()
      modifies this
      ensures Valid()
      ensures old(editingCategory).None? ==> editingCategory == None
      ensures old(editingCategory).Some? ==>
                && editingCategory.Some?
                && editingCategory.value.id == old(editingCategory).value.id
                && editingCategory.value.name == old(editingCategory).value.name
                && editingCategory.value.options == RemoveText(old(editingCategory).value.options, x)
      ensures categories == old(categories) && isEditing == old(isEditing)
      ensures newOption == old(newOption) && newCategoryName == old(newCategoryName)
      ensures showAddCategory == old(showAddCategory) && newCategoryOptions == old(newCategoryOptions)
    {
      if editingCategory.None? {
        return;
      }
      var edited := editingCategory.value;
      editingCategory := Some(edited.(options := RemoveText(edited.options, x)));
    }
  }

  /** Save pressed and the write settled, with nothing in between. */
  method SaveRound(cm: CategoryManager, saved: bool)
    requires cm.Valid() && cm.editingCategory.Some?
    modifies cm
    ensures cm.Valid()
    ensures cm.categories == ReplaceById(old(cm.categories), old(cm.editingCategory).value)
    ensures saved ==> cm.CurrentScreen() != EditScreen
    ensures !saved ==> cm.editingCategory == old(cm.editingCategory) && cm.CurrentScreen() == EditScreen
  {
    cm.SaveEditing();
    cm.SaveFinished(saved);
  }

  /**
   * Save pressed, then an option added to the copy while the write is still
   * pending: the list keeps the copy as it was when Save was pressed, so the
   * added option never reaches it. A successful write then closes the editor
   * and the option is gone; a failed one leaves it in the open copy only.
   */
  method SaveWithEditPending(cm: CategoryManager, saved: bool)
    requires cm.Valid() && cm.editingCategory.Some? && !IsBlank(cm.newOption)
    modifies cm
    ensures cm.Valid()
    ensures cm.categories == ReplaceById(old(cm.categories), old(cm.editingCategory).value)
    ensures saved ==> cm.editingCategory == None
    ensures !saved ==>
              && cm.editingCategory.Some?
              && cm.editingCategory.value.options == old(cm.editingCategory).value.options + [Trim(old(cm.newOption))]
  {
    cm.SaveEditing();
    cm.HandleAddOption();
    cm.SaveFinished(saved);
  }
}
