/**
 * The decision screen: the editable option list, the spin flags that form a
 * small state machine, and the wiring of one spin through the wheel.
 * `Date.now()` is passed in as `now` (one reading per entry as `stamps`
 * where a list is built); `Math.random()` as `r1`, `r2`.
 */
module Decision {
  import opened Optional
  import opened Text
  import Lists
  import Wheel
  import Categories

  /** One entry of the option list. */
  datatype OptionItem = OptionItem(id: int, text: string)

  /** The preset that the title letters and the Truth-or-Dare modal load. */
  const TruthOrDareOptions: seq<string> := [
    "Truth: What is your biggest fear?",
    "Truth: What is your most embarrassing moment?",
    "Truth: What is your biggest regret?",
    "Truth: What is your biggest secret?",
    "Truth: What is your biggest dream?",
    "Dare: Do your best dance move",
    "Dare: Sing a song out loud",
    "Dare: Call a friend and tell them you love them",
    "Dare: Do 10 push-ups",
    "Dare: Let someone post anything they want on your social media",
    "Dare: Let the group give you a makeover",
    "Dare: Let someone tickle you for 30 seconds"
  ]

  /**
   * The Truth-or-Dare preset of the category list holds the same twelve texts,
   * in the same order, so loading either gives the same wheel.
   */
  lemma TruthOrDarePresetAgrees()
    ensures Categories.DefaultCategories()[3].name == "Truth or Dare"
    ensures Categories.DefaultCategories()[3].options == TruthOrDareOptions
  {
  }

  /** The wheel is shown, and a spin accepted, from this many options on. */
  const MinSpinOptions: nat := 2

  /** The option texts handed to the wheel, in list order. */
  function Texts(items: seq<OptionItem>): (texts: seq<string>)
    ensures |texts| == |items|
    ensures forall i :: 0 <= i < |items| ==> texts[i] == items[i].text
  {
    if items == [] then [] else [items[0].text] + Texts(items[1..])
  }

  /** Option ids strictly increase along the list (so they are pairwise distinct). */
  predicate IdsIncreasing(items: seq<OptionItem>) {
    forall i, j :: 0 <= i < j < |items| ==> items[i].id < items[j].id
  }

  /** The filter test of the remove handler. */
  function OtherId(id: int): OptionItem -> bool {
    (o: OptionItem) => o.id != id
  }

  /** The option list without any entry carrying `id`. */
  function RemoveById(items: seq<OptionItem>, id: int): (r: seq<OptionItem>)
    ensures forall i :: 0 <= i < |r| ==> r[i].id != id && r[i] in items
    ensures forall i :: 0 <= i < |items| && items[i].id != id ==> items[i] in r
  {
    Lists.Filter(items, OtherId(id))
  }

  /** Removal keeps the survivors in their original order: it distributes over concatenation. */
  lemma RemoveByIdAppend(a: seq<OptionItem>, b: seq<OptionItem>, id: int)
    ensures RemoveById(a + b, id) == RemoveById(a, id) + RemoveById(b, id)
  {
    Lists.FilterAppend(a, b, OtherId(id));
  }

  /** Removing an id that no entry carries changes nothing. */
  lemma RemoveAbsentId(items: seq<OptionItem>, id: int)
    requires forall i :: 0 <= i < |items| ==> items[i].id != id
    ensures RemoveById(items, id) == items
  {
    Lists.FilterKeepsAll(items, OtherId(id));
  }

  /** Removal keeps the ids increasing. */
  lemma {:induction false} RemoveByIdKeepsIncreasing(items: seq<OptionItem>, id: int)
    requires IdsIncreasing(items)
    ensures IdsIncreasing(RemoveById(items, id))
  {
    if items != [] {
      var rest := RemoveById(items[1..], id);
      RemoveByIdKeepsIncreasing(items[1..], id);
      if items[0].id != id {
        assert RemoveById(items, id) == [items[0]] + rest;
        forall k | 0 <= k < |rest|
          ensures items[0].id < rest[k].id
        {
          FirstIdSmallest(items, rest[k]);
        }
        PrependIncreasing(items[0], rest);
      } else {
        assert RemoveById(items, id) == rest;
      }
    }
  }

  /** In an increasing list, the head's id is below that of every later entry. */
  lemma FirstIdSmallest(items: seq<OptionItem>, o: OptionItem)
    requires IdsIncreasing(items) && |items| > 0 && o in items[1..]
    ensures items[0].id < o.id
  {
    var m :| 0 <= m < |items[1..]| && items[1..][m] == o;
    assert items[m + 1] == o;
  }

  lemma PrependIncreasing(x: OptionItem, rest: seq<OptionItem>)
    requires IdsIncreasing(rest)
    requires forall k :: 0 <= k < |rest| ==> x.id < rest[k].id
    ensures IdsIncreasing([x] + rest)
  {
    var s := [x] + rest;
    forall i, j | 0 <= i < j < |s|
      ensures s[i].id < s[j].id
    {
      if i > 0 {
        assert s[i] == rest[i - 1] && s[j] == rest[j - 1];
      } else {
        assert s[j] == rest[j - 1];
      }
    }
  }

  /** The clock readings never go back. */
  predicate NonDecreasing(stamps: seq<int>) {
    forall i, j :: 0 <= i <= j < |stamps| ==> stamps[i] <= stamps[j]
  }

  /**
   * The entries built from a category: entry `i` holds the category's `i`th
   * text and the id `stamps[i] + i`, where `stamps[i]` is the clock reading
   * taken for that entry.
   */
  function FromTexts(texts: seq<string>, stamps: seq<int>): (items: seq<OptionItem>)
    requires |stamps| == |texts|
    ensures |items| == |texts|
    ensures forall i :: 0 <= i < |texts| ==> items[i].id == stamps[i] + i && items[i].text == texts[i]
  {
    seq(|texts|, i requires 0 <= i < |texts| => OptionItem(stamps[i] + i, texts[i]))
  }

  /**
   * Loading a category and reading the texts back gives the category's texts;
   * while the clock does not go back, the ids strictly increase.
   */
  lemma FromTextsRoundTrip(texts: seq<string>, stamps: seq<int>)
    requires |stamps| == |texts|
    ensures Texts(FromTexts(texts, stamps)) == texts
    ensures NonDecreasing(stamps) ==> IdsIncreasing(FromTexts(texts, stamps))
  {
    var items := FromTexts(texts, stamps);
    if NonDecreasing(stamps) {
      forall i, j | 0 <= i < j < |items|
        ensures items[i].id < items[j].id
      {
        assert stamps[i] <= stamps[j];
      }
    }
  }

  /** A clock that goes back by one millisecond between two entries gives them the same id. */
  lemma ClockBackSharesId()
    ensures var items := FromTexts(["Tea", "Coffee"], [1000, 999]);
      items[0].id == items[1].id == 1000
  {
  }

  /** The component's state. */
  class DecisionMaker {
    var options: seq<OptionItem>
    var newOption: string
    var showCategories: bool
    var selectedOption: Option<string>
    var isSpinning: bool
    var showResult: bool

    /** While spinning there is no result and no result modal; the modal shows only a result. */
    ghost predicate Valid()
      reads this
    {
      && (isSpinning ==> selectedOption == None && !showResult)
      && (showResult ==> selectedOption.Some?)
    }

    constructor ()
      ensures Valid()
      ensures options == [] && newOption == "" && !showCategories
      ensures selectedOption == None && !isSpinning && !showResult
    {
      options, newOption, showCategories := [], "", false;
      selectedOption, isSpinning, showResult := None, false, false;
    }

    /**
     * Whether the wheel is rendered. A rendered wheel has one segment per
     * option, none of them wider than half a turn.
     */
    predicate WheelVisible(): (visible: bool)
      reads this
      ensures visible ==> |Wheel.Partition(Texts(options))| == |options| > 0 && Wheel.LargeArcFlag(|options|) == 0
    {
      |options| >= MinSpinOptions
    }

    /** The input box's `onChangeText`. */
    method SetNewOption(text: string)
      modifies this
      ensures newOption == text
      ensures options == old(options) && showCategories == old(showCategories)
      ensures selectedOption == old(selectedOption) && isSpinning == old(isSpinning) && showResult == old(showResult)
    {
      newOption := text;
    }

    /** `handleAddOption`: appends the trimmed input, stamped with `now`, unless it is blank. */
    method HandleAddOption(now: int)
      requires Valid()
      modifies this
      ensures Valid()
      ensures IsBlank(old(newOption)) ==> options == old(options) && newOption == old(newOption)
      ensures !IsBlank(old(newOption)) ==>
                options == old(options) + [OptionItem(now, Trim(old(newOption)))] && newOption == ""
      ensures (IdsIncreasing(old(options)) && forall i :: 0 <= i < |old(options)| ==> old(options)[i].id < now) ==>
                IdsIncreasing(options)
      ensures showCategories == old(showCategories)
      ensures selectedOption == old(selectedOption) && isSpinning == old(isSpinning) && showResult == old(showResult)
    {
      if IsBlank(newOption) {
        return;
      }
      options := options + [OptionItem(now, Trim(newOption))];
      newOption := "";
    }

    /** `handleRemoveOption`: drops every entry with this id. */
    method HandleRemoveOption(id: int)
      requires Valid()
      modifies this
      ensures Valid()
      ensures options == RemoveById(old(options), id)
      ensures IdsIncreasing(old(options)) ==> IdsIncreasing(options)
      ensures newOption == old(newOption) && showCategories == old(showCategories)
      ensures selectedOption == old(selectedOption) && isSpinning == old(isSpinning) && showResult == old(showResult)
    {
      options := RemoveById(options, id);
      if IdsIncreasing(old(options)) {
        RemoveByIdKeepsIncreasing(old(options), id);
      }
    }

    /** `handleSpin`: with at least two options, starts spinning and clears the previous result. */
    method HandleSpin()
      requires Valid()
      modifies this
      ensures Valid()
      ensures |options| < MinSpinOptions ==>
                selectedOption == old(selectedOption) && isSpinning == old(isSpinning) && showResult == old(showResult)
      ensures |options| >= MinSpinOptions ==> isSpinning && selectedOption == None && !showResult
      ensures options == old(options) && newOption == old(newOption) && showCategories == old(showCategories)
    {
      if |options| < MinSpinOptions {
        return;
      }
      isSpinning := true;
      selectedOption := None;
      showResult := false;
    }

    /** The wheel's `onPress`: starts a spin only when none is running. */
    method PressWheel()
      requires Valid()
      modifies this
      ensures Valid()
      ensures isSpinning <==> old(isSpinning) || |options| >= MinSpinOptions
      ensures !old(isSpinning) && |options| >= MinSpinOptions ==> selectedOption == None && !showResult
      ensures old(isSpinning) || |options| < MinSpinOptions ==>
                selectedOption == old(selectedOption) && showResult == old(showResult)
      ensures options == old(options) && newOption == old(newOption) && showCategories == old(showCategories)
    {
      if !isSpinning {
        HandleSpin();
      }
    }

    /** The wheel's `setSpinning(false)` when its animation ends. */
    method StopSpinning()
      requires Valid()
      modifies this
      ensures Valid()
      ensures !isSpinning
      ensures options == old(options) && newOption == old(newOption) && showCategories == old(showCategories)
      ensures selectedOption == old(selectedOption) && showResult == old(showResult)
    {
      isSpinning := false;
    }

    /** `handleSpinComplete`: records the winner and opens the result modal. */
    method HandleSpinComplete(selected: string)
      requires Valid()
      modifies this
      ensures Valid()
      ensures selectedOption == Some(selected) && !isSpinning && showResult
      ensures options == old(options) && newOption == old(newOption) && showCategories == old(showCategories)
    {
      selectedOption := Some(selected);
      isSpinning := false;
      showResult := true;
    }

    /**
     * `handleCategorySelect`: replaces the list by the category's texts, one
     * clock reading per entry, and closes the modal.
     */
    method HandleCategorySelect(texts: seq<string>, stamps: seq<int>)
      requires Valid()
      requires |stamps| == |texts|
      modifies this
      ensures Valid()
      ensures options == FromTexts(texts, stamps)
      ensures Texts(options) == texts
      ensures NonDecreasing(stamps) ==> IdsIncreasing(options)
      ensures !showCategories
      ensures newOption == old(newOption)
      ensures selectedOption == old(selectedOption) && isSpinning == old(isSpinning) && showResult == old(showResult)
    {
      options := FromTexts(texts, stamps);
      FromTextsRoundTrip(texts, stamps);
      showCategories := false;
    }

    /** The title letters and the Truth-or-Dare modal button: load the Truth-or-Dare preset. */
    method UseTruthOrDare(stamps: seq<int>)
      requires Valid()
      requires |stamps| == |TruthOrDareOptions|
      modifies this
      ensures Valid()
      ensures options == FromTexts(TruthOrDareOptions, stamps)
      ensures Texts(options) == TruthOrDareOptions && WheelVisible()
      ensures NonDecreasing(stamps) ==> IdsIncreasing(options)
      ensures !showCategories
      ensures newOption == old(newOption)
      ensures selectedOption == old(selectedOption) && isSpinning == old(isSpinning) && showResult == old(showResult)
    {
      HandleCategorySelect(TruthOrDareOptions, stamps);
    }

    /** The delete button: empties the list, which also hides the wheel. */
    method ClearAll()
      requires Valid()
      modifies this
      ensures Valid()
      ensures options == [] && !WheelVisible()
      ensures newOption == old(newOption) && showCategories == old(showCategories)
      ensures selectedOption == old(selectedOption) && isSpinning == old(isSpinning) && showResult == old(showResult)
    {
      options := [];
    }

    /** The result modal's Close button and back gesture. */
    method CloseResult()
      requires Valid()
      modifies this
      ensures Valid()
      ensures !showResult
      ensures options == old(options) && newOption == old(newOption) && showCategories == old(showCategories)
      ensures selectedOption == old(selectedOption) && isSpinning == old(isSpinning)
    {
      showResult := false;
    }

    /** The Category button (`open`) and the category modal's Close button (`!open`). */
    method SetShowCategories(open: bool)
      requires Valid()
      modifies this
      ensures Valid()
      ensures showCategories == open
      ensures options == old(options) && newOption == old(newOption)
      ensures selectedOption == old(selectedOption) && isSpinning == old(isSpinning) && showResult == old(showResult)
    {
      showCategories := open;
    }
  }

  /**
   * One press of the wheel carried through to the result: the press starts a
   * spin, the wheel's effect draws the angle and captures the texts, and the
   * animation's end stops the spin and reports the winner, which is an option
   * of the list.
   */
  method SpinRound(dm: DecisionMaker, wheel: Wheel.SpinningWheel, r1: real, r2: real)
    requires dm.Valid() && wheel.Valid() && !wheel.animating
    requires 0.0 <= r1 < 1.0 && 0.0 <= r2 < 1.0
    modifies dm, wheel
    ensures dm.Valid() && wheel.Valid() && !wheel.animating
    ensures dm.options == old(dm.options)
    ensures !old(dm.isSpinning) && |dm.options| >= MinSpinOptions ==>
              && dm.selectedOption == Wheel.Resolve(Texts(dm.options), Wheel.TargetAngle(r1, r2))
              && dm.selectedOption.Some? && dm.selectedOption.value in Texts(dm.options)
              && !dm.isSpinning && dm.showResult
    ensures old(dm.isSpinning) || |dm.options| < MinSpinOptions ==>
              dm.selectedOption == old(dm.selectedOption) && dm.isSpinning == old(dm.isSpinning)
              && dm.showResult == old(dm.showResult)
  {
    var wasSpinning := dm.isSpinning;
    dm.PressWheel();
    if dm.isSpinning != wasSpinning {
      wheel.SpinningChanged(Texts(dm.options), true, r1, r2);
      var selected := wheel.AnimationFinished();
      dm.StopSpinning();
      dm.HandleSpinComplete(selected.value);
    }
  }

  /**
   * A spin during which an option is removed: the winner still comes from the
   * list as it was when the spin started, so it may be an option that is no
   * longer in the list.
   */
  method SpinRoundWithRemoval(dm: DecisionMaker, wheel: Wheel.SpinningWheel, r1: real, r2: real, id: int)
    requires dm.Valid() && wheel.Valid() && !wheel.animating && !dm.isSpinning
    requires |dm.options| >= MinSpinOptions
    requires 0.0 <= r1 < 1.0 && 0.0 <= r2 < 1.0
    modifies dm, wheel
    ensures dm.Valid() && wheel.Valid()
    ensures dm.options == RemoveById(old(dm.options), id)
    ensures dm.selectedOption == Wheel.Resolve(Texts(old(dm.options)), Wheel.TargetAngle(r1, r2))
    ensures !dm.isSpinning && dm.showResult
  {
    dm.PressWheel();
    wheel.SpinningChanged(Texts(dm.options), true, r1, r2);
    dm.HandleRemoveOption(id);
    var selected := wheel.AnimationFinished();
    dm.StopSpinning();
    dm.HandleSpinComplete(selected.value);
  }
}
