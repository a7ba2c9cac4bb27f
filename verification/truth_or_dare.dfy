/**
 * The Truth-or-Dare screen: a fixed two-option wheel whose result picks a
 * mode and a random question of that mode. `Math.random()` is passed in.
 */
module TruthOrDare {
  import opened Optional
  import Wheel

  const TruthQuestions: seq<string> := [
    "What's the most embarrassing thing you've done in public?",
    "What's your biggest regret?",
    "What's the biggest lie you've ever told?",
    "What's your biggest fear?",
    "What's the most trouble you've ever been in?",
    "What's your biggest insecurity?",
    "What's the worst date you've ever been on?",
    "What's your biggest secret?",
    "What's the most money you've ever spent on something silly?",
    "What's your biggest pet peeve?"
  ]

  const DareQuestions: seq<string> := [
    "Do your best dance move right now",
    "Let the group post anything they want on your social media",
    "Call your mom and tell her you're getting married",
    "Let someone in the group go through your phone for 1 minute",
    "Do 10 push-ups right now",
    "Let someone in the group give you a makeover",
    "Sing your favorite song at the top of your lungs",
    "Let someone in the group post a status on your social media",
    "Do your best impression of someone in the group",
    "Let the group choose your profile picture for the next week"
  ]

  /** The wheel's two options, in list order. */
  const WheelOptions: seq<string> := ["Truth", "Dare"]

  datatype Mode = Truth | Dare

  /** The questions of a mode. */
  function Questions(mode: Mode): seq<string> {
    if mode == Truth then TruthQuestions else DareQuestions
  }

  /** `Math.floor(r * length)` for `r` in `[0, 1)`: always an index of a list of that length. */
  function RandomIndex(r: real, length: nat): (i: int)
    requires 0.0 <= r < 1.0 && length >= 1
    ensures 0 <= i < length
  {
    var n := length as real;
    var x := r * n;
    Wheel.MulLt(r, 1.0, n);
    Wheel.MulLe(0.0, r, n);
    assert 0.0 <= x < n;
    x.Floor
  }

  /**
   * The decision inside `handleSpinComplete`: the mode is Truth exactly for
   * the wheel result "Truth", and the question is one of that mode's.
   */
  function Draw(option: string, r: real): (outcome: (Mode, string))
    requires 0.0 <= r < 1.0
    ensures outcome.0 == Truth <==> option == "Truth"
    ensures outcome.1 in Questions(outcome.0)
    ensures outcome.1 == Questions(outcome.0)[RandomIndex(r, |Questions(outcome.0)|)]
  {
    if option == "Truth" then (Truth, TruthQuestions[RandomIndex(r, |TruthQuestions|)])
    else (Dare, DareQuestions[RandomIndex(r, |DareQuestions|)])
  }

  /** On the two-option wheel the first half-turn lands on "Dare" and the second on "Truth". */
  lemma WheelOutcome(a: real)
    requires 0.0 <= a
    ensures Wheel.Normalize(a) < 180.0 ==> Wheel.Resolve(WheelOptions, a) == Some("Dare")
    ensures Wheel.Normalize(a) >= 180.0 ==> Wheel.Resolve(WheelOptions, a) == Some("Truth")
  {
    assert Wheel.SegmentAngle(|WheelOptions|) == 180.0;
    Wheel.ResolveReversedEnds(WheelOptions, a);
  }

  /** The component's state. */
  class TruthOrDareGame {
    var spinning: bool
    var selectedOption: Option<string>
    var selectedQuestion: Option<string>
    var gameMode: Option<Mode>

    /** A question is shown exactly when a mode is set; it belongs to that mode, which matches the wheel's result. */
    ghost predicate Valid()
      reads this
    {
      && (gameMode.Some? <==> selectedQuestion.Some?)
      && (gameMode.Some? ==> selectedQuestion.value in Questions(gameMode.value))
      && (gameMode.Some? ==> selectedOption.Some? && (gameMode.value == Truth <==> selectedOption.value == "Truth"))
    }

    constructor ()
      ensures Valid()
      ensures !spinning && selectedOption == None && selectedQuestion == None && gameMode == None
    {
      spinning, selectedOption, selectedQuestion, gameMode := false, None, None, None;
    }

    /** `handleSpinComplete`: records the wheel's result and draws a question of the matching mode. */
    method HandleSpinComplete(option: string, r: real)
      requires Valid()
      requires 0.0 <= r < 1.0
      modifies this
      ensures Valid()
      ensures selectedOption == Some(option)
      ensures option == "Truth" ==>
                gameMode == Some(Truth) && selectedQuestion == Some(TruthQuestions[RandomIndex(r, |TruthQuestions|)])
      ensures option != "Truth" ==>
                gameMode == Some(Dare) && selectedQuestion == Some(DareQuestions[RandomIndex(r, |DareQuestions|)])
      ensures spinning == old(spinning)
    {
      selectedOption := Some(option);
      var (mode, question) := Draw(option, r);
      selectedQuestion := Some(question);
      gameMode := Some(mode);
    }

    /** `handleSpinStart`: clears the result, the question and the mode; `spinning` is untouched. */
    method HandleSpinStart()
      requires Valid()
      modifies this
      ensures Valid()
      ensures selectedOption == None && selectedQuestion == None && gameMode == None
      ensures spinning == old(spinning)
    {
      selectedOption := None;
      selectedQuestion := None;
      gameMode := None;
    }

    /** The wheel's `onPress`: resets the result only when no spin is running. */
    method PressWheel()
      requires Valid()
      modifies this
      ensures Valid()
      ensures !old(spinning) ==> selectedOption == None && selectedQuestion == None && gameMode == None
      ensures old(spinning) ==>
                selectedOption == old(selectedOption) && selectedQuestion == old(selectedQuestion) && gameMode == old(gameMode)
      ensures spinning == old(spinning)
    {
      if !spinning {
        HandleSpinStart();
      }
    }

    /** The Spin button: starts a spin only when none is running. */
    method PressSpinButton()
      requires Valid()
      modifies this
      ensures Valid()
      ensures spinning
      ensures selectedOption == old(selectedOption) && selectedQuestion == old(selectedQuestion) && gameMode == old(gameMode)
    {
      if !spinning {
        spinning := true;
      }
    }

    /** The wheel's `setSpinning(false)` when its animation ends. */
    method StopSpinning()
      requires Valid()
      modifies this
      ensures Valid()
      ensures !spinning
      ensures selectedOption == old(selectedOption) && selectedQuestion == old(selectedQuestion) && gameMode == old(gameMode)
    {
      spinning := false;
    }
  }

  /**
   * One press of the Spin button carried through to the question: the mode is
   * Truth exactly when the wheel stops in its second half-turn.
   */
  method SpinRound(game: TruthOrDareGame, wheel: Wheel.SpinningWheel, r1: real, r2: real, r3: real)
    requires game.Valid() && wheel.Valid() && !wheel.animating && !game.spinning
    requires 0.0 <= r1 < 1.0 && 0.0 <= r2 < 1.0 && 0.0 <= r3 < 1.0
    modifies game, wheel
    ensures game.Valid() && wheel.Valid() && !wheel.animating && !game.spinning
    ensures game.gameMode.Some? && game.selectedQuestion.Some?
    ensures game.gameMode == Some(Truth) <==> Wheel.Normalize(Wheel.TargetAngle(r1, r2)) >= 180.0
    ensures game.selectedQuestion.value in Questions(game.gameMode.value)
  {
    game.PressSpinButton();
    wheel.SpinningChanged(WheelOptions, true, r1, r2);
    var selected := wheel.AnimationFinished();
    WheelOutcome(wheel.angle);
    game.StopSpinning();
    game.HandleSpinComplete(selected.value, r3);
  }
}
