/** The idea generator wizard: three steps (select ideas, add context,
    generate), a row of three badges that highlights the steps reached, one
    card per step, and Next/Back buttons that set the step. */
module IdeaGenerator {
  import opened Options
  import opened Text

  datatype SourceIdea = SourceIdea(id: int, title: string, source: string, selected: bool)

  /** `selectedIdeas`, the page's constant list. */
  const SelectedIdeas: seq<SourceIdea> := [
    SourceIdea(1, "The Impact of AI on Future Workplaces", "LinkedIn", false),
    SourceIdea(2, "Building Sustainable Business Models", "Twitter", false),
    SourceIdea(3, "Digital Marketing Trends 2024", "LinkedIn", false)
  ]

  /** The initial value of `step`. */
  const FirstStep: int := 1
  const StepCount: int := 3

  predicate IsStep(step: int)
  {
    FirstStep <= step <= StepCount
  }

  datatype BadgeVariant = Default | Outline

  /** The variant of badge `k` (1 = "Select Ideas", 2 = "Add Context", 3 = "Generate"). */
  function BadgeOf(step: int, k: int): BadgeVariant
  {
    if step >= k then Default else Outline
  }

  /** The three badges, left to right. */
  function Badges(step: int): seq<BadgeVariant>
  {
    [BadgeOf(step, 1), BadgeOf(step, 2), BadgeOf(step, 3)]
  }

  /** The highlighted badges are a prefix of the row whose length is the step. */
  lemma BadgesArePrefix(step: int)
    requires IsStep(step)
    ensures forall k :: 0 <= k < |Badges(step)| ==> (Badges(step)[k] == Default <==> k < step)
  {
  }

  datatype WizardCard = SelectIdeasCard | AddContextCard | GenerateCard

  /** The cards rendered: each one is guarded by `step === n`. */
  function Cards(step: int): seq<WizardCard>
  {
    (if step == 1 then [SelectIdeasCard] else [])
    + (if step == 2 then [AddContextCard] else [])
    + (if step == 3 then [GenerateCard] else [])
  }

  /** A step always renders exactly one card, the one of that step. */
  lemma OneCardPerStep(step: int)
    requires IsStep(step)
    ensures |Cards(step)| == 1
    ensures Cards(step)[0] == [SelectIdeasCard, AddContextCard, GenerateCard][step - 1]
  {
  }

  /** The ideas listed on the "Generate" card: `selectedIdeas.slice(0, 2)`. */
  function GenerateCardIdeas(): seq<SourceIdea>
  {
    Slice(SelectedIdeas, 0, 2)
  }

  /** The "Generate" card lists the first two ideas only. */
  lemma GenerateCardListsFirstTwo()
    ensures GenerateCardIdeas() == SelectedIdeas[..2]
    ensures SelectedIdeas[2] !in GenerateCardIdeas()
  {
  }

  /** The buttons that call `setStep`. */
  datatype StepButton =
    | NextAddContext // card 1, "Next: Add Context"
    | BackToSelect   // card 2, "Back"
    | NextGenerate   // card 2, "Next: Generate"
    | BackToContext  // card 3, "Back"

  /** The step a button sets. */
  function Target(b: StepButton): int
  {
    match b
    case NextAddContext => 2
    case BackToSelect => 1
    case NextGenerate => 3
    case BackToContext => 2
  }

  /** The card a button sits on. */
  function CardOf(b: StepButton): WizardCard
  {
    match b
    case NextAddContext => SelectIdeasCard
    case BackToSelect => AddContextCard
    case NextGenerate => AddContextCard
    case BackToContext => GenerateCard
  }

  /** A button can be clicked only while its card is rendered. */
  predicate Clickable(step: int, b: StepButton)
  {
    CardOf(b) in Cards(step)
  }

  /** One click: the new step, or `None` when the button is not on screen. */
  function Press(step: int, b: StepButton): Option<int>
  {
    if Clickable(step, b) then Some(Target(b)) else None
  }

  /** A series of clicks, each on a button that is on screen at that moment. */
  function Run(step: int, clicks: seq<StepButton>): Option<int>
    decreases |clicks|
  {
    if clicks == [] then Some(step)
    else match Press(step, clicks[0])
      case None => None
      case Some(next) => Run(next, clicks[1..])
  }

  /** The only moves are 1 to 2, 2 to 1, 2 to 3 and 3 to 2. */
  lemma PressMovesToNeighbour(step: int, b: StepButton)
    requires Press(step, b).Some?
    ensures var next := Press(step, b).value;
      (step, next) in {(1, 2), (2, 1), (2, 3), (3, 2)}
  {
  }

  /** Every run of clicks from a step stays within the three steps. */
  lemma {:induction false} RunStaysInSteps(step: int, clicks: seq<StepButton>)
    requires IsStep(step)
    requires Run(step, clicks).Some?
    ensures IsStep(Run(step, clicks).value)
    decreases |clicks|
  {
    if clicks != [] {
      var next := Press(step, clicks[0]).value;
      PressMovesToNeighbour(step, clicks[0]);
      RunStaysInSteps(next, clicks[1..]);
    }
  }

  /** Every step can be reached from the first one. */
  lemma EveryStepReachable(step: int)
    requires IsStep(step)
    ensures exists clicks :: Run(FirstStep, clicks) == Some(step)
  {
    if step == 1 {
      assert Run(1, []) == Some(1);
    } else if step == 2 {
      assert Run(1, [NextAddContext]) == Some(2);
    } else {
      assert [NextAddContext, NextGenerate][1..] == [NextGenerate];
      assert Run(1, [NextAddContext, NextGenerate]) == Some(3);
    }
  }

  /** The page's one state slot. */
  class Wizard {
    var step: int

    ghost predicate Valid()
      reads this
    {
      IsStep(step)
    }

    constructor ()
      ensures Valid() && step == FirstStep
    {
      step := FirstStep;
    }

    /** A click on a button that is on screen: `setStep(target)`. */
    method Click(b: StepButton)
      requires Valid() && Clickable(step, b)
      modifies this
      ensures Valid()
      ensures Some(step) == Press(old(step), b)
    {
      PressMovesToNeighbour(step, b);
      step := Target(b);
    }
  }
}
