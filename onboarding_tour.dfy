/**
 * The onboarding tour (src/components/OnboardingTour.tsx): a step cursor over four fixed steps that
 * advances on "next" and hands control back through the completion callback on the last step or on
 * close. Calls of the callback are counted in `completions`.
 */
module OnboardingTour {
  import opened Wrappers
  import Text

  datatype TourStep = TourStep(title: string, description: string)

  const Steps: seq<TourStep> := [
    TourStep("Digital Forensic Node",
      "Upload a blueprint and I'll automatically detect the scale to calculate square footage and material counts for you."),
    TourStep("Proprietary RAG",
      "I learn from your historical bids. The more you use me, the better I align with your specific margins and vendor rates."),
    TourStep("Digital Twin Proposals",
      "Send clients an interactive link where they can toggle standard vs. premium features and see price updates live."),
    TourStep("Field-Ready PWA",
      "Save this app to your home screen. It works offline at the jobsite and syncs high-res plans when you're back on Wi-Fi.")
  ]

  const FinalButton: string := "Start Commanding"
  const NextButton: string := "Next Protocol"

  /** The step after `step` when "next" is pressed, or None when it completes the tour. */
  function Advance(step: nat, count: nat): (r: Option<nat>)
    ensures r.Some? <==> step + 1 < count
    ensures r.Some? ==> r.value == step + 1
  {
    if step + 1 < count then Some(step + 1) else None
  }

  /** Pressing "next" n times from the first step reaches step min(n, count - 1). */
  function After(presses: nat, count: nat): (step: nat)
    requires count > 0
    ensures step < count
    ensures step == if presses < count then presses else count - 1
  {
    if presses == 0 then 0
    else
      var before := After(presses - 1, count);
      match Advance(before, count)
      case Some(s) => s
      case None => before
  }

  class Tour {
    var step: nat
    var completions: nat

    predicate Valid()
      reads this
    {
      step < |Steps|
    }

    constructor ()
      ensures Valid() && step == 0 && completions == 0
    {
      step := 0;
      completions := 0;
    }

    /** `next`: advance while a later step exists, otherwise call the completion callback. */
    method Next()
      requires Valid()
      modifies this
      ensures Valid()
      ensures old(step) < |Steps| - 1 ==> step == old(step) + 1 && completions == old(completions)
      ensures old(step) == |Steps| - 1 ==> step == old(step) && completions == old(completions) + 1
    {
      if step < |Steps| - 1 {
        step := step + 1;
      } else {
        completions := completions + 1;
      }
    }

    /** The close button completes the tour from any step. */
    method Close()
      modifies this
      ensures step == old(step) && completions == old(completions) + 1
    {
      completions := completions + 1;
    }

    /** The progress bars: exactly the one at the current step is highlighted. */
    function Bars(): (bars: seq<bool>)
      reads this
      ensures |bars| == |Steps|
      ensures forall i :: 0 <= i < |bars| ==> (bars[i] <==> i == step)
    {
      var current := step;
      seq(|Steps|, i requires 0 <= i < |Steps| => i == current)
    }

    function ButtonText(): (t: string)
      reads this
      ensures t == FinalButton <==> step == |Steps| - 1
    {
      if step == |Steps| - 1 then FinalButton else NextButton
    }

    /** The counter under the card: on the last step it reads "Step 4 of 4". */
    function Label(): (t: string)
      reads this
      ensures step == |Steps| - 1 ==> t == "Step 4 of 4 • Command Node v1.2.0"
    {
      assert |Steps| == 4;
      assert Text.NatText(4) == "4";
      "Step " + Text.NatText(step + 1) + " of " + Text.NatText(|Steps|) + " • Command Node v1.2.0"
    }

    function Current(): (s: TourStep)
      reads this
      requires Valid()
      ensures s == Steps[step] && s in Steps
    {
      Steps[step]
    }
  }
}
