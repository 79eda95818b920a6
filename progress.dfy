/**
 * The progress display of app/static/js/script.js while templates are generated.
 * - Four steps, each with a name, the percentage it ends at, and a duration.
 * - A row of step indicators, each carrying the `active` and `completed` classes as it goes.
 * - A pending timeout that moves to the next step.
 *
 * The timeout is a flag here, and firing it is a call of `MoveToNextStep`.
 */
module Progress {

  datatype Step = Step(name: string, percent: nat, duration: nat)

  const Steps: seq<Step> := [
    Step("スクレイピング中...", 20, 5000),
    Step("タイトル解析中...", 40, 3000),
    Step("テンプレート生成中...", 85, 10000),
    Step("完了", 100, 300)
  ]

  const LastStep: nat := |Steps| - 1
  const DoneName: string := "完了"

  /** The classes of one step indicator. */
  datatype Indicator = Indicator(active: bool, completed: bool)

  /** The classes `updateStepIndicators` gives indicator `i` while step `current` runs. */
  function IndicatorFor(i: nat, current: nat): Indicator {
    if i < current then Indicator(false, true)
    else if i == current then Indicator(true, false)
    else Indicator(false, false)
  }

  /** `Math.min(currentStep + 1, steps.length - 1)` */
  function NextStep(current: nat): nat {
    if current + 1 < LastStep then current + 1 else LastStep
  }

  /** The step after `k` firings of the timeout, counted from `from`. */
  function StepAfter(k: nat, from: nat): nat
    decreases k
  {
    if k == 0 then from else NextStep(StepAfter(k - 1, from))
  }

  /** The spinner's text under the bar: `テンプレートを${stepName}`. */
  function LoadingMessage(stepName: string): string {
    "テンプレートを" + stepName
  }

  /** The steps end at ever higher percentages, the last at 100. */
  lemma StepsAscend()
    ensures LastStep == 3 && Steps[LastStep].percent == 100 && Steps[LastStep].name == DoneName
    ensures forall i, j :: 0 <= i < j < |Steps| ==> Steps[i].percent < Steps[j].percent
  {
  }

  /** While step `current` runs, the active indicator is exactly the current one. */
  lemma ActiveIsCurrent(i: nat, current: nat)
    ensures IndicatorFor(i, current).active <==> i == current
    ensures !(IndicatorFor(i, current).active && IndicatorFor(i, current).completed)
  {
  }

  /** The completed indicators are exactly those before the current one, so they form a prefix. */
  lemma CompletedFormPrefix(i: nat, j: nat, current: nat)
    requires j <= i && IndicatorFor(i, current).completed
    ensures IndicatorFor(j, current).completed && j < current
  {
  }

  /** The timeout firing `k` times from the first step reaches step `k`, and stops at the last. */
  lemma {:induction false} StepAfterSaturates(k: nat)
    ensures StepAfter(k, 0) == if k < LastStep then k else LastStep
    decreases k
  {
    if k > 0 {
      StepAfterSaturates(k - 1);
    }
  }

  /** Once at the last step, further firings stay there. */
  lemma {:induction false} LastStepIsFixed(k: nat)
    ensures StepAfter(k, LastStep) == LastStep
    decreases k
  {
    if k > 0 {
      LastStepIsFixed(k - 1);
    }
  }

  class ProgressBar {
    var currentStep: nat
    var percent: nat
    var stepName: string
    var loadingMessage: string
    /** Whether a `moveToNextStep` timeout is pending. */
    var timerPending: bool
    /** The `.step-indicator` elements of the page. */
    const indicators: array<Indicator>

    ghost predicate Valid()
      reads this
    {
      currentStep <= LastStep && indicators.Length >= 1
    }

    /** The page's state before any generation, with `count` indicators. */
    constructor (count: nat)
      requires count >= 1
      ensures Valid() && fresh(indicators) && indicators.Length == count
      ensures currentStep == 0 && !timerPending
      ensures forall i :: 0 <= i < count ==> indicators[i] == Indicator(false, false)
    {
      currentStep := 0;
      percent := 0;
      stepName := "";
      loadingMessage := "";
      timerPending := false;
      indicators := new Indicator[count](_ => Indicator(false, false));
    }

    /** `updateProgressUI`: the percentage, the step name and the loading message. */
    method UpdateProgressUI(p: nat, name: string)
      modifies this
      ensures percent == p && stepName == name && loadingMessage == LoadingMessage(name)
      ensures currentStep == old(currentStep) && timerPending == old(timerPending)
    {
      percent := p;
      stepName := name;
      loadingMessage := LoadingMessage(name);
    }

    /** `resetProgress`: back to the first step, with only the first indicator active. */
    method ResetProgress()
      requires Valid()
      modifies this, indicators
      ensures Valid() && currentStep == 0 && percent == 0 && stepName == Steps[0].name
      ensures loadingMessage == LoadingMessage(Steps[0].name)
      ensures timerPending == old(timerPending)
      ensures forall i :: 0 <= i < indicators.Length ==> indicators[i] == IndicatorFor(i, 0)
    {
      currentStep := 0;
      UpdateProgressUI(0, Steps[0].name);
      SetAllIndicators(Indicator(false, false));
      indicators[0] := indicators[0].(active := true);
    }

    /**
     * `startProgressSimulation`: cancel any pending timeout, show the first step, make the
     * first indicator active and schedule the move to the next step. The current step is
     * left as it was.
     */
    method StartProgressSimulation()
      requires Valid()
      modifies this, indicators
      ensures Valid() && currentStep == old(currentStep) && timerPending
      ensures percent == 0 && stepName == Steps[0].name && loadingMessage == LoadingMessage(Steps[0].name)
      ensures indicators[0] == old(indicators[0]).(active := true)
      ensures forall i :: 1 <= i < indicators.Length ==> indicators[i] == old(indicators[i])
    {
      UpdateProgressUI(0, Steps[0].name);
      indicators[0] := indicators[0].(active := true);
      timerPending := true;
    }

    /** `updateStepIndicators`: every indicator takes the classes its position calls for. */
    method UpdateStepIndicators()
      modifies indicators
      ensures forall i :: 0 <= i < indicators.Length ==> indicators[i] == IndicatorFor(i, currentStep)
    {
      for i := 0 to indicators.Length
        invariant forall k :: 0 <= k < i ==> indicators[k] == IndicatorFor(k, currentStep)
      {
        indicators[i] := IndicatorFor(i, currentStep);
      }
    }

    /**
     * `moveToNextStep`, run when the timeout fires: advance one step without passing the last,
     * redraw the indicators, and schedule another move unless the last step is reached.
     */
    method MoveToNextStep()
      requires Valid()
      modifies this, indicators
      ensures Valid() && currentStep == NextStep(old(currentStep))
      ensures timerPending <==> currentStep < LastStep
      ensures percent == old(percent) && stepName == old(stepName) && loadingMessage == old(loadingMessage)
      ensures forall i :: 0 <= i < indicators.Length ==> indicators[i] == IndicatorFor(i, currentStep)
    {
      currentStep := NextStep(currentStep);
      UpdateStepIndicators();
      timerPending := currentStep < LastStep;
    }

    /** `stopProgressSimulation`: no timeout is left pending. */
    method StopProgressSimulation()
      modifies this
      ensures !timerPending
      ensures currentStep == old(currentStep) && percent == old(percent) && stepName == old(stepName)
      ensures loadingMessage == old(loadingMessage)
    {
      timerPending := false;
    }

    /** `completeProgress`: stop, show 100% and mark every indicator completed. */
    method CompleteProgress()
      requires Valid()
      modifies this, indicators
      ensures Valid() && !timerPending && percent == 100 && stepName == DoneName
      ensures loadingMessage == LoadingMessage(DoneName)
      ensures currentStep == old(currentStep)
      ensures forall i :: 0 <= i < indicators.Length ==> indicators[i] == Indicator(false, true)
    {
      StopProgressSimulation();
      UpdateProgressUI(100, DoneName);
      SetAllIndicators(Indicator(false, true));
    }

    /** The `forEach` over the indicators that gives each one the same classes. */
    method SetAllIndicators(v: Indicator)
      modifies indicators
      ensures forall i :: 0 <= i < indicators.Length ==> indicators[i] == v
    {
      for i := 0 to indicators.Length
        invariant forall k :: 0 <= k < i ==> indicators[k] == v
      {
        indicators[i] := v;
      }
    }
  }
}
