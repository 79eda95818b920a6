/**
 * The featured-keyword buttons of app/static/js/script.js and the state of their selection:
 * - the selected keyword and the time it was selected;
 * - the keyword input;
 * - the checked gender radio button;
 * - the button marked active;
 * - the genders whose keyword list was reloaded.
 *
 * Events a handler dispatches (`input`, `change`) run their listeners at once, so such a
 * dispatch is a call of the listener's method. `Date.now()` and the answer to `confirm()`
 * are parameters.
 */
module KeywordSelection {
  import opened Wrappers
  import opened JsText

  /** A featured keyword as its button carries it. */
  datatype FeaturedButton = FeaturedButton(name: string, keyword: string, gender: string)

  /** The values of the gender radio buttons. */
  const Genders: seq<string> := ["ladies", "mens"]

  /** A gender change this soon after a selection is taken to come from the selection itself. */
  const AutomaticChangeWindow: int := 1000
  /** A selection older than this no longer counts as the reason for the checked gender. */
  const ManualChangeAge: int := 3000

  /** `this.lastSelectionTime && ...`: a missing time and a time of 0 are both falsy. */
  predicate TimeTruthy(t: Option<int>) {
    t.Some? && t.value != 0
  }

  /** The change listener's guard: a selection was made less than a second before `now`. */
  predicate WithinAutomaticWindow(t: Option<int>, now: int) {
    TimeTruthy(t) && now - t.value < AutomaticChangeWindow
  }

  class FeaturedSelection {
    var selected: Option<FeaturedButton>
    var lastSelectionTime: Option<int>
    var inputValue: string
    var checkedGender: Option<string>
    /** The name on the button marked `active`, if any. */
    var activeName: Option<string>
    /** Every gender for which the keyword list was reloaded, in order. */
    var reloads: seq<string>

    /**
     * A selection and its time come and go together, a button marked active is the selected
     * one (a selection may have no active button: a reload of the list removes the buttons),
     * and the keyword input still shows the selected keyword, perhaps with surrounding spaces.
     */
    ghost predicate Valid()
      reads this
    {
      (selected.None? <==> lastSelectionTime.None?) &&
      (activeName.Some? ==> selected.Some? && activeName == Some(selected.value.name)) &&
      (selected.Some? ==>
        (inputValue == selected.value.keyword || Trim(inputValue) == selected.value.keyword)) &&
      (checkedGender.None? || checkedGender.value in Genders)
    }

    /** The page as it loads: no selection, an empty input, `gender` checked. */
    constructor (gender: Option<string>)
      requires gender.None? || gender.value in Genders
      ensures Valid() && selected.None? && inputValue == "" && checkedGender == gender && reloads == []
    {
      selected := None;
      lastSelectionTime := None;
      inputValue := "";
      checkedGender := gender;
      activeName := None;
      reloads := [];
    }

    /** `clearSelection`: no button active, no selection, no selection time. */
    method ClearSelection()
      requires checkedGender.None? || checkedGender.value in Genders
      modifies this
      ensures Valid()
      ensures selected.None? && lastSelectionTime.None? && activeName.None?
      ensures inputValue == old(inputValue) && checkedGender == old(checkedGender) && reloads == old(reloads)
    {
      selected := None;
      lastSelectionTime := None;
      activeName := None;
    }

    /**
     * The `input` listener of the keyword field: a selection survives only while the trimmed
     * input equals the selected keyword.
     */
    method OnKeywordInput(value: string)
      requires Valid()
      modifies this
      ensures Valid()
      ensures inputValue == value && checkedGender == old(checkedGender) && reloads == old(reloads)
      ensures old(selected).Some? && Trim(value) == old(selected).value.keyword ==>
        selected == old(selected) && lastSelectionTime == old(lastSelectionTime) && activeName == old(activeName)
      ensures !(old(selected).Some? && Trim(value) == old(selected).value.keyword) ==>
        selected.None? && lastSelectionTime.None? && activeName.None?
    {
      inputValue := value;
      if selected.Some? && Trim(value) != selected.value.keyword {
        ClearSelection();
      }
    }

    /** `checkIfManuallySelected`: no selection time, or one more than three seconds old. */
    predicate CheckIfManuallySelected(now: int)
      reads this
    {
      !TimeTruthy(lastSelectionTime) || now - lastSelectionTime.value > ManualChangeAge
    }

    /**
     * The `change` listener of the gender radios, after the browser has checked `value`.
     * Within a second of a selection it does nothing. Otherwise it reloads the keyword list
     * for that gender, which clears the selection before the listener looks at it again.
     */
    method OnGenderChanged(value: string, now: int)
      requires Valid()
      modifies this
      ensures Valid()
      ensures checkedGender == old(checkedGender) && inputValue == old(inputValue)
      ensures WithinAutomaticWindow(old(lastSelectionTime), now) ==>
        selected == old(selected) && lastSelectionTime == old(lastSelectionTime) &&
        activeName == old(activeName) && reloads == old(reloads)
      ensures !WithinAutomaticWindow(old(lastSelectionTime), now) ==>
        selected.None? && lastSelectionTime.None? && activeName.None? && reloads == old(reloads) + [value]
    {
      if WithinAutomaticWindow(lastSelectionTime, now) {
        return;
      }
      reloads := reloads + [value];
      ClearSelection();
      // The listener's own `if (this.selectedKeyword)` branch, which would clear the selection
      // again and show a toast, is never taken: the reload has just cleared the selection.
    }

    /**
     * `selectGender`: nothing when `gender` is already checked. When another gender is checked
     * and the selection does not look automatic, `confirm()` is asked, and a refusal keeps the
     * old gender. Otherwise the radios are set to `gender`, none of them when it is not one of
     * their values, and a match dispatches `change`. `asked` tells whether the dialog appeared.
     */
    method SelectGender(gender: string, now: int, confirmed: bool) returns (asked: bool)
      requires Valid()
      modifies this
      ensures Valid() && inputValue == old(inputValue)
      ensures asked <==> (old(checkedGender).Some? && old(checkedGender) != Some(gender) &&
        old(checkedGender).value != "" && CheckIfManuallySelectedAt(old(lastSelectionTime), now))
      ensures old(checkedGender) == Some(gender) || (asked && !confirmed) ==>
        checkedGender == old(checkedGender) && selected == old(selected) && reloads == old(reloads)
      ensures !(old(checkedGender) == Some(gender) || (asked && !confirmed)) ==>
        checkedGender == (if gender in Genders then Some(gender) else None)
      ensures var reloaded := !(old(checkedGender) == Some(gender) || (asked && !confirmed)) &&
          gender in Genders && !WithinAutomaticWindow(old(lastSelectionTime), now);
        (reloaded ==> (selected.None? && lastSelectionTime.None? && activeName.None? &&
                       reloads == old(reloads) + [gender])) &&
        (!reloaded ==> (selected == old(selected) && lastSelectionTime == old(lastSelectionTime) &&
                        activeName == old(activeName) && reloads == old(reloads)))
    {
      asked := false;
      var current := checkedGender;
      if current == Some(gender) {
        return;
      }
      if current.Some? && current.value != "" && current.value != gender {
        if CheckIfManuallySelected(now) {
          asked := true;
          if !confirmed {
            return;
          }
        }
      }
      if gender in Genders {
        checkedGender := Some(gender);
        OnGenderChanged(gender, now);
      } else {
        checkedGender := None;
      }
    }

    /**
     * `selectFeaturedKeyword`. Clicking the selected keyword again deselects it. Any other
     * keyword clears the old selection, fills the input, picks the keyword's gender and becomes
     * the selection.
     *
     * The old selection is cleared first, so the gender check sees no selection time and treats
     * the checked gender as chosen by hand: whenever it differs, `confirm()` is asked. The
     * `change` that follows finds no selection time either, so the one-second guard does not
     * hold it back and the keyword list is reloaded for the new gender. That reload first
     * replaces the list with its loading view, so no button is left to mark active; the
     * buttons the reload renders afterwards are all unpressed.
     */
    method SelectFeaturedKeyword(kw: FeaturedButton, now: int, confirmed: bool) returns (asked: bool)
      requires Valid()
      modifies this
      ensures Valid()
      ensures old(selected).Some? && old(selected).value.keyword == kw.keyword ==>
        !asked && selected.None? && inputValue == "" && checkedGender == old(checkedGender) &&
        reloads == old(reloads)
      ensures !(old(selected).Some? && old(selected).value.keyword == kw.keyword) ==>
        selected == Some(kw) && lastSelectionTime == Some(now) && inputValue == kw.keyword &&
        activeName == (if old(checkedGender) != Some(kw.gender) && !(asked && !confirmed) && kw.gender in Genders
                       then None else Some(kw.name)) &&
        (asked <==> old(checkedGender).Some? && old(checkedGender) != Some(kw.gender)) &&
        (old(checkedGender) == Some(kw.gender) || (asked && !confirmed) ==> checkedGender == old(checkedGender)) &&
        (!(old(checkedGender) == Some(kw.gender) || (asked && !confirmed)) ==>
          checkedGender == (if kw.gender in Genders then Some(kw.gender) else None)) &&
        reloads == old(reloads) +
          (if old(checkedGender) != Some(kw.gender) && !(asked && !confirmed) && kw.gender in Genders
           then [kw.gender] else [])
    {
      if selected.Some? && selected.value.keyword == kw.keyword {
        DeselectFeaturedKeyword();
        asked := false;
        return;
      }
      ClearSelection();
      OnKeywordInput(kw.keyword);
      var before := |reloads|;
      asked := SelectGender(kw.gender, now, confirmed);
      if |reloads| == before {
        activeName := Some(kw.name);
      }
      selected := Some(kw);
      lastSelectionTime := Some(now);
    }

    /** `deselectFeaturedKeyword`: empty the input (dispatching `input`) and clear the selection. */
    method DeselectFeaturedKeyword()
      requires Valid()
      modifies this
      ensures Valid() && selected.None? && lastSelectionTime.None? && activeName.None?
      ensures inputValue == "" && checkedGender == old(checkedGender) && reloads == old(reloads)
    {
      OnKeywordInput("");
      ClearSelection();
    }
  }

  /** `checkIfManuallySelected` for a given selection time. */
  predicate CheckIfManuallySelectedAt(t: Option<int>, now: int) {
    !TimeTruthy(t) || now - t.value > ManualChangeAge
  }
}
