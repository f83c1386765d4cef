/**
 * The landing page (`components/LandingPage.tsx`): a jurisdiction is picked
 * from the state list, and only Texas may go on to launch the application.
 */
module LandingPage {
  import opened Wrappers
  import opened Text
  import opened Constants

  const Texas := "TX"

  /** The error shown for a jurisdiction other than Texas. */
  function UnsupportedMessage(code: string): (r: string)
    ensures Contains(r, code)
    ensures StartsAt(r, "NFPcompass is currently only available for Texas formations.", 0)
  {
    var lead := "NFPcompass is currently only available for Texas formations. Support for ";
    var r := lead + code + " is coming soon.";
    assert r[|lead|..|lead| + |code|] == code;
    assert StartsAt(r, code, |lead|);
    assert r[..60] == lead[..60];
    r
  }

  /** The launch button is disabled exactly while nothing is selected. */
  function LaunchDisabled(selectedState: string): (r: bool)
    ensures r <==> |selectedState| == 0
  {
    selectedState == ""
  }

  /** The page's state, with the launches it has handed to the application. */
  class Landing {
    var selectedState: string
    var error: Option<string>
    var launched: seq<string>

    constructor ()
      ensures selectedState == "" && error.None? && launched == []
    {
      selectedState := "";
      error := None;
      launched := [];
    }

    /** `handleStateSelect`: the code is recorded and any error is cleared. */
    method HandleStateSelect(code: string)
      modifies this
      ensures selectedState == code && error.None? && launched == old(launched)
    {
      selectedState := code;
      error := None;
    }

    /**
     * `handleLaunch`: nothing without a selection; an error naming the code for
     * any jurisdiction but Texas; otherwise one launch with "TX".
     */
    method HandleLaunch()
      modifies this
      ensures selectedState == old(selectedState)
      ensures old(selectedState) == "" ==> error == old(error) && launched == old(launched)
      ensures old(selectedState) != "" && old(selectedState) != Texas ==>
        error == Some(UnsupportedMessage(old(selectedState))) && launched == old(launched)
      ensures old(selectedState) == Texas ==> error == old(error) && launched == old(launched) + [Texas]
    {
      if selectedState == "" {
        return;
      }
      if selectedState != Texas {
        error := Some(UnsupportedMessage(selectedState));
        return;
      }
      launched := launched + [selectedState];
    }
  }

  /** Texas is among the selectable states, so a launch is reachable from the list. */
  lemma TexasIsSelectable()
    ensures exists i :: 0 <= i < |UsStates| && UsStates[i].code == Texas
  {
    UsStatesShape();
  }
}
