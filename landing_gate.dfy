/** The entry screen: choose an identity and a mode, then enter. */
module Gate {
  import opened Types
  import opened Constants

  /** The position of the first profile whose display name is `name`, if any. */
  function FindByDisplayName(profiles: seq<UserProfile>, name: string): (r: Option<nat>)
    ensures r.Some? ==> r.value < |profiles| && profiles[r.value].displayName == name
    ensures r.Some? ==> forall j :: 0 <= j < r.value ==> profiles[j].displayName != name
    ensures r.None? ==> forall j :: 0 <= j < |profiles| ==> profiles[j].displayName != name
  {
    if |profiles| == 0 then None
    else if profiles[0].displayName == name then Some(0)
    else
      match FindByDisplayName(profiles[1..], name)
      case None => None
      case Some(i) => Some(i + 1)
  }

  /** The entry screen's two pieces of state. */
  class LandingGate {
    var selectedName: string
    var mode: SpinMode

    /** Nothing is selected and the mode starts as REGULER. */
    constructor ()
      ensures selectedName == "" && mode == REGULER
    {
      selectedName := "";
      mode := REGULER;
    }

    method SelectName(name: string)
      modifies this`selectedName
      ensures selectedName == name
    {
      selectedName := name;
    }

    method SelectMode(m: SpinMode)
      modifies this`mode
      ensures mode == m
    {
      mode := m;
    }

    /** The profile handed to the app when the user enters, or None when nothing happens. */
    method HandleEnter() returns (entered: Option<UserProfile>)
      ensures selectedName == "" ==> entered.None?
      ensures entered.None? && selectedName != "" ==>
        forall j :: 0 <= j < |NamesList()| ==> NamesList()[j].displayName != selectedName
      ensures entered.Some? ==>
        exists i :: 0 <= i < |NamesList()| && NamesList()[i].displayName == selectedName
          && entered.value == NamesList()[i].(selectedMode := Some(mode))
      ensures entered.Some? ==>
        entered.value == UserProfile(selectedName, selectedName, Some(mode))
    {
      if selectedName == "" {
        return None;
      }
      var found := FindByDisplayName(NamesList(), selectedName);
      match found {
        case None =>
          entered := None;
        case Some(i) =>
          entered := Some(NamesList()[i].(selectedMode := Some(mode)));
      }
    }
  }
}
