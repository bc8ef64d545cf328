/** The search bar: what it shows and which callbacks its gestures invoke, as functions of its
    props. It keeps no state of its own. */
module SearchBar {
  import opened Wrappers
  import Text

  const SearchLabel := "Search"
  const SearchingLabel := "Searching\U{2026}"
  const UseLocationLabel := "Use my location"
  const LocatingLabel := "Locating\U{2026}"

  /** The props; `hasUseMyLocation` says whether an `onUseMyLocationPress` callback was passed,
      and the optional flags are None when omitted. */
  datatype Props = Props(
    value: string,
    hasUseMyLocation: bool,
    isSearching: Option<bool>,
    isLocating: Option<bool>,
    errorMessage: Option<string>)

  datatype Button = Button(title: string, disabled: bool)

  /** What is rendered: the search button, the location button if any, the error text if any. */
  datatype View = View(search: Button, useLocation: Option<Button>, errorText: Option<string>)

  /** The gestures the bar reacts to, and the callbacks it may invoke. */
  datatype Gesture = PressSearch | SubmitKeyboard | PressUseLocation
  datatype Callback = OnSearchPress | OnUseMyLocationPress

  /** The flags default to false when omitted. */
  function Searching(p: Props): (b: bool)
    ensures b <==> p.isSearching == Some(true)
  {
    p.isSearching.GetOr(false)
  }

  function Locating(p: Props): (b: bool)
    ensures b <==> p.isLocating == Some(true)
  {
    p.isLocating.GetOr(false)
  }

  /** `isSearchDisabled`: a search is running, or the input is blank. */
  predicate IsSearchDisabled(p: Props)
    ensures IsSearchDisabled(p) <==> p.isSearching == Some(true) || Text.AllWhitespace(p.value)
  {
    Text.TrimEmptyIff(p.value);
    Searching(p) || Text.Trim(p.value) == []
  }

  /** `isUseLocationDisabled`: a location lookup is running. */
  predicate IsUseLocationDisabled(p: Props)
    ensures IsUseLocationDisabled(p) <==> p.isLocating == Some(true)
  {
    Locating(p)
  }

  /** The rendered bar: the search button is disabled exactly while a search runs or the input
      is blank, and reads "Searching…" exactly while a search runs; the location button exists
      exactly when its callback was given, is disabled exactly while locating, and reads
      "Locating…" exactly then; the error text is shown exactly when the message is a non-empty
      string. */
  function Render(p: Props): (v: View)
    ensures v.search.disabled <==> Searching(p) || Text.AllWhitespace(p.value)
    ensures v.search.title == (if Searching(p) then SearchingLabel else SearchLabel)
    ensures v.useLocation.Some? <==> p.hasUseMyLocation
    ensures v.useLocation.Some? ==> && (v.useLocation.value.disabled <==> Locating(p))
                                    && v.useLocation.value.title == (if Locating(p) then LocatingLabel else UseLocationLabel)
    ensures v.errorText.Some? <==> p.errorMessage.Some? && p.errorMessage.value != []
    ensures v.errorText.Some? ==> v.errorText == p.errorMessage
  {
    Text.TrimEmptyIff(p.value);
    View(
      Button(if Searching(p) then SearchingLabel else SearchLabel, IsSearchDisabled(p)),
      if p.hasUseMyLocation
      then Some(Button(if Locating(p) then LocatingLabel else UseLocationLabel, IsUseLocationDisabled(p)))
      else None,
      if p.errorMessage.Some? && p.errorMessage.value != [] then p.errorMessage else None)
  }

  /** The callbacks one gesture invokes: a press on a disabled (or absent) button invokes nothing,
      and a keyboard submit invokes the search callback whatever the disabled state. */
  function Invoked(p: Props, g: Gesture): (cs: seq<Callback>)
    ensures g == SubmitKeyboard ==> cs == [OnSearchPress]
    ensures g == PressSearch ==> cs == if Render(p).search.disabled then [] else [OnSearchPress]
    ensures g == PressUseLocation ==>
              cs == if Render(p).useLocation.Some? && !Render(p).useLocation.value.disabled
                    then [OnUseMyLocationPress] else []
    ensures |cs| <= 1
  {
    match g
    case SubmitKeyboard => [OnSearchPress]
    case PressSearch => if IsSearchDisabled(p) then [] else [OnSearchPress]
    case PressUseLocation =>
      if p.hasUseMyLocation && !IsUseLocationDisabled(p) then [OnUseMyLocationPress] else []
  }

  /** The bar's sample: with the value "Some address" and the flags omitted, pressing the
      "Search" button invokes the search callback exactly once. */
  lemma SamplePress()
    ensures var p := Props("Some address", false, None, None, None);
            Render(p).search.title == SearchLabel && Invoked(p, PressSearch) == [OnSearchPress]
  {
    assert !Text.IsWhitespace("Some address"[0]);
  }
}
