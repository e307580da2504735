/**
 * The three-step planner wizard (src/components/PlannerWizard.tsx).
 *
 * The component keeps a step counter and the answers gathered so far. Next and
 * Back move the counter; at step 3 Next hands the answers to the completion
 * callback instead. What the user can do on each step is limited by what is
 * rendered: the location field only on step 1, the occasion buttons only on
 * step 2, the destination buttons only on step 3, Next only while the current
 * step is valid, Back never on step 1. `Apply` models those user events.
 */
module Wizard {
  import opened Wrappers

  /** The answers collected by the wizard (the `WizardData` interface). */
  datatype WizardData = WizardData(startLocation: string, occasion: string, destination: string)

  /** Ids of the occasion buttons, in display order. */
  const OccasionIds: seq<string> := ["date", "friends", "dinner", "trip", "solo"]

  /** Ids of the destination buttons, in display order. */
  const DestinationIds: seq<string> := ["church-street", "mg-road", "commercial-street", "koramangala", "indiranagar"]

  const EmptyData := WizardData("", "", "")

  // ---------------------------------------------------------------------------
  // String.prototype.trim

  /** The characters JavaScript's `trim` removes: WhiteSpace and LineTerminator. */
  predicate IsSpace(c: char) {
    // WhiteSpace: TAB, VT, FF, SPACE, NO-BREAK SPACE, ZERO WIDTH NO-BREAK SPACE
    c == '\U{0009}' || c == '\U{000B}' || c == '\U{000C}' || c == '\U{0020}' || c == '\U{00A0}' || c == '\U{FEFF}'
    // the other space separators (general category Zs)
    || c == '\U{1680}' || ('\U{2000}' <= c <= '\U{200A}') || c == '\U{202F}' || c == '\U{205F}' || c == '\U{3000}'
    // LineTerminator: LF, CR, LINE SEPARATOR, PARAGRAPH SEPARATOR
    || c == '\U{000A}' || c == '\U{000D}' || c == '\U{2028}' || c == '\U{2029}'
  }

  predicate AllSpace(s: string) {
    forall i :: 0 <= i < |s| ==> IsSpace(s[i])
  }

  /** Drops leading white space: the result does not start with white space. */
  function TrimStart(s: string): (r: string)
    ensures |r| <= |s|
    ensures r != [] ==> !IsSpace(r[0])
  {
    if s != [] && IsSpace(s[0]) then TrimStart(s[1..]) else s
  }

  /** Drops trailing white space: the result does not end with white space. */
  function TrimEnd(s: string): (r: string)
    ensures |r| <= |s|
    ensures r != [] ==> !IsSpace(r[|r| - 1])
  {
    if s != [] && IsSpace(s[|s| - 1]) then TrimEnd(s[..|s| - 1]) else s
  }

  /** What `TrimStart` keeps is a suffix of its argument. */
  lemma {:induction false} TrimStartSuffix(s: string)
    ensures TrimStart(s) == s[|s| - |TrimStart(s)|..]
    ensures AllSpace(s[..|s| - |TrimStart(s)|])
  {
    if s != [] && IsSpace(s[0]) {
      var t := s[1..];
      TrimStartSuffix(t);
      var k := |t| - |TrimStart(t)|;
      var head := s[..k + 1];
      forall i | 0 <= i < |head| ensures IsSpace(head[i]) {
        if i > 0 { assert head[i] == t[..k][i - 1]; }
      }
    }
  }

  /** What `TrimEnd` keeps is a prefix of its argument. */
  lemma {:induction false} TrimEndPrefix(s: string)
    ensures TrimEnd(s) == s[..|TrimEnd(s)|]
    ensures AllSpace(s[|TrimEnd(s)|..])
  {
    if s != [] && IsSpace(s[|s| - 1]) {
      var p := s[..|s| - 1];
      TrimEndPrefix(p);
      var k := |TrimEnd(p)|;
      forall i | 0 <= i < |s| - k ensures IsSpace(s[k..][i]) {
        if i < |p| - k { assert s[k..][i] == p[k..][i]; }
      }
    }
  }

  /** `String.prototype.trim`: the suffix after the leading white space, cut before the trailing white space. */
  function Trim(s: string): (r: string)
    ensures exists i, j :: 0 <= i <= j <= |s| && r == s[i..j] && AllSpace(s[..i]) && AllSpace(s[j..])
    ensures r != [] ==> !IsSpace(r[0]) && !IsSpace(r[|r| - 1])
  {
    var t := TrimStart(s);
    TrimStartSuffix(s);
    TrimEndPrefix(t);
    var r := TrimEnd(t);
    var i, j := |s| - |t|, |s| - |t| + |r|;
    assert r == s[i..j];
    assert s[j..] == t[|r|..];
    r
  }

  lemma {:induction false} TrimStartEmptyIff(s: string)
    ensures TrimStart(s) == [] <==> AllSpace(s)
  {
    if s != [] && IsSpace(s[0]) {
      TrimStartEmptyIff(s[1..]);
      assert AllSpace(s) <==> AllSpace(s[1..]) by {
        if AllSpace(s[1..]) {
          forall i | 0 <= i < |s| ensures IsSpace(s[i]) {
            if i > 0 { assert s[i] == s[1..][i - 1]; }
          }
        }
      }
    } else if s != [] {
      assert !IsSpace(s[0]);
    }
  }

  lemma {:induction false} TrimEndEmptyIff(s: string)
    ensures TrimEnd(s) == [] <==> AllSpace(s)
  {
    if s != [] && IsSpace(s[|s| - 1]) {
      var p := s[..|s| - 1];
      TrimEndEmptyIff(p);
      assert AllSpace(s) <==> AllSpace(p) by {
        if AllSpace(p) {
          forall i | 0 <= i < |s| ensures IsSpace(s[i]) {
            if i < |s| - 1 { assert s[i] == p[i]; }
          }
        }
      }
    } else if s != [] {
      assert !IsSpace(s[|s| - 1]);
    }
  }

  /** `s.trim() !== ''` holds exactly when `s` has a character that is not white space. */
  lemma TrimNonEmptyIff(s: string)
    ensures Trim(s) != [] <==> exists i :: 0 <= i < |s| && !IsSpace(s[i])
  {
    var t := TrimStart(s);
    TrimStartEmptyIff(s);
    TrimEndEmptyIff(t);
    if t != [] {
      assert !IsSpace(t[0]);
    }
  }

  // ---------------------------------------------------------------------------
  // The state machine, on values

  /** The component's two state slots: `step` and `data`. */
  datatype WizardState = WizardState(step: int, data: WizardData)

  /** What a call to `handleNext` leaves behind: the new state, and the argument of `onComplete` when it fired. */
  datatype NextOutcome = NextOutcome(state: WizardState, completed: Option<WizardData>)

  /** The state a freshly mounted wizard starts in. */
  const Initial := WizardState(1, EmptyData)

  /** `isStepValid`: whether the current step's field has been filled in. */
  predicate IsStepValid(s: WizardState)
    ensures IsStepValid(s) ==> 1 <= s.step <= 3
    ensures IsStepValid(s) && s.step == 1 ==> !AllSpace(s.data.startLocation)
  {
    match s.step
    case 1 =>
      var t := Trim(s.data.startLocation);
      assert t != [] ==> t[0] in s.data.startLocation && !IsSpace(t[0]);
      t != ""
    case 2 => s.data.occasion != ""
    case 3 => s.data.destination != ""
    case _ => false
  }

  /** `handleNext`: advance below step 3, otherwise hand the answers to `onComplete`. */
  function Next(s: WizardState): (r: NextOutcome)
    ensures r.state.data == s.data
    ensures s.step < 3 ==> r.state.step == s.step + 1 && r.completed == None
    ensures s.step >= 3 ==> r.state.step == s.step && r.completed == Some(s.data)
  {
    if s.step < 3 then NextOutcome(s.(step := s.step + 1), None)
    else NextOutcome(s, Some(s.data))
  }

  /** `handleBack`: go back one step unless already on the first. */
  function Back(s: WizardState): (r: WizardState)
    ensures r.data == s.data
    ensures r.step == if s.step > 1 then s.step - 1 else s.step
  {
    if s.step > 1 then s.(step := s.step - 1) else s
  }

  /** The location input's `onChange`: replaces `startLocation`, keeps the other answers. */
  function WithStartLocation(s: WizardState, value: string): (r: WizardState)
    ensures r.step == s.step
    ensures r.data == WizardData(value, s.data.occasion, s.data.destination)
  {
    s.(data := s.data.(startLocation := value))
  }

  /** An occasion button's `onClick`: replaces `occasion`, keeps the other answers. */
  function WithOccasion(s: WizardState, id: string): (r: WizardState)
    ensures r.step == s.step
    ensures r.data == WizardData(s.data.startLocation, id, s.data.destination)
  {
    s.(data := s.data.(occasion := id))
  }

  /** A destination button's `onClick`: replaces `destination`, keeps the other answers. */
  function WithDestination(s: WizardState, id: string): (r: WizardState)
    ensures r.step == s.step
    ensures r.data == WizardData(s.data.startLocation, s.data.occasion, id)
  {
    s.(data := s.data.(destination := id))
  }

  /** What the user can do to the rendered wizard. */
  datatype Event =
    | TypeLocation(value: string)
    | ClickOccasion(id: string)
    | ClickDestination(id: string)
    | ClickNext
    | ClickBack

  /**
   * One user event on the rendered wizard. A control that is not on screen, or
   * a disabled button, does nothing.
   */
  function Apply(s: WizardState, e: Event): (r: NextOutcome)
    ensures r.state.data.startLocation != s.data.startLocation ==> e.TypeLocation? && s.step == 1
    ensures r.state.data.occasion != s.data.occasion ==> e.ClickOccasion? && s.step == 2 && e.id in OccasionIds
    ensures r.state.data.destination != s.data.destination ==> e.ClickDestination? && s.step == 3 && e.id in DestinationIds
    ensures r.state.step > s.step ==> e.ClickNext? && IsStepValid(s) && r.state.step == s.step + 1
    ensures r.state.step < s.step ==> e.ClickBack? && s.step > 1 && r.state.step == s.step - 1
    ensures r.completed.Some? ==> e.ClickNext? && IsStepValid(s) && s.step == 3 && r.completed == Some(s.data)
    // and every enabled control does what its handler does
    ensures e.ClickNext? ==> r == (if IsStepValid(s) then Next(s) else NextOutcome(s, None))
    ensures e.ClickBack? && s.step != 1 ==> r == NextOutcome(Back(s), None)
    ensures e.TypeLocation? && s.step == 1 ==> r == NextOutcome(WithStartLocation(s, e.value), None)
    ensures e.ClickOccasion? && s.step == 2 && e.id in OccasionIds ==> r == NextOutcome(WithOccasion(s, e.id), None)
    ensures e.ClickDestination? && s.step == 3 && e.id in DestinationIds ==> r == NextOutcome(WithDestination(s, e.id), None)
  {
    match e
    case TypeLocation(v) =>
      NextOutcome(if s.step == 1 then WithStartLocation(s, v) else s, None)
    case ClickOccasion(id) =>
      NextOutcome(if s.step == 2 && id in OccasionIds then WithOccasion(s, id) else s, None)
    case ClickDestination(id) =>
      NextOutcome(if s.step == 3 && id in DestinationIds then WithDestination(s, id) else s, None)
    case ClickNext =>
      if IsStepValid(s) then Next(s) else NextOutcome(s, None)
    case ClickBack =>
      NextOutcome(if s.step != 1 then Back(s) else s, None)
  }

  /** Answers fit to be handed over: a location that is not blank, and an occasion and destination from the fixed lists. */
  predicate IsComplete(d: WizardData) {
    Trim(d.startLocation) != "" && d.occasion in OccasionIds && d.destination in DestinationIds
  }

  /**
   * The invariant the rendered wizard keeps: the step stays in 1..3, every step
   * already passed holds a valid answer, and the chosen ids come from the lists.
   */
  predicate Reachable(s: WizardState) {
    1 <= s.step <= 3
    && (s.step >= 2 ==> Trim(s.data.startLocation) != "")
    && (s.step == 3 ==> s.data.occasion != "")
    && (s.data.occasion == "" || s.data.occasion in OccasionIds)
    && (s.data.destination == "" || s.data.destination in DestinationIds)
  }

  // ---------------------------------------------------------------------------
  // Properties

  lemma InitialIsReachable()
    ensures Initial.step == 1 && Initial.data == WizardData("", "", "")
    ensures Reachable(Initial) && !IsStepValid(Initial)
  {
    var t := Trim(Initial.data.startLocation);
    assert Initial.data.startLocation == [];
    assert |t| <= 0;
    assert t == [];
    assert !IsStepValid(Initial);
    assert Reachable(Initial);
  }

  /** On step 1, Next is enabled exactly when the location has a non-white-space character. */
  lemma StepOneValidIff(s: WizardState)
    requires s.step == 1
    ensures IsStepValid(s) <==> exists i :: 0 <= i < |s.data.startLocation| && !IsSpace(s.data.startLocation[i])
  {
    TrimNonEmptyIff(s.data.startLocation);
  }

  /** Every user event keeps the wizard reachable, and a completion carries complete answers. */
  lemma ApplyKeepsReachable(s: WizardState, e: Event)
    requires Reachable(s)
    ensures Reachable(Apply(s, e).state)
    ensures Apply(s, e).completed.Some? ==> s.step == 3 && Apply(s, e).completed == Some(s.data)
    ensures Apply(s, e).completed.Some? ==> IsComplete(Apply(s, e).completed.value)
  {
  }

  /** The state and the completions produced by a sequence of user events. */
  function Run(s: WizardState, es: seq<Event>): (r: (WizardState, seq<WizardData>))
    decreases |es|
  {
    if es == [] then (s, [])
    else
      var o := Apply(s, es[0]);
      var (t, done) := Run(o.state, es[1..]);
      (t, (if o.completed.Some? then [o.completed.value] else []) + done)
  }

  /** Under any sequence of user events the wizard stays reachable, and every completion carries complete answers. */
  lemma {:induction false} RunKeepsReachable(s: WizardState, es: seq<Event>)
    requires Reachable(s)
    ensures Reachable(Run(s, es).0)
    ensures forall d :: d in Run(s, es).1 ==> IsComplete(d)
    decreases |es|
  {
    if es != [] {
      ApplyKeepsReachable(s, es[0]);
      RunKeepsReachable(Apply(s, es[0]).state, es[1..]);
    }
  }

  /** Filling in every step and pressing Next three times hands the answers over exactly once. */
  lemma CompleteWalk()
    ensures var es := [TypeLocation("x"), ClickNext, ClickOccasion("date"), ClickNext, ClickDestination("mg-road"), ClickNext];
      Run(Initial, es).1 == [WizardData("x", "date", "mg-road")]
  {
  }

  /** A Next or Back press, without the button gating. */
  datatype Move = MoveNext | MoveBack

  function Navigate(s: WizardState, ms: seq<Move>): WizardState
    decreases |ms|
  {
    if ms == [] then s
    else Navigate(if ms[0] == MoveNext then Next(s).state else Back(s), ms[1..])
  }

  /** Even ignoring the gating, no sequence of Next and Back presses takes the step out of 1..3 or changes the answers. */
  lemma {:induction false} NavigateStaysInRange(s: WizardState, ms: seq<Move>)
    requires 1 <= s.step <= 3
    ensures 1 <= Navigate(s, ms).step <= 3
    ensures Navigate(s, ms).data == s.data
    decreases |ms|
  {
    if ms != [] {
      NavigateStaysInRange(if ms[0] == MoveNext then Next(s).state else Back(s), ms[1..]);
    }
  }

  // ---------------------------------------------------------------------------
  // The component

  class PlannerWizard {
    var step: int
    var data: WizardData

    function State(): WizardState
      reads this
    {
      WizardState(step, data)
    }

    constructor ()
      ensures State() == Initial
    {
      step := 1;
      data := EmptyData;
    }

    /** `handleNext`; `completed` is the argument `onComplete` was called with, if it was called. */
    method HandleNext() returns (completed: Option<WizardData>)
      modifies this
      ensures State() == Next(old(State())).state
      ensures completed == Next(old(State())).completed
    {
      if step < 3 {
        step := step + 1;
        completed := None;
      } else {
        completed := Some(data);
      }
    }

    method HandleBack()
      modifies this
      ensures State() == Back(old(State()))
    {
      if step > 1 {
        step := step - 1;
      }
    }

    method SetStartLocation(value: string)
      modifies this
      ensures State() == WithStartLocation(old(State()), value)
    {
      data := data.(startLocation := value);
    }

    method SelectOccasion(id: string)
      modifies this
      ensures State() == WithOccasion(old(State()), id)
    {
      data := data.(occasion := id);
    }

    method SelectDestination(id: string)
      modifies this
      ensures State() == WithDestination(old(State()), id)
    {
      data := data.(destination := id);
    }

    /** Routes one user event to the handler the rendered control calls, if that control is on screen and enabled. */
    method Dispatch(e: Event) returns (completed: Option<WizardData>)
      modifies this
      ensures State() == Apply(old(State()), e).state
      ensures completed == Apply(old(State()), e).completed
    {
      completed := None;
      match e
      case TypeLocation(v) =>
        if step == 1 { SetStartLocation(v); }
      case ClickOccasion(id) =>
        if step == 2 && id in OccasionIds { SelectOccasion(id); }
      case ClickDestination(id) =>
        if step == 3 && id in DestinationIds { SelectDestination(id); }
      case ClickNext =>
        if IsStepValid(State()) { completed := HandleNext(); }
      case ClickBack =>
        if step != 1 { HandleBack(); }
    }
  }
}
