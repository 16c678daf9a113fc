/** app/ui/dialogs.py: the four prompts that ask for test-data parameters,
    and the processing-options dialog whose OK button validates the
    Savitzky-Golay settings before it closes. The user's actions are
    parameters: a prompt's answer is `None` when it is cancelled. */
module Dialogs {
  import opened PyCore

  /** The largest value `QInputDialog.getInt` accepts by default. */
  const IntMax: int := 2147483647

  const DefaultN: int := 1000
  const DefaultPeakSpace: int := 10
  const DefaultDetail: int := 3
  const DefaultNoise: real := 0.05
  const NoiseMin: real := 0.001
  const NoiseMax: real := 1.0

  const DefaultWindow: int := 21
  const DefaultPolyorder: int := 3
  const WindowMin: int := 3
  const WindowMax: int := 101
  const PolyMin: int := 1
  const PolyMax: int := 10

  /** A spin box keeps its value inside its range. */
  function Clamp(v: int, lo: int, hi: int): (r: int)
    requires lo <= hi
    ensures lo <= r <= hi
    ensures lo <= v <= hi ==> r == v
    ensures v < lo ==> r == lo
    ensures v > hi ==> r == hi
  {
    if v < lo then lo else if v > hi then hi else v
  }

  function ClampReal(v: real, lo: real, hi: real): (r: real)
    requires lo <= hi
    ensures lo <= r <= hi
    ensures lo <= v <= hi ==> r == v
  {
    if v < lo then lo else if v > hi then hi else v
  }

  /** `(n, peak_space, detail, noise_level)` */
  datatype TestDataParams = TestDataParams(n: int, peakSpace: int, detail: int, noiseLevel: real)

  /** `ask_test_data_params`: the four answers in turn; the first cancelled
      prompt makes the whole answer `None`. Each prompt only lets through a
      value inside its range. */
  function AskTestDataParams(n: Option<int>, peakSpace: Option<int>, detail: Option<int>, noise: Option<real>): (r: Option<TestDataParams>)
    ensures r.Some? <==> n.Some? && peakSpace.Some? && detail.Some? && noise.Some?
    ensures r.Some? ==>
      && 1 <= r.value.n <= IntMax && 1 <= r.value.peakSpace <= IntMax && 1 <= r.value.detail <= IntMax
      && NoiseMin <= r.value.noiseLevel <= NoiseMax
    ensures r.Some? && 1 <= n.value <= IntMax && 1 <= peakSpace.value <= IntMax && 1 <= detail.value <= IntMax ==>
      r.value.n == n.value && r.value.peakSpace == peakSpace.value && r.value.detail == detail.value
  {
    if n.None? then None
    else if peakSpace.None? then None
    else if detail.None? then None
    else if noise.None? then None
    else Some(TestDataParams(Clamp(n.value, 1, IntMax), Clamp(peakSpace.value, 1, IntMax),
                             Clamp(detail.value, 1, IntMax), ClampReal(noise.value, NoiseMin, NoiseMax)))
  }

  /** How the dialog ended: still open, closed by OK, closed otherwise. */
  datatype DialogCode = Open | Accepted | Rejected

  /** `(smooth_data, remove_baseline, window_size, polyorder)` */
  datatype ProcessingChoice = ProcessingChoice(smooth: bool, baseline: bool, window: int, polyorder: int)

  /** What the user does while the dialog is shown. */
  datatype Action =
    | ToggleSmooth(on: bool)
    | ToggleBaseline(on: bool)
    | EditWindow(value: int)
    | EditPolyorder(value: int)
    | PressOk
    | PressCancel

  /** The settings the smoothing accepts: an odd window inside the spin
      box's range, and a polynomial order inside its range and below the
      window. */
  predicate SmoothingSettings(window: int, polyorder: int) {
    WindowMin <= window <= WindowMax && window % 2 == 1 && PolyMin <= polyorder <= PolyMax && polyorder < window
  }

  /** A snapshot of the dialog: its result fields, its widgets and how it ended. */
  datatype DialogState = DialogState(
    smoothData: bool, removeBaseline: bool, windowSize: int, polyorder: int,
    smoothChecked: bool, baselineChecked: bool, windowSpin: int, polySpin: int, code: DialogCode)

  /** The dialog as `__init__` leaves it. */
  function Initial(): DialogState {
    DialogState(true, true, DefaultWindow, DefaultPolyorder, true, true, DefaultWindow, DefaultPolyorder, Open)
  }

  /** What one user action does to the dialog: the check boxes and spin
      boxes as Qt updates them, OK as `accept`, Cancel as `reject`. */
  function Apply(s: DialogState, a: Action): DialogState {
    match a
    case ToggleSmooth(on) => s.(smoothChecked := on)
    case ToggleBaseline(on) => s.(baselineChecked := on)
    case EditWindow(v) =>
      var c := Clamp(v, WindowMin, WindowMax);
      if c == s.windowSpin then s
      else if c % 2 == 0 then s.(windowSpin := Clamp(c + 1, WindowMin, WindowMax))
      else s.(windowSpin := c)
    case EditPolyorder(v) => s.(polySpin := Clamp(v, PolyMin, PolyMax))
    case PressOk =>
      var read := s.(smoothData := s.smoothChecked, removeBaseline := s.baselineChecked);
      if !s.smoothChecked then read.(code := Accepted)
      else if s.windowSpin % 2 == 0 || s.polySpin >= s.windowSpin then read
      else read.(windowSize := s.windowSpin, polyorder := s.polySpin, code := Accepted)
    case PressCancel => s.(code := Rejected)
  }

  /** `exec()`: the actions from index `i` on, until the dialog closes. */
  function Exec(s: DialogState, actions: seq<Action>, i: nat): DialogState
    decreases |actions| - i
  {
    if i >= |actions| || s.code != Open then s else Exec(Apply(s, actions[i]), actions, i + 1)
  }

  /** What `ask_processing_options` returns once `exec()` has ended in `s`. */
  function Outcome(s: DialogState): (r: Option<ProcessingChoice>)
    ensures r.Some? <==> s.code == Accepted
    ensures r.Some? ==> r.value == ProcessingChoice(s.smoothData, s.removeBaseline, s.windowSize, s.polyorder)
  {
    if s.code == Accepted then Some(ProcessingChoice(s.smoothData, s.removeBaseline, s.windowSize, s.polyorder)) else None
  }

  class ProcessingOptionsDialog {
    /** The dialog's result fields. */
    var smoothData: bool
    var removeBaseline: bool
    var windowSize: int
    var polyorder: int
    /** The widgets' state. */
    var smoothChecked: bool
    var baselineChecked: bool
    var windowSpin: int
    var polySpin: int
    var code: DialogCode

    function State(): DialogState
      reads this
    {
      DialogState(smoothData, removeBaseline, windowSize, polyorder, smoothChecked, baselineChecked, windowSpin, polySpin, code)
    }

    /** The spin boxes stay in their ranges, and the stored window and
        order are always a pair the smoothing accepts. */
    predicate Valid()
      reads this
    {
      && WindowMin <= windowSpin <= WindowMax && PolyMin <= polySpin <= PolyMax
      && SmoothingSettings(windowSize, polyorder)
    }

    /** `__init__` and `setup_ui`: both boxes checked, window 21, order 3. */
    constructor ()
      ensures Valid() && code == Open
      ensures smoothData && removeBaseline && windowSize == DefaultWindow && polyorder == DefaultPolyorder
      ensures smoothChecked && baselineChecked && windowSpin == DefaultWindow && polySpin == DefaultPolyorder
    {
      smoothData := true;
      removeBaseline := true;
      windowSize := DefaultWindow;
      polyorder := DefaultPolyorder;
      smoothChecked := true;
      baselineChecked := true;
      windowSpin := DefaultWindow;
      polySpin := DefaultPolyorder;
      code := Open;
    }

    /** `_ensure_odd_window_size`: an even value is moved up by one (the
        spin box clamps it to its range); an odd one is left alone. */
    method EnsureOddWindowSize(value: int)
      requires Valid() && value == windowSpin
      modifies this
      ensures Valid() && windowSpin % 2 == 1
      ensures old(windowSpin) % 2 == 1 ==> windowSpin == old(windowSpin)
      ensures old(windowSpin) % 2 == 0 ==> windowSpin == old(windowSpin) + 1
      ensures smoothData == old(smoothData) && removeBaseline == old(removeBaseline)
      ensures windowSize == old(windowSize) && polyorder == old(polyorder)
      ensures smoothChecked == old(smoothChecked) && baselineChecked == old(baselineChecked)
      ensures polySpin == old(polySpin) && code == old(code)
    {
      if value % 2 == 0 {
        windowSpin := Clamp(value + 1, WindowMin, WindowMax);
      }
    }

    /** The user sets the window spin box: the box clamps the value to its
        range and, when the value changed, `valueChanged` runs the odd-size
        correction. */
    method EditWindowSpin(v: int)
      requires Valid() && windowSpin % 2 == 1
      modifies this
      ensures Valid() && windowSpin % 2 == 1
      ensures windowSpin == Clamp(v, WindowMin, WindowMax) || windowSpin == Clamp(v, WindowMin, WindowMax) + 1
      ensures smoothData == old(smoothData) && removeBaseline == old(removeBaseline)
      ensures windowSize == old(windowSize) && polyorder == old(polyorder)
      ensures smoothChecked == old(smoothChecked) && baselineChecked == old(baselineChecked)
      ensures polySpin == old(polySpin) && code == old(code)
    {
      var c := Clamp(v, WindowMin, WindowMax);
      if c != windowSpin {
        windowSpin := c;
        EnsureOddWindowSize(c);
      }
    }

    /** The user sets the order spin box, which clamps to 1..10. */
    method EditPolySpin(v: int)
      requires Valid()
      modifies this
      ensures Valid() && polySpin == Clamp(v, PolyMin, PolyMax)
      ensures smoothData == old(smoothData) && removeBaseline == old(removeBaseline)
      ensures windowSize == old(windowSize) && polyorder == old(polyorder)
      ensures smoothChecked == old(smoothChecked) && baselineChecked == old(baselineChecked)
      ensures windowSpin == old(windowSpin) && code == old(code)
    {
      polySpin := Clamp(v, PolyMin, PolyMax);
    }

    /** `accept`: the check boxes are read first, so a refused OK still
        updates both flags. With smoothing on, an even window or an order
        not below the window keeps the dialog open and stores nothing
        else; otherwise the spin boxes are stored and the dialog closes.
        With smoothing off the stored window and order are left as they
        were. */
    method Accept() returns (closed: bool)
      requires Valid()
      modifies this
      ensures Valid()
      ensures smoothData == old(smoothChecked) && removeBaseline == old(baselineChecked)
      ensures closed <==> !old(smoothChecked) || (old(windowSpin) % 2 == 1 && old(polySpin) < old(windowSpin))
      ensures closed ==> code == Accepted
      ensures !closed ==> code == old(code)
      ensures closed && old(smoothChecked) ==> windowSize == old(windowSpin) && polyorder == old(polySpin)
      ensures !(closed && old(smoothChecked)) ==> windowSize == old(windowSize) && polyorder == old(polyorder)
      ensures smoothChecked == old(smoothChecked) && baselineChecked == old(baselineChecked)
      ensures windowSpin == old(windowSpin) && polySpin == old(polySpin)
    {
      smoothData := smoothChecked;
      removeBaseline := baselineChecked;
      if smoothData {
        var w := windowSpin;
        var p := polySpin;
        if w % 2 == 0 {
          return false;
        }
        if p >= w {
          return false;
        }
        windowSize := w;
        polyorder := p;
      }
      code := Accepted;
      closed := true;
    }

    /** `reject` (the Cancel button or closing the window). */
    method Reject()
      modifies this
      ensures code == Rejected
      ensures smoothData == old(smoothData) && removeBaseline == old(removeBaseline)
      ensures windowSize == old(windowSize) && polyorder == old(polyorder)
      ensures smoothChecked == old(smoothChecked) && baselineChecked == old(baselineChecked)
      ensures windowSpin == old(windowSpin) && polySpin == old(polySpin)
    {
      code := Rejected;
    }

    /** One user action on the open dialog, dispatched to the widget it
        touches. */
    method Handle(a: Action)
      requires Valid() && windowSpin % 2 == 1 && code == Open
      requires windowSize == DefaultWindow && polyorder == DefaultPolyorder
      modifies this
      ensures State() == Apply(old(State()), a)
      ensures Valid() && windowSpin % 2 == 1
      ensures code == Open || code == Accepted || code == Rejected
      ensures code != Accepted ==> windowSize == DefaultWindow && polyorder == DefaultPolyorder
      ensures code == Accepted && !smoothData ==> windowSize == DefaultWindow && polyorder == DefaultPolyorder
      ensures code == Accepted ==> a == PressOk
    {
      match a {
        case ToggleSmooth(on) =>
          smoothChecked := on;
        case ToggleBaseline(on) =>
          baselineChecked := on;
        case EditWindow(v) =>
          EditWindowSpin(v);
        case EditPolyorder(v) =>
          EditPolySpin(v);
        case PressOk =>
          var _ := Accept();
        case PressCancel =>
          Reject();
      }
    }
  }

  /** `ask_processing_options`: a fresh dialog runs until OK is accepted or
      the dialog is cancelled; the four result fields come back on accept,
      `None` otherwise (also when the actions end with the dialog still
      open, which is the window being closed). The result always holds a
      window and an order the smoothing accepts, and with smoothing off
      they are the defaults 21 and 3 whatever the spin boxes showed. */
  method AskProcessingOptions(actions: seq<Action>) returns (r: Option<ProcessingChoice>)
    ensures r == Outcome(Exec(Initial(), actions, 0))
    ensures r.Some? ==> SmoothingSettings(r.value.window, r.value.polyorder)
    ensures r.Some? && !r.value.smooth ==> r.value.window == DefaultWindow && r.value.polyorder == DefaultPolyorder
    ensures r.Some? ==> PressOk in actions
    ensures PressOk !in actions ==> r.None?
  {
    var d := new ProcessingOptionsDialog();
    var i := 0;
    while i < |actions| && d.code == Open
      invariant 0 <= i <= |actions|
      invariant d.Valid() && d.windowSpin % 2 == 1
      invariant d.code == Open || d.code == Accepted || d.code == Rejected
      invariant d.code != Accepted ==> d.windowSize == DefaultWindow && d.polyorder == DefaultPolyorder
      invariant d.code == Accepted && !d.smoothData ==> d.windowSize == DefaultWindow && d.polyorder == DefaultPolyorder
      invariant d.code == Accepted ==> PressOk in actions[..i]
      invariant Exec(Initial(), actions, 0) == Exec(d.State(), actions, i)
      decreases |actions| - i
    {
      d.Handle(actions[i]);
      assert actions[..i + 1] == actions[..i] + [actions[i]];
      i := i + 1;
    }
    if d.code == Accepted {
      r := Some(ProcessingChoice(d.smoothData, d.removeBaseline, d.windowSize, d.polyorder));
    } else {
      r := None;
    }
  }

  /** OK on the untouched dialog gives the defaults: smoothing and baseline
      correction on, window 21, order 3. */
  lemma OkAtOnceGivesDefaults(rest: seq<Action>)
    ensures Outcome(Exec(Initial(), [PressOk] + rest, 0)) == Some(ProcessingChoice(true, true, DefaultWindow, DefaultPolyorder))
  {
    var actions := [PressOk] + rest;
    assert actions[0] == PressOk;
    assert Exec(Initial(), actions, 0) == Exec(Apply(Initial(), PressOk), actions, 1);
  }

  /** An order not below the window keeps the dialog open on OK, so a later
      Cancel gives `None`; the same settings with smoothing off are accepted. */
  lemma OrderAboveWindowRefused()
    ensures Outcome(Exec(Initial(), [EditWindow(3), EditPolyorder(5), PressOk, PressCancel], 0)).None?
    ensures Outcome(Exec(Initial(), [EditWindow(3), EditPolyorder(5), ToggleSmooth(false), PressOk], 0))
      == Some(ProcessingChoice(false, true, DefaultWindow, DefaultPolyorder))
  {
    var a := [EditWindow(3), EditPolyorder(5), PressOk, PressCancel];
    var s1 := Apply(Initial(), EditWindow(3));
    var s2 := Apply(s1, EditPolyorder(5));
    assert s2.windowSpin == 3 && s2.polySpin == 5;
    var s3 := Apply(s2, PressOk);
    assert s3.code == Open;
    assert Exec(Initial(), a, 0) == Exec(s3, a, 3);
    var b := [EditWindow(3), EditPolyorder(5), ToggleSmooth(false), PressOk];
    var t3 := Apply(s2, ToggleSmooth(false));
    assert Exec(Initial(), b, 0) == Exec(Apply(t3, PressOk), b, 4);
  }

  /** Without an OK among the remaining actions the dialog is never
      accepted, so the answer is `None`. */
  lemma {:induction false} NoOkGivesNone(s: DialogState, actions: seq<Action>, i: nat)
    requires s.code != Accepted
    requires forall k | i <= k < |actions| :: actions[k] != PressOk
    ensures Outcome(Exec(s, actions, i)).None?
    decreases |actions| - i
  {
    if i < |actions| && s.code == Open {
      NoOkGivesNone(Apply(s, actions[i]), actions, i + 1);
    }
  }
}
