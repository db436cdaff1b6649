/**
 * The TabTimer state machine as values: one transition function per method
 * of the widget, the invariant every reachable state keeps, and the
 * properties of editing and counting down.
 *
 * The repeating interval of `startTimer` is the flag `ticking`: it is set
 * where `setInterval` is called and cleared where `clearInterval` is called,
 * and the interval body is `Tick`.
 */
module TimerModel {
  import opened Wrappers
  import opened Digits
  import opened Clock

  /** Position in `digitGroups`: 0 = hours, 1 = minutes, 2 = seconds. */
  type GroupIndex = i: int | 0 <= i < 3

  const HOURS_GROUP: GroupIndex := 0
  const MINUTES_GROUP: GroupIndex := 1
  const SECONDS_GROUP: GroupIndex := 2

  /** A keyboard event: its `key` name and whether Shift was held. */
  datatype Key = Key(name: string, shiftKey: bool)

  /** What a click landed on, as far as `handleDocumentClick` tells targets apart. */
  datatype ClickTarget = DigitGroupTarget(group: GroupIndex) | StartPauseButton | ThemeToggle | Elsewhere

  datatype TimerState = TimerState(
    hours: nat,
    minutes: nat,
    seconds: nat,
    totalSeconds: int,
    isRunning: bool,
    isPaused: bool,
    currentEditingGroup: Option<GroupIndex>,
    tempInput: string,
    ticking: bool)

  /** The state the constructor builds, and the one completion returns to. */
  const INITIAL: TimerState := TimerState(0, 0, 0, 0, false, false, None, "", false)

  function Field(s: TimerState, g: GroupIndex): nat {
    if g == HOURS_GROUP then s.hours else if g == MINUTES_GROUP then s.minutes else s.seconds
  }

  /** The largest value a commit may write into a group. */
  function Limit(g: GroupIndex): nat {
    if g == HOURS_GROUP then MAX_HOURS else MAX_MINUTES
  }

  /** `Math.min(value, limit)` of `finalizeTempInput`. */
  function Clamp(g: GroupIndex, v: nat): (r: nat)
    ensures r <= Limit(g) && r <= v
    ensures r == v || r == Limit(g)
  {
    if v <= Limit(g) then v else Limit(g)
  }

  /** Editing is switched off while the countdown actively runs. */
  predicate EditingLocked(s: TimerState) {
    s.isRunning && !s.isPaused
  }

  /** The group that Tab (forward) or Shift+Tab (backward) moves to, cyclically. */
  function NextGroup(i: GroupIndex, reverse: bool): GroupIndex {
    if reverse then (i + 2) % 3 else (i + 1) % 3
  }

  // ---------------------------------------------------------------------------
  // Parts of the state, for "nothing else changes"

  predicate SameCount(a: TimerState, b: TimerState) {
    a.hours == b.hours && a.minutes == b.minutes && a.seconds == b.seconds && a.totalSeconds == b.totalSeconds
  }

  predicate SameFlags(a: TimerState, b: TimerState) {
    a.isRunning == b.isRunning && a.isPaused == b.isPaused && a.ticking == b.ticking
  }

  predicate SameEdit(a: TimerState, b: TimerState) {
    a.currentEditingGroup == b.currentEditingGroup && a.tempInput == b.tempInput
  }

  /** The two digit groups other than g hold the same values in a and b. */
  predicate OtherFieldsSame(a: TimerState, b: TimerState, g: GroupIndex) {
    (g != HOURS_GROUP ==> a.hours == b.hours)
    && (g != MINUTES_GROUP ==> a.minutes == b.minutes)
    && (g != SECONDS_GROUP ==> a.seconds == b.seconds)
  }

  predicate NoSelection(s: TimerState) {
    s.currentEditingGroup == None && s.tempInput == []
  }

  // ---------------------------------------------------------------------------
  // The invariant of every state the widget can reach

  predicate FieldsInRange(s: TimerState) {
    s.hours <= MAX_HOURS && s.minutes <= MAX_MINUTES && s.seconds <= MAX_SECONDS
    && 0 <= s.totalSeconds <= MAX_TOTAL
  }

  /** At most one pending digit between events, and only while a group is selected. */
  predicate PendingOk(s: TimerState) {
    |s.tempInput| <= 1 && AllDigits(s.tempInput)
    && (s.tempInput != [] ==> s.currentEditingGroup.Some?)
  }

  /**
   * The interval exists exactly while running and not paused; while it
   * exists the fields show the remaining total and nothing is being edited.
   */
  predicate TickerOk(s: TimerState) {
    (s.ticking <==> EditingLocked(s))
    && (s.isPaused ==> s.isRunning)
    && (s.ticking ==>
          1 <= s.totalSeconds
          && s.totalSeconds == Compose(s.hours, s.minutes, s.seconds)
          && s.currentEditingGroup == None)
  }

  predicate Inv(s: TimerState) {
    FieldsInRange(s) && PendingOk(s) && TickerOk(s)
  }

  lemma InitialInv()
    ensures Inv(INITIAL) && NoSelection(INITIAL) && !EditingLocked(INITIAL)
  {
  }

  // ---------------------------------------------------------------------------
  // Digit-group editing

  /** `clearSelection`: no group selected, no pending digits, the countdown untouched. */
  function ClearSelection(s: TimerState): (r: TimerState)
    ensures NoSelection(r) && SameCount(r, s) && SameFlags(r, s)
    ensures Inv(s) ==> Inv(r)
  {
    s.(currentEditingGroup := None, tempInput := "")
  }

  /** `selectDigitGroup`: ignored while locked; otherwise selects g with no pending digits. */
  function SelectDigitGroup(s: TimerState, g: GroupIndex): (r: TimerState)
    requires Inv(s)
    ensures Inv(r) && SameCount(r, s) && SameFlags(r, s)
    ensures EditingLocked(s) ==> r == s
    ensures !EditingLocked(s) ==> r.currentEditingGroup == Some(g) && r.tempInput == []
  {
    if EditingLocked(s) then s
    else ClearSelection(s).(currentEditingGroup := Some(g), tempInput := "")
  }

  /**
   * `finalizeTempInput`: with a group selected and digits pending, writes the
   * clamped value of the digits into that group alone and empties the pending
   * digits; otherwise changes nothing.
   */
  function FinalizeTempInput(s: TimerState): (r: TimerState)
    requires AllDigits(s.tempInput)
    ensures s.currentEditingGroup.None? || s.tempInput == [] ==> r == s
    ensures s.currentEditingGroup.Some? && s.tempInput != [] ==>
              var g := s.currentEditingGroup.value;
              && Field(r, g) == Clamp(g, ParseDigits(s.tempInput))
              && OtherFieldsSame(r, s, g)
              && r.totalSeconds == s.totalSeconds
              && SameFlags(r, s)
              && r.currentEditingGroup == s.currentEditingGroup
              && r.tempInput == []
    ensures SameFlags(r, s) && r.currentEditingGroup == s.currentEditingGroup
    ensures Inv(s) ==> Inv(r)
  {
    if s.currentEditingGroup.None? || s.tempInput == [] then s
    else
      var value := ParseDigits(s.tempInput);
      var g := s.currentEditingGroup.value;
      if g == HOURS_GROUP then
        s.(hours := Clamp(HOURS_GROUP, value), tempInput := "")
      else
        var finalValue := Clamp(g, value);
        if g == MINUTES_GROUP then s.(minutes := finalValue, tempInput := "")
        else s.(seconds := finalValue, tempInput := "")
  }

  /**
   * `handleDigitInput`: the first digit is held pending; the second commits
   * the two-digit value, clamped, into the selected group.
   */
  function HandleDigitInput(s: TimerState, digit: char): (r: TimerState)
    requires Inv(s) && IsDigit(digit) && s.currentEditingGroup.Some?
    ensures Inv(r) && SameFlags(r, s) && r.currentEditingGroup == s.currentEditingGroup
    ensures s.tempInput == [] ==> SameCount(r, s) && r.tempInput == [digit]
    ensures |s.tempInput| == 1 ==>
              var g := s.currentEditingGroup.value;
              && Field(r, g) == Clamp(g, 10 * DigitValue(s.tempInput[0]) + DigitValue(digit))
              && OtherFieldsSame(r, s, g)
              && r.totalSeconds == s.totalSeconds
              && r.tempInput == []
  {
    var s1 := s.(tempInput := s.tempInput + [digit]);
    ParseAppendDigit(s.tempInput, digit);
    if |s1.tempInput| >= 2 then
      assert s.tempInput == [s.tempInput[0]];
      assert ParseDigits(s1.tempInput) == 10 * DigitValue(s.tempInput[0]) + DigitValue(digit);
      FinalizeTempInput(s1)
    else s1
  }

  /**
   * `handleTabNavigation`: with nothing selected, selects hours; otherwise
   * commits the pending digits and moves one group forward (or backward),
   * wrapping at both ends.
   */
  function HandleTabNavigation(s: TimerState, reverse: bool): (r: TimerState)
    requires Inv(s)
    ensures Inv(r) && SameFlags(r, s)
    ensures EditingLocked(s) ==> r == s
    ensures !EditingLocked(s) && s.currentEditingGroup.None? ==>
              r.currentEditingGroup == Some(HOURS_GROUP) && r.tempInput == [] && SameCount(r, s)
    ensures !EditingLocked(s) && s.currentEditingGroup.Some? ==>
              && r.currentEditingGroup == Some(NextGroup(s.currentEditingGroup.value, reverse))
              && r.tempInput == []
              && SameCount(r, FinalizeTempInput(s))
  {
    if s.currentEditingGroup.None? then SelectDigitGroup(s, HOURS_GROUP)
    else
      var s1 := FinalizeTempInput(s);
      var currentIndex := s.currentEditingGroup.value;
      var nextIndex := if reverse then (if currentIndex > 0 then currentIndex - 1 else 2)
                       else (if currentIndex < 2 then currentIndex + 1 else 0);
      SelectDigitGroup(s1, nextIndex)
  }

  /** The key names matched by `/^\d$/`: the ten one-character digit names. */
  function IsDigitKey(name: string): (b: bool)
    ensures b <==> exists d :: 0 <= d < 10 && name == [DigitChar(d)]
  {
    if |name| == 1 && IsDigit(name[0]) then
      assert name == [DigitChar(DigitValue(name[0]))];
      true
    else
      false
  }

  /**
   * `handleKeyDown`: nothing while locked; Tab navigates; Enter commits and
   * deselects; a single digit with a group selected is digit input; every
   * other key is ignored.
   */
  function HandleKeyDown(s: TimerState, key: Key): (r: TimerState)
    requires Inv(s)
    ensures Inv(r) && SameFlags(r, s)
    ensures EditingLocked(s) ==> r == s
    ensures !EditingLocked(s) && key.name == "Tab" ==> r == HandleTabNavigation(s, key.shiftKey)
    ensures key.name == "Enter" && s.currentEditingGroup.Some? ==>
              NoSelection(r) && SameCount(r, FinalizeTempInput(s))
    ensures key.name == "Enter" && s.currentEditingGroup.None? ==> r == s
    ensures !EditingLocked(s) && s.currentEditingGroup.Some? && IsDigitKey(key.name) ==>
              r == HandleDigitInput(s, key.name[0])
    ensures key.name != "Tab" && key.name != "Enter" && (!IsDigitKey(key.name) || s.currentEditingGroup.None?) ==>
              r == s
  {
    if EditingLocked(s) then s
    else if key.name == "Tab" then HandleTabNavigation(s, key.shiftKey)
    else if key.name == "Enter" then
      if s.currentEditingGroup.Some? then ClearSelection(FinalizeTempInput(s)) else s
    else if s.currentEditingGroup.Some? && IsDigitKey(key.name) then HandleDigitInput(s, key.name[0])
    else s
  }

  /**
   * `handleDocumentClick`: a click outside the digit groups, the start/pause
   * button and the theme toggle commits and deselects; any other click
   * leaves the state alone.
   */
  function HandleDocumentClick(s: TimerState, target: ClickTarget): (r: TimerState)
    requires Inv(s)
    ensures Inv(r) && SameFlags(r, s)
    ensures target.Elsewhere? && s.currentEditingGroup.Some? ==>
              NoSelection(r) && SameCount(r, FinalizeTempInput(s))
    ensures !target.Elsewhere? || s.currentEditingGroup.None? ==> r == s
  {
    var isDigitGroup := target.DigitGroupTarget?;
    var isButton := target.StartPauseButton?;
    var isToggle := target.ThemeToggle?;
    if !isDigitGroup && !isButton && !isToggle && s.currentEditingGroup.Some? then
      ClearSelection(FinalizeTempInput(s))
    else s
  }

  // ---------------------------------------------------------------------------
  // Countdown

  /**
   * `startTimer` (reached only from `toggleTimer` when not running): commits
   * any open edit, sets the total from the committed fields, and starts the
   * one interval unless that total is zero.
   */
  function StartTimer(s: TimerState): (r: TimerState)
    requires Inv(s) && !s.isRunning
    ensures Inv(r) && NoSelection(r)
    ensures r.hours == FinalizeTempInput(s).hours
    ensures r.minutes == FinalizeTempInput(s).minutes
    ensures r.seconds == FinalizeTempInput(s).seconds
    ensures r.totalSeconds == Compose(r.hours, r.minutes, r.seconds)
    ensures Decompose(r.totalSeconds) == Hms(r.hours, r.minutes, r.seconds)
    ensures r.totalSeconds == 0 ==> !r.isRunning && !r.isPaused && !r.ticking
    ensures r.totalSeconds != 0 ==> r.isRunning && !r.isPaused && r.ticking
    // The interval started here is the only one: `!s.isRunning` and Inv(s) rule out a live one.
    ensures r.ticking ==> !s.ticking
  {
    var s1 := if s.currentEditingGroup.Some? then ClearSelection(FinalizeTempInput(s)) else s;
    var s2 := s1.(totalSeconds := s1.hours * 3600 + s1.minutes * 60 + s1.seconds);
    DecomposeCompose(s1.hours, s1.minutes, s1.seconds);
    if s2.totalSeconds == 0 then s2
    else s2.(isRunning := true, isPaused := false, ticking := true)
  }

  /** `pauseTimer`: stops the interval and sets the paused flag; nothing else changes. */
  function PauseTimer(s: TimerState): (r: TimerState)
    requires Inv(s) && s.isRunning
    ensures Inv(r) && SameCount(r, s) && SameEdit(r, s)
    ensures r.isRunning && r.isPaused && !r.ticking && !EditingLocked(r)
  {
    s.(isPaused := true, ticking := false)
  }

  /**
   * `toggleTimer` dispatches on `isRunning` alone: while running, paused or
   * not, it pauses, so a paused timer is never resumed.
   */
  function ToggleTimer(s: TimerState): (r: TimerState)
    requires Inv(s)
    ensures Inv(r)
    ensures !s.isRunning ==> r == StartTimer(s)
    ensures s.isRunning ==> r.isRunning && r.isPaused && !r.ticking && SameCount(r, s) && SameEdit(r, s)
    ensures s.isPaused ==> r == s
  {
    if !s.isRunning then StartTimer(s) else PauseTimer(s)
  }

  /** `completeTimer`: stops the interval and zeroes the countdown; the edit state is kept. */
  function CompleteTimer(s: TimerState): (r: TimerState)
    ensures Compose(r.hours, r.minutes, r.seconds) == 0 && r.totalSeconds == 0
    ensures !r.isRunning && !r.isPaused && !r.ticking
    ensures SameEdit(r, s)
  {
    s.(isRunning := false, isPaused := false, hours := 0, minutes := 0, seconds := 0, totalSeconds := 0,
       ticking := false)
  }

  /** `updateTimeFromTotal`: the fields become the decomposition of the total. */
  function UpdateTimeFromTotal(s: TimerState): (r: TimerState)
    requires s.totalSeconds >= 0
    ensures Hms(r.hours, r.minutes, r.seconds) == Decompose(s.totalSeconds)
    ensures r.totalSeconds == s.totalSeconds && SameFlags(r, s) && SameEdit(r, s)
  {
    var d := Decompose(s.totalSeconds);
    s.(hours := d.hours, minutes := d.minutes, seconds := d.seconds)
  }

  /**
   * The interval body: one second less, the fields re-derived from it, and
   * completion once it reaches zero.
   */
  function Tick(s: TimerState): (r: TimerState)
    requires Inv(s) && s.ticking
    ensures Inv(r)
    ensures s.totalSeconds > 1 ==>
              && r.ticking
              && r.totalSeconds == s.totalSeconds - 1
              && Compose(r.hours, r.minutes, r.seconds) == r.totalSeconds
              && r.minutes < 60 && r.seconds < 60
    ensures s.totalSeconds == 1 ==> r == INITIAL
  {
    var s1 := s.(totalSeconds := s.totalSeconds - 1);
    var s2 := UpdateTimeFromTotal(s1);
    if s2.totalSeconds <= 0 then CompleteTimer(s2) else s2
  }

  /** n runs of the interval body, none after the one that completes. */
  function Ticks(s: TimerState, n: nat): TimerState
    requires Inv(s) && (n == 0 || (s.ticking && n <= s.totalSeconds))
    decreases n
  {
    if n == 0 then s else Ticks(Tick(s), n - 1)
  }

  /**
   * A running countdown with total T keeps ticking for the first T - 1 ticks,
   * counting down by one each time, and the T-th tick completes it.
   */
  lemma {:induction false} CompletesAfterExactlyTotalTicks(s: TimerState, k: nat)
    requires Inv(s) && s.ticking && k <= s.totalSeconds
    ensures k < s.totalSeconds ==> Ticks(s, k).ticking && Ticks(s, k).totalSeconds == s.totalSeconds - k
    ensures k == s.totalSeconds ==> Ticks(s, k) == INITIAL
    decreases k
  {
    if k > 0 {
      var t := Tick(s);
      assert Ticks(s, k) == Ticks(t, k - 1);
      if s.totalSeconds > 1 {
        CompletesAfterExactlyTotalTicks(t, k - 1);
      }
    }
  }

  /** Starting with a non-zero total T and letting it run completes after exactly T ticks. */
  lemma StartThenRunToCompletion(s: TimerState)
    requires Inv(s) && !s.isRunning
    requires StartTimer(s).totalSeconds > 0
    ensures Ticks(StartTimer(s), StartTimer(s).totalSeconds) == INITIAL
  {
    CompletesAfterExactlyTotalTicks(StartTimer(s), StartTimer(s).totalSeconds);
  }

  // ---------------------------------------------------------------------------
  // Events, as the listeners of `bindEvents` deliver them

  datatype Event =
    | KeyDown(key: Key)
    | Click(target: ClickTarget)
    | Focus(group: GroupIndex)
    | IntervalFired

  /**
   * One event: a click first runs the target's own listener (a digit group's
   * `selectDigitGroup`, the button's `toggleTimer`; the theme toggle's listener
   * does not touch this state) and then bubbles to `handleDocumentClick`.
   * The interval fires only while it exists.
   */
  function Step(s: TimerState, e: Event): (r: TimerState)
    requires Inv(s)
    ensures Inv(r)
  {
    match e
    case KeyDown(key) => HandleKeyDown(s, key)
    case Focus(g) => SelectDigitGroup(s, g)
    case Click(target) =>
      var s1 := match target
        case DigitGroupTarget(g) => SelectDigitGroup(s, g)
        case StartPauseButton => ToggleTimer(s)
        case _ => s;
      HandleDocumentClick(s1, target)
    case IntervalFired => if s.ticking then Tick(s) else s
  }

  function Run(s: TimerState, events: seq<Event>): (r: TimerState)
    requires Inv(s)
    ensures Inv(r)
    decreases |events|
  {
    if events == [] then s else Run(Step(s, events[0]), events[1..])
  }

  /**
   * While the countdown actively runs, every event other than the start/pause
   * button and the interval itself leaves the whole state unchanged.
   */
  lemma LockedIgnoresEditing(s: TimerState, e: Event)
    requires Inv(s) && EditingLocked(s)
    requires !e.IntervalFired? && e != Click(StartPauseButton)
    ensures Step(s, e) == s
  {
  }

  /**
   * Once paused, no sequence of events resumes or completes the countdown:
   * the button pauses again, and no interval exists to fire.
   */
  lemma {:induction false} PausedNeverResumes(s: TimerState, events: seq<Event>)
    requires Inv(s) && s.isPaused
    ensures Run(s, events).isRunning && Run(s, events).isPaused && !Run(s, events).ticking
    decreases |events|
  {
    if events != [] {
      var s1 := Step(s, events[0]);
      assert s1.isRunning && s1.isPaused && !s1.ticking by {
        match events[0]
        case Click(target) =>
          var s0 := match target
            case DigitGroupTarget(g) => SelectDigitGroup(s, g)
            case StartPauseButton => ToggleTimer(s)
            case _ => s;
          assert SameFlags(s0, s);
        case _ =>
      }
      PausedNeverResumes(s1, events[1..]);
    }
  }

  /**
   * Selecting a group and typing two digits commits their two-digit value,
   * clamped, into that group alone and keeps the group selected.
   */
  lemma TwoDigitsCommit(s: TimerState, g: GroupIndex, a: char, b: char)
    requires Inv(s) && !EditingLocked(s) && IsDigit(a) && IsDigit(b)
    ensures var r := Run(s, [Focus(g), KeyDown(Key([a], false)), KeyDown(Key([b], false))]);
            && Field(r, g) == Clamp(g, 10 * DigitValue(a) + DigitValue(b))
            && OtherFieldsSame(r, s, g)
            && r.totalSeconds == s.totalSeconds
            && SameFlags(r, s)
            && r.currentEditingGroup == Some(g) && r.tempInput == []
  {
    var s1 := Step(s, Focus(g));
    var s2 := Step(s1, KeyDown(Key([a], false)));
    var s3 := Step(s2, KeyDown(Key([b], false)));
    assert s2.tempInput == [a];
    var events := [Focus(g), KeyDown(Key([a], false)), KeyDown(Key([b], false))];
    assert events[0] == Focus(g) && events[1..][0] == KeyDown(Key([a], false));
    assert events[1..][1..][0] == KeyDown(Key([b], false)) && events[1..][1..][1..] == [];
    assert Run(s3, []) == s3;
    assert Run(s2, events[1..][1..]) == s3;
    assert Run(s1, events[1..]) == s3;
  }

  /**
   * A click on a digit group after its focus event leaves the same state as
   * the click alone: selecting the same group twice is selecting it once.
   */
  lemma FocusThenClick(s: TimerState, g: GroupIndex)
    requires Inv(s)
    ensures Step(Step(s, Focus(g)), Click(DigitGroupTarget(g))) == Step(s, Click(DigitGroupTarget(g)))
  {
  }

  /** Navigating forward three times, or forward then back, returns to the same group. */
  lemma TabNavigationIsCyclic(s: TimerState, reverse: bool)
    requires Inv(s) && !EditingLocked(s) && s.currentEditingGroup.Some?
    ensures HandleTabNavigation(HandleTabNavigation(HandleTabNavigation(s, reverse), reverse), reverse)
              .currentEditingGroup == s.currentEditingGroup
    ensures HandleTabNavigation(HandleTabNavigation(s, reverse), !reverse).currentEditingGroup
              == s.currentEditingGroup
  {
  }

  /** Shift+Tab from hours wraps to seconds; Tab from seconds wraps to hours. */
  lemma TabWrapsAtBothEnds(s: TimerState)
    requires Inv(s) && !EditingLocked(s)
    ensures s.currentEditingGroup == Some(HOURS_GROUP) ==>
              HandleKeyDown(s, Key("Tab", true)).currentEditingGroup == Some(SECONDS_GROUP)
    ensures s.currentEditingGroup == Some(SECONDS_GROUP) ==>
              HandleKeyDown(s, Key("Tab", false)).currentEditingGroup == Some(HOURS_GROUP)
    ensures s.currentEditingGroup == None ==>
              HandleKeyDown(s, Key("Tab", false)).currentEditingGroup == Some(HOURS_GROUP)
  {
  }
}
