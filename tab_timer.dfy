/**
 * The widget object: the fields of `TabTimer` updated in place by its
 * methods. Each method's new state is the matching transition of
 * TimerModel applied to the old state, so every property proved there
 * holds of the object; the ghost field `ticking` stands for the interval
 * handle `intervalId`.
 */
module Timer {
  import opened Wrappers
  import opened Digits
  import TimerModel

  class TabTimer {
    var hours: nat
    var minutes: nat
    var seconds: nat
    var totalSeconds: int
    var isRunning: bool
    var isPaused: bool
    var currentEditingGroup: Option<TimerModel.GroupIndex>
    var tempInput: string
    /** Whether the repeating interval started by `StartTimer` is active. */
    ghost var ticking: bool

    ghost function State(): TimerModel.TimerState
      reads this
    {
      TimerModel.TimerState(hours, minutes, seconds, totalSeconds, isRunning, isPaused,
                            currentEditingGroup, tempInput, ticking)
    }

    ghost predicate Valid()
      reads this
    {
      TimerModel.Inv(State())
    }

    constructor ()
      ensures Valid() && State() == TimerModel.INITIAL
    {
      hours, minutes, seconds, totalSeconds := 0, 0, 0, 0;
      isRunning, isPaused := false, false;
      currentEditingGroup := None;
      tempInput := "";
      ticking := false;
    }

    method SelectDigitGroup(g: TimerModel.GroupIndex)
      requires Valid()
      modifies this
      ensures Valid() && State() == TimerModel.SelectDigitGroup(old(State()), g)
    {
      if isRunning && !isPaused {
        return;
      }
      ClearSelection();
      currentEditingGroup := Some(g);
      tempInput := "";
    }

    method ClearSelection()
      modifies this
      ensures State() == TimerModel.ClearSelection(old(State()))
    {
      currentEditingGroup := None;
      tempInput := "";
    }

    method HandleDocumentClick(target: TimerModel.ClickTarget)
      requires Valid()
      modifies this
      ensures Valid() && State() == TimerModel.HandleDocumentClick(old(State()), target)
    {
      var isDigitGroup := target.DigitGroupTarget?;
      var isButton := target.StartPauseButton?;
      var isToggle := target.ThemeToggle?;
      if !isDigitGroup && !isButton && !isToggle && currentEditingGroup.Some? {
        FinalizeTempInput();
        ClearSelection();
      }
    }

    method HandleKeyDown(key: TimerModel.Key)
      requires Valid()
      modifies this
      ensures Valid() && State() == TimerModel.HandleKeyDown(old(State()), key)
    {
      if isRunning && !isPaused {
        return;
      }
      if key.name == "Tab" {
        HandleTabNavigation(key.shiftKey);
        return;
      }
      if key.name == "Enter" {
        if currentEditingGroup.Some? {
          FinalizeTempInput();
          ClearSelection();
        }
        return;
      }
      if currentEditingGroup.Some? && TimerModel.IsDigitKey(key.name) {
        HandleDigitInput(key.name[0]);
      }
    }

    method HandleTabNavigation(reverse: bool)
      requires Valid()
      modifies this
      ensures Valid() && State() == TimerModel.HandleTabNavigation(old(State()), reverse)
    {
      if currentEditingGroup.None? {
        SelectDigitGroup(TimerModel.HOURS_GROUP);
        return;
      }
      FinalizeTempInput();
      var currentIndex := currentEditingGroup.value;
      var nextIndex: TimerModel.GroupIndex;
      if reverse {
        nextIndex := if currentIndex > 0 then currentIndex - 1 else 2;
      } else {
        nextIndex := if currentIndex < 2 then currentIndex + 1 else 0;
      }
      SelectDigitGroup(nextIndex);
    }

    method HandleDigitInput(digit: char)
      requires Valid() && IsDigit(digit) && currentEditingGroup.Some?
      modifies this
      ensures Valid() && State() == TimerModel.HandleDigitInput(old(State()), digit)
    {
      tempInput := tempInput + [digit];
      if |tempInput| >= 2 {
        FinalizeTempInput();
      }
    }

    method FinalizeTempInput()
      requires AllDigits(tempInput)
      modifies this
      ensures State() == TimerModel.FinalizeTempInput(old(State()))
    {
      if currentEditingGroup.None? || tempInput == [] {
        return;
      }
      var value := ParseDigits(tempInput);
      var groupType := currentEditingGroup.value;
      if groupType == TimerModel.HOURS_GROUP {
        hours := if value <= 99 then value else 99;
      } else {
        var finalValue := if value <= 59 then value else 59;
        if groupType == TimerModel.MINUTES_GROUP {
          minutes := finalValue;
        } else {
          seconds := finalValue;
        }
      }
      tempInput := "";
    }

    method ToggleTimer()
      requires Valid()
      modifies this
      ensures Valid() && State() == TimerModel.ToggleTimer(old(State()))
    {
      if !isRunning {
        StartTimer();
      } else {
        PauseTimer();
      }
    }

    method StartTimer()
      requires Valid() && !isRunning
      modifies this
      ensures Valid() && State() == TimerModel.StartTimer(old(State()))
    {
      if currentEditingGroup.Some? {
        FinalizeTempInput();
        ClearSelection();
      }
      totalSeconds := hours * 3600 + minutes * 60 + seconds;
      if totalSeconds == 0 {
        return;
      }
      isRunning := true;
      isPaused := false;
      ticking := true;
    }

    /** The body of the interval `StartTimer` sets up; it runs only while that interval exists. */
    method Tick()
      requires Valid() && ticking
      modifies this
      ensures Valid() && State() == TimerModel.Tick(old(State()))
    {
      totalSeconds := totalSeconds - 1;
      UpdateTimeFromTotal();
      if totalSeconds <= 0 {
        CompleteTimer();
      }
    }

    method PauseTimer()
      requires Valid() && isRunning
      modifies this
      ensures Valid() && State() == TimerModel.PauseTimer(old(State()))
    {
      isPaused := true;
      ticking := false;
    }

    method CompleteTimer()
      modifies this
      ensures State() == TimerModel.CompleteTimer(old(State()))
    {
      isRunning := false;
      isPaused := false;
      ticking := false;
      hours := 0;
      minutes := 0;
      seconds := 0;
      totalSeconds := 0;
    }

    method UpdateTimeFromTotal()
      requires totalSeconds >= 0
      modifies this
      ensures State() == TimerModel.UpdateTimeFromTotal(old(State()))
    {
      hours := totalSeconds / 3600;
      minutes := (totalSeconds % 3600) / 60;
      seconds := totalSeconds % 60;
    }

    /**
     * The three texts `updateDisplay` shows: two digits per field, each
     * reading back as the field's value.
     */
    method DisplayedTime() returns (h: string, m: string, s: string)
      requires Valid()
      ensures |h| == 2 && |m| == 2 && |s| == 2
      ensures AllDigits(h) && AllDigits(m) && AllDigits(s)
      ensures ParseDigits(h) == hours && ParseDigits(m) == minutes && ParseDigits(s) == seconds
    {
      h := FormatTwoDigits(hours);
      m := FormatTwoDigits(minutes);
      s := FormatTwoDigits(seconds);
    }

    /**
     * The text `updateTempDisplay` writes into the selected group: the
     * pending digits padded to two, present only while a group is selected
     * and digits are pending.
     */
    method PendingText() returns (text: Option<string>)
      requires Valid()
      ensures text.Some? <==> currentEditingGroup.Some? && tempInput != []
      ensures text.Some? ==>
                && |text.value| == 2
                && AllDigits(text.value)
                && ParseDigits(text.value) == ParseDigits(tempInput)
                && text.value[1] == tempInput[0]
    {
      if currentEditingGroup.Some? && tempInput != [] {
        var padded := PadStart(tempInput, 2, '0');
        assert padded == ['0'] + tempInput;
        ParseLeadingZero(tempInput);
        text := Some(padded);
      } else {
        text := None;
      }
    }
  }
}
