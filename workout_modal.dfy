/** The workout timer of `workout-modal.tsx`: the `MM:SS` display, the whole
    minutes a finished session is logged with, and the states that the start,
    pause, stop and close buttons and the one-second tick step through. */
module WorkoutModal {
  import opened Text

  /** `n.toString().padStart(2, '0')`. */
  function Pad2(n: nat): (p: string)
    ensures |p| >= 2
  {
    PadStart(NatToString(n), 2, '0')
  }

  /** A count below 100 pads to exactly two digits. */
  lemma Pad2Length(n: nat)
    requires n < 100
    ensures |Pad2(n)| == 2
  {
    NatToStringTwoDigits(n);
  }

  /** Two counts padded with zeros to at least two digits, joined by a colon. */
  function Clock(mins: nat, secs: nat): (r: string)
    ensures |r| >= 5
  {
    Pad2(mins) + ":" + Pad2(secs)
  }

  /** `formatTime`: the whole minutes and the remaining seconds. */
  function FormatTime(totalSeconds: nat): (r: string)
    ensures |r| >= 5
  {
    Clock(totalSeconds / 60, totalSeconds % 60)
  }

  /** Around a colon followed by two digits, the parts read back as the
      numbers that were joined. */
  lemma SplitAtColon(m: string, s: string, mins: nat, secs: nat)
    requires AllDigits(m) && |m| >= 2 && DigitsValue(m) == mins
    requires AllDigits(s) && |s| == 2 && DigitsValue(s) == secs
    ensures var r := m + ":" + s;
      var k := |r| - 3;
      && r[k] == ':'
      && AllDigits(r[..k]) && |r[..k]| >= 2 && DigitsValue(r[..k]) == mins
      && AllDigits(r[k + 1..]) && |r[k + 1..]| == 2 && DigitsValue(r[k + 1..]) == secs
  {
    var r := m + ":" + s;
    assert r[..|m|] == m;
    assert r[|m| + 1..] == s;
  }

  /** A count padded with zeros reads back as the count. */
  lemma PaddedValue(n: nat)
    ensures AllDigits(Pad2(n)) && DigitsValue(Pad2(n)) == n
  {
    ZeroPadValue(NatToString(n), 2);
    NatToStringValue(n);
  }

  /** The two fields of a clock read back as the two counts. */
  lemma ClockReadsBack(mins: nat, secs: nat)
    requires secs < 60
    ensures var r := Clock(mins, secs);
      var k := |r| - 3;
      && r[k] == ':'
      && AllDigits(r[..k]) && |r[..k]| >= 2 && DigitsValue(r[..k]) == mins
      && AllDigits(r[k + 1..]) && |r[k + 1..]| == 2 && DigitsValue(r[k + 1..]) == secs
  {
    Pad2Length(secs);
    PaddedValue(mins);
    PaddedValue(secs);
    SplitAtColon(Pad2(mins), Pad2(secs), mins, secs);
  }

  /** Reading the display back: the part before the colon is the number of
      whole minutes and the two digits after it the seconds below 60, so the
      display determines the elapsed time. */
  lemma FormatTimeReadsBack(totalSeconds: nat)
    ensures var r := FormatTime(totalSeconds);
      var k := |r| - 3;
      && r[k] == ':'
      && AllDigits(r[..k]) && |r[..k]| >= 2
      && AllDigits(r[k + 1..]) && |r[k + 1..]| == 2
      && DigitsValue(r[k + 1..]) < 60
      && DigitsValue(r[..k]) * 60 + DigitsValue(r[k + 1..]) == totalSeconds
  {
    var mins := totalSeconds / 60;
    var secs := totalSeconds % 60;
    assert mins * 60 + secs == totalSeconds;
    assert FormatTime(totalSeconds) == Clock(mins, secs);
    ClockReadsBack(mins, secs);
  }

  /** Below 100 minutes the display is exactly five characters, `MM:SS`. */
  lemma FormatTimeFiveChars(totalSeconds: nat)
    requires totalSeconds < 6000
    ensures |FormatTime(totalSeconds)| == 5 && FormatTime(totalSeconds)[2] == ':'
  {
    Pad2Length(totalSeconds / 60);
    ClockReadsBack(totalSeconds / 60, totalSeconds % 60);
  }

  /** `Math.floor(duration / 60)`: the whole minutes in a session, so a
      session shorter than a minute is logged as 0 minutes. */
  function SessionMinutes(seconds: nat): (m: nat)
    ensures m * 60 <= seconds < (m + 1) * 60
  {
    seconds / 60
  }

  /** The modal's open flag (held by `WorkoutModalProvider`), the timer state
      of `WorkoutModal`, and the sessions its stop button has posted. */
  class Timer {
    var isOpen: bool
    var isActive: bool
    var isRunning: bool
    var seconds: nat
    /** The `duration` (minutes) of each `POST /api/sessions` made, in order. */
    var logged: seq<nat>

    /** The timer only runs during an active session, and an inactive
        session shows zero seconds. */
    ghost predicate Valid()
      reads this
    {
      && (isRunning ==> isActive)
      && (!isActive ==> seconds == 0)
    }

    constructor ()
      ensures Valid()
      ensures !isOpen && !isActive && !isRunning && seconds == 0 && logged == []
    {
      isOpen := false;
      isActive := false;
      isRunning := false;
      seconds := 0;
      logged := [];
    }

    /** `openModal`. */
    method OpenModal()
      requires Valid()
      modifies this
      ensures Valid()
      ensures isOpen
      ensures isActive == old(isActive) && isRunning == old(isRunning) && seconds == old(seconds) && logged == old(logged)
    {
      isOpen := true;
    }

    /** `closeModal`, which the dialog also calls when dismissed: it hides the
        modal and leaves the timer as it is. */
    method CloseModal()
      requires Valid()
      modifies this
      ensures Valid()
      ensures !isOpen
      ensures isActive == old(isActive) && isRunning == old(isRunning) && seconds == old(seconds) && logged == old(logged)
    {
      isOpen := false;
    }

    /** `handleStart` (the Start and Resume button): an active, running
        session that keeps the seconds counted so far. */
    method HandleStart()
      requires Valid()
      modifies this
      ensures Valid()
      ensures isActive && isRunning
      ensures seconds == old(seconds) && isOpen == old(isOpen) && logged == old(logged)
    {
      isActive := true;
      isRunning := true;
    }

    /** `handlePause`: the timer stops; the session stays active with its
        seconds. */
    method HandlePause()
      requires Valid()
      modifies this
      ensures Valid()
      ensures !isRunning
      ensures isActive == old(isActive) && seconds == old(seconds) && isOpen == old(isOpen) && logged == old(logged)
    {
      isRunning := false;
    }

    /** One firing of the one-second interval, which exists only while the
        timer runs: one more second while running, nothing otherwise. */
    method Tick()
      requires Valid()
      modifies this
      ensures Valid()
      ensures old(isRunning) ==> seconds == old(seconds) + 1
      ensures !old(isRunning) ==> seconds == old(seconds)
      ensures isActive == old(isActive) && isRunning == old(isRunning) && isOpen == old(isOpen) && logged == old(logged)
    {
      if isRunning {
        seconds := seconds + 1;
      }
    }

    /** `handleStop`: a session is posted only when time was counted, with
        its whole minutes; then the timer is cleared and the modal closes. */
    method HandleStop()
      requires Valid()
      modifies this
      ensures Valid()
      ensures old(seconds) > 0 ==> logged == old(logged) + [SessionMinutes(old(seconds))]
      ensures old(seconds) == 0 ==> logged == old(logged)
      ensures !isActive && !isRunning && seconds == 0 && !isOpen
    {
      if seconds > 0 {
        logged := logged + [SessionMinutes(seconds)];
      }
      isActive := false;
      isRunning := false;
      seconds := 0;
      isOpen := false;
    }

    /** `handleClose` (Minimize or Close): a running timer is paused, and
        the modal closes only when no session is active. */
    method HandleClose()
      requires Valid()
      modifies this
      ensures Valid()
      ensures !isRunning
      ensures isOpen == (old(isOpen) && old(isActive))
      ensures isActive == old(isActive) && seconds == old(seconds) && logged == old(logged)
    {
      if isRunning {
        HandlePause();
      }
      if !isActive {
        CloseModal();
      }
    }
  }
}
