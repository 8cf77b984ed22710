/**
 * The editor's audio player: the playing flag, duration and current time it
 * keeps beside the audio element's own playback position, the handlers that
 * update them (new source, loaded data, time update, end of playback,
 * play/pause, the 5-second seek buttons and the slider) and the MM:SS clock
 * text. Times are seconds, as reals.
 */
module MediaPlayer {
  import opened Common

  /** Math.trunc, the rounding JavaScript's % uses for its quotient. */
  function Trunc(x: real): int {
    if x >= 0.0 then x.Floor else -((-x).Floor)
  }

  /** Math.floor(time / 60) */
  function ClockMinutes(time: real): int {
    (time / 60.0).Floor
  }

  /** Math.floor(time % 60); JavaScript's % keeps the sign of time. */
  function ClockSeconds(time: real): int {
    (time - 60.0 * (Trunc(time / 60.0) as real)).Floor
  }

  /** formatTime: minutes and seconds, each padded with '0' to at least two characters. */
  function FormatTime(time: real): string {
    ClockText(ClockMinutes(time), ClockSeconds(time))
  }

  /** `${padded minutes}:${padded seconds}` */
  function ClockText(minutes: int, seconds: int): string {
    PadStart(IntToString(minutes), 2, '0') + ":" + PadStart(IntToString(seconds), 2, '0')
  }

  /** The value of a string of decimal digits, or None if some character is not a digit. */
  function ParseDigits(s: string): Option<nat> {
    if s == [] then Some(0)
    else if !IsDigit(s[|s| - 1]) then None
    else match ParseDigits(s[..|s| - 1])
      case None => None
      case Some(v) => Some(v * 10 + (s[|s| - 1] as int - '0' as int))
  }

  /** Reads "M…M:SS" back as a number of whole seconds. */
  function ParseClock(s: string): Option<nat> {
    if |s| < 3 || s[|s| - 3] != ':' then None
    else match (ParseDigits(s[..|s| - 3]), ParseDigits(s[|s| - 2..]))
      case (Some(minutes), Some(seconds)) => if seconds < 60 then Some(minutes * 60 + seconds) else None
      case _ => None
  }

  /** A digit string parses to its decimal value. */
  lemma {:induction false} ParseDigitsOfNumeral(s: string)
    requires AllDigits(s)
    ensures ParseDigits(s) == Some(DecimalValue(s))
  {
    if s != [] {
      ParseDigitsOfNumeral(s[..|s| - 1]);
    }
  }

  /** For a non-negative time the minutes and seconds part are whole and split its whole seconds. */
  lemma ClockSplit(time: real)
    requires time >= 0.0
    ensures 0 <= ClockSeconds(time) < 60 && 0 <= ClockMinutes(time)
    ensures time.Floor == ClockMinutes(time) * 60 + ClockSeconds(time)
  {
    var m := ClockMinutes(time);
    var f := time.Floor;
    assert 60 * m <= f < 60 * m + 60 by {
      assert (m as real) <= time / 60.0 < (m as real) + 1.0;
      assert 60.0 * (m as real) <= time < 60.0 * (m as real) + 60.0;
    }
    assert Trunc(time / 60.0) == m;
    assert ClockSeconds(time) == f - 60 * m by {
      assert time - 60.0 * (m as real) == time - ((60 * m) as real);
    }
  }

  /** For a non-negative time, the clock's parts are the whole minutes and the remaining whole seconds. */
  lemma ClockParts(time: real)
    requires time >= 0.0
    ensures ClockMinutes(time) == time.Floor / 60
    ensures ClockSeconds(time) == time.Floor % 60
  {
    ClockSplit(time);
  }

  /** A zero-padded numeral: at least two digits, exactly two below 100, with the number's value. */
  lemma PaddedNumeral(n: nat)
    ensures |PadStart(IntToString(n), 2, '0')| >= 2
    ensures n < 100 ==> |PadStart(IntToString(n), 2, '0')| == 2
    ensures AllDigits(PadStart(IntToString(n), 2, '0'))
    ensures DecimalValue(PadStart(IntToString(n), 2, '0')) == n
  {
    ZeroPadValue(NatToString(n), 2);
    DecimalRoundTrip(n);
  }

  /** Reading "a:b" back, for a numeral a and a two-digit numeral b below 60. */
  lemma ParseClockParts(a: string, b: string, minutes: nat, seconds: nat)
    requires AllDigits(a) && AllDigits(b) && |b| == 2
    requires DecimalValue(a) == minutes && DecimalValue(b) == seconds < 60
    ensures ParseClock(a + ":" + b) == Some(minutes * 60 + seconds)
  {
    var s := a + ":" + b;
    assert s[..|s| - 3] == a;
    assert s[|s| - 2..] == b;
    ParseDigitsOfNumeral(a);
    ParseDigitsOfNumeral(b);
  }

  /** Whole minutes and seconds below 60 read back from their clock text. */
  lemma ClockTextRoundTrip(minutes: nat, seconds: nat)
    requires seconds < 60
    ensures ParseClock(ClockText(minutes, seconds)) == Some(minutes * 60 + seconds)
  {
    PaddedNumeral(minutes);
    PaddedNumeral(seconds);
    ParseClockParts(PadStart(IntToString(minutes), 2, '0'), PadStart(IntToString(seconds), 2, '0'), minutes, seconds);
  }

  /**
   * For a non-negative time the text shows the whole minutes, padded to two
   * digits or more, and the remaining whole seconds as exactly two digits.
   */
  lemma FormatTimeShape(time: real)
    requires time >= 0.0
    ensures FormatTime(time) == ClockText(time.Floor / 60, time.Floor % 60)
    ensures |PadStart(IntToString(time.Floor % 60), 2, '0')| == 2
    ensures |PadStart(IntToString(time.Floor / 60), 2, '0')| >= 2
  {
    ClockParts(time);
    PaddedNumeral(time.Floor / 60);
    PaddedNumeral(time.Floor % 60);
  }

  /** Both parts are padded to two characters or more, so any time's text is at least "00:00" long. */
  lemma FormatTimeLength(time: real)
    ensures |FormatTime(time)| >= 5
  {
  }

  /** Reading the clock text back gives the whole seconds of a non-negative time. */
  lemma FormatTimeRoundTrip(time: real)
    requires time >= 0.0
    ensures ParseClock(FormatTime(time)) == Some(time.Floor)
  {
    ClockSplit(time);
    var m, sec := ClockMinutes(time), ClockSeconds(time);
    ClockTextRoundTrip(m, sec);
    assert FormatTime(time) == ClockText(m, sec);
  }

  /** Math.max(0, Math.min(duration, position + seconds)) */
  function SeekTarget(duration: real, position: real, seconds: real): (r: real)
    ensures duration >= 0.0 ==> 0.0 <= r <= duration
    ensures duration >= 0.0 && 0.0 <= position + seconds <= duration ==> r == position + seconds
    ensures position + seconds <= 0.0 ==> r == 0.0
    ensures duration >= 0.0 && position + seconds >= duration ==> r == duration
  {
    Max(0.0, Min(duration, position + seconds))
  }

  /** What the component renders; only the player includes the audio element. */
  datatype View = LoadingText | NoAudioText | PlayerView

  function Render(isLoading: bool, audioSrc: Option<string>): (r: View)
    ensures r == LoadingText <==> isLoading
    ensures r == NoAudioText <==> !isLoading && !TruthyString(audioSrc)
    ensures r == PlayerView <==> !isLoading && TruthyString(audioSrc)
  {
    if isLoading then LoadingText
    else if !TruthyString(audioSrc) && !isLoading then NoAudioText
    else PlayerView
  }

  /** The play button and the slider: disabled without a source or while the duration is 0. */
  predicate PlayDisabled(audioSrc: Option<string>, duration: real) {
    !TruthyString(audioSrc) || duration == 0.0
  }

  /** The two seek buttons: disabled without a source. */
  predicate SeekDisabled(audioSrc: Option<string>) {
    !TruthyString(audioSrc)
  }

  /** No source disables every control; a zero duration disables play and the slider but not the seek buttons. */
  lemma ControlsNeedSource(audioSrc: Option<string>, duration: real)
    ensures !TruthyString(audioSrc) ==> PlayDisabled(audioSrc, duration) && SeekDisabled(audioSrc)
    ensures SeekDisabled(audioSrc) ==> PlayDisabled(audioSrc, duration)
    ensures TruthyString(audioSrc) && duration == 0.0 ==> PlayDisabled(audioSrc, duration) && !SeekDisabled(audioSrc)
    ensures !PlayDisabled(audioSrc, duration) <==> TruthyString(audioSrc) && duration != 0.0
  {
  }

  /** The audio element exists exactly when the player is rendered: not loading and a non-empty source. */
  lemma PlayerNeedsSource(isLoading: bool, audioSrc: Option<string>)
    ensures Render(isLoading, audioSrc) == PlayerView <==> !isLoading && TruthyString(audioSrc)
    ensures Render(isLoading, audioSrc) == PlayerView ==> !SeekDisabled(audioSrc)
  {
  }

  class Player {
    /** Whether audioRef.current is set, i.e. the audio element is mounted. */
    var hasElement: bool
    /** The element's source, playback position and whether it plays. */
    var elementSrc: Option<string>
    var elementTime: real
    var elementPlaying: bool
    /** The component's own state. */
    var isPlaying: bool
    var duration: real
    var currentTime: real

    ghost predicate Valid()
      reads this
    {
      duration >= 0.0
    }

    /** The first render: the element is mounted only if the player view renders. */
    constructor(isLoading: bool, audioSrc: Option<string>)
      ensures Valid()
      ensures hasElement <==> Render(isLoading, audioSrc) == PlayerView
      ensures elementSrc.None? && elementTime == 0.0 && !elementPlaying
      ensures !isPlaying && duration == 0.0 && currentTime == 0.0
    {
      hasElement := Render(isLoading, audioSrc) == PlayerView;
      elementSrc := None;
      elementTime := 0.0;
      elementPlaying := false;
      isPlaying := false;
      duration := 0.0;
      currentTime := 0.0;
    }

    /**
     * A later render with new props: the element is mounted exactly while the
     * player view renders. A newly mounted element is a fresh one, with no
     * source, at 0 and paused; an element taken out of the page stops playing.
     * The component's own state is kept.
     */
    method Rerender(isLoading: bool, audioSrc: Option<string>)
      requires Valid()
      modifies this
      ensures Valid()
      ensures hasElement <==> Render(isLoading, audioSrc) == PlayerView
      ensures hasElement && !old(hasElement) ==> elementSrc.None? && elementTime == 0.0 && !elementPlaying
      ensures hasElement && old(hasElement) ==>
                elementSrc == old(elementSrc) && elementTime == old(elementTime) && elementPlaying == old(elementPlaying)
      ensures !hasElement ==> !elementPlaying && elementSrc == old(elementSrc) && elementTime == old(elementTime)
      ensures isPlaying == old(isPlaying) && duration == old(duration) && currentTime == old(currentTime)
    {
      var mounted := Render(isLoading, audioSrc) == PlayerView;
      if mounted && !hasElement {
        elementSrc := None;
        elementTime := 0.0;
        elementPlaying := false;
      } else if !mounted {
        elementPlaying := false;
      }
      hasElement := mounted;
    }

    /** The effect on a new audioSrc: with an element and a source, load it and reset the state. */
    method SourceChanged(audioSrc: Option<string>)
      requires Valid()
      modifies this
      ensures Valid() && hasElement == old(hasElement)
      ensures hasElement && TruthyString(audioSrc) ==>
                && elementSrc == audioSrc && elementTime == 0.0 && !elementPlaying
                && !isPlaying && currentTime == 0.0 && duration == 0.0
      ensures !(hasElement && TruthyString(audioSrc)) ==>
                && elementSrc == old(elementSrc) && elementTime == old(elementTime)
                && elementPlaying == old(elementPlaying) && isPlaying == old(isPlaying)
                && currentTime == old(currentTime) && duration == old(duration)
    {
      if hasElement && TruthyString(audioSrc) {
        elementSrc := audioSrc;
        elementTime := 0.0;
        elementPlaying := false;
        isPlaying := false;
        currentTime := 0.0;
        duration := 0.0;
      }
    }

    /** The "loadeddata" listener: copy the element's duration and position into the state. */
    method LoadedData(elementDuration: real)
      requires Valid() && elementDuration >= 0.0
      modifies this
      ensures Valid()
      ensures hasElement ==> duration == elementDuration && currentTime == old(elementTime)
      ensures !hasElement ==> duration == old(duration) && currentTime == old(currentTime)
      ensures hasElement == old(hasElement) && elementSrc == old(elementSrc) && elementTime == old(elementTime)
      ensures elementPlaying == old(elementPlaying) && isPlaying == old(isPlaying)
    {
      if hasElement {
        duration := elementDuration;
        currentTime := elementTime;
      }
    }

    /** The "timeupdate" listener: the element has moved to position; the state follows. */
    method TimeUpdate(position: real)
      requires Valid()
      modifies this
      ensures Valid()
      ensures elementTime == position
      ensures hasElement ==> currentTime == position
      ensures !hasElement ==> currentTime == old(currentTime)
      ensures hasElement == old(hasElement) && elementSrc == old(elementSrc) && elementPlaying == old(elementPlaying)
      ensures isPlaying == old(isPlaying) && duration == old(duration)
    {
      elementTime := position;
      if hasElement {
        currentTime := position;
      }
    }

    /** The "ended" listener: stop and show the start; the element itself stays at its end. */
    method Ended()
      requires Valid()
      modifies this
      ensures Valid()
      ensures !isPlaying && currentTime == 0.0 && !elementPlaying
      ensures hasElement == old(hasElement) && elementSrc == old(elementSrc) && elementTime == old(elementTime)
      ensures duration == old(duration)
    {
      elementPlaying := false;
      isPlaying := false;
      currentTime := 0.0;
    }

    /** togglePlayPause: nothing without an element; otherwise pause or play it and flip isPlaying. */
    method TogglePlayPause()
      requires Valid()
      modifies this
      ensures Valid()
      ensures hasElement ==> isPlaying == !old(isPlaying) && elementPlaying == !old(isPlaying)
      ensures !hasElement ==> isPlaying == old(isPlaying) && elementPlaying == old(elementPlaying)
      ensures hasElement == old(hasElement) && elementSrc == old(elementSrc) && elementTime == old(elementTime)
      ensures duration == old(duration) && currentTime == old(currentTime)
    {
      if !hasElement {
        return;
      }
      elementPlaying := !isPlaying;
      isPlaying := !isPlaying;
    }

    /** seek: move the element by seconds, clamped to [0, duration], and show the same time. */
    method Seek(seconds: real)
      requires Valid()
      modifies this
      ensures Valid()
      ensures hasElement ==>
                && elementTime == SeekTarget(old(duration), old(elementTime), seconds)
                && currentTime == elementTime
                && 0.0 <= currentTime <= duration
      ensures !hasElement ==> elementTime == old(elementTime) && currentTime == old(currentTime)
      ensures hasElement == old(hasElement) && elementSrc == old(elementSrc) && elementPlaying == old(elementPlaying)
      ensures isPlaying == old(isPlaying) && duration == old(duration)
    {
      if !hasElement {
        return;
      }
      var newTime := SeekTarget(duration, elementTime, seconds);
      elementTime := newTime;
      currentTime := newTime;
    }

    /** handleSliderChange: the slider's first value, unclamped, for the element and the state. */
    method SliderChange(value: seq<real>)
      requires Valid() && |value| >= 1
      modifies this
      ensures Valid()
      ensures hasElement ==> elementTime == value[0] && currentTime == value[0]
      ensures !hasElement ==> elementTime == old(elementTime) && currentTime == old(currentTime)
      ensures hasElement == old(hasElement) && elementSrc == old(elementSrc) && elementPlaying == old(elementPlaying)
      ensures isPlaying == old(isPlaying) && duration == old(duration)
    {
      if !hasElement {
        return;
      }
      var newTime := value[0];
      elementTime := newTime;
      currentTime := newTime;
    }
  }
}
