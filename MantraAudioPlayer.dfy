/**
 * The recorded-mantra player: an HTML audio element created on first play,
 * with pause, stop, seek, volume and mute controls, and the `m:ss` clock
 * shown beside the progress bar.
 */
module MantraAudioPlayer {
  import opened JsCore

  // ---------------------------------------------------------------------------
  // The clock
  // ---------------------------------------------------------------------------

  /** A JavaScript number as far as the clock sees it: NaN or a finite value. */
  datatype JsNumber = NaN | Num(value: real)

  /** Rounding toward zero. */
  function Trunc(x: real): (t: int)
    ensures x >= 0.0 ==> t == x.Floor
    ensures x < 0.0 ==> t == -((-x).Floor)
  {
    if x >= 0.0 then x.Floor else -((-x).Floor)
  }

  /** JavaScript's `a % 60`: the remainder of division truncated toward zero, with the sign of `a`. */
  function Rem60(a: real): (r: real)
    ensures a >= 0.0 ==> 0.0 <= r < 60.0
    ensures a < 0.0 ==> -60.0 < r <= 0.0
    ensures -60.0 < a < 60.0 ==> r == a
  {
    a - Trunc(a / 60.0) as real * 60.0
  }

  /**
   * `formatTime`: "0:00" for NaN or 0; otherwise the whole minutes, a colon,
   * and the whole seconds within the minute padded to two digits.
   */
  function FormatTime(t: JsNumber): (shown: string)
    ensures t.NaN? || t == Num(0.0) ==> shown == "0:00"
  {
    if t.NaN? || t.value == 0.0 then "0:00"
    else ClockText((t.value / 60.0).Floor, Rem60(t.value).Floor)
  }

  /** The template literal: minutes, a colon, and the seconds padded to two digits. */
  function ClockText(mins: int, secs: int): string {
    IntToString(mins) + ":" + PadStart(IntToString(secs), 2, '0')
  }

  /** A clock as shown: digits, a colon, and exactly two digits. */
  predicate IsClock(c: string) {
    |c| >= 4 && c[|c| - 3] == ':' && AllDigits(c[..|c| - 3]) && AllDigits(c[|c| - 2..])
  }

  /** The number of whole seconds a clock denotes. */
  function ClockSeconds(c: string): nat
    requires IsClock(c)
  {
    DecimalValue(c[..|c| - 3]) * 60 + DecimalValue(c[|c| - 2..])
  }

  /** For a positive time the two fields are whole minutes and the seconds below 60 that remain. */
  lemma ClockFields(s: real)
    requires s > 0.0
    ensures (s / 60.0).Floor >= 0
    ensures 0 <= Rem60(s).Floor < 60
    ensures (s / 60.0).Floor * 60 + Rem60(s).Floor == s.Floor
  {
    var q := (s / 60.0).Floor;
    var r := Rem60(s);
    assert r == s - q as real * 60.0;
    FloorShift(s, q * 60);
  }

  /** Shifting by a whole number shifts the floor by the same amount. */
  lemma FloorShift(x: real, k: int)
    ensures (x - k as real).Floor == x.Floor - k
  {
  }

  /** A positive time is shown as its whole minutes and the whole seconds left over. */
  lemma FormatTimeShape(s: real)
    requires s > 0.0
    ensures (s / 60.0).Floor >= 0 && 0 <= Rem60(s).Floor < 60
    ensures FormatTime(Num(s)) == ClockText((s / 60.0).Floor, Rem60(s).Floor)
  {
    ClockFields(s);
  }

  /** Reading a shown positive time back gives its whole seconds. */
  lemma FormatTimeRoundTrip(s: real)
    requires s > 0.0
    ensures IsClock(FormatTime(Num(s)))
    ensures ClockSeconds(FormatTime(Num(s))) == s.Floor
  {
    FormatTimeShape(s);
    ClockFields(s);
    ClockTextOfNats((s / 60.0).Floor, Rem60(s).Floor);
    ClockReadsBack((s / 60.0).Floor, Rem60(s).Floor);
  }

  /** For non-negative fields the template writes plain digits. */
  lemma ClockTextOfNats(mins: nat, secs: nat)
    ensures ClockText(mins, secs) == NatToString(mins) + ":" + PadStart(NatToString(secs), 2, '0')
  {
  }

  /** Whole minutes, a colon and seconds below 60 padded to two digits read back as that many seconds. */
  lemma ClockReadsBack(mins: nat, secs: nat)
    requires secs < 60
    ensures var c := NatToString(mins) + ":" + PadStart(NatToString(secs), 2, '0');
            IsClock(c) && ClockSeconds(c) == mins * 60 + secs
  {
    var m := NatToString(mins);
    var p := PadStart(NatToString(secs), 2, '0');
    TwoDigits(secs);
    DecimalRoundTrip(mins);
    ClockValue(m, p);
  }

  /** A clock built from two digit strings denotes the first as minutes plus the second as seconds. */
  lemma ClockValue(m: string, p: string)
    requires |m| >= 1 && AllDigits(m) && |p| == 2 && AllDigits(p)
    ensures IsClock(m + ":" + p) && ClockSeconds(m + ":" + p) == DecimalValue(m) * 60 + DecimalValue(p)
  {
    ClockSplits(m, p);
  }

  /** Digits, a colon and two digits form a clock whose two fields are those digits. */
  lemma ClockSplits(m: string, p: string)
    requires |m| >= 1 && AllDigits(m) && |p| == 2 && AllDigits(p)
    ensures var c := m + ":" + p;
            IsClock(c) && c[..|c| - 3] == m && c[|c| - 2..] == p
  {
    var c := m + ":" + p;
    assert c[..|c| - 3] == m;
    assert c[|c| - 2..] == p;
  }

  /** A number below 60 padded to two digits reads back as itself. */
  lemma TwoDigits(n: nat)
    requires n < 60
    ensures var p := PadStart(NatToString(n), 2, '0'); |p| == 2 && AllDigits(p) && DecimalValue(p) == n
  {
    var p := PadStart(NatToString(n), 2, '0');
    DecimalRoundTrip(n);
    if n < 10 {
      assert p == "0" + NatToString(n);
      assert p[..1] == "0";
    }
  }

  // ---------------------------------------------------------------------------
  // The player
  // ---------------------------------------------------------------------------

  /** The part of an `HTMLAudioElement` the handlers touch. */
  class AudioElement {
    var volume: real
    var currentTime: real
    var paused: bool
    var loop: bool

    constructor (volume: real, loop: bool)
      ensures this.volume == volume && this.loop == loop
      ensures currentTime == 0.0 && paused
    {
      this.volume := volume;
      this.loop := loop;
      currentTime := 0.0;
      paused := true;
    }
  }

  class MantraPlayer {
    var element: AudioElement?
    var isPlaying: bool
    var isLoading: bool
    var hasError: bool
    var volume: real
    var isMuted: bool
    var isLooping: bool
    var progress: real
    var duration: real
    var currentTime: real

    function Level(): real
      reads this
    {
      if isMuted then 0.0 else volume
    }

    /** Once created, the element always plays at the level the controls show. */
    ghost predicate Valid()
      reads this, element
    {
      element != null ==> element.volume == Level()
    }

    constructor ()
      ensures Valid() && element == null
      ensures !isPlaying && !isLoading && !hasError && !isMuted && !isLooping
      ensures volume == 0.8 && progress == 0.0 && duration == 0.0 && currentTime == 0.0
    {
      element := null;
      isPlaying := false;
      isLoading := false;
      hasError := false;
      volume := 0.8;
      isMuted := false;
      isLooping := false;
      progress := 0.0;
      duration := 0.0;
      currentTime := 0.0;
    }

    /** `initAudio`: reuse the element, or create it at the current level and loop setting. */
    method InitAudio() returns (e: AudioElement)
      requires Valid()
      modifies this`element
      ensures Valid() && element == e
      ensures old(element) != null ==> e == old(element)
      ensures old(element) == null ==> fresh(e) && e.paused && e.currentTime == 0.0 && e.loop == isLooping
    {
      if element == null {
        element := new AudioElement(Level(), isLooping);
      }
      e := element;
    }

    /**
     * `handlePlay`: create or reuse the element and start it; `accepted` is
     * whether the element's `play()` promise resolves.
     */
    method HandlePlay(accepted: bool)
      requires Valid()
      modifies this`element, this`isPlaying, this`isLoading, this`hasError, element
      ensures Valid() && element != null && !isLoading
      ensures accepted ==> isPlaying && !hasError && !element.paused
      ensures !accepted ==> hasError && isPlaying == old(isPlaying)
    {
      isLoading := true;
      hasError := false;
      var e := InitAudio();
      if accepted {
        e.paused := false;
        isPlaying := true;
      } else {
        hasError := true;
      }
      isLoading := false;
    }

    /** `handlePause`: pause the element, if there is one. */
    method HandlePause()
      requires Valid()
      modifies this`isPlaying, element
      ensures Valid()
      ensures element != null ==> element.paused && !isPlaying && element.currentTime == old(element.currentTime)
      ensures element == null ==> isPlaying == old(isPlaying)
    {
      if element != null {
        element.paused := true;
        isPlaying := false;
      }
    }

    /** `handleStop`: pause and rewind the element and reset the progress, if there is an element. */
    method HandleStop()
      requires Valid()
      modifies this`isPlaying, this`progress, this`currentTime, element
      ensures Valid()
      ensures element != null ==> element.paused && element.currentTime == 0.0
      ensures element != null ==> !isPlaying && progress == 0.0 && currentTime == 0.0
      ensures element == null ==> isPlaying == old(isPlaying) && progress == old(progress) && currentTime == old(currentTime)
    {
      if element != null {
        element.paused := true;
        element.currentTime := 0.0;
        isPlaying := false;
        progress := 0.0;
        currentTime := 0.0;
      }
    }

    /** `handleSeek`: jump to `position` percent of the duration, once the duration is known. */
    method HandleSeek(position: real)
      requires Valid()
      modifies this`progress, this`currentTime, element
      ensures Valid()
      ensures element != null && duration > 0.0 ==>
                && element.currentTime == position / 100.0 * duration
                && currentTime == element.currentTime && progress == position
                && currentTime / duration * 100.0 == progress
      ensures !(element != null && duration > 0.0) ==> progress == old(progress) && currentTime == old(currentTime)
      ensures element != null && !(duration > 0.0) ==> element.currentTime == old(element.currentTime)
    {
      if element != null && duration > 0.0 {
        var newTime := position / 100.0 * duration;
        element.currentTime := newTime;
        progress := position;
        currentTime := newTime;
      }
    }

    /** `handleVolumeChange`: store the volume, mute exactly when it is 0, and apply it to the element. */
    method HandleVolumeChange(newVolume: real)
      requires Valid()
      modifies this`volume, this`isMuted, element
      ensures Valid()
      ensures volume == newVolume && (isMuted <==> newVolume == 0.0)
      ensures element != null ==> element.volume == newVolume
    {
      volume := newVolume;
      isMuted := newVolume == 0.0;
      if element != null {
        element.volume := newVolume;
      }
    }

    /** `toggleMute`: flip the flag; the element goes to 0 when muting and to the stored volume when unmuting. */
    method ToggleMute()
      requires Valid()
      modifies this`isMuted, element
      ensures Valid()
      ensures isMuted == !old(isMuted) && volume == old(volume)
      ensures element != null ==> element.volume == (if isMuted then 0.0 else volume)
    {
      var newMuted := !isMuted;
      isMuted := newMuted;
      if element != null {
        element.volume := if newMuted then 0.0 else volume;
      }
    }

    /** `toggleLoop`: flip the flag; the loop effect then copies it onto the element. */
    method ToggleLoop()
      requires Valid()
      modifies this`isLooping, element
      ensures Valid()
      ensures isLooping == !old(isLooping)
      ensures element != null ==> element.loop == isLooping && element.paused == old(element.paused)
      ensures element != null ==> element.currentTime == old(element.currentTime)
    {
      isLooping := !isLooping;
      if element != null {
        element.loop := isLooping;
      }
    }

    /** Unmounting: pause the element, if there is one, and forget it. */
    method Unmount()
      requires Valid()
      modifies this`element, element
      ensures Valid() && element == null
      ensures old(element) != null ==> old(element).paused
    {
      if element != null {
        element.paused := true;
        element := null;
      }
    }
  }
}
