/** The playback control of frontend/components/AudioPlayer.tsx: its time
    label and the state it keeps about the loaded sound. Sounds are named by
    handles; the audio library itself is outside the model. */
module AudioPlayer {
  import opened Wrappers
  import opened Decimal

  /** `formatTime(milliseconds)`: "M:SS" — unpadded minutes, seconds padded
      to two digits. */
  function FormatTime(milliseconds: nat): (r: string)
    ensures |r| >= 4 && r[|r| - 3] == ':'
    ensures AllDigits(r[..|r| - 3]) && AllDigits(r[|r| - 2..])
  {
    var seconds := milliseconds / 1000;
    var minutes := seconds / 60;
    var remainingSeconds := seconds % 60;
    NatToStringLength(remainingSeconds);
    NatToString(minutes) + ":" + PadStart2(NatToString(remainingSeconds))
  }

  /** The label reads back as whole minutes and remaining seconds:
      60 * minutes + seconds is the number of whole seconds, seconds < 60. */
  lemma FormatTimeRoundTrip(milliseconds: nat)
    ensures ParseClock(FormatTime(milliseconds))
         == Some((milliseconds / 1000 / 60, milliseconds / 1000 % 60))
    ensures var fields := ParseClock(FormatTime(milliseconds)).value;
            60 * fields.0 + fields.1 == milliseconds / 1000 && fields.1 < 60
  {
    NatToStringRoundTrip(milliseconds / 1000 / 60);
    ClockRoundTrip(NatToString(milliseconds / 1000 / 60), milliseconds / 1000 % 60);
  }

  /** The minutes are not padded: the label starts with '0' exactly when less
      than a minute has elapsed, and 5000 ms shows as "0:05". */
  lemma FormatTimeMinutesUnpadded(milliseconds: nat)
    ensures FormatTime(milliseconds)[0] == '0' <==> milliseconds < 60000
    ensures FormatTime(5000) == "0:05"
  {
    var minutes := milliseconds / 1000 / 60;
    assert FormatTime(milliseconds)[0] == NatToString(minutes)[0];
    assert minutes == 0 <==> milliseconds < 60000;
    assert 5000 / 1000 / 60 == 0 && 5000 / 1000 % 60 == 5;
    assert NatToString(0) == "0";
    assert NatToString(5) == "5";
    assert PadStart2("5") == "05";
  }

  /** A playback status report from the sound: either not loaded, or loaded
      with an optional position, whether it plays, and whether it just
      reached its end. */
  datatype PlaybackStatus =
    | NotLoaded
    | Loaded(positionMillis: Option<nat>, isPlaying: bool, didJustFinish: bool)

  /** The component's state: the loaded sound (a handle), whether it plays,
      the shown position, whether a load is in progress; `unloaded` records
      the sounds `loadAndPlaySound` has unloaded, in order. */
  class Player {
    var sound: Option<nat>
    var isPlaying: bool
    var position: nat
    var isLoading: bool
    var unloaded: seq<nat>

    /** Between handler runs nothing is loading, and only a loaded sound can
        be playing. */
    ghost predicate Valid()
      reads this
    {
      !isLoading && (isPlaying ==> sound.Some?)
    }

    /** The initial state of the four `useState` hooks. */
    constructor ()
      ensures Valid()
      ensures sound == None && !isPlaying && position == 0 && !isLoading && unloaded == []
    {
      sound := None;
      isPlaying := false;
      position := 0;
      isLoading := false;
      unloaded := [];
    }

    /** `loadAndPlaySound`: unloads the current sound if any, then creates a
        new one that starts playing; `created` is the new handle, or None
        when creating the sound failed. Loading is over afterwards either
        way. */
    method LoadAndPlay(created: Option<nat>)
      requires Valid()
      modifies this
      ensures Valid() && !isLoading
      ensures unloaded == old(unloaded) + (if old(sound).Some? then [old(sound).value] else [])
      ensures created.Some? ==> sound == created && isPlaying
      ensures created.None? ==> sound == old(sound) && isPlaying == old(isPlaying)
      ensures position == old(position)
    {
      isLoading := true;
      if sound.Some? {
        unloaded := unloaded + [sound.value];
      }
      if created.Some? {
        sound := created;
        isPlaying := true;
      }
      isLoading := false;
    }

    /** `pauseSound`: stops a loaded sound; does nothing without one. */
    method Pause()
      requires Valid()
      modifies this
      ensures Valid()
      ensures isPlaying == (old(isPlaying) && old(sound).None?)
      ensures sound == old(sound) && position == old(position) && unloaded == old(unloaded)
    {
      if sound.Some? {
        isPlaying := false;
      }
    }

    /** `resumeSound`: plays a loaded sound; does nothing without one. */
    method Resume()
      requires Valid()
      modifies this
      ensures Valid()
      ensures isPlaying == (old(isPlaying) || old(sound).Some?)
      ensures sound == old(sound) && position == old(position) && unloaded == old(unloaded)
    {
      if sound.Some? {
        isPlaying := true;
      }
    }

    /** `seekTo(value)`: moves a loaded sound to `value`; does nothing
        without one. */
    method SeekTo(value: nat)
      requires Valid()
      modifies this
      ensures Valid()
      ensures position == if old(sound).Some? then value else old(position)
      ensures sound == old(sound) && isPlaying == old(isPlaying) && unloaded == old(unloaded)
    {
      if sound.Some? {
        position := value;
      }
    }

    /** The status callback registered on a newly created sound: a loaded
        status copies its position (0 when absent) and playing flag; when the
        sound just finished, playback stops and the position returns to 0.
        Reports only come from the loaded sound, hence the precondition. */
    method OnPlaybackStatus(status: PlaybackStatus)
      requires Valid() && sound.Some?
      modifies this
      ensures Valid()
      ensures status.NotLoaded? ==> isPlaying == old(isPlaying) && position == old(position)
      ensures status.Loaded? && status.didJustFinish ==> !isPlaying && position == 0
      ensures status.Loaded? && !status.didJustFinish ==>
                isPlaying == status.isPlaying && position == status.positionMillis.GetOr(0)
      ensures sound == old(sound) && unloaded == old(unloaded)
    {
      if status.Loaded? {
        position := status.positionMillis.GetOr(0);
        isPlaying := status.isPlaying;
        if status.didJustFinish {
          isPlaying := false;
          position := 0;
        }
      }
    }

    /** `handlePlayPause`: with no sound, load and play; while playing,
        pause; otherwise resume. `created` is what loading would produce. */
    method HandlePlayPause(created: Option<nat>)
      requires Valid()
      modifies this
      ensures Valid()
      ensures old(sound).None? ==>
                unloaded == old(unloaded) && sound == created && isPlaying == created.Some?
      ensures old(sound).Some? && old(isPlaying) ==> sound == old(sound) && !isPlaying
      ensures old(sound).Some? && !old(isPlaying) ==> sound == old(sound) && isPlaying
      ensures old(sound).Some? ==> unloaded == old(unloaded)
      ensures position == old(position)
    {
      if sound.None? {
        LoadAndPlay(created);
      } else if isPlaying {
        Pause();
      } else {
        Resume();
      }
    }
  }

  /** A play press, a second press, then the end of the sound: the first
      press loads and plays, the second pauses, and the final report leaves
      the player stopped at position 0 with the sound still loaded. */
  method PlayPauseFinishScenario(handle: nat, reportedPosition: nat)
  {
    var p := new Player();
    p.HandlePlayPause(Some(handle));
    assert p.sound == Some(handle) && p.isPlaying;
    p.HandlePlayPause(Some(handle + 1));
    assert p.sound == Some(handle) && !p.isPlaying;
    p.HandlePlayPause(Some(handle + 1));
    assert p.isPlaying;
    p.OnPlaybackStatus(Loaded(Some(reportedPosition), false, true));
    assert p.sound == Some(handle) && !p.isPlaying && p.position == 0;
    assert p.unloaded == [];
  }
}
