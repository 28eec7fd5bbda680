/** The VideoPlayer class and the <video> element it creates. The element is
    treated as a plain record of the fields the player reads and writes; the
    browser's own behaviour behind those fields is not modelled. */
module Player {
  import Playback

  /** The <video> element: its fields are assigned in place by the player and
      by the event handlers registered on it. */
  class Element {
    var width: int
    var height: int
    var volume: int
    var muted: bool
    var autoplay: bool
    var fullscreen: bool
    var src: string
    var controls: bool
    var isPlaying: bool
    var hasEnded: bool

    /** A freshly created element with the browser's defaults: full volume,
        not muted, no autoplay, no source, and no flags set yet. */
    constructor ()
      ensures width == 0 && height == 0 && volume == 1
      ensures !muted && !autoplay && !fullscreen && !controls
      ensures src == ""
      ensures PlaybackFlags() == Playback.Initial
    {
      width, height, volume := 0, 0, 1;
      muted, autoplay, fullscreen, controls := false, false, false, false;
      src := "";
      isPlaying, hasEnded := false, false;
    }

    /** The two playback flags as a value. */
    function PlaybackFlags(): Playback.Flags
      reads this
    {
      Playback.Flags(isPlaying, hasEnded)
    }
  }

  class VideoPlayer {
    const divId: string
    var width: int
    var height: int
    var video: Element?

    /** The player's invariant: a present element has the stored size and
        never has both playback flags set. */
    ghost predicate Valid()
      reads this, video
    {
      video != null ==>
        && video.width == width
        && video.height == height
        && Playback.Exclusive(video.PlaybackFlags())
    }

    /** Builds the player inside the container named `divId`. The page lookup
        is the input `containerExists`: without a container the error is
        logged, no element is created and `video` stays null, yet the id and
        the size are still recorded. */
    constructor (divId: string, width: int, height: int, containerExists: bool)
      ensures Valid()
      ensures this.divId == divId && this.width == width && this.height == height
      ensures (video != null) == containerExists
      ensures video != null ==>
        && fresh(video)
        && video.controls
        && video.src == ""
        && video.volume == 1 && !video.muted && !video.autoplay && !video.fullscreen
        && GetPlaybackState() == "paused"
      ensures GetWidth() == width && GetHeight() == height
    {
      this.divId := divId;
      this.width := width;
      this.height := height;
      video := null;
      if containerExists {
        var v := new Element();
        v.controls := true;
        v.width := width;
        v.height := height;
        video := v;
      }
    }

    /** The browser dispatches "play": the handler sets isPlaying and clears
        hasEnded on the element, whatever they were. */
    method OnPlay()
      requires Valid() && video != null
      modifies video`isPlaying, video`hasEnded
      ensures Valid()
      ensures video.PlaybackFlags() == Playback.Handle(Playback.Play)
      ensures GetPlaybackState() == "playing"
    {
      video.isPlaying := true;
      video.hasEnded := false;
    }

    /** The browser dispatches "pause": both flags are cleared. */
    method OnPause()
      requires Valid() && video != null
      modifies video`isPlaying, video`hasEnded
      ensures Valid()
      ensures video.PlaybackFlags() == Playback.Handle(Playback.Pause)
      ensures GetPlaybackState() == "paused"
    {
      video.isPlaying := false;
      video.hasEnded := false;
    }

    /** The browser dispatches "ended": isPlaying is cleared, hasEnded set. */
    method OnEnded()
      requires Valid() && video != null
      modifies video`isPlaying, video`hasEnded
      ensures Valid()
      ensures video.PlaybackFlags() == Playback.Handle(Playback.Ended)
      ensures GetPlaybackState() == "ended"
    {
      video.isPlaying := false;
      video.hasEnded := true;
    }

    /** Sets the element's source; the playback flags are left alone. */
    method Load(filePath: string)
      requires Valid() && video != null
      modifies video`src
      ensures Valid()
      ensures video.src == filePath
      ensures GetPlaybackState() == old(GetPlaybackState())
    {
      video.src := filePath;
    }

    /** Asks the element to start playing. The native call only schedules a
        "play" event; nothing in the model changes until OnPlay runs. */
    method Play()
      requires Valid() && video != null
      ensures GetPlaybackState() == old(GetPlaybackState())
    {
    }

    /** Asks the element to pause; as with Play, the state changes only when
        the browser dispatches the event. */
    method Pause()
      requires Valid() && video != null
      ensures GetPlaybackState() == old(GetPlaybackState())
    {
    }

    /** Records the new size on the player and applies it to the element. */
    method Resize(width: int, height: int)
      requires Valid() && video != null
      modifies this`width, this`height, video`width, video`height
      ensures Valid()
      ensures GetWidth() == width && GetHeight() == height
      ensures video.width == width && video.height == height
      ensures GetPlaybackState() == old(GetPlaybackState())
    {
      this.width := width;
      this.height := height;
      video.width := width;
      video.height := height;
    }

    /** The stored height, which is the element's height whenever there is one. */
    function GetHeight(): (h: int)
      reads this, video
      requires Valid()
      ensures video != null ==> h == video.height
    {
      height
    }

    /** The stored width, which is the element's width whenever there is one. */
    function GetWidth(): (w: int)
      reads this, video
      requires Valid()
      ensures video != null ==> w == video.width
    {
      width
    }

    method SetAutoplay(autoplay: bool)
      requires Valid() && video != null
      modifies video`autoplay
      ensures Valid()
      ensures video.autoplay == autoplay
    {
      video.autoplay := autoplay;
    }

    /** Stores the percent divided by 100 and rounded down, so only 100 to 199
        yield 1 and smaller non-negative percents yield 0. */
    method SetVolume(volume: int)
      requires Valid() && video != null
      modifies video`volume
      ensures Valid()
      ensures GetVolume() == Playback.VolumeFraction(volume)
    {
      video.volume := volume / 100;
    }

    /** The element's volume as stored, not scaled back to a percent. */
    function GetVolume(): (v: int)
      reads this, video
      requires video != null
      ensures v == video.volume
    {
      video.volume
    }

    method SetMute(mute: bool)
      requires Valid() && video != null
      modifies video`muted
      ensures Valid()
      ensures GetMute() == mute
    {
      video.muted := mute;
    }

    /** The element's muted flag as stored. */
    function GetMute(): (m: bool)
      reads this, video
      requires video != null
      ensures m == video.muted
    {
      video.muted
    }

    /** Only records the intent on the element; no fullscreen request is made. */
    method SetFullscreen(fullscreen: bool)
      requires Valid() && video != null
      modifies video`fullscreen
      ensures Valid()
      ensures video.fullscreen == fullscreen
    {
      video.fullscreen := fullscreen;
    }

    /** The state name read back from the flags on the element (not from the
        player): "ended" when hasEnded is set, else "playing" when isPlaying
        is, else "paused". */
    function GetPlaybackState(): (s: string)
      reads this, video
      requires video != null
      ensures s == "ended" <==> video.hasEnded
      ensures s == "playing" <==> video.isPlaying && !video.hasEnded
      ensures s == "paused" <==> !video.isPlaying && !video.hasEnded
    {
      Playback.StateName(video.PlaybackFlags())
    }
  }
}
