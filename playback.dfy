/** The value-level part of the video player: the playback events the browser
    dispatches to the <video> element, the two flags the event handlers keep on
    that element, the state name derived from the flags, and the volume
    conversion. The stateful classes in module Player are specified by these. */
module Playback {

  /** The three media events the player listens to. */
  datatype MediaEvent = Play | Pause | Ended

  /** The two flags the handlers write onto the element. */
  datatype Flags = Flags(isPlaying: bool, hasEnded: bool)

  /** Before any event the flags are unset, which JavaScript reads as false. */
  const Initial := Flags(false, false)

  /** The invariant every handler keeps: the two flags are never both set. */
  predicate Exclusive(f: Flags) {
    !(f.isPlaying && f.hasEnded)
  }

  /** The name getPlaybackState reports: "ended" wins over "playing",
      and "paused" is what is left. */
  function StateName(f: Flags): (s: string)
    ensures s == "ended" <==> f.hasEnded
    ensures s == "playing" <==> f.isPlaying && !f.hasEnded
    ensures s == "paused" <==> !f.isPlaying && !f.hasEnded
  {
    if f.hasEnded then "ended"
    else if f.isPlaying then "playing"
    else "paused"
  }

  /** The name reported right after event `e` has been handled. */
  function Reported(e: MediaEvent): string {
    match e
    case Play => "playing"
    case Pause => "paused"
    case Ended => "ended"
  }

  /** The flags written by the handler of `e`; the handlers overwrite both
      flags, so the result does not depend on the flags before. */
  function Handle(e: MediaEvent): (f: Flags)
    ensures Exclusive(f)
    ensures StateName(f) == Reported(e)
  {
    match e
    case Play => Flags(true, false)
    case Pause => Flags(false, false)
    case Ended => Flags(false, true)
  }

  /** The flags after the browser has dispatched `events`, in order,
      starting from `f`. */
  function Replay(f: Flags, events: seq<MediaEvent>): Flags
    decreases |events|
  {
    if events == [] then f else Replay(Handle(events[0]), events[1..])
  }

  /** Whatever came before, the last event dispatched decides the flags. */
  lemma {:induction false} LastEventWins(f: Flags, events: seq<MediaEvent>)
    requires events != []
    ensures Replay(f, events) == Handle(events[|events| - 1])
    decreases |events|
  {
    if |events| > 1 {
      LastEventWins(Handle(events[0]), events[1..]);
    }
  }

  /** No sequence of events ever sets both flags at once. */
  lemma {:induction false} ReplayKeepsExclusive(f: Flags, events: seq<MediaEvent>)
    requires Exclusive(f)
    ensures Exclusive(Replay(f, events))
    decreases |events|
  {
    if events != [] {
      ReplayKeepsExclusive(Handle(events[0]), events[1..]);
    }
  }

  /** A new player reports "paused"; after any non-empty sequence of events it
      reports the state named by the last one (so "playing" after a play
      event even when the video had ended). */
  lemma {:induction false} ReplayReports(events: seq<MediaEvent>)
    ensures events == [] ==> StateName(Replay(Initial, events)) == "paused"
    ensures events != [] ==> StateName(Replay(Initial, events)) == Reported(events[|events| - 1])
  {
    if events != [] {
      LastEventWins(Initial, events);
    }
  }

  /** The volume setVolume stores on the element: the fraction percent / 100,
      rounded down to an integer (for an integer percent, Math.floor of the
      quotient is Euclidean division by the positive 100). */
  function VolumeFraction(percent: int): (r: int)
    ensures r * 100 <= percent < r * 100 + 100
  {
    percent / 100
  }

  /** The demo's setVolume(50) stores 0; only a percent of 100 to 199 stores 1.
      Feeding the stored value back does not keep it: after setVolume(100),
      setVolume(getVolume()) stores 0. */
  lemma VolumeFractionExamples()
    ensures VolumeFraction(50) == 0
    ensures VolumeFraction(100) == 1
    ensures VolumeFraction(VolumeFraction(100)) == 0
    ensures forall p :: 0 <= p <= 199 ==> (VolumeFraction(p) == 1 <==> p >= 100)
  {
  }
}
