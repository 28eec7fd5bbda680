# VideoPlayer model

This project models the `VideoPlayer` class of a browser video-player wrapper
(`player.js`). The player creates a `<video>` element inside a host container.
It forwards load, play, pause, resize, volume, mute, autoplay and fullscreen
commands to that element. It also keeps two playback flags, `isPlaying` and
`hasEnded`, which three event handlers update. `getPlaybackState` reads the
flags back as `"ended"`, `"playing"` or `"paused"`.

The model has two modules:

- `Playback` (playback.dfy) holds the pure part: the media events, the flag
  pair, the state name, the handlers' effect as a function, replay of any
  sequence of dispatched events, and the volume conversion.
- `Player` (player.dfy) holds the classes. `Element` is the `<video>` element,
  a record of the fields the player reads and writes. `VideoPlayer` holds
  `divId`, `width`, `height` and `video: Element?`. Its methods assign those
  fields in place, as the source does. `Valid()` is the class invariant: a
  present element has the stored width and height, and never has both flags
  set.

The event callbacks are registered with `function` syntax, so their `this` is
the element. The flags are therefore written onto the element, and
`getPlaybackState` reads them from the element. The model does the same:
`OnPlay`, `OnPause` and `OnEnded` stand for the browser dispatching each
event, and they write `video.isPlaying` and `video.hasEnded`. Before any event
the flags are `undefined` in JavaScript, which reads as false. The model
starts them at `false`.

Inputs from the host environment are parameters. Whether
`document.getElementById(divId)` finds a container is the constructor's
`containerExists` argument. The browser dispatching an event is a call to
one of the `On…` methods, which may happen at any time and in any order.

A new element gets the browser's defaults for the fields the source does not
set: volume 1, not muted, no autoplay, empty `src`. `fullscreen` is an
expando property that is `undefined` until set, so it starts as false. The
constructor then sets `controls`, `width` and `height`.

The methods that use the element require `video != null`. The source calls
them without a check and would throw on a null element.

## Model

| member | source | states |
|---|---|---|
| `Playback.StateName` | player.js:120-124 | the name is "ended" exactly when hasEnded is set, "playing" exactly when isPlaying is set and hasEnded is not, and "paused" exactly when neither is set, so hasEnded takes priority |
| `Playback.Handle` | player.js:31-44 | each handler leaves the flags never both set, and after it the reported state is "playing", "paused" or "ended" for play, pause or ended, whatever the flags were before |
| `Playback.LastEventWins` | player.js:31-44 | after any non-empty sequence of dispatched events, from any starting flags, the flags are exactly those written by the handler of the last event |
| `Playback.ReplayKeepsExclusive` | player.js:31-44 | no sequence of events, starting from flags that are not both set, ever sets hasEnded and isPlaying together |
| `Playback.ReplayReports` | player.js:120-123 | a player with no events reports "paused"; after events it reports the state of the last one, so play after ended gives "playing" again |
| `Playback.VolumeFraction` | player.js:96-98 | the stored volume is floor(percent / 100): 100 times the result is at most the percent and the percent is below 100 times the result plus 100 |
| `Playback.VolumeFractionExamples` | player.js:132 | the demo's setVolume(50) stores 0, setVolume(100) stores 1, within 0..199 the stored value is 1 exactly from 100 upward, and setVolume(getVolume()) after setVolume(100) stores 0 |
| `Player.Element.constructor` | player.js:23 | a created element has the browser defaults listed above, and neither playback flag is set |
| `Player.VideoPlayer.constructor` | player.js:10-46 | divId, width and height are always recorded; an element exists exactly when the container does; a new element is fresh, has controls on, has the given size and reports "paused"; getWidth and getHeight return the constructor's arguments in both cases |
| `Player.VideoPlayer.OnPlay` | player.js:31-34 | the play handler sets isPlaying and clears hasEnded on the element, keeps the invariant, and the state becomes "playing" |
| `Player.VideoPlayer.OnPause` | player.js:36-39 | the pause handler clears both flags, keeps the invariant, and the state becomes "paused" |
| `Player.VideoPlayer.OnEnded` | player.js:41-44 | the ended handler clears isPlaying and sets hasEnded, keeps the invariant, and the state becomes "ended" |
| `Player.VideoPlayer.Load` | player.js:53-55 | sets the element's src to the path, changes no other field, and leaves the playback state as it was |
| `Player.VideoPlayer.Play` | player.js:60-62 | requesting playback changes no field, so the playback state is unchanged until the play event arrives |
| `Player.VideoPlayer.Pause` | player.js:67-69 | requesting a pause changes no field, so the playback state is unchanged until the pause event arrives |
| `Player.VideoPlayer.Resize` | player.js:77-82 | afterwards getWidth and getHeight return the new size, the element has the same size, and nothing else changes |
| `Player.VideoPlayer.GetHeight` | player.js:84-86 | the returned height equals the element's height whenever there is an element |
| `Player.VideoPlayer.GetWidth` | player.js:88-90 | the returned width equals the element's width whenever there is an element |
| `Player.VideoPlayer.SetAutoplay` | player.js:92-94 | sets the element's autoplay field and nothing else |
| `Player.VideoPlayer.SetVolume` | player.js:96-98 | afterwards getVolume returns floor(volume / 100), with no scaling back to a percent, and no other field changes |
| `Player.VideoPlayer.GetVolume` | player.js:100-102 | returns the volume stored on the element unchanged, not scaled back to a percent; after SetVolume(v) that is floor(v / 100) |
| `Player.VideoPlayer.SetMute` | player.js:104-106 | afterwards getMute returns the given flag, and no other field changes |
| `Player.VideoPlayer.GetMute` | player.js:108-110 | returns the element's muted flag unchanged; after SetMute(m) that is m |
| `Player.VideoPlayer.SetFullscreen` | player.js:116-118 | sets the element's fullscreen field and nothing else; no fullscreen request is made |
| `Player.VideoPlayer.GetPlaybackState` | player.js:120-124 | reads the flags from the element: "ended" exactly when hasEnded is set, "playing" exactly when only isPlaying is set, and "paused" when neither is set |

"Nothing else changes" comes from each method's `modifies` clause. That
clause names only the fields the method assigns.

## Left out

- DOM plumbing (`getElementById`, `createElement`, `className`, `appendChild`, player.js:16, player.js:23-29): the container lookup is the `containerExists` input. The class name and the attachment to the page are not modelled.
- `console.error` on a missing container (player.js:19): only the failure branch is modelled.
- The native `video.play()` and `video.pause()` calls and their promises (player.js:61, player.js:68): they are foreign and asynchronous. `Play` and `Pause` change nothing in the model.
- Event dispatch timing: handlers run on the browser's event loop. They are methods the environment may call at any time. `Playback.Replay` covers any order.
- `getDuration` (player.js:112-114): a native floating-point value, NaN before metadata loads.
- Real fullscreen behaviour behind `setFullscreen`: only the field assignment is modelled.
- Player.VideoPlayer.SetVolume: the volume is an integer percent, not a JavaScript number that could be fractional. The browser's rejection of element volumes outside [0, 1] is not modelled, so the method accepts any integer. The source does no range check; only percents 0 to 199 give a volume the browser accepts.
- Player.VideoPlayer.Resize: on a player without an element, the source records the new width and height and then throws. The model requires an element, as for every method that uses it.
- No percentage round trip for volume: player.js:97 floors the fraction rather than the percent, and player.js:101 does not scale back, so no such round trip holds. Feeding getVolume back into setVolume is not idempotent either: after setVolume(100) it stores 0 (`Playback.VolumeFractionExamples`).
- Player.VideoPlayer.Resize: sizes are integers and the element stores them verbatim. A browser reflects `width` and `height` as unsigned attributes, so a negative size or one above 2147483647 reads back as 0 and a fractional one is truncated, while the player keeps the raw argument. The model's size equality between player and element (`Valid`, `GetWidth`, `GetHeight`, the constructor) therefore matches a browser only for sizes 0 to 2147483647.
- Player.VideoPlayer.constructor: the same reflected-attribute conversion of width and height is not modelled when the element is created (player.js:26-27).
- Player.VideoPlayer.GetWidth: equals the element's width only under the integer, 0 to 2147483647 reading above.
- Player.VideoPlayer.GetHeight: equals the element's height only under the integer, 0 to 2147483647 reading above.
- Player.VideoPlayer.Load: `src` is stored verbatim. A browser reads it back as the URL resolved against the page, so `video.src == filePath` holds only for a path that is already an absolute URL.
- The demo script and its `setInterval` polling loop (player.js:128-136) are not modelled. Only the `setVolume(50)` result is stated, by `Playback.VolumeFractionExamples`.
- Viewability tracking: no intersection-observer code appears in player.js.
