/** The per-screen session controller of the video screensaver, as values.

    A `State` holds everything one screensaver window decides on or exposes:
    the preview flag, the media volume, the volumes written to the preference
    store, the last recorded pointer position, whether a process shutdown was
    requested, the error overlay, the window's maximized flag and the media
    element's source and size.  Each event handler of the window is a function
    from the old state to the new one.  `RequestsEnd` and `VolumeRequest` state
    the input decision table on their own, and `Step` is proved to follow it. */
module Session {

  datatype Option<T> = None | Some(value: T)

  /** A pointer position relative to the window. */
  datatype Point = Point(x: real, y: real)

  datatype Size = Size(width: real, height: real)

  /** The keys the controller tells apart; every other key is `Other`. */
  datatype Key = Up | VolumeUp | Down | VolumeDown | VolumeMute | D0 | Other(code: nat)

  /** The volume change of one press of a volume-up or volume-down key. */
  const VolumeStep: real := 0.1
  /** Mouse-wheel delta units per whole volume range. */
  const WheelUnits: real := 1000.0
  /** The error overlay's font size in the small preview window. */
  const PreviewFontSize: nat := 12

  const PreviewHint: string := "When fullscreen, control volume with up/down arrows or mouse wheel."
  const NotConfigured: string := "This screensaver needs to be configured before any video is displayed."

  /** One screensaver window.  `errorText` is `Some` exactly when the overlay
      has been made visible; `None` in `errorFontSize` and `mediaSize` means the
      value the window's markup gives, which is not part of this model. */
  datatype State = State(
    preview: bool,
    volume: real,
    volumeWrites: seq<real>,
    lastMousePosition: Option<Point>,
    shutdownRequested: bool,
    errorText: Option<string>,
    errorFontSize: Option<nat>,
    maximized: bool,
    source: Option<string>,
    mediaSize: Option<Size>)

  function Min(a: real, b: real): real { if a <= b then a else b }

  function Max(a: real, b: real): real { if a >= b then a else b }

  /** The setter's normalisation: the maximum of the minimum of `v` and 1, and 0. */
  function Clamp(v: real): (r: real)
    ensures 0.0 <= r <= 1.0
    ensures 0.0 <= v <= 1.0 ==> r == v
    ensures v >= 1.0 ==> r == 1.0
    ensures v <= 0.0 ==> r == 0.0
  {
    Max(Min(v, 1.0), 0.0)
  }

  /** The state invariant: every volume written to the store lies in [0, 1],
      and once one has been written, the media volume is the last one written. */
  ghost predicate Consistent(s: State)
  {
    && (forall i :: 0 <= i < |s.volumeWrites| ==> 0.0 <= s.volumeWrites[i] <= 1.0)
    && (s.volumeWrites != [] ==> s.volume == s.volumeWrites[|s.volumeWrites| - 1])
  }

  /** A new window: the stored volume is applied as read, without clamping
      and without a write; a preview window shows the volume hint. */
  function Init(preview: bool, storedVolume: real): (s: State)
    ensures s.preview == preview && s.volume == storedVolume && s.volumeWrites == []
    ensures s.lastMousePosition == None && !s.shutdownRequested
    ensures !s.maximized && s.source == None && s.mediaSize == None
    ensures preview ==> s.errorText == Some(PreviewHint) && s.errorFontSize == Some(PreviewFontSize)
    ensures !preview ==> s.errorText == None && s.errorFontSize == None
    ensures Consistent(s)
  {
    var blank := State(preview, storedVolume, [], None, false, None, None, false, None, None);
    if preview then ShowError(blank, PreviewHint) else blank
  }

  /** The volume property's setter: applies the clamped value to the media
      and writes exactly that value to the preference store. */
  function SetVolume(s: State, value: real): (r: State)
    ensures 0.0 <= r.volume <= 1.0
    ensures 0.0 <= value <= 1.0 ==> r.volume == value
    ensures value >= 1.0 ==> r.volume == 1.0
    ensures value <= 0.0 ==> r.volume == 0.0
    ensures r.volumeWrites == s.volumeWrites + [r.volume]
    ensures r.(volume := s.volume, volumeWrites := s.volumeWrites) == s
  {
    var v := Clamp(value);
    s.(volume := v, volumeWrites := s.volumeWrites + [v])
  }

  /** Ends the screensaver: a process-wide shutdown in full-screen mode, a
      no-op in preview mode. */
  function EndFullScreensaver(s: State): (r: State)
    ensures r.shutdownRequested <==> s.shutdownRequested || !s.preview
    ensures s.preview ==> r == s
    ensures r.(shutdownRequested := s.shutdownRequested) == s
  {
    if s.preview then s else s.(shutdownRequested := true)
  }

  /** Shows `message` on the overlay; only a preview window shrinks its font. */
  function ShowError(s: State, message: string): (r: State)
    ensures r.errorText == Some(message)
    ensures s.preview ==> r.errorFontSize == Some(PreviewFontSize)
    ensures !s.preview ==> r.errorFontSize == s.errorFontSize
    ensures r.(errorText := s.errorText, errorFontSize := s.errorFontSize) == s
  {
    var shown := s.(errorText := Some(message));
    if s.preview then shown.(errorFontSize := Some(PreviewFontSize)) else shown
  }

  /** Plays the entry at the random index `pick` of the freshly read list. */
  function PlayNextVideo(s: State, videoPaths: seq<string>, pick: nat): (r: State)
    requires pick < |videoPaths|
    ensures r.source.Some? && r.source.value in videoPaths
    ensures r.source.value == videoPaths[pick]
    ensures r.(source := s.source) == s
  {
    s.(source := Some(videoPaths[pick]))
  }

  /** The window became ready: an empty list shows the configuration error;
      otherwise the window is maximized and a random entry is played. */
  function Loaded(s: State, videoPaths: seq<string>, pick: nat): (r: State)
    requires videoPaths != [] ==> pick < |videoPaths|
    ensures videoPaths == [] ==> && r.errorText == Some(NotConfigured)
                                 && r.maximized == s.maximized && r.source == s.source
    ensures videoPaths == [] && s.preview ==> r.errorFontSize == Some(PreviewFontSize)
    ensures videoPaths != [] ==> && r.maximized
                                 && r.source.Some? && r.source.value in videoPaths
                                 && r.errorText == s.errorText
    ensures !(videoPaths == [] && s.preview) ==> r.errorFontSize == s.errorFontSize
    ensures r.(errorText := s.errorText, errorFontSize := s.errorFontSize,
               maximized := s.maximized, source := s.source) == s
  {
    if videoPaths == [] then ShowError(s, NotConfigured)
    else PlayNextVideo(s.(maximized := true), videoPaths, pick)
  }

  /** The media reached its end: another random entry is played. */
  function MediaEnded(s: State, videoPaths: seq<string>, pick: nat): (r: State)
    requires pick < |videoPaths|
    ensures r.source.Some? && r.source.value in videoPaths
    ensures r.(source := s.source) == s
  {
    PlayNextVideo(s, videoPaths, pick)
  }

  /** Volume keys adjust the volume through the setter; any other key ends
      the screensaver. */
  function KeyDown(s: State, key: Key): (r: State)
    ensures key.Other? ==> r == EndFullScreensaver(s)
    ensures !key.Other? ==> && r.shutdownRequested == s.shutdownRequested
                            && r.volumeWrites == s.volumeWrites + [r.volume]
    ensures key == Up || key == VolumeUp ==> r.volume == Clamp(s.volume + VolumeStep)
    ensures key == Down || key == VolumeDown ==> r.volume == Clamp(s.volume - VolumeStep)
    ensures key == VolumeMute || key == D0 ==> r.volume == 0.0
    ensures r.(volume := s.volume, volumeWrites := s.volumeWrites,
               shutdownRequested := s.shutdownRequested) == s
  {
    match key
    case Up | VolumeUp => SetVolume(s, s.volume + VolumeStep)
    case Down | VolumeDown => SetVolume(s, s.volume - VolumeStep)
    case VolumeMute | D0 => SetVolume(s, 0.0)
    case Other(_) => EndFullScreensaver(s)
  }

  /** The wheel always adjusts the volume and never ends the screensaver. */
  function MouseWheel(s: State, delta: int): (r: State)
    ensures r.shutdownRequested == s.shutdownRequested
    ensures r.volume == Clamp(s.volume + (delta as real) / WheelUnits)
    ensures 0.0 <= r.volume <= 1.0
    ensures r.volumeWrites == s.volumeWrites + [r.volume]
    ensures delta >= 0 ==> r.volume >= Min(s.volume, 1.0)
    ensures delta <= 0 ==> r.volume <= Max(s.volume, 0.0)
    ensures r.(volume := s.volume, volumeWrites := s.volumeWrites) == s
  {
    SetVolume(s, s.volume + (delta as real) / WheelUnits)
  }

  /** A move ends the screensaver only when an earlier position was recorded
      and the new one differs; the first move after maximizing is spurious. */
  function MouseMove(s: State, position: Point): (r: State)
    ensures r.lastMousePosition == Some(position)
    ensures s.lastMousePosition == None ==> r.shutdownRequested == s.shutdownRequested
    ensures s.lastMousePosition == Some(position) ==> r.shutdownRequested == s.shutdownRequested
    ensures s.lastMousePosition.Some? && s.lastMousePosition.value != position ==>
              (r.shutdownRequested <==> s.shutdownRequested || !s.preview)
    ensures r.(lastMousePosition := s.lastMousePosition, shutdownRequested := s.shutdownRequested) == s
  {
    var t := if s.lastMousePosition.Some? && s.lastMousePosition.value != position
             then EndFullScreensaver(s) else s;
    t.(lastMousePosition := Some(position))
  }

  /** Any mouse button ends the screensaver. */
  function MouseDown(s: State): (r: State)
    ensures r.shutdownRequested <==> s.shutdownRequested || !s.preview
    ensures r.(shutdownRequested := s.shutdownRequested) == s
  {
    EndFullScreensaver(s)
  }

  /** A resize makes the media element fill the window. */
  function SizeChange(s: State, newSize: Size): (r: State)
    ensures r.mediaSize == Some(newSize)
    ensures r.(mediaSize := s.mediaSize) == s
  {
    s.(mediaSize := Some(newSize))
  }

  /** The inputs the host window delivers.  `Loaded` and `Ended` carry the
      video list read from the preference store at that moment and the index
      the random generator returned. */
  datatype Event =
    | KeyPressed(key: Key)
    | WheelTurned(delta: int)
    | MouseMoved(position: Point)
    | ButtonPressed
    | Resized(newSize: Size)
    | WindowLoaded(videoPaths: seq<string>, pick: nat)
    | PlaybackEnded(videoPaths: seq<string>, pick: nat)

  /** What the random generator can return: an index of the list read. */
  predicate PickInRange(e: Event)
  {
    match e
    case WindowLoaded(videoPaths, pick) => videoPaths != [] ==> pick < |videoPaths|
    case PlaybackEnded(videoPaths, pick) => pick < |videoPaths|
    case _ => true
  }

  predicate PicksInRange(es: seq<Event>)
  {
    forall i :: 0 <= i < |es| ==> PickInRange(es[i])
  }

  predicate IsVolumeKey(key: Key)
  {
    key in {Up, VolumeUp, Down, VolumeDown, VolumeMute, D0}
  }

  /** The events that go through the volume setter, told apart without a
      state so that they can be counted; `Step` proves this is exactly when
      `VolumeRequest` is `Some`. */
  predicate AdjustsVolume(e: Event)
  {
    e.WheelTurned? || (e.KeyPressed? && IsVolumeKey(e.key))
  }

  /** The decision table for volume: the unclamped value an event asks the
      setter for in state `s`, or `None` when it leaves the volume alone. */
  function VolumeRequest(s: State, e: Event): Option<real>
  {
    match e
    case KeyPressed(k) =>
      if k == Up || k == VolumeUp then Some(s.volume + VolumeStep)
      else if k == Down || k == VolumeDown then Some(s.volume - VolumeStep)
      else if k == VolumeMute || k == D0 then Some(0.0)
      else None
    case WheelTurned(d) => Some(s.volume + (d as real) / WheelUnits)
    case _ => None
  }

  /** The decision table for ending: whether an event asks for the
      screensaver to end in state `s` (honoured only in full-screen mode). */
  predicate RequestsEnd(s: State, e: Event)
  {
    match e
    case KeyPressed(k) => !IsVolumeKey(k)
    case ButtonPressed => true
    case MouseMoved(p) => s.lastMousePosition.Some? && s.lastMousePosition.value != p
    case _ => false
  }

  /** Dispatches one event to its handler, and follows the decision table:
      the shutdown flag, the volume and the store change exactly as
      `RequestsEnd` and `VolumeRequest` say. */
  function Step(s: State, e: Event): (r: State)
    requires PickInRange(e)
    ensures r.preview == s.preview
    ensures r.shutdownRequested <==> s.shutdownRequested || (!s.preview && RequestsEnd(s, e))
    ensures VolumeRequest(s, e).Some? <==> AdjustsVolume(e)
    ensures VolumeRequest(s, e).Some? ==> && r.volume == Clamp(VolumeRequest(s, e).value)
                                          && r.volumeWrites == s.volumeWrites + [r.volume]
    ensures VolumeRequest(s, e).None? ==> r.volume == s.volume && r.volumeWrites == s.volumeWrites
    ensures r.lastMousePosition == if e.MouseMoved? then Some(e.position) else s.lastMousePosition
  {
    match e
    case KeyPressed(k) => KeyDown(s, k)
    case WheelTurned(d) => MouseWheel(s, d)
    case MouseMoved(p) => MouseMove(s, p)
    case ButtonPressed => MouseDown(s)
    case Resized(size) => SizeChange(s, size)
    case WindowLoaded(videoPaths, pick) => Loaded(s, videoPaths, pick)
    case PlaybackEnded(videoPaths, pick) => MediaEnded(s, videoPaths, pick)
  }

  /** The state after the events `es` are delivered in order. */
  function Run(s: State, es: seq<Event>): State
    requires PicksInRange(es)
    decreases |es|
  {
    if es == [] then s else Step(Run(s, es[..|es| - 1]), es[|es| - 1])
  }

  /** The number of events in `es` that go through the volume setter. */
  function VolumeEvents(es: seq<Event>): nat
    decreases |es|
  {
    if es == [] then 0
    else VolumeEvents(es[..|es| - 1]) + (if AdjustsVolume(es[|es| - 1]) then 1 else 0)
  }
}
