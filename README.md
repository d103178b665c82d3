# Video screensaver session controller, in Dafny

This project models the per-screen session controller of the multi-display
video screensaver: the `MainWindow` that one screen's window runs. It covers
four things:

- the window's handlers for key, wheel, mouse-move, mouse-button and resize
  events;
- the clamp-and-persist volume setter;
- the rule that ends the screensaver, which shuts the process down in
  full-screen mode and does nothing in preview mode;
- loading the video list and playing a randomly chosen entry, at start-up
  and whenever the media ends.

It has three modules:

- `Session` (`session.dfy`) holds the window's state as a value (`State`).
  Each handler is a function from the old state to the new one. The input
  decision table is stated on its own: `RequestsEnd` says whether an event
  asks for the end, and `VolumeRequest` gives the unclamped volume an event
  asks for. `Step` dispatches one event, and its contract ties every handler
  to that table. `Run` delivers a sequence of events in order.
- `SessionProperties` (`session_properties.dfy`) proves properties of whole
  sessions by induction on the events. Store writes stay in [0, 1]. There is
  exactly one write per volume event. Shutdown happens exactly when a
  full-screen window receives an ending event. A preview window never shuts
  down. It also proves three concrete scenarios: volume-up from 0.95, a
  wheel delta of -300, and an empty video list.
- `VideoScreensaver` (`main_window.dfy`) holds the class `MainWindow`. Its
  fields are updated in place by methods named after the program's handlers.
  Each method is proved to change the window exactly as the matching
  `Session` function says, and to keep the invariant `Session.Consistent`.
  That invariant says every stored volume lies in [0, 1] and the media plays
  at the last one written.

Inputs from outside the window are parameters:

- The stored volume is a constructor argument.
- The video list read from the preference store is a parameter.
- The random index is a parameter, `pick`, that must be an index of the list.
- The pointer position, wheel delta and new size are parameters.

Writes to the preference store are recorded in the ghost log
`volumeWrites`. `Application.Current.Shutdown()` becomes the flag
`shutdownRequested`. Volumes are exact `real`s, not doubles.

Two behaviours of the program shape the model:

- The stored volume read at construction is applied without clamping. So
  "volume in [0, 1]" is claimed only once the setter has run. See
  `VolumeInRangeOnceAdjusted` and `Session.Consistent`.
- Playing the next video when the media ends has no empty-list guard. Indexing
  an empty list fails in the program. It does not show the configuration
  error. The model therefore requires a non-empty list there.

## Model

| member | source | states |
|---|---|---|
| `Session.Clamp` | VideoScreensaver/MainWindow.xaml.cs:22 | the result lies in [0, 1], is the input when the input is in range, 1 at or above 1 and 0 at or below 0 |
| `Session.SetVolume` | VideoScreensaver/MainWindow.xaml.cs:19-24 | the setter leaves the volume in [0, 1] (the value itself when in range, else the nearer bound); it appends exactly one write to the store, equal to the applied volume; nothing else changes |
| `Session.Init` | VideoScreensaver/MainWindow.xaml.cs:27-33 | a new window uses the stored volume unclamped and has made no store write, no pointer position, no shutdown, not maximized, no source; only a preview window shows the hint overlay at font size 12; the initial state satisfies the volume invariant |
| `Session.EndFullScreensaver` | VideoScreensaver/MainWindow.xaml.cs:85-91 | a shutdown is requested exactly when not in preview mode; in preview the state is unchanged; nothing else changes |
| `Session.ShowError` | VideoScreensaver/MainWindow.xaml.cs:104-110 | the overlay shows the message; the font becomes 12 in preview mode only; nothing else changes |
| `Session.PlayNextVideo` | VideoScreensaver/MainWindow.xaml.cs:121-125 | the source becomes the list entry at the random index, so always a member of the list; nothing else changes |
| `Session.Loaded` | VideoScreensaver/MainWindow.xaml.cs:93-102 | an empty list shows the configuration error, does not maximize and plays nothing; a non-empty list maximizes, plays an entry of the list and leaves the overlay alone; volume, store, pointer, shutdown and size unchanged |
| `Session.MediaEnded` | VideoScreensaver/MainWindow.xaml.cs:112-114 | when the media ends the source becomes an entry of the list just read; nothing else changes |
| `Session.KeyDown` | VideoScreensaver/MainWindow.xaml.cs:43-61 | a key outside the six volume keys ends the screensaver and nothing else; a volume key never changes the shutdown flag and appends exactly one write equal to the new volume; Up and VolumeUp set Clamp(old volume + 0.1), Down and VolumeDown set Clamp(old volume − 0.1), mute and 0 set 0 |
| `Session.MouseWheel` | VideoScreensaver/MainWindow.xaml.cs:63-65 | the wheel never changes the shutdown flag and appends one write equal to the new volume; the new volume is Clamp(old volume + delta/1000), so it lies in [0, 1]; for a non-negative delta it is at least min(old volume, 1), for a non-positive one at most max(old volume, 0) |
| `Session.MouseMove` | VideoScreensaver/MainWindow.xaml.cs:67-74 | the new position is always recorded; with no recorded position, or the same one, the shutdown flag is unchanged; with a different recorded position, the screensaver is ended |
| `Session.MouseDown` | VideoScreensaver/MainWindow.xaml.cs:76-78 | a button press requests shutdown exactly when not in preview; nothing else changes |
| `Session.SizeChange` | VideoScreensaver/MainWindow.xaml.cs:80-83 | the media takes the new size; nothing else changes |
| `Session.Step` | VideoScreensaver/MainWindow.xaml.cs:43-91 | every event handler follows the decision table: shutdown is requested exactly when already requested or in full-screen mode on an ending event; the volume and store change exactly for volume keys and the wheel, to the clamped requested value with one write; only a move records a position; the mode never changes |
| `SessionProperties.RunShutdown` | VideoScreensaver/MainWindow.xaml.cs:57-91 | after any event sequence, a shutdown is requested exactly when one was before, or the window is full-screen and some event asked to end in the state it met |
| `SessionProperties.PreviewNeverShutsDown` | VideoScreensaver/MainWindow.xaml.cs:85-91 | no event sequence makes a preview window shut the process down |
| `SessionProperties.RunKeepsConsistent` | VideoScreensaver/MainWindow.xaml.cs:19-24 | after any event sequence every store write lies in [0, 1] and the media volume is the last one written |
| `SessionProperties.RunWritesOncePerVolumeEvent` | VideoScreensaver/MainWindow.xaml.cs:19-24 | each event sequence appends exactly one store write per volume key or wheel event, and leaves the earlier writes unchanged |
| `SessionProperties.VolumeInRangeOnceAdjusted` | VideoScreensaver/MainWindow.xaml.cs:30 | once any volume event has been handled, the volume lies in [0, 1], although the value read at start-up is not clamped |
| `SessionProperties.NoEndRequestNoShutdown` | VideoScreensaver/MainWindow.xaml.cs:43-65 | volume keys, wheel turns, resizes, loading and playback ends never change the shutdown flag |
| `SessionProperties.FirstMoveSuppressed` | VideoScreensaver/MainWindow.xaml.cs:67-74 | a first move never ends the screensaver and is recorded; a second move elsewhere ends a full-screen one; a second move to the same place does not |
| `SessionProperties.VolumeUpClampsAtOne` | VideoScreensaver/MainWindow.xaml.cs:45-47 | from 0.95, volume-up gives exactly 1 and writes 1, not 1.05 |
| `SessionProperties.WheelDownScenario` | VideoScreensaver/MainWindow.xaml.cs:63-65 | a wheel delta of -300 lowers an in-range volume by 0.3, not below 0, without ending the screensaver or changing the video |
| `SessionProperties.EmptyPlaylistScenario` | VideoScreensaver/MainWindow.xaml.cs:93-102 | with an empty list, loading shows the configuration error, does not maximize and plays nothing; a later non-volume key still ends a full-screen session |
| `VideoScreensaver.MainWindow.constructor` | VideoScreensaver/MainWindow.xaml.cs:27-33 | the new window is the state `Session.Init` gives, and satisfies the volume invariant |
| `VideoScreensaver.MainWindow.Volume` | VideoScreensaver/MainWindow.xaml.cs:20 | the property getter returns the media volume; once the setter has run, that is the last volume written to the store |
| `VideoScreensaver.MainWindow.SetVolume` | VideoScreensaver/MainWindow.xaml.cs:19-24 | the property setter applies the clamped value, in [0, 1], and logs exactly that value as a store write, as `Session.SetVolume` |
| `VideoScreensaver.MainWindow.EndFullScreensaver` | VideoScreensaver/MainWindow.xaml.cs:85-91 | changes the window as `Session.EndFullScreensaver` |
| `VideoScreensaver.MainWindow.ShowError` | VideoScreensaver/MainWindow.xaml.cs:104-110 | changes the window as `Session.ShowError` and keeps the volume invariant |
| `VideoScreensaver.MainWindow.ScrKeyDown` | VideoScreensaver/MainWindow.xaml.cs:43-61 | a volume key leaves the shutdown flag alone; any other key leaves volume and store alone; the window changes as `Session.KeyDown`; the invariant is kept |
| `VideoScreensaver.MainWindow.ScrMouseWheel` | VideoScreensaver/MainWindow.xaml.cs:63-65 | the shutdown flag is unchanged; the window changes as `Session.MouseWheel` |
| `VideoScreensaver.MainWindow.ScrMouseMove` | VideoScreensaver/MainWindow.xaml.cs:67-74 | the position is recorded; the window changes as `Session.MouseMove` |
| `VideoScreensaver.MainWindow.ScrMouseDown` | VideoScreensaver/MainWindow.xaml.cs:76-78 | changes the window as `Session.MouseDown` |
| `VideoScreensaver.MainWindow.ScrSizeChange` | VideoScreensaver/MainWindow.xaml.cs:80-83 | changes the window as `Session.SizeChange` |
| `VideoScreensaver.MainWindow.OnLoaded` | VideoScreensaver/MainWindow.xaml.cs:93-102 | changes the window as `Session.Loaded` |
| `VideoScreensaver.MainWindow.MediaEnded` | VideoScreensaver/MainWindow.xaml.cs:112-114 | changes the window as `Session.MediaEnded` |
| `VideoScreensaver.MainWindow.PlayNextVideo` | VideoScreensaver/MainWindow.xaml.cs:121-125 | the source becomes the entry at the random index; the window changes as `Session.PlayNextVideo` |

## Left out

- Window placement from the screen bounds (`Left`, `Top`, `Width`, `Height`), `InitializeComponent` and `WindowState` beyond a maximized flag are user-interface framework calls.
- The overlay's default text, visibility and font size, and the media element's default size, come from the window markup. The markup is not part of this model. `None` stands for them.
- `Application.Current.Shutdown()` closes every window of the process. This is framework behaviour. It is modelled as the flag `shutdownRequested`, and events after it are still handled.
- The media element's decoding and playback, and the source of its end notification, belong to a foreign library. Only "source := chosen entry" and "size := new size" are kept. Constructing a `Uri` from a malformed path may fail; that is not modelled, and the source holds the path string.
- `new Random().Next(n)` is a caller-supplied index below the list length. Uniformity, and so whether every entry can be reached over many draws, cannot be stated here.
- The preference store is not part of this model. Its reads are parameters and its writes are entries appended to the ghost log `volumeWrites`.
- Volumes and the wheel's `Delta / 1000.0` are exact reals, not IEEE doubles. No bit-exact floating-point result, NaN or rounding is modelled.
- `Session.Loaded` and `VideoScreensaver.MainWindow.OnLoaded`: the program reads the video list a second time inside `PlayNextVideo`. The model assumes the list does not change between the two reads. If another process changed the store in between, the entry could come from the second list, or indexing could fail on an empty one.
- `Session.PlayNextVideo` and `Session.MediaEnded` require a non-empty list, because the program has no guard there and fails on an empty one.
- Keys are told apart only as the six volume keys and `Other`. The numeric key codes of the window system are not modelled.
- The unused `debugMode` constant and the event `sender` and argument objects are not modelled.
