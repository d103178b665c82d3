/** The screensaver window as the program has it: an object whose event
    handlers update its fields in place.  Each handler is proved to move the
    window's state exactly as the matching function of `Session` says, and to
    keep the volume invariant `Session.Consistent`. */
module VideoScreensaver {
  import opened Session

  class MainWindow {
    const preview: bool
    var lastMousePosition: Option<Point>
    /** The media element's volume, source and size. */
    var mediaVolume: real
    var mediaSource: Option<string>
    var mediaSize: Option<Size>
    /** The error overlay: its text once shown, and its font size once set. */
    var errorText: Option<string>
    var errorFontSize: Option<nat>
    var maximized: bool
    /** Whether the application has been asked to shut down. */
    var shutdownRequested: bool
    /** Every volume written to the preference store by this window, in order. */
    ghost var volumeWrites: seq<real>

    /** The window as a `Session.State` value. */
    ghost function Model(): State
      reads this
    {
      State(preview, mediaVolume, volumeWrites, lastMousePosition, shutdownRequested,
            errorText, errorFontSize, maximized, mediaSource, mediaSize)
    }

    ghost predicate Valid()
      reads this
    {
      Consistent(Model())
    }

    constructor (preview: bool, storedVolume: real)
      ensures Valid()
      ensures Model() == Init(preview, storedVolume)
    {
      this.preview := preview;
      lastMousePosition := None;
      mediaVolume := storedVolume;
      mediaSource := None;
      mediaSize := None;
      errorText := None;
      errorFontSize := None;
      maximized := false;
      shutdownRequested := false;
      volumeWrites := [];
      new;
      if preview {
        ShowError(PreviewHint);
      }
    }

    /** The volume property's getter: the media volume, which is the last
        volume written to the store once the setter has run. */
    function Volume(): (v: real)
      reads this
      ensures v == Model().volume
      ensures Valid() && volumeWrites != [] ==> v == volumeWrites[|volumeWrites| - 1]
    {
      mediaVolume
    }

    /** The volume property's setter. */
    method SetVolume(value: real)
      requires Valid()
      modifies this
      ensures Valid()
      ensures 0.0 <= mediaVolume <= 1.0
      ensures volumeWrites == old(volumeWrites) + [mediaVolume]
      ensures Model() == Session.SetVolume(old(Model()), value)
    {
      mediaVolume := Max(Min(value, 1.0), 0.0);
      volumeWrites := volumeWrites + [mediaVolume];
    }

    method EndFullScreensaver()
      requires Valid()
      modifies this
      ensures Valid()
      ensures Model() == Session.EndFullScreensaver(old(Model()))
    {
      if !preview {
        shutdownRequested := true;
      }
    }

    method ShowError(errorMessage: string)
      requires Valid()
      modifies this
      ensures Valid()
      ensures Model() == Session.ShowError(old(Model()), errorMessage)
    {
      errorText := Some(errorMessage);
      if preview {
        errorFontSize := Some(PreviewFontSize);
      }
    }

    method ScrKeyDown(key: Key)
      requires Valid()
      modifies this
      ensures Valid()
      ensures IsVolumeKey(key) ==> shutdownRequested == old(shutdownRequested)
      ensures !IsVolumeKey(key) ==> mediaVolume == old(mediaVolume) && volumeWrites == old(volumeWrites)
      ensures Model() == KeyDown(old(Model()), key)
    {
      match key
      case Up | VolumeUp =>
        SetVolume(Volume() + VolumeStep);
      case Down | VolumeDown =>
        SetVolume(Volume() - VolumeStep);
      case VolumeMute | D0 =>
        SetVolume(0.0);
      case Other(_) =>
        EndFullScreensaver();
    }

    method ScrMouseWheel(delta: int)
      requires Valid()
      modifies this
      ensures Valid()
      ensures shutdownRequested == old(shutdownRequested)
      ensures Model() == MouseWheel(old(Model()), delta)
    {
      SetVolume(Volume() + (delta as real) / WheelUnits);
    }

    method ScrMouseMove(mousePosition: Point)
      requires Valid()
      modifies this
      ensures Valid()
      ensures lastMousePosition == Some(mousePosition)
      ensures Model() == MouseMove(old(Model()), mousePosition)
    {
      if lastMousePosition.Some? && mousePosition != lastMousePosition.value {
        EndFullScreensaver();
      }
      lastMousePosition := Some(mousePosition);
    }

    method ScrMouseDown()
      requires Valid()
      modifies this
      ensures Valid()
      ensures Model() == MouseDown(old(Model()))
    {
      EndFullScreensaver();
    }

    method ScrSizeChange(newSize: Size)
      requires Valid()
      modifies this
      ensures Valid()
      ensures Model() == SizeChange(old(Model()), newSize)
    {
      mediaSize := Some(newSize);
    }

    /** `videoPaths` is the list read from the preference store; `pick` is
        the index the random generator returns for it. */
    method OnLoaded(videoPaths: seq<string>, pick: nat)
      requires Valid()
      requires videoPaths != [] ==> pick < |videoPaths|
      modifies this
      ensures Valid()
      ensures Model() == Loaded(old(Model()), videoPaths, pick)
    {
      if |videoPaths| == 0 {
        ShowError(NotConfigured);
      } else {
        maximized := true;
        PlayNextVideo(videoPaths, pick);
      }
    }

    method MediaEnded(videoPaths: seq<string>, pick: nat)
      requires Valid()
      requires pick < |videoPaths|
      modifies this
      ensures Valid()
      ensures Model() == Session.MediaEnded(old(Model()), videoPaths, pick)
    {
      PlayNextVideo(videoPaths, pick);
    }

    method PlayNextVideo(videoPaths: seq<string>, pick: nat)
      requires Valid()
      requires pick < |videoPaths|
      modifies this
      ensures Valid()
      ensures mediaSource == Some(videoPaths[pick])
      ensures Model() == Session.PlayNextVideo(old(Model()), videoPaths, pick)
    {
      mediaSource := Some(videoPaths[pick]);
    }
  }
}
