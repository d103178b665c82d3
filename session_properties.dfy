/** Properties of whole sessions: what holds after any sequence of input
    events, proved by induction on the events, and three concrete
    scenarios. */
module SessionProperties {
  import opened Session

  /** Whether some event of `es`, in the state reached just before it, asks
      for the screensaver to end. */
  ghost predicate EndRequestedDuring(s: State, es: seq<Event>)
    requires PicksInRange(es)
  {
    exists i :: 0 <= i < |es| && EndRequestedAt(s, es, i)
  }

  /** Whether event `i` of `es`, in the state reached just before it, asks
      for the screensaver to end. */
  ghost predicate EndRequestedAt(s: State, es: seq<Event>, i: nat)
    requires PicksInRange(es) && i < |es|
  {
    RequestsEnd(Run(s, es[..i]), es[i])
  }

  /** No event changes the mode. */
  lemma {:induction false} RunKeepsMode(s: State, es: seq<Event>)
    requires PicksInRange(es)
    ensures Run(s, es).preview == s.preview
    decreases |es|
  {
    if es != [] {
      RunKeepsMode(s, es[..|es| - 1]);
    }
  }

  /** An end request by event `i` is one within any prefix that holds it. */
  lemma EndRequestedWithin(s: State, es: seq<Event>, n: nat, i: nat)
    requires PicksInRange(es) && i < n <= |es|
    requires EndRequestedAt(s, es, i)
    ensures EndRequestedAt(s, es[..n], i)
  {
    assert es[..n][..i] == es[..i];
  }

  /** An end request within the first `n` events is one within all events. */
  lemma EndRequestedDuringPrefix(s: State, es: seq<Event>, n: nat)
    requires PicksInRange(es) && n <= |es|
    requires EndRequestedDuring(s, es[..n])
    ensures EndRequestedDuring(s, es)
  {
    var i :| 0 <= i < n && EndRequestedAt(s, es[..n], i);
    assert es[..n][..i] == es[..i];
    assert EndRequestedAt(s, es, i);
  }

  /** An end request within all events is one within all but the last, or
      comes from the last event. */
  lemma EndRequestedDuringLast(s: State, es: seq<Event>)
    requires PicksInRange(es) && es != []
    requires EndRequestedDuring(s, es)
    ensures || EndRequestedDuring(s, es[..|es| - 1])
            || EndRequestedAt(s, es, |es| - 1)
  {
    var i :| 0 <= i < |es| && EndRequestedAt(s, es, i);
    if i < |es| - 1 {
      EndRequestedWithin(s, es, |es| - 1, i);
      assert EndRequestedDuring(s, es[..|es| - 1]);
    } else {
      assert i == |es| - 1;
    }
  }

  /** Termination scope: a shutdown has been requested after a session
      exactly when one had been before it, or the window is full-screen and
      some event asked for the end. */
  lemma {:induction false} RunShutdown(s: State, es: seq<Event>)
    requires PicksInRange(es)
    ensures Run(s, es).shutdownRequested <==>
              s.shutdownRequested || (!s.preview && EndRequestedDuring(s, es))
    decreases |es|
  {
    if es != [] {
      var init := es[..|es| - 1];
      RunShutdown(s, init);
      RunKeepsMode(s, init);
      if EndRequestedDuring(s, es) {
        EndRequestedDuringLast(s, es);
      }
      if EndRequestedDuring(s, init) {
        EndRequestedDuringPrefix(s, es, |es| - 1);
      }
      if EndRequestedAt(s, es, |es| - 1) {
        assert es[..|es| - 1] == init;
      }
    }
  }

  /** A preview window never shuts the process down, whatever it receives. */
  lemma {:induction false} PreviewNeverShutsDown(s: State, es: seq<Event>)
    requires PicksInRange(es)
    requires s.preview && !s.shutdownRequested
    ensures !Run(s, es).shutdownRequested
    decreases |es|
  {
    if es != [] {
      RunKeepsMode(s, es[..|es| - 1]);
      PreviewNeverShutsDown(s, es[..|es| - 1]);
    }
  }

  /** Clamping and persistence: every volume ever written to the store lies
      in [0, 1], and once one has been written, the media plays at the last
      one written. */
  lemma {:induction false} RunKeepsConsistent(s: State, es: seq<Event>)
    requires PicksInRange(es)
    requires Consistent(s)
    ensures Consistent(Run(s, es))
    decreases |es|
  {
    if es != [] {
      var t := Run(s, es[..|es| - 1]);
      RunKeepsConsistent(s, es[..|es| - 1]);
      var r := Step(t, es[|es| - 1]);
      assert Run(s, es) == r;
      if VolumeRequest(t, es[|es| - 1]).Some? {
        forall i | 0 <= i < |r.volumeWrites|
          ensures 0.0 <= r.volumeWrites[i] <= 1.0
        {
          if i < |t.volumeWrites| {
            assert r.volumeWrites[i] == t.volumeWrites[i];
          }
        }
      }
    }
  }

  /** Persistence on every change: a session appends exactly one store write
      per volume key or wheel event, and rewrites none of the earlier ones. */
  lemma {:induction false} RunWritesOncePerVolumeEvent(s: State, es: seq<Event>)
    requires PicksInRange(es)
    ensures |Run(s, es).volumeWrites| == |s.volumeWrites| + VolumeEvents(es)
    ensures Run(s, es).volumeWrites[..|s.volumeWrites|] == s.volumeWrites
    decreases |es|
  {
    if es != [] {
      var t := Run(s, es[..|es| - 1]);
      RunWritesOncePerVolumeEvent(s, es[..|es| - 1]);
      var r := Step(t, es[|es| - 1]);
      assert Run(s, es) == r;
      if AdjustsVolume(es[|es| - 1]) {
        assert r.volumeWrites[..|t.volumeWrites|] == t.volumeWrites;
        assert r.volumeWrites[..|s.volumeWrites|] == t.volumeWrites[..|s.volumeWrites|];
      }
    }
  }

  /** Once any volume-changing event has been handled, the volume lies in
      [0, 1], even though the stored volume read at start-up is not clamped. */
  lemma VolumeInRangeOnceAdjusted(s: State, es: seq<Event>)
    requires PicksInRange(es)
    requires Consistent(s)
    requires VolumeEvents(es) > 0
    ensures 0.0 <= Run(s, es).volume <= 1.0
  {
    RunKeepsConsistent(s, es);
    RunWritesOncePerVolumeEvent(s, es);
  }

  /** A session made only of volume keys, wheel turns, resizes, loading and
      playback ends never requests a shutdown. */
  lemma {:induction false} NoEndRequestNoShutdown(s: State, es: seq<Event>)
    requires PicksInRange(es)
    requires forall i :: 0 <= i < |es| ==> !es[i].ButtonPressed? && !es[i].MouseMoved?
    requires forall i :: 0 <= i < |es| ==> es[i].KeyPressed? ==> IsVolumeKey(es[i].key)
    ensures Run(s, es).shutdownRequested == s.shutdownRequested
    decreases |es|
  {
    if es != [] {
      NoEndRequestNoShutdown(s, es[..|es| - 1]);
    }
  }

  /** Move suppression: the first move never ends the screensaver, wherever
      it goes; a second move to another position ends a full-screen one. */
  lemma FirstMoveSuppressed(s: State, p: Point, q: Point)
    requires s.lastMousePosition == None && !s.shutdownRequested
    ensures !Run(s, [MouseMoved(p)]).shutdownRequested
    ensures Run(s, [MouseMoved(p)]).lastMousePosition == Some(p)
    ensures !s.preview && q != p ==> Run(s, [MouseMoved(p), MouseMoved(q)]).shutdownRequested
    ensures !Run(s, [MouseMoved(p), MouseMoved(p)]).shutdownRequested
  {
  }

  /** Clamping at the top: at 0.95, volume-up gives exactly 1, not 1.05. */
  lemma VolumeUpClampsAtOne(s: State)
    requires s.volume == 0.95
    ensures KeyDown(s, Up).volume == 1.0
    ensures KeyDown(s, Up).volumeWrites == s.volumeWrites + [1.0]
    ensures !KeyDown(s, VolumeUp).shutdownRequested <==> !s.shutdownRequested
  {
  }

  /** A wheel delta of -300 lowers the volume by 0.3, not below 0, and does
      not end the screensaver or change the video. */
  lemma WheelDownScenario(s: State)
    requires 0.0 <= s.volume <= 1.0
    ensures MouseWheel(s, -300).volume == Max(s.volume - 0.3, 0.0)
    ensures MouseWheel(s, -300).shutdownRequested == s.shutdownRequested
    ensures MouseWheel(s, -300).source == s.source
  {
  }

  /** With an empty video list, loading shows the configuration error and
      plays nothing, and a later key press still ends a full-screen session. */
  lemma EmptyPlaylistScenario(storedVolume: real, key: Key)
    requires key.Other?
    ensures Run(Init(false, storedVolume), [WindowLoaded([], 0)]).errorText == Some(NotConfigured)
    ensures Run(Init(false, storedVolume), [WindowLoaded([], 0)]).source == None
    ensures !Run(Init(false, storedVolume), [WindowLoaded([], 0)]).maximized
    ensures Run(Init(false, storedVolume), [WindowLoaded([], 0), KeyPressed(key)]).shutdownRequested
  {
  }
}
