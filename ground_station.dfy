/** A model of the connection state and the altitude history kept by the
    rocket ground-station dashboard (class RocketGroundStation).

    The dashboard holds two flags, `connected` and `running`, the wall-clock
    reading at which the current session started, and two parallel lists
    holding the elapsed time and the altitude of the most recent samples.
    Clock readings and altitudes are inputs here: the dashboard draws them
    from the system clock and a random generator. */
module GroundStation {

  datatype Option<T> = None | Some(value: T)

  /** The history keeps at most this many samples; the oldest is dropped first. */
  const MaxSamples: nat := 100

  /** One iteration of the telemetry loop: seconds since the session started
      and the altitude drawn in that iteration. */
  datatype Sample = Sample(elapsed: real, altitude: real)

  /** What one iteration of the telemetry loop reads from outside:
      the wall clock and the altitude. */
  datatype Reading = Reading(clock: real, altitude: real)

  // ---------------------------------------------------------------------
  // The sliding window
  // ---------------------------------------------------------------------

  /** The last `n` elements of `s` (all of `s` when it is shorter), in order. */
  function Recent<T>(s: seq<T>, n: nat): (r: seq<T>)
    ensures |r| == if |s| <= n then |s| else n
  {
    if |s| <= n then s else s[|s| - n..]
  }

  /** Appending to a window and cutting it back to `n` gives the same result
      as appending to the full sequence and cutting that: a window of the
      most recent `n` elements loses nothing that a later window needs. */
  lemma RecentOfRecent<T>(a: seq<T>, b: seq<T>, n: nat)
    ensures Recent(Recent(a, n) + b, n) == Recent(a + b, n)
  {
    if |a| > n {
      var ab := a + b;
      assert Recent(a, n) + b == ab[|a| - n..];
      assert ab[|a| - n..][|b|..] == ab[|ab| - n..];
    }
  }

  /** One iteration's update of one history list: append the new value,
      then drop the oldest value if the list has grown past MaxSamples. */
  function Push<T>(s: seq<T>, x: T): (r: seq<T>)
    ensures 0 < |r| && r[|r| - 1] == x
    ensures |s| <= MaxSamples ==> |r| <= MaxSamples
  {
    var appended := s + [x];
    if |appended| > MaxSamples then appended[1..] else appended
  }

  /** What one append and trim does to a list within its bound: it keeps the
      most recent MaxSamples values. Below the bound nothing is dropped and the
      old contents are a prefix of the new ones; at the bound exactly the
      oldest value goes and the others keep their order. */
  lemma PushCases<T>(s: seq<T>, x: T)
    requires |s| <= MaxSamples
    ensures Push(s, x) == Recent(s + [x], MaxSamples)
    ensures |s| < MaxSamples ==> Push(s, x) == s + [x]
    ensures |s| == MaxSamples ==> Push(s, x) == s[1..] + [x]
  {
    if |s| == MaxSamples {
      assert (s + [x])[1..] == s[1..] + [x];
    }
  }

  /** The list after one Push per value of `xs`, in order. */
  function PushAll<T>(s: seq<T>, xs: seq<T>): (r: seq<T>)
    ensures |s| <= MaxSamples ==> |r| <= MaxSamples
    ensures xs != [] ==> |r| > 0 && r[|r| - 1] == xs[|xs| - 1]
    ensures xs == [] ==> r == s
  {
    if xs == [] then s else Push(PushAll(s, xs[..|xs| - 1]), xs[|xs| - 1])
  }

  /** Pushing values one at a time, as the telemetry loop does, leaves
      exactly the most recent MaxSamples of the old list followed by the new
      values, in their original order. */
  lemma {:induction false} PushAllIsRecent<T>(s: seq<T>, xs: seq<T>)
    requires |s| <= MaxSamples
    ensures PushAll(s, xs) == Recent(s + xs, MaxSamples)
  {
    if xs != [] {
      var init, x := xs[..|xs| - 1], xs[|xs| - 1];
      assert xs == init + [x];
      calc {
        PushAll(s, xs);
        Push(PushAll(s, init), x);
        { PushCases(PushAll(s, init), x); }
        Recent(PushAll(s, init) + [x], MaxSamples);
        { PushAllIsRecent(s, init); }
        Recent(Recent(s + init, MaxSamples) + [x], MaxSamples);
        { RecentOfRecent(s + init, [x], MaxSamples); }
        Recent((s + init) + [x], MaxSamples);
        { assert (s + init) + [x] == s + xs; }
        Recent(s + xs, MaxSamples);
      }
    }
  }

  // ---------------------------------------------------------------------
  // The tick log and its two projections
  // ---------------------------------------------------------------------

  /** The elapsed times of a run of samples, in order. */
  function Times(samples: seq<Sample>): seq<real>
  {
    seq(|samples|, i requires 0 <= i < |samples| => samples[i].elapsed)
  }

  /** The altitudes of a run of samples, in order. */
  function Altitudes(samples: seq<Sample>): seq<real>
  {
    seq(|samples|, i requires 0 <= i < |samples| => samples[i].altitude)
  }

  /** The samples that a session started at clock reading `start` produces
      from a run of readings: one per reading, elapsed time measured from `start`. */
  function Sampled(start: real, readings: seq<Reading>): seq<Sample>
  {
    seq(|readings|, i requires 0 <= i < |readings| =>
      Sample(readings[i].clock - start, readings[i].altitude))
  }

  /** Index `i` of the time window and index `i` of the altitude window come
      from the same tick: both windows have the same length and both are the
      tail of the one log. */
  lemma WindowsPaired(samples: seq<Sample>, n: nat)
    ensures |Recent(Times(samples), n)| == |Recent(Altitudes(samples), n)|
    ensures forall i :: 0 <= i < |Recent(Times(samples), n)| ==>
              Recent(Times(samples), n)[i] ==
              samples[|samples| - |Recent(Times(samples), n)| + i].elapsed
    ensures forall i :: 0 <= i < |Recent(Altitudes(samples), n)| ==>
              Recent(Altitudes(samples), n)[i] ==
              samples[|samples| - |Recent(Altitudes(samples), n)| + i].altitude
  {
  }

  /** Running more ticks on top of a log: the window of the longer log is
      the window of the old log followed by the new values, cut back to `n`.
      This is the sliding window over the most recent `n` samples, for both
      lists at once. */
  lemma WindowAfterRun(log: seq<Sample>, added: seq<Sample>, n: nat)
    ensures Recent(Times(log + added), n) == Recent(Recent(Times(log), n) + Times(added), n)
    ensures Recent(Altitudes(log + added), n) == Recent(Recent(Altitudes(log), n) + Altitudes(added), n)
  {
    assert Times(log + added) == Times(log) + Times(added);
    assert Altitudes(log + added) == Altitudes(log) + Altitudes(added);
    RecentOfRecent(Times(log), Times(added), n);
    RecentOfRecent(Altitudes(log), Altitudes(added), n);
  }

  // ---------------------------------------------------------------------
  // The dashboard's state
  // ---------------------------------------------------------------------

  class RocketGroundStation {
    var connected: bool
    var running: bool
    var startTime: Option<real>
    var timeData: seq<real>
    var altitudeData: seq<real>

    /** Every sample the telemetry loop has produced, across all sessions. */
    ghost var samples: seq<Sample>

    /** The flags agree, a running loop has a session start, and the two
        history lists are the most recent MaxSamples ticks of the log. */
    ghost predicate Valid()
      reads this
    {
      && running == connected
      && (running ==> startTime.Some?)
      && timeData == Recent(Times(samples), MaxSamples)
      && altitudeData == Recent(Altitudes(samples), MaxSamples)
    }

    /** Disconnected, no session start and empty history. */
    constructor ()
      ensures Valid()
      ensures !connected && !running && startTime == None
      ensures timeData == [] && altitudeData == [] && samples == []
    {
      connected := false;
      running := false;
      startTime := None;
      timeData := [];
      altitudeData := [];
      samples := [];
    }

    /** The connect/disconnect button. Connecting stamps the session start
        with the clock reading `now`; disconnecting keeps the old stamp.
        The history is left alone either way. */
    method Toggle(now: real)
      requires Valid()
      modifies this
      ensures Valid()
      ensures connected == !old(connected) && running == connected
      ensures startTime == if old(connected) then old(startTime) else Some(now)
      ensures timeData == old(timeData) && altitudeData == old(altitudeData)
      ensures samples == old(samples)
    {
      if !connected {
        connected := true;
        startTime := Some(now);
        running := true;
      } else {
        connected := false;
        running := false;
      }
    }

    /** One iteration of the telemetry loop at clock reading `now` with
        altitude `altitude`: append the pair, then drop the oldest pair when
        the lists have grown past MaxSamples. */
    method Tick(now: real, altitude: real)
      requires Valid() && running
      modifies this
      ensures Valid()
      ensures connected == old(connected) && running == old(running)
      ensures startTime == old(startTime)
      ensures samples == old(samples) + [Sample(now - startTime.value, altitude)]
      ensures timeData == Recent(old(timeData) + [now - startTime.value], MaxSamples)
      ensures altitudeData == Recent(old(altitudeData) + [altitude], MaxSamples)
    {
      var elapsed := now - startTime.value;
      assert |timeData| == |altitudeData| <= MaxSamples;
      altitudeData := altitudeData + [altitude];
      timeData := timeData + [elapsed];
      if |timeData| > MaxSamples {
        altitudeData := altitudeData[1..];
        timeData := timeData[1..];
      }
      assert timeData == Recent(old(timeData) + [elapsed], MaxSamples);
      assert altitudeData == Recent(old(altitudeData) + [altitude], MaxSamples);
      ghost var added := [Sample(elapsed, altitude)];
      WindowAfterRun(samples, added, MaxSamples);
      assert Times(added) == [elapsed] && Altitudes(added) == [altitude];
      samples := samples + added;
    }

    /** The telemetry loop of one session, one iteration per reading. The
        loop itself runs until another thread clears `running`; here the
        readings it will see are given up front. The history ends up as the
        most recent MaxSamples of the old history followed by the new samples. */
    method RunTelemetryLoop(readings: seq<Reading>)
      requires Valid() && running
      modifies this
      ensures Valid()
      ensures connected == old(connected) && running == old(running)
      ensures startTime == old(startTime)
      ensures samples == old(samples) + Sampled(startTime.value, readings)
      ensures timeData ==
                Recent(old(timeData) + Times(Sampled(startTime.value, readings)), MaxSamples)
      ensures altitudeData ==
                Recent(old(altitudeData) + Altitudes(Sampled(startTime.value, readings)), MaxSamples)
      ensures timeData == PushAll(old(timeData), Times(Sampled(startTime.value, readings)))
      ensures altitudeData == PushAll(old(altitudeData), Altitudes(Sampled(startTime.value, readings)))
    {
      assert |timeData| <= MaxSamples && |altitudeData| <= MaxSamples;
      var i := 0;
      while i < |readings|
        invariant 0 <= i <= |readings|
        invariant Valid() && running
        invariant connected == old(connected) && startTime == old(startTime)
        invariant samples == old(samples) + Sampled(startTime.value, readings[..i])
      {
        Tick(readings[i].clock, readings[i].altitude);
        assert readings[..i + 1] == readings[..i] + [readings[i]];
        i := i + 1;
      }
      assert readings[..i] == readings;
      ghost var added := Sampled(startTime.value, readings);
      WindowAfterRun(old(samples), added, MaxSamples);
      PushAllIsRecent(old(timeData), Times(added));
      PushAllIsRecent(old(altitudeData), Altitudes(added));
    }
  }

  /** Toggling twice restores both flags; the second toggle keeps the
      session start stamped by the first. */
  method ToggleTwice(station: RocketGroundStation, t1: real, t2: real)
    requires station.Valid()
    modifies station
    ensures station.Valid()
    ensures station.connected == old(station.connected)
    ensures station.running == old(station.running)
    ensures !old(station.connected) ==> station.startTime == Some(t1)
    ensures old(station.connected) ==> station.startTime == Some(t2)
    ensures station.samples == old(station.samples)
    ensures station.timeData == old(station.timeData)
    ensures station.altitudeData == old(station.altitudeData)
  {
    station.Toggle(t1);
    station.Toggle(t2);
  }

  /** A session that ticks once at clock 10 (started at 0), is disconnected,
      and is reconnected at clock 20 and ticks at clock 21: the samples of the
      first session survive the reconnect, and because the session start is
      restamped the time values in the history go down from 10 to 1. */
  method ReconnectRestartsClock() returns (times: seq<real>, altitudes: seq<real>)
    ensures times == [10.0, 1.0]
    ensures altitudes == [500.0, 250.0]
  {
    var station := new RocketGroundStation();
    station.Toggle(0.0);
    station.Tick(10.0, 500.0);
    assert station.timeData == [10.0] && station.altitudeData == [500.0];
    station.Toggle(15.0);
    station.Toggle(20.0);
    assert station.startTime == Some(20.0);
    station.Tick(21.0, 250.0);
    times, altitudes := station.timeData, station.altitudeData;
  }
}
