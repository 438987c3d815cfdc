/** What AppData.py does with one received line and with a run of them, as written, and what
    its alert blocks do once their variables are declared global. */
module AppDataProps {
  import opened Wrappers
  import opened PyStr
  import opened Host
  import opened Policy
  import opened AppData

  /** As written, a line never sends a notification and never changes the alert variables;
      when no exception escapes, each series is what its own block makes of the state before
      the line, whatever other labels the line holds. */
  lemma MetricsIndependent(sc: Scan, s: State)
    requires SharedSeparator(sc)
    ensures var o := ReadLine(sc, s);
      var t := TemperatureStep(sc.temperature, s);
      var h := HumidityStep(sc.humidity, s);
      var n := NoiseStep(sc.noise, s);
      && o.sent == [] && SameAlerts(o.state, s)
      && (o.raised.None? <==> t.raised.None? && h.raised.None? && n.raised.None?)
      && (o.raised.None? ==> o.state == s.(temperatures := t.state.temperatures, humidities := h.state.humidities,
                                            noiseLevels := n.state.noiseLevels))
      && (o.raised == Some(IndexError) ==> o == Outcome(s, [], Some(IndexError)))
  {
    var t := TemperatureStep(sc.temperature, s);
    if t.raised.None? {
      var h := HumidityStep(sc.humidity, t.state);
      assert h.state.humidities == HumidityStep(sc.humidity, s).state.humidities;
      if h.raised.None? {
        var n := NoiseStep(sc.noise, h.state);
        assert n.state.noiseLevels == NoiseStep(sc.noise, s).state.noiseLevels;
        assert n.raised == NoiseStep(sc.noise, s).raised;
      }
    }
  }

  /** A line containing "Temperatura" whose value parses appends exactly that value; a value of
      40 or more then ends the line with UnboundLocalError, before the humidity and noise blocks.
      A value that does not parse leaves the series as it was; a line without ':' raises
      IndexError and changes nothing. */
  lemma TemperatureReading(data: string, rt: Runtime, s: State)
    requires Contains(data, TemperatureLabel)
    ensures var o := ReadLine(ScanLine(data, rt), s);
      match FloatField(data, Celsius, rt)
      case Value(t) =>
        && o.state.temperatures == s.temperatures + [t]
        && (TemperatureHigh(t) ==>
              o == Outcome(s.(temperatures := s.temperatures + [t]), [], Some(UnboundLocalError(TemperatureTimeVariable))))
        && (!TemperatureHigh(t) ==> o.raised != Some(UnboundLocalError(TemperatureTimeVariable)))
      case Malformed => o.state.temperatures == s.temperatures
      case Missing => o == Outcome(s, [], Some(IndexError))
  {
    MetricsIndependent(ScanLine(data, rt), s);
  }

  /** A line containing "Humidade" whose value parses appends exactly that value, unless the
      temperature on the same line has already ended it; humidity never raises anything but
      IndexError for a line without ':'. Nothing is sent and the alert variables stay as they
      are. */
  lemma HumidityReading(data: string, rt: Runtime, s: State)
    requires Contains(data, HumidityLabel)
    ensures var o := ReadLine(ScanLine(data, rt), s);
      && o.sent == [] && SameAlerts(o.state, s)
      && match FloatField(data, Percent, rt)
      case Value(h) =>
        o.raised != Some(UnboundLocalError(TemperatureTimeVariable)) ==> o.state.humidities == s.humidities + [h]
      case Malformed => o.state.humidities == s.humidities
      case Missing => o == Outcome(s, [], Some(IndexError))
  {
    MetricsIndependent(ScanLine(data, rt), s);
  }

  /** A line containing "Nível de Ruído" whose value parses with `int` appends exactly that
      value, unless the temperature on the same line has already ended it; a level of 200 or
      more then raises UnboundLocalError. */
  lemma NoiseReading(data: string, rt: Runtime, s: State)
    requires Contains(data, NoiseLabel)
    ensures var o := ReadLine(ScanLine(data, rt), s);
      match IntField(data, rt)
      case Value(n) =>
        o.raised != Some(UnboundLocalError(TemperatureTimeVariable)) ==>
          && o.state.noiseLevels == s.noiseLevels + [n]
          && (o.raised == Some(UnboundLocalError(NoiseTimeVariable)) <==> NoiseHigh(n))
      case Malformed => o.state.noiseLevels == s.noiseLevels
      case Missing => o == Outcome(s, [], Some(IndexError))
  {
    MetricsIndependent(ScanLine(data, rt), s);
  }

  /** A received line with a temperature of 40 or more: the value is appended, the tick ends
      with UnboundLocalError, nothing is sent, the other series and the alert variables are
      untouched, and `update_graph` does not run, so the temperature series is not trimmed. */
  lemma HotTemperatureRaises(line: string, rt: Runtime, s: State, t: real)
    requires Contains(Strip(line), TemperatureLabel) && FloatField(Strip(line), Celsius, rt) == Value(t)
    requires TemperatureHigh(t)
    ensures Tick(Some(line), rt, s) == Outcome(s.(temperatures := s.temperatures + [t]), [], Some(UnboundLocalError(TemperatureTimeVariable)))
  {
    TemperatureReading(Strip(line), rt, s);
  }

  /** A received line with a noise level of 200 or more and no temperature label: the level is
      appended, the tick ends with UnboundLocalError and nothing is sent or trimmed. */
  lemma LoudNoiseRaises(line: string, rt: Runtime, s: State, n: int)
    requires !Contains(Strip(line), TemperatureLabel)
    requires Contains(Strip(line), NoiseLabel) && IntField(Strip(line), rt) == Value(n) && NoiseHigh(n)
    ensures var o := Tick(Some(line), rt, s);
      && o.raised == Some(UnboundLocalError(NoiseTimeVariable)) && o.sent == []
      && o.state.noiseLevels == s.noiseLevels + [n] && o.state.temperatures == s.temperatures
      && SameAlerts(o.state, s)
  {
    NoiseReading(Strip(line), rt, s);
  }

  /** The trim of `update_graph`: at most `MaxDataPoints` temperatures leave everything as it
      is; past that, the oldest element of each of the three series is dropped and the order
      of the rest kept; popping an empty humidity series raises IndexError after the temperature
      pop, and popping an empty noise series raises it after the temperature and humidity pops,
      with everything else as it was. The alert variables are untouched. */
  lemma TrimEvictsOldest(s: State)
    ensures var o := Trim(s);
      && o.sent == [] && SameAlerts(o.state, s)
      && (|s.temperatures| <= MaxDataPoints ==> o == Outcome(s, [], None))
      && (|s.temperatures| > MaxDataPoints && s.humidities != [] && s.noiseLevels != [] ==>
            && o.raised == None
            && o.state.temperatures == s.temperatures[1..]
            && o.state.humidities == s.humidities[1..]
            && o.state.noiseLevels == s.noiseLevels[1..])
      && (|s.temperatures| > MaxDataPoints && s.humidities == [] ==>
            o == Outcome(s.(temperatures := s.temperatures[1..]), [], Some(IndexError)))
      && (|s.temperatures| > MaxDataPoints && s.humidities != [] && s.noiseLevels == [] ==>
            o == Outcome(s.(temperatures := s.temperatures[1..], humidities := s.humidities[1..]), [], Some(IndexError)))
  {
  }

  /** As written, a tick never sends a notification and never changes the alert variables. */
  lemma TickNeverAlerts(received: Option<string>, rt: Runtime, s: State)
    ensures Tick(received, rt, s).sent == [] && SameAlerts(Tick(received, rt, s).state, s)
  {
    if received.Some? {
      MetricsIndependent(ScanLine(Strip(received.value), rt), s);
    }
  }

  /** So, over any run of ticks, nothing is sent and the alert variables keep their initial
      values: from the start, no alert text is ever shown. */
  lemma {:induction false} RunNeverAlerts(lines: seq<Option<string>>, rt: Runtime, s: State)
    ensures Run(lines, rt, s).sent == [] && SameAlerts(Run(lines, rt, s).state, s)
    ensures s == Initial ==> Run(lines, rt, s).state.lastTempAlert == None && Run(lines, rt, s).state.lastNoiseAlert == None
    decreases |lines|
  {
    if lines != [] {
      TickNeverAlerts(lines[0], rt, s);
      var o := Tick(lines[0], rt, s);
      if o.raised.None? {
        RunNeverAlerts(lines[1..], rt, o.state);
      }
    }
  }

  /** A temperature series within `MaxDataPoints` stays within it after a tick that raises
      nothing, and within one more after any tick: a line that raises after appending skips
      the trim. A tick stopped by the temperature alert variable has appended exactly one
      temperature, so from a full series it leaves `MaxDataPoints + 1`. */
  lemma TickBound(received: Option<string>, rt: Runtime, s: State)
    requires |s.temperatures| <= MaxDataPoints
    ensures var o := Tick(received, rt, s);
      && |o.state.temperatures| <= MaxDataPoints + 1
      && (o.raised.None? ==> |o.state.temperatures| <= MaxDataPoints)
      && (o.raised == Some(UnboundLocalError(TemperatureTimeVariable)) ==> |o.state.temperatures| == |s.temperatures| + 1)
  {
    if received.Some? {
      var sc := ScanLine(Strip(received.value), rt);
      var t := TemperatureStep(sc.temperature, s);
      if t.raised.None? {
        var h := HumidityStep(sc.humidity, t.state);
        if h.raised.None? {
          var n := NoiseStep(sc.noise, h.state);
          assert n.raised != Some(UnboundLocalError(TemperatureTimeVariable));
        }
      }
    }
  }

  /** So over a run of ticks from a series within `MaxDataPoints`: a run that raises nothing
      ends within the bound, and one that stops on an exception with at most one more. */
  lemma {:induction false} RunBound(lines: seq<Option<string>>, rt: Runtime, s: State)
    requires |s.temperatures| <= MaxDataPoints
    ensures var r := Run(lines, rt, s);
      && |r.state.temperatures| <= MaxDataPoints + 1
      && (r.raised.None? ==> |r.state.temperatures| <= MaxDataPoints)
    decreases |lines|
  {
    if lines != [] {
      TickBound(lines[0], rt, s);
      var o := Tick(lines[0], rt, s);
      if o.raised.None? {
        RunBound(lines[1..], rt, o.state);
      }
    }
  }

  /** The corrected temperature block alerts exactly when the value is at least 40 and 300 s
      have passed since the last temperature alert; then it records `now` and the stamped text,
      otherwise both stay as they were. The value is appended either way and nothing raises. */
  lemma IntendedTemperatureAlerts(t: real, now: real, rt: Runtime, s: State)
    ensures var o := IntendedTemperatureStep(Labelled(Value(t)), now, rt, s);
      && o.raised == None && o.state.temperatures == s.temperatures + [t]
      && (o.sent != [] <==> TemperatureHigh(t) && CooledDown(now, s.lastAlertTimeTemp))
      && (o.sent != [] ==>
            && o.sent == [Notification(TemperatureTitle, TemperatureBody(rt, t))]
            && o.state.lastAlertTimeTemp == now
            && o.state.lastTempAlert == Some(TemperatureBody(rt, t) + " - " + rt.ctime(now)))
      && (o.sent == [] ==> o.state.lastAlertTimeTemp == s.lastAlertTimeTemp && o.state.lastTempAlert == s.lastTempAlert)
  {
  }

  /** The corrected noise block alerts exactly when the level is at least 200 and 300 s have
      passed since the last noise alert, with its own bookkeeping. */
  lemma IntendedNoiseAlerts(n: int, now: real, rt: Runtime, s: State)
    ensures var o := IntendedNoiseStep(Labelled(Value(n)), now, rt, s);
      && o.raised == None && o.state.noiseLevels == s.noiseLevels + [n]
      && (o.sent != [] <==> NoiseHigh(n) && CooledDown(now, s.lastAlertTimeNoise))
      && (o.sent != [] ==>
            && o.sent == [Notification(NoiseTitle, NoiseBody(rt, n))]
            && o.state.lastAlertTimeNoise == now
            && o.state.lastNoiseAlert == Some(NoiseBody(rt, n) + " - " + rt.ctime(now)))
      && (o.sent == [] ==> o.state.lastAlertTimeNoise == s.lastAlertTimeNoise && o.state.lastNoiseAlert == s.lastNoiseAlert)
  {
  }

  /** The corrected tick raises only IndexError, and keeps the temperature series within
      `MaxDataPoints`. */
  lemma IntendedTickKeepsBound(received: Option<string>, now: real, rt: Runtime, s: State)
    requires |s.temperatures| <= MaxDataPoints
    ensures var o := IntendedTick(received, now, rt, s);
      && (o.raised.Some? ==> o.raised == Some(IndexError))
      && |o.state.temperatures| <= MaxDataPoints
  {
    if received.Some? {
      var sc := ScanLine(Strip(received.value), rt);
      var t := IntendedTemperatureStep(sc.temperature, now, rt, s);
      if t.raised.None? {
        var h := HumidityStep(sc.humidity, t.state);
        if h.raised.None? {
          var n := IntendedNoiseStep(sc.noise, now, rt, h.state);
          assert |n.state.temperatures| <= MaxDataPoints + 1;
        }
      }
    }
  }

  /** Wherever the code as written does not stop at an unassigned alert variable, the
      corrected code does exactly the same, IndexError included: the two differ only on lines
      that reach an alert threshold. */
  lemma IntendedAgreesBelowThresholds(received: Option<string>, now: real, rt: Runtime, s: State)
    requires !(Tick(received, rt, s).raised.Some? && Tick(received, rt, s).raised.value.UnboundLocalError?)
    ensures IntendedTick(received, now, rt, s) == Tick(received, rt, s)
  {
    if received.Some? {
      var sc := ScanLine(Strip(received.value), rt);
      var t := TemperatureStep(sc.temperature, s);
      assert IntendedTemperatureStep(sc.temperature, now, rt, s) == t;
      if t.raised.None? {
        var h := HumidityStep(sc.humidity, t.state);
        if h.raised.None? {
          assert IntendedNoiseStep(sc.noise, now, rt, h.state) == NoiseStep(sc.noise, h.state);
        }
      }
    }
  }
}
