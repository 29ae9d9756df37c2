/**
 * The background loop of mqtt_thread_fn as a function of the connected flag
 * and of what each wake-up from poll() brings: one iteration (PumpStep) and
 * the iterations up to the first exit (PumpRun).
 */
module Pump {
  import opened MqttTypes
  import opened Framing
  import opened Events

  /** The bits of fds.revents the loop tests. */
  datatype PollEvent = In | Err | Hup | Nval

  /**
   * One return from poll(): its return value and revents, the result of
   * mqtt_input, and the events the library delivers from inside mqtt_input and
   * mqtt_abort.
   */
  datatype Wake = Wake(
    pollResult: int,
    revents: set<PollEvent>,
    inputResult: int,
    inputEvent: Option<Delivery>,
    abortEvent: Option<Delivery>)

  /** Why the loop ended. TraceEnded means the wake-ups given ran out while the loop was still running. */
  datatype StopReason = NotConnected | PollFailed | InputFailed | ErrorFlag | HangUp | Invalid | TraceEnded

  /** The exits that go through mqtt_abort. */
  predicate Aborting(s: StopReason)
  {
    s == InputFailed || s == ErrorFlag || s == HangUp || s == Invalid
  }

  /** What one iteration did; stop is None when the loop goes round again. */
  datatype Step = Step(connected: bool, calls: seq<Call>, sent: seq<Emission>, stop: Option<StopReason>)

  /** What the loop did up to its exit. */
  datatype Run = Run(connected: bool, calls: seq<Call>, sent: seq<Emission>, stop: StopReason)

  /** The callback for an optional delivery. */
  function Deliver(connected: bool, d: Option<Delivery>): (x: Effect)
    ensures d.None? ==> x.connected == connected && x.calls == [] && x.sent == []
    ensures d.Some? ==> x == EventEffect(connected, d.value)
    ensures HandlerCallsOnly(x.calls)
  {
    if d.None? then Effect(connected, [], [], 0)
    else EventEffectCalls(connected, d.value); EventEffect(connected, d.value)
  }

  /** mqtt_abort, with whatever the library delivers from inside it, then the exit. */
  function Abort(connected: bool, calls: seq<Call>, sent: seq<Emission>, w: Wake, reason: StopReason): (s: Step)
    ensures s.stop == Some(reason)
    ensures |s.calls| > |calls| && s.calls[..|calls| + 1] == calls + [MqttAbort]
  {
    var ev := Deliver(connected, w.abortEvent);
    Step(ev.connected, calls + [MqttAbort] + ev.calls, sent + ev.sent, Some(reason))
  }

  /** The POLLERR, POLLHUP and POLLNVAL tests, in that order: the exit they call for, if any. */
  function FlagStop(w: Wake): (r: Option<StopReason>)
    ensures r.None? <==> Err !in w.revents && Hup !in w.revents && Nval !in w.revents
    ensures r.Some? ==> Aborting(r.value)
    ensures Err in w.revents ==> r == Some(ErrorFlag)
    ensures Err !in w.revents && Hup in w.revents ==> r == Some(HangUp)
    ensures Err !in w.revents && Hup !in w.revents && Nval in w.revents ==> r == Some(Invalid)
  {
    if Err in w.revents then Some(ErrorFlag)
    else if Hup in w.revents then Some(HangUp)
    else if Nval in w.revents then Some(Invalid)
    else None
  }

  /** The end of an iteration: the flag tests, and mqtt_abort when one of them calls for an exit. */
  function CheckFlags(connected: bool, calls: seq<Call>, sent: seq<Emission>, w: Wake): (s: Step)
    ensures s.stop == FlagStop(w)
    ensures s.stop.None? ==> s.connected == connected && s.calls == calls && s.sent == sent
    ensures s.stop.Some? ==> |s.calls| > |calls| && s.calls[..|calls| + 1] == calls + [MqttAbort]
  {
    match FlagStop(w)
    case None => Step(connected, calls, sent, None)
    case Some(reason) => Abort(connected, calls, sent, w, reason)
  }

  /** The flag tests do not depend on what was called and sent before them. */
  lemma CheckFlagsPrefix(connected: bool, k0: seq<Call>, s0: seq<Emission>, k: seq<Call>, t: seq<Emission>, w: Wake)
    ensures var f := CheckFlags(connected, k0 + k, s0 + t, w);
            var g := CheckFlags(connected, k, t, w);
            f.connected == g.connected && f.stop == g.stop && f.calls == k0 + g.calls && f.sent == s0 + g.sent
  {
    match FlagStop(w)
    case None =>
    case Some(reason) => AbortPrefix(connected, k0, s0, k, t, w, reason);
  }

  /** mqtt_abort does not depend on what was called and sent before it. */
  lemma AbortPrefix(connected: bool, k0: seq<Call>, s0: seq<Emission>, k: seq<Call>, t: seq<Emission>, w: Wake, reason: StopReason)
    ensures var f := Abort(connected, k0 + k, s0 + t, w, reason);
            var g := Abort(connected, k, t, w, reason);
            f.connected == g.connected && f.calls == k0 + g.calls && f.sent == s0 + g.sent
  {
    var ev := Deliver(connected, w.abortEvent);
    assert (k0 + k) + [MqttAbort] + ev.calls == k0 + (k + [MqttAbort] + ev.calls);
    assert (s0 + t) + ev.sent == s0 + (t + ev.sent);
  }

  /**
   * What an iteration does once poll() returned and the keepalive tick was
   * made: on POLLIN the input (with the events it delivers) and, on an input
   * error, the abort; then the flag tests.
   */
  function AfterWait(connected: bool, w: Wake): (a: Step)
    ensures a.stop == Some(InputFailed) <==> In in w.revents && w.inputResult != 0
    ensures !(In in w.revents && w.inputResult != 0) ==> a.stop == FlagStop(w)
  {
    if In in w.revents then
      var ev := Deliver(connected, w.inputEvent);
      if w.inputResult != 0 then Abort(ev.connected, [MqttInput] + ev.calls, ev.sent, w, InputFailed)
      else CheckFlags(ev.connected, [MqttInput] + ev.calls, ev.sent, w)
    else CheckFlags(connected, [], [], w)
  }

  /** An input error: the input, its event, the abort and its event, and the exit. */
  lemma InputFailedShape(connected: bool, w: Wake, k0: seq<Call>, s0: seq<Emission>)
    requires In in w.revents && w.inputResult != 0
    ensures var ev := Deliver(connected, w.inputEvent);
            var ab := Deliver(ev.connected, w.abortEvent);
            var a := AfterWait(connected, w);
            a.connected == ab.connected && a.stop == Some(InputFailed)
            && k0 + a.calls == k0 + [MqttInput] + ev.calls + [MqttAbort] + ab.calls
            && s0 + a.sent == s0 + ev.sent + ab.sent
  {
    var ev := Deliver(connected, w.inputEvent);
    var ab := Deliver(ev.connected, w.abortEvent);
    assert k0 + ([MqttInput] + ev.calls + [MqttAbort] + ab.calls) == k0 + [MqttInput] + ev.calls + [MqttAbort] + ab.calls;
    assert s0 + (ev.sent + ab.sent) == s0 + ev.sent + ab.sent;
  }

  /** The wait and the keepalive tick, then the rest of the iteration. */
  lemma TickShape(connected: bool, w: Wake, k0: seq<Call>)
    requires connected && w.pollResult >= 0
    ensures var a := AfterWait(connected, w);
            var s := PumpStep(connected, w);
            s.connected == a.connected && s.sent == a.sent && s.stop == a.stop
            && k0 + s.calls == k0 + [PollWait] + [MqttLive] + a.calls
  {
    var a := AfterWait(connected, w);
    assert k0 + ([PollWait, MqttLive] + a.calls) == k0 + [PollWait] + [MqttLive] + a.calls;
  }

  /** One iteration of the loop: the flag check, the wait, the keepalive tick and the rest. */
  function PumpStep(connected: bool, w: Wake): (s: Step)
    ensures s.stop.None? ==> connected && w.pollResult >= 0
    ensures s.stop == Some(NotConnected) <==> !connected
    ensures s.stop == Some(NotConnected) ==> !s.connected
    ensures s.stop == Some(PollFailed) ==> s.connected
  {
    if !connected then Step(connected, [], [], Some(NotConnected))
    else if w.pollResult < 0 then Step(connected, [PollWait], [], Some(PollFailed))
    else
      var a := AfterWait(connected, w);
      Step(a.connected, [PollWait, MqttLive] + a.calls, a.sent, a.stop)
  }

  /**
   * An iteration stops at once when disconnected, stops without a keepalive
   * when poll() fails, and otherwise always performs the keepalive tick right
   * after the wait; it goes round again exactly when the input (if POLLIN was
   * set) succeeded and none of POLLERR, POLLHUP, POLLNVAL is set.
   */
  lemma PumpStepOutcome(connected: bool, w: Wake)
    ensures var s := PumpStep(connected, w);
            (!connected ==> s == Step(false, [], [], Some(NotConnected)))
            && (connected && w.pollResult < 0 ==> s == Step(true, [PollWait], [], Some(PollFailed)))
            && (connected && w.pollResult >= 0 ==> |s.calls| >= 2 && s.calls[..2] == [PollWait, MqttLive])
            && (s.stop.None? <==>
                  connected && w.pollResult >= 0 && (In in w.revents ==> w.inputResult == 0)
                  && Err !in w.revents && Hup !in w.revents && Nval !in w.revents)
            && (s.stop == Some(InputFailed) <==> connected && w.pollResult >= 0 && In in w.revents && w.inputResult != 0)
  {
    if connected && w.pollResult >= 0 {
      var a := AfterWait(connected, w);
      assert ([PollWait, MqttLive] + a.calls)[..2] == [PollWait, MqttLive];
    }
  }

  /** The counts of one call. */
  lemma CountOne(c: Call, x: Call)
    ensures Count(c, [x]) == if c == x then 1 else 0
  {
  }

  /** The loop's calls before any callback: the wait and the keepalive tick, then the input on POLLIN. */
  lemma BaseCounts()
    ensures Count(PollWait, [PollWait, MqttLive]) == 1 && Count(MqttLive, [PollWait, MqttLive]) == 1
    ensures Count(MqttInput, [PollWait, MqttLive]) == 0 && Count(MqttAbort, [PollWait, MqttLive]) == 0
    ensures Count(PollWait, [PollWait, MqttLive, MqttInput]) == 1 && Count(MqttLive, [PollWait, MqttLive, MqttInput]) == 1
    ensures Count(MqttInput, [PollWait, MqttLive, MqttInput]) == 1 && Count(MqttAbort, [PollWait, MqttLive, MqttInput]) == 0
  {
  }

  /** Counts of the loop's calls in a sequence built from a prefix and a callback's calls. */
  lemma CountsAfterCallback(pre: seq<Call>, cs: seq<Call>)
    requires HandlerCallsOnly(cs)
    ensures Count(PollWait, pre + cs) == Count(PollWait, pre)
    ensures Count(MqttLive, pre + cs) == Count(MqttLive, pre)
    ensures Count(MqttInput, pre + cs) == Count(MqttInput, pre)
    ensures Count(MqttAbort, pre + cs) == Count(MqttAbort, pre)
  {
    CountAbsent(PollWait, cs);
    CountAbsent(MqttLive, cs);
    CountAbsent(MqttInput, cs);
    CountAbsent(MqttAbort, cs);
    CountAppend(PollWait, pre, cs);
    CountAppend(MqttLive, pre, cs);
    CountAppend(MqttInput, pre, cs);
    CountAppend(MqttAbort, pre, cs);
  }

  /** An aborting exit adds exactly one mqtt_abort and none of the loop's other calls. */
  lemma AbortCounts(connected: bool, pre: seq<Call>, sent: seq<Emission>, w: Wake, reason: StopReason)
    ensures var s := Abort(connected, pre, sent, w, reason);
            Count(PollWait, s.calls) == Count(PollWait, pre) && Count(MqttLive, s.calls) == Count(MqttLive, pre)
            && Count(MqttInput, s.calls) == Count(MqttInput, pre) && Count(MqttAbort, s.calls) == Count(MqttAbort, pre) + 1
  {
    var ab := Deliver(connected, w.abortEvent);
    CountOne(PollWait, MqttAbort);
    CountOne(MqttLive, MqttAbort);
    CountOne(MqttInput, MqttAbort);
    CountOne(MqttAbort, MqttAbort);
    CountAppend(PollWait, pre, [MqttAbort]);
    CountAppend(MqttLive, pre, [MqttAbort]);
    CountAppend(MqttInput, pre, [MqttAbort]);
    CountAppend(MqttAbort, pre, [MqttAbort]);
    CountsAfterCallback(pre + [MqttAbort], ab.calls);
  }

  /** The flag tests add one mqtt_abort when they stop and nothing otherwise. */
  lemma CheckFlagsCounts(connected: bool, pre: seq<Call>, sent: seq<Emission>, w: Wake)
    ensures var s := CheckFlags(connected, pre, sent, w);
            (s.stop.Some? ==> Aborting(s.stop.value))
            && Count(PollWait, s.calls) == Count(PollWait, pre) && Count(MqttLive, s.calls) == Count(MqttLive, pre)
            && Count(MqttInput, s.calls) == Count(MqttInput, pre)
            && Count(MqttAbort, s.calls) == Count(MqttAbort, pre) + (if s.stop.Some? then 1 else 0)
  {
    if FlagStop(w).Some? {
      AbortCounts(connected, pre, sent, w, FlagStop(w).value);
    }
  }

  /** The counts of the input branch of an iteration. */
  lemma InputCounts(connected: bool, w: Wake)
    requires In in w.revents
    ensures var a := AfterWait(connected, w);
            Count(PollWait, a.calls) == 0 && Count(MqttLive, a.calls) == 0
            && Count(MqttInput, a.calls) == 1
            && Count(MqttAbort, a.calls) == (if a.stop.Some? && Aborting(a.stop.value) then 1 else 0)
  {
    var ev := Deliver(connected, w.inputEvent);
    var pre := [MqttInput] + ev.calls;
    InputPrefixCounts(ev.calls);
    if w.inputResult != 0 {
      AbortCounts(ev.connected, pre, ev.sent, w, InputFailed);
    } else {
      CheckFlagsCounts(ev.connected, pre, ev.sent, w);
    }
  }

  /** mqtt_input followed by the calls of one callback: one input, no wait, tick or abort. */
  lemma InputPrefixCounts(cs: seq<Call>)
    requires HandlerCallsOnly(cs)
    ensures Count(PollWait, [MqttInput] + cs) == 0 && Count(MqttLive, [MqttInput] + cs) == 0
    ensures Count(MqttInput, [MqttInput] + cs) == 1 && Count(MqttAbort, [MqttInput] + cs) == 0
  {
    CountOne(PollWait, MqttInput);
    CountOne(MqttLive, MqttInput);
    CountOne(MqttInput, MqttInput);
    CountOne(MqttAbort, MqttInput);
    CountsAfterCallback([MqttInput], cs);
  }

  /** After the wait an iteration feeds input once exactly on POLLIN and calls mqtt_abort once exactly on an aborting exit. */
  lemma AfterWaitCounts(connected: bool, w: Wake)
    ensures var a := AfterWait(connected, w);
            Count(PollWait, a.calls) == 0 && Count(MqttLive, a.calls) == 0
            && Count(MqttInput, a.calls) == (if In in w.revents then 1 else 0)
            && Count(MqttAbort, a.calls) == (if a.stop.Some? && Aborting(a.stop.value) then 1 else 0)
  {
    if In in w.revents {
      InputCounts(connected, w);
    } else {
      CheckFlagsCounts(connected, [], [], w);
    }
  }

  /**
   * One iteration waits once when connected, ticks the keepalive once when the
   * wait returned, feeds input exactly when POLLIN was set, and calls
   * mqtt_abort once on an aborting exit and never otherwise.
   */
  lemma PumpStepCounts(connected: bool, w: Wake)
    ensures var s := PumpStep(connected, w);
            Count(PollWait, s.calls) == (if connected then 1 else 0)
            && Count(MqttLive, s.calls) == (if connected && w.pollResult >= 0 then 1 else 0)
            && Count(MqttInput, s.calls) == (if connected && w.pollResult >= 0 && In in w.revents then 1 else 0)
            && Count(MqttAbort, s.calls) == (if s.stop.Some? && Aborting(s.stop.value) then 1 else 0)
  {
    if connected && w.pollResult < 0 {
      CountOne(PollWait, PollWait);
      CountOne(MqttLive, PollWait);
      CountOne(MqttInput, PollWait);
      CountOne(MqttAbort, PollWait);
    } else if connected {
      var a := AfterWait(connected, w);
      BaseCounts();
      AfterWaitCounts(connected, w);
      CountAppend(PollWait, [PollWait, MqttLive], a.calls);
      CountAppend(MqttLive, [PollWait, MqttLive], a.calls);
      CountAppend(MqttInput, [PollWait, MqttLive], a.calls);
      CountAppend(MqttAbort, [PollWait, MqttLive], a.calls);
    }
  }

  /**
   * The loop over a trace of wake-ups: it checks the flag before every wait,
   * and ends at the first iteration that stops. A NotConnected exit means the
   * flag is false and a trace that ran out leaves it true; a failed poll()
   * exits without touching it, so the loop can end while the session still
   * counts as connected.
   */
  function PumpRun(connected: bool, wakes: seq<Wake>): (r: Run)
    ensures r.stop == NotConnected ==> !r.connected
    ensures r.stop == TraceEnded ==> r.connected
    ensures r.stop == PollFailed ==> r.connected
    decreases |wakes|
  {
    if wakes == [] then Run(connected, [], [], if connected then TraceEnded else NotConnected)
    else
      var s := PumpStep(connected, wakes[0]);
      if s.stop.Some? then Run(s.connected, s.calls, s.sent, s.stop.value)
      else
        var r := PumpRun(s.connected, wakes[1..]);
        Run(r.connected, s.calls + r.calls, s.sent + r.sent, r.stop)
  }

  /**
   * A run from `c0` that started on calls `k0` and sends `s0` has gone round
   * `i` times and reached flag `conn`, calls `k` and sends `t`: what is left
   * of it is the run from `conn` over the remaining wake-ups.
   */
  predicate RunFrom(c0: bool, wakes: seq<Wake>, k0: seq<Call>, s0: seq<Emission>,
                    i: nat, conn: bool, k: seq<Call>, t: seq<Emission>)
  {
    i <= |wakes| &&
    var whole := PumpRun(c0, wakes);
    var r := PumpRun(conn, wakes[i..]);
    whole.connected == r.connected && k0 + whole.calls == k + r.calls
    && s0 + whole.sent == t + r.sent && whole.stop == r.stop
  }

  /** The final state of a whole run started on calls `k0` and sends `s0`. */
  predicate RunEndsIn(c0: bool, wakes: seq<Wake>, k0: seq<Call>, s0: seq<Emission>,
                      conn: bool, k: seq<Call>, t: seq<Emission>, stop: StopReason)
  {
    var whole := PumpRun(c0, wakes);
    conn == whole.connected && k == k0 + whole.calls && t == s0 + whole.sent && stop == whole.stop
  }

  lemma RunFromStart(c0: bool, wakes: seq<Wake>, k0: seq<Call>, s0: seq<Emission>)
    ensures RunFrom(c0, wakes, k0, s0, 0, c0, k0, s0)
  {
  }

  lemma RunFromEnd(c0: bool, wakes: seq<Wake>, k0: seq<Call>, s0: seq<Emission>,
                   conn: bool, k: seq<Call>, t: seq<Emission>)
    requires RunFrom(c0, wakes, k0, s0, |wakes|, conn, k, t)
    ensures RunEndsIn(c0, wakes, k0, s0, conn, k, t, if conn then TraceEnded else NotConnected)
  {
  }

  lemma RunFromStop(c0: bool, wakes: seq<Wake>, k0: seq<Call>, s0: seq<Emission>,
                    i: nat, conn: bool, k: seq<Call>, t: seq<Emission>)
    requires i < |wakes| && RunFrom(c0, wakes, k0, s0, i, conn, k, t)
    requires PumpStep(conn, wakes[i]).stop.Some?
    ensures var s := PumpStep(conn, wakes[i]);
            RunEndsIn(c0, wakes, k0, s0, s.connected, k + s.calls, t + s.sent, s.stop.value)
  {
  }

  lemma RunFromNext(c0: bool, wakes: seq<Wake>, k0: seq<Call>, s0: seq<Emission>,
                    i: nat, conn: bool, k: seq<Call>, t: seq<Emission>)
    requires i < |wakes| && RunFrom(c0, wakes, k0, s0, i, conn, k, t)
    requires PumpStep(conn, wakes[i]).stop.None?
    ensures var s := PumpStep(conn, wakes[i]);
            RunFrom(c0, wakes, k0, s0, i + 1, s.connected, k + s.calls, t + s.sent)
  {
    var s := PumpStep(conn, wakes[i]);
    assert wakes[i..][0] == wakes[i] && wakes[i..][1..] == wakes[i + 1..];
    var r := PumpRun(s.connected, wakes[i + 1..]);
    assert k + (s.calls + r.calls) == (k + s.calls) + r.calls;
    assert t + (s.sent + r.sent) == (t + s.sent) + r.sent;
  }

  /**
   * Over a whole run: the transport is aborted once if the loop ended on an
   * input error or an error flag and never otherwise, and every wait that
   * returned was followed by exactly one keepalive tick.
   */
  lemma {:induction false} PumpRunAbortsOnce(connected: bool, wakes: seq<Wake>)
    ensures var r := PumpRun(connected, wakes);
            Count(MqttAbort, r.calls) == (if Aborting(r.stop) then 1 else 0)
            && Count(MqttLive, r.calls) + (if r.stop == PollFailed then 1 else 0) == Count(PollWait, r.calls)
    decreases |wakes|
  {
    if wakes != [] {
      var s := PumpStep(connected, wakes[0]);
      PumpStepCounts(connected, wakes[0]);
      if s.stop.None? {
        var r := PumpRun(s.connected, wakes[1..]);
        PumpRunAbortsOnce(s.connected, wakes[1..]);
        PumpStepCounts(connected, wakes[0]);
        CountAppend(MqttAbort, s.calls, r.calls);
        CountAppend(MqttLive, s.calls, r.calls);
        CountAppend(PollWait, s.calls, r.calls);
      }
    }
  }

  /** A DISCONNECT delivered during input ends the loop at the next flag check, before any further wait. */
  lemma DisconnectStopsNextIteration(w: Wake, rest: seq<Wake>)
    requires w.pollResult >= 0 && In in w.revents && w.inputResult == 0
    requires Err !in w.revents && Hup !in w.revents && Nval !in w.revents
    requires w.inputEvent.Some? && w.inputEvent.value.evt.kind == Disconnect
    ensures var r := PumpRun(true, [w] + rest);
            r.stop == NotConnected && !r.connected && Count(PollWait, r.calls) == 1
  {
    var s := PumpStep(true, w);
    PumpStepCounts(true, w);
    PumpStepOutcome(true, w);
    assert ([w] + rest)[1..] == rest;
    assert s.stop.None? && !s.connected;
    var r := PumpRun(false, rest);
    assert r == Run(false, [], [], NotConnected);
    assert s.calls + r.calls == s.calls;
  }
}
