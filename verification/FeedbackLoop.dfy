/** The capped queue fed by the tracker: every window that ends is reported, and the queue moves its working bin. */
module FeedbackLoop {
  import opened Redis
  import opened Clients
  import opened WindowTracker
  import opened CappedBins

  datatype Monitor = Monitor(max: nat, low: real, maxSkipped: nat, binSize: int)

  /** Tracker and queue, with the polling utilization of every window that has ended. */
  datatype Monitored = Monitored(t: Windows, utils: seq<real>, q: CappedState)

  /** A client asks the tracker, a window ends and its feedback is delivered, or the queue is called. */
  datatype MonitorOp = Poll(client: ClientId) | WindowEnd | Call(op: CappedOp)

  function UtilOf(m: Monitor, clients: set<ClientId>): real
    requires m.max >= 1
  {
    |clients| as real / m.max as real
  }

  /** What the tracker reports of the current window. */
  function Report(m: Monitor, s: Monitored): Feedback
    requires m.max >= 1
  {
    var polling := UtilOf(m, Members(s.t.polls, s.t.cur));
    Feedback(polling, UtilOf(m, Members(s.t.passes, s.t.cur)),
             Ignored(LowRun(s.utils + [polling], m.low, |s.utils|), m.maxSkipped))
  }

  function StepMonitored(m: Monitor, s: Monitored, op: MonitorOp): Monitored
    requires m.max >= 1
  {
    match op
    case Poll(client) => s.(t := Observe(s.t, m.max, client).0)
    case WindowEnd =>
      var f := Report(m, s);
      Monitored(Roll(s.t), s.utils + [f.pollingUtil], StepCapped(m.binSize, s.q, Hear(f)))
    case Call(c) => s.(q := StepCapped(m.binSize, s.q, c))
  }

  /** The feedbacks since the last Clear are those of the last windows. */
  ghost predicate Delivered(m: Monitor, s: Monitored) {
    && CappedInv(s.q)
    && |s.q.heard| <= |s.utils|
    && forall i :: 0 <= i < |s.q.heard| ==>
         (s.q.heard[i].ignored <==> Ignored(LowRun(s.utils, m.low, |s.utils| - |s.q.heard| + i), m.maxSkipped))
  }

  /** Feedback comes from the tracker only. */
  predicate MonitorSteps(m: Monitor, s: Monitored, op: MonitorOp, s': Monitored)
    requires m.max >= 1
  {
    !(op.Call? && op.op.Hear?) && s' == StepMonitored(m, s, op)
  }

  ghost predicate IsMonitorRun(m: Monitor, ss: seq<Monitored>, ops: seq<MonitorOp>) {
    && m.max >= 1 && |ss| == |ops| + 1 && ss[0] == Monitored(NO_WINDOWS, [], NEW_QUEUE)
    && forall i, j :: 0 <= i < |ops| && j == i + 1 ==>
         MonitorSteps(m, ss[i], ops[i], ss[j])
  }

  lemma MonitorKeeps(m: Monitor, s: Monitored, op: MonitorOp)
    requires m.max >= 1 && Delivered(m, s) && !(op.Call? && op.op.Hear?)
    ensures Delivered(m, StepMonitored(m, s, op))
  {
    hide LowRun, Ignored, CappedInv, UtilOf;
    match op
    case Poll(_) =>
    case Call(c) => StepKeeps(m.binSize, s.q, c);
    case WindowEnd => WindowDelivered(m, s);
  }

  lemma WindowDelivered(m: Monitor, s: Monitored)
    requires m.max >= 1 && Delivered(m, s)
    ensures Delivered(m, StepMonitored(m, s, WindowEnd))
  {
    hide LowRun, Ignored, CappedInv, UtilOf;
    var s', f := StepMonitored(m, s, WindowEnd), Report(m, s);
    StepKeeps(m.binSize, s.q, Hear(f));
    forall i | 0 <= i < |s'.q.heard|
      ensures s'.q.heard[i].ignored
        <==> Ignored(LowRun(s'.utils, m.low, |s'.utils| - |s'.q.heard| + i), m.maxSkipped)
    {
      if i < |s.q.heard| {
        assert s'.q.heard[i] == s.q.heard[i];
        LowRunPrefix(s.utils, f.pollingUtil, m.low, |s.utils| - |s.q.heard| + i);
      }
    }
  }

  lemma {:induction false} EveryMonitored(m: Monitor, ss: seq<Monitored>, ops: seq<MonitorOp>, n: nat)
    requires IsMonitorRun(m, ss, ops) && n < |ss|
    ensures Delivered(m, ss[n])
  {
    hide StepMonitored, Delivered;
    if n == 0 {
      assert Delivered(m, ss[0]) by { NothingDelivered(m); }
    } else {
      EveryMonitored(m, ss, ops, n - 1);
      assert MonitorSteps(m, ss[n - 1], ops[n - 1], ss[n]);
      MonitorKeeps(m, ss[n - 1], ops[n - 1]);
    }
  }

  lemma NothingDelivered(m: Monitor)
    ensures Delivered(m, Monitored(NO_WINDOWS, [], NEW_QUEUE))
  {
  }

  /** Some feedback among any maxSkipped in a row is heeded, so low checkouts move the working bin once in each. */
  lemma {:induction false} HeededOften(m: Monitor, s: Monitored, b: nat, n: nat)
    requires Delivered(m, s) && m.maxSkipped >= 1 && b >= 1
    requires (b - 1) * m.maxSkipped <= n <= |s.q.heard|
    requires forall i :: 0 <= i < |s.q.heard| ==> s.q.heard[i].checkout <= 0.9
    ensures WorkingBinAfter(s.q.heard, n) >= b
  {
    hide LowRun, Ignored, WorkingBinAfter;
    GrowthBound(s.q.heard, 0, n);
    if b > 1 {
      OneRoundLess(b, m.maxSkipped);
      var start := n - m.maxSkipped;
      HeededOften(m, s, b - 1, start);
      var offset := |s.utils| - |s.q.heard|;
      SkipsAreBounded(s.utils, m.low, m.maxSkipped, offset + start);
      var w :| offset + start <= w < offset + start + m.maxSkipped
               && !Ignored(LowRun(s.utils, m.low, w), m.maxSkipped);
      var k := w - offset;
      assert s.q.heard[k].ignored <==> Ignored(LowRun(s.utils, m.low, offset + k), m.maxSkipped);
      HeededMoves(s.q.heard, start, k, n);
    }
  }

  lemma OneRoundLess(b: int, f: int)
    requires b > 1 && f >= 1
    ensures (b - 1) * f == (b - 2) * f + f && (b - 2) * f >= 0
  {
  }

  /** In every run: if in all windows since the last Clear at most 90% of the rate was used, then after
      (b - 1) * maxSkipped of them bin b may proceed, that is, each of the first b * binSize arrivals. */
  lemma Progress(m: Monitor, ss: seq<Monitored>, ops: seq<MonitorOp>, n: nat, b: nat, k: nat)
    requires IsMonitorRun(m, ss, ops) && n < |ss| && m.maxSkipped >= 1 && m.binSize >= 1 && b >= 1
    requires (b - 1) * m.maxSkipped <= |ss[n].q.heard|
    requires forall i :: 0 <= i < |ss[n].q.heard| ==> ss[n].q.heard[i].checkout <= 0.9
    ensures ss[n].q.workingBin >= b
    ensures k < b * m.binSize ==> BinOf(m.binSize, k) <= ss[n].q.workingBin
  {
    hide WorkingBinAfter, BinOf;
    EveryMonitored(m, ss, ops, n);
    HeededOften(m, ss[n], b, |ss[n].q.heard|);
    AdmittedPrefix(m.binSize, k, b);
  }

  /** The monitor's round as a window ends, and the queue's receipt of its feedback, are one such step. */
  method EndWindowAndNotify(tracker: FixedWindowTracker, queue: CappedBinsQueue, low: real, maxSkipped: nat)
      returns (f: Feedback)
    requires tracker.Valid(low) && tracker.maxCheckoutsPerWindow >= 1 && queue.Valid()
    modifies tracker, queue`workingBin, queue`heard
    ensures tracker.Valid(low) && queue.Valid()
    ensures Monitored(tracker.View(), tracker.utils, queue.View())
         == StepMonitored(Monitor(tracker.maxCheckoutsPerWindow, low, maxSkipped, queue.binSize),
                          old(Monitored(tracker.View(), tracker.utils, queue.View())), WindowEnd)
  {
    hide LowRun, WindowsOk, StepCapped, CappedInv, InBin, BinOf;
    f := tracker.EndWindow(low, maxSkipped);
    queue.ReceiveTrackerFeedback(f);
  }
}
