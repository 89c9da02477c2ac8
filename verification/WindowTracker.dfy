/** The fixed-window rate tracker: who polled and who passed in each window, and the feedback sent as a window ends. */
module WindowTracker {
  import opened Counting
  import opened Redis
  import opened Clients

  /** The clients seen in each window, by window number; a window without an entry has seen nobody. */
  datatype Windows = Windows(cur: nat, polls: map<nat, set<ClientId>>, passes: map<nat, set<ClientId>>)

  const NO_WINDOWS := Windows(0, map[], map[])

  function Members(d: map<nat, set<ClientId>>, w: nat): set<ClientId> {
    if w in d then d[w] else {}
  }

  function Observe(t: Windows, max: nat, client: ClientId): (Windows, bool) {
    var polls := t.polls[t.cur := Members(t.polls, t.cur) + {client}];
    var passed := Members(t.passes, t.cur);
    var canPass := |passed| <= max;
    (Windows(t.cur, polls, t.passes[t.cur := if canPass then passed + {client} else passed]), canPass)
  }

  function Roll(t: Windows): Windows {
    t.(cur := t.cur + 1)
  }

  /** A window passes everyone who polls in it until max + 1 clients passed; windows to come have seen nobody. */
  ghost predicate WindowOk(t: Windows, max: nat, w: nat) {
    var polls, passes := Members(t.polls, w), Members(t.passes, w);
    && passes <= polls && |passes| == Min(|polls|, max + 1)
    && (|passes| <= max ==> passes == polls)
    && (w > t.cur ==> polls == {})
  }

  ghost predicate WindowsOk(t: Windows, max: nat) {
    forall w: nat :: WindowOk(t, max, w)
  }

  /** Everyone who passed in a window below n. */
  function PassedBelow(t: Windows, n: nat): set<ClientId> {
    if n == 0 then {} else PassedBelow(t, n - 1) + Members(t.passes, n - 1)
  }

  function EverPassed(t: Windows): set<ClientId> {
    PassedBelow(t, t.cur + 1)
  }

  lemma {:induction false} PassedBelowBound(t: Windows, max: nat, n: nat)
    requires WindowsOk(t, max)
    ensures |PassedBelow(t, n)| <= n * (max + 1)
  {
    if n > 0 {
      PassedBelowBound(t, max, n - 1);
      var m: nat := n - 1;
      assert WindowOk(t, max, m);
      UnionBound(PassedBelow(t, m), Members(t.passes, m));
      OneMoreTimes(m, max + 1);
    }
  }

  lemma UnionBound(a: set<ClientId>, b: set<ClientId>)
    ensures |a + b| <= |a| + |b|
  {
  }

  lemma OneMoreTimes(m: int, f: int)
    ensures (m + 1) * f == m * f + f
  {
  }

  /** The limit compares before it adds, so a window passes up to one client more than its nominal maximum. */
  lemma PassedBound(t: Windows, max: nat)
    requires WindowsOk(t, max)
    ensures |EverPassed(t)| <= (t.cur + 1) * (max + 1)
  {
    PassedBelowBound(t, max, t.cur + 1);
  }

  lemma {:induction false} PassedBelowIn(t: Windows, n: nat, c: ClientId)
    ensures c in PassedBelow(t, n) <==> exists w: nat :: w < n && c in Members(t.passes, w)
  {
    if n > 0 {
      PassedBelowIn(t, n - 1, c);
    }
  }

  lemma {:induction false} PassedBelowGrows(t: Windows, t': Windows, n: nat, m: nat)
    requires n <= m && forall w: nat :: w < n ==> Members(t.passes, w) <= Members(t'.passes, w)
    ensures PassedBelow(t, n) <= PassedBelow(t', m)
    decreases m
  {
    if n < m {
      PassedBelowGrows(t, t', n, m - 1);
    } else if n > 0 {
      var k: nat := n - 1;
      assert Members(t.passes, k) <= Members(t'.passes, k);
      PassedBelowGrows(t, t', n - 1, m - 1);
    }
  }

  lemma ObserveWindow(t: Windows, max: nat, client: ClientId, w: nat)
    requires WindowOk(t, max, w)
    ensures var (t', ok) := Observe(t, max, client);
      && WindowOk(t', max, w)
      && Members(t.passes, w) <= Members(t'.passes, w)
      && (w != t.cur ==> Members(t'.passes, w) == Members(t.passes, w) && Members(t'.polls, w) == Members(t.polls, w))
      && (w == t.cur ==> Members(t'.polls, w) == Members(t.polls, w) + {client})
      && (ok && w == t.cur ==> client in Members(t'.passes, w))
  {
    var polls, passes := Members(t.polls, w), Members(t.passes, w);
    if w == t.cur {
      SubsetSize(polls, polls + {client});
    }
  }

  lemma ObserveKeeps(t: Windows, max: nat, client: ClientId)
    requires WindowsOk(t, max)
    ensures var (t', ok) := Observe(t, max, client);
      && WindowsOk(t', max) && EverPassed(t) <= EverPassed(t') && (ok ==> client in EverPassed(t'))
      && (forall w: nat :: w != t.cur ==> Members(t'.passes, w) == Members(t.passes, w))
      && (forall w: nat :: w != t.cur ==> Members(t'.polls, w) == Members(t.polls, w))
  {
    hide WindowOk, Members, PassedBelow;
    var (t', ok) := Observe(t, max, client);
    forall w: nat
      ensures WindowOk(t', max, w) && Members(t.passes, w) <= Members(t'.passes, w)
      ensures w != t.cur ==>
        Members(t'.passes, w) == Members(t.passes, w) && Members(t'.polls, w) == Members(t.polls, w)
    {
      assert WindowOk(t, max, w);
      ObserveWindow(t, max, client, w);
    }
    assert WindowOk(t, max, t.cur);
    ObserveWindow(t, max, client, t.cur);
    PassedBelowGrows(t, t', t.cur + 1, t.cur + 1);
    PassedBelowIn(t', t.cur + 1, client);
  }

  lemma RollKeeps(t: Windows, max: nat)
    requires WindowsOk(t, max)
    ensures WindowsOk(Roll(t), max) && EverPassed(t) <= EverPassed(Roll(t))
  {
    hide PassedBelow, Members;
    forall w: nat ensures WindowOk(Roll(t), max, w) {
      assert WindowOk(t, max, w);
    }
    PassedBelowGrows(t, Roll(t), t.cur + 1, t.cur + 2);
  }

  // ---- runs of the tracker ----

  datatype TrackerStep = Request(client: ClientId) | WindowEnds

  function StepWindows(t: Windows, max: nat, s: TrackerStep): Windows {
    if s.Request? then Observe(t, max, s.client).0 else Roll(t)
  }

  ghost predicate IsTrackerRun(ts: seq<Windows>, max: nat, steps: seq<TrackerStep>) {
    && |ts| == |steps| + 1
    && ts[0] == NO_WINDOWS
    && forall i, j :: 0 <= i < |steps| && j == i + 1 ==> ts[j] == StepWindows(ts[i], max, steps[i])
  }

  lemma {:induction false} EveryWindows(ts: seq<Windows>, max: nat, steps: seq<TrackerStep>, n: nat)
    requires IsTrackerRun(ts, max, steps) && n < |ts|
    ensures WindowsOk(ts[n], max)
  {
    if n > 0 {
      EveryWindows(ts, max, steps, n - 1);
      TrackerStepKeeps(ts[n - 1], max, steps[n - 1]);
    }
  }

  lemma TrackerStepKeeps(t: Windows, max: nat, s: TrackerStep)
    requires WindowsOk(t, max)
    ensures WindowsOk(StepWindows(t, max, s), max) && t.cur <= StepWindows(t, max, s).cur
    ensures forall w: nat :: w < t.cur ==> Members(StepWindows(t, max, s).passes, w) == Members(t.passes, w)
    ensures forall w: nat :: w < t.cur ==> Members(StepWindows(t, max, s).polls, w) == Members(t.polls, w)
  {
    hide WindowsOk, Members;
    if s.Request? {
      ObserveKeeps(t, max, s.client);
    } else {
      RollKeeps(t, max);
    }
  }

  /** What the tracker answered to step i, a request. */
  predicate Answered(ts: seq<Windows>, max: nat, steps: seq<TrackerStep>, i: nat)
    requires i < |steps| && i < |ts|
  {
    steps[i].Request? && Observe(ts[i], max, steps[i].client).1
  }

  /** The number of windows that ended before step n. */
  function WindowOfStep(steps: seq<TrackerStep>, n: nat): nat
    requires n <= |steps|
  {
    if n == 0 then 0 else WindowOfStep(steps, n - 1) + if steps[n - 1].WindowEnds? then 1 else 0
  }

  /** The clients that asked in window w before step n. */
  function Asked(steps: seq<TrackerStep>, n: nat, w: nat): set<ClientId>
    requires n <= |steps|
  {
    if n == 0 then {} else
      Asked(steps, n - 1, w)
      + if steps[n - 1].Request? && WindowOfStep(steps, n - 1) == w then {steps[n - 1].client} else {}
  }

  /** The clients that were answered yes in window w before step n. */
  function LetThrough(ts: seq<Windows>, max: nat, steps: seq<TrackerStep>, n: nat, w: nat): set<ClientId>
    requires n <= |steps| <= |ts|
  {
    if n == 0 then {} else
      LetThrough(ts, max, steps, n - 1, w)
      + if Answered(ts, max, steps, n - 1) && WindowOfStep(steps, n - 1) == w then {steps[n - 1].client} else {}
  }

  /** What one request does to the clients seen in each window, and its answer. */
  lemma ObserveRecords(t: Windows, max: nat, client: ClientId, w: nat)
    ensures var (t', ok) := Observe(t, max, client);
      && t'.cur == t.cur
      && Members(t'.polls, w) == (if w == t.cur then Members(t.polls, w) + {client} else Members(t.polls, w))
      && Members(t'.passes, w) == (if w == t.cur && ok then Members(t.passes, w) + {client} else Members(t.passes, w))
      && (ok <==> |Members(t.passes, t.cur)| <= max)
  {
    var polls, passed := Members(t.polls, t.cur), Members(t.passes, t.cur);
    MembersUpdated(t.polls, t.cur, polls + {client}, w);
    MembersUpdated(t.passes, t.cur, passed + {client}, w);
    MembersUpdated(t.passes, t.cur, passed, w);
    hide Members;
  }

  lemma MembersUpdated(d: map<nat, set<ClientId>>, k: nat, s: set<ClientId>, w: nat)
    ensures Members(d[k := s], w) == if w == k then s else Members(d, w)
  {
  }

  lemma {:induction false} RecordsAreAnswers(ts: seq<Windows>, max: nat, steps: seq<TrackerStep>, n: nat, w: nat)
    requires IsTrackerRun(ts, max, steps) && n < |ts|
    ensures ts[n].cur == WindowOfStep(steps, n)
    ensures Members(ts[n].polls, w) == Asked(steps, n, w)
    ensures Members(ts[n].passes, w) == LetThrough(ts, max, steps, n, w)
  {
    hide *;
    if n == 0 {
      FirstRecords(ts, max, steps, w);
    } else {
      RunStep(ts, max, steps, n - 1);
      RecordsAreAnswers(ts, max, steps, n - 1, w);
      OneStepOn(ts, max, steps, n, w);
      StepRecords(ts[n - 1], max, steps[n - 1], w);
    }
  }

  lemma RunStep(ts: seq<Windows>, max: nat, steps: seq<TrackerStep>, n: nat)
    requires IsTrackerRun(ts, max, steps) && n + 1 < |ts|
    ensures |ts| == |steps| + 1 && ts[n + 1] == StepWindows(ts[n], max, steps[n])
  {
  }

  lemma FirstRecords(ts: seq<Windows>, max: nat, steps: seq<TrackerStep>, w: nat)
    requires IsTrackerRun(ts, max, steps)
    ensures |ts| == |steps| + 1 && ts[0].cur == WindowOfStep(steps, 0)
    ensures Members(ts[0].polls, w) == Asked(steps, 0, w)
    ensures Members(ts[0].passes, w) == LetThrough(ts, max, steps, 0, w)
  {
  }

  lemma StepRecords(t: Windows, max: nat, s: TrackerStep, w: nat)
    ensures var t' := StepWindows(t, max, s);
      && t'.cur == (if s.WindowEnds? then t.cur + 1 else t.cur)
      && Members(t'.polls, w)
         == (if s.Request? && t.cur == w then Members(t.polls, w) + {s.client} else Members(t.polls, w))
      && Members(t'.passes, w)
         == (if s.Request? && Observe(t, max, s.client).1 && t.cur == w
             then Members(t.passes, w) + {s.client} else Members(t.passes, w))
  {
    hide Observe, Members;
    if s.Request? {
      ObserveRecords(t, max, s.client, w);
    }
  }

  lemma OneStepOn(ts: seq<Windows>, max: nat, steps: seq<TrackerStep>, n: nat, w: nat)
    requires 0 < n <= |steps| <= |ts|
    ensures var s, k := steps[n - 1], WindowOfStep(steps, n - 1);
      && WindowOfStep(steps, n) == (if s.WindowEnds? then k + 1 else k)
      && Asked(steps, n, w)
         == (if s.Request? && k == w then Asked(steps, n - 1, w) + {s.client} else Asked(steps, n - 1, w))
      && LetThrough(ts, max, steps, n, w)
         == (if s.Request? && Observe(ts[n - 1], max, s.client).1 && k == w
             then LetThrough(ts, max, steps, n - 1, w) + {s.client} else LetThrough(ts, max, steps, n - 1, w))
  {
    hide Observe;
  }

  lemma AnswerCounts(ts: seq<Windows>, max: nat, steps: seq<TrackerStep>, n: nat)
    requires IsTrackerRun(ts, max, steps) && n < |steps| && steps[n].Request?
    ensures Answered(ts, max, steps, n) <==> |LetThrough(ts, max, steps, n, WindowOfStep(steps, n))| <= max
  {
    RecordsAreAnswers(ts, max, steps, n, WindowOfStep(steps, n));
    ObserveRecords(ts[n], max, steps[n].client, ts[n].cur);
    hide IsTrackerRun, Members, Observe, LetThrough, WindowOfStep;
  }

  /** In every run, for every window: a request is answered yes exactly if at most max clients were let through in the
      window so far; so of the clients asking in it the tracker lets through all, up to max + 1 of them. These are the
      passes it records, and at most (cur + 1) * (max + 1) clients are recorded in all. */
  lemma WindowSafety(ts: seq<Windows>, max: nat, steps: seq<TrackerStep>, n: nat, w: nat)
    requires IsTrackerRun(ts, max, steps) && n < |ts|
    ensures n < |steps| && steps[n].Request? ==>
      (Answered(ts, max, steps, n) <==> |LetThrough(ts, max, steps, n, WindowOfStep(steps, n))| <= max)
    ensures LetThrough(ts, max, steps, n, w) <= Asked(steps, n, w)
    ensures |LetThrough(ts, max, steps, n, w)| == Min(|Asked(steps, n, w)|, max + 1)
    ensures |LetThrough(ts, max, steps, n, w)| <= max ==> LetThrough(ts, max, steps, n, w) == Asked(steps, n, w)
    ensures Members(ts[n].passes, w) == LetThrough(ts, max, steps, n, w)
    ensures |EverPassed(ts[n])| <= (ts[n].cur + 1) * (max + 1)
  {
    EveryWindows(ts, max, steps, n);
    RecordsAreAnswers(ts, max, steps, n, w);
    if n < |steps| && steps[n].Request? {
      AnswerCounts(ts, max, steps, n);
    }
    hide *;
    assert WindowOk(ts[n], max, w);
    PassedBound(ts[n], max);
  }

  lemma {:induction false} ClosedWindowsStay(
      ts: seq<Windows>, max: nat, steps: seq<TrackerStep>, m: nat, n: nat, w: nat)
    requires IsTrackerRun(ts, max, steps) && m <= n < |ts|
    ensures ts[m].cur <= ts[n].cur
    ensures w < ts[m].cur ==> Members(ts[n].passes, w) == Members(ts[m].passes, w)
    ensures w < ts[m].cur ==> Members(ts[n].polls, w) == Members(ts[m].polls, w)
    decreases n
  {
    hide WindowsOk, Members, StepWindows;
    if m < n {
      ClosedWindowsStay(ts, max, steps, m, n - 1, w);
      EveryWindows(ts, max, steps, n - 1);
      TrackerStepKeeps(ts[n - 1], max, steps[n - 1]);
    }
  }

  // ---- when the nominal limit holds ----

  ghost predicate RequestsFrom(steps: seq<TrackerStep>, clients: set<ClientId>) {
    forall i :: 0 <= i < |steps| && steps[i].Request? ==> steps[i].client in clients
  }

  lemma {:induction false} AskersKnown(steps: seq<TrackerStep>, clients: set<ClientId>, n: nat, w: nat)
    requires RequestsFrom(steps, clients) && n <= |steps|
    ensures Asked(steps, n, w) <= clients
  {
    if n > 0 {
      AskersKnown(steps, clients, n - 1, w);
    }
  }

  /** All the given clients ask in the first window. */
  lemma {:induction false} AllAsk(max: nat, clients: set<ClientId>)
      returns (ts: seq<Windows>, steps: seq<TrackerStep>)
    ensures IsTrackerRun(ts, max, steps) && RequestsFrom(steps, clients)
    ensures WindowOfStep(steps, |steps|) == 0 && Asked(steps, |steps|, 0) == clients
    decreases |clients|
  {
    if clients != {} {
      var c := AnyOf(clients);
      ts, steps := AllAsk(max, clients - {c});
      assert clients - {c} + {c} == clients;
      var before := steps;
      ts, steps := OneMoreAsks(ts, max, steps, c);
      AskedPrefix(before, Request(c), |before|, 0);
    } else {
      ts, steps := [NO_WINDOWS], [];
    }
  }

  lemma {:induction false} AskedPrefix(steps: seq<TrackerStep>, s: TrackerStep, n: nat, w: nat)
    requires n <= |steps|
    ensures WindowOfStep(steps + [s], n) == WindowOfStep(steps, n)
    ensures Asked(steps + [s], n, w) == Asked(steps, n, w)
  {
    if n > 0 {
      AskedPrefix(steps, s, n - 1, w);
    }
  }

  lemma OneMoreAsks(ts: seq<Windows>, max: nat, steps: seq<TrackerStep>, c: ClientId)
      returns (ts': seq<Windows>, steps': seq<TrackerStep>)
    requires IsTrackerRun(ts, max, steps)
    ensures IsTrackerRun(ts', max, steps') && steps' == steps + [Request(c)]
  {
    hide Observe;
    ts', steps' := ts + [Observe(ts[|steps|], max, c).0], steps + [Request(c)];
    forall i, j | 0 <= i < |steps'| && j == i + 1 ensures ts'[j] == StepWindows(ts'[i], max, steps'[i]) {
      if j < |ts| {
        assert ts[j] == StepWindows(ts[i], max, steps[i]);
      }
    }
  }

  /** No window ever lets more than max clients through. */
  ghost predicate KeepsLimit(ts: seq<Windows>, max: nat, steps: seq<TrackerStep>)
    requires |steps| <= |ts|
  {
    forall n, w: nat :: 0 <= n <= |steps| ==> |LetThrough(ts, max, steps, n, w)| <= max
  }

  /** The limit compares before it adds, so every window of every run keeps to its nominal maximum exactly if there
      are no more clients than that. */
  lemma LimitKeptIff(max: nat, clients: set<ClientId>)
    ensures |clients| <= max <==>
      forall ts, steps :: IsTrackerRun(ts, max, steps) && RequestsFrom(steps, clients) ==> KeepsLimit(ts, max, steps)
  {
    hide RequestsFrom, LetThrough, Asked, StepWindows, PassedBelow;
    if |clients| <= max {
      forall ts: seq<Windows>, steps | IsTrackerRun(ts, max, steps) && RequestsFrom(steps, clients)
        ensures KeepsLimit(ts, max, steps)
      {
        forall n, w: nat | 0 <= n <= |steps| ensures |LetThrough(ts, max, steps, n, w)| <= max {
          WindowSafety(ts, max, steps, n, w);
          AskersKnown(steps, clients, n, w);
          SubsetSize(Asked(steps, n, w), clients);
        }
      }
    } else {
      var ts, steps := AllAsk(max, clients);
      WindowSafety(ts, max, steps, |steps|, 0);
      assert |LetThrough(ts, max, steps, |steps|, 0)| == max + 1;
    }
  }

  // ---- skipping feedback while few clients poll ----

  /** How many of the utilizations ending with number n were low in a row. */
  function LowRun(utils: seq<real>, low: real, n: nat): nat
    requires n < |utils|
  {
    if utils[n] >= low then 0 else 1 + if n == 0 then 0 else LowRun(utils, low, n - 1)
  }

  /** Feedback is marked to be ignored early in a run of low windows, and heeded otherwise. */
  predicate Ignored(lowRun: int, maxSkipped: int) {
    0 < lowRun < maxSkipped
  }

  lemma {:induction false} IgnoredRunIsLow(utils: seq<real>, low: real, maxSkipped: int, start: nat, k: nat)
    requires start + k < |utils|
    requires forall n :: start <= n <= start + k ==> Ignored(LowRun(utils, low, n), maxSkipped)
    ensures LowRun(utils, low, start + k) >= k + 1
  {
    assert Ignored(LowRun(utils, low, start + k), maxSkipped);
    if k > 0 {
      IgnoredRunIsLow(utils, low, maxSkipped, start, k - 1);
    }
  }

  /** Of any maxSkipped feedbacks in a row at least one is heeded. */
  lemma SkipsAreBounded(utils: seq<real>, low: real, maxSkipped: nat, start: nat)
    requires maxSkipped >= 1 && start + maxSkipped <= |utils|
    ensures exists n :: start <= n < start + maxSkipped && !Ignored(LowRun(utils, low, n), maxSkipped)
  {
    if forall n :: start <= n < start + maxSkipped ==> Ignored(LowRun(utils, low, n), maxSkipped) {
      IgnoredRunIsLow(utils, low, maxSkipped, start, maxSkipped - 1);
    }
  }

  /** And no fewer are skipped: when every window is low, exactly the first maxSkipped - 1 feedbacks are ignored. */
  lemma {:induction false} SkipsAreAttained(utils: seq<real>, low: real, maxSkipped: int, n: nat)
    requires n < |utils| && forall k :: 0 <= k <= n ==> utils[k] < low
    ensures LowRun(utils, low, n) == n + 1
    ensures Ignored(LowRun(utils, low, n), maxSkipped) <==> n < maxSkipped - 1
  {
    if n > 0 {
      SkipsAreAttained(utils, low, maxSkipped, n - 1);
    }
  }

  /** The code skips feedback for one low window fewer in a row than announced, so it does as announced, for every
      window, exactly if there are never maxSkipped low windows in a row. */
  lemma SkipsAsAnnouncedIff(utils: seq<real>, low: real, maxSkipped: nat)
    requires maxSkipped >= 1
    ensures (forall n :: 0 <= n < |utils| ==>
               (Ignored(LowRun(utils, low, n), maxSkipped) <==> 0 < LowRun(utils, low, n) <= maxSkipped))
      <==> !exists start: nat :: LowFrom(utils, low, start, maxSkipped)
  {
    if start: nat :| LowFrom(utils, low, start, maxSkipped) {
      var n := FirstFullRun(utils, low, maxSkipped, start + maxSkipped - 1);
      assert !Ignored(LowRun(utils, low, n), maxSkipped);
    } else {
      forall n | 0 <= n < |utils| ensures LowRun(utils, low, n) < maxSkipped {
        if LowRun(utils, low, n) >= maxSkipped {
          LowRunIsLow(utils, low, n);
          assert LowFrom(utils, low, n + 1 - maxSkipped, maxSkipped);
        }
      }
    }
  }

  /** The count windows from start on are all low. */
  ghost predicate LowFrom(utils: seq<real>, low: real, start: nat, count: nat) {
    start + count <= |utils| && forall k :: start <= k < start + count ==> utils[k] < low
  }

  lemma {:induction false} LowRunIsLow(utils: seq<real>, low: real, n: nat)
    requires n < |utils|
    ensures LowRun(utils, low, n) <= n + 1
    ensures forall k :: n + 1 - LowRun(utils, low, n) <= k <= n ==> utils[k] < low
  {
    if utils[n] < low && n > 0 {
      LowRunIsLow(utils, low, n - 1);
    }
  }

  lemma {:induction false} LowFromRuns(utils: seq<real>, low: real, start: nat, count: nat)
    requires count >= 1 && LowFrom(utils, low, start, count)
    ensures LowRun(utils, low, start + count - 1) >= count
    decreases count
  {
    if count > 1 {
      LowFromRuns(utils, low, start, count - 1);
    }
  }

  /** A run of low windows that grows to at least maxSkipped was once exactly that long. */
  lemma {:induction false} FirstFullRun(utils: seq<real>, low: real, maxSkipped: nat, n: nat) returns (first: nat)
    requires maxSkipped >= 1 && n < |utils| && n + 1 >= maxSkipped
    requires LowFrom(utils, low, n + 1 - maxSkipped, maxSkipped)
    ensures first <= n && LowRun(utils, low, first) == maxSkipped
  {
    LowFromRuns(utils, low, n + 1 - maxSkipped, maxSkipped);
    first := n;
    while LowRun(utils, low, first) > maxSkipped
      invariant first <= n && LowRun(utils, low, first) >= maxSkipped
    {
      first := first - 1;
    }
  }

  datatype Feedback = Feedback(pollingUtil: real, checkoutUtil: real, shouldIgnorePollUtil: bool)

  class FixedWindowTracker {
    const maxCheckoutsPerWindow: nat
    var curWindowIndex: nat
    var windowedPolling: map<nat, set<ClientId>>
    var windowedCheckout: map<nat, set<ClientId>>
    var lowPollingUtilConsecCount: nat
    /** The polling utilization of every window that has ended. */
    ghost var utils: seq<real>

    ghost function View(): Windows
      reads this
    {
      Windows(curWindowIndex, windowedPolling, windowedCheckout)
    }

    ghost predicate Valid(low: real)
      reads this
    {
      && WindowsOk(View(), maxCheckoutsPerWindow)
      && |utils| == curWindowIndex
      && lowPollingUtilConsecCount == if utils == [] then 0 else LowRun(utils, low, |utils| - 1)
    }

    constructor (max: nat, ghost low: real)
      ensures Valid(low) && View() == NO_WINDOWS && maxCheckoutsPerWindow == max
    {
      maxCheckoutsPerWindow := max;
      curWindowIndex, windowedPolling, windowedCheckout := 0, map[], map[];
      lowPollingUtilConsecCount, utils := 0, [];
    }

    method ShouldProceed(clientId: ClientId, ghost low: real) returns (canPass: bool)
      requires Valid(low)
      modifies this
      ensures Valid(low) && utils == old(utils)
      ensures (View(), canPass) == Observe(old(View()), maxCheckoutsPerWindow, clientId)
    {
      hide WindowsOk, PassedBelow, LowRun;
      ObserveKeeps(View(), maxCheckoutsPerWindow, clientId);
      ghost var before := View();
      var w := curWindowIndex;
      if w !in windowedPolling {
        windowedPolling := windowedPolling[w := {}];
      }
      if w !in windowedCheckout {
        windowedCheckout := windowedCheckout[w := {}];
      }
      windowedPolling := windowedPolling[w := windowedPolling[w] + {clientId}];
      canPass := |windowedCheckout[w]| <= maxCheckoutsPerWindow;
      if canPass {
        windowedCheckout := windowedCheckout[w := windowedCheckout[w] + {clientId}];
      }
      assert windowedPolling == before.polls[w := Members(before.polls, w) + {clientId}];
      assert windowedCheckout == Observe(before, maxCheckoutsPerWindow, clientId).0.passes;
    }

    function Utilization(d: map<nat, set<ClientId>>, w: nat): real
      requires maxCheckoutsPerWindow >= 1
    {
      if w !in d then 0.0 else |d[w]| as real / maxCheckoutsPerWindow as real
    }

    /** One firing of the window timer: the window closes and its feedback is marked. */
    method EndWindow(low: real, maxSkipped: int) returns (f: Feedback)
      requires Valid(low) && maxCheckoutsPerWindow >= 1
      modifies this
      ensures Valid(low) && View() == Roll(old(View()))
      ensures f.pollingUtil
           == |Members(old(windowedPolling), old(curWindowIndex))| as real / maxCheckoutsPerWindow as real
      ensures f.checkoutUtil
           == |Members(old(windowedCheckout), old(curWindowIndex))| as real / maxCheckoutsPerWindow as real
      ensures utils == old(utils) + [f.pollingUtil]
      ensures f.shouldIgnorePollUtil <==> Ignored(LowRun(utils, low, |utils| - 1), maxSkipped)
    {
      hide WindowsOk, PassedBelow, LowRun;
      RollKeeps(View(), maxCheckoutsPerWindow);
      var polling := Utilization(windowedPolling, curWindowIndex);
      var checkout := Utilization(windowedCheckout, curWindowIndex);
      curWindowIndex := curWindowIndex + 1;
      LowRunMore(utils, polling, low);
      utils := utils + [polling];
      if polling < low {
        lowPollingUtilConsecCount := lowPollingUtilConsecCount + 1;
      } else {
        lowPollingUtilConsecCount := 0;
      }
      var ignore := true;
      if lowPollingUtilConsecCount == 0 || lowPollingUtilConsecCount >= maxSkipped {
        ignore := false;
      }
      f := Feedback(polling, checkout, ignore);
    }
  }

  lemma LowRunMore(utils: seq<real>, next: real, low: real)
    ensures LowRun(utils + [next], low, |utils|)
         == if next >= low then 0 else 1 + if utils == [] then 0 else LowRun(utils, low, |utils| - 1)
  {
    if utils != [] {
      LowRunPrefix(utils, next, low, |utils| - 1);
    }
  }

  lemma {:induction false} LowRunPrefix(utils: seq<real>, next: real, low: real, n: nat)
    requires n < |utils|
    ensures LowRun(utils + [next], low, n) == LowRun(utils, low, n)
  {
    assert (utils + [next])[n] == utils[n];
    if n > 0 {
      LowRunPrefix(utils, next, low, n - 1);
    }
  }
}
