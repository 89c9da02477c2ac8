/** Whole runs of the fairness-interval queue: clients join, leave and ask under a clock that never goes back.
    A history keeps, beside the store, what happened: each client's stamp, who left, and when the working bin moved. */
module FairnessRuns {
  import opened Arithmetic
  import opened Counting
  import opened Redis
  import opened FairnessInterval
  import opened OptFairnessInterval
  import opened Lockstep

  datatype Stamp = Stamp(bin: int, at: int)

  /** The working bin moved up: when, how long the new one is held, and how many clients waited in the old one. */
  datatype Advance = Advance(at: int, ttl: int, backlog: nat)

  /** Clients are numbered in the order they joined, so client k has stamp log[k]. */
  datatype History = History(keys: Keys, log: seq<Stamp>, gone: set<nat>, advances: seq<Advance>, clock: int)

  datatype Act = Join(at: int) | Leave(at: int, client: nat) | Ask(at: int, client: nat)

  function Start(clock: int): History {
    History(NO_KEYS, [], {}, [], clock)
  }

  /** The clients stamped with bin b that have not left. */
  function Waiting(log: seq<Stamp>, gone: set<nat>, b: int): set<nat> {
    set k: nat | k < |log| && k !in gone && log[k].bin == b
  }

  /** Only clients that joined ask or leave, and each leaves once. */
  predicate Can(h: History, a: Act) {
    && h.clock <= a.at
    && (!a.Join? ==> a.client < |h.log|)
    && (a.Leave? ==> a.client !in h.gone)
  }

  function ToEvent(h: History, a: Act): Event
    requires Can(h, a)
  {
    match a
    case Join(at) => AddEvent(at)
    case Leave(_, k) => RemoveEvent(h.log[k].bin)
    case Ask(at, k) => PollEvent(at, h.log[k].bin)
  }

  function Reaction(c: Config, h: History, a: Act): Reply
    requires Can(h, a)
  {
    Readable(h.keys, c, ToEvent(h, a)).1
  }

  /** A script runs at time at; `leavers` are the clients taken out by it. */
  function Apply(c: Config, h: History, e: Event, at: int, leavers: set<nat>): History {
    var (keys, reply) := Readable(h.keys, c, e);
    History(
      keys,
      if reply.Added? then h.log + [Stamp(reply.bin, at)] else h.log,
      h.gone + leavers,
      if keys.working == h.keys.working then h.advances else
        var backlog := if h.keys.working.Some? then |Waiting(h.log, h.gone, h.keys.working.value)| else 0;
        h.advances + [Advance(at, keys.pollTimer.GetOr(at) - at, backlog)],
      at)
  }

  function Do(c: Config, h: History, a: Act): History
    requires Can(h, a)
  {
    Apply(c, h, ToEvent(h, a), a.at, if a.Leave? then {a.client} else {})
  }

  predicate StepsTo(c: Config, h: History, a: Act, h': History) {
    Can(h, a) && h' == Do(c, h, a)
  }

  /** A run: the histories hs, from the empty store, with the act taken between each two. */
  ghost predicate IsRun(c: Config, hs: seq<History>, acts: seq<Act>) {
    && |hs| == |acts| + 1
    && hs[0] == Start(hs[0].clock)
    && forall i, j :: 0 <= i < |acts| && j == i + 1 ==> StepsTo(c, hs[i], acts[i], hs[j])
  }

  // ---- what every run keeps ----

  function Latest(h: History): int {
    h.keys.latest.GetOr(0)
  }

  /** The working bin, 0 while there is none. */
  function Working(h: History): int {
    h.keys.working.GetOr(0)
  }

  ghost predicate Stamped(c: Config, h: History) {
    && (forall i :: 0 <= i < |h.log| ==> h.log[i].at <= h.clock && 1 <= h.log[i].bin)
    && (forall i, j :: 0 <= i < j < |h.log| ==>
          && h.log[i].at <= h.log[j].at
          && h.log[i].bin <= h.log[j].bin
          && (h.log[i].bin == h.log[j].bin ==> h.log[j].at - h.log[i].at <= c.maxUnfairMs))
    && (h.log == [] ==> Unopened(h.keys))
    && (h.log != [] ==>
          && h.keys.latest == Some(h.log[|h.log| - 1].bin)
          && h.keys.addTimer.Some?
          && forall i :: 0 <= i < |h.log| && h.log[i].bin == h.keys.latest.value ==>
               h.keys.addTimer.value - c.maxUnfairMs <= h.log[i].at)
  }

  ghost predicate Paced(c: Config, h: History) {
    && |h.advances| == h.keys.working.GetOr(0)
    && (forall i :: 0 <= i < |h.advances| ==>
          h.advances[i].at <= h.clock && h.advances[i].ttl == HoldMs(c, h.advances[i].backlog))
    && (forall i, j :: 0 <= i < j < |h.advances| ==> h.advances[i].at + h.advances[i].ttl < h.advances[j].at)
    && (h.advances != [] ==>
          var last := h.advances[|h.advances| - 1];
          h.keys.pollTimer.Some? && last.at + last.ttl <= h.keys.pollTimer.value)
  }

  ghost predicate Tallied(h: History) {
    && (forall k :: k in h.gone ==> k < |h.log|)
    && (forall b :: Lookup(h.keys.counts, b).GetOr(0) == |Waiting(h.log, h.gone, b)|)
    && h.keys.total.GetOr(0) == |h.log| - |h.gone|
  }

  ghost predicate Inv(c: Config, h: History) {
    WellFormed(h.keys) && Stamped(c, h) && Paced(c, h) && Tallied(h)
  }

  lemma JoinWaiting(log: seq<Stamp>, gone: set<nat>, s: Stamp, b: int)
    requires |log| !in gone
    ensures |Waiting(log + [s], gone, b)| == |Waiting(log, gone, b)| + if s.bin == b then 1 else 0
  {
    var k: nat := |log|;
    assert Waiting(log + [s], gone, b) == Waiting(log, gone, b) + if s.bin == b then {k} else {};
  }

  lemma LeaveWaiting(log: seq<Stamp>, gone: set<nat>, k: nat, b: int)
    requires k < |log| && k !in gone
    ensures |Waiting(log, gone + {k}, b)| == |Waiting(log, gone, b)| - if log[k].bin == b then 1 else 0
  {
    assert Waiting(log, gone + {k}, b) == Waiting(log, gone, b) - {k};
  }

  lemma JoinStamped(c: Config, h: History, at: int)
    requires Can(h, Join(at)) && WellFormed(h.keys) && Stamped(c, h)
    ensures var h' := Do(c, h, Join(at));
      && WellFormed(h'.keys) && Stamped(c, h')
      && Reaction(c, h, Join(at)).Added? && h'.log == h.log + [Stamp(h'.keys.latest.value, at)]
      && h'.keys.working == h.keys.working && h'.advances == h.advances
  {
    hide HoldMs, PollStep, RemoveStep, Waiting;
    var h' := Do(c, h, Join(at));
    assert h.log != [] ==> forall i :: 0 <= i < |h.log| ==> h.log[i].bin <= h.log[|h.log| - 1].bin;
    assert forall i :: 0 <= i < |h.log| ==> h'.log[i] == h.log[i];
  }

  lemma AskStamped(c: Config, h: History, at: int, k: nat)
    requires Can(h, Ask(at, k)) && WellFormed(h.keys) && Stamped(c, h)
    ensures var h' := Do(c, h, Ask(at, k));
      && WellFormed(h'.keys) && h'.keys.latest == h.keys.latest && h'.keys.addTimer == h.keys.addTimer
      && h'.log == h.log && h'.clock == at
      && Reaction(c, h, Ask(at, k)) == Verdict(h.log[k].bin, h'.keys.working.GetOr(-1))
  {
  }

  lemma LeaveStamped(c: Config, h: History, at: int, k: nat)
    requires Can(h, Leave(at, k)) && WellFormed(h.keys)
    ensures var h' := Do(c, h, Leave(at, k));
      && WellFormed(h'.keys) && Reaction(c, h, Leave(at, k)) == Removed
      && h'.keys.latest == h.keys.latest && h'.keys.addTimer == h.keys.addTimer
      && h'.keys.working == h.keys.working && h'.keys.pollTimer == h.keys.pollTimer
      && h'.log == h.log && h'.advances == h.advances && h'.clock == at
  {
    hide HoldMs, Waiting, AddStep, PollStep;
  }

  lemma StampedFrame(c: Config, h: History, h': History)
    requires Stamped(c, h) && h.log != [] && h.log == h'.log && h.clock <= h'.clock
    requires h.keys.latest == h'.keys.latest && h.keys.addTimer == h'.keys.addTimer
    ensures Stamped(c, h')
  {
  }

  lemma DoStamped(c: Config, h: History, a: Act)
    requires Can(h, a) && WellFormed(h.keys) && Stamped(c, h)
    ensures WellFormed(Do(c, h, a).keys) && Stamped(c, Do(c, h, a)) && Reaction(c, h, a) != Failed
  {
    hide Do, Stamped, WellFormed;
    match a
    case Join(at) => JoinStamped(c, h, at);
    case Leave(at, k) => LeaveStamped(c, h, at, k); StampedFrame(c, h, Do(c, h, a));
    case Ask(at, k) => AskStamped(c, h, at, k); StampedFrame(c, h, Do(c, h, a));
  }

  lemma HoldMsAtLeast(c: Config, count: int)
    ensures HoldMs(c, count) >= c.maxUnfairMs == HoldMs(c, 0)
  {
  }

  /** A poll leaves the working bin, and then the timer ends no earlier; or it moves it, once the timer is over. */
  lemma AskMoves(c: Config, h: History, at: int, k: nat)
    requires Can(h, Ask(at, k)) && WellFormed(h.keys) && h.keys.latest.Some? && Tallied(h)
    ensures var h' := Do(c, h, Ask(at, k));
      if Working(h') == Working(h) then
        && h'.advances == h.advances
        && (h.keys.pollTimer.Some? ==> h'.keys.pollTimer.Some? && h.keys.pollTimer.value <= h'.keys.pollTimer.value)
      else
        && Working(h') == Working(h) + 1 && !Live(h.keys.pollTimer, at) && h'.keys.pollTimer.Some?
        && exists move: Advance :: h'.advances == h.advances + [move] && move.at == at
             && move.ttl == HoldMs(c, move.backlog) && h'.keys.pollTimer.value == at + move.ttl
  {
    hide HoldMs, AddStep, RemoveStep, Waiting;
    HoldMsAtLeast(c, 0);
    var h' := Do(c, h, Ask(at, k));
    if h.keys.working.Some? {
      var w := h.keys.working.value;
      assert Lookup(h.keys.counts, w).GetOr(0) == |Waiting(h.log, h.gone, w)|;
      HoldMsAtLeast(c, |Waiting(h.log, h.gone, w)|);
    }
    if Working(h') != Working(h) {
      var move := h'.advances[|h.advances|];
      assert h'.advances == h.advances + [move] && move.at == at;
    }
  }

  lemma AskPaced(c: Config, h: History, at: int, k: nat)
    requires Can(h, Ask(at, k)) && WellFormed(h.keys) && Stamped(c, h) && Paced(c, h) && Tallied(h)
    ensures Paced(c, Do(c, h, Ask(at, k)))
  {
    hide HoldMs, Do, Tallied, WellFormed;
    AskMoves(c, h, at, k);
    AskStamped(c, h, at, k);
    var h' := Do(c, h, Ask(at, k));
    if Working(h') != Working(h) {
      var move: Advance :| h'.advances == h.advances + [move] && move.at == at && move.ttl == HoldMs(c, move.backlog)
                           && h'.keys.pollTimer.value == at + move.ttl;
      MovePaced(c, h, h', move);
    }
  }

  lemma MovePaced(c: Config, h: History, h': History, move: Advance)
    requires Paced(c, h) && h.clock <= h'.clock == move.at && !Live(h.keys.pollTimer, move.at)
    requires h'.advances == h.advances + [move] && move.ttl == HoldMs(c, move.backlog)
    requires Working(h') == Working(h) + 1 && h'.keys.pollTimer == Some(move.at + move.ttl)
    ensures Paced(c, h')
  {
    hide HoldMs;
    forall i, j | 0 <= i < j < |h'.advances| ensures h'.advances[i].at + h'.advances[i].ttl < h'.advances[j].at {
      if j == |h.advances| {
        HoldMsAtLeast(c, h.advances[|h.advances| - 1].backlog);
      }
    }
  }

  lemma DoPaced(c: Config, h: History, a: Act)
    requires Can(h, a) && WellFormed(h.keys) && Stamped(c, h) && Paced(c, h) && Tallied(h)
    ensures Paced(c, Do(c, h, a))
  {
    hide HoldMs, Waiting;
    match a
    case Join(at) => JoinStamped(c, h, at);
    case Leave(at, k) => LeaveStamped(c, h, at, k);
    case Ask(at, k) => AskPaced(c, h, at, k);
  }

  lemma DoTallied(c: Config, h: History, a: Act)
    requires Can(h, a) && WellFormed(h.keys) && Stamped(c, h) && Tallied(h)
    ensures Tallied(Do(c, h, a))
  {
    hide HoldMs, Waiting, Stamped;
    var h' := Do(c, h, a);
    if a.Join? {
      JoinStamped(c, h, a.at);
    }
    forall b ensures Lookup(h'.keys.counts, b).GetOr(0) == |Waiting(h'.log, h'.gone, b)| {
      assert Lookup(h.keys.counts, b).GetOr(0) == |Waiting(h.log, h.gone, b)|;
      match a
      case Join(at) => JoinWaiting(h.log, h.gone, Stamp(h'.keys.latest.value, at), b);
      case Leave(_, k) => LeaveWaiting(h.log, h.gone, k, b);
      case Ask(_, _) =>
    }
  }

  predicate Expired(h: History, a: Act) {
    a.Ask? && !Live(h.keys.pollTimer, a.at)
  }

  lemma DoGrows(c: Config, h: History, a: Act)
    requires Can(h, a) && WellFormed(h.keys) && Stamped(c, h)
    ensures var h' := Do(c, h, a);
      && |h.log| <= |h'.log| && h'.log[..|h.log|] == h.log
      && Latest(h) <= Latest(h') && Working(h) <= Working(h')
      && (Expired(h, a) && Working(h) < Latest(h) ==> Working(h) < Working(h'))
  {
    match a
    case Join(at) => JoinStamped(c, h, at);
    case Leave(at, k) => LeaveStamped(c, h, at, k);
    case Ask(at, k) => AskStamped(c, h, at, k);
  }

  /** One act keeps the invariant, adds to the log at most, and moves neither bin back. */
  lemma DoKeeps(c: Config, h: History, a: Act)
    requires Can(h, a) && Inv(c, h)
    ensures var h' := Do(c, h, a);
      && Inv(c, h') && Reaction(c, h, a) != Failed
      && |h.log| <= |h'.log| && h'.log[..|h.log|] == h.log
      && Latest(h) <= Latest(h') && Working(h) <= Working(h')
      && (Expired(h, a) && Working(h) < Latest(h) ==> Working(h) < Working(h'))
  {
    hide Do, Reaction, Stamped, Paced, Tallied, WellFormed;
    DoStamped(c, h, a);
    DoPaced(c, h, a);
    DoTallied(c, h, a);
    DoGrows(c, h, a);
  }

  lemma StartInv(c: Config, clock: int)
    ensures Inv(c, Start(clock))
  {
    forall b ensures |Waiting([], {}, b)| == 0 {
      assert Waiting([], {}, b) == {};
    }
  }

  lemma {:induction false} EveryState(c: Config, hs: seq<History>, acts: seq<Act>, n: nat)
    requires IsRun(c, hs, acts) && n < |hs|
    ensures Inv(c, hs[n])
  {
    hide Inv, Do;
    if n == 0 {
      StartInv(c, hs[0].clock);
    } else {
      EveryState(c, hs, acts, n - 1);
      assert StepsTo(c, hs[n - 1], acts[n - 1], hs[n]);
      DoKeeps(c, hs[n - 1], acts[n - 1]);
    }
  }

  /** Stamps are never changed and neither bin ever moves back. */
  lemma {:induction false} Onward(c: Config, hs: seq<History>, acts: seq<Act>, m: nat, n: nat)
    requires IsRun(c, hs, acts) && m <= n < |hs|
    ensures |hs[m].log| <= |hs[n].log| && hs[n].log[..|hs[m].log|] == hs[m].log
    ensures Latest(hs[m]) <= Latest(hs[n]) && Working(hs[m]) <= Working(hs[n])
    decreases n
  {
    hide Inv, Do;
    if m < n {
      Onward(c, hs, acts, m, n - 1);
      EveryState(c, hs, acts, n - 1);
      assert StepsTo(c, hs[n - 1], acts[n - 1], hs[n]);
      DoKeeps(c, hs[n - 1], acts[n - 1]);
      assert hs[n].log[..|hs[m].log|] == hs[n].log[..|hs[n - 1].log|][..|hs[m].log|];
    }
  }

  // ---- what follows for every run ----

  /** Stamps follow the order of arrival; clients sharing a bin came within the fairness interval; clients further
      apart than that are in different bins. */
  lemma FairnessWidth(c: Config, hs: seq<History>, acts: seq<Act>, n: nat, i: nat, j: nat)
    requires IsRun(c, hs, acts) && n < |hs| && i < j < |hs[n].log|
    ensures var log := hs[n].log;
      && log[i].at <= log[j].at && log[i].bin <= log[j].bin
      && (log[i].bin == log[j].bin ==> log[j].at - log[i].at <= c.maxUnfairMs)
      && (log[j].at - log[i].at > c.maxUnfairMs ==> log[i].bin < log[j].bin)
  {
    EveryState(c, hs, acts, n);
  }

  /** In every reachable store a live add timer implies an open bin, every bin up to the latest has a count, the
      working bin is absent or open, and no timer is armed for less than the fairness interval. */
  lemma StoreWellFormed(c: Config, hs: seq<History>, acts: seq<Act>, n: nat, at: int, b: int)
    requires IsRun(c, hs, acts) && n < |hs|
    ensures var k := hs[n].keys;
      && (Live(k.addTimer, at) ==> k.latest.Some?)
      && (k.latest.Some? ==> 1 <= k.latest.value && (1 <= b <= k.latest.value ==> b in k.counts))
      && (k.working.Some? ==> k.latest.Some? && 1 <= k.working.value <= k.latest.value)
      && !ReadsNil(k) && PollTtl(k, c) >= c.maxUnfairMs
      && (k.latest.None? <==> hs[n].log == [])
  {
    hide Paced, Tallied, HoldMs;
    EveryState(c, hs, acts, n);
    if hs[n].keys.working.Some? && hs[n].keys.working.value in hs[n].keys.counts {
      HoldMsAtLeast(c, hs[n].keys.counts[hs[n].keys.working.value]);
    }
  }

  /** So no poll by a client that joined fails. */
  lemma JoinedPollsSucceed(c: Config, hs: seq<History>, acts: seq<Act>, n: nat, at: int, k: nat)
    requires IsRun(c, hs, acts) && n < |hs| && k < |hs[n].log| && hs[n].clock <= at
    ensures PollStep(hs[n].keys, c, at, hs[n].log[k].bin).1 != Failed
  {
    hide Paced, Tallied;
    EveryState(c, hs, acts, n);
    AskStamped(c, hs[n], at, k);
  }

  /** The time the working bins i, …, j-1 are to be held, each for the backlog of the bin before it. */
  function HeldMs(c: Config, advances: seq<Advance>, i: nat, j: nat): int
    requires i <= j <= |advances|
  {
    if i == j then 0 else HeldMs(c, advances, i, j - 1) + HoldMs(c, advances[j - 1].backlog)
  }

  lemma {:induction false} AdvancesApart(c: Config, h: History, i: nat, j: nat)
    requires Paced(c, h) && i < j < |h.advances|
    ensures h.advances[j].at - h.advances[i].at > HeldMs(c, h.advances, i, j) >= (j - i) * c.maxUnfairMs
    decreases j
  {
    hide HoldMs;
    var last := h.advances[j - 1];
    HoldMsAtLeast(c, last.backlog);
    assert last.at + HoldMs(c, last.backlog) < h.advances[j].at;
    if i + 1 == j {
      assert HeldMs(c, h.advances, i, i) == 0;
    } else {
      AdvancesApart(c, h, i, j - 1);
      assert (j - i) * c.maxUnfairMs == (j - 1 - i) * c.maxUnfairMs + c.maxUnfairMs;
    }
  }

  /** The working bin never passes the latest bin and has moved once per bin. */
  lemma OneMovePerBin(c: Config, hs: seq<History>, acts: seq<Act>, n: nat)
    requires IsRun(c, hs, acts) && n < |hs|
    ensures |hs[n].advances| == Working(hs[n]) <= Latest(hs[n])
  {
    hide Tallied;
    EveryState(c, hs, acts, n);
  }

  /** Between two moves of the working bin passed more than the time to drain the bins in between, hence more than
      one fairness interval per bin. */
  lemma Pacing(c: Config, hs: seq<History>, acts: seq<Act>, n: nat, i: nat, j: nat)
    requires IsRun(c, hs, acts) && n < |hs| && i < j < |hs[n].advances|
    ensures hs[n].advances[j].at - hs[n].advances[i].at > HeldMs(c, hs[n].advances, i, j) >= (j - i) * c.maxUnfairMs
  {
    EveryState(c, hs, acts, n);
    AdvancesApart(c, hs[n], i, j);
  }

  /** How many of the acts m, …, n-1 are polls that find the poll timer expired. */
  function ExpiredPolls(hs: seq<History>, acts: seq<Act>, m: nat, n: nat): nat
    requires m <= n < |hs| <= |acts| + 1
  {
    if m == n then 0 else ExpiredPolls(hs, acts, m, n - 1) + if Expired(hs[n - 1], acts[n - 1]) then 1 else 0
  }

  /** One act of a run: neither bin moves back, and an expired poll moves the working bin if it is behind. */
  lemma ActAdvances(c: Config, hs: seq<History>, acts: seq<Act>, n: nat)
    requires IsRun(c, hs, acts) && n < |acts|
    ensures Latest(hs[n]) <= Latest(hs[n + 1]) && Working(hs[n]) <= Working(hs[n + 1])
    ensures Expired(hs[n], acts[n]) && Working(hs[n]) < Latest(hs[n]) ==> Working(hs[n]) < Working(hs[n + 1])
  {
    hide Inv, Do, Expired;
    EveryState(c, hs, acts, n);
    assert StepsTo(c, hs[n], acts[n], hs[n + 1]);
    DoKeeps(c, hs[n], acts[n]);
  }

  /** Each poll by anyone that finds the timer expired moves the working bin, until it reaches the latest. */
  lemma {:induction false} ExpiredPollsAdvance(c: Config, hs: seq<History>, acts: seq<Act>, m: nat, n: nat)
    requires IsRun(c, hs, acts) && m <= n < |hs|
    ensures Latest(hs[m]) <= Latest(hs[n])
    ensures Working(hs[n]) >= Min(Latest(hs[m]), Working(hs[m]) + ExpiredPolls(hs, acts, m, n))
    decreases n
  {
    hide ExpiredPolls, Latest, Working, Expired, StepsTo, Start;
    CountOne(hs, acts, m, n);
    if m < n {
      ExpiredPollsAdvance(c, hs, acts, m, n - 1);
      ActAdvances(c, hs, acts, n - 1);
    }
  }

  lemma CountOne(hs: seq<History>, acts: seq<Act>, m: nat, n: nat)
    requires m <= n < |hs| <= |acts| + 1
    ensures ExpiredPolls(hs, acts, m, m) == 0
    ensures m < n ==>
      ExpiredPolls(hs, acts, m, n)
      == ExpiredPolls(hs, acts, m, n - 1) + if Expired(hs[n - 1], acts[n - 1]) then 1 else 0
  {
  }

  lemma BinOpened(c: Config, h: History, k: nat)
    requires Stamped(c, h) && k < |h.log|
    ensures 1 <= h.log[k].bin <= Latest(h)
  {
    assert h.log[k].bin <= h.log[|h.log| - 1].bin;
  }

  /** Bounded waiting: once the timer was found expired as often as the client's bin was ahead of the working bin,
      the client's next poll passes. */
  lemma BoundedWaiting(c: Config, hs: seq<History>, acts: seq<Act>, m: nat, n: nat, k: nat)
    requires IsRun(c, hs, acts) && m <= n < |acts|
    requires k < |hs[m].log| && acts[n].Ask? && acts[n].client == k
    requires ExpiredPolls(hs, acts, m, n) >= hs[m].log[k].bin - Working(hs[m])
    ensures Readable(hs[n].keys, c, PollEvent(acts[n].at, hs[m].log[k].bin)) == (hs[n + 1].keys, Passed)
  {
    hide Paced, Tallied;
    EveryState(c, hs, acts, m);
    BinOpened(c, hs[m], k);
    ExpiredPollsAdvance(c, hs, acts, m, n);
    Onward(c, hs, acts, m, n);
    EveryState(c, hs, acts, n);
    assert hs[m].log[k] == hs[n].log[..|hs[m].log|][k];
    assert StepsTo(c, hs[n], acts[n], hs[n + 1]);
    AskStamped(c, hs[n], acts[n].at, k);
    DoGrows(c, hs[n], acts[n]);
  }

  /** No overtaking: when a client's poll passes, from then on so does every poll of a client that joined no later. */
  lemma NoOvertaking(c: Config, hs: seq<History>, acts: seq<Act>, m: nat, n: nat)
    requires IsRun(c, hs, acts) && m <= n < |acts|
    requires acts[m].Ask? && acts[n].Ask? && acts[n].client <= acts[m].client < |hs[m].log|
    requires Readable(hs[m].keys, c, PollEvent(acts[m].at, hs[m].log[acts[m].client].bin)).1 == Passed
    ensures Readable(hs[n].keys, c, PollEvent(acts[n].at, hs[m].log[acts[n].client].bin)) == (hs[n + 1].keys, Passed)
  {
    hide Paced, Tallied;
    var x, y := acts[m].client, acts[n].client;
    EveryState(c, hs, acts, m);
    EveryState(c, hs, acts, n);
    assert StepsTo(c, hs[m], acts[m], hs[m + 1]);
    AskStamped(c, hs[m], acts[m].at, x);
    Onward(c, hs, acts, m, n);
    assert hs[m].log[y] == hs[n].log[..|hs[m].log|][y];
    assert 1 <= hs[m].log[y].bin <= hs[m].log[x].bin;
    assert StepsTo(c, hs[n], acts[n], hs[n + 1]);
    AskStamped(c, hs[n], acts[n].at, y);
    Onward(c, hs, acts, m + 1, n + 1);
  }

  function CountsUpTo(k: Keys, n: nat): int {
    if n == 0 then 0 else CountsUpTo(k, n - 1) + Lookup(k.counts, n).GetOr(0)
  }

  lemma {:induction false} CountsAddUp(h: History, n: nat)
    requires Tallied(h) && forall i :: 0 <= i < |h.log| ==> 1 <= h.log[i].bin
    ensures CountsUpTo(h.keys, n) == |set k: nat | k < |h.log| && k !in h.gone && h.log[k].bin <= n|
  {
    var upTo := set k: nat | k < |h.log| && k !in h.gone && h.log[k].bin <= n;
    if n == 0 {
      assert upTo == {};
    } else {
      CountsAddUp(h, n - 1);
      var below := set k: nat | k < |h.log| && k !in h.gone && h.log[k].bin <= n - 1;
      assert upTo == below + Waiting(h.log, h.gone, n);
      assert Lookup(h.keys.counts, n).GetOr(0) == |Waiting(h.log, h.gone, n)|;
    }
  }

  /** Conservation: each bin's count is the number of its clients that have not left, and the total is the sum of
      the counts of all bins as well as the number of clients that have not left. */
  lemma Conservation(c: Config, hs: seq<History>, acts: seq<Act>, n: nat, b: int)
    requires IsRun(c, hs, acts) && n < |hs|
    ensures Lookup(hs[n].keys.counts, b).GetOr(0) == |Waiting(hs[n].log, hs[n].gone, b)|
    ensures hs[n].keys.total.GetOr(0) == |hs[n].log| - |hs[n].gone|
    ensures 0 <= Latest(hs[n]) && hs[n].keys.total.GetOr(0) == CountsUpTo(hs[n].keys, Latest(hs[n]))
  {
    hide Paced;
    EveryState(c, hs, acts, n);
    var h := hs[n];
    var latest := h.keys.latest.GetOr(0);
    CountsAddUp(h, latest);
    forall k: nat | k < |h.log| ensures h.log[k].bin <= latest {
      BinOpened(c, h, k);
    }
    var present := set k: nat | k < |h.log| && k !in h.gone && h.log[k].bin <= latest;
    var all := Below(|h.log|);
    assert present == all - h.gone;
    assert all * h.gone == h.gone;
  }

  // ---- the minified version inherits all of it ----

  /** The minified stores ps that the same acts produce, add and poll using the two timer keys. */
  ghost predicate MinifiedAlong(
      c: Config, hs: seq<History>, acts: seq<Act>, ps: seq<Packed>, addKey: string, pollKey: string) {
    && |ps| == |hs| == |acts| + 1
    && ps[0] == NO_FIELDS
    && forall i, j :: 0 <= i < |acts| && j == i + 1 ==>
         Can(hs[i], acts[i]) && ps[j] == Minified(ps[i], c, addKey, pollKey, ToEvent(hs[i], acts[i])).0
  }

  /** On every such run no script fails, the minified scripts answer every client as the readable ones do, and the
      two stores hold the same data, so everything above holds of the minified version too. */
  lemma {:induction false} MinifiedRunsAgree(
      c: Config, hs: seq<History>, acts: seq<Act>, ps: seq<Packed>, addKey: string, pollKey: string, n: nat)
    requires addKey != pollKey && IsRun(c, hs, acts) && MinifiedAlong(c, hs, acts, ps, addKey, pollKey)
    requires n < |hs|
    ensures Related(hs[n].keys, ps[n], addKey, pollKey)
    ensures n < |acts| ==>
      Can(hs[n], acts[n]) &&
      Failed != Reaction(c, hs[n], acts[n]) == Minified(ps[n], c, addKey, pollKey, ToEvent(hs[n], acts[n])).1
  {
    hide Paced, Tallied;
    EveryState(c, hs, acts, n);
    if 0 < n {
      MinifiedRunsAgree(c, hs, acts, ps, addKey, pollKey, n - 1);
      EveryState(c, hs, acts, n - 1);
      assert StepsTo(c, hs[n - 1], acts[n - 1], hs[n]);
      StepAgrees(hs[n - 1].keys, ps[n - 1], c, addKey, pollKey, ToEvent(hs[n - 1], acts[n - 1]));
    }
    if n < |acts| {
      assert StepsTo(c, hs[n], acts[n], hs[n + 1]);
      StepAgrees(hs[n].keys, ps[n], c, addKey, pollKey, ToEvent(hs[n], acts[n]));
    }
  }
}
