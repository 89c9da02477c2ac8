/** The driver's workers in front of the in-memory interval queue, beside its bin timer and its pacing routine. Unlike
    the Redis-backed queue this one has no guard of its own: clients are added and removed whatever the stock. */
module IntervalSystem {
  import opened Counting
  import opened Redis
  import opened Clients
  import opened WindowTracker
  import opened DriverProtocol
  import opened DriverSafety
  import opened FairnessInterval
  import opened FairnessRuns
  import opened LuaSystem
  import IntervalBins

  /** Each client's stamp and number in order of arrival are kept beside the queue. */
  datatype Site = Site(d: State, q: IntervalBins.IntervalState, tickets: map<ClientId, Ticket>, cleared: bool)

  /** A driver's action at some time, the bin timer, or a round of the pacing routine. */
  datatype SiteAction = Drive(a: Action, at: int) | BinTimer | Pace(now: int, later: int)

  predicate SiteEnabled(y: Site, s: SiteAction) {
    match s
    case Drive(a, _) => Enabled(y.d, a)
    case BinTimer => true
    case Pace(now, later) => now <= later
  }

  /** The queue's answer to a worker's step; false when it is not asked. */
  predicate Allows(y: Site, pc: Pc) {
    pc.AskQueue? && pc.c in y.tickets && y.tickets[pc.c].bin <= y.q.considered
  }

  /** What a worker's step asks of the queue, if anything that changes it. */
  function CallOf(y: Site, pc: Pc, at: int): Option<IntervalBins.IntervalOp> {
    match pc
    case Enqueue(_) => Some(IntervalBins.Arrive(at))
    case Dequeue(k, _) => Some(IntervalBins.Depart(if k in y.tickets then Some(y.tickets[k].bin) else None))
    case ClearQueue(_) => Some(IntervalBins.Reset)
    case _ => None
  }

  function SiteCall(c: Config, y: Site, pc: Pc, at: int): Site {
    var call := CallOf(y, pc, at);
    if call.None? then y else
      y.(q := IntervalBins.StepInterval(c, y.q, call.value),
         tickets := if pc.Enqueue? then y.tickets[pc.c := Ticket(y.q.latest, |y.q.stamps|)] else y.tickets,
         cleared := y.cleared || pc.ClearQueue?)
  }

  function SiteDriverAction(y: Site, a: Action): Action
    requires Enabled(y.d, a)
  {
    if a.Work? then Work(a.w, Allows(y, y.d.workers[a.w])) else a
  }

  function SiteNext(c: Config, p: Params, y: Site, s: SiteAction): Site
    requires SiteEnabled(y, s)
  {
    match s
    case Drive(a, at) =>
      (if a.Work? then SiteCall(c, y, y.d.workers[a.w], at) else y).(d := Next(p, y.d, SiteDriverAction(y, a)))
    case BinTimer => y.(q := IntervalBins.StepInterval(c, y.q, IntervalBins.OpenBin))
    case Pace(now, later) => y.(q := IntervalBins.StepInterval(c, y.q, IntervalBins.TryMove(now, later)))
  }

  predicate SiteSteps(c: Config, p: Params, y: Site, s: SiteAction, y': Site) {
    SiteEnabled(y, s) && y' == SiteNext(c, p, y, s)
  }

  ghost predicate IsSiteRun(c: Config, p: Params, ys: seq<Site>, acts: seq<SiteAction>) {
    && |ys| == |acts| + 1
    && Ready(p, ys[0].d) && ys[0].q == IntervalBins.NewQueue(ys[0].q.base) && ys[0].tickets == map[] && !ys[0].cleared
    && forall i, j :: 0 <= i < |acts| && j == i + 1 ==> SiteSteps(c, p, ys[i], acts[i], ys[j])
  }

  // ---- what every step keeps ----

  /** Tickets match the stamps one to one. */
  ghost predicate StampsMatch(y: Site) {
    forall k :: k in y.tickets ==>
      y.tickets[k].slot < |y.q.stamps| && y.q.stamps[y.tickets[k].slot].bin == y.tickets[k].bin
  }

  ghost predicate CountsMatch(y: Site) {
    && (forall b :: Lookup(y.q.counts, b).GetOr(0) == |Holders(y.tickets, y.d.dequeued, b)|)
    && y.q.total == |y.tickets| - |y.d.dequeued|
  }

  ghost predicate QueueOk(c: Config, y: Site) {
    && IntervalBins.IntervalInv(c, y.q)
    && y.tickets.Keys == y.d.enqueued
    && (y.cleared ==> y.d.stock <= 0)
    && (!y.cleared ==> StampsMatch(y) && CountsMatch(y))
  }

  /** The driver's side of a worker's step. */
  predicate WorkFrames(d: State, d': State, pc: Pc) {
    && d'.stock <= d.stock
    && d'.enqueued == d.enqueued + (if pc.Enqueue? then {pc.c} else {})
    && d'.dequeued == d.dequeued + (if pc.Dequeue? then {pc.c} else {})
  }

  /** What the driver calls the queue with: a new client, or one added and not removed yet. */
  ghost predicate WorkOk(d: State, pc: Pc) {
    && (pc.Enqueue? ==> pc.c !in d.enqueued && pc.c !in d.dequeued)
    && (pc.Dequeue? ==> pc.c in d.enqueued && pc.c !in d.dequeued)
    && (pc.ClearQueue? ==> d.stock <= 0)
  }

  lemma DriverMakesSuchCalls(p: Params, s: State, w: WorkerId, candidate: bool)
    requires Enabled(s, Work(w, candidate)) && DriverInv(p, s)
    ensures WorkOk(s, s.workers[w]) && WorkFrames(s, WorkStep(p, s, w, candidate), s.workers[w])
  {
    EachPcOk(s, w);
    CallsOf(s, w);
    FramesOf(p, s, w, candidate);
  }

  lemma CallsOf(s: State, w: WorkerId)
    requires w in s.workers && (!s.workers[w].Idle? ==> s.workers[w].c in s.clients)
    requires PcOk(s, s.workers[w]) && ClientsOk(s)
    ensures WorkOk(s, s.workers[w])
  {
    hide EverPassed;
  }

  lemma FramesOf(p: Params, s: State, w: WorkerId, candidate: bool)
    requires Enabled(s, Work(w, candidate)) && PcOk(s, s.workers[w]) && s.stock < 0x8000_0000
    ensures WorkFrames(s, WorkStep(p, s, w, candidate), s.workers[w])
  {
    WorkTakes(p, s, w, candidate);
    hide Observe, PcOk;
  }

  lemma ArriveCounts(c: Config, y: Site, k: ClientId, at: int, d': State)
    requires CountsMatch(y) && WorkOk(y.d, Enqueue(k)) && WorkFrames(y.d, d', Enqueue(k))
    requires y.tickets.Keys == y.d.enqueued
    ensures CountsMatch(SiteCall(c, y, Enqueue(k), at).(d := d'))
  {
    hide Holders;
    var t := Ticket(y.q.latest, |y.q.stamps|);
    var y' := SiteCall(c, y, Enqueue(k), at).(d := d');
    assert y'.q.counts == Bump(y.q.counts, y.q.latest, 1) && y'.tickets == y.tickets[k := t];
    forall b ensures Lookup(y'.q.counts, b).GetOr(0) == |Holders(y'.tickets, y'.d.dequeued, b)| {
      HoldersGain(y.tickets, y.d.dequeued, k, t, b);
      assert Lookup(y.q.counts, b).GetOr(0) == |Holders(y.tickets, y.d.dequeued, b)|;
    }
    assert y'.tickets.Keys == y.tickets.Keys + {k};
    assert |y'.tickets| == |y'.tickets.Keys| && |y.tickets| == |y.tickets.Keys|;
  }

  lemma DepartCounts(c: Config, y: Site, k: ClientId, rem: int, at: int, d': State)
    requires CountsMatch(y) && WorkOk(y.d, Dequeue(k, rem)) && WorkFrames(y.d, d', Dequeue(k, rem))
    requires y.tickets.Keys == y.d.enqueued
    ensures CountsMatch(SiteCall(c, y, Dequeue(k, rem), at).(d := d'))
  {
    hide Holders;
    var y' := SiteCall(c, y, Dequeue(k, rem), at).(d := d');
    assert k in y.tickets;
    assert y'.q.counts == Bump(y.q.counts, y.tickets[k].bin, -1) && y'.tickets == y.tickets;
    forall b ensures Lookup(y'.q.counts, b).GetOr(0) == |Holders(y'.tickets, y'.d.dequeued, b)| {
      HoldersLose(y.tickets, y.d.dequeued, k, b);
      assert Lookup(y.q.counts, b).GetOr(0) == |Holders(y.tickets, y.d.dequeued, b)|;
    }
  }

  lemma SameCounts(y: Site, y': Site)
    requires y'.tickets == y.tickets && y'.q.counts == y.q.counts && y'.q.total == y.q.total
    requires y'.d.dequeued == y.d.dequeued
    ensures CountsMatch(y) ==> CountsMatch(y')
  {
    hide Holders;
  }

  lemma WorkCounts(c: Config, y: Site, pc: Pc, at: int, d': State)
    requires CountsMatch(y) && y.tickets.Keys == y.d.enqueued && WorkOk(y.d, pc) && WorkFrames(y.d, d', pc)
    ensures !pc.ClearQueue? ==> CountsMatch(SiteCall(c, y, pc, at).(d := d'))
  {
    match pc
    case Enqueue(k) => ArriveCounts(c, y, k, at, d');
    case Dequeue(k, rem) => DepartCounts(c, y, k, rem, at, d');
    case ClearQueue(_) =>
    case _ => SameCounts(y, SiteCall(c, y, pc, at).(d := d'));
  }

  lemma WorkStamps(c: Config, y: Site, pc: Pc, at: int, d': State)
    requires StampsMatch(y) && !pc.ClearQueue?
    ensures StampsMatch(SiteCall(c, y, pc, at).(d := d'))
  {
  }

  lemma WorkTickets(c: Config, y: Site, pc: Pc, at: int, d': State)
    requires y.tickets.Keys == y.d.enqueued && (y.cleared ==> y.d.stock <= 0) && WorkOk(y.d, pc)
    requires WorkFrames(y.d, d', pc)
    ensures var y' := SiteCall(c, y, pc, at).(d := d');
      && y'.tickets.Keys == y'.d.enqueued && (y'.cleared ==> y'.d.stock <= 0)
      && (y'.cleared <==> y.cleared || pc.ClearQueue?)
  {
    hide IntervalBins.StepInterval;
  }

  lemma WorkInv(c: Config, y: Site, pc: Pc, at: int, d': State)
    requires IntervalBins.IntervalInv(c, y.q)
    ensures IntervalBins.IntervalInv(c, SiteCall(c, y, pc, at).(d := d').q)
  {
    hide IntervalBins.IntervalInv, IntervalBins.StepInterval;
    var call := CallOf(y, pc, at);
    if call.Some? {
      IntervalBins.StepKeeps(c, y.q, call.value);
    }
  }

  lemma WorkKeeps(c: Config, y: Site, pc: Pc, at: int, d': State)
    requires QueueOk(c, y) && WorkOk(y.d, pc) && WorkFrames(y.d, d', pc)
    ensures QueueOk(c, SiteCall(c, y, pc, at).(d := d'))
  {
    hide IntervalBins.IntervalInv, SiteCall, StampsMatch, CountsMatch, WorkOk, WorkFrames;
    WorkInv(c, y, pc, at, d');
    WorkTickets(c, y, pc, at, d');
    if !y.cleared && !pc.ClearQueue? {
      WorkCounts(c, y, pc, at, d');
      WorkStamps(c, y, pc, at, d');
    }
  }

  /** The queue's own routines change neither counts nor stamps. */
  lemma RoutineKeeps(c: Config, y: Site, op: IntervalBins.IntervalOp)
    requires QueueOk(c, y) && (op.OpenBin? || op.TryMove?) && IntervalBins.IntervalCan(op)
    ensures QueueOk(c, y.(q := IntervalBins.StepInterval(c, y.q, op)))
  {
    IntervalBins.StepKeeps(c, y.q, op);
    hide IntervalBins.IntervalInv, IntervalBins.HoldNs, Holders;
  }

  lemma OthersKeep(c: Config, y: Site, d': State)
    requires QueueOk(c, y) && d'.stock == y.d.stock && d'.enqueued == y.d.enqueued && d'.dequeued == y.d.dequeued
    ensures QueueOk(c, y.(d := d'))
  {
    hide IntervalBins.IntervalInv, Holders;
  }

  lemma SiteKeeps(c: Config, p: Params, y: Site, s: SiteAction)
    requires DriverInv(p, y.d) && QueueOk(c, y) && SiteEnabled(y, s)
    ensures DriverInv(p, SiteNext(c, p, y, s).d) && QueueOk(c, SiteNext(c, p, y, s))
  {
    hide DriverInv, QueueOk, WorkStep, SiteCall, WorkOk, WorkFrames, IntervalBins.StepInterval;
    match s
    case Drive(a, at) =>
      var action := SiteDriverAction(y, a);
      NextKeeps(p, y.d, action);
      if a.Work? {
        DriverMakesSuchCalls(p, y.d, a.w, action.candidate);
        WorkKeeps(c, y, y.d.workers[a.w], at, WorkStep(p, y.d, a.w, action.candidate));
      } else {
        OthersKeep(c, y, Next(p, y.d, action));
      }
    case BinTimer => RoutineKeeps(c, y, IntervalBins.OpenBin);
    case Pace(now, later) => RoutineKeeps(c, y, IntervalBins.TryMove(now, later));
  }

  lemma FirstSite(c: Config, p: Params, y: Site)
    requires Ready(p, y.d) && y.q == IntervalBins.NewQueue(y.q.base) && y.tickets == map[] && !y.cleared
    ensures DriverInv(p, y.d) && QueueOk(c, y)
  {
    ReadyInv(p, y.d);
    IntervalBins.NewQueueInv(c, y.q.base);
    forall b ensures |Holders(y.tickets, y.d.dequeued, b)| == 0 {
      assert Holders(y.tickets, y.d.dequeued, b) == {};
    }
  }

  lemma {:induction false} EverySite(c: Config, p: Params, ys: seq<Site>, acts: seq<SiteAction>, n: nat)
    requires IsSiteRun(c, p, ys, acts) && n < |ys|
    ensures DriverInv(p, ys[n].d) && QueueOk(c, ys[n])
  {
    hide DriverInv, QueueOk, SiteNext;
    if n == 0 {
      FirstSite(c, p, ys[0]);
    } else {
      EverySite(c, p, ys, acts, n - 1);
      assert SiteSteps(c, p, ys[n - 1], acts[n - 1], ys[n]);
      SiteKeeps(c, p, ys[n - 1], acts[n - 1]);
    }
  }

  // ---- what holds in every run ----

  /** Conservation: because the driver adds each client once and removes it once, until the queue is cleared each
      bin's count is the number of its clients not yet removed, hence not negative, and the total that of all clients
      added and not removed; it is not cleared while stock is left. The total is the sum of all counts throughout. */
  lemma Conservation(c: Config, p: Params, ys: seq<Site>, acts: seq<SiteAction>, n: nat, b: int)
    requires IsSiteRun(c, p, ys, acts) && n < |ys|
    ensures ys[n].q.total == SumOf(ys[n].q.counts)
    ensures !ys[n].cleared ==>
      && ys[n].tickets.Keys == ys[n].d.enqueued
      && Lookup(ys[n].q.counts, b).GetOr(0) == |Holders(ys[n].tickets, ys[n].d.dequeued, b)|
      && ys[n].q.total == |ys[n].d.enqueued| - |ys[n].d.dequeued|
    ensures ys[n].d.stock > 0 ==> !ys[n].cleared
  {
    hide DriverInv, IntervalBins.Spaced, Holders;
    EverySite(c, p, ys, acts, n);
    assert |ys[n].tickets| == |ys[n].tickets.Keys|;
  }

  lemma SiteClears(c: Config, p: Params, y: Site, s: SiteAction)
    requires SiteEnabled(y, s) && DriverInv(p, y.d) && SoldOutOk(y.d) && (y.cleared <==> y.d.cancelled)
    ensures var y' := SiteNext(c, p, y, s); SoldOutOk(y'.d) && (y'.cleared <==> y'.d.cancelled)
  {
    if s.Drive? {
      StepSoldOut(p, y.d, SiteDriverAction(y, s.a));
      hide DriverInv, SoldOutOk, Next, IntervalBins.StepInterval, SiteDriverAction;
      DriveClears(p, y, s.a, SiteDriverAction(y, s.a));
    }
    hide DriverInv, SoldOutOk, Next, IntervalBins.StepInterval;
  }

  lemma DriveClears(p: Params, y: Site, a: Action, action: Action)
    requires Enabled(y.d, a) && action == SiteDriverAction(y, a)
    ensures Enabled(y.d, action)
    ensures Next(p, y.d, action).cancelled
        <==> y.d.cancelled || (a.Work? && y.d.workers[a.w].ClearQueue?)
  {
    hide Observe;
  }

  lemma {:induction false} EverySiteSoldOutOk(c: Config, p: Params, ys: seq<Site>, acts: seq<SiteAction>, n: nat)
    requires IsSiteRun(c, p, ys, acts) && n < |ys|
    ensures SoldOutOk(ys[n].d) && (ys[n].cleared <==> ys[n].d.cancelled)
  {
    hide SiteNext, DriverInv, QueueOk;
    if n > 0 {
      EverySiteSoldOutOk(c, p, ys, acts, n - 1);
      EverySite(c, p, ys, acts, n - 1);
      assert SiteSteps(c, p, ys[n - 1], acts[n - 1], ys[n]);
      hide IsSiteRun, SoldOutOk;
      SiteClears(c, p, ys[n - 1], acts[n - 1]);
    }
  }

  /** In every interleaving: whenever all workers are free, the queue has been cleared exactly if somebody reached
      checkout and no stock is left; and never earlier than that. */
  lemma ClearedIffSoldOut(c: Config, p: Params, ys: seq<Site>, acts: seq<SiteAction>, n: nat)
    requires IsSiteRun(c, p, ys, acts) && n < |ys|
    ensures ys[n].cleared ==> ys[n].d.reached != {} && ys[n].d.stock <= 0
    ensures AllIdle(ys[n].d) ==> (ys[n].cleared <==> ys[n].d.reached != {} && ys[n].d.stock <= 0)
  {
    EverySiteSoldOutOk(c, p, ys, acts, n);
    IdleIffSoldOut(ys[n].d);
  }

  // ---- the pace, in clients ----

  /** The clients waiting in the bin that may proceed last: added, not removed, and stamped with it. */
  function WaitingInConsidered(y: Site): nat {
    |Holders(y.tickets, y.d.dequeued, y.q.considered)|
  }

  /** Until cleared, with a later bin open, a round of the pacing routine moves on exactly if the fairness interval is
      over since the last move and the clients waiting in the considered bin had the time to drain at the full rate. */
  lemma PaceExact(c: Config, p: Params, ys: seq<Site>, acts: seq<SiteAction>, n: nat)
    requires IsSiteRun(c, p, ys, acts) && n < |acts| && acts[n].Pace? && !ys[n].cleared
    ensures var y, y' := ys[n], ys[n + 1];
      var moves := y.q.considered < y.q.latest
                   && IntervalBins.Drained(c, WaitingInConsidered(y), acts[n].now - y.q.lastUpdated);
      if moves then
        && y'.q.considered == y.q.considered + 1 && y'.q.lastUpdated == acts[n].later
        && y'.q.moves == y.q.moves + [IntervalBins.Move(acts[n].later, WaitingInConsidered(y))]
      else y'.q.considered == y.q.considered && y'.q.lastUpdated == y.q.lastUpdated && y'.q.moves == y.q.moves
  {
    EverySite(c, p, ys, acts, n);
    assert SiteSteps(c, p, ys[n], acts[n], ys[n + 1]);
    hide IsSiteRun, DriverInv, StampsMatch, IntervalBins.IntervalInv, IntervalBins.Drained, Holders,
      IntervalBins.HoldNs;
    var q := ys[n].q;
    assert Lookup(q.counts, q.considered).GetOr(0) == WaitingInConsidered(ys[n]);
    if q.considered < q.latest {
      IntervalBins.RoundExact(c, q, acts[n].now, acts[n].later);
    }
  }

  /** Step m was the pacing round that moved on from bin i, as recorded in the move. */
  ghost predicate MovedAt(ys: seq<Site>, acts: seq<SiteAction>, m: nat, i: nat, move: IntervalBins.Move) {
    && m < |acts| && m < |ys| && acts[m].Pace? && ys[m].q.considered == i
    && move == IntervalBins.Move(acts[m].later, WaitingInConsidered(ys[m]))
  }

  lemma PaceOrStay(c: Config, p: Params, y: Site, s: SiteAction)
    requires SiteEnabled(y, s) && !s.Pace?
    ensures !SiteNext(c, p, y, s).cleared ==> !y.cleared && SiteNext(c, p, y, s).q.moves == y.q.moves
  {
    hide Next;
  }

  /** Every move on record is such a round, in order of the bins: its time, and the clients then waiting. */
  lemma {:induction false} MovesRecorded(c: Config, p: Params, ys: seq<Site>, acts: seq<SiteAction>, n: nat, i: nat)
      returns (m: nat)
    requires IsSiteRun(c, p, ys, acts) && n < |ys| && !ys[n].cleared && i < |ys[n].q.moves|
    ensures m < n && MovedAt(ys, acts, m, i, ys[n].q.moves[i])
  {
    hide SiteNext, DriverInv, QueueOk, WaitingInConsidered, IntervalBins.Drained;
    assert n > 0;
    assert SiteSteps(c, p, ys[n - 1], acts[n - 1], ys[n]);
    if acts[n - 1].Pace? {
      RoutineNotCleared(c, p, ys[n - 1], acts[n - 1]);
      PaceExact(c, p, ys, acts, n - 1);
      EverySite(c, p, ys, acts, n - 1);
      MovesCounted(c, ys[n - 1]);
    } else {
      PaceOrStay(c, p, ys[n - 1], acts[n - 1]);
    }
    if i < |ys[n - 1].q.moves| {
      m := MovesRecorded(c, p, ys, acts, n - 1, i);
    } else {
      m := n - 1;
    }
  }

  lemma RoutineNotCleared(c: Config, p: Params, y: Site, s: SiteAction)
    requires SiteEnabled(y, s) && s.Pace?
    ensures SiteNext(c, p, y, s).cleared == y.cleared
  {
  }

  lemma MovesCounted(c: Config, y: Site)
    requires QueueOk(c, y)
    ensures |y.q.moves| == y.q.considered
  {
    hide IntervalBins.Spaced, StampsMatch, CountsMatch;
  }

  /** Hence between two moves since the last Clear the fairness interval passed, and the time to drain, at the full
      rate, the clients that waited in the bin moved on from. */
  lemma MovesDrained(c: Config, p: Params, ys: seq<Site>, acts: seq<SiteAction>, n: nat, i: nat)
    requires IsSiteRun(c, p, ys, acts) && n < |ys| && i < |ys[n].q.moves|
    ensures var q := ys[n].q;
      IntervalBins.Drained(c, q.moves[i].backlog, q.moves[i].at - IntervalBins.MoveTime(q.base, q.moves, i))
  {
    EverySite(c, p, ys, acts, n);
    hide IsSiteRun, DriverInv, StampsMatch, CountsMatch, IntervalBins.HoldNs;
    var q := ys[n].q;
    assert q.moves[i].at
        >= IntervalBins.MoveTime(q.base, q.moves, i) + IntervalBins.HoldNs(c, q.moves[i].backlog);
    IntervalBins.HoldIffDrained(c, q.moves[i].backlog, q.moves[i].at - IntervalBins.MoveTime(q.base, q.moves, i));
  }

  /** In every run a worker that asks the queue about a client goes on to the tracker exactly if the client was stamped
      and the pacing routine has moved, since the last Clear, at least as often as the stamp says. */
  lemma PassesIff(c: Config, p: Params, ys: seq<Site>, acts: seq<SiteAction>, n: nat, w: WorkerId, k: ClientId)
    requires IsSiteRun(c, p, ys, acts) && n < |acts| && acts[n].Drive? && acts[n].a.Work? && acts[n].a.w == w
    requires w in ys[n].d.workers && ys[n].d.workers[w] == AskQueue(k)
    ensures w in ys[n + 1].d.workers
    ensures ys[n + 1].d.workers[w]
         == if k in ys[n].tickets && ys[n].tickets[k].bin <= |ys[n].q.moves| then AskTracker(k)
            else DriverProtocol.Respond(k)
  {
    EverySite(c, p, ys, acts, n);
    assert SiteSteps(c, p, ys[n], acts[n], ys[n + 1]);
    MovesCounted(c, ys[n]);
    hide IsSiteRun, DriverInv, QueueOk;
  }

  predicate SiteProceeds(y: Site, y': Site) {
    !y'.cleared ==>
      && !y.cleared && y.q.considered <= y'.q.considered
      && forall k :: k in y.tickets ==> k in y'.tickets && y'.tickets[k] == y.tickets[k]
  }

  lemma CallProceeds(c: Config, y: Site, pc: Pc, at: int)
    requires WorkOk(y.d, pc) && y.tickets.Keys == y.d.enqueued
    ensures SiteProceeds(y, SiteCall(c, y, pc, at))
  {
  }

  lemma RoutineProceeds(c: Config, y: Site, op: IntervalBins.IntervalOp)
    requires op.OpenBin? || op.TryMove?
    ensures SiteProceeds(y, y.(q := IntervalBins.StepInterval(c, y.q, op)))
  {
    hide IntervalBins.HoldNs;
  }

  lemma StepProceeds(c: Config, p: Params, y: Site, s: SiteAction)
    requires DriverInv(p, y.d) && QueueOk(c, y) && SiteEnabled(y, s)
    ensures SiteProceeds(y, SiteNext(c, p, y, s))
  {
    hide DriverInv, Next, SiteCall, WorkOk, WorkFrames, IntervalBins.StepInterval, IntervalBins.IntervalInv,
      StampsMatch, CountsMatch;
    match s
    case Drive(a, at) =>
      if a.Work? {
        DriverMakesSuchCalls(p, y.d, a.w, false);
        CallProceeds(c, y, y.d.workers[a.w], at);
      }
    case BinTimer => RoutineProceeds(c, y, IntervalBins.OpenBin);
    case Pace(now, later) => RoutineProceeds(c, y, IntervalBins.TryMove(now, later));
  }

  lemma {:induction false} RunProceeds(c: Config, p: Params, ys: seq<Site>, acts: seq<SiteAction>, m: nat, n: nat)
    requires IsSiteRun(c, p, ys, acts) && m <= n < |ys|
    ensures SiteProceeds(ys[m], ys[n])
    decreases n
  {
    hide SiteNext, DriverInv, QueueOk;
    if m < n {
      RunProceeds(c, p, ys, acts, m, n - 1);
      EverySite(c, p, ys, acts, n - 1);
      assert SiteSteps(c, p, ys[n - 1], acts[n - 1], ys[n]);
      StepProceeds(c, p, ys[n - 1], acts[n - 1]);
    }
  }

  /** No overtaking under the driver: until the queue is cleared, once a client may proceed, so may, from then on, it
      and every client added no later. */
  lemma SiteNoOvertaking(c: Config, p: Params, ys: seq<Site>, acts: seq<SiteAction>, m: nat, n: nat,
                         k: ClientId, l: ClientId)
    requires IsSiteRun(c, p, ys, acts) && m <= n < |ys| && !ys[n].cleared
    requires Allows(ys[m], AskQueue(l))
    requires k in ys[m].tickets && ys[m].tickets[k].slot <= ys[m].tickets[l].slot
    ensures Allows(ys[n], AskQueue(k))
  {
    hide DriverInv, CountsMatch, IntervalBins.Spaced;
    EverySite(c, p, ys, acts, m);
    RunProceeds(c, p, ys, acts, m, n);
  }
}
