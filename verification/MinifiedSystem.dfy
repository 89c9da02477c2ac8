/** The driver's workers in front of the minified scripts: the calls that LuaSystem makes of the readable store, made
    of the packed one. */
module MinifiedSystem {
  import opened Redis
  import opened Clients
  import opened DriverProtocol
  import opened FairnessInterval
  import opened OptFairnessInterval
  import opened Lockstep
  import opened FairnessRuns
  import opened LuaSystem

  /** The script a worker's step runs, if it runs one. */
  function ScriptOf(y: System, pc: Pc, at: int): Option<Event> {
    match pc
    case Enqueue(_) => if y.d.stock <= 0 then None else Some(AddEvent(at))
    case AskQueue(k) => if y.d.stock <= 0 || k !in y.tickets then None else Some(PollEvent(at, y.tickets[k].bin))
    case Dequeue(k, _) => if y.d.stock <= -1 || k !in y.tickets then None else Some(RemoveEvent(y.tickets[k].bin))
    case _ => None
  }

  /** Clearing deletes every key of the packed store too. */
  function PackedCall(c: Config, y: System, pc: Pc, at: int, packed: Packed, addKey: string, pollKey: string): Packed {
    if pc.ClearQueue? then NO_FIELDS else
      var script := ScriptOf(y, pc, at);
      if script.Some? then Minified(packed, c, addKey, pollKey, script.value).0 else packed
  }

  function PackedNext(c: Config, y: System, s: SystemAction, packed: Packed, addKey: string, pollKey: string): Packed
    requires SystemEnabled(y, s)
  {
    if s.a.Work? then PackedCall(c, y, y.d.workers[s.a.w], s.at, packed, addKey, pollKey) else packed
  }

  /** The packed stores along a run of the system. */
  ghost predicate PackedAlong(
      c: Config, ys: seq<System>, acts: seq<SystemAction>, ps: seq<Packed>, addKey: string, pollKey: string) {
    && |ps| == |ys| == |acts| + 1 && ps[0] == NO_FIELDS
    && forall i, j :: 0 <= i < |acts| && j == i + 1 ==>
         SystemEnabled(ys[i], acts[i]) && ps[j] == PackedNext(c, ys[i], acts[i], ps[i], addKey, pollKey)
  }

  /** The readable store is one the two versions agree on. */
  lemma StoreComparable(c: Config, y: System)
    requires StoreOk(c, y)
    ensures WellFormed(y.h.keys) && (Unopened(y.h.keys) || y.h.keys.latest.Some?)
  {
    hide Paced, FairnessRuns.Tallied, TicketsOk, CountsOk;
  }

  /** A poll is made only of an open store. */
  lemma PollsAreOpen(c: Config, y: System, pc: Pc, at: int)
    requires StoreOk(c, y) && CallOk(y, pc)
    ensures var script := ScriptOf(y, pc, at);
      script.Some? && script.value.PollEvent? ==> y.h.keys.latest.Some?
  {
    hide Paced, FairnessRuns.Tallied, CountsOk;
    if pc.AskQueue? && y.d.stock > 0 {
      TicketIsStamp(y, pc.c);
    }
  }

  lemma CallRelated(c: Config, y: System, pc: Pc, at: int, packed: Packed, addKey: string, pollKey: string)
    requires addKey != pollKey && StoreOk(c, y) && CallOk(y, pc) && Related(y.h.keys, packed, addKey, pollKey)
    ensures Related(QueueStep(c, y, pc, at).h.keys, PackedCall(c, y, pc, at, packed, addKey, pollKey), addKey, pollKey)
    ensures var script := ScriptOf(y, pc, at);
      script.Some? ==>
        Failed != Readable(y.h.keys, c, script.value).1 == Minified(packed, c, addKey, pollKey, script.value).1
  {
    hide StoreOk, WellFormed, AddStep, PollStep, RemoveStep, PackedAddStep, PackedPollStep, PackedRemoveStep;
    StoreComparable(c, y);
    PollsAreOpen(c, y, pc, at);
    var script := ScriptOf(y, pc, at);
    if script.Some? {
      hide Related;
      StepAgrees(y.h.keys, packed, c, addKey, pollKey, script.value);
    }
  }

  /** In every interleaving the packed store holds the same data as the readable one, before and after it is cleared,
      no script fails on either, and the minified scripts give every worker the same reply. */
  lemma {:induction false} MinifiedBehindDriver(
      c: Config, p: Params, ys: seq<System>, acts: seq<SystemAction>, ps: seq<Packed>,
      addKey: string, pollKey: string, n: nat)
    requires addKey != pollKey && IsSystemRun(c, p, ys, acts) && PackedAlong(c, ys, acts, ps, addKey, pollKey)
    requires n < |ys|
    ensures Related(ys[n].h.keys, ps[n], addKey, pollKey)
    ensures n < |acts| && acts[n].a.Work? && acts[n].a.w in ys[n].d.workers ==>
      var script := ScriptOf(ys[n], ys[n].d.workers[acts[n].a.w], acts[n].at);
      script.Some? ==>
        Failed != Readable(ys[n].h.keys, c, script.value).1 == Minified(ps[n], c, addKey, pollKey, script.value).1
  {
    hide SystemInv, QueueStep, PackedCall, ScriptOf, StoreOk, CallOk, Related;
    if n == 0 {
      assert Related(ys[0].h.keys, ps[0], addKey, pollKey) by { FirstRelated(ys[0].h, addKey, pollKey); }
    } else {
      MinifiedBehindDriver(c, p, ys, acts, ps, addKey, pollKey, n - 1);
      assert SystemSteps(c, p, ys[n - 1], acts[n - 1], ys[n]);
      EverySystemState(c, p, ys, acts, n - 1);
      StepRelated(c, p, ys[n - 1], acts[n - 1], ps[n - 1], addKey, pollKey);
    }
    if n < |acts| && acts[n].a.Work? && acts[n].a.w in ys[n].d.workers {
      assert SystemSteps(c, p, ys[n], acts[n], ys[n + 1]);
      EverySystemState(c, p, ys, acts, n);
      RepliesAgree(c, p, ys[n], acts[n], ps[n], addKey, pollKey);
    }
  }

  lemma FirstRelated(h: History, addKey: string, pollKey: string)
    requires h == Start(h.clock)
    ensures Related(h.keys, NO_FIELDS, addKey, pollKey)
  {
  }

  lemma StepRelated(
      c: Config, p: Params, y: System, s: SystemAction, packed: Packed, addKey: string, pollKey: string)
    requires addKey != pollKey && SystemInv(c, p, y) && SystemEnabled(y, s)
    requires Related(y.h.keys, packed, addKey, pollKey)
    ensures Related(SystemNext(c, p, y, s).h.keys, PackedNext(c, y, s, packed, addKey, pollKey), addKey, pollKey)
  {
    hide DriverInv, HoldersOk, StoreOk, CallOk, QueueStep, Related, CallFrame, WorkStep, PackedCall, CallsQueue;
    if s.a.Work? {
      var pc := y.d.workers[s.a.w];
      CallIsQueueStep(c, p, y, s);
      if CallsQueue(pc) {
        CallsAreOk(p, y, s.a.w, DriverAction(c, y, s).candidate);
        CallRelated(c, y, pc, s.at, packed, addKey, pollKey);
      } else {
        QuietKeeps(c, p, y, s);
        NoScript(c, y, pc, s.at, packed, addKey, pollKey);
      }
    }
  }

  lemma NoScript(c: Config, y: System, pc: Pc, at: int, packed: Packed, addKey: string, pollKey: string)
    requires !CallsQueue(pc)
    ensures ScriptOf(y, pc, at).None? && PackedCall(c, y, pc, at, packed, addKey, pollKey) == packed
  {
  }

  lemma RepliesAgree(
      c: Config, p: Params, y: System, s: SystemAction, packed: Packed, addKey: string, pollKey: string)
    requires addKey != pollKey && SystemInv(c, p, y) && SystemEnabled(y, s)
    requires Related(y.h.keys, packed, addKey, pollKey)
    requires s.a.Work?
    ensures var script := ScriptOf(y, y.d.workers[s.a.w], s.at);
      script.Some? ==>
        Failed != Readable(y.h.keys, c, script.value).1 == Minified(packed, c, addKey, pollKey, script.value).1
  {
    hide DriverInv, HoldersOk, StoreOk, CallOk, QueueStep, Related, CallFrame, WorkStep, ScriptOf, CallsQueue;
    var pc := y.d.workers[s.a.w];
    if CallsQueue(pc) {
      CallsAreOk(p, y, s.a.w, DriverAction(c, y, s).candidate);
      CallRelated(c, y, pc, s.at, packed, addKey, pollKey);
    } else {
      NoScript(c, y, pc, s.at, packed, addKey, pollKey);
    }
  }
}
