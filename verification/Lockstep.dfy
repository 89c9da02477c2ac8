/** The two script versions run side by side on the same events. */
module Lockstep {
  import opened Redis
  import opened FairnessInterval
  import opened OptFairnessInterval

  datatype Event = AddEvent(at: int) | RemoveEvent(bin: int) | PollEvent(at: int, bin: int)

  function Readable(k: Keys, c: Config, e: Event): (Keys, Reply) {
    match e
    case AddEvent(at) => AddStep(k, c, at)
    case RemoveEvent(bin) => RemoveStep(k, bin)
    case PollEvent(at, bin) => PollStep(k, c, at, bin)
  }

  /** The minified scripts, with the timer key given to add and the one given to poll. */
  function Minified(p: Packed, c: Config, addKey: string, pollKey: string, e: Event): (Packed, Reply) {
    match e
    case AddEvent(at) => PackedAddStep(p, c, addKey, at)
    case RemoveEvent(bin) => PackedRemoveStep(p, bin)
    case PollEvent(at, bin) => PackedPollStep(p, c, pollKey, at, bin)
  }

  function ReadableReplies(k: Keys, c: Config, events: seq<Event>): seq<Reply>
    decreases |events|
  {
    if events == [] then [] else
      var (k', r) := Readable(k, c, events[0]);
      [r] + ReadableReplies(k', c, events[1..])
  }

  function MinifiedReplies(p: Packed, c: Config, addKey: string, pollKey: string, events: seq<Event>): seq<Reply>
    decreases |events|
  {
    if events == [] then [] else
      var (p', r) := Minified(p, c, addKey, pollKey, events[0]);
      [r] + MinifiedReplies(p', c, addKey, pollKey, events[1..])
  }

  function ReadableAfter(k: Keys, c: Config, events: seq<Event>): Keys
    decreases |events|
  {
    if events == [] then k else ReadableAfter(Readable(k, c, events[0]).0, c, events[1..])
  }

  function MinifiedAfter(p: Packed, c: Config, addKey: string, pollKey: string, events: seq<Event>): Packed
    decreases |events|
  {
    if events == [] then p else
      MinifiedAfter(Minified(p, c, addKey, pollKey, events[0]).0, c, addKey, pollKey, events[1..])
  }

  /** Both versions hold the same data. */
  predicate Related(k: Keys, p: Packed, addKey: string, pollKey: string) {
    && Lookup(p.hash, Size) == k.total
    && Lookup(p.hash, LatestQueueBin) == k.latest
    && Lookup(p.hash, WorkingBinIdx) == k.working
    && p.counts == k.counts
    && Lookup(p.timers, addKey) == k.addTimer
    && Lookup(p.timers, pollKey) == k.pollTimer
  }

  /** What every store reached from the empty one keeps: a timer implies a bin, every bin up to the latest has a
      count, and the working bin is absent or between 1 and the latest. */
  predicate WellFormed(k: Keys) {
    && (k.addTimer.Some? ==> k.latest.Some?)
    && (k.latest.Some? ==> k.latest.value >= 1 && forall b :: 1 <= b <= k.latest.value ==> b in k.counts)
    && (k.working.Some? ==> k.latest.Some? && 1 <= k.working.value <= k.latest.value)
  }

  /** Before the first add no bin is open and no poll has armed its timer. */
  predicate Unopened(k: Keys) {
    k.latest.None? && k.working.None? && k.addTimer.None? && k.pollTimer.None?
  }

  /** Every poll comes after some add. */
  predicate PollsFollowAnAdd(events: seq<Event>) {
    forall i :: 0 <= i < |events| && events[i].PollEvent? ==> exists j :: 0 <= j < i && events[j].AddEvent?
  }

  /** What one event does to related stores: they answer alike and stay related, unless it is a poll of a store never
      added to. */
  predicate Agrees(k: Keys, p: Packed, c: Config, addKey: string, pollKey: string, e: Event) {
    var (k', r) := Readable(k, c, e); var (p', r') := Minified(p, c, addKey, pollKey, e);
    if e.PollEvent? && k.latest.None? then r == Failed && r' != Failed
    else
      && r == r' && r != Failed
      && WellFormed(k') && Related(k', p', addKey, pollKey)
      && (e.AddEvent? || k.latest.Some? ==> k'.latest.Some?)
      && (!e.AddEvent? && Unopened(k) ==> Unopened(k'))
  }

  lemma PollAgrees(k: Keys, p: Packed, c: Config, addKey: string, pollKey: string, at: int, bin: int)
    requires addKey != pollKey && WellFormed(k) && Related(k, p, addKey, pollKey)
    requires Unopened(k) || k.latest.Some?
    ensures Agrees(k, p, c, addKey, pollKey, PollEvent(at, bin))
  {
    hide HoldMs;
  }

  lemma AddAgrees(k: Keys, p: Packed, c: Config, addKey: string, pollKey: string, at: int)
    requires addKey != pollKey && WellFormed(k) && Related(k, p, addKey, pollKey)
    requires Unopened(k) || k.latest.Some?
    ensures Agrees(k, p, c, addKey, pollKey, AddEvent(at))
  {
    hide HoldMs;
  }

  lemma StepAgrees(k: Keys, p: Packed, c: Config, addKey: string, pollKey: string, e: Event)
    requires addKey != pollKey && WellFormed(k) && Related(k, p, addKey, pollKey)
    requires Unopened(k) || k.latest.Some?
    ensures Agrees(k, p, c, addKey, pollKey, e)
  {
    hide HoldMs, AddStep, PollStep, PackedAddStep, PackedPollStep;
    match e
    case AddEvent(at) => AddAgrees(k, p, c, addKey, pollKey, at);
    case PollEvent(at, bin) => PollAgrees(k, p, c, addKey, pollKey, at, bin);
    case RemoveEvent(_) =>
  }

  lemma LockstepFrom(k: Keys, p: Packed, c: Config, addKey: string, pollKey: string, events: seq<Event>)
    requires addKey != pollKey && WellFormed(k) && Related(k, p, addKey, pollKey)
    requires Unopened(k) || k.latest.Some?
    ensures ReadableReplies(k, c, events) == MinifiedReplies(p, c, addKey, pollKey, events)
      <==> k.latest.Some? || PollsFollowAnAdd(events)
    ensures k.latest.Some? || PollsFollowAnAdd(events) ==>
      && Failed !in ReadableReplies(k, c, events)
      && WellFormed(ReadableAfter(k, c, events))
      && Related(ReadableAfter(k, c, events), MinifiedAfter(p, c, addKey, pollKey, events), addKey, pollKey)
    decreases |events|
  {
    if events != [] {
      var e := events[0];
      StepAgrees(k, p, c, addKey, pollKey, e);
      var (k', r) := Readable(k, c, e);
      var (p', r') := Minified(p, c, addKey, pollKey, e);
      var rest := ReadableReplies(k', c, events[1..]);
      var rest' := MinifiedReplies(p', c, addKey, pollKey, events[1..]);
      assert ([r] + rest)[0] == r && ([r'] + rest')[0] == r';
      assert ([r] + rest)[1..] == rest && ([r'] + rest')[1..] == rest';
      if e.PollEvent? && k.latest.None? {
        assert !PollsFollowAnAdd(events);
      } else {
        LockstepFrom(k', p', c, addKey, pollKey, events[1..]);
        if k.latest.None? {
          FirstEvent(events);
        }
      }
    }
  }

  /** A first add settles the question; a first remove leaves it to the rest. */
  lemma FirstEvent(events: seq<Event>)
    requires events != [] && !events[0].PollEvent?
    ensures PollsFollowAnAdd(events) <==> events[0].AddEvent? || PollsFollowAnAdd(events[1..])
  {
    if PollsFollowAnAdd(events) && !events[0].AddEvent? {
      forall i | 0 <= i < |events[1..]| && events[1..][i].PollEvent?
        ensures exists j :: 0 <= j < i && events[1..][j].AddEvent?
      {
        assert events[i + 1].PollEvent?;
        var j :| 0 <= j < i + 1 && events[j].AddEvent?;
        assert events[1..][j - 1].AddEvent?;
      }
    }
    if PollsFollowAnAdd(events[1..]) && !events[0].AddEvent? {
      forall i | 0 <= i < |events| && events[i].PollEvent?
        ensures exists j :: 0 <= j < i && events[j].AddEvent?
      {
        assert events[1..][i - 1].PollEvent?;
        var j :| 0 <= j < i - 1 && events[1..][j].AddEvent?;
        assert events[j + 1].AddEvent?;
      }
    }
  }

  /** From empty stores and with two timer keys, the minified scripts answer every event as the readable ones do
      exactly when no poll precedes the first add; no script then fails and the stores end up holding the same data. */
  lemma {:induction false} LockstepRefinement(c: Config, addKey: string, pollKey: string, events: seq<Event>)
    requires addKey != pollKey
    ensures ReadableReplies(NO_KEYS, c, events) == MinifiedReplies(NO_FIELDS, c, addKey, pollKey, events)
      <==> PollsFollowAnAdd(events)
    ensures PollsFollowAnAdd(events) ==>
      && Failed !in ReadableReplies(NO_KEYS, c, events)
      && WellFormed(ReadableAfter(NO_KEYS, c, events))
      && Related(ReadableAfter(NO_KEYS, c, events), MinifiedAfter(NO_FIELDS, c, addKey, pollKey, events),
                 addKey, pollKey)
  {
    LockstepFrom(NO_KEYS, NO_FIELDS, c, addKey, pollKey, events);
  }

  lemma TwoReplies(k: Keys, p: Packed, c: Config, key: string, e: Event, f: Event)
    ensures var (k', r) := Readable(k, c, e); ReadableReplies(k, c, [e, f]) == [r, Readable(k', c, f).1]
    ensures var (p', r) := Minified(p, c, key, key, e);
      MinifiedReplies(p, c, key, key, [e, f]) == [r, Minified(p', c, key, key, f).1]
  {
    assert [e, f][1..] == [f];
    assert ReadableReplies(Readable(k, c, e).0, c, [f]) == [Readable(Readable(k, c, e).0, c, f).1];
    assert MinifiedReplies(Minified(p, c, key, key, e).0, c, key, key, [f])
        == [Minified(Minified(p, c, key, key, e).0, c, key, key, f).1];
  }

  /** An add and a poll at the same instant, sharing a timer key: the readable version passes the client, the
      minified one finds the timer taken and rejects it. */
  lemma SharedTimerRejects(c: Config, key: string)
    ensures ReadableReplies(NO_KEYS, c, [AddEvent(0), PollEvent(0, 1)]) == [Added(1, 1), Passed]
    ensures MinifiedReplies(NO_FIELDS, c, key, key, [AddEvent(0), PollEvent(0, 1)]) == [Added(1, 1), Rejected]
  {
    TwoReplies(NO_KEYS, NO_FIELDS, c, key, AddEvent(0), PollEvent(0, 1));
  }

  /** The versions agree on all such runs only if add and poll are given different timer keys: with one shared key
      a poll right after the first add is answered differently. */
  lemma TimerKeysMustDiffer(c: Config, addKey: string, pollKey: string)
    ensures addKey != pollKey <==>
      forall events :: PollsFollowAnAdd(events) ==>
        ReadableReplies(NO_KEYS, c, events) == MinifiedReplies(NO_FIELDS, c, addKey, pollKey, events)
  {
    if addKey != pollKey {
      forall events | PollsFollowAnAdd(events)
        ensures ReadableReplies(NO_KEYS, c, events) == MinifiedReplies(NO_FIELDS, c, addKey, pollKey, events)
      {
        LockstepRefinement(c, addKey, pollKey, events);
      }
    } else {
      SharedTimerRejects(c, addKey);
      var events := [AddEvent(0), PollEvent(0, 1)];
      assert events[0].AddEvent?;
      assert ReadableReplies(NO_KEYS, c, events)[1] != MinifiedReplies(NO_FIELDS, c, addKey, pollKey, events)[1];
    }
  }
}
