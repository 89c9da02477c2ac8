/** The queue kept as a Redis sorted set: clients ranked by entry time, the first WindowSize of them admitted, and the
    window resized by the tracker's feedback. */
module SortedSet {
  import opened Counting
  import opened Redis

  /** A member's name; Redis breaks ties of score by comparing names byte by byte. */
  type Member = string

  predicate NameLess(a: Member, b: Member) {
    b != [] && (a == [] || a[0] < b[0] || (a[0] == b[0] && NameLess(a[1..], b[1..])))
  }

  lemma {:induction false} NamesOrdered(a: Member, b: Member)
    ensures !(NameLess(a, b) && NameLess(b, a))
    ensures a == b || NameLess(a, b) || NameLess(b, a)
    decreases |a|
  {
    if a != [] && b != [] {
      NamesOrdered(a[1..], b[1..]);
      assert a == [a[0]] + a[1..] && b == [b[0]] + b[1..];
    }
  }

  lemma {:induction false} NamesTransitive(a: Member, b: Member, c: Member)
    requires NameLess(a, b) && NameLess(b, c)
    ensures NameLess(a, c)
    decreases |a|
  {
    if a != [] && b != [] && c != [] && NameLess(a[1..], b[1..]) && NameLess(b[1..], c[1..]) {
      NamesTransitive(a[1..], b[1..], c[1..]);
    }
  }

  /** Names are compared byte by byte up to the first difference; a name comes after its own beginnings. */
  predicate DiffersAt(a: Member, b: Member, k: nat) {
    && k <= |a| && k < |b| && a[..k] == b[..k]
    && (k == |a| || (k < |a| && a[k] < b[k]))
  }

  lemma {:induction false} NameLessDiffers(a: Member, b: Member) returns (k: nat)
    requires NameLess(a, b)
    ensures DiffersAt(a, b, k)
    decreases |a|
  {
    if a != [] && a[0] == b[0] {
      var rest := NameLessDiffers(a[1..], b[1..]);
      k := rest + 1;
      assert a[..k] == [a[0]] + a[1..][..rest] && b[..k] == [b[0]] + b[1..][..rest];
    } else {
      k := 0;
    }
  }

  lemma {:induction false} DiffersNameLess(a: Member, b: Member, k: nat)
    requires DiffersAt(a, b, k)
    ensures NameLess(a, b)
    decreases |a|
  {
    if k > 0 {
      assert a[..k][0] == b[..k][0];
      assert a[1..][..k - 1] == a[..k][1..] && b[1..][..k - 1] == b[..k][1..];
      DiffersNameLess(a[1..], b[1..], k - 1);
    }
  }

  lemma NameLessIff(a: Member, b: Member)
    ensures NameLess(a, b) <==> exists k: nat :: DiffersAt(a, b, k)
  {
    if NameLess(a, b) {
      var k := NameLessDiffers(a, b);
    }
    forall k: nat | DiffersAt(a, b, k) ensures NameLess(a, b) {
      DiffersNameLess(a, b, k);
    }
  }

  /** The set's order: by entry time, then by name. */
  predicate Before(s: map<Member, int>, a: Member, b: Member) {
    a in s && b in s && (s[a] < s[b] || (s[a] == s[b] && NameLess(a, b)))
  }

  function Ahead(s: map<Member, int>, m: Member): set<Member> {
    set a | a in s && Before(s, a, m)
  }

  function Rank(s: map<Member, int>, m: Member): nat {
    |Ahead(s, m)|
  }

  lemma RankGrows(s: map<Member, int>, a: Member, b: Member)
    requires Before(s, a, b)
    ensures Rank(s, a) < Rank(s, b)
  {
    forall m | m in Ahead(s, a) ensures m in Ahead(s, b) {
      if s[m] == s[a] == s[b] {
        NamesTransitive(m, a, b);
      }
    }
    NamesOrdered(a, a);
    assert Ahead(s, a) <= Ahead(s, b) - {a};
    SubsetSize(Ahead(s, a), Ahead(s, b) - {a});
  }

  /** A nonempty set has a last member. */
  lemma {:induction false} LastMember(s: map<Member, int>, among: set<Member>) returns (last: Member)
    requires among != {} && among <= s.Keys
    ensures last in among && forall a :: a in among && a != last ==> Before(s, a, last)
    decreases |among|
  {
    var m :| m in among;
    last := m;
    if among != {m} {
      var rest := LastMember(s, among - {m});
      NamesOrdered(m, rest);
      if Before(s, rest, m) {
        forall a | a in among && a != m ensures Before(s, a, m) {
          assert a == rest || a in among - {m};
          if a != rest && s[a] == s[rest] == s[m] {
            NamesTransitive(a, rest, m);
          }
        }
      } else {
        last := rest;
      }
    }
  }

  function Admitted(s: map<Member, int>, among: set<Member>, w: int): set<Member> {
    set m | m in among && Rank(s, m) < w
  }

  /** Admission is a prefix of the set's order … */
  lemma AdmittedIsPrefix(s: map<Member, int>, a: Member, b: Member, w: int)
    requires Before(s, a, b) && Rank(s, b) < w
    ensures Rank(s, a) < w
  {
    RankGrows(s, a, b);
  }

  /** … of exactly w members, or all of them if there are fewer. */
  lemma AdmittedCount(s: map<Member, int>, w: nat)
    ensures |Admitted(s, s.Keys, w)| == Min(w, |s|)
  {
    CountAmong(s, s.Keys, w);
    assert |s| == |s.Keys|;
  }

  lemma {:induction false} CountAmong(s: map<Member, int>, among: set<Member>, w: nat)
    requires among <= s.Keys && forall a, m :: m in among && Before(s, a, m) ==> a in among
    ensures |Admitted(s, among, w)| == Min(w, |among|)
    decreases |among|
  {
    if among == {} {
      assert Admitted(s, among, w) == {};
    } else {
      var last := LastMember(s, among);
      var rest := among - {last};
      NamesOrdered(last, last);
      assert Ahead(s, last) == rest;
      forall a, m | m in rest && Before(s, a, m) ensures a in rest {
        if a == last {
          RankGrows(s, a, m);
          RankGrows(s, m, last);
        }
      }
      CountAmong(s, rest, w);
      assert Admitted(s, among, w) == Admitted(s, rest, w) + if |rest| < w then {last} else {};
    }
  }

  /** Admission goes by entry time: with a client every client that entered earlier is admitted, and of clients that
      entered at one time, those with lesser names. */
  lemma EarlierIsAdmitted(s: map<Member, int>, a: Member, b: Member, w: int)
    requires a in s && b in s && b in Admitted(s, s.Keys, w)
    requires s[a] < s[b] || (s[a] == s[b] && exists k: nat :: DiffersAt(a, b, k))
    ensures a in Admitted(s, s.Keys, w)
  {
    NameLessIff(a, b);
    AdmittedIsPrefix(s, a, b, w);
  }

  function Ceil(x: real): int {
    -((-x).Floor)
  }

  /** The given share of a window of size w, rounded up. */
  function ShareOf(share: real, w: int): int {
    Ceil(share * w as real)
  }

  /** What feedback makes of a window of size w over a queue of the given size: grow by the shortfall if the queue is
      longer than that, shrink by the excess but at most by half. */
  function Resized(w: int, size: int, util: real): int {
    if util < 1.0 then
      var grown := w + ShareOf(1.2 - util, w);
      if size > grown then grown else w
    else if util > 1.2 then
      w - Min(ShareOf(util - 1.2, w), w / 2)
    else w
  }

  /** From at least 1 a window stays at least 1: it shrinks to no less than half, rounded up; it grows by at least
      one, to less than the queue's size; and in between it stays. */
  lemma ResizedBounds(w: int, size: int, util: real)
    requires w >= 1
    ensures Resized(w, size, util) >= 1
    ensures util < 1.0 ==> Resized(w, size, util) == w || w < Resized(w, size, util) < size
    ensures 1.0 <= util <= 1.2 ==> Resized(w, size, util) == w
    ensures util > 1.2 ==> (w + 1) / 2 <= Resized(w, size, util) <= w
    ensures util > 1.2 && w >= 2 ==> Resized(w, size, util) < w
  {
    var r := w as real;
    if util < 1.0 {
      Positive(1.2 - util, r);
    } else if util > 1.2 {
      Positive(util - 1.2, r);
    }
  }

  /** A share is rounded up to the next whole number. */
  lemma ShareExact(share: real, w: int, k: int)
    ensures ShareOf(share, w) <= k <==> share * w as real <= k as real
  {
  }

  /** How much a window of size w is resized: below a utilization of 1.0 it grows by the shortfall to 1.2, rounded up,
      if the queue is longer than the result; above 1.2 it shrinks by the excess, rounded up, or by half of it, rounded
      down, if that is less. `step` is the rounded amount. */
  lemma ResizedExact(w: int, size: int, util: real, step: int)
    requires w >= 1
    requires var amount := (if util < 1.0 then 1.2 - util else util - 1.2) * w as real;
      (step - 1) as real < amount <= step as real
    ensures util < 1.0 ==> Resized(w, size, util) == if size > w + step then w + step else w
    ensures util > 1.2 ==> Resized(w, size, util) == if 2 * step <= w then w - step else (w + 1) / 2
  {
    var share := if util < 1.0 then 1.2 - util else util - 1.2;
    ShareExact(share, w, step);
    ShareExact(share, w, step - 1);
    assert ShareOf(share, w) == step;
  }

  lemma Positive(x: real, y: real)
    requires x > 0.0 && y > 0.0
    ensures x * y > 0.0 && Ceil(x * y) >= 1
  {
  }

  class SortedSetQueue {
    const minWindowSize: int
    var windowSize: int
    var members: map<Member, int>

    ghost predicate Valid()
      reads this
    {
      minWindowSize >= 1 && windowSize >= 1
    }

    constructor (windowSize: int)
      requires windowSize >= 1
      ensures Valid() && this.windowSize == minWindowSize == windowSize && members == map[]
    {
      minWindowSize, this.windowSize, members := windowSize, windowSize, map[];
    }

    /** `ZADD NX`: a member already there keeps its entry time. */
    method Add(name: Member, entryTime: int)
      modifies this`members
      ensures members == if name in old(members) then old(members) else old(members)[name := entryTime]
    {
      if name !in members {
        members := members[name := entryTime];
      }
    }

    method Remove(name: Member)
      modifies this`members
      ensures members == old(members) - {name}
    {
      members := members - {name};
    }

    /** Asking about a client that is not in the set is an error, and the source panics. */
    method IsCandidateToProceed(name: Member) returns (candidate: Option<bool>)
      ensures candidate == if name in members then Some(name in Admitted(members, members.Keys, windowSize)) else None
    {
      if name !in members {
        return None;
      }
      var rank := |set a | a in members && Before(members, a, name)|;
      assert Rank(members, name) == rank;
      candidate := Some(rank < windowSize);
    }

    method ReceiveTrackerFeedback(shouldIgnore: bool, util: real)
      requires Valid()
      modifies this`windowSize
      ensures Valid()
      ensures windowSize == if shouldIgnore then old(windowSize) else Resized(old(windowSize), |members|, util)
    {
      if shouldIgnore {
        return;
      }
      hide ShareOf, LesserFloor;
      ResizedBounds(windowSize, |members|, util);
      if util < 1.0 {
        var diff := ShareOf(1.2 - util, windowSize);
        if |members| > windowSize + diff {
          windowSize := windowSize + diff;
        }
      } else if util > 1.2 {
        var diff := ShareOf(util - 1.2, windowSize);
        HalfFloor(windowSize, diff);
        var shrunk := windowSize - LesserFloor(diff, 0.5 * windowSize as real);
        assert shrunk >= 1;  // so the reset never happens
        windowSize := if shrunk <= 0 then minWindowSize else shrunk;
      }
    }

    method Clear()
      modifies this`members
      ensures members == map[]
    {
      members := map[];
    }
  }

  /** `int64(math.Min(diff, half))` */
  function LesserFloor(diff: int, half: real): int {
    if diff as real < half then diff else half.Floor
  }

  lemma HalfFloor(w: int, diff: int)
    requires w >= 1
    ensures LesserFloor(diff, 0.5 * w as real) == Min(diff, w / 2)
  {
    assert w == 2 * (w / 2) + w % 2;
    assert (0.5 * w as real).Floor == w / 2;
  }
}
