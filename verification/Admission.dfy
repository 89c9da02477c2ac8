/** What all bin queues have in common: arrivals are stamped with bins, and those up to a working bin may proceed. */
module Admission {

  /** The stamps in order of arrival since the last Clear, and the last bin that may proceed. */
  datatype Line = Line(stamps: seq<int>, working: int)

  predicate Admits(l: Line, i: nat)
    requires i < |l.stamps|
  {
    l.stamps[i] <= l.working
  }

  /** No later arrival has an earlier bin. */
  ghost predicate Orderly(l: Line) {
    forall i, j :: 0 <= i <= j < |l.stamps| ==> l.stamps[i] <= l.stamps[j]
  }

  /** Nobody's stamp changes, and the working bin does not move back. */
  ghost predicate MovesOn(l: Line, l': Line) {
    |l.stamps| <= |l'.stamps| && l.working <= l'.working
    && forall i :: 0 <= i < |l.stamps| ==> l'.stamps[i] == l.stamps[i]
  }

  lemma MovesOnTwice(l: Line, mid: Line, l': Line)
    requires MovesOn(l, mid) && MovesOn(mid, l')
    ensures MovesOn(l, l')
  {
  }

  /** Who may proceed still may later on, and so may everyone who came before. */
  lemma AdmittedStay(l: Line, l': Line, i: nat, j: nat)
    requires Orderly(l) && MovesOn(l, l') && i <= j < |l.stamps| && Admits(l, j)
    ensures Admits(l', i)
  {
    assert l.stamps[i] <= l.stamps[j];
  }
}
