/** The participant list of a call (App.tsx and components/VideoGrid.tsx): which tiles are
    the local user's ("self") and what the list looks like without them. */
module Roster {
  import opened Wrappers
  import opened Types

  /** How many tiles are marked as the local user. */
  function CountSelf(ps: seq<Participant>): (n: nat)
    ensures n <= |ps|
    ensures |ps| == 1 ==> n == (if ps[0].isSelf then 1 else 0)
  {
    if ps == [] then 0 else (if ps[0].isSelf then 1 else 0) + CountSelf(ps[1..])
  }

  /** Self tiles of two lists placed one after the other add up. */
  lemma {:induction false} CountSelfAppend(a: seq<Participant>, b: seq<Participant>)
    ensures CountSelf(a + b) == CountSelf(a) + CountSelf(b)
  {
    if a == [] {
      assert a + b == b;
    } else {
      assert (a + b)[0] == a[0] && (a + b)[1..] == a[1..] + b;
      CountSelfAppend(a[1..], b);
    }
  }

  lemma {:induction false} NoSelfCountZero(ps: seq<Participant>)
    requires forall i :: 0 <= i < |ps| ==> !ps[i].isSelf
    ensures CountSelf(ps) == 0
  {
    if ps != [] {
      NoSelfCountZero(ps[1..]);
    }
  }

  /** `ps.filter(p => !p.isSelf)`: the other participants, in their order. */
  function RemoveSelf(ps: seq<Participant>): (r: seq<Participant>)
    ensures forall p :: p in r ==> p in ps && !p.isSelf
    ensures forall p :: p in ps && !p.isSelf ==> p in r
    ensures |r| == |ps| - CountSelf(ps)
    ensures CountSelf(r) == 0
    ensures |ps| == 1 ==> r == (if ps[0].isSelf then [] else ps)
  {
    if ps == [] then []
    else if ps[0].isSelf then RemoveSelf(ps[1..])
    else
      var rest := RemoveSelf(ps[1..]);
      assert ([ps[0]] + rest)[1..] == rest;
      [ps[0]] + rest
  }

  /** `filter` keeps order and repetitions: filtering `a + b` is filtering `a`, then `b`. */
  lemma {:induction false} RemoveSelfAppend(a: seq<Participant>, b: seq<Participant>)
    ensures RemoveSelf(a + b) == RemoveSelf(a) + RemoveSelf(b)
  {
    if a == [] {
      assert a + b == b;
    } else {
      assert (a + b)[0] == a[0] && (a + b)[1..] == a[1..] + b;
      RemoveSelfAppend(a[1..], b);
    }
  }

  /** A list without a self tile is left as it is. */
  lemma {:induction false} RemoveSelfNoSelf(ps: seq<Participant>)
    requires CountSelf(ps) == 0
    ensures RemoveSelf(ps) == ps
  {
    if ps != [] {
      RemoveSelfNoSelf(ps[1..]);
      assert ps == [ps[0]] + ps[1..];
    }
  }

  lemma RemoveSelfIdempotent(ps: seq<Participant>)
    ensures RemoveSelf(RemoveSelf(ps)) == RemoveSelf(ps)
  {
    RemoveSelfNoSelf(RemoveSelf(ps));
  }

  /** `qs` is `ps` with only self tiles edited, each staying a self tile. */
  predicate SameOthers(ps: seq<Participant>, qs: seq<Participant>)
  {
    |qs| == |ps|
    && forall i :: 0 <= i < |ps| ==> qs[i].isSelf == ps[i].isSelf && (!ps[i].isSelf ==> qs[i] == ps[i])
  }

  /** Editing only self tiles leaves the other participants, and the number of self tiles, as they were. */
  lemma {:induction false} SameOthersKeepRoster(ps: seq<Participant>, qs: seq<Participant>)
    requires SameOthers(ps, qs)
    ensures RemoveSelf(qs) == RemoveSelf(ps)
    ensures CountSelf(qs) == CountSelf(ps)
  {
    if ps != [] {
      assert SameOthers(ps[1..], qs[1..]) by {
        forall i | 0 <= i < |ps| - 1 ensures qs[1..][i].isSelf == ps[1..][i].isSelf {
          assert qs[1..][i] == qs[i + 1] && ps[1..][i] == ps[i + 1];
        }
      }
      SameOthersKeepRoster(ps[1..], qs[1..]);
      assert qs[0].isSelf == ps[0].isSelf;
    }
  }

  /** Index of `ps.find(p => p.isSelf)`: the first self tile. */
  function SelfIndex(ps: seq<Participant>): (r: Option<nat>)
    ensures r.None? <==> forall i :: 0 <= i < |ps| ==> !ps[i].isSelf
    ensures r.Some? ==> r.value < |ps| && ps[r.value].isSelf
                        && forall j :: 0 <= j < r.value ==> !ps[j].isSelf
  {
    if ps == [] then None
    else if ps[0].isSelf then Some(0)
    else
      match SelfIndex(ps[1..])
      case None => None
      case Some(i) => Some(i + 1)
  }

  /** `localParticipant` (App.tsx:46). */
  function LocalParticipant(ps: seq<Participant>): (r: Option<Participant>)
    ensures r.None? <==> forall p :: p in ps ==> !p.isSelf
    ensures r.Some? ==> exists i :: 0 <= i < |ps| && r.value == ps[i] && ps[i].isSelf
                                    && forall j :: 0 <= j < i ==> !ps[j].isSelf
  {
    match SelfIndex(ps)
    case None => None
    case Some(i) => Some(ps[i])
  }

  lemma {:induction false} OneSelfCount(ps: seq<Participant>, j: nat)
    requires j < |ps| && ps[j].isSelf
    ensures CountSelf(ps) >= 1
  {
    if j > 0 {
      OneSelfCount(ps[1..], j - 1);
    }
  }

  lemma {:induction false} TwoSelvesCount(ps: seq<Participant>, i: nat, j: nat)
    requires i < j < |ps| && ps[i].isSelf && ps[j].isSelf
    ensures CountSelf(ps) >= 2
  {
    if i == 0 {
      OneSelfCount(ps[1..], j - 1);
    } else {
      TwoSelvesCount(ps[1..], i - 1, j - 1);
    }
  }

  /** With at most one self tile counted, no two positions hold self tiles. */
  lemma AtMostOneSelf(ps: seq<Participant>)
    requires CountSelf(ps) <= 1
    ensures forall i, j :: 0 <= i < |ps| && 0 <= j < |ps| && ps[i].isSelf && ps[j].isSelf ==> i == j
  {
    forall i, j | 0 <= i < |ps| && 0 <= j < |ps| && ps[i].isSelf && ps[j].isSelf
      ensures i == j
    {
      if i < j {
        TwoSelvesCount(ps, i, j);
      } else if j < i {
        TwoSelvesCount(ps, j, i);
      }
    }
  }

  /** `participants.some(p => p.isSelf && p.isScreenSharing)` (App.tsx:139). */
  predicate SelfSharing(ps: seq<Participant>)
  {
    exists i :: 0 <= i < |ps| && ps[i].isSelf && ps[i].isScreenSharing
  }

  /** `localParticipant?.isScreenSharing` (App.tsx:102,218): only the FIRST self tile is looked at. */
  predicate LocalSharing(ps: seq<Participant>)
  {
    LocalParticipant(ps).Some? && LocalParticipant(ps).value.isScreenSharing
  }

  /** The two ways App.tsx asks "am I sharing my screen?" agree while there is at most one self tile. */
  lemma SharingViewsAgree(ps: seq<Participant>)
    requires CountSelf(ps) <= 1
    ensures SelfSharing(ps) <==> LocalSharing(ps)
  {
    AtMostOneSelf(ps);
    if SelfSharing(ps) {
      var i :| 0 <= i < |ps| && ps[i].isSelf && ps[i].isScreenSharing;
      assert SelfIndex(ps).value == i;
    }
  }
}
