/** The collision registry: a map from a body to the one partner it was last
    reported with. The tree fills it while it is built; the simulation step
    drains it. The source keeps it as a static map; here it is an object owned
    by the universe and handed to the tree. */
module Collisions {
  import opened Bodies

  /** One notification: `first` already sat in a quadrant too small to split,
      `second` is the body that arrived there. */
  datatype Pair = Pair(first: Body, second: Body)

  /** The map after recording `notes` in order on top of `m`, each with
      `put(first, second)`. */
  function ApplyNotes(m: map<Body, Body>, notes: seq<Pair>): (r: map<Body, Body>)
    ensures r.Keys == m.Keys + (set n | n in notes :: n.first)
    decreases |notes|
  {
    if notes == [] then m
    else
      var last := notes[|notes| - 1];
      ApplyNotes(m, notes[..|notes| - 1])[last.first := last.second]
  }

  /** Recording two batches one after the other is recording their
      concatenation. */
  lemma {:induction false} ApplyNotesAppend(m: map<Body, Body>, a: seq<Pair>, b: seq<Pair>)
    ensures ApplyNotes(ApplyNotes(m, a), b) == ApplyNotes(m, a + b)
    decreases |b|
  {
    if b == [] {
      assert a + b == a;
    } else {
      ApplyNotesAppend(m, a, b[..|b| - 1]);
      assert (a + b)[..|a + b| - 1] == a + b[..|b| - 1];
      assert (a + b)[|a + b| - 1] == b[|b| - 1];
    }
  }

  /** A later pair for the same body overwrites the earlier one: the partner
      recorded for a body is the one from its latest notification, and a body
      that was never reported keeps what `m` had. */
  lemma {:induction false} LatestPartnerWins(m: map<Body, Body>, notes: seq<Pair>, i: nat)
    requires i < |notes|
    requires forall j :: i < j < |notes| ==> notes[j].first != notes[i].first
    ensures notes[i].first in ApplyNotes(m, notes)
    ensures ApplyNotes(m, notes)[notes[i].first] == notes[i].second
    decreases |notes|
  {
    var prefix := notes[..|notes| - 1];
    if i < |notes| - 1 {
      assert notes[|notes| - 1].first != notes[i].first;
      assert prefix[i] == notes[i];
      LatestPartnerWins(m, prefix, i);
    }
  }

  lemma {:induction false} UnreportedKeepsPartner(m: map<Body, Body>, notes: seq<Pair>, b: Body)
    requires b in m
    requires forall j :: 0 <= j < |notes| ==> notes[j].first != b
    ensures b in ApplyNotes(m, notes) && ApplyNotes(m, notes)[b] == m[b]
    decreases |notes|
  {
    if notes != [] {
      UnreportedKeepsPartner(m, notes[..|notes| - 1], b);
    }
  }

  /** Every body a registry mentions, as a key or as a partner. */
  ghost function Involved(m: map<Body, Body>): set<Body> {
    m.Keys + m.Values
  }

  /** Recording notes brings in only the bodies the notes name. */
  lemma {:induction false} ApplyNotesInvolved(m: map<Body, Body>, notes: seq<Pair>, allowed: set<Body>)
    requires forall n :: n in notes ==> n.first in allowed && n.second in allowed
    ensures Involved(ApplyNotes(m, notes)) <= Involved(m) + allowed
    decreases |notes|
  {
    if notes != [] {
      var init, last := notes[..|notes| - 1], notes[|notes| - 1];
      assert forall n :: n in init ==> n in notes;
      ApplyNotesInvolved(m, init, allowed);
      var before := ApplyNotes(m, init);
      assert ApplyNotes(m, notes).Values <= before.Values + {last.second};
    }
  }

  class CollisionRegistry {
    var pairs: map<Body, Body>

    constructor ()
      ensures pairs == map[]
    {
      pairs := map[];
    }

    /** notifyCollision: b1 is mapped to b2, replacing any earlier partner. */
    method Notify(b1: Body, b2: Body)
      modifies this`pairs
      ensures pairs == ApplyNotes(old(pairs), [Pair(b1, b2)])
      ensures b1 in pairs && pairs[b1] == b2
    {
      pairs := pairs[b1 := b2];
    }

    method Clear()
      modifies this`pairs
      ensures pairs == map[]
    {
      pairs := map[];
    }
  }
}
