/** The upload slots of the admin media form: ordered lists of
    `{id, file, preview}` records keyed by a locally generated id. */
module Slots {
  import opened Net

  /** A file picked in a browser file input; only its identity matters. */
  datatype Media = Media(handle: nat)

  /** An object URL the browser issued for a picked file. */
  type Preview = string

  /** One slot. Work-image slots carry a preview (`P = Option<Preview>`);
      work-video slots carry none (`P = ()`). */
  datatype Slot<+P> = Slot(id: nat, file: Option<Media>, preview: P)

  type ImageSlot = Slot<Option<Preview>>
  type VideoSlot = Slot<()>

  /** Every id in the list is below `bound` (the form's next free id). */
  predicate IdsBelow<P>(slots: seq<Slot<P>>, bound: nat) {
    forall k :: 0 <= k < |slots| ==> slots[k].id < bound
  }

  /** Ids strictly increase along the list; in particular no id occurs twice. */
  predicate Increasing<P>(slots: seq<Slot<P>>) {
    forall i, j :: 0 <= i < j < |slots| ==> slots[i].id < slots[j].id
  }

  /** Some slot of the list has id `id`. */
  predicate HasId<P>(slots: seq<Slot<P>>, id: nat) {
    exists k :: 0 <= k < |slots| && slots[k].id == id
  }

  /** The list after a slot with a fresh id `next` and no file is appended. */
  function Appended<P>(slots: seq<Slot<P>>, next: nat, blank: P): (r: seq<Slot<P>>)
    ensures |r| == |slots| + 1 && r[..|slots|] == slots
    ensures r[|slots|] == Slot(next, None, blank)
    ensures IdsBelow(slots, next) && Increasing(slots) ==> IdsBelow(r, next + 1) && Increasing(r)
  {
    slots + [Slot(next, None, blank)]
  }

  /** The list without the slots whose id is `id` (a `filter` on `id !== id`). */
  function RemoveById<P>(slots: seq<Slot<P>>, id: nat): (r: seq<Slot<P>>)
    ensures |r| <= |slots|
    ensures forall k :: 0 <= k < |r| ==> r[k] in slots && r[k].id != id
    ensures forall k :: 0 <= k < |slots| && slots[k].id != id ==> slots[k] in r
  {
    if slots == [] then []
    else if slots[0].id == id then RemoveById(slots[1..], id)
    else [slots[0]] + RemoveById(slots[1..], id)
  }

  /** The list with the file `f` and preview `p` written into every slot whose
      id is `id` (a `map` that spreads the matching record). */
  function SetFileById<P>(slots: seq<Slot<P>>, id: nat, f: Media, p: P): (r: seq<Slot<P>>)
    ensures |r| == |slots|
    ensures forall k :: 0 <= k < |slots| ==> r[k].id == slots[k].id
    ensures forall k :: 0 <= k < |slots| && slots[k].id != id ==> r[k] == slots[k]
    ensures forall k :: 0 <= k < |slots| && slots[k].id == id ==> r[k].file == Some(f) && r[k].preview == p
  {
    if slots == [] then []
    else
      var head := if slots[0].id == id then slots[0].(file := Some(f), preview := p) else slots[0];
      [head] + SetFileById(slots[1..], id, f, p)
  }

  /** Filtering distributes over concatenation: the kept slots stay in their
      original order. */
  lemma {:induction false} RemoveConcat<P>(a: seq<Slot<P>>, b: seq<Slot<P>>, id: nat)
    ensures RemoveById(a + b, id) == RemoveById(a, id) + RemoveById(b, id)
  {
    if a == [] {
      assert a + b == b;
    } else {
      assert (a + b)[1..] == a[1..] + b;
      RemoveConcat(a[1..], b, id);
    }
  }

  /** Removing an id that no slot has changes nothing. */
  lemma {:induction false} RemoveAbsent<P>(slots: seq<Slot<P>>, id: nat)
    requires !HasId(slots, id)
    ensures RemoveById(slots, id) == slots
  {
    if slots != [] {
      assert slots[0].id != id;
      assert !HasId(slots[1..], id) by {
        forall k | 0 <= k < |slots[1..]| ensures slots[1..][k].id != id {
          assert slots[1..][k] == slots[k + 1];
        }
      }
      RemoveAbsent(slots[1..], id);
      assert slots == [slots[0]] + slots[1..];
    }
  }

  /** Removing keeps a lower bound on the ids. */
  lemma {:induction false} RemoveKeepsAbove<P>(slots: seq<Slot<P>>, id: nat, bound: int)
    requires forall k :: 0 <= k < |slots| ==> bound < slots[k].id
    ensures forall k :: 0 <= k < |RemoveById(slots, id)| ==> bound < RemoveById(slots, id)[k].id
  {
    if slots != [] {
      RemoveKeepsAbove(slots[1..], id, bound);
    }
  }

  /** Removing keeps the ids strictly increasing. */
  lemma {:induction false} RemoveKeepsIncreasing<P>(slots: seq<Slot<P>>, id: nat)
    requires Increasing(slots)
    ensures Increasing(RemoveById(slots, id))
  {
    if slots != [] {
      var tail := slots[1..];
      RemoveKeepsIncreasing(tail, id);
      if slots[0].id != id {
        var rest := RemoveById(tail, id);
        RemoveKeepsAbove(tail, id, slots[0].id);
        var r := [slots[0]] + rest;
        assert forall j :: 0 < j < |r| ==> r[j] == rest[j - 1];
      }
    }
  }

  /** In a list without repeated ids, removing the id of slot `k` deletes
      exactly that slot and keeps the others in order. */
  lemma {:induction false} RemoveUnique<P>(slots: seq<Slot<P>>, k: nat)
    requires Increasing(slots) && k < |slots|
    ensures RemoveById(slots, slots[k].id) == slots[..k] + slots[k + 1..]
  {
    var id := slots[k].id;
    var before, after := slots[..k], slots[k + 1..];
    assert !HasId(before, id);
    assert !HasId(after, id) by {
      forall m | 0 <= m < |after| ensures after[m].id != id {
        assert after[m] == slots[k + 1 + m];
      }
    }
    calc {
      RemoveById(slots, id);
      { assert slots == before + ([slots[k]] + after); }
      RemoveById(before + ([slots[k]] + after), id);
      { RemoveConcat(before, [slots[k]] + after, id); }
      RemoveById(before, id) + RemoveById([slots[k]] + after, id);
      { RemoveAbsent(before, id); assert ([slots[k]] + after)[1..] == after; }
      before + RemoveById(after, id);
      { RemoveAbsent(after, id); }
      before + after;
    }
  }

  /** Setting a file for an id that no slot has changes nothing. */
  lemma SetFileAbsent<P>(slots: seq<Slot<P>>, id: nat, f: Media, p: P)
    requires !HasId(slots, id)
    ensures SetFileById(slots, id, f, p) == slots
  {
  }

  /** In a list without repeated ids, setting the file of slot `k` replaces
      that one slot and leaves every other slot as it was. */
  lemma SetFileUnique<P>(slots: seq<Slot<P>>, k: nat, f: Media, p: P)
    requires Increasing(slots) && k < |slots|
    ensures SetFileById(slots, slots[k].id, f, p) == slots[k := Slot(slots[k].id, Some(f), p)]
  {
  }

  /** Setting a file keeps the ids, so it keeps both slot-list invariants. */
  lemma SetFileKeepsInvariant<P>(slots: seq<Slot<P>>, id: nat, f: Media, p: P, bound: nat)
    requires Increasing(slots) && IdsBelow(slots, bound)
    ensures Increasing(SetFileById(slots, id, f, p)) && IdsBelow(SetFileById(slots, id, f, p), bound)
  {
  }
}
