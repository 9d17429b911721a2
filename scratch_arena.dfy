// The per-functor scratch arena: one buffer with a capacity and a cursor.
// `Rewind` resets the cursor, `GrowSize` enlarges the capacity, and
// `Scratch` hands out the next `size` bytes as a view and advances the
// cursor, so views handed out between two rewinds never overlap.

module ScratchArena {

  /** A byte range of the arena: what a BufferSlice covers. */
  datatype View = View(offset: nat, size: nat)

  predicate Disjoint(u: View, v: View)
  {
    u.offset + u.size <= v.offset || v.offset + v.size <= u.offset
  }

  function Sum(sizes: seq<nat>): nat
  {
    if sizes == [] then 0 else sizes[0] + Sum(sizes[1..])
  }

  /** The views that successive `Scratch` calls carve from a cursor at `start`. */
  function Carve(sizes: seq<nat>, start: nat): seq<View>
    decreases |sizes|
  {
    if sizes == [] then []
    else [View(start, sizes[0])] + Carve(sizes[1..], start + sizes[0])
  }

  /**
   * Carved views have their requested sizes, follow one another in order
   * without overlap, and together stay inside [start, start + Sum(sizes)).
   */
  lemma {:induction false} CarveLayout(sizes: seq<nat>, start: nat)
    ensures var vs := Carve(sizes, start);
      |vs| == |sizes| &&
      (forall i :: 0 <= i < |vs| ==>
        vs[i].size == sizes[i] && start <= vs[i].offset && vs[i].offset + vs[i].size <= start + Sum(sizes)) &&
      (forall i, j :: 0 <= i < j < |vs| ==> vs[i].offset + vs[i].size <= vs[j].offset) &&
      (forall i, j :: 0 <= i < |vs| && 0 <= j < |vs| && i != j ==> Disjoint(vs[i], vs[j]))
    decreases |sizes|
  {
    var vs := Carve(sizes, start);
    if sizes != [] {
      var next := start + sizes[0];
      var rest := Carve(sizes[1..], next);
      CarveLayout(sizes[1..], next);
      assert vs == [View(start, sizes[0])] + rest;
      assert Sum(sizes) == sizes[0] + Sum(sizes[1..]);
      forall i | 0 <= i < |vs|
        ensures vs[i].size == sizes[i] && start <= vs[i].offset && vs[i].offset + vs[i].size <= start + Sum(sizes)
      {
        if i > 0 {
          assert vs[i] == rest[i - 1];
        }
      }
      forall i, j | 0 <= i < j < |vs|
        ensures vs[i].offset + vs[i].size <= vs[j].offset
      {
        assert vs[j] == rest[j - 1];
        if i > 0 {
          assert vs[i] == rest[i - 1];
        }
      }
    }
  }

  class ScratchBuffer {
    var capacity: nat
    var offset: nat

    ghost predicate Valid()
      reads this
    {
      offset <= capacity
    }

    constructor ()
      ensures Valid() && capacity == 0 && offset == 0
    {
      capacity, offset := 0, 0;
    }

    /** Rewind(): every earlier view is given up; the capacity stays. */
    method Rewind()
      requires Valid()
      modifies this
      ensures Valid() && offset == 0 && capacity == old(capacity)
    {
      offset := 0;
    }

    /** GrowSize(size): the capacity becomes at least `size`; it never shrinks. */
    method GrowSize(size: nat)
      requires Valid()
      modifies this
      ensures Valid() && offset == old(offset)
      ensures capacity >= size && capacity >= old(capacity)
      ensures capacity == old(capacity) || capacity == size
    {
      if size > capacity {
        capacity := size;
      }
    }

    /** Scratch(size): the next `size` bytes after the cursor. */
    method Scratch(size: nat) returns (v: View)
      requires Valid() && offset + size <= capacity
      modifies this
      ensures Valid() && capacity == old(capacity)
      ensures v == View(old(offset), size) && offset == old(offset) + size
    {
      v := View(offset, size);
      offset := offset + size;
    }
  }
}
