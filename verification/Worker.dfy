/**
 The owner's handle of src/lib.rs between thief steps: real arrays, wrapping indices, the copy
 loop. Every operation refines one operation on a plain sequence.
 */
module SequentialWorker {
  import opened Numbers
  import opened Isize
  import opened ChaseLev

  datatype Result = Empty | Success(id: nat)

  function View(cells: array<Ptr>): (buf: Buffer)
    reads cells
    ensures |buf.cells| == cells.Length
  {
    Buffer(cells[..])
  }

  /** `Buffer::resized`: copy the live cells, counted by the wrapped distance, into a new array. */
  method CopyLive(cells: array<Ptr>, newCap: nat, bottom: ISize, top: ISize) returns (other: array<Ptr>)
    requires IsCap(cells.Length) && cells.Length > 0 && IsCap(newCap) && newCap > 0
    requires 0 <= WrappingSub(bottom, top) as int <= newCap - 1
    ensures fresh(other) && other.Length == newCap
    ensures View(other) == Resized(View(cells), newCap, top as int + WrappingSub(bottom, top) as int, top as int)
  {
    var count := WrappingSub(bottom, top);
    other := new Ptr[newCap](i => Null);
    assert View(other) == Alloc(newCap);
    var k: ISize := 0;
    while k < count
      invariant 0 <= k <= count
      invariant View(other) == CopiedFrom(View(cells), newCap, top as int, k as int)
    {
      var i := WrappingAdd(top, k);
      SlotOfWrap(top as int + k as int, cells.Length);
      SlotOfWrap(top as int + k as int, newCap);
      other[Slot(i, newCap)] := cells[Slot(i, cells.Length)];
      k := k + 1;
    }
  }

  function IdOf(p: Ptr): nat {
    if p.Box? then p.id else 0
  }

  /** The cell `k` places after logical index `t`. */
  function At(buf: Buffer, t: int, k: int): Ptr
    requires |buf.cells| > 0
  {
    Cell(buf, t + k)
  }

  /** The boxes behind `n` logical indices from `t` on. */
  function Elements(buf: Buffer, t: int, n: nat): (q: seq<nat>)
    requires |buf.cells| > 0
    ensures |q| == n
  {
    if n == 0 then [] else Elements(buf, t, n - 1) + [IdOf(At(buf, t, n - 1))]
  }

  ghost predicate Filled(buf: Buffer, t: int, n: nat) {
    |buf.cells| > 0 && forall k :: 0 <= k < n ==> At(buf, t, k).Box?
  }

  ghost predicate Agree(buf: Buffer, t: int, other: Buffer, u: int, n: nat) {
    |buf.cells| > 0 && |other.cells| > 0 && forall k :: 0 <= k < n ==> At(buf, t, k) == At(other, u, k)
  }

  lemma {:induction false} AgreeElements(buf: Buffer, t: int, other: Buffer, u: int, n: nat)
    requires Agree(buf, t, other, u, n)
    ensures Elements(buf, t, n) == Elements(other, u, n)
    ensures Filled(buf, t, n) ==> Filled(other, u, n)
  {
    if n > 0 {
      AgreeElements(buf, t, other, u, n - 1);
    }
  }

  lemma {:induction false} FirstElement(buf: Buffer, t: int, n: nat)
    requires |buf.cells| > 0 && n > 0
    ensures Elements(buf, t, n) == [IdOf(Cell(buf, t))] + Elements(buf, t + 1, n - 1)
    ensures Filled(buf, t, n) ==> Filled(buf, t + 1, n - 1) && Cell(buf, t).Box?
  {
    if n > 1 {
      FirstElement(buf, t, n - 1);
      assert At(buf, t, n - 1) == At(buf, t + 1, n - 2);
    } else {
      assert At(buf, t, 0) == Cell(buf, t);
    }
  }

  lemma OldestElement(buf: Buffer, t: ISize, n: nat)
    requires IsCap(|buf.cells|) && Filled(buf, t as int, n) && n > 0
    ensures var p := buf.cells[Slot(t, |buf.cells|)];
      p.Box? && Elements(buf, t as int, n) == [p.id] + Elements(buf, WrappingAdd(t, 1) as int, n - 1)
    ensures Filled(buf, WrappingAdd(t, 1) as int, n - 1)
  {
    OldestSlot(buf, t);
    FirstElement(buf, t as int, n);
    SameElements(buf, t as int + 1, n - 1);
  }

  lemma YoungestElement(buf: Buffer, t: ISize, n: nat)
    requires IsCap(|buf.cells|) && Filled(buf, t as int, n) && n > 0
    ensures var p := buf.cells[Slot(Wrap(t as int + n - 1), |buf.cells|)];
      p.Box? && Elements(buf, t as int, n) == Elements(buf, t as int, n - 1) + [p.id]
  {
    SlotOfWrap(t as int + n - 1, |buf.cells|);
    assert At(buf, t as int, n - 1).Box?;
  }

  /** One element more behind the first `n`, and it is the one `p` points to. */
  ghost predicate Appends(buf: Buffer, t: int, n: nat, p: Ptr) {
    |buf.cells| > 0 && p.Box? && Elements(buf, t, n + 1) == Elements(buf, t, n) + [p.id]
  }

  /** What the owner finds after lowering `bottom` by one, whether or not the deque was empty. */
  lemma LoweredBottom(buf: Buffer, bottom: ISize, t: ISize, cached: ISize)
    requires IsCap(|buf.cells|) && WrappingSub(bottom, t) >= 0
    requires WrappingSub(bottom, t) <= WrappingSub(bottom, cached) < 0x4000_0000_0000_0000
    requires Filled(buf, t as int, WrappingSub(bottom, t) as int)
    ensures var b, n := WrappingSub(bottom, 1), WrappingSub(bottom, t) as int;
      && WrappingSub(b, t) as int == n - 1
      && WrappingSub(b, cached) as int == WrappingSub(bottom, cached) as int - 1
      && (n == 0 ==> bottom == t)
      && (n == 1 ==> bottom == WrappingAdd(t, 1))
      && |buf.cells| > 0
      && (n > 0 ==> Filled(buf, t as int, n - 1))
      && (n > 0 ==> var p := buf.cells[Slot(b, |buf.cells|)]; Appends(buf, t as int, n - 1, p))
  {
    CapBounds(|buf.cells|);
    OneLess(bottom, t);
    OneLess(bottom, cached);
    if WrappingSub(bottom, t) > 0 {
      YoungestElement(buf, t, WrappingSub(bottom, t) as int);
    }
  }

  lemma OldestSlot(buf: Buffer, t: ISize)
    requires IsCap(|buf.cells|)
    ensures |buf.cells| > 0 && buf.cells[Slot(t, |buf.cells|)] == Cell(buf, t as int)
  {
    SlotOfWrap(t as int, |buf.cells|);
    assert Wrap(t as int) == t;
  }

  /** Resizing changes neither the elements nor whether they are there. */
  lemma ResizedElements(buf: Buffer, cap: nat, t: int, n: nat)
    requires Filled(buf, t, n) && 0 < cap && n <= cap
    ensures Filled(Resized(buf, cap, t + n, t), t, n)
    ensures Elements(Resized(buf, cap, t + n, t), t, n) == Elements(buf, t, n)
  {
    ResizedKeeps(buf, cap, t + n, t);
    AgreeElements(buf, t, Resized(buf, cap, t + n, t), t, n);
  }

  /** Storing a box just past the live range appends it. */
  lemma WriteAppends(buf: Buffer, t: int, n: nat, id: nat)
    requires Filled(buf, t, n) && n < |buf.cells|
    ensures Filled(Write(buf, t + n, Box(id)), t, n + 1)
    ensures Elements(Write(buf, t + n, Box(id)), t, n + 1) == Elements(buf, t, n) + [id]
  {
    var buf1 := Write(buf, t + n, Box(id));
    forall k | 0 <= k <= n
      ensures At(buf1, t, k) == if k == n then Box(id) else At(buf, t, k)
    {
      WriteHits(buf, t + n, Box(id), t + k);
    }
    AgreeElements(buf, t, buf1, t, n);
  }

  lemma SameCell(buf: Buffer, t: int, k: int)
    requires IsCap(|buf.cells|) && |buf.cells| > 0
    ensures At(buf, Wrap(t) as int, k) == At(buf, t, k)
  {
    var m := CapDividesWord(|buf.cells|);
    var q := WrapSplit(t);
    MulAssociates(|buf.cells|, m, q);
    ModShift(Wrap(t) as int + k, |buf.cells|, m * q);
  }

  /** Moving the origin by a whole word moves every index to the same cell. */
  lemma SameElements(buf: Buffer, t: int, n: nat)
    requires IsCap(|buf.cells|) && |buf.cells| > 0
    ensures Elements(buf, Wrap(t) as int, n) == Elements(buf, t, n)
    ensures Filled(buf, t, n) ==> Filled(buf, Wrap(t) as int, n)
  {
    forall k | 0 <= k < n
      ensures At(buf, Wrap(t) as int, k) == At(buf, t, k)
    {
      SameCell(buf, t, k);
    }
    AgreeElements(buf, t, buf, Wrap(t) as int, n);
  }

  ghost predicate NoRepeats(q: seq<array<Ptr>>) {
    forall i, j :: 0 <= i < j < |q| ==> q[i] != q[j]
  }

  /** No buffer is in two of the three places, or twice in one. */
  ghost predicate Apart(active: array<Ptr>, retired: seq<array<Ptr>>, freed: seq<array<Ptr>>) {
    && active !in retired && active !in freed
    && (forall a :: a in retired ==> a !in freed)
    && NoRepeats(retired) && NoRepeats(freed)
  }

  /** The buffer swapped out goes to the retired list, and from there to the freed ones. */
  lemma ApartRetired(active: array<Ptr>, gone: array<Ptr>, retired: seq<array<Ptr>>, freed: seq<array<Ptr>>)
    requires Apart(gone, retired, freed) && active != gone && active !in retired && active !in freed
    ensures Apart(active, [gone] + retired, freed)
    ensures Apart(active, [], freed + ([gone] + retired))
  {
    assert NoRepeats(freed + ([gone] + retired)) by {
      var all, list := freed + ([gone] + retired), [gone] + retired;
      forall i, j | 0 <= i < j < |all|
        ensures all[i] != all[j]
      {
        if i < |freed| <= j {
          assert list[j - |freed|] in list && freed[i] in freed;
        }
      }
    }
  }

  class Worker {
    var bottom: ISize
    var top: ISize
    var cachedTop: ISize
    var buffer: array<Ptr>
    var retired: seq<array<Ptr>>
    ghost var freed: seq<array<Ptr>>    // what try_reclaim has freed
    var inFlight: nat

    ghost predicate Valid()
      reads this, buffer
    {
      && IsCap(buffer.Length)
      && 0 <= WrappingSub(bottom, top) as int <= buffer.Length - 1
      && WrappingSub(bottom, top) <= WrappingSub(bottom, cachedTop)
      && WrappingSub(bottom, cachedTop) as int < HALF / 2
      && Filled(View(buffer), top as int, WrappingSub(bottom, top) as int)
      && Apart(buffer, retired, freed)
    }

    /** The elements, oldest first. */
    ghost function Contents(): (q: seq<nat>)
      requires Valid()
      reads this, buffer
      ensures |q| == WrappingSub(bottom, top) as int
    {
      Elements(View(buffer), top as int, WrappingSub(bottom, top) as int)
    }

    /** An empty deque with both indices at `start`. */
    constructor WithStartIndex(cap: nat, start: ISize)
      requires IsCap(cap) && cap > 0
      ensures Valid() && fresh(buffer) && Contents() == [] && buffer.Length == cap
      ensures retired == [] && freed == [] && inFlight == 0
    {
      bottom, top, cachedTop := start, start, start;
      buffer := new Ptr[cap](i => Null);
      retired, freed, inFlight := [], [], 0;
    }

    /** `retire` then `try_reclaim`: while a thief is inside its section the swapped-out buffer only joins the
        list and nothing is freed; otherwise it and every buffer on the list are freed, each exactly once. */
    method RetireAndReclaim(gone: array<Ptr>)
      requires Apart(gone, retired, freed) && buffer != gone && buffer !in retired && buffer !in freed
      modifies this`retired, this`freed
      ensures Apart(buffer, retired, freed)
      ensures inFlight != 0 ==> retired == [gone] + old(retired) && freed == old(freed)
      ensures inFlight == 0 ==> retired == []
      ensures inFlight == 0 ==> freed == old(freed) + ([gone] + old(retired))
    {
      ApartRetired(buffer, gone, retired, freed);
      retired := [gone] + retired;
      if inFlight != 0 {
        return;
      }
      var node := retired;
      retired := [];
      while node != []
        invariant retired == [] && freed + node == old(freed) + ([gone] + old(retired))
        decreases |node|
      {
        freed := freed + [node[0]];
        node := node[1..];
      }
    }

    /** Appends at the young end; doubles the buffer exactly when it is full. */
    method Push(id: nat)
      requires Valid() && |Contents()| < HALF / 2 - 1
      modifies this, buffer
      ensures Valid() && Contents() == old(Contents()) + [id]
      ensures buffer == old(buffer) || fresh(buffer)
      ensures buffer.Length == old(if |Contents()| == buffer.Length - 1 then buffer.Length * 2 else buffer.Length)
      ensures top == old(top) && inFlight == old(inFlight)
      ensures inFlight != 0 ==> freed == old(freed)
    {
      CapBounds(buffer.Length);
      var b, t := bottom, cachedTop;
      var cap := buffer.Length as ISize;
      if WrappingSub(b, t) >= cap - 1 {
        t := top;
        cachedTop := t;
      }
      if WrappingSub(b, t) >= cap - 1 {
        Grow(b, t);
      }
      StoreAt(b, id);
    }

    /** Swaps in a buffer of twice the size and retires the full one. */
    method Grow(b: ISize, t: ISize)
      requires Valid() && b == bottom && t == top && buffer.Length < HALF / 2
      modifies this`buffer, this`retired, this`freed
      ensures Valid() && Contents() == old(Contents()) && fresh(buffer)
      ensures buffer.Length == 2 * old(buffer.Length)
      ensures inFlight != 0 ==> freed == old(freed)
    {
      CapDoubles(buffer.Length);
      ResizedElements(View(buffer), buffer.Length * 2, t as int, WrappingSub(b, t) as int);
      var bigger := CopyLive(buffer, buffer.Length * 2, b, t);
      var gone := buffer;
      buffer := bigger;
      RetireAndReclaim(gone);
    }

    /** The element store and the publication of `bottom`. */
    method StoreAt(b: ISize, id: nat)
      requires Valid() && b == bottom && WrappingSub(b, top) as int < buffer.Length - 1
      requires WrappingSub(b, cachedTop) as int < HALF / 2 - 1
      modifies this`bottom, buffer
      ensures Valid() && Contents() == old(Contents()) + [id]
    {
      ghost var n, was := WrappingSub(b, top) as int, View(buffer);
      OneMore(b, top);
      OneMore(b, cachedTop);
      SlotOfWrap(top as int + n, buffer.Length);
      WriteAppends(was, top as int, n, id);
      buffer[Slot(b, buffer.Length)] := Box(id);
      assert View(buffer) == Write(was, top as int + n, Box(id));
      bottom := WrappingAdd(b, 1);
    }

    /** Moves the survivors to a half-size buffer when few enough are left. */
    method PerhapsShrink(b: ISize, t: ISize)
      requires Valid() && b == bottom && t == top
      modifies this`buffer, this`retired, this`freed
      ensures Valid() && Contents() == old(Contents())
      ensures buffer == old(buffer) || fresh(buffer)
      ensures buffer.Length == ShrunkCap(old(buffer.Length), |old(Contents())|)
      ensures inFlight != 0 ==> freed == old(freed)
    {
      CapBounds(buffer.Length);
      var cap, size := buffer.Length, Max(WrappingSub(b, t) as int, 0);
      if cap > MIN_CAPACITY && size < cap / SHRINK_FACTOR {
        var smallerCap := Max(cap / 2, MIN_CAPACITY);
        CapHalves(cap);
        ResizedElements(View(buffer), smallerCap, t as int, size);
        var smaller := CopyLive(buffer, smallerCap, b, t);
        var gone := buffer;
        buffer := smaller;
        RetireAndReclaim(gone);
      }
    }

    /** Takes the youngest element; the deque is left as it was if there is none. */
    method PopLifo() returns (r: Result)
      requires Valid()
      modifies this
      ensures Valid() && inFlight == old(inFlight)
      ensures inFlight != 0 ==> freed == old(freed)
      ensures buffer == old(buffer) || fresh(buffer)
      ensures old(Contents()) == [] ==> r == Empty && Contents() == []
      ensures old(Contents()) != [] ==> r.Success? && old(Contents()) == Contents() + [r.id]
      ensures |old(Contents())| > 1 ==> buffer.Length == ShrunkCap(old(buffer.Length), |old(Contents())| - 1)
      ensures |old(Contents())| <= 1 ==> buffer.Length == old(buffer.Length)
    {
      LoweredBottom(View(buffer), bottom, top, cachedTop);
      var b := WrappingSub(bottom, 1);
      bottom := b;
      var t := top;
      var size := WrappingSub(b, t);
      if size < 0 {
        bottom := t;
        return Empty;
      }
      var boxed := buffer[Slot(b, buffer.Length)];
      if size > 0 {
        PerhapsShrink(b, t);
        return Success(boxed.id);
      }
      var won := ClaimLast(t);
      return if won then Success(boxed.id) else Empty;
    }

    /** The CAS on `top` for the last element, and the canonical empty state after it. */
    method ClaimLast(t: ISize) returns (won: bool)
      requires IsCap(buffer.Length) && t == top
      requires 0 <= WrappingSub(WrappingAdd(t, 1), cachedTop) as int < HALF / 2
      requires Apart(buffer, retired, freed)
      modifies this`top, this`bottom
      ensures won && Valid() && Contents() == []
    {
      CapBounds(buffer.Length);
      won := top == t;
      if won {
        top := WrappingAdd(t, 1);
      }
      bottom := WrappingAdd(t, 1);
    }

    /** Takes the oldest element, as a thief does, and as the owner of a FIFO deque does. */
    method StealTop() returns (r: Result)
      requires Valid()
      modifies this`top, this`inFlight
      ensures Valid() && inFlight == old(inFlight)
      ensures old(Contents()) == [] ==> r == Empty && Contents() == []
      ensures old(Contents()) != [] ==> r.Success? && old(Contents()) == [r.id] + Contents()
    {
      CapBounds(buffer.Length);
      var t := top;
      var b := bottom;
      if WrappingSub(b, t) <= 0 {
        return Empty;
      }
      ghost var n := WrappingSub(b, t) as int;
      OldestElement(View(buffer), t, n);
      OneUp(b, t);
      inFlight := inFlight + 1;
      var boxed := buffer[Slot(t, buffer.Length)];
      inFlight := inFlight - 1;
      top := WrappingAdd(t, 1);
      return Success(boxed.id);
    }

    /** One round of the batch: steal here, push there. */
    method MoveOne(dest: Worker)
      requires Valid() && dest.Valid() && dest != this && dest.buffer != buffer
      requires Contents() != [] && |dest.Contents()| < HALF / 2 - 1
      modifies this`top, this`inFlight, dest, dest.buffer
      ensures Valid() && dest.Valid()
      ensures dest.buffer == old(dest.buffer) || fresh(dest.buffer)
      ensures Contents() == old(Contents())[1..]
      ensures dest.Contents() == old(dest.Contents()) + [old(Contents())[0]]
    {
      var next := StealTop();
      dest.Push(next.id);
    }

    /** The rest of a batch, oldest first. */
    method MoveMany(dest: Worker, n: nat)
      requires Valid() && dest.Valid() && dest != this && dest.buffer != buffer
      requires n <= |Contents()| && |dest.Contents()| + n < HALF / 2
      modifies this`top, this`inFlight, dest, dest.buffer
      ensures Valid() && dest.Valid()
      ensures Contents() == old(Contents())[n..]
      ensures dest.Contents() == old(dest.Contents()) + old(Contents())[..n]
    {
      ghost var all, mine := Contents(), dest.Contents();
      for k := 0 to n
        invariant Valid() && dest.Valid() && dest.buffer != buffer
        invariant dest.buffer == old(dest.buffer) || fresh(dest.buffer)
        invariant Contents() == all[k..]
        invariant dest.Contents() == mine + all[..k]
      {
        MoveOne(dest);
        assert all[k..][1..] == all[k + 1..];
        assert mine + all[..k] + [all[k]] == mine + all[..k + 1];
      }
    }

    /** Returns the oldest element and moves the rest of the older half to `dest`, oldest first. */
    method StealBatchAndPop(dest: Worker) returns (r: Result)
      requires Valid() && dest.Valid() && dest != this && dest.buffer != buffer
      requires |dest.Contents()| + |Contents()| < HALF / 2
      modifies this`top, this`inFlight, dest, dest.buffer
      ensures Valid() && dest.Valid()
      ensures old(Contents()) == [] ==> r == Empty && Contents() == [] && dest.Contents() == old(dest.Contents())
      ensures old(Contents()) != [] ==>
        var want := (|old(Contents())| + 1) / 2;
        && r == Success(old(Contents())[0])
        && dest.Contents() == old(dest.Contents()) + old(Contents())[1..want]
        && Contents() == old(Contents())[want..]
    {
      var available := WrappingSub(bottom, top);
      if available <= 0 {
        return Empty;
      }
      var want := (available as int + 1) / 2;
      r := StealTop();
      ghost var all := old(Contents());
      assert all[1..][..want - 1] == all[1..want] && all[1..][want - 1..] == all[want..];
      MoveMany(dest, want - 1);
    }
  }

  function ShrunkCap(cap: nat, size: nat): nat {
    if Shrinks(cap, size, 0) then cap / 2 else cap
  }

  lemma OneLess(b: ISize, t: ISize)
    requires 0 <= WrappingSub(b, t) < 0x7fff_ffff_ffff_ffff
    ensures WrappingSub(b, 1) == Wrap(t as int + WrappingSub(b, t) as int - 1)
    ensures WrappingSub(WrappingSub(b, 1), t) == WrappingSub(b, t) - 1
    ensures WrappingSub(b, t) == 0 ==> b == t
    ensures WrappingSub(b, t) == 1 ==> b == WrappingAdd(t, 1)
  {
    var d := WrappingSub(b, t) as int;
    var k := WrapSplit(b as int - t as int);
    WrapSmall(t as int);
    WrapDistance(b as int - 1, t as int);
    WrapUnique(b as int - 1 - t as int, d - 1, k);
    WrapSame(b as int - 1, t as int + d - 1, k);
    if d <= 1 {
      WrapSame(b as int, t as int + d, k);
      WrapSmall(b as int);
    }
  }

  lemma OneUp(b: ISize, t: ISize)
    requires 0 < WrappingSub(b, t)
    ensures WrappingSub(b, WrappingAdd(t, 1)) == WrappingSub(b, t) - 1
  {
    var d := WrappingSub(b, t) as int;
    var k := WrapSplit(b as int - t as int);
    WrapSmall(b as int);
    WrapDistance(b as int, t as int + 1);
    WrapUnique(b as int - t as int - 1, d - 1, k);
  }

  lemma CapBounds(cap: nat)
    requires IsCap(cap)
    ensures 0 < cap <= HALF / 2
  {
    var m := CapDividesWord(cap);
  }

  /** Bumping the lower index of a short wrapped distance lengthens it by one. */
  lemma OneMore(b: ISize, t: ISize)
    requires 0 <= WrappingSub(b, t) < 0x7fff_ffff_ffff_ffff
    ensures b == Wrap(t as int + WrappingSub(b, t) as int)
    ensures WrappingSub(WrappingAdd(b, 1), t) == WrappingSub(b, t) + 1
  {
    var d := WrappingSub(b, t) as int;
    var k := WrapSplit(b as int - t as int);
    WrapSmall(t as int);
    WrapSmall(b as int);
    WrapDistance(b as int + 1, t as int);
    WrapUnique(b as int + 1 - t as int, d + 1, k);
    WrapSame(b as int, t as int + d, k);
  }
}
