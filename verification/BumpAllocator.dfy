/**
 The guest's allocator, `BoundedBumpAllocator::alloc` (artifacts/local-codeagent/guest_template.rs).

 Addresses are 32 bits wide, so `usize` arithmetic that is not `checked_add` wraps. The host
 answers `memory_grow`; it never grants more than the manifest's 64 MiB
 (artifacts/app-builder/verifier.py).
 */
module BumpAllocator {
  import opened Facts
  import opened Outcomes

  const LIMIT: nat := 0x1_0000_0000
  const PAGE: nat := 65536
  const MAX_PAGES: nat := 67_108_864 / PAGE

  type Usize = x: int | 0 <= x < 0x1_0000_0000

  // ---------------------------------------------------------------- machine arithmetic

  function Wrap(x: int): Usize { x % LIMIT }

  function CheckedAdd(a: Usize, b: Usize): Option<Usize> {
    if a as int + b as int < LIMIT then Some(a as int + b as int) else None
  }

  function Pow2(k: nat): (p: nat)
    ensures p > 0
  {
    if k == 0 then 1 else 2 * Pow2(k - 1)
  }

  /** Bitwise and. */
  function And(x: nat, y: nat): nat {
    if x == 0 || y == 0 then 0 else 2 * And(x / 2, y / 2) + (x % 2) * (y % 2)
  }

  /** Bitwise complement of a word. */
  function Not(x: Usize): Usize { LIMIT - 1 - x }

  lemma {:induction false} AndOnes(x: nat, w: nat)
    requires x < Pow2(w)
    ensures And(x, Pow2(w) - 1) == x
  {
    if x > 0 {
      assert (Pow2(w) - 1) / 2 == Pow2(w - 1) - 1;
      AndOnes(x / 2, w - 1);
    }
  }

  /** Dividing by twice `p` leaves the last bit and twice what dividing the rest by `p` leaves. */
  lemma HalveRemainder(x: nat, p: nat)
    requires p > 0
    ensures x % (2 * p) == 2 * (x / 2 % p) + x % 2
  {
    var q, r := x / 2 / p, x / 2 % p;
    assert x == q * (2 * p) + (2 * r + x % 2);
    DivisionIs(x, 2 * p, q, 2 * r + x % 2);
  }

  /** Masking with a word whose low `k` bits are clear rounds down to a multiple of 2^k. */
  lemma {:induction false} MaskRoundsDown(x: nat, w: nat, k: nat)
    requires x < Pow2(w) && k <= w
    ensures Pow2(w) >= Pow2(k) && And(x, Pow2(w) - Pow2(k)) == x - x % Pow2(k)
  {
    if k == 0 {
      AndOnes(x, w);
    } else {
      MaskRoundsDown(x / 2, w - 1, k - 1);
      HalveRemainder(x, Pow2(k - 1));
      var half := Pow2(w - 1) - Pow2(k - 1);
      assert Pow2(w) - Pow2(k) == 2 * half;
      assert And(x, 2 * half) == 2 * And(x / 2, half);
    }
  }

  // ---------------------------------------------------------------- one allocation

  /** `next` is 0 until the first allocation; `pages` is the size of linear memory. */
  datatype Heap = Heap(next: Usize, pages: nat)

  /** A size, an alignment of 2^log, and whether the host grants more memory. */
  datatype Request = Request(size: Usize, log: nat, granted: bool)

  datatype Block = Block(start: nat, size: nat, log: nat) {
    function End(): nat { start + size }

    predicate Holds(address: nat) { start <= address < End() }
  }

  ghost predicate HeapInv(base: Usize, h: Heap) {
    base > 0 && 1 <= h.pages <= MAX_PAGES && (h.next == 0 || base <= h.next <= h.pages * PAGE)
  }

  function Current(base: Usize, h: Heap): Usize {
    if h.next == 0 then base else h.next
  }

  /** The least multiple of `align` that is not below `current`. */
  function RoundUp(current: nat, align: nat): (start: nat)
    requires align > 0
    ensures current <= start < current + align && start % align == 0
  {
    RoundDown(current + align - 1, align);
    current + align - 1 - (current + align - 1) % align
  }

  lemma RoundDown(x: nat, d: nat)
    requires d > 0
    ensures (x - x % d) % d == 0
  {
    assert x == x / d * d + x % d;
    DivisionIs(x - x % d, d, x / d, 0);
  }

  /** Pages that bring the memory to `end`. */
  function Missing(end: nat, pages: nat): (more: nat)
    ensures end <= (pages + more) * PAGE
    ensures more > 0 ==> (pages + more - 1) * PAGE < end
  {
    if end <= pages * PAGE then 0 else (end - pages * PAGE + PAGE - 1) / PAGE
  }

  /** What one allocation does, in unbounded arithmetic; no block is a null pointer. */
  function Allocate(base: Usize, h: Heap, r: Request): (result: (Heap, Option<Block>)) {
    var start := RoundUp(Current(base, h), Pow2(r.log));
    var end := start + r.size;
    var more := Missing(end, h.pages);
    if Current(base, h) + Pow2(r.log) - 1 >= LIMIT || end >= LIMIT then (h, None)
    else if more > 0 && !(r.granted && h.pages + more <= MAX_PAGES) then (h, None)
    else (Heap(end, h.pages + more), Some(Block(start, r.size, r.log)))
  }

  /** The page count as the code computes it, with wrapping subtraction and addition. */
  function PageCount(end: Usize, bytes: Usize): nat {
    Wrap(Wrap(end - bytes) + 65_535) / PAGE
  }

  /** The page count covers the end exactly when the rounding does not wrap. */
  lemma PageCountExact(end: Usize, pages: nat)
    requires pages * PAGE < end
    ensures end <= (pages + PageCount(end, pages * PAGE)) * PAGE <==> end - pages * PAGE + 65_535 < LIMIT
    ensures end - pages * PAGE + 65_535 < LIMIT ==> PageCount(end, pages * PAGE) == Missing(end, pages)
  {
  }

  /** One page of memory is enough for that. */
  lemma OnePageSuffices(end: Usize, pages: nat)
    requires 1 <= pages && pages * PAGE < end
    ensures PageCount(end, pages * PAGE) == Missing(end, pages)
  {
    PageCountExact(end, pages);
  }

  /** With no page the count can wrap to zero, and the end lies outside memory. */
  lemma NoPageWraps()
    ensures PageCount(LIMIT - 1, 0) == 0
  {
  }

  /** The code's mask is the rounding. */
  lemma MaskIsRoundUp(current: Usize, log: nat)
    requires log < 32 && current + Pow2(log) - 1 < LIMIT
    ensures 1 <= Pow2(log) < LIMIT
    ensures And(current + Pow2(log) - 1, Not(Pow2(log) - 1)) == RoundUp(current, Pow2(log))
  {
    Word();
    AlignFits(log);
    MaskRoundsDown(current + Pow2(log) - 1, 32, log);
  }

  lemma Word()
    ensures Pow2(32) == LIMIT
  {
    assert Pow2(8) == 256;
    assert Pow2(16) == 65536;
    assert Pow2(24) == 0x100_0000;
  }

  lemma {:induction false} AlignFits(log: nat)
    requires log < 32
    ensures 1 <= Pow2(log) <= 0x8000_0000
    decreases 32 - log
  {
    if log == 31 {
      Word();
    } else {
      AlignFits(log + 1);
    }
  }

  class BumpAllocator {
    const heapBase: Usize
    var nextAllocation: Usize
    var pages: nat

    ghost predicate Valid()
      reads this
    {
      HeapInv(heapBase, View())
    }

    ghost function View(): Heap
      reads this
    {
      Heap(nextAllocation, pages)
    }

    constructor (heapBase: Usize, pages: nat)
      requires heapBase > 0 && 1 <= pages <= MAX_PAGES
      ensures Valid() && this.heapBase == heapBase && View() == Heap(0, pages)
    {
      this.heapBase, this.pages, nextAllocation := heapBase, pages, 0;
    }

    /** `memory_grow`: the host may always refuse, and must beyond its limit. */
    method MemoryGrow(more: nat, granted: bool) returns (grown: bool)
      modifies this`pages
      ensures grown == (granted && old(pages) + more <= MAX_PAGES)
      ensures pages == if grown then old(pages) + more else old(pages)
    {
      grown := granted && pages + more <= MAX_PAGES;
      if grown {
        pages := pages + more;
      }
    }

    /** Grows the memory up to `end`, if it has to. */
    method Reach(end: Usize, granted: bool) returns (reached: bool)
      requires 1 <= pages <= MAX_PAGES
      modifies this`pages
      ensures var more := Missing(end, old(pages));
        && reached == (more == 0 || (granted && old(pages) + more <= MAX_PAGES))
        && pages == if reached then old(pages) + more else old(pages)
    {
      var currentBytes := Wrap(pages * PAGE);
      if end <= currentBytes {
        return true;
      }
      OnePageSuffices(end, pages);
      reached := MemoryGrow(PageCount(end, currentBytes), granted);
    }

    method Alloc(size: Usize, log: nat, granted: bool) returns (block: Option<Usize>)
      requires Valid() && log < 32
      modifies this
      ensures var (h, b) := Allocate(heapBase, old(View()), Request(size, log, granted));
        View() == h && block == (match b case None => None case Some(x) => Some(x.start))
      ensures Valid()
    {
      AllocateKeeps(heapBase, View(), Request(size, log, granted));
      AlignFits(log);
      var align: Usize := Pow2(log);
      var current := if nextAllocation == 0 then heapBase else nextAllocation;
      var raised := CheckedAdd(current, align - 1);
      if raised.None? {
        return None;
      }
      MaskIsRoundUp(current, log);
      var aligned: Usize := And(raised.value, Not(align - 1));
      var end := CheckedAdd(aligned, size);
      if end.None? {
        return None;
      }
      var reached := Reach(end.value, granted);
      if !reached {
        return None;
      }
      nextAllocation := end.value;
      return Some(aligned);
    }
  }

  // ---------------------------------------------------------------- every request sequence

  lemma AllocateKeeps(base: Usize, h: Heap, r: Request)
    requires HeapInv(base, h)
    ensures var (h', b) := Allocate(base, h, r);
      && HeapInv(base, h') && h.next <= h'.next && h.pages <= h'.pages
      && (b == None ==> h' == h)
      && (b.Some? ==> Current(base, h) <= b.value.start && b.value.start % Pow2(r.log) == 0
                      && b.value.size == r.size && b.value.log == r.log
                      && b.value.End() == h'.next <= h'.pages * PAGE && h'.next > 0)
  {
  }

  predicate AlignedAt(s: nat, align: nat)
    requires align > 0
  {
    s % align == 0
  }

  /** Two multiples less than one step apart are one. */
  lemma NextMultiple(current: nat, align: nat, s: nat)
    requires align > 0 && current <= s && AlignedAt(s, align)
    ensures RoundUp(current, align) <= s
  {
    var start := RoundUp(current, align);
    if s < start {
      var a, b := s / align, start / align;
      assert s == a * align && start == b * align;
      Distribute(b, -a, align);
      assert (b - a) * align == start - s;
      NotSmall(b - a, align);
    }
  }

  /**
   A request gets a block exactly when some aligned place from the next pointer on has room
   below the limit of the memory, or below its present end when the host grants no more; it
   gets the first such place.
   */
  lemma GivenExactly(base: Usize, h: Heap, r: Request)
    requires HeapInv(base, h) && r.log < 32
    ensures var room := (if r.granted then MAX_PAGES else h.pages) * PAGE;
      var b := Allocate(base, h, r).1;
      && (b.Some? <==> exists s: nat ::
            AlignedAt(s, Pow2(r.log)) && Current(base, h) <= s && s + r.size <= room)
      && (b.Some? ==> forall s: nat | AlignedAt(s, Pow2(r.log)) && Current(base, h) <= s :: b.value.start <= s)
  {
    AlignFits(r.log);
    var start := RoundUp(Current(base, h), Pow2(r.log));
    assert AlignedAt(start, Pow2(r.log));
    forall s: nat | AlignedAt(s, Pow2(r.log)) && Current(base, h) <= s ensures start <= s {
      NextMultiple(Current(base, h), Pow2(r.log), s);
    }
  }

  /** The heap and the blocks given out, in order, after all requests. */
  function AllocateAll(base: Usize, h: Heap, rs: seq<Request>): (Heap, seq<Block>) {
    if rs == [] then (h, [])
    else
      var (before, blocks) := AllocateAll(base, h, rs[..|rs| - 1]);
      var (after, b) := Allocate(base, before, rs[|rs| - 1]);
      (after, blocks + match b case None => [] case Some(x) => [x])
  }

  /** Blocks lie between the heap's base and the next allocation, one after the other. */
  ghost predicate BlocksInv(base: Usize, h: Heap, blocks: seq<Block>) {
    && HeapInv(base, h)
    && (forall i | 0 <= i < |blocks| :: base <= blocks[i].start && blocks[i].End() <= h.next)
    && (forall i, j | 0 <= i < j < |blocks| :: blocks[i].End() <= blocks[j].start)
    && (forall i | 0 <= i < |blocks| :: blocks[i].start % Pow2(blocks[i].log) == 0)
    && (h.next == 0 ==> blocks == [])
  }

  /** Over every run the next pointer and the memory only grow. */
  lemma {:induction false} NextGrows(base: Usize, h: Heap, rs: seq<Request>, n: nat)
    requires HeapInv(base, h) && n <= |rs|
    ensures var early, late := AllocateAll(base, h, rs[..n]).0, AllocateAll(base, h, rs).0;
      HeapInv(base, late) && early.next <= late.next && early.pages <= late.pages
    decreases |rs|
  {
    if rs == [] {
    } else if n == |rs| {
      assert rs[..n] == rs;
      NextGrows(base, h, rs[..n - 1], n - 1);
      AllocateKeeps(base, AllocateAll(base, h, rs[..n - 1]).0, rs[n - 1]);
    } else {
      var first := rs[..|rs| - 1];
      assert first[..n] == rs[..n];
      NextGrows(base, h, first, n);
      AllocateKeeps(base, AllocateAll(base, h, first).0, rs[|rs| - 1]);
    }
  }

  /** Every run gives out aligned blocks that are pairwise disjoint and inside memory. */
  lemma {:induction false} BlocksDisjoint(base: Usize, h: Heap, rs: seq<Request>)
    requires HeapInv(base, h) && h.next == 0
    ensures var (after, blocks) := AllocateAll(base, h, rs);
      && BlocksInv(base, after, blocks)
      && (forall i | 0 <= i < |blocks| :: blocks[i].End() <= after.pages * PAGE)
      && (forall i, j, x: nat | 0 <= i < j < |blocks| :: !(blocks[i].Holds(x) && blocks[j].Holds(x)))
    decreases |rs|
  {
    if rs != [] {
      var first := rs[..|rs| - 1];
      BlocksDisjoint(base, h, first);
      AllocateKeeps(base, AllocateAll(base, h, first).0, rs[|rs| - 1]);
    }
  }
}
