/** The boot-time frame allocator hands out exactly the frames of the memory map, in order. */
module FrameAllocator {
  import opened KernelTypes

  const FRAME_SIZE: nat := 4096

  /** A region of the memory map: the bytes from `start` up to `end`. */
  datatype Region = Region(usable: bool, start: nat, end: nat)

  /** align_up_4k; the memory map keeps `x + 4095` within 64 bits. */
  function AlignUp(x: nat): (r: nat)
    ensures r % FRAME_SIZE == 0 && x <= r < x + FRAME_SIZE
  {
    (x + FRAME_SIZE - 1) / FRAME_SIZE * FRAME_SIZE
  }

  /** The masking that align_up_4k does on 64-bit words rounds up to a multiple of 4096. */
  lemma AlignUpBits(x: bv64)
    requires x <= 0xFFFF_FFFF_FFFF_F000
    ensures var r := (x + 0xFFF) & !0xFFF; r & 0xFFF == 0 && x <= r && r - x < 0x1000
  {
  }

  // ---------------------------------------------------------------------------
  // The frames of a memory map
  // ---------------------------------------------------------------------------

  /** The frames from `lo` on that end by `hi`. */
  function Span(lo: nat, hi: nat): seq<nat>
    decreases if lo <= hi then hi - lo else 0
  {
    if lo + FRAME_SIZE <= hi then [lo] + Span(lo + FRAME_SIZE, hi) else []
  }

  function FramesOf(r: Region): seq<nat> {
    if r.usable then Span(AlignUp(r.start), r.end) else []
  }

  /** All frames of the regions from number `k` on, in order. */
  function FramesFrom(regions: seq<Region>, k: nat): seq<nat>
    decreases |regions| - k
  {
    if k >= |regions| then [] else FramesOf(regions[k]) + FramesFrom(regions, k + 1)
  }

  predicate Inside(f: nat, r: Region) {
    r.usable && r.start <= f && f + FRAME_SIZE <= r.end
  }

  lemma {:induction false} SpanAt(lo: nat, hi: nat, k: nat)
    requires k < |Span(lo, hi)|
    ensures Span(lo, hi)[k] == lo + k * FRAME_SIZE && Span(lo, hi)[k] + FRAME_SIZE <= hi
    decreases k
  {
    if k > 0 { SpanAt(lo + FRAME_SIZE, hi, k - 1); }
  }

  lemma {:induction false} SpanLength(lo: nat, hi: nat, k: nat)
    requires lo + k * FRAME_SIZE + FRAME_SIZE <= hi
    ensures k < |Span(lo, hi)|
    decreases k
  {
    if k > 0 { SpanLength(lo + FRAME_SIZE, hi, k - 1); }
  }

  /** A region's list holds exactly the aligned frames that lie fully inside it, ascending. */
  lemma FramesOfExact(r: Region, f: nat)
    ensures f in FramesOf(r) <==> f % FRAME_SIZE == 0 && Inside(f, r)
    ensures forall i, j :: 0 <= i < j < |FramesOf(r)| ==> FramesOf(r)[i] < FramesOf(r)[j]
  {
    var lo := AlignUp(r.start);
    var q := FramesOf(r);
    forall k: nat | k < |q| ensures q[k] == lo + k * FRAME_SIZE && q[k] + FRAME_SIZE <= r.end {
      SpanAt(lo, r.end, k);
    }
    if f % FRAME_SIZE == 0 && Inside(f, r) {
      AlignedAbove(r.start, f);
      var k := (f - lo) / FRAME_SIZE;
      SpanLength(lo, r.end, k);
      assert q[k] == f;
    }
  }

  /** No aligned address lies between `x` and its rounding. */
  lemma AlignedAbove(x: nat, f: nat)
    requires f % FRAME_SIZE == 0 && x <= f
    ensures AlignUp(x) <= f && (f - AlignUp(x)) % FRAME_SIZE == 0
  {
  }

  lemma {:induction false} FramesFromMembers(regions: seq<Region>, k: nat, f: nat)
    requires k <= |regions|
    ensures f in FramesFrom(regions, k) <==> f % FRAME_SIZE == 0 && exists i: nat :: k <= i < |regions| && Inside(f, regions[i])
    decreases |regions| - k
  {
    if k < |regions| {
      FramesOfExact(regions[k], f);
      FramesFromMembers(regions, k + 1, f);
    }
  }

  /** Usable regions do not overlap. */
  predicate Disjoint(regions: seq<Region>) {
    forall i, j :: 0 <= i < j < |regions| && regions[i].usable && regions[j].usable ==>
      regions[i].end <= regions[j].start || regions[j].end <= regions[i].start
  }

  lemma RegionApart(regions: seq<Region>, k: nat, f: nat)
    requires Disjoint(regions) && k < |regions| && f in FramesOf(regions[k])
    ensures f !in FramesFrom(regions, k + 1)
  {
    FramesOfExact(regions[k], f);
    FramesFromMembers(regions, k + 1, f);
  }

  /** With disjoint regions no frame occurs twice. */
  lemma {:induction false} FramesDistinct(regions: seq<Region>, k: nat)
    requires Disjoint(regions) && k <= |regions|
    ensures forall i, j :: 0 <= i < j < |FramesFrom(regions, k)| ==> FramesFrom(regions, k)[i] != FramesFrom(regions, k)[j]
    decreases |regions| - k
  {
    if k < |regions| {
      var a, b := FramesOf(regions[k]), FramesFrom(regions, k + 1);
      FramesDistinct(regions, k + 1);
      FramesOfExact(regions[k], 0);
      forall i: nat, j: nat | i < |a| && j < |b| ensures a[i] != b[j] {
        RegionApart(regions, k, a[i]);
        assert b[j] in b;
      }
      forall i: nat, j: nat | i < j < |a + b| ensures (a + b)[i] != (a + b)[j] {
        if j < |a| { assert a[i] != a[j]; }
      }
    }
  }

  // ---------------------------------------------------------------------------
  // The allocator
  // ---------------------------------------------------------------------------

  lemma NextOf(taken: seq<nat>, f: nat, rest: seq<nat>)
    ensures taken + ([f] + rest) == (taken + [f]) + rest && ([f] + rest)[1..] == rest
    ensures (taken + ([f] + rest))[|taken|] == f
  {
  }

  lemma Uncons(f: nat, a: seq<nat>, b: seq<nat>)
    ensures ([f] + a) + b == [f] + (a + b)
  {
  }

  class Allocator {
    const regions: seq<Region>
    var regionIndex: nat
    var curAddr: nat
    var curEnd: nat
    var hasRegion: bool
    /** The frames handed out so far. */
    ghost var taken: seq<nat>

    /** The frames still to come. */
    ghost function Rest(): seq<nat>
      reads this
    {
      (if hasRegion then Span(curAddr, curEnd) else []) + FramesFrom(regions, regionIndex)
    }

    ghost predicate Valid()
      reads this
    {
      && regionIndex <= |regions| && (!hasRegion ==> regionIndex == |regions|)
      && taken + Rest() == FramesFrom(regions, 0)
    }

    constructor (regions: seq<Region>)
      ensures Valid() && taken == [] && this.regions == regions
    {
      this.regions := regions;
      regionIndex, curAddr, curEnd, hasRegion := 0, 0, 0, false;
      taken := [];
      new;
      Advance();
    }

    /** advance_to_next_usable_region */
    method Advance()
      requires regionIndex <= |regions|
      modifies this
      ensures regionIndex <= |regions| && (!hasRegion ==> regionIndex == |regions|)
      ensures Rest() == FramesFrom(regions, old(regionIndex)) && taken == old(taken)
      ensures regionIndex > old(regionIndex) || !hasRegion
    {
      hasRegion := false;
      while regionIndex < |regions|
        invariant old(regionIndex) <= regionIndex <= |regions| && !hasRegion && taken == old(taken)
        invariant FramesFrom(regions, regionIndex) == FramesFrom(regions, old(regionIndex))
      {
        var region := regions[regionIndex];
        regionIndex := regionIndex + 1;
        if region.usable {
          var cur := AlignUp(region.start);
          if cur < region.end {
            curAddr, curEnd, hasRegion := cur, region.end, true;
            return;
          }
        }
      }
    }

    /** The next frame of the current region. */
    method TakeFrame() returns (f: nat)
      requires hasRegion && curAddr + FRAME_SIZE <= curEnd
      modifies this`curAddr
      ensures old(Rest()) == [f] + Rest()
    {
      f := curAddr;
      Uncons(f, Span(f + FRAME_SIZE, curEnd), FramesFrom(regions, regionIndex));
      curAddr := curAddr + FRAME_SIZE;
    }

    /** The loop of allocate_frame. */
    method Next() returns (r: Option<nat>)
      requires regionIndex <= |regions| && (!hasRegion ==> regionIndex == |regions|)
      modifies this
      ensures regionIndex <= |regions| && (!hasRegion ==> regionIndex == |regions|) && taken == old(taken)
      ensures match r { case None => old(Rest()) == [] && Rest() == [] case Some(f) => old(Rest()) == [f] + Rest() }
    {
      while true
        invariant regionIndex <= |regions| && (!hasRegion ==> regionIndex == |regions|)
        invariant Rest() == old(Rest()) && taken == old(taken)
        decreases |regions| - regionIndex, hasRegion
      {
        if !hasRegion { return None; }
        if curAddr + FRAME_SIZE <= curEnd {
          var addr := TakeFrame();
          return Some(addr);
        }
        Advance();
      }
    }

    /** allocate_frame: the k-th call returns the k-th frame of the list, and nothing exactly when
        the list is used up. */
    method Allocate() returns (r: Option<nat>)
      requires Valid()
      modifies this
      ensures Valid()
      ensures r == None <==> |old(taken)| == |FramesFrom(regions, 0)|
      ensures r == None ==> taken == old(taken)
      ensures r.Some? ==> r.value == FramesFrom(regions, 0)[|old(taken)|] && taken == old(taken) + [r.value]
    {
      r := Next();
      if r.Some? {
        NextOf(taken, r.value, Rest());
        taken := taken + [r.value];
      }
    }
  }
}
