/** Runs of block ranges that follow one another without gap or overlap. */
module BlockRanges {
  /** The blocks from `start` to `end`, both included; none if `end` is before `start`. */
  datatype Range = Range(start: nat, end: nat)

  predicate InRange(n: nat, r: Range) {
    r.start <= n <= r.end
  }

  /** The ranges, each starting where the one before ended, cover the blocks after `lo` up to `hi`. */
  predicate Tiles(rs: seq<Range>, lo: nat, hi: nat) {
    if rs == [] then lo == hi
    else
      var r := rs[|rs| - 1];
      r.end == hi && 0 < r.start <= r.end + 1 && Tiles(rs[..|rs| - 1], lo, r.start - 1)
  }

  /** Ranges that tile contain each block of the span exactly once and no other. */
  lemma {:induction false} TilesCoverOnce(rs: seq<Range>, lo: nat, hi: nat, n: nat)
    requires Tiles(rs, lo, hi)
    ensures lo <= hi
    ensures lo < n <= hi <==> exists i :: 0 <= i < |rs| && InRange(n, rs[i])
    ensures forall i, j :: 0 <= i < j < |rs| && InRange(n, rs[i]) ==> !InRange(n, rs[j])
  {
    if rs != [] {
      var init, r := rs[..|rs| - 1], rs[|rs| - 1];
      TilesCoverOnce(init, lo, r.start - 1, n);
      assert forall i :: 0 <= i < |init| ==> init[i] == rs[i];
      if lo < n <= hi {
        if n < r.start {
          var i :| 0 <= i < |init| && InRange(n, init[i]);
          assert InRange(n, rs[i]);
        } else {
          assert InRange(n, rs[|rs| - 1]);
        }
      }
    }
  }

  lemma {:induction false} TilesConcat(a: seq<Range>, b: seq<Range>, lo: nat, mid: nat, hi: nat)
    requires if a == [] then lo == mid else a[|a| - 1].end == mid
    ensures Tiles(a + b, lo, hi) <==> Tiles(a, lo, mid) && Tiles(b, mid, hi)
    decreases |b|
  {
    if b == [] {
      assert a + b == a;
      assert Tiles(b, mid, hi) <==> mid == hi;
    } else {
      var init, r := b[..|b| - 1], b[|b| - 1];
      assert (a + b)[..|a + b| - 1] == a + init;
      if r.start > 0 {
        TilesConcat(a, init, lo, mid, r.start - 1);
      }
    }
  }

  predicate AllWithin(rs: seq<Range>, batch: nat) {
    forall r :: r in rs ==> r.end < r.start + batch
  }
}
