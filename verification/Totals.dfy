/** Sums of a per-clip weight over a whole disk. */
module Totals {
  import opened Queue

  ghost function Sum(s: set<ClipId>, d: Disk, w: Files -> nat): nat {
    if s == {} then 0
    else
      var k :| k in s;
      w(At(d, k)) + Sum(s - {k}, d, w)
  }

  /** The sum of `w` over the clips of `d`; a weight that counts an absent clip as zero makes this a sum over all ids. */
  ghost function Total(d: Disk, w: Files -> nat): nat { Sum(d.Keys, d, w) }

  lemma {:induction false} SumSplit(s: set<ClipId>, d: Disk, w: Files -> nat, k: ClipId)
    requires k in s
    ensures Sum(s, d, w) == w(At(d, k)) + Sum(s - {k}, d, w)
  {
    var j :| j in s && Sum(s, d, w) == w(At(d, j)) + Sum(s - {j}, d, w);
    if j != k {
      SumSplit(s - {j}, d, w, k);
      SumSplit(s - {k}, d, w, j);
      assert s - {j} - {k} == s - {k} - {j};
    }
  }

  lemma {:induction false} SumMonotone(s: set<ClipId>, d: Disk, d': Disk, w: Files -> nat)
    requires forall id | id in s :: w(At(d', id)) <= w(At(d, id))
    ensures Sum(s, d', w) <= Sum(s, d, w)
  {
    if s != {} {
      var k :| k in s;
      SumSplit(s, d, w, k);
      SumSplit(s, d', w, k);
      SumMonotone(s - {k}, d, d', w);
    }
  }

  lemma {:induction false} SumPad(s: set<ClipId>, t: set<ClipId>, d: Disk, w: Files -> nat)
    requires s <= t && forall id | id in t && id !in s :: w(At(d, id)) == 0
    ensures Sum(t, d, w) == Sum(s, d, w)
    decreases t
  {
    if s != t {
      var k :| k in t && k !in s;
      SumSplit(t, d, w, k);
      SumPad(s, t - {k}, d, w);
    }
  }

  /** A disk on which no clip weighs more has no larger total, and a smaller one if some clip weighs less. */
  lemma TotalMonotone(d: Disk, d': Disk, w: Files -> nat)
    requires w(NO_FILES) == 0 && forall id :: w(At(d', id)) <= w(At(d, id))
    ensures Total(d', w) <= Total(d, w)
    ensures forall k :: w(At(d', k)) < w(At(d, k)) ==> Total(d', w) < Total(d, w)
  {
    var s := d.Keys + d'.Keys;
    SumPad(d.Keys, s, d, w);
    SumPad(d'.Keys, s, d', w);
    SumMonotone(s, d, d', w);
    forall k | w(At(d', k)) < w(At(d, k)) ensures Total(d', w) < Total(d, w) {
      SumSplit(s, d, w, k);
      SumSplit(s, d', w, k);
      SumMonotone(s - {k}, d, d', w);
    }
  }

  lemma TotalSame(d: Disk, d': Disk, w: Files -> nat)
    requires w(NO_FILES) == 0 && forall id :: w(At(d', id)) == w(At(d, id))
    ensures Total(d', w) == Total(d, w)
  {
    TotalMonotone(d, d', w);
    TotalMonotone(d', d, w);
  }

  lemma {:induction false} SumOfEqualWeights(s: set<ClipId>, d: Disk, v: Files -> nat, w: Files -> nat)
    requires forall id | id in s :: v(At(d, id)) == w(At(d, id))
    ensures Sum(s, d, v) == Sum(s, d, w)
  {
    if s != {} {
      var k :| k in s;
      SumSplit(s, d, v, k);
      SumSplit(s, d, w, k);
      SumOfEqualWeights(s - {k}, d, v, w);
    }
  }

  lemma {:induction false} SumOfLesserWeights(s: set<ClipId>, d: Disk, v: Files -> nat, w: Files -> nat)
    requires forall id | id in s :: v(At(d, id)) <= w(At(d, id))
    ensures Sum(s, d, v) <= Sum(s, d, w)
  {
    if s != {} {
      var k :| k in s;
      SumSplit(s, d, v, k);
      SumSplit(s, d, w, k);
      SumOfLesserWeights(s - {k}, d, v, w);
    }
  }

  lemma {:induction false} SumPartition(s: set<ClipId>, t: set<ClipId>, d: Disk, w: Files -> nat)
    requires t <= s
    ensures Sum(s, d, w) == Sum(s - t, d, w) + Sum(t, d, w)
    decreases t
  {
    if t == {} {
      assert s - t == s;
    } else {
      var k :| k in t;
      SumSplit(s, d, w, k);
      SumSplit(t, d, w, k);
      SumPartition(s - {k}, t - {k}, d, w);
      assert (s - {k}) - (t - {k}) == s - t;
    }
  }

  /** If only the clips of t can weigh more on d' than on d, the total of d' is at most that of d and their weight. */
  lemma TotalUpTo(d: Disk, d': Disk, t: set<ClipId>, w: Files -> nat)
    requires w(NO_FILES) == 0 && forall id | id !in t :: w(At(d', id)) <= w(At(d, id))
    ensures Total(d', w) <= Total(d, w) + Sum(t, d', w)
  {
    var s := d.Keys + d'.Keys + t;
    SumPad(d.Keys, s, d, w);
    SumPad(d'.Keys, s, d', w);
    SumPartition(s, t, d, w);
    SumPartition(s, t, d', w);
    SumMonotone(s - t, d, d', w);
  }

  lemma {:induction false} SumAdds(s: set<ClipId>, d: Disk, u: Files -> nat, v: Files -> nat, w: Files -> nat)
    requires forall id | id in s :: w(At(d, id)) == u(At(d, id)) + v(At(d, id))
    ensures Sum(s, d, w) == Sum(s, d, u) + Sum(s, d, v)
  {
    if s != {} {
      var k :| k in s;
      SumSplit(s, d, u, k);
      SumSplit(s, d, v, k);
      SumSplit(s, d, w, k);
      SumAdds(s - {k}, d, u, v, w);
    }
  }

  /** Changing one clip changes the total by that clip's difference. */
  lemma TotalPut(d: Disk, k: ClipId, f: Files, w: Files -> nat)
    requires w(NO_FILES) == 0
    ensures Total(Put(d, k, f), w) == Total(d, w) - w(At(d, k)) + w(f)
  {
    var d', s := Put(d, k, f), d.Keys + {k};
    SumPad(d.Keys, s, d, w);
    SumSplit(s, d, w, k);
    SumSplit(s, d', w, k);
    SumMonotone(s - {k}, d, d', w);
    SumMonotone(s - {k}, d', d, w);
    assert d'.Keys == s;
  }
}
