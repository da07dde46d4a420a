/** Side-attachment sensing: how fully one side of a voxel is attached to a
    single other body. The anchors of the side are given as they are
    (body.anchorsOn(side)); nothing is performed or changed. */
module SideAttachment {
  import opened Ranges
  import opened Actions

  /** An anchor, seen through the bodies its links lead to
      (attachedAnchorables()). */
  datatype Anchor = Anchor(attached: seq<BodyId>)

  predicate IsAnchoredTo(a: Anchor, b: BodyId) {
    b in a.attached
  }

  /** Some anchor is anchored to b. */
  predicate SomeAnchoredTo(anchors: seq<Anchor>, b: BodyId) {
    exists k :: 0 <= k < |anchors| && IsAnchoredTo(anchors[k], b)
  }

  /** Every anchor is anchored to b. */
  predicate AllAnchoredTo(anchors: seq<Anchor>, b: BodyId) {
    forall k :: 0 <= k < |anchors| ==> IsAnchoredTo(anchors[k], b)
  }

  /** The bodies attached to any of the anchors, anchor by anchor, with
      repetitions (the flatMap over attachedAnchorables). */
  function Attached(anchors: seq<Anchor>): seq<BodyId> {
    if anchors == [] then [] else anchors[0].attached + Attached(anchors[1..])
  }

  /** The attached bodies are exactly those some anchor is anchored to. */
  lemma {:induction false} AttachedMembers(anchors: seq<Anchor>, b: BodyId)
    ensures b in Attached(anchors) <==> SomeAnchoredTo(anchors, b)
  {
    if anchors != [] {
      AttachedMembers(anchors[1..], b);
      if SomeAnchoredTo(anchors[1..], b) {
        var k :| 0 <= k < |anchors[1..]| && IsAnchoredTo(anchors[1..][k], b);
        assert IsAnchoredTo(anchors[k + 1], b);
      }
      if SomeAnchoredTo(anchors, b) && !IsAnchoredTo(anchors[0], b) {
        var k :| 0 <= k < |anchors| && IsAnchoredTo(anchors[k], b);
        assert IsAnchoredTo(anchors[1..][k - 1], b);
      }
    }
  }

  /** How many of the anchors are anchored to b. */
  function CountAnchoredTo(anchors: seq<Anchor>, b: BodyId): (n: nat)
    ensures n <= |anchors|
  {
    if anchors == [] then 0
    else (if IsAnchoredTo(anchors[0], b) then 1 else 0) + CountAnchoredTo(anchors[1..], b)
  }

  /** The count reaches the number of anchors exactly when every anchor is
      anchored to b. */
  lemma {:induction false} CountIsAllExactly(anchors: seq<Anchor>, b: BodyId)
    ensures CountAnchoredTo(anchors, b) == |anchors| <==> AllAnchoredTo(anchors, b)
  {
    if anchors != [] {
      CountIsAllExactly(anchors[1..], b);
      assert forall k :: 1 <= k < |anchors| ==> anchors[k] == anchors[1..][k - 1];
    }
  }

  /** The largest count over the candidate bodies, or 0 when there is none
      (max().orElse(0)). */
  function MaxCount(anchors: seq<Anchor>, candidates: seq<BodyId>): (m: nat)
    ensures m <= |anchors|
    ensures forall b :: b in candidates ==> CountAnchoredTo(anchors, b) <= m
    ensures candidates == [] ==> m == 0
    ensures candidates != [] ==> exists b :: b in candidates && CountAnchoredTo(anchors, b) == m
  {
    if candidates == [] then 0
    else
      var here := CountAnchoredTo(anchors, candidates[0]);
      var rest := MaxCount(anchors, candidates[1..]);
      if candidates[1..] == [] || here >= rest then here else rest
  }

  lemma Ratio(m: nat, k: nat, n: nat)
    requires 0 < n && k <= m <= n
    ensures 0.0 <= (k as real) / (n as real) <= (m as real) / (n as real) <= 1.0
  {
    FractionBetween(k as real, m as real, n as real);
  }

  lemma UnitFraction(n: nat)
    requires 0 < n
    ensures n as real / n as real == 1.0
  {
  }

  /** SenseSideAttachment.perform: the largest number of the side's anchors
      anchored to one and the same body, as a fraction of the side's anchors. */
  function Perform(anchors: seq<Anchor>): (r: real)
    ensures Contains(Range(SenseSideAttachment(Voxels.N, 0)), r)
    ensures anchors == [] ==> r == 0.0
    ensures Attached(anchors) == [] ==> r == 0.0
  {
    if anchors == [] then 0.0
    else
      var candidates := Attached(anchors);
      if candidates == [] then 0.0
      else
        var m := MaxCount(anchors, candidates);
        Ratio(m, m, |anchors|);
        m as real / |anchors| as real
  }

  /** Otherwise the result is the largest, over the attached bodies, of the
      fraction of the side's anchors anchored to that body. */
  lemma {:induction false} PerformIsLargestFraction(anchors: seq<Anchor>)
    requires anchors != [] && Attached(anchors) != []
    ensures exists b :: (b in Attached(anchors) &&
      Perform(anchors) == CountAnchoredTo(anchors, b) as real / |anchors| as real)
    ensures forall b :: b in Attached(anchors) ==>
      CountAnchoredTo(anchors, b) as real / |anchors| as real <= Perform(anchors)
  {
    var m := MaxCount(anchors, Attached(anchors));
    forall b | b in Attached(anchors)
      ensures CountAnchoredTo(anchors, b) as real / |anchors| as real <= Perform(anchors)
    {
      Ratio(m, CountAnchoredTo(anchors, b), |anchors|);
    }
  }

  /** One body attached to every anchor makes the side fully attached. */
  lemma {:induction false} OneBodyOnAllIsFull(anchors: seq<Anchor>, b: BodyId)
    requires anchors != [] && AllAnchoredTo(anchors, b)
    ensures Perform(anchors) == 1.0
  {
    assert IsAnchoredTo(anchors[0], b);
    AttachedMembers(anchors, b);
    CountIsAllExactly(anchors, b);
    var m := MaxCount(anchors, Attached(anchors));
    assert m == |anchors|;
    UnitFraction(m);
  }

  /** A fully attached side has one body attached to every anchor. */
  lemma {:induction false} FullIsOneBodyOnAll(anchors: seq<Anchor>) returns (b: BodyId)
    requires Perform(anchors) == 1.0
    ensures anchors != [] && AllAnchoredTo(anchors, b)
  {
    var m := MaxCount(anchors, Attached(anchors));
    var x := |anchors| as real;
    assert m as real / x == 1.0;
    assert m as real == x;
    b :| b in Attached(anchors) && CountAnchoredTo(anchors, b) == m;
    CountIsAllExactly(anchors, b);
  }

  /** The side is sensed as fully attached exactly when it has anchors and one
      body is attached to all of them. */
  lemma {:induction false} FullyAttached(anchors: seq<Anchor>)
    ensures Perform(anchors) == 1.0 <==> anchors != [] && exists b :: AllAnchoredTo(anchors, b)
  {
    if anchors != [] && exists b :: AllAnchoredTo(anchors, b) {
      var b :| AllAnchoredTo(anchors, b);
      OneBodyOnAllIsFull(anchors, b);
    }
    if Perform(anchors) == 1.0 {
      var b := FullIsOneBodyOnAll(anchors);
    }
  }
}
