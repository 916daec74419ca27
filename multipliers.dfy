/**
 * The payout table of the scratch-card round and the cumulative-probability
 * walk that draws one entry of it per card. Multipliers are written in
 * hundredths (0.10x is 10) and probabilities as percentages (0.3 is 30), so
 * the walk is exact; the uniform draw `r` is an input.
 */
module Multipliers {

  /** One row of the table: multiplier in hundredths, probability in percent, display colour. */
  datatype Entry = Entry(hundredths: nat, weight: nat, color: string)

  const Table: seq<Entry> := [
    Entry(0, 30, "#ff4444"),
    Entry(10, 20, "#ffbb33"),
    Entry(20, 15, "#00C851"),
    Entry(30, 15, "#33b5e5"),
    Entry(50, 10, "#aa66cc"),
    Entry(100, 5, "#ff8800"),
    Entry(200, 3, "#ff4444"),
    Entry(300, 2, "#ffd700")
  ]

  /** The running sum of the probabilities of the first k entries, in percent. */
  function Cumulative(k: nat): nat
    requires k <= |Table|
  {
    if k == 0 then 0 else Cumulative(k - 1) + Table[k - 1].weight
  }

  /** Entry k accepts draw r: `random <= cumulativeProbability` after adding entry k. */
  predicate Covers(r: real, k: nat)
    requires k < |Table|
  {
    r <= Cumulative(k + 1) as real / 100.0
  }

  /** The entry the walk settles on, starting the search at entry k. */
  function PickFrom(r: real, k: nat): (p: nat)
    requires k <= |Table|
    ensures p < |Table|
    decreases |Table| - k
  {
    if k == |Table| then 0
    else if Covers(r, k) then k
    else PickFrom(r, k + 1)
  }

  /** The index the walk selects for draw r. */
  function Pick(r: real): (i: nat)
    ensures i < |Table|
  {
    PickFrom(r, 0)
  }

  /**
   * The sampling loop of the round start: accumulate the probabilities in
   * table order and stop at the first entry whose running sum reaches r;
   * when none does, keep the initial choice, entry 0.
   */
  method SampleIndex(r: real) returns (i: nat)
    ensures i == Pick(r) && i < |Table|
  {
    var cumulative := 0;
    i := 0;
    var k := 0;
    while k < |Table|
      invariant k <= |Table|
      invariant cumulative == Cumulative(k)
      invariant PickFrom(r, k) == Pick(r)
      invariant i == 0
    {
      cumulative := cumulative + Table[k].weight;
      if r <= cumulative as real / 100.0 {
        i := k;
        return;
      }
      k := k + 1;
    }
  }

  /** The probabilities of the table sum to exactly 1 (100 percent). */
  lemma WeightsSumToOne()
    ensures Cumulative(|Table|) == 100
  {
    assert Cumulative(1) == 30;
    assert Cumulative(2) == 50;
    assert Cumulative(3) == 65;
    assert Cumulative(4) == 80;
    assert Cumulative(5) == 90;
    assert Cumulative(6) == 95;
    assert Cumulative(7) == 98;
  }

  /** Running sums never decrease along the table. */
  lemma {:induction false} CumulativeMonotone(j: nat, k: nat)
    requires j <= k <= |Table|
    ensures Cumulative(j) <= Cumulative(k)
    decreases k - j
  {
    if j < k {
      CumulativeMonotone(j, k - 1);
    }
  }

  lemma {:induction false} PickFromFirst(r: real, k: nat)
    requires k <= |Table|
    ensures (exists j :: k <= j < |Table| && Covers(r, j)) ==>
      k <= PickFrom(r, k) && Covers(r, PickFrom(r, k)) &&
      forall j :: k <= j < PickFrom(r, k) ==> !Covers(r, j)
    ensures (forall j :: k <= j < |Table| ==> !Covers(r, j)) ==> PickFrom(r, k) == 0
    decreases |Table| - k
  {
    if k < |Table| && !Covers(r, k) {
      PickFromFirst(r, k + 1);
      assert forall j :: k <= j < |Table| && Covers(r, j) ==> k + 1 <= j;
    }
  }

  /**
   * The walk returns the first entry whose running sum is at least r, and
   * entry 0 (not the last entry) when no running sum is.
   */
  lemma PickIsFirstCovering(r: real)
    ensures (exists j :: 0 <= j < |Table| && Covers(r, j)) ==>
      Covers(r, Pick(r)) && forall j :: 0 <= j < Pick(r) ==> !Covers(r, j)
    ensures (forall j :: 0 <= j < |Table| ==> !Covers(r, j)) ==> Pick(r) == 0
  {
    PickFromFirst(r, 0);
  }

  /** A draw above 1 is covered by no running sum, so the walk falls back to entry 0. */
  lemma FallbackIsFirstEntry(r: real)
    requires r > 1.0
    ensures Pick(r) == 0
  {
    WeightsSumToOne();
    forall j | 0 <= j < |Table| ensures !Covers(r, j) {
      CumulativeMonotone(j + 1, |Table|);
    }
    PickIsFirstCovering(r);
  }

  /** Every draw of Math.random (in [0, 1)) is covered by the last running sum: no fallback. */
  lemma UnitDrawIsCovered(r: real)
    requires r <= 1.0
    ensures Covers(r, Pick(r))
  {
    WeightsSumToOne();
    assert Covers(r, |Table| - 1);
    PickIsFirstCovering(r);
  }

  /**
   * For a draw r <= 1 the walk picks entry i exactly when r lies in the
   * half-open band (Cumulative(i), Cumulative(i+1)] (hundredths of the unit
   * interval); entry 0 also takes every draw at or below 0. The band of entry
   * i is as wide as its probability, which is what makes the draw
   * distributed as the table says.
   */
  lemma PickBand(r: real, i: nat)
    requires r <= 1.0 && i < |Table|
    ensures Pick(r) == i <==>
      (i == 0 || Cumulative(i) as real / 100.0 < r) && r <= Cumulative(i + 1) as real / 100.0
    ensures Cumulative(i + 1) - Cumulative(i) == Table[i].weight
  {
    UnitDrawIsCovered(r);
    PickIsFirstCovering(r);
    var p := Pick(r);
    if p < i {
      CumulativeMonotone(p + 1, i);
    } else if p > i {
      assert !Covers(r, i);
      if p > 0 {
        assert !Covers(r, p - 1);
      }
    } else if i > 0 {
      assert !Covers(r, i - 1);
    }
  }
}
