/** `findBestTransfer` (transferwise.go:341-348): the pending transfer with the best locked rate. */
module Selection {
  import opened Records

  /** Position k holds a greatest rate of ts, and every earlier position a strictly smaller one. */
  ghost predicate IsFirstBest(ts: seq<Transfer>, k: int) {
    && 0 <= k < |ts|
    && (forall j :: 0 <= j < |ts| ==> ts[j].rate <= ts[k].rate)
    && (forall j :: 0 <= j < k ==> ts[j].rate < ts[k].rate)
  }

  /** The position the selection loop holds after visiting the first n transfers. */
  function BestIndex(ts: seq<Transfer>, n: nat): (k: nat)
    requires 0 < n <= |ts|
    ensures k < n
  {
    if n == 1 then 0
    else
      var k := BestIndex(ts, n - 1);
      if ts[k].rate < ts[n - 1].rate then n - 1 else k
  }

  lemma {:induction false} BestIndexIsFirstBest(ts: seq<Transfer>, n: nat)
    requires 0 < n <= |ts|
    ensures IsFirstBest(ts[..n], BestIndex(ts, n))
  {
    if n > 1 {
      BestIndexIsFirstBest(ts, n - 1);
    }
  }

  /** At most one position is a first maximum, so the choice is fully determined. */
  lemma FirstBestIsUnique(ts: seq<Transfer>, k1: int, k2: int)
    requires IsFirstBest(ts, k1) && IsFirstBest(ts, k2)
    ensures k1 == k2
  {
    assert ts[k1].rate == ts[k2].rate;
  }

  /**
   * Visits the list once, replacing the candidate only on a strictly greater rate,
   * so a tie keeps the earlier transfer. An empty list yields the zero transfer.
   */
  method FindBestTransfer(ts: seq<Transfer>) returns (best: Transfer)
    ensures |ts| == 0 ==> best == EmptyTransfer
    ensures |ts| > 0 ==> IsFirstBest(ts, BestIndex(ts, |ts|)) && best == ts[BestIndex(ts, |ts|)]
  {
    best := EmptyTransfer;
    ghost var k := 0;
    for i := 0 to |ts|
      invariant i == 0 ==> best == EmptyTransfer
      invariant 0 < i ==> k == BestIndex(ts, i) && best == ts[k]
    {
      if i == 0 || best.rate < ts[i].rate {
        best := ts[i];
        k := i;
      }
    }
    if |ts| > 0 {
      BestIndexIsFirstBest(ts, |ts|);
      assert ts[..|ts|] == ts;
    }
  }
}
