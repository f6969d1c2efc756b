/** CPU-burst quantisation shared by both task variants: every burst costs
    one time unit and retires `min(3, pending)` instructions. */
module Bursts {

  /** The most instructions one burst can retire. */
  const BURST_SIZE: int := 3

  /** Instructions retired by one burst when `pending` remain: the smaller of
      the two. */
  function Retired(pending: int): (r: int)
    requires pending > 0
    ensures 1 <= r <= BURST_SIZE && r <= pending
    ensures r == pending || r == BURST_SIZE
  {
    if pending < BURST_SIZE then pending else BURST_SIZE
  }

  /** The instructions retired by each successive burst of a loop that starts
      with `pending` instructions and runs while some remain. */
  function BurstSizes(pending: int): (s: seq<int>)
    ensures pending <= 0 <==> s == []
    decreases pending
  {
    if pending <= 0 then [] else [Retired(pending)] + BurstSizes(pending - Retired(pending))
  }

  /** ceil(n / BURST_SIZE) for a non-negative n. */
  function CeilBursts(n: int): (c: nat)
    requires n >= 0
    ensures (c - 1) * BURST_SIZE < n <= c * BURST_SIZE
  {
    (n + BURST_SIZE - 1) / BURST_SIZE
  }

  function Sum(s: seq<int>): int
  {
    if s == [] then 0 else s[0] + Sum(s[1..])
  }

  /** The loop runs ceil(n/3) bursts when n > 0, and none otherwise. */
  lemma {:induction false} BurstCount(n: int)
    ensures |BurstSizes(n)| == if n > 0 then CeilBursts(n) else 0
    decreases n
  {
    if n > 0 {
      BurstCount(n - Retired(n));
    }
  }

  /** The bursts retire exactly the initial instructions, so the counter
      ends at exactly 0 and never drops below it. */
  lemma {:induction false} BurstsRetireAll(n: int)
    ensures Sum(BurstSizes(n)) == if n > 0 then n else 0
    decreases n
  {
    if n > 0 {
      BurstsRetireAll(n - Retired(n));
    }
  }

  /** Every burst retires between 1 and 3 instructions, and every burst but
      the last retires a full 3. */
  lemma {:induction false} BurstShape(n: int)
    ensures forall i :: 0 <= i < |BurstSizes(n)| ==> 1 <= BurstSizes(n)[i] <= BURST_SIZE
    ensures forall i :: 0 <= i < |BurstSizes(n)| - 1 ==> BurstSizes(n)[i] == BURST_SIZE
    decreases n
  {
    if n > 0 {
      var rest := n - Retired(n);
      BurstShape(rest);
      if rest > 0 {
        assert Retired(n) == BURST_SIZE;
      }
    }
  }
}
