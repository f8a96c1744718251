/** The "percent remaining" shown for a pod, and the colour bucket it falls into,
    as the pod list (PodAdapter) and the reports chart compute them. */
module PodProgress {
  import opened Data

  const IntMin: int := -0x8000_0000
  const IntMax: int := 0x7FFF_FFFF

  datatype Colour = Green | Yellow | Red

  /** A pod row's progress bar: gone, or shown with a value and a colour. */
  datatype ProgressBar = Gone | Visible(progress: int, colour: Colour)

  /** Division of `a` by a positive `b`, truncated toward zero as `Double.toInt()` does. */
  function TruncDiv(a: int, b: int): (q: int)
    requires b > 0
    ensures a >= 0 ==> q >= 0 && q * b <= a < q * b + b
    ensures a < 0 ==> q <= 0 && q * b - b < a <= q * b
  {
    if a >= 0 then
      FloorDivBounds(a, b);
      a / b
    else
      FloorDivBounds(-a, b);
      -((-a) / b)
  }

  lemma FloorDivBounds(a: int, b: int)
    requires a >= 0 && b > 0
    ensures a / b >= 0 && (a / b) * b <= a < (a / b) * b + b
  {
    assert a == (a / b) * b + a % b;
  }

  /** Scaling by a positive factor keeps the order. */
  lemma ScaleMonotonic(x: int, y: int, b: int)
    requires x <= y && b > 0
    ensures x * b <= y * b
  {
    assert y * b - x * b == (y - x) * b;
  }

  /** `Double.toInt()` clamps values outside the 32-bit range to its ends. */
  function Saturate(x: int): (r: int)
    ensures IntMin <= r <= IntMax
    ensures IntMin <= x <= IntMax ==> r == x
    ensures x > IntMax ==> r == IntMax
    ensures x < IntMin ==> r == IntMin
  {
    if x > IntMax then IntMax else if x < IntMin then IntMin else x
  }

  /** `(balance / startingBalance * 100).toInt()` for a positive starting balance. */
  function Progress(balance: int, startingBalance: int): int
    requires startingBalance > 0
  {
    Saturate(TruncDiv(balance * 100, startingBalance))
  }

  /** The colour buckets: above 50 green, above 25 yellow, otherwise red. */
  function ColourFor(progress: int): (c: Colour)
    ensures c == Green <==> progress > 50
    ensures c == Yellow <==> 25 < progress <= 50
    ensures c == Red <==> progress <= 25
  {
    if progress > 50 then Green else if progress > 25 then Yellow else Red
  }

  function ColourRank(c: Colour): nat {
    match c
    case Red => 0
    case Yellow => 1
    case Green => 2
  }

  /** More progress never gives a worse colour. */
  lemma ColourMonotonic(p: int, q: int)
    requires p <= q
    ensures ColourRank(ColourFor(p)) <= ColourRank(ColourFor(q))
  {
  }

  /** A pod that has not used any of its money shows 100; an empty pod shows 0; in
      between the value stays between 0 and 100. */
  lemma ProgressBounds(balance: int, startingBalance: int)
    requires startingBalance > 0
    requires 0 <= balance <= startingBalance
    ensures 0 <= Progress(balance, startingBalance) <= 100
    ensures balance == startingBalance ==> Progress(balance, startingBalance) == 100
    ensures balance == 0 ==> Progress(balance, startingBalance) == 0
  {
    var a := balance * 100;
    var q := TruncDiv(a, startingBalance);
    ScaleMonotonic(balance, startingBalance, 100);
    AtLeastIff(q, startingBalance, a, 101);
    AtLeastIff(q, startingBalance, a, 100);
    AtLeastIff(q, startingBalance, a, 1);
  }

  /** The colour a pod gets, stated on its own numbers rather than on the truncated
      percentage: green when more than 50% of the starting balance is left (at least
      51%, once truncated), yellow from 26% up to that, red below 26%. This holds for
      any balance, negative ones included, and through the 32-bit clamp. */
  lemma ColourThresholds(balance: int, startingBalance: int)
    requires startingBalance > 0
    ensures ColourFor(Progress(balance, startingBalance)) == Green <==> 100 * balance >= 51 * startingBalance
    ensures ColourFor(Progress(balance, startingBalance)) == Red <==> 100 * balance < 26 * startingBalance
  {
    var a := balance * 100;
    var q := TruncDiv(a, startingBalance);
    if a >= 0 {
      AtLeastIff(q, startingBalance, a, 51);
      AtLeastIff(q, startingBalance, a, 26);
    }
  }

  /** For the floor `q` of `a / b`: `q >= n` exactly when `a >= n * b`. */
  lemma AtLeastIff(q: int, b: int, a: int, n: int)
    requires b > 0 && q * b <= a < q * b + b
    ensures q >= n <==> a >= n * b
  {
    if q >= n {
      ScaleMonotonic(n, q, b);
    } else {
      ScaleMonotonic(q + 1, n, b);
      assert (q + 1) * b == q * b + b;
    }
  }

  /** `PodViewHolder.bind`: the bar is shown exactly when the starting balance is
      positive, with the truncated percentage and its colour. */
  function PodProgressBar(pod: Pod): (bar: ProgressBar)
    ensures bar.Visible? <==> pod.startingBalance > 0
    ensures bar.Visible? ==> bar.colour == ColourFor(bar.progress)
    ensures bar.Visible? ==> bar.progress == Progress(pod.balance, pod.startingBalance)
  {
    if pod.startingBalance > 0 then
      var progress := Progress(pod.balance, pod.startingBalance);
      Visible(progress, ColourFor(progress))
    else
      Gone
  }

  /** The reports chart's progress: 0 when there is no positive starting balance. */
  function ReportProgress(pod: Pod): (progress: int)
    ensures pod.startingBalance <= 0 ==> progress == 0
    ensures pod.startingBalance > 0 ==> progress == Progress(pod.balance, pod.startingBalance)
  {
    if pod.startingBalance > 0 then Progress(pod.balance, pod.startingBalance) else 0
  }

  /** The chart colours a pod the same as its row in the pod list; a pod whose bar is
      hidden in the list is red in the chart. */
  lemma ChartColourMatchesList(pod: Pod)
    ensures PodProgressBar(pod).Visible? ==> ColourFor(ReportProgress(pod)) == PodProgressBar(pod).colour
    ensures PodProgressBar(pod).Gone? ==> ColourFor(ReportProgress(pod)) == Red
  {
  }

  /** `PodDiffCallback.areItemsTheSame`: the same pod when the ids match. */
  function AreItemsTheSame(oldItem: Pod, newItem: Pod): bool {
    oldItem.id == newItem.id
  }

  /** `PodDiffCallback.areContentsTheSame`: structural equality of the whole record. */
  function AreContentsTheSame(oldItem: Pod, newItem: Pod): bool {
    oldItem == newItem
  }

  /** The diff callbacks are consistent: same contents implies the same item, and being
      the same item is reflexive and symmetric. A changed balance is a content change
      of the same item. */
  lemma DiffCallbackConsistent(a: Pod, b: Pod)
    ensures AreContentsTheSame(a, b) ==> AreItemsTheSame(a, b)
    ensures AreItemsTheSame(a, a) && AreItemsTheSame(a, b) == AreItemsTheSame(b, a)
    ensures a.id == b.id && a.balance != b.balance ==> AreItemsTheSame(a, b) && !AreContentsTheSame(a, b)
  {
  }
}
