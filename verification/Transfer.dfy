/** Host cache transfers in the simulator: contiguous segments and what they cost
    (images/sglang/simulator-upstream/src/sglang_simulator/simulation/sglang/mem_pool_host.py).
    Bytes and bandwidth are real numbers; seconds are too, unless a division by zero comes in. */
module Transfer {
  import opened Common

  // ---------------------------------------------------------------------------------------------
  // Segments.

  /** Index `i` goes on where index `i - 1` left off, on the host and on the device. */
  predicate Contiguous(host: seq<int>, device: seq<int>, i: int)
    requires |host| == |device| && 0 < i < |host|
  {
    host[i] - host[i - 1] == 1 && device[i] - device[i - 1] == 1
  }

  /** The positions below `n` at which a new segment starts, without the first. */
  function Cuts(host: seq<int>, device: seq<int>, n: nat): seq<nat>
    requires |host| == |device| && n <= |host|
  {
    if n <= 1 then []
    else Cuts(host, device, n - 1) + if Contiguous(host, device, n - 1) then [] else [n - 1]
  }

  lemma {:induction false} CutsMeaning(host: seq<int>, device: seq<int>, n: nat)
    requires |host| == |device| && n <= |host|
    ensures forall c :: c in Cuts(host, device, n) <==> 0 < c < n && !Contiguous(host, device, c)
    ensures forall i, j :: 0 <= i < j < |Cuts(host, device, n)| ==> Cuts(host, device, n)[i] < Cuts(host, device, n)[j]
  {
    if n > 1 {
      CutsMeaning(host, device, n - 1);
      var front := Cuts(host, device, n - 1);
      assert forall i :: 0 <= i < |front| ==> front[i] in front;
    }
  }

  function Starts(cuts: seq<nat>): seq<nat> {
    [0] + cuts
  }

  function Ends(cuts: seq<nat>, n: nat): seq<nat> {
    cuts + [n]
  }

  lemma CutsAreInside(host: seq<int>, device: seq<int>)
    requires |host| == |device| && |host| > 0
    ensures var cuts := Cuts(host, device, |host|);
            |Starts(cuts)| == |Ends(cuts, |host|)| && forall i :: 0 <= i < |Starts(cuts)| ==> Starts(cuts)[i] < Ends(cuts, |host|)[i]
  {
    CutsMeaning(host, device, |host|);
    CutsRise(Cuts(host, device, |host|), |host|);
  }

  lemma CutsRise(cuts: seq<nat>, n: nat)
    requires n > 0 && forall c :: c in cuts ==> 0 < c < n
    requires forall i, j :: 0 <= i < j < |cuts| ==> cuts[i] < cuts[j]
    ensures |Starts(cuts)| == |Ends(cuts, n)| && forall i :: 0 <= i < |Starts(cuts)| ==> Starts(cuts)[i] < Ends(cuts, n)[i]
  {
    forall i | 0 <= i < |Starts(cuts)|
      ensures Starts(cuts)[i] < Ends(cuts, n)[i]
    {
      if i > 0 { assert cuts[i - 1] in cuts; }
      if i < |cuts| { assert cuts[i] in cuts; }
    }
  }

  /** The lengths between the starts `[0] + cuts` and the ends `cuts + [n]`. */
  function Differences(starts: seq<nat>, ends: seq<nat>): (r: seq<nat>)
    requires |starts| == |ends| && forall i :: 0 <= i < |starts| ==> starts[i] <= ends[i]
    ensures |r| == |starts| && forall i :: 0 <= i < |starts| ==> r[i] == ends[i] - starts[i]
  {
    seq(|starts|, i requires 0 <= i < |starts| => ends[i] - starts[i])
  }

  function SegmentLengths(host: seq<int>, device: seq<int>): Result<seq<nat>, string> {
    if |host| != |device| then Err("lengths differ")
    else if |host| == 0 then Ok([])
    else
      var cuts := Cuts(host, device, |host|);
      CutsAreInside(host, device);
      Ok(Differences(Starts(cuts), Ends(cuts, |host|)))
  }

  function Sum(lengths: seq<nat>): nat {
    if lengths == [] then 0 else Sum(lengths[..|lengths| - 1]) + lengths[|lengths| - 1]
  }

  lemma SumUpTo(lengths: seq<nat>, k: nat)
    requires k < |lengths|
    ensures Sum(lengths[..k + 1]) == Sum(lengths[..k]) + lengths[k]
  {
    assert lengths[..k + 1][..k] == lengths[..k];
  }

  lemma {:induction false} SumGrows(lengths: seq<nat>, k: nat, n: nat)
    requires k <= n <= |lengths| && forall l :: l in lengths ==> l >= 1
    ensures Sum(lengths[..k]) + (n - k) <= Sum(lengths[..n])
    decreases n - k
  {
    if k < n {
      assert lengths[n - 1] in lengths;
      SumUpTo(lengths, n - 1);
      SumGrows(lengths, k, n - 1);
    }
  }

  /** A segment other than the first starts at `i`. */
  ghost predicate IsStart(lengths: seq<nat>, i: int) {
    exists k :: 0 < k < |lengths| && Sum(lengths[..k]) == i
  }

  /** The lengths cut the indices into maximal runs: none is empty, together they cover everything, and
      a new one starts exactly where the run is broken. */
  ghost predicate MaximalRuns(host: seq<int>, device: seq<int>, lengths: seq<nat>)
    requires |host| == |device|
  {
    && (forall l :: l in lengths ==> l >= 1)
    && Sum(lengths) == |host|
    && forall i :: 0 < i < |host| ==> (IsStart(lengths, i) <==> !Contiguous(host, device, i))
  }

  lemma {:induction false} DifferencesSum(starts: seq<nat>, ends: seq<nat>, k: nat)
    requires |starts| == |ends| && k <= |starts|
    requires forall i :: 0 <= i < |starts| ==> starts[i] <= ends[i]
    requires forall i :: 0 <= i < |starts| - 1 ==> ends[i] == starts[i + 1]
    requires starts != [] && starts[0] == 0
    ensures Sum(Differences(starts, ends)[..k]) == if k == 0 then 0 else ends[k - 1]
  {
    if k > 0 {
      DifferencesSum(starts, ends, k - 1);
      SumUpTo(Differences(starts, ends), k - 1);
      assert k >= 2 ==> ends[k - 2] == starts[k - 2 + 1];
    }
  }

  /** The `k` first lengths add up to the start of segment `k`. */
  lemma LengthsReachCuts(host: seq<int>, device: seq<int>, k: nat)
    requires |host| == |device| && |host| > 0 && k <= |Cuts(host, device, |host|)| + 1
    ensures var cuts, lengths := Cuts(host, device, |host|), SegmentLengths(host, device).value;
            && |lengths| == |cuts| + 1
            && Sum(lengths[..k]) == if k == 0 then 0 else if k <= |cuts| then cuts[k - 1] else |host|
  {
    var cuts := Cuts(host, device, |host|);
    CutsAreInside(host, device);
    DifferencesSum(Starts(cuts), Ends(cuts, |host|), k);
  }

  lemma StartsAreCuts(host: seq<int>, device: seq<int>, i: int)
    requires |host| == |device| && 0 < i < |host|
    ensures IsStart(SegmentLengths(host, device).value, i) <==> i in Cuts(host, device, |host|)
  {
    var cuts, lengths := Cuts(host, device, |host|), SegmentLengths(host, device).value;
    LengthsReachCuts(host, device, 0);
    if i in cuts {
      var j :| 0 <= j < |cuts| && cuts[j] == i;
      LengthsReachCuts(host, device, j + 1);
    }
    if IsStart(lengths, i) {
      var k :| 0 < k < |lengths| && Sum(lengths[..k]) == i;
      LengthsReachCuts(host, device, k);
      assert cuts[k - 1] in cuts;
    }
  }

  /** The segment lengths cut the indices into maximal runs. */
  lemma SegmentsAreMaximalRuns(host: seq<int>, device: seq<int>)
    requires |host| == |device|
    ensures SegmentLengths(host, device).Ok? && MaximalRuns(host, device, SegmentLengths(host, device).value)
  {
    if |host| > 0 {
      var lengths := SegmentLengths(host, device).value;
      CutsAreInside(host, device);
      CutsMeaning(host, device, |host|);
      LengthsReachCuts(host, device, |Cuts(host, device, |host|)| + 1);
      assert lengths[..|lengths|] == lengths;
      forall i | 0 < i < |host|
        ensures IsStart(lengths, i) <==> !Contiguous(host, device, i)
      {
        StartsAreCuts(host, device, i);
      }
    }
  }

  /** No segment starts inside another. */
  lemma NoStartInside(lengths: seq<nat>, k: nat, i: int)
    requires k < |lengths| && IsStart(lengths, i) && forall l :: l in lengths ==> l >= 1
    ensures i <= Sum(lengths[..k]) || i >= Sum(lengths[..k + 1])
  {
    var j :| 0 < j < |lengths| && Sum(lengths[..j]) == i;
    if j <= k { SumGrows(lengths, j, k); } else { SumGrows(lengths, k + 1, j); }
  }

  /** Two cuttings into maximal runs that agree on the first `k` segments agree on the next. */
  lemma NextRunUnique(host: seq<int>, device: seq<int>, a: seq<nat>, b: seq<nat>, k: nat)
    requires |host| == |device| && MaximalRuns(host, device, a) && MaximalRuns(host, device, b)
    requires k < |a| && k < |b| && a[..k] == b[..k]
    ensures a[k] >= b[k]
  {
    var i := Sum(a[..k + 1]);
    SumUpTo(a, k);
    SumUpTo(b, k);
    assert a[k] in a;
    assert a[..|a|] == a && b[..|b|] == b;
    if k + 1 < |a| {
      SumGrows(a, k + 1, |a|);
      assert IsStart(a, i);
      NoStartInside(b, k, i);
    } else {
      SumGrows(b, k + 1, |b|);
    }
  }

  lemma {:induction false} MaximalRunsAgree(host: seq<int>, device: seq<int>, a: seq<nat>, b: seq<nat>, k: nat)
    requires |host| == |device| && MaximalRuns(host, device, a) && MaximalRuns(host, device, b)
    requires k <= |a| && k <= |b|
    ensures a[..k] == b[..k]
  {
    if k > 0 {
      MaximalRunsAgree(host, device, a, b, k - 1);
      NextRunUnique(host, device, a, b, k - 1);
      NextRunUnique(host, device, b, a, k - 1);
      assert a[..k] == a[..k - 1] + [a[k - 1]] && b[..k] == b[..k - 1] + [b[k - 1]];
    }
  }

  lemma NoLongerCutting(host: seq<int>, device: seq<int>, a: seq<nat>, b: seq<nat>)
    requires |host| == |device| && MaximalRuns(host, device, a) && MaximalRuns(host, device, b)
    ensures |a| >= |b|
  {
    if |a| < |b| {
      MaximalRunsAgree(host, device, a, b, |a|);
      assert a[..|a|] == a && b[..|b|] == b;
      SumGrows(b, |a|, |b|);
      assert false;
    }
  }

  /** There is one cutting into maximal runs, so the segment lengths are determined by it. */
  lemma MaximalRunsUnique(host: seq<int>, device: seq<int>, lengths: seq<nat>)
    requires |host| == |device| && MaximalRuns(host, device, lengths)
    ensures SegmentLengths(host, device) == Ok(lengths)
  {
    SegmentsAreMaximalRuns(host, device);
    var own := SegmentLengths(host, device).value;
    NoLongerCutting(host, device, own, lengths);
    NoLongerCutting(host, device, lengths, own);
    MaximalRunsAgree(host, device, own, lengths, |own|);
    assert own[..|own|] == own && lengths[..|lengths|] == lengths;
  }

  // ---------------------------------------------------------------------------------------------
  // The segments of a transfer.

  /** A host pool: how it maps indices to pages, if it does, whether it is a paged pool that counts
      logical tokens, and the bytes of one unit. */
  datatype Pool = Pool(toPages: Option<seq<int> -> seq<int>>, countsTokens: bool, unitBytes: real)

  function Pages(pool: Pool, indices: seq<int>): seq<int> {
    if pool.toPages.Some? then pool.toPages.value(indices) else indices
  }

  /** The last segment takes the tokens that the page rows do not show. */
  function TransferLengths(pool: Pool, host: Option<seq<int>>, device: Option<seq<int>>, countTokens: bool)
    : Result<seq<int>, string>
  {
    if host.None? || device.None? then Ok([])
    else
      var rows := Pages(pool, host.value);
      match SegmentLengths(rows, Pages(pool, device.value))
      case Err(e) => Err(e)
      case Ok(lengths) =>
        if lengths == [] || !countTokens || !pool.countsTokens then Ok(lengths)
        else
          var last := |lengths| - 1;
          Ok(lengths[..last] + [lengths[last] + (|host.value| - |rows|)])
  }

  function SumInt(lengths: seq<int>): int {
    if lengths == [] then 0 else SumInt(lengths[..|lengths| - 1]) + lengths[|lengths| - 1]
  }

  lemma {:induction false} SumIntIsSum(lengths: seq<nat>)
    ensures SumInt(lengths) == Sum(lengths)
  {
    if lengths != [] { SumIntIsSum(lengths[..|lengths| - 1]); }
  }

  /** The units a transfer moves: page rows, or the original tokens where tokens count. */
  function UnitsMoved(pool: Pool, host: seq<int>, countTokens: bool): nat {
    if countTokens && pool.countsTokens then |host| else |Pages(pool, host)|
  }

  /** The lengths of a transfer that moves something add up to its units. */
  lemma {:induction false} TransferUnits(pool: Pool, host: seq<int>, device: seq<int>, countTokens: bool, lengths: seq<int>)
    requires TransferLengths(pool, Some(host), Some(device), countTokens) == Ok(lengths) && lengths != []
    ensures SumInt(lengths) == UnitsMoved(pool, host, countTokens)
  {
    var rows := Pages(pool, host);
    SegmentsAreMaximalRuns(rows, Pages(pool, device));
    var own := SegmentLengths(rows, Pages(pool, device)).value;
    SumIntIsSum(own);
    if lengths != own {
      var last := |own| - 1;
      assert lengths[..last] == own[..last];
    }
  }

  // ---------------------------------------------------------------------------------------------
  // The cost of a transfer.

  /** Launch overhead in seconds and effective bandwidth of one direction. */
  datatype Link = Link(overhead: real, bandwidth: real)

  function LoadLink(readBandwidth: real): Link {
    Link(0.00000667, readBandwidth * 0.85)
  }

  function BackupLink(writeBandwidth: real): Link {
    Link(0.000004, writeBandwidth * 0.85)
  }

  /** A number of the arrays: division by zero gives an infinity or no number. */
  datatype Float = Finite(value: real) | Infinite(negative: bool) | NotANumber

  function Divide(x: real, d: Float): Float {
    match d
    case NotANumber => NotANumber
    case Infinite(_) => Finite(0.0)
    case Finite(v) =>
      if v != 0.0 then Finite(x / v) else if x == 0.0 then NotANumber else Infinite(x < 0.0)
  }

  function Add(a: Float, b: Float): Float {
    if a.NotANumber? || b.NotANumber? then NotANumber
    else if a.Finite? && b.Finite? then Finite(a.value + b.value)
    else if a.Infinite? && b.Infinite? && a != b then NotANumber
    else if a.Infinite? then a else b
  }

  function EstimateBandwidth(overhead: real, bandwidth: real, size: real): Float {
    Divide(size * bandwidth, Finite(overhead * bandwidth + size))
  }

  function Seconds(overhead: real, bandwidth: real, size: real): Float {
    Divide(size, EstimateBandwidth(overhead, bandwidth, size))
  }

  /** A segment costs its overhead plus its bytes at the effective bandwidth, also where the estimate is
      infinite. An empty segment costs no number, and without bandwidth any other costs an infinity. */
  function SegmentSeconds(overhead: real, bandwidth: real, size: real): Float {
    if size == 0.0 then NotANumber
    else if bandwidth != 0.0 then Finite(overhead + size / bandwidth)
    else Infinite(size < 0.0)
  }

  lemma SegmentTime(overhead: real, bandwidth: real, size: real)
    ensures Seconds(overhead, bandwidth, size) == SegmentSeconds(overhead, bandwidth, size)
  {
    if bandwidth == 0.0 || size == 0.0 {
      EmptySegment(overhead, bandwidth, size);
    } else {
      FullSegment(overhead, bandwidth, size);
    }
  }

  lemma EmptySegment(overhead: real, bandwidth: real, size: real)
    requires bandwidth == 0.0 || size == 0.0
    ensures Seconds(overhead, bandwidth, size) == SegmentSeconds(overhead, bandwidth, size)
  {
    assert size * bandwidth == 0.0;
    if bandwidth == 0.0 { assert overhead * bandwidth == 0.0; }
  }

  lemma FullSegment(overhead: real, bandwidth: real, size: real)
    requires bandwidth != 0.0 && size != 0.0
    ensures Seconds(overhead, bandwidth, size) == SegmentSeconds(overhead, bandwidth, size)
  {
    var product, load, time := EstimatedTime(overhead, bandwidth, size);
    assert EstimateBandwidth(overhead, bandwidth, size) == Divide(product, Finite(load));
    assert Seconds(overhead, bandwidth, size) == Divide(size, Divide(product, Finite(load)));
    assert SegmentSeconds(overhead, bandwidth, size) == Finite(time);
  }

  /** The estimate gives the time that the bandwidth needs for overhead and bytes. */
  lemma EstimatedTime(overhead: real, bandwidth: real, size: real) returns (product: real, load: real, time: real)
    requires bandwidth != 0.0 && size != 0.0
    ensures product == size * bandwidth && load == overhead * bandwidth + size && time == overhead + size / bandwidth
    ensures Divide(size, Divide(product, Finite(load))) == Finite(time)
  {
    product, load, time := size * bandwidth, overhead * bandwidth + size, overhead + size / bandwidth;
    TimesBandwidth(overhead, size, bandwidth);
    ProductIsNot(size, bandwidth);
    if load == 0.0 {
      NoProduct(time, bandwidth);
    } else {
      SecondsOf(size, bandwidth, load, time);
      DividesTo(size, product, load, product / load, time);
    }
  }

  lemma DividesTo(size: real, product: real, load: real, rate: real, time: real)
    requires load != 0.0 && rate == product / load && rate != 0.0 && time == size / rate
    ensures Divide(size, Divide(product, Finite(load))) == Finite(time)
  {
  }

  lemma ProductIsNot(x: real, y: real)
    requires x != 0.0 && y != 0.0
    ensures x * y != 0.0
  {
  }

  lemma TimesBandwidth(overhead: real, size: real, bandwidth: real)
    requires bandwidth != 0.0
    ensures (overhead + size / bandwidth) * bandwidth == overhead * bandwidth + size
  {
    var q := size / bandwidth;
    assert q * bandwidth == size;
    assert (overhead + q) * bandwidth == overhead * bandwidth + q * bandwidth;
  }

  lemma NoProduct(x: real, y: real)
    requires y != 0.0 && x * y == 0.0
    ensures x == 0.0
  {
  }

  lemma SecondsOf(size: real, bandwidth: real, load: real, time: real)
    requires load != 0.0 && size * bandwidth != 0.0 && time * bandwidth == load
    ensures size * bandwidth / load != 0.0 && size / (size * bandwidth / load) == time
  {
    var rate := size * bandwidth / load;
    assert rate * load == size * bandwidth;
    assert rate * time * bandwidth == size * bandwidth;
    assert rate * time == size;
  }

  /** The bytes of each segment. */
  function Sizes(lengths: seq<int>, unitBytes: real): (sizes: seq<real>)
    ensures |sizes| == |lengths|
  {
    if lengths == [] then []
    else Sizes(lengths[..|lengths| - 1], unitBytes) + [Bytes(lengths[|lengths| - 1], unitBytes)]
  }

  function Bytes(units: int, unitBytes: real): real {
    units as real * unitBytes
  }

  lemma {:induction false} SizesAt(lengths: seq<int>, unitBytes: real, i: nat)
    requires i < |lengths|
    ensures Sizes(lengths, unitBytes)[i] == Bytes(lengths[i], unitBytes)
    decreases |lengths|
  {
    if i < |lengths| - 1 { SizesAt(lengths[..|lengths| - 1], unitBytes, i); }
  }

  function Total(sizes: seq<real>): real {
    if sizes == [] then 0.0 else Total(sizes[..|sizes| - 1]) + sizes[|sizes| - 1]
  }

  /** The sum, over the segments, of their bytes divided by the bandwidth estimated for each. */
  function TransferTime(link: Link, sizes: seq<real>): Float
    decreases |sizes|
  {
    if sizes == [] then Finite(0.0)
    else
      var n := |sizes| - 1;
      Add(TransferTime(link, sizes[..n]), Seconds(link.overhead, link.bandwidth, sizes[n]))
  }

  function ClosedTime(link: Link, segments: nat, bytes: real): real
    requires link.bandwidth != 0.0
  {
    segments as real * link.overhead + bytes / link.bandwidth
  }

  lemma ClosedTimeStep(link: Link, n: nat, front: real, size: real)
    requires link.bandwidth != 0.0
    ensures ClosedTime(link, n, front) + (link.overhead + size / link.bandwidth) == ClosedTime(link, n + 1, front + size)
  {
    Distributes(front, size, link.bandwidth);
    var k := n as real;
    assert (n + 1) as real == k + 1.0;
    assert (k + 1.0) * link.overhead == k * link.overhead + link.overhead;
  }

  lemma Distributes(a: real, b: real, d: real)
    requires d != 0.0
    ensures (a + b) / d == a / d + b / d
  {
  }

  /** All segments point one way. */
  predicate OneWay(sizes: seq<real>, negative: bool) {
    forall i :: 0 <= i < |sizes| ==> (sizes[i] < 0.0) == negative
  }

  /** The time of a transfer in closed form: an overhead per segment, and all bytes at the effective
      bandwidth. With an empty segment it is no number, and without bandwidth an infinity, or no number
      when the segments point both ways. */
  function ClosedSeconds(link: Link, sizes: seq<real>, bytes: real): Float {
    if sizes == [] then Finite(0.0)
    else if 0.0 in sizes then NotANumber
    else if link.bandwidth != 0.0 then Finite(ClosedTime(link, |sizes|, bytes))
    else if OneWay(sizes, true) then Infinite(true)
    else if OneWay(sizes, false) then Infinite(false)
    else NotANumber
  }

  lemma TransferTimeStep(link: Link, front: seq<real>, size: real)
    ensures TransferTime(link, front + [size])
         == Add(TransferTime(link, front), SegmentSeconds(link.overhead, link.bandwidth, size))
  {
    SegmentTime(link.overhead, link.bandwidth, size);
    assert (front + [size])[..|front|] == front;
  }

  lemma {:induction false} TransferTimeClosedForm(link: Link, sizes: seq<real>)
    ensures TransferTime(link, sizes) == ClosedSeconds(link, sizes, Total(sizes))
    decreases |sizes|
  {
    if sizes != [] {
      var n := |sizes| - 1;
      var front, size := sizes[..n], sizes[n];
      TransferTimeClosedForm(link, front);
      TransferTimeStep(link, front, size);
      ClosedSecondsStep(link, front, size, Total(front));
      assert sizes == front + [size];
    }
  }

  lemma ClosedSecondsStep(link: Link, front: seq<real>, size: real, bytes: real)
    requires front == [] ==> bytes == 0.0
    ensures Add(ClosedSeconds(link, front, bytes), SegmentSeconds(link.overhead, link.bandwidth, size))
         == ClosedSeconds(link, front + [size], bytes + size)
  {
    var sizes := front + [size];
    assert 0.0 in sizes <==> 0.0 in front || size == 0.0;
    if link.bandwidth != 0.0 {
      ClosedTimeStep(link, |front|, bytes, size);
    } else if 0.0 !in sizes {
      OneWayStep(front, size, true);
      OneWayStep(front, size, false);
      if front != [] { assert OneWay(front, true) ==> front[0] < 0.0; }
    }
  }

  lemma OneWayStep(front: seq<real>, size: real, negative: bool)
    ensures OneWay(front + [size], negative) <==> OneWay(front, negative) && (size < 0.0) == negative
  {
    var sizes := front + [size];
    assert sizes[|front|] == size && forall i :: 0 <= i < |front| ==> sizes[i] == front[i];
  }

  lemma Scales(a: int, b: int, unit: real)
    ensures Bytes(a + b, unit) == Bytes(a, unit) + Bytes(b, unit)
  {
    var x, y := a as real, b as real;
    assert (a + b) as real == x + y;
    assert (x + y) * unit == x * unit + y * unit;
  }

  lemma {:induction false} TotalIsUnits(lengths: seq<int>, unitBytes: real)
    ensures Total(Sizes(lengths, unitBytes)) == Bytes(SumInt(lengths), unitBytes)
    decreases |lengths|
  {
    if lengths != [] {
      var n := |lengths| - 1;
      TotalIsUnits(lengths[..n], unitBytes);
      Scales(SumInt(lengths[..n]), lengths[n], unitBytes);
      assert Sizes(lengths, unitBytes)[..n] == Sizes(lengths[..n], unitBytes);
    }
  }

  /** The bytes a transfer moves, from its indices. */
  function BytesMoved(pool: Pool, host: seq<int>, countTokens: bool): real {
    Bytes(UnitsMoved(pool, host, countTokens), pool.unitBytes)
  }

  /** The bytes of the segments are those of the units. */
  lemma {:induction false} TransferMoves(pool: Pool, host: seq<int>, device: seq<int>, countTokens: bool, lengths: seq<int>)
    requires TransferLengths(pool, Some(host), Some(device), countTokens) == Ok(lengths) && lengths != []
    ensures SumInt(lengths) == UnitsMoved(pool, host, countTokens)
    ensures Total(Sizes(lengths, pool.unitBytes)) == BytesMoved(pool, host, countTokens)
  {
    TransferUnits(pool, host, device, countTokens, lengths);
    TotalIsUnits(lengths, pool.unitBytes);
  }

  /** A transfer moves its units, and takes an overhead per segment plus all bytes at the bandwidth. */
  lemma {:induction false} TransferCost(pool: Pool, host: seq<int>, device: seq<int>, countTokens: bool, link: Link,
                                        lengths: seq<int>, sizes: seq<real>)
    requires TransferLengths(pool, Some(host), Some(device), countTokens) == Ok(lengths) && lengths != []
    requires sizes == Sizes(lengths, pool.unitBytes)
    ensures SumInt(lengths) == UnitsMoved(pool, host, countTokens)
    ensures Total(sizes) == BytesMoved(pool, host, countTokens)
    ensures TransferTime(link, sizes) == CostOf(pool, host, countTokens, link, lengths)
  {
    TransferMoves(pool, host, device, countTokens, lengths);
    TransferTimeClosedForm(link, sizes);
  }

  /** The time of a transfer that moves something, in terms of its indices. */
  function CostOf(pool: Pool, host: seq<int>, countTokens: bool, link: Link, lengths: seq<int>): Float {
    ClosedSeconds(link, Sizes(lengths, pool.unitBytes), BytesMoved(pool, host, countTokens))
  }

  /** Every segment holds something, as long as pages are no more than tokens where tokens count. */
  lemma LengthsPositive(pool: Pool, host: seq<int>, device: seq<int>, countTokens: bool)
    requires TransferLengths(pool, Some(host), Some(device), countTokens).Ok?
    requires countTokens && pool.countsTokens ==> |Pages(pool, host)| <= |host|
    ensures forall l :: l in TransferLengths(pool, Some(host), Some(device), countTokens).value ==> l >= 1
  {
    SegmentsAreMaximalRuns(Pages(pool, host), Pages(pool, device));
    var lengths := SegmentLengths(Pages(pool, host), Pages(pool, device)).value;
    assert forall i :: 0 <= i < |lengths| ==> lengths[i] in lengths;
  }

  lemma ZeroBytes(units: int, unitBytes: real)
    ensures Bytes(units, unitBytes) == 0.0 <==> units == 0 || unitBytes == 0.0
  {
    var n := units as real;
    assert n == 0.0 <==> units == 0;
  }

  /** Some segment is empty exactly when units have no bytes or a segment has no units. */
  lemma EmptySegmentExactly(lengths: seq<int>, unitBytes: real)
    requires lengths != []
    ensures 0.0 in Sizes(lengths, unitBytes) <==> unitBytes == 0.0 || 0 in lengths
  {
    var sizes := Sizes(lengths, unitBytes);
    forall i | 0 <= i < |lengths|
      ensures sizes[i] == 0.0 <==> lengths[i] == 0 || unitBytes == 0.0
    {
      SizesAt(lengths, unitBytes, i);
      ZeroBytes(lengths[i], unitBytes);
    }
    assert unitBytes == 0.0 ==> sizes[0] == 0.0;
  }

  /** With bandwidth, the time of a transfer is a number, the closed one, exactly when units have bytes and
      no segment is without units. */
  lemma TimeIsNumberExactly(pool: Pool, host: seq<int>, device: seq<int>, countTokens: bool, link: Link, lengths: seq<int>)
    requires TransferLengths(pool, Some(host), Some(device), countTokens) == Ok(lengths) && lengths != []
    requires link.bandwidth != 0.0
    ensures TransferTime(link, Sizes(lengths, pool.unitBytes))
         == if pool.unitBytes == 0.0 || 0 in lengths then NotANumber
            else Finite(ClosedTime(link, |lengths|, BytesMoved(pool, host, countTokens)))
  {
    TransferCost(pool, host, device, countTokens, link, lengths, Sizes(lengths, pool.unitBytes));
    EmptySegmentExactly(lengths, pool.unitBytes);
  }

  /** And it is one for positive sizes, as long as there are no more pages than tokens where tokens count. */
  lemma TransfersAreMeasurable(pool: Pool, host: seq<int>, device: seq<int>, countTokens: bool, link: Link, lengths: seq<int>)
    requires TransferLengths(pool, Some(host), Some(device), countTokens) == Ok(lengths) && lengths != []
    requires pool.unitBytes > 0.0 && link.bandwidth > 0.0
    requires countTokens && pool.countsTokens ==> |Pages(pool, host)| <= |host|
    ensures TransferTime(link, Sizes(lengths, pool.unitBytes))
         == Finite(ClosedTime(link, |lengths|, BytesMoved(pool, host, countTokens)))
  {
    LengthsPositive(pool, host, device, countTokens);
    TimeIsNumberExactly(pool, host, device, countTokens, link, lengths);
  }

  /** The bytes and the time of a transfer that moves something. */
  method Measure(pool: Pool, host: seq<int>, device: seq<int>, countTokens: bool, link: Link, lengths: seq<int>)
    returns (units: int, bytes: real, seconds: Float)
    requires TransferLengths(pool, Some(host), Some(device), countTokens) == Ok(lengths) && lengths != []
    ensures units == UnitsMoved(pool, host, countTokens) && bytes == BytesMoved(pool, host, countTokens)
    ensures seconds == CostOf(pool, host, countTokens, link, lengths)
  {
    var sizes := Sizes(lengths, pool.unitBytes);
    TransferCost(pool, host, device, countTokens, link, lengths, sizes);
    return SumInt(lengths), Total(sizes), TransferTime(link, sizes);
  }

  /** The counters the simulated transfers add to. */
  class Counters {
    var calls: nat
    var segments: nat
    var units: int
    var bytes: real
    var loadTime: Float
    var backupTime: Float

    constructor ()
      ensures calls == 0 && segments == 0 && units == 0 && bytes == 0.0 && loadTime == backupTime == Finite(0.0)
    {
      calls, segments, units, bytes, loadTime, backupTime := 0, 0, 0, 0.0, Finite(0.0), Finite(0.0);
    }

    /** A simulated load: it counts the units and bytes of the transfer, and its time. */
    method Load(pool: Pool, host: Option<seq<int>>, device: Option<seq<int>>, readBandwidth: real)
      returns (r: Result<seq<int>, string>)
      modifies this
      ensures r == TransferLengths(pool, host, device, true) && backupTime == old(backupTime)
      ensures r.Err? || r.value == [] ==> unchanged(this)
      ensures r.Ok? && r.value != [] ==>
                && host.Some? && calls == old(calls) + 1 && segments == old(segments) + |r.value|
                && units == old(units) + UnitsMoved(pool, host.value, true)
                && bytes == old(bytes) + BytesMoved(pool, host.value, true)
                && loadTime == Add(old(loadTime), CostOf(pool, host.value, true, LoadLink(readBandwidth), r.value))
    {
      r := TransferLengths(pool, host, device, true);
      if r.Err? || r.value == [] { return; }
      var moved, size, seconds := Measure(pool, host.value, device.value, true, LoadLink(readBandwidth), r.value);
      calls, segments := calls + 1, segments + |r.value|;
      units, bytes := units + moved, bytes + size;
      loadTime := Add(loadTime, seconds);
    }

    /** A simulated backup: only its time counts. */
    method Backup(pool: Pool, host: Option<seq<int>>, device: Option<seq<int>>, writeBandwidth: real)
      returns (r: Result<seq<int>, string>)
      modifies this`backupTime
      ensures r == TransferLengths(pool, host, device, false)
      ensures r.Err? || r.value == [] ==> backupTime == old(backupTime)
      ensures r.Ok? && r.value != [] ==>
                && host.Some?
                && backupTime == Add(old(backupTime), CostOf(pool, host.value, false, BackupLink(writeBandwidth), r.value))
    {
      r := TransferLengths(pool, host, device, false);
      if r.Err? || r.value == [] { return; }
      var _, _, seconds := Measure(pool, host.value, device.value, false, BackupLink(writeBandwidth), r.value);
      backupTime := Add(backupTime, seconds);
    }
  }
}
