/**
 * Capture-format selection: the resolution-tier lookup and the first-match
 * scan over a device's formats and their frame-rate ranges that
 * `startSlowMoCapture` performs before locking the device.
 */
module FormatSelection {
  import opened Common

  /** A frame-rate range a format advertises (`AVFrameRateRange`), in frames per second. */
  datatype FrameRateRange = FrameRateRange(minFrameRate: real, maxFrameRate: real)

  /**
   * A capture format (`AVCaptureDevice.Format`): its pixel dimensions and its
   * frame-rate ranges in the order the device lists them.
   */
  datatype Format = Format(width: int, height: int, ranges: seq<FrameRateRange>)

  /** A minimum (width, height) a format has to reach. */
  datatype Size = Size(width: int, height: int)

  /**
   * The outcome of a successful scan: the position of the chosen format in
   * the device's list and the position of the chosen range inside it.
   */
  datatype Choice = Choice(format: nat, range: nat)

  const Size1080p: Size := Size(1920, 1080)
  const Size720p: Size := Size(1280, 720)

  /** The minimum size a resolution string asks for; anything but "1080p" means 720p. */
  function DesiredSize(resolution: string): (size: Size)
    ensures size == Size1080p <==> resolution == "1080p"
    ensures size != Size1080p ==> size == Size720p
  {
    if resolution == "1080p" then Size1080p else Size720p
  }

  /** The 1080p tier asks for at least as much as the 720p tier in both dimensions. */
  lemma TiersAreOrdered(resolution: string)
    ensures DesiredSize(resolution).width <= Size1080p.width
    ensures DesiredSize(resolution).height <= Size1080p.height
    ensures Size720p.width <= DesiredSize(resolution).width
    ensures Size720p.height <= DesiredSize(resolution).height
  {
  }

  /** A range is usable for `fps` when its maximum reaches it; its minimum is not looked at. */
  predicate CanReach(r: FrameRateRange, fps: int) {
    r.maxFrameRate >= fps as real
  }

  /** A format is kept unless it is narrower or shorter than the desired size. */
  predicate LargeEnough(f: Format, size: Size) {
    !(f.width < size.width || f.height < size.height)
  }

  /** Range `j` of format `i` is a pair the scan would accept. */
  predicate IsCandidate(formats: seq<Format>, fps: int, size: Size, i: int, j: int) {
    && 0 <= i < |formats|
    && LargeEnough(formats[i], size)
    && 0 <= j < |formats[i].ranges|
    && CanReach(formats[i].ranges[j], fps)
  }

  /** The scan reaches choice `c` no later than pair (i, j): lexicographic order on positions. */
  predicate NoLaterThan(c: Choice, i: int, j: int) {
    c.format < i || (c.format == i && c.range <= j)
  }

  /** The first range at or after `from` that reaches `fps`. */
  function FirstReachable(ranges: seq<FrameRateRange>, fps: int, from: nat): (r: Option<nat>)
    requires from <= |ranges|
    ensures r.Some? ==> from <= r.value < |ranges| && CanReach(ranges[r.value], fps)
    ensures r.Some? ==> forall k :: from <= k < r.value ==> !CanReach(ranges[k], fps)
    ensures r.None? ==> forall k :: from <= k < |ranges| ==> !CanReach(ranges[k], fps)
    decreases |ranges| - from
  {
    if from == |ranges| then None
    else if CanReach(ranges[from], fps) then Some(from)
    else FirstReachable(ranges, fps, from + 1)
  }

  /** The first qualifying pair whose format sits at or after position `from`. */
  function SelectFrom(formats: seq<Format>, fps: int, size: Size, from: nat): (r: Option<Choice>)
    requires from <= |formats|
    ensures r.Some? ==> from <= r.value.format && IsCandidate(formats, fps, size, r.value.format, r.value.range)
    ensures forall i, j :: from <= i && IsCandidate(formats, fps, size, i, j) ==> r.Some? && NoLaterThan(r.value, i, j)
    decreases |formats| - from
  {
    if from == |formats| then None
    else if !LargeEnough(formats[from], size) then SelectFrom(formats, fps, size, from + 1)
    else
      match FirstReachable(formats[from].ranges, fps, 0)
      case Some(j) => Some(Choice(from, j))
      case None => SelectFrom(formats, fps, size, from + 1)
  }

  /**
   * The selection `startSlowMoCapture` makes: the earliest format that is
   * large enough and has a range reaching `fps`, with the earliest such range.
   */
  function SelectFormat(formats: seq<Format>, fps: int, size: Size): (r: Option<Choice>)
    ensures r.Some? ==> IsCandidate(formats, fps, size, r.value.format, r.value.range)
    ensures r.Some? ==> formats[r.value.format].width >= size.width && formats[r.value.format].height >= size.height
    ensures r.Some? ==> formats[r.value.format].ranges[r.value.range].maxFrameRate >= fps as real
    ensures forall i, j :: IsCandidate(formats, fps, size, i, j) ==> r.Some? && NoLaterThan(r.value, i, j)
    ensures r.None? <==> forall i, j :: !IsCandidate(formats, fps, size, i, j)
  {
    SelectFrom(formats, fps, size, 0)
  }

  /**
   * The scan as the source writes it: an outer loop over formats that skips
   * small ones, an inner loop over ranges that breaks on the first usable one,
   * and a break out of the outer loop once something has been selected.
   */
  method ScanFormats(formats: seq<Format>, fps: int, size: Size) returns (selected: Option<Choice>)
    ensures selected == SelectFormat(formats, fps, size)
  {
    selected := None;
    var i := 0;
    while i < |formats|
      invariant 0 <= i <= |formats|
      invariant selected.None?
      invariant SelectFormat(formats, fps, size) == SelectFrom(formats, fps, size, i)
    {
      var format := formats[i];
      if format.width < size.width || format.height < size.height {
        i := i + 1;
        continue;
      }
      var j := 0;
      while j < |format.ranges|
        invariant 0 <= j <= |format.ranges|
        invariant selected.None?
        invariant FirstReachable(format.ranges, fps, 0) == FirstReachable(format.ranges, fps, j)
      {
        if format.ranges[j].maxFrameRate >= fps as real {
          selected := Some(Choice(i, j));
          break;
        }
        j := j + 1;
      }
      if selected.Some? {
        break;
      }
      i := i + 1;
    }
  }

  /** Two searches over the same formats that accept exactly the same pairs make the same choice. */
  lemma SameCandidatesSameChoice(a: seq<Format>, fpsA: int, sizeA: Size, b: seq<Format>, fpsB: int, sizeB: Size)
    requires forall i, j :: IsCandidate(a, fpsA, sizeA, i, j) <==> IsCandidate(b, fpsB, sizeB, i, j)
    ensures SelectFormat(a, fpsA, sizeA) == SelectFormat(b, fpsB, sizeB)
  {
    var ra := SelectFormat(a, fpsA, sizeA);
    var rb := SelectFormat(b, fpsB, sizeB);
    if ra.Some? {
      assert IsCandidate(b, fpsB, sizeB, ra.value.format, ra.value.range);
      assert rb.Some?;
      assert IsCandidate(a, fpsA, sizeA, rb.value.format, rb.value.range);
    }
  }

  /** Formats that agree on everything except the ranges' minimum rates. */
  predicate DifferOnlyInMinRates(a: seq<Format>, b: seq<Format>) {
    && |a| == |b|
    && (forall i :: 0 <= i < |a| ==>
          a[i].width == b[i].width && a[i].height == b[i].height && |a[i].ranges| == |b[i].ranges|)
    && (forall i, j :: 0 <= i < |a| && 0 <= j < |a[i].ranges| ==>
          a[i].ranges[j].maxFrameRate == b[i].ranges[j].maxFrameRate)
  }

  /** The minimum frame rate of a range never influences the selection. */
  lemma SelectionIgnoresMinFrameRate(a: seq<Format>, b: seq<Format>, fps: int, size: Size)
    requires DifferOnlyInMinRates(a, b)
    ensures SelectFormat(a, fps, size) == SelectFormat(b, fps, size)
  {
    forall i, j
      ensures IsCandidate(a, fps, size, i, j) <==> IsCandidate(b, fps, size, i, j)
    {
      if 0 <= i < |a| && 0 <= j < |a[i].ranges| {
        assert a[i].ranges[j].maxFrameRate == b[i].ranges[j].maxFrameRate;
      }
    }
    SameCandidatesSameChoice(a, fps, size, b, fps, size);
  }

  /**
   * Asking for less (a lower rate, a smaller size) still finds a pair, and
   * never one the scan reaches later than the pair found for the larger request.
   */
  lemma WeakerRequestSelectsNoLater(formats: seq<Format>, fps: int, size: Size, lowerFps: int, smaller: Size)
    requires lowerFps <= fps
    requires smaller.width <= size.width && smaller.height <= size.height
    requires SelectFormat(formats, fps, size).Some?
    ensures SelectFormat(formats, lowerFps, smaller).Some?
    ensures NoLaterThan(SelectFormat(formats, lowerFps, smaller).value,
                        SelectFormat(formats, fps, size).value.format,
                        SelectFormat(formats, fps, size).value.range)
  {
    var c := SelectFormat(formats, fps, size).value;
    assert IsCandidate(formats, lowerFps, smaller, c.format, c.range);
  }

  /** Whatever qualifies for "1080p" qualifies for any other resolution string. */
  lemma Tier1080pImpliesOtherTiers(formats: seq<Format>, fps: int, resolution: string)
    requires SelectFormat(formats, fps, DesiredSize("1080p")).Some?
    ensures SelectFormat(formats, fps, DesiredSize(resolution)).Some?
  {
    TiersAreOrdered(resolution);
    WeakerRequestSelectsNoLater(formats, fps, Size1080p, fps, DesiredSize(resolution));
  }

  /** Formats listed after a selected one cannot change the selection: the first match wins. */
  lemma LaterFormatsDoNotMatter(formats: seq<Format>, more: seq<Format>, fps: int, size: Size)
    requires SelectFormat(formats, fps, size).Some?
    ensures SelectFormat(formats + more, fps, size) == SelectFormat(formats, fps, size)
  {
    var c := SelectFormat(formats, fps, size).value;
    var all := formats + more;
    assert IsCandidate(all, fps, size, c.format, c.range);
    var d := SelectFormat(all, fps, size).value;
    assert NoLaterThan(d, c.format, c.range);
    assert all[d.format] == formats[d.format];
    assert IsCandidate(formats, fps, size, d.format, d.range);
  }
}
