/** Reading an Ogg Opus file: the page scan, the duration and the waveform.
    Pages follow section 6 of RFC 3533; the pre-skip and the granule positions
    sections 5.1 and 4.3 of RFC 7845. */
module Ogg {
  import opened Common

  type Byte = x: int | 0 <= x < 256

  const CAPTURE: seq<Byte> := [0x4f, 0x67, 0x67, 0x53]
  const OPUS_HEAD: seq<Byte> := [0x4f, 0x70, 0x75, 0x73, 0x48, 0x65, 0x61, 0x64]
  const HEADER := 27
  const NO_GRANULE := 0xFFFF_FFFF_FFFF_FFFF
  const RATE := 48000
  const TWO_32 := 0x1_0000_0000
  const BINS := 64

  // ---------------------------------------------------------------- numbers

  /** Little-endian value of some bytes. */
  function Value(b: seq<Byte>): int
    ensures Value(b) >= 0
  {
    if |b| == 0 then 0 else b[0] + 256 * Value(b[1..])
  }

  function Bytes(v: int, n: nat): (b: seq<Byte>)
    ensures |b| == n
    decreases n
  {
    if n == 0 then [] else [v % 256] + Bytes(v / 256, n - 1)
  }

  function Power(n: nat): int {
    if n == 0 then 1 else 256 * Power(n - 1)
  }

  lemma {:induction false} BytesHoldValue(v: int, n: nat)
    requires 0 <= v < Power(n)
    ensures Value(Bytes(v, n)) == v
    decreases n
  {
    if n > 0 {
      BytesHoldValue(v / 256, n - 1);
      assert Bytes(v, n)[1..] == Bytes(v / 256, n - 1);
    }
  }

  function Sum(b: seq<Byte>): nat {
    if |b| == 0 then 0 else Sum(b[..|b| - 1]) + b[|b| - 1]
  }

  method SumOf(b: seq<Byte>) returns (sum: nat)
    ensures sum == Sum(b)
  {
    sum := 0;
    for k := 0 to |b|
      invariant sum == Sum(b[..k])
    {
      assert b[..k + 1][..k] == b[..k];
      sum := sum + b[k];
    }
    assert b[..|b|] == b;
  }

  // ---------------------------------------------------------------- pages

  /** What the scan keeps of a page it visits. */
  datatype Seen = Seen(granule: int, payload: seq<Byte>)

  predicate Captured(data: seq<Byte>) {
    CAPTURE <= data
  }

  /** The length of the page these bytes start with, if it is all there. */
  function PageLength(data: seq<Byte>): (n: Option<int>)
    requires |data| >= HEADER
    ensures n.Some? ==> HEADER + data[26] <= n.value <= |data|
  {
    var segments := data[26];
    if HEADER + segments > |data| then None
    else
      var size := HEADER + segments + Sum(data[HEADER..HEADER + segments]);
      if size > |data| then None else Some(size)
  }

  function PageOf(data: seq<Byte>): Seen
    requires |data| >= HEADER && PageLength(data).Some?
  {
    Seen(Value(data[6..14]), data[HEADER + data[26]..PageLength(data).value])
  }

  /** The pages a scan from the start of these bytes visits. */
  function Scan(data: seq<Byte>): seq<Seen>
    decreases |data|
  {
    if |data| < HEADER then []
    else if !Captured(data) then Scan(data[1..])
    else
      match PageLength(data)
      case None => []
      case Some(size) => [PageOf(data)] + Scan(data[size..])
  }

  /** A page as section 6 of RFC 3533 lays it out; `stamp` is the serial
      number, the page sequence number and the checksum. */
  datatype Page = Page(kind: Byte, granule: int, stamp: seq<Byte>, segments: seq<Byte>, payload: seq<Byte>)

  predicate WellFormed(p: Page) {
    0 <= p.granule < Power(8) && |p.stamp| == 12 && |p.segments| < 256 && |p.payload| == Sum(p.segments)
  }

  function Written(p: Page): seq<Byte>
    requires WellFormed(p)
  {
    CAPTURE + [0, p.kind] + Bytes(p.granule, 8) + p.stamp + [|p.segments|] + p.segments + p.payload
  }

  function WriteAll(pages: seq<Page>): seq<Byte>
    requires forall p | p in pages :: WellFormed(p)
  {
    if |pages| == 0 then [] else Written(pages[0]) + WriteAll(pages[1..])
  }

  lemma WrittenParts(p: Page, rest: seq<Byte>)
    requires WellFormed(p)
    ensures var data := Written(p) + rest;
            && |data| >= HEADER && Captured(data) && data[26] == |p.segments| && data[6..14] == Bytes(p.granule, 8)
            && data[HEADER..HEADER + |p.segments|] == p.segments && |Written(p)| == HEADER + |p.segments| + |p.payload|
            && data[HEADER + |p.segments|..|Written(p)|] == p.payload && data[|Written(p)|..] == rest
  {
    hide Bytes, Sum;
  }

  /** One written page, then anything: the scan visits it and goes on behind it. */
  lemma ScanVisitsFirst(p: Page, rest: seq<Byte>)
    requires WellFormed(p)
    ensures Scan(Written(p) + rest) == [Seen(p.granule, p.payload)] + Scan(rest)
  {
    WrittenParts(p, rest);
    BytesHoldValue(p.granule, 8);
    var data := Written(p) + rest;
    var size := |Written(p)|;
    hide Written, Sum, Value, Bytes, Power, Captured;
    assert PageLength(data) == Some(size);
    assert PageOf(data) == Seen(p.granule, p.payload);
    hide PageLength, PageOf;
    assert data[size..] == rest;
  }

  /** Pages written back to back are visited exactly, in order. */
  lemma {:induction false} ScanVisitsWhatWasWritten(pages: seq<Page>)
    requires forall p | p in pages :: WellFormed(p)
    ensures Scan(WriteAll(pages)) ==
        seq(|pages|, i requires 0 <= i < |pages| => Seen(pages[i].granule, pages[i].payload))
    decreases |pages|
  {
    if |pages| > 0 {
      ScanVisitsFirst(pages[0], WriteAll(pages[1..]));
      ScanVisitsWhatWasWritten(pages[1..]);
      hide Scan, Written;
    }
  }

  // ---------------------------------------------------------------- what the pages say

  function MaxGranule(pages: seq<Seen>): int {
    if |pages| == 0 then 0
    else
      var front, g := MaxGranule(pages[..|pages| - 1]), pages[|pages| - 1].granule;
      if g != NO_GRANULE && g > front then g else front
  }

  lemma {:induction false} MaxGranuleIsMax(pages: seq<Seen>)
    ensures MaxGranule(pages) >= 0
    ensures forall p | p in pages && p.granule != NO_GRANULE :: p.granule <= MaxGranule(pages)
    ensures MaxGranule(pages) != 0 ==> exists p ::
        p in pages && p.granule == MaxGranule(pages) && p.granule != NO_GRANULE
    decreases |pages|
  {
    if |pages| > 0 {
      MaxGranuleIsMax(pages[..|pages| - 1]);
      assert forall p | p in pages :: p in pages[..|pages| - 1] || p == pages[|pages| - 1];
    }
  }

  predicate OccursAt(s: seq<Byte>, pattern: seq<Byte>, j: int) {
    0 <= j && j + |pattern| <= |s| && s[j..j + |pattern|] == pattern
  }

  /** `bytes.Index`: the first occurrence, or -1. */
  function Index(s: seq<Byte>, pattern: seq<Byte>): (i: int)
    ensures if i == -1 then forall j :: !OccursAt(s, pattern, j)
            else OccursAt(s, pattern, i) && forall j | 0 <= j < i :: !OccursAt(s, pattern, j)
    decreases |s|
  {
    if |s| < |pattern| then -1
    else if pattern <= s then assert OccursAt(s, pattern, 0); 0
    else
      var i := Index(s[1..], pattern);
      assert forall j :: OccursAt(s, pattern, j) <==> OccursAt(s[1..], pattern, j - 1) by {
        forall j ensures OccursAt(s, pattern, j) <==> OccursAt(s[1..], pattern, j - 1) { OccursLater(s, pattern, j); }
      }
      if i < 0 then -1 else i + 1
  }

  lemma OccursLater(s: seq<Byte>, pattern: seq<Byte>, j: int)
    requires |s| > 0 && !(pattern <= s)
    ensures OccursAt(s, pattern, j) <==> OccursAt(s[1..], pattern, j - 1)
  {
    if 0 < j && j + |pattern| <= |s| {
      var a, b := s[j..j + |pattern|], s[1..][j - 1..j - 1 + |pattern|];
      assert |a| == |b| && forall k | 0 <= k < |a| :: a[k] == s[j + k] == b[k];
    }
  }

  /** The pre-skip of a page that holds an identification header. */
  function PreSkip(payload: seq<Byte>): Option<int> {
    var i := Index(payload, OPUS_HEAD);
    if i < 0 || i + 12 > |payload| then None else Some(Value(payload[i + 10..i + 12]))
  }

  function FirstPreSkip(pages: seq<Seen>): Option<int> {
    if |pages| == 0 then None
    else
      var front := FirstPreSkip(pages[..|pages| - 1]);
      if front.Some? then front else PreSkip(pages[|pages| - 1].payload)
  }

  /** One loudness value for each page that carries anything. */
  function Samples(pages: seq<Seen>, loudness: seq<Byte> -> real): seq<real> {
    if |pages| == 0 then []
    else
      Samples(pages[..|pages| - 1], loudness) +
      if |pages[|pages| - 1].payload| > 0 then [loudness(pages[|pages| - 1].payload)] else []
  }

  // ---------------------------------------------------------------- duration

  /** Whole seconds of audio, at least one: section 4.3 of RFC 7845. */
  function Seconds(granule: int, preSkip: int): int {
    if granule - preSkip >= RATE then (granule - preSkip) / RATE else 1
  }

  /** What 32 bits make of it. */
  function Truncated(granule: int, preSkip: int): int {
    var seconds := if granule > preSkip then (granule - preSkip) / RATE % TWO_32 else 0;
    if seconds == 0 then 1 else seconds
  }

  /** The truncation shows exactly on durations of 2^32 seconds or more. */
  lemma DurationIsExact(granule: int, preSkip: int)
    requires granule >= 0 && preSkip >= 0
    ensures 1 <= Truncated(granule, preSkip) < TWO_32
    ensures Truncated(granule, preSkip) == Seconds(granule, preSkip) <==> Seconds(granule, preSkip) < TWO_32
  {
  }

  /** The shortest audio it shows on reads as one second. */
  lemma LongAudioReadsShort()
    ensures Seconds(RATE * TWO_32 + 312, 312) == TWO_32 && Truncated(RATE * TWO_32 + 312, 312) == 1
  {
  }

  method Duration(granule: int, preSkip: int) returns (seconds: int)
    requires granule >= 0 && preSkip >= 0
    ensures seconds == Truncated(granule, preSkip) && 1 <= seconds < TWO_32
    ensures seconds == Seconds(granule, preSkip) <==> Seconds(granule, preSkip) < TWO_32
  {
    DurationIsExact(granule, preSkip);
    if granule > preSkip {
      var samples := granule - preSkip;
      seconds := samples / RATE % TWO_32;
      if seconds == 0 { seconds := 1; }
    } else {
      seconds := 1;
    }
  }

  // ---------------------------------------------------------------- waveform

  /** Where bin i of n falls among `count` samples: an index and a fraction. */
  function Low(i: int, n: int, count: int): int
    requires n > 0
  {
    i * count / n
  }

  function High(i: int, n: int, count: int): int
    requires n > 0
  {
    if Low(i, n, count) + 1 >= count then count - 1 else Low(i, n, count) + 1
  }

  function Fraction(i: int, n: int, count: int): real
    requires n > 0
  {
    (i * count % n) as real / n as real
  }

  function Interpolate(a: real, b: real, f: real): real {
    a * (1.0 - f) + b * f
  }

  lemma BinIsInRange(i: int, n: int, count: int)
    requires 0 <= i < n && count > 0
    ensures 0 <= Low(i, n, count) <= High(i, n, count) < count
    ensures 0.0 <= Fraction(i, n, count) < 1.0
    ensures Low(i, n, count) as real + Fraction(i, n, count) == (i * count) as real / n as real
  {
    Times(i, n, count);
    Quotient(i * count, n, count);
    FractionOf(i * count, n);
  }

  lemma Times(i: int, n: int, count: int)
    requires i < n && count > 0
    ensures i * count < count * n
  {
  }

  lemma Quotient(x: int, n: int, count: int)
    requires 0 <= x < count * n && n > 0
    ensures 0 <= x / n < count
  {
  }

  lemma FractionOf(x: int, n: int)
    requires x >= 0 && n > 0
    ensures 0.0 <= (x % n) as real / n as real < 1.0
    ensures (x / n) as real + (x % n) as real / n as real == x as real / n as real
  {
    var q, r := x / n, x % n;
    assert x as real == q as real * n as real + r as real;
  }

  lemma InterpolationStaysBetween(a: real, b: real, f: real, low: real, high: real)
    requires low <= a <= high && low <= b <= high && 0.0 <= f <= 1.0
    ensures low <= Interpolate(a, b, f) <= high
  {
    Shares(a - low, b - low, f);
    Shares(high - a, high - b, f);
    assert Interpolate(a, b, f) - low == (a - low) * (1.0 - f) + (b - low) * f;
    assert high - Interpolate(a, b, f) == (high - a) * (1.0 - f) + (high - b) * f;
  }

  lemma Shares(x: real, y: real, f: real)
    requires x >= 0.0 && y >= 0.0 && 0.0 <= f <= 1.0
    ensures x * (1.0 - f) + y * f >= 0.0
  {
    NotNegative(x, 1.0 - f);
    NotNegative(y, f);
  }

  lemma NotNegative(x: real, y: real)
    requires x >= 0.0 && y >= 0.0
    ensures x * y >= 0.0
  {
  }

  function Peak(samples: seq<real>): real {
    if |samples| == 0 then 0.0
    else
      var front, last := Peak(samples[..|samples| - 1]), samples[|samples| - 1];
      if last > front then last else front
  }

  lemma {:induction false} PeakIsMax(samples: seq<real>)
    ensures Peak(samples) >= 0.0 && forall s | s in samples :: s <= Peak(samples)
    ensures Peak(samples) > 0.0 ==> Peak(samples) in samples
    decreases |samples|
  {
    if |samples| > 0 {
      PeakIsMax(samples[..|samples| - 1]);
      assert forall s | s in samples :: s in samples[..|samples| - 1] || s == samples[|samples| - 1];
    }
  }

  function Percentage(v: real, peak: real): real
    requires peak > 0.0
  {
    v / peak * 100.0
  }

  /** The samples bin i lies between, and its value. */
  function Before(samples: seq<real>, n: int, i: int): (s: real)
    requires 0 <= i < n && |samples| > 0
    ensures s in samples
  {
    BinIsInRange(i, n, |samples|);
    samples[Low(i, n, |samples|)]
  }

  function Following(samples: seq<real>, n: int, i: int): (s: real)
    requires 0 <= i < n && |samples| > 0
    ensures s in samples
  {
    BinIsInRange(i, n, |samples|);
    samples[High(i, n, |samples|)]
  }

  function Mixed(samples: seq<real>, n: int, i: int): real
    requires 0 <= i < n && |samples| > 0
  {
    Interpolate(Before(samples, n, i), Following(samples, n, i), Fraction(i, n, |samples|))
  }

  function Bin(samples: seq<real>, n: int, i: int): int
    requires 0 <= i < n
  {
    PeakIsMax(samples);
    if |samples| == 0 || Peak(samples) == 0.0 then 0
    else
      var level := Percentage(Mixed(samples, n, i), Peak(samples));
      if level > 100.0 then 100 else level.Floor
  }

  /** Every level lies between those of its two neighbouring samples and between
      0 and 100, so the cap never applies. */
  lemma LevelBounds(samples: seq<real>, n: int, i: int)
    requires 0 <= i < n && |samples| > 0 && Peak(samples) > 0.0 && forall s | s in samples :: s >= 0.0
    ensures var a, b, peak := Before(samples, n, i), Following(samples, n, i), Peak(samples);
            var level := Percentage(Mixed(samples, n, i), peak);
            && Percentage(if a < b then a else b, peak) <= level <= Percentage(if a < b then b else a, peak)
            && 0.0 <= level <= 100.0 && Bin(samples, n, i) == level.Floor && 0 <= Bin(samples, n, i) <= 100
  {
    BinIsInRange(i, n, |samples|);
    PeakIsMax(samples);
    var a, b, f, peak := Before(samples, n, i), Following(samples, n, i), Fraction(i, n, |samples|), Peak(samples);
    var low, high := if a < b then a else b, if a < b then b else a;
    assert 0.0 <= low && high <= peak;
    var v := Mixed(samples, n, i);
    InterpolationStaysBetween(a, b, f, low, high);
    hide Peak, Low, High, Fraction, Interpolate, Before, Following;
    assert low <= v <= high;
    hide Mixed;
    Grows(0.0, low, peak);
    Grows(low, v, peak);
    Grows(v, high, peak);
    Grows(high, peak, peak);
    Ends(peak);
    hide Percentage;
  }

  lemma Grows(a: real, b: real, peak: real)
    requires a <= b && peak > 0.0
    ensures Percentage(a, peak) <= Percentage(b, peak)
  {
    assert a / peak <= b / peak;
  }

  lemma Ends(peak: real)
    requires peak > 0.0
    ensures Percentage(peak, peak) == 100.0 && Percentage(0.0, peak) == 0.0
  {
    assert peak / peak == 1.0;
  }

  method PeakOf(samples: seq<real>) returns (max: real)
    ensures max == Peak(samples)
  {
    max := 0.0;
    for k := 0 to |samples|
      invariant max == Peak(samples[..k])
    {
      assert samples[..k + 1][..k] == samples[..k];
      if samples[k] > max { max := samples[k]; }
    }
    assert samples[..|samples|] == samples;
  }

  method BuildWaveform(samples: seq<real>, n: nat) returns (out: array<int>)
    ensures fresh(out) && out.Length == n
    ensures forall i | 0 <= i < n :: out[i] == Bin(samples, n, i)
  {
    out := new int[n](_ => 0);
    if |samples| == 0 { return; }
    var max := PeakOf(samples);
    if max == 0.0 { return; }
    for i := 0 to n
      invariant forall j | 0 <= j < i :: out[j] == Bin(samples, n, j)
    {
      var bin := FillBin(samples, n, max, i);
      hide Bin;
      out[i] := bin;
    }
  }

  /** The two sample indexes of a bin and the weight of the second. */
  method Position(i: int, n: int, count: int) returns (lo: int, hi: int, frac: real)
    requires n > 0
    ensures lo == Low(i, n, count) && hi == High(i, n, count) && frac == Fraction(i, n, count)
  {
    lo := i * count / n;
    hi := lo + 1;
    if hi >= count { hi := count - 1; }
    frac := (i * count % n) as real / n as real;
  }

  method FillBin(samples: seq<real>, n: int, max: real, i: int) returns (bin: int)
    requires 0 <= i < n && |samples| > 0 && max == Peak(samples) && max != 0.0
    ensures bin == Bin(samples, n, i)
  {
    hide Low, High, Fraction, Peak;
    BinIsInRange(i, n, |samples|);
    PeakIsMax(samples);
    var lo, hi, frac := Position(i, n, |samples|);
    var v := samples[lo] * (1.0 - frac) + samples[hi] * frac;
    assert v == Mixed(samples, n, i);
    hide Mixed;
    var normalized := v / max * 100.0;
    assert normalized == Percentage(Mixed(samples, n, i), max);
    hide Percentage;
    if normalized > 100.0 { normalized := 100.0; }
    bin := normalized.Floor;
  }

  // ---------------------------------------------------------------- the file

  datatype Error = NotOgg | NoOpusHead | NoGranule

  /** What the scan has gathered from the pages so far. */
  datatype Gathered = Gathered(granule: int, preSkip: Option<int>, samples: seq<real>)

  function Gather(pages: seq<Seen>, loudness: seq<Byte> -> real): Gathered {
    Gathered(MaxGranule(pages), FirstPreSkip(pages), Samples(pages, loudness))
  }

  lemma GatherOneMore(pages: seq<Seen>, p: Seen, loudness: seq<Byte> -> real)
    ensures var g := Gather(pages, loudness);
            Gather(pages + [p], loudness) == Gathered(
              if p.granule != NO_GRANULE && p.granule > g.granule then p.granule else g.granule,
              if g.preSkip.Some? then g.preSkip else PreSkip(p.payload),
              if |p.payload| > 0 then g.samples + [loudness(p.payload)] else g.samples)
  {
    assert (pages + [p])[..|pages|] == pages;
  }

  datatype Found = Stop | Garbage | Visited(page: Seen, size: int)

  lemma ScanUnfolds(rest: seq<Byte>)
    ensures |rest| < HEADER ==> Scan(rest) == []
    ensures |rest| >= HEADER && !Captured(rest) ==> Scan(rest) == Scan(rest[1..])
    ensures |rest| >= HEADER && Captured(rest) ==>
              match PageLength(rest)
              case None => Scan(rest) == []
              case Some(size) => Scan(rest) == [PageOf(rest)] + Scan(rest[size..])
  {
    hide Captured, PageLength, PageOf;
  }

  lemma PageParts(rest: seq<Byte>, segments: int, payload: int)
    requires |rest| >= HEADER && segments == rest[26]
    requires HEADER + segments <= |rest| ==> payload == Sum(rest[HEADER..HEADER + segments])
    ensures HEADER + segments > |rest| ==> PageLength(rest).None?
    ensures HEADER + segments <= |rest| ==>
              var size := HEADER + segments + payload;
              && PageLength(rest) == (if size > |rest| then None else Some(size))
              && (size <= |rest| ==> PageOf(rest) == Seen(Value(rest[6..14]), rest[HEADER + segments..size]))
  {
    hide Sum, Value;
  }

  /** One look at the rest of the file: one step of the scan, never past the
      end. */
  method ReadPage(rest: seq<Byte>) returns (f: Found)
    requires |rest| > 0
    ensures f.Stop? ==> Scan(rest) == []
    ensures f.Garbage? ==> Scan(rest) == Scan(rest[1..])
    ensures f.Visited? ==> 0 < f.size <= |rest| && Scan(rest) == [f.page] + Scan(rest[f.size..])
  {
    ScanUnfolds(rest);
    hide Scan, Sum, Value;
    if HEADER > |rest| { return Stop; }
    if rest[0..4] != CAPTURE { return Garbage; }
    var numSegments := rest[26];
    if HEADER + numSegments > |rest| {
      PageParts(rest, numSegments, 0);
      return Stop;
    }
    var payloadSize := SumOf(rest[HEADER..HEADER + numSegments]);
    var headerSize := HEADER + numSegments;
    var pageSize := headerSize + payloadSize;
    PageParts(rest, numSegments, payloadSize);
    hide PageLength, PageOf;
    if pageSize > |rest| { return Stop; }
    f := Visited(Seen(Value(rest[6..14]), rest[headerSize..pageSize]), pageSize);
  }

  lemma Shift(pages: seq<Seen>, page: Seen, more: seq<Seen>)
    ensures pages + ([page] + more) == pages + [page] + more
    ensures pages + [] == pages
  {
  }

  method AddPage(g: Gathered, page: Seen, loudness: seq<Byte> -> real, ghost pages: seq<Seen>) returns (h: Gathered)
    requires g == Gather(pages, loudness)
    ensures h == Gather(pages + [page], loudness)
  {
    h := g;
    if h.preSkip.None? { h := h.(preSkip := PreSkip(page.payload)); }
    if page.granule != NO_GRANULE && page.granule > h.granule { h := h.(granule := page.granule); }
    if |page.payload| > 0 { h := h.(samples := h.samples + [loudness(page.payload)]); }
    GatherOneMore(pages, page, loudness);
  }

  /** The scan loop: on any bytes it ends, stays in bounds, and gathers from
      exactly the pages it visits. */
  method ScanFile(data: seq<Byte>, loudness: seq<Byte> -> real) returns (g: Gathered)
    ensures g == Gather(Scan(data), loudness)
  {
    g := Gathered(0, None, []);
    ghost var pages: seq<Seen> := [];
    assert g == Gather(pages, loudness) && Scan([]) == [];
    hide Scan, Gather;
    var rest := data;
    while |rest| > 0
      invariant Scan(data) == pages + Scan(rest)
      invariant g == Gather(pages, loudness)
      decreases |rest|
    {
      var found := ReadPage(rest);
      match found {
        case Stop =>
          Shift(pages, Seen(0, []), []);
          return;
        case Garbage =>
          rest := rest[1..];
        case Visited(page, size) =>
          g := AddPage(g, page, loudness, pages);
          Shift(pages, page, Scan(rest[size..]));
          pages := pages + [page];
          rest := rest[size..];
      }
    }
    assert rest == [];
    Shift(pages, Seen(0, []), []);
  }

  /** Seconds of audio, and the waveform in percent. */
  datatype Audio = Audio(seconds: int, waveform: seq<int>)

  lemma {:induction false} SamplesAreNatural(pages: seq<Seen>, loudness: seq<Byte> -> real)
    requires forall payload :: loudness(payload) >= 0.0
    ensures forall s | s in Samples(pages, loudness) :: s >= 0.0
    decreases |pages|
  {
    if |pages| > 0 { SamplesAreNatural(pages[..|pages| - 1], loudness); }
  }

  lemma BinsAreInRange(samples: seq<real>)
    requires forall s | s in samples :: s >= 0.0
    ensures forall i | 0 <= i < BINS :: 0 <= Bin(samples, BINS, i) <= 100
  {
    PeakIsMax(samples);
    forall i | 0 <= i < BINS ensures 0 <= Bin(samples, BINS, i) <= 100 {
      if |samples| > 0 && Peak(samples) > 0.0 { LevelBounds(samples, BINS, i); }
    }
  }

  method AnalyzeOggOpus(data: seq<Byte>, loudness: seq<Byte> -> real) returns (r: Result<Audio, Error>)
    requires forall payload :: loudness(payload) >= 0.0
    ensures r == Err(NotOgg) <==> !(CAPTURE <= data)
    ensures r == Err(NoOpusHead) <==> CAPTURE <= data && FirstPreSkip(Scan(data)).None?
    ensures r == Err(NoGranule) <==> CAPTURE <= data && FirstPreSkip(Scan(data)).Some? && MaxGranule(Scan(data)) == 0
    ensures r.Ok? ==>
              var want := Seconds(MaxGranule(Scan(data)), FirstPreSkip(Scan(data)).value);
              && 1 <= r.value.seconds < TWO_32 && (r.value.seconds == want <==> want < TWO_32)
              && |r.value.waveform| == BINS
              && forall i | 0 <= i < BINS ::
                   0 <= r.value.waveform[i] <= 100 && r.value.waveform[i] == Bin(Samples(Scan(data), loudness), BINS, i)
  {
    if |data| < 4 || data[0..4] != CAPTURE { return Err(NotOgg); }
    var g := ScanFile(data, loudness);
    hide Scan, FirstPreSkip, MaxGranule, Samples, Bin;
    if g.preSkip.None? { return Err(NoOpusHead); }
    if g.granule == 0 { return Err(NoGranule); }
    GatheredIsNatural(data);
    SamplesAreNatural(Scan(data), loudness);
    BinsAreInRange(g.samples);
    var seconds := Duration(g.granule, g.preSkip.value);
    var out := BuildWaveform(g.samples, BINS);
    r := Ok(Audio(seconds, out[..]));
  }

  lemma GatheredIsNatural(data: seq<Byte>)
    ensures MaxGranule(Scan(data)) >= 0
    ensures FirstPreSkip(Scan(data)).Some? ==> FirstPreSkip(Scan(data)).value >= 0
  {
    MaxGranuleIsMax(Scan(data));
    PreSkipIsNatural(Scan(data));
  }

  lemma {:induction false} PreSkipIsNatural(pages: seq<Seen>)
    ensures FirstPreSkip(pages).Some? ==> FirstPreSkip(pages).value >= 0
    decreases |pages|
  {
    if |pages| > 0 { PreSkipIsNatural(pages[..|pages| - 1]); }
  }
}
