/**
 * The browser's recordings list (RecordedVideos.jsx): the recording object
 * the camera view saves, the duration and file size labels, and the
 * totals shown under the list. JavaScript's number-to-text conversion
 * (toFixed(2) read back through parseFloat) is a parameter.
 */
module RecordedVideosJsx {
  import opened Json
  import opened Numeric
  import Videos = RecordedVideosWidget

  /** A recording object; an absent blob URL is the empty string. */
  datatype Recording = Recording(
    id: string,
    name: string,
    blobUrl: string,
    size: int,
    duration: int,
    format: string,
    quality: string,
    createdAt: int)

  /** formatDuration: Math.floor(d / 60), a colon, and d % 60 (which keeps
    * the sign of d) padded to two characters. */
  function FormatDuration(duration: int): string {
    IntToString(duration / 60) + ":" + Videos.Pad2(CMod(duration, 60))
  }

  /** A duration label reads back as the duration, with minutes and seconds
    * as its two fields, however many minutes there are. */
  lemma DurationReadsBack(duration: int)
    requires 0 <= duration
    ensures Videos.ReadClock(FormatDuration(duration)) == Some(duration)
    ensures |Videos.Fields(FormatDuration(duration))| == 2
  {
    var minutes := IntToString(duration / 60);
    var seconds := Videos.Pad2(duration % 60);
    NatToStringDigits(duration / 60);
    Videos.Pad2Reads(duration % 60);
    assert FormatDuration(duration) == minutes + ":" + seconds;
    Videos.SplitTwoFields(minutes, seconds);
    Videos.ReadTwoFields(minutes, seconds);
  }

  const SizeUnits: seq<string> := ["B", "KB", "MB", "GB"]

  function Pow1024(i: nat): (p: int)
    ensures p >= 1
  {
    if i == 0 then 1 else 1024 * Pow1024(i - 1)
  }

  /** Math.floor(Math.log(bytes) / Math.log(1024)) for a positive size,
    * computed exactly: the largest power of 1024 not above it. */
  function UnitIndex(bytes: int): (i: nat)
    requires bytes >= 1
    ensures Pow1024(i) <= bytes < Pow1024(i + 1)
  {
    if bytes < 1024 then 0
    else
      var i := UnitIndex(bytes / 1024);
      assert Pow1024(i) <= bytes / 1024 < Pow1024(i + 1);
      1 + i
  }

  /** sizes[i], which is undefined past the last unit. */
  function UnitName(i: int): string {
    if 0 <= i < |SizeUnits| then SizeUnits[i] else "undefined"
  }

  /** formatFileSize: "0 B" for nothing; a positive size scaled to its unit;
    * a negative size has no logarithm and shows as "NaN undefined". */
  function FormatFileSize(bytes: int, show: real -> string): string {
    if bytes == 0 then "0 B"
    else if bytes < 0 then "NaN undefined"
    else
      var i := UnitIndex(bytes);
      show(bytes as real / Pow1024(i) as real) + " " + UnitName(i)
  }

  /** A positive size is shown as a number from 1 up to (not including)
    * 1024 of the largest unit that fits, and bytes below 1024 as bytes. */
  lemma FileSizeScaled(bytes: int, show: real -> string)
    requires bytes >= 1
    ensures var i := UnitIndex(bytes);
      && FormatFileSize(bytes, show) == show(bytes as real / Pow1024(i) as real) + " " + UnitName(i)
      && 1.0 <= bytes as real / Pow1024(i) as real < 1024.0
    ensures bytes < 1024 ==> FormatFileSize(bytes, show) == show(bytes as real) + " B"
  {
    var i := UnitIndex(bytes);
    assert Pow1024(i + 1) == 1024 * Pow1024(i);
    ScaledBounds(bytes as real, Pow1024(i) as real);
  }

  lemma ScaledBounds(b: real, p: real)
    requires 0.0 < p <= b < 1024.0 * p
    ensures 1.0 <= b / p < 1024.0
  {
    var q := b / p;
    assert (q - 1.0) * p == b - p;
    assert (1024.0 - q) * p == 1024.0 * p - b;
    PositiveFactor(1024.0 - q, p);
  }

  lemma PositiveFactor(x: real, p: real)
    requires 0.0 < p && 0.0 < x * p
    ensures 0.0 < x
  {
    assert x == (x * p) / p;
  }

  /** recordings.reduce((total, rec) => total + rec.duration, 0) */
  function TotalDuration(recordings: seq<Recording>): int
    decreases |recordings|
  {
    if recordings == [] then 0
    else TotalDuration(recordings[..|recordings| - 1]) + recordings[|recordings| - 1].duration
  }

  /** recordings.reduce((total, rec) => total + rec.size, 0) */
  function TotalSize(recordings: seq<Recording>): int
    decreases |recordings|
  {
    if recordings == [] then 0
    else TotalSize(recordings[..|recordings| - 1]) + recordings[|recordings| - 1].size
  }

  /** Both totals split over a concatenation. */
  lemma {:induction false} TotalsAppend(a: seq<Recording>, b: seq<Recording>)
    ensures TotalDuration(a + b) == TotalDuration(a) + TotalDuration(b)
    ensures TotalSize(a + b) == TotalSize(a) + TotalSize(b)
    decreases |b|
  {
    if b == [] {
      assert a + b == a;
    } else {
      var n := |b| - 1;
      TotalsAppend(a, b[..n]);
      assert (a + b)[..|a + b| - 1] == a + b[..n];
    }
  }

  /** The statistics row: the count, the total duration and the total
    * size. */
  function Statistics(recordings: seq<Recording>, show: real -> string): (r: (int, string, string))
    ensures r.0 == |recordings|
    ensures r.1 == FormatDuration(TotalDuration(recordings))
    ensures r.2 == FormatFileSize(TotalSize(recordings), show)
  {
    (|recordings|, FormatDuration(TotalDuration(recordings)), FormatFileSize(TotalSize(recordings), show))
  }

  /** No recorded time reads "0:00". */
  lemma ZeroDurationLabel()
    ensures FormatDuration(0) == "0:00"
  {
    assert Videos.Pad2(0) == "00";
    assert IntToString(0) == "0";
  }

  /** With no recordings the row shows 0, "0:00" and "0 B". */
  lemma EmptyStatistics(show: real -> string)
    ensures Statistics([], show) == (0, "0:00", "0 B")
  {
    ZeroDurationLabel();
  }
}
