/**
 * The recordings panel (recordedvideoswidget.cpp): a recording's JSON
 * form and the document the list is stored in, the size and duration
 * labels, the storage totals, and the list operations (add, load, select,
 * play, delete, import). Files, dialogs, clocks and identifier generation
 * are outside the model: what the file system reports, the user's answer,
 * the current time and a new identifier are parameters.
 */
module RecordedVideosWidget {
  import opened Json
  import opened Numeric

  datatype Recording = Recording(
    id: string, name: string, filePath: string,
    fileSize: int, duration: int, createdAt: int,
    format: string, quality: string)

  /** Recording::toJson; Recording::fromJson reads it back. */
  function ToJson(r: Recording): (j: Json)
    ensures j.JObj? && FromJson(j.fields) == r
  {
    JObj(map[
      "id" := JStr(r.id), "name" := JStr(r.name), "filePath" := JStr(r.filePath),
      "fileSize" := JNum(r.fileSize as real), "duration" := JNum(r.duration as real),
      "createdAt" := JNum(r.createdAt as real),
      "format" := JStr(r.format), "quality" := JStr(r.quality)])
  }

  /** Recording::fromJson */
  function FromJson(o: map<string, Json>): Recording {
    Recording(
      ToStr(Get(o, "id")), ToStr(Get(o, "name")), ToStr(Get(o, "filePath")),
      ToLongLong(Get(o, "fileSize")), ToLongLong(Get(o, "duration")),
      ToLongLong(Get(o, "createdAt")),
      ToStr(Get(o, "format")), ToStr(Get(o, "quality")))
  }

  /** Reading a recording back restores all eight fields. */
  lemma RecordingRoundTrip(r: Recording)
    ensures ToJson(r).JObj? && FromJson(ToJson(r).fields) == r
  {
  }

  /** The entries of the saved list, one per recording, in order. */
  function RecordingItems(recordings: seq<Recording>): (items: seq<Json>)
    ensures |items| == |recordings|
    ensures forall k :: 0 <= k < |items| ==> items[k] == ToJson(recordings[k])
    decreases |recordings|
  {
    if recordings == [] then []
    else RecordingItems(recordings[..|recordings| - 1]) + [ToJson(recordings[|recordings| - 1])]
  }

  /** The document saveRecordings writes. */
  function RecordingsDocument(recordings: seq<Recording>, savedAt: int): Json {
    JObj(map[
      "recordings" := JArr(RecordingItems(recordings)),
      "version" := JStr("1.0"),
      "savedAt" := JNum(savedAt as real)])
  }

  /** The recordings loadRecordings keeps from a list of entries: those
    * whose file exists, with the size the file has now. */
  function KeptRecordings(items: seq<Json>, exists_: string -> bool, sizeOf: string -> int): (kept: seq<Recording>)
    ensures |kept| <= |items|
    ensures forall r :: r in kept ==> exists_(r.filePath) && r.fileSize == sizeOf(r.filePath)
    decreases |items|
  {
    if items == [] then []
    else
      var n := |items| - 1;
      var rest := KeptRecordings(items[..n], exists_, sizeOf);
      var r := FromJson(ToObj(items[n]));
      if exists_(r.filePath) then rest + [r.(fileSize := sizeOf(r.filePath))] else rest
  }

  /** Loading what saveRecordings wrote gives the same list back as long
    * as every file is still there at its recorded size. */
  lemma {:induction false} SavedRecordingsReload(recordings: seq<Recording>, exists_: string -> bool, sizeOf: string -> int)
    requires forall k :: 0 <= k < |recordings| ==> exists_(recordings[k].filePath) && sizeOf(recordings[k].filePath) == recordings[k].fileSize
    ensures KeptRecordings(RecordingItems(recordings), exists_, sizeOf) == recordings
    decreases |recordings|
  {
    if recordings != [] {
      var n := |recordings| - 1;
      var prefix := recordings[..n];
      var last := recordings[n];
      SavedRecordingsReload(prefix, exists_, sizeOf);
      KeepSaved(RecordingItems(prefix), last, exists_, sizeOf);
      assert RecordingItems(recordings) == RecordingItems(prefix) + [ToJson(last)];
    }
  }

  /** One more saved entry whose file is there at its size is kept as it was. */
  lemma KeepSaved(items: seq<Json>, r: Recording, exists_: string -> bool, sizeOf: string -> int)
    requires exists_(r.filePath) && sizeOf(r.filePath) == r.fileSize
    ensures KeptRecordings(items + [ToJson(r)], exists_, sizeOf) == KeptRecordings(items, exists_, sizeOf) + [r]
  {
    assert (items + [ToJson(r)])[..|items|] == items;
    RecordingRoundTrip(r);
  }

  // ---------------------------------------------------------------------
  // formatFileSize and formatDuration

  /** formatFileSize. Below 1024 bytes the count is written exactly; above
    * it, `fixed(value, decimals)` stands for Qt's fixed-point rendering
    * of a double. */
  function FormatFileSize(bytes: int, fixed: (real, nat) -> string): (text: string)
    ensures bytes < 1024 ==> text == IntToString(bytes) + " B"
    ensures 1024 <= bytes < 1024 * 1024 ==> text == fixed(bytes as real / 1024.0, 1) + " KB"
    ensures 1024 * 1024 <= bytes < 1024 * 1024 * 1024 ==> text == fixed(bytes as real / (1024.0 * 1024.0), 1) + " MB"
    ensures 1024 * 1024 * 1024 <= bytes ==> text == fixed(bytes as real / (1024.0 * 1024.0 * 1024.0), 2) + " GB"
  {
    if bytes < 1024 then IntToString(bytes) + " B"
    else if bytes < 1024 * 1024 then fixed(bytes as real / 1024.0, 1) + " KB"
    else if bytes < 1024 * 1024 * 1024 then fixed(bytes as real / (1024.0 * 1024.0), 1) + " MB"
    else fixed(bytes as real / (1024.0 * 1024.0 * 1024.0), 2) + " GB"
  }

  /** A byte count below 1024 is read back exactly from its label. */
  lemma SmallSizeRoundTrip(bytes: int, fixed: (real, nat) -> string)
    requires INT32_MIN <= bytes < 1024
    ensures var text := FormatFileSize(bytes, fixed);
      |text| > 2 && text[|text| - 2..] == " B" && ParseInt(text[..|text| - 2]) == bytes
  {
    var text := FormatFileSize(bytes, fixed);
    assert text[..|text| - 2] == IntToString(bytes);
    IntToStringRoundTrip(bytes);
  }

  /** QString::arg(n, 2, 10, '0'): padded on the left with '0' to two
    * characters. */
  function Pad2(n: int): string {
    var digits := IntToString(n);
    if |digits| < 2 then "0" + digits else digits
  }

  lemma Pad2Value(n: int)
    requires 0 <= n < 100
    ensures |Pad2(n)| == 2 && AllDigits(Pad2(n)) && DigitsValue(Pad2(n)) == n
  {
    NatToStringDigits(n);
    if n >= 10 {
      NatToStringDigits(n / 10);
      assert |NatToString(n / 10)| == 1;
    } else {
      var s := Pad2(n);
      assert s == "0" + NatToString(n);
      assert s[..1] == "0";
    }
  }

  /** Any count of seconds or minutes reads back from its padded form. */
  lemma Pad2Reads(n: nat)
    ensures Number(Pad2(n)) && DigitsValue(Pad2(n)) == n
  {
    if n < 100 {
      Pad2Value(n);
    } else {
      NatToStringDigits(n);
      assert Pad2(n) == NatToString(n);
    }
  }

  /** formatDuration: "Unknown" for 0, otherwise H:MM:SS when there are
    * whole hours and M:SS when there are not. */
  function FormatDuration(seconds: int): string {
    if seconds == 0 then "Unknown"
    else
      var hours := ToInt32(CDiv(seconds, 3600));
      var minutes := CDiv(CMod(seconds, 3600), 60);
      var secs := CMod(seconds, 60);
      if hours > 0 then IntToString(hours) + ":" + Pad2(minutes) + ":" + Pad2(secs)
      else IntToString(minutes) + ":" + Pad2(secs)
  }

  /** The position of the first ':' in the text, or its length. */
  function ColonAt(text: string): (i: nat)
    ensures i <= |text|
    ensures forall k :: 0 <= k < i ==> text[k] != ':'
    ensures i < |text| ==> text[i] == ':'
  {
    if text == [] || text[0] == ':' then 0 else 1 + ColonAt(text[1..])
  }

  /** The text split at every ':'. */
  function Fields(text: string): (fields: seq<string>)
    ensures |fields| >= 1
    decreases |text|
  {
    var i := ColonAt(text);
    if i == |text| then [text] else [text[..i]] + Fields(text[i + 1..])
  }

  lemma FieldsOfJoin(a: string, b: string)
    requires ':' !in a
    ensures Fields(a + ":" + b) == [a] + Fields(b)
  {
    var t := a + ":" + b;
    assert t[|a|] == ':';
    assert forall k :: 0 <= k < |a| ==> t[k] == a[k];
    assert ColonAt(t) == |a|;
    assert t[..|a|] == a && t[|a| + 1..] == b;
  }

  predicate Number(field: string) {
    field != [] && AllDigits(field)
  }

  predicate AllNumbers(fields: seq<string>) {
    forall k :: 0 <= k < |fields| ==> Number(fields[k])
  }

  /** A clock reading "M:SS" or "H:MM:SS" in seconds, when every field is
    * a non-empty run of digits. */
  function ReadClock(text: string): Option<int> {
    ReadFields(Fields(text))
  }

  function ReadFields(f: seq<string>): Option<int> {
    if !AllNumbers(f) then None
    else if |f| == 2 then Some(DigitsValue(f[0]) * 60 + DigitsValue(f[1]))
    else if |f| == 3 then Some(DigitsValue(f[0]) * 3600 + DigitsValue(f[1]) * 60 + DigitsValue(f[2]))
    else None
  }

  lemma NoColonInNumber(n: nat)
    ensures ':' !in NatToString(n) && ':' !in IntToString(n)
  {
    NatToStringDigits(n);
  }

  lemma NumberHasNoColon(field: string)
    requires Number(field)
    ensures ':' !in field
  {
  }

  /** Two number fields read as minutes and seconds. */
  lemma ReadTwoFields(a: string, b: string)
    requires Number(a) && Number(b)
    ensures ReadFields([a, b]) == Some(DigitsValue(a) * 60 + DigitsValue(b))
  {
    assert AllNumbers([a, b]) by {
      forall k | 0 <= k < 2
        ensures Number([a, b][k])
      {
      }
    }
  }

  /** Three number fields read as hours, minutes and seconds. */
  lemma ReadThreeFields(a: string, b: string, c: string)
    requires Number(a) && Number(b) && Number(c)
    ensures ReadFields([a, b, c]) == Some(DigitsValue(a) * 3600 + DigitsValue(b) * 60 + DigitsValue(c))
  {
    var f := [a, b, c];
    assert f[0] == a && f[1] == b && f[2] == c;
    assert AllNumbers(f);
  }

  lemma SplitTwoFields(a: string, b: string)
    requires Number(a) && Number(b)
    ensures Fields(a + ":" + b) == [a, b]
  {
    NumberHasNoColon(a);
    NumberHasNoColon(b);
    FieldsOfJoin(a, b);
  }

  lemma SplitThreeFields(a: string, b: string, c: string)
    requires Number(a) && Number(b) && Number(c)
    ensures Fields(a + ":" + b + ":" + c) == [a, b, c]
  {
    NumberHasNoColon(a);
    SplitTwoFields(b, c);
    assert a + ":" + b + ":" + c == a + ":" + (b + ":" + c);
    FieldsOfJoin(a, b + ":" + c);
  }

  /** For a positive duration the label's fields are the whole hours (when
    * there are any), the minutes and the seconds. */
  lemma PositiveDurationText(seconds: int)
    requires 0 < seconds < 3600 * (INT32_MAX + 1)
    ensures seconds >= 3600 ==>
      FormatDuration(seconds) == IntToString(seconds / 3600) + ":" + Pad2((seconds % 3600) / 60) + ":" + Pad2(seconds % 60)
    ensures seconds < 3600 ==>
      FormatDuration(seconds) == IntToString(seconds / 60) + ":" + Pad2(seconds % 60)
  {
    DurationParts(seconds);
  }

  /** For a positive duration, C++'s truncating division and remainder
    * agree with Dafny's. */
  lemma DurationParts(seconds: int)
    requires 0 < seconds < 3600 * (INT32_MAX + 1)
    ensures ToInt32(CDiv(seconds, 3600)) == seconds / 3600
    ensures CDiv(CMod(seconds, 3600), 60) == (seconds % 3600) / 60
    ensures CMod(seconds, 60) == seconds % 60
    ensures seconds / 3600 > 0 <==> seconds >= 3600
  {
    var hours := seconds / 3600;
    assert CDiv(seconds, 3600) == hours;
    assert IsInt32(hours);
    var rest := CMod(seconds, 3600);
    assert rest == seconds - hours * 3600;
    assert CMod(seconds, 60) == seconds - CDiv(seconds, 60) * 60;
  }

  lemma DivModSplit(seconds: int)
    requires 0 < seconds
    ensures seconds == (seconds / 3600) * 3600 + ((seconds % 3600) / 60) * 60 + seconds % 60
  {
  }

  /** From an hour on, the label has three fields that read back as the
    * duration. */
  lemma HoursLabelReads(seconds: int)
    requires 3600 <= seconds < 3600 * (INT32_MAX + 1)
    ensures ReadClock(FormatDuration(seconds)) == Some(seconds)
    ensures |Fields(FormatDuration(seconds))| == 3
  {
    PositiveDurationText(seconds);
    var hv, mv, sv := seconds / 3600, (seconds % 3600) / 60, seconds % 60;
    var h, m, s := IntToString(hv), Pad2(mv), Pad2(sv);
    NatToStringDigits(hv);
    assert h == NatToString(hv);
    Pad2Value(mv);
    Pad2Value(sv);
    ClockOfThreeFields(h, m, s);
    DivModSplit(seconds);
    assert DigitsValue(h) * 3600 + DigitsValue(m) * 60 + DigitsValue(s) == seconds;
  }

  /** Three number fields joined by ':' read back as hours, minutes and
    * seconds. */
  lemma ClockOfThreeFields(a: string, b: string, c: string)
    requires Number(a) && Number(b) && Number(c)
    ensures ReadClock(a + ":" + b + ":" + c) == Some(DigitsValue(a) * 3600 + DigitsValue(b) * 60 + DigitsValue(c))
    ensures |Fields(a + ":" + b + ":" + c)| == 3
  {
    SplitThreeFields(a, b, c);
    ReadThreeFields(a, b, c);
  }

  /** Two number fields joined by ':' read back as minutes and seconds. */
  lemma ClockOfTwoFields(a: string, b: string)
    requires Number(a) && Number(b)
    ensures ReadClock(a + ":" + b) == Some(DigitsValue(a) * 60 + DigitsValue(b))
    ensures |Fields(a + ":" + b)| == 2
  {
    SplitTwoFields(a, b);
    ReadTwoFields(a, b);
  }

  lemma MinutesSplit(seconds: int)
    requires 0 < seconds
    ensures seconds == (seconds / 60) * 60 + seconds % 60
  {
  }

  /** Below an hour, the label has two fields that read back as the
    * duration. */
  lemma MinutesLabelReads(seconds: int)
    requires 0 < seconds < 3600
    ensures ReadClock(FormatDuration(seconds)) == Some(seconds)
    ensures |Fields(FormatDuration(seconds))| == 2
  {
    PositiveDurationText(seconds);
    var mv, sv := seconds / 60, seconds % 60;
    var m, s := IntToString(mv), Pad2(sv);
    NatToStringDigits(mv);
    Pad2Value(sv);
    assert FormatDuration(seconds) == m + ":" + s;
    ClockOfTwoFields(m, s);
    MinutesSplit(seconds);
    assert DigitsValue(m) * 60 + DigitsValue(s) == seconds;
  }

  /** A positive duration's label reads back as that many seconds; below
    * an hour it has two fields, from an hour on three. */
  lemma DurationRoundTrip(seconds: int)
    requires 0 < seconds < 3600 * (INT32_MAX + 1)
    ensures ReadClock(FormatDuration(seconds)) == Some(seconds)
    ensures |Fields(FormatDuration(seconds))| == if seconds < 3600 then 2 else 3
  {
    if seconds >= 3600 {
      HoursLabelReads(seconds);
    } else {
      MinutesLabelReads(seconds);
    }
  }

  // ---------------------------------------------------------------------
  // Storage totals

  /** The sum of the recordings' file sizes. */
  function TotalSize(recordings: seq<Recording>): int
    decreases |recordings|
  {
    if recordings == [] then 0
    else TotalSize(recordings[..|recordings| - 1]) + recordings[|recordings| - 1].fileSize
  }

  lemma {:induction false} TotalSizeAppend(a: seq<Recording>, b: seq<Recording>)
    ensures TotalSize(a + b) == TotalSize(a) + TotalSize(b)
    decreases |b|
  {
    if b != [] {
      var n := |b| - 1;
      TotalSizeAppend(a, b[..n]);
      assert (a + b)[..|a + b| - 1] == a + b[..n];
    } else {
      assert a + b == a;
    }
  }

  /** Deleting a recording takes exactly its size off the total. */
  lemma TotalSizeAfterRemoval(recordings: seq<Recording>, index: int)
    requires 0 <= index < |recordings|
    ensures TotalSize(recordings[..index] + recordings[index + 1..]) == TotalSize(recordings) - recordings[index].fileSize
  {
    var before := recordings[..index];
    var after := recordings[index + 1..];
    var upTo := recordings[..index + 1];
    assert recordings == upTo + after;
    TotalSizeAppend(upTo, after);
    assert upTo[..|upTo| - 1] == before;
    assert TotalSize(upTo) == TotalSize(before) + recordings[index].fileSize;
    TotalSizeAppend(before, after);
  }

  /** 10 GiB, the capacity the usage bar is drawn against. */
  const MaxStorage: int := 10 * 1024 * 1024 * 1024

  /** The usage percentage, by integer division. */
  function UsagePercent(totalSize: int): int {
    ToInt32(CDiv(totalSize * 100, MaxStorage))
  }

  /** The bar's value: the percentage capped at 100. */
  function UsageBar(totalSize: int): (value: int)
    ensures value <= 100
  {
    var p := UsagePercent(totalSize);
    if p < 100 then p else 100
  }

  /** Up to the capacity the percentage is the floor of the share used,
    * between 0 and 100, and the bar shows it unchanged. */
  lemma UsageWithinCapacity(totalSize: int)
    requires 0 <= totalSize <= MaxStorage
    ensures 0 <= UsagePercent(totalSize) <= 100
    ensures UsagePercent(totalSize) * MaxStorage <= totalSize * 100 < (UsagePercent(totalSize) + 1) * MaxStorage
    ensures UsageBar(totalSize) == UsagePercent(totalSize)
  {
  }

  // ---------------------------------------------------------------------
  // File names

  /** The position just after the last '/', or 0. */
  function LastSlashEnd(path: string): (i: nat)
    ensures i <= |path|
    ensures i > 0 ==> path[i - 1] == '/'
    ensures forall k :: i <= k < |path| ==> path[k] != '/'
  {
    if path == [] then 0
    else if path[|path| - 1] == '/' then |path|
    else LastSlashEnd(path[..|path| - 1])
  }

  /** QFileInfo::fileName: the part after the last '/'. */
  function FileName(path: string): (name: string)
    ensures '/' !in name
    ensures |name| <= |path| && path[|path| - |name|..] == name
  {
    path[LastSlashEnd(path)..]
  }

  /** QFileInfo::baseName: the file name up to its first '.'. */
  function BaseName(path: string): (base: string)
    ensures '.' !in base
    ensures base <= FileName(path)
  {
    var name := FileName(path);
    name[..FirstDot(name)]
  }

  function FirstDot(name: string): (i: nat)
    ensures i <= |name|
    ensures forall k :: 0 <= k < i ==> name[k] != '.'
    ensures i < |name| ==> name[i] == '.'
  {
    if name == [] || name[0] == '.' then 0 else 1 + FirstDot(name[1..])
  }

  /** The position just after the last '.', or 0 when there is none. */
  function LastDotEnd(name: string): (i: nat)
    ensures i <= |name|
    ensures i > 0 ==> name[i - 1] == '.'
    ensures forall k :: i <= k < |name| ==> name[k] != '.'
  {
    if name == [] then 0
    else if name[|name| - 1] == '.' then |name|
    else LastDotEnd(name[..|name| - 1])
  }

  /** QFileInfo::suffix: the file name after its last '.', or "". */
  function Suffix(path: string): (suffix: string)
    ensures '.' !in suffix
    ensures '.' !in FileName(path) ==> suffix == ""
  {
    var name := FileName(path);
    var i := LastDotEnd(name);
    if i == 0 then "" else name[i..]
  }

  /** QString::toLower on ASCII letters. */
  function ToLower(s: string): (r: string)
    ensures |r| == |s|
    ensures forall k :: 0 <= k < |s| ==> ('A' <= s[k] <= 'Z' ==> r[k] == (s[k] as int + 32) as char)
    ensures forall k :: 0 <= k < |s| ==> (!('A' <= s[k] <= 'Z') ==> r[k] == s[k])
  {
    seq(|s|, k requires 0 <= k < |s| => if 'A' <= s[k] <= 'Z' then (s[k] as int + 32) as char else s[k])
  }

  /** A recording made from a file: named after the file, its format the
    * lower-cased extension, duration unknown (0). */
  function FileRecording(id: string, filePath: string, nameSource: string, fileSize: int, createdAt: int, quality: string): Recording {
    Recording(id, BaseName(nameSource), filePath, fileSize, 0, createdAt, ToLower(Suffix(nameSource)), quality)
  }

  class RecordedVideosWidget {
    var recordings: seq<Recording>
    var selectedRecordingIndex: int

    constructor ()
      ensures recordings == [] && selectedRecordingIndex == -1
    {
      recordings := [];
      selectedRecordingIndex := -1;
    }

    /** addRecording: a captured recording of `dataSize` bytes at that
      * path, of default quality "high"; the list then selects it, and its
      * row change makes it the selection. */
    method AddRecording(filePath: string, dataSize: int, newId: string, now: int)
      modifies this
      ensures recordings == old(recordings) + [FileRecording(newId, filePath, filePath, dataSize, now, "high")]
      ensures selectedRecordingIndex == |old(recordings)|
    {
      recordings := recordings + [FileRecording(newId, filePath, filePath, dataSize, now, "high")];
      UpdateRecordingList();
      OnRecordingSelectionChanged(|recordings| - 1);
    }

    /** updateRecordingList, as far as the selection goes: clear() drops
      * the list's current row, and when there was one (a selection) its
      * currentRowChanged(-1) reaches the selection handler. */
    method UpdateRecordingList()
      modifies this
      ensures selectedRecordingIndex == -1 && recordings == old(recordings)
      ensures SelectedRecording().None?
    {
      if selectedRecordingIndex != -1 {
        OnRecordingSelectionChanged(-1);
      }
    }

    /** loadRecordings: `document` is None when the file cannot be opened;
      * a file that does not parse is some value other than an object.
      * When it holds an object, the list becomes its entries whose file
      * still exists. Once the file
      * has opened, the list is refreshed, so a recording selected when
      * Refresh is pressed is deselected. */
    method LoadRecordings(document: Option<Json>, exists_: string -> bool, sizeOf: string -> int)
      modifies this
      ensures document.Some? && document.value.JObj? ==>
        recordings == KeptRecordings(ToArr(Get(document.value.fields, "recordings")), exists_, sizeOf)
      ensures !(document.Some? && document.value.JObj?) ==> recordings == old(recordings)
      ensures document.Some? ==> selectedRecordingIndex == -1
      ensures document.None? ==> selectedRecordingIndex == old(selectedRecordingIndex)
    {
      if document.None? {
        return;
      }
      if !document.value.JObj? {
        UpdateRecordingList();
        return;
      }
      var items := ToArr(Get(document.value.fields, "recordings"));
      var kept := [];
      var i := 0;
      while i < |items|
        invariant 0 <= i <= |items|
        invariant kept == KeptRecordings(items[..i], exists_, sizeOf)
      {
        assert items[..i + 1][..i] == items[..i];
        var recording := FromJson(ToObj(items[i]));
        if exists_(recording.filePath) {
          recording := recording.(fileSize := sizeOf(recording.filePath));
          kept := kept + [recording];
        }
        i := i + 1;
      }
      assert items[..i] == items;
      recordings := kept;
      UpdateRecordingList();
    }

    /** The storage loop of updateRecordingList. */
    method StorageTotal() returns (totalSize: int)
      ensures totalSize == TotalSize(recordings)
    {
      totalSize := 0;
      var i := 0;
      while i < |recordings|
        invariant 0 <= i <= |recordings|
        invariant totalSize == TotalSize(recordings[..i])
      {
        assert recordings[..i + 1][..i] == recordings[..i];
        totalSize := totalSize + recordings[i].fileSize;
        i := i + 1;
      }
      assert recordings[..i] == recordings;
    }

    /** getSelectedRecording: none unless the index is in range. */
    function SelectedRecording(): (recording: Option<Recording>)
      reads this
      ensures recording.Some? <==> 0 <= selectedRecordingIndex < |recordings|
      ensures recording.Some? ==> recording.value == recordings[selectedRecordingIndex]
    {
      if 0 <= selectedRecordingIndex < |recordings| then Some(recordings[selectedRecordingIndex]) else None
    }

    /** onRecordingSelectionChanged as written: the current row becomes
      * the selection, but the refresh that follows clears the list, which
      * drops the current row and so runs this handler again with row -1.
      * Every selection ends with no recording selected, and with Play,
      * Delete and Export disabled. */
    method OnRecordingSelectionChangedAsWritten(row: int)
      modifies this
      ensures selectedRecordingIndex == -1 && recordings == old(recordings)
      ensures SelectedRecording().None?
    {
      selectedRecordingIndex := row;
      if row != -1 {
        selectedRecordingIndex := -1;
      }
    }

    /** onRecordingSelectionChanged as intended: the list's current row
      * becomes the selection and stays it. */
    method OnRecordingSelectionChanged(row: int)
      modifies this
      ensures selectedRecordingIndex == row && recordings == old(recordings)
      ensures 0 <= row < |recordings| ==> SelectedRecording() == Some(recordings[row])
    {
      selectedRecordingIndex := row;
    }

    /** onPlayRecording: the selected recording's file is played. */
    method OnPlayRecording() returns (played: Option<string>)
      ensures played.Some? <==> SelectedRecording().Some?
      ensures played.Some? ==> played.value == SelectedRecording().value.filePath
    {
      var recording := SelectedRecording();
      if recording.Some? {
        return Some(recording.value.filePath);
      }
      return None;
    }

    /** onDeleteRecording: with a selection and the user's confirmation,
      * the entry is removed (its file with it), the selection cleared and
      * its id reported. */
    method OnDeleteRecording(confirmed: bool) returns (deleted: Option<(string, string)>)
      modifies this
      ensures 0 <= old(selectedRecordingIndex) < |old(recordings)| && confirmed ==>
        var gone := old(recordings)[old(selectedRecordingIndex)];
        && recordings == old(recordings)[..old(selectedRecordingIndex)] + old(recordings)[old(selectedRecordingIndex) + 1..]
        && selectedRecordingIndex == -1
        && deleted == Some((gone.id, gone.filePath))
      ensures !(0 <= old(selectedRecordingIndex) < |old(recordings)| && confirmed) ==>
        recordings == old(recordings) && selectedRecordingIndex == old(selectedRecordingIndex) && deleted.None?
    {
      var recording := SelectedRecording();
      if recording.None? || !confirmed {
        return None;
      }
      recordings := recordings[..selectedRecordingIndex] + recordings[selectedRecordingIndex + 1..];
      selectedRecordingIndex := -1;
      return Some((recording.value.id, recording.value.filePath));
    }

    /** onImportRecording: a chosen file copied into the recordings folder
      * under its own name is added as an "imported" recording and
      * selected; nothing changes when no file was chosen or the copy
      * failed. */
    method OnImportRecording(source: string, moviesDir: string, copied: bool, sourceSize: int, newId: string, now: int)
      modifies this
      ensures source != "" && copied ==>
        && recordings == old(recordings) + [FileRecording(newId, moviesDir + "/DroneRecordings/" + FileName(source), source, sourceSize, now, "imported")]
        && selectedRecordingIndex == |old(recordings)|
      ensures !(source != "" && copied) ==>
        recordings == old(recordings) && selectedRecordingIndex == old(selectedRecordingIndex)
    {
      if source != "" && copied {
        var destPath := moviesDir + "/DroneRecordings" + "/" + FileName(source);
        assert destPath == moviesDir + "/DroneRecordings/" + FileName(source);
        recordings := recordings + [FileRecording(newId, destPath, source, sourceSize, now, "imported")];
        UpdateRecordingList();
        OnRecordingSelectionChanged(|recordings| - 1);
      }
    }
  }
}
