/** `construct_file_path(file_name)` in src/lambda_function.py: the storage key
    `YYYY/MM/DD/<uuid>/<file_name>`, and the handler's way of reading the id back
    out of a key. Today's date and the `uuid1()` text are parameters. */
module FilePath {
  import opened Wrappers
  import opened Numerals
  import opened PosixPath

  datatype Date = Date(year: int, month: int, day: int)

  predicate IsLeapYear(y: int) {
    y % 4 == 0 && (y % 100 != 0 || y % 400 == 0)
  }

  function DaysInMonth(y: int, m: int): int
    requires 1 <= m <= 12
  {
    if m == 2 then (if IsLeapYear(y) then 29 else 28)
    else if m == 4 || m == 6 || m == 9 || m == 11 then 30
    else 31
  }

  /** A date Python's `date` type can represent. */
  predicate ValidDate(d: Date) {
    1 <= d.year <= 9999 && 1 <= d.month <= 12 && 1 <= d.day <= DaysInMonth(d.year, d.month)
  }

  /** `d.strftime('%Y/%m/%d')`. */
  function FormatDate(d: Date): (s: string)
    requires ValidDate(d)
    ensures |s| == 10 && s[4] == SEP && s[7] == SEP
    ensures forall i :: 0 <= i < 10 && i != 4 && i != 7 ==> '0' <= s[i] <= '9'
  {
    var s := Fixed(d.year, 10, 4) + "/" + Fixed(d.month, 10, 2) + "/" + Fixed(d.day, 10, 2);
    assert forall i :: 0 <= i < 10 && i != 4 && i != 7 ==> IsDigitIn(s[i], 10);
    s
  }

  /** Reads a `%Y/%m/%d` date back. */
  function ParseDate(s: string): Option<Date>
  {
    if |s| != 10 || s[4] != SEP || s[7] != SEP then None
    else match (ValueOf(s[..4], 10), ValueOf(s[5..7], 10), ValueOf(s[8..], 10))
      case (Some(y), Some(m), Some(d)) => Some(Date(y, m, d))
      case _ => None
  }

  lemma ParseFormatDate(d: Date)
    requires ValidDate(d)
    ensures ParseDate(FormatDate(d)) == Some(d)
  {
    var s := FormatDate(d);
    assert s[..4] == Fixed(d.year, 10, 4);
    assert s[5..7] == Fixed(d.month, 10, 2);
    assert s[8..] == Fixed(d.day, 10, 2);
    assert Pow(10, 4) == 10000 && Pow(10, 2) == 100;
    FixedRoundTrip(d.year, 10, 4);
    FixedRoundTrip(d.month, 10, 2);
    FixedRoundTrip(d.day, 10, 2);
  }

  predicate IsHexDigit(c: char) { '0' <= c <= '9' || 'a' <= c <= 'f' }

  /** `str(uuid.uuid1())`: 32 lower-case hex digits in groups of 8, 4, 4, 4 and 12. */
  predicate IsUuidText(s: string) {
    |s| == 36 &&
    forall i :: 0 <= i < |s| ==>
      if i == 8 || i == 13 || i == 18 || i == 23 then s[i] == '-' else IsHexDigit(s[i])
  }

  lemma UuidHasNoSep(id: string)
    requires IsUuidText(id)
    ensures id != [] && SEP !in id && !StartsWithSep(id) && !EndsWithSep(id)
  {
    forall i | 0 <= i < |id| ensures id[i] != SEP {
      assert id[i] == '-' || IsHexDigit(id[i]);
    }
  }

  /** `os.path.join(today.strftime('%Y/%m/%d'), id, file_name)`. */
  function ConstructFilePath(today: Date, id: string, fileName: string): string
    requires ValidDate(today)
  {
    Join3(FormatDate(today), id, fileName)
  }

  /** `os.path.split(os.path.split(key)[0])[1]`: the second-to-last path segment. */
  function ExtractId(key: string): string
  {
    Split(Split(key).0).1
  }

  /** A key is the date, the id and the file name, each separated by one `/`; an
      empty file name leaves a trailing `/`. */
  lemma KeyFormat(today: Date, id: string, fileName: string)
    requires ValidDate(today) && IsUuidText(id) && !StartsWithSep(fileName)
    ensures ConstructFilePath(today, id, fileName) == FormatDate(today) + "/" + id + "/" + fileName
    ensures fileName == [] ==> EndsWithSep(ConstructFilePath(today, id, fileName))
  {
    var date := FormatDate(today);
    UuidHasNoSep(id);
    JoinRelative(date, id);
    JoinRelative(date + [SEP] + id, fileName);
  }

  /** A file name starting with `/` discards the date and the id: the key is the name itself. */
  lemma AbsoluteNameIsKey(today: Date, id: string, fileName: string)
    requires ValidDate(today) && StartsWithSep(fileName)
    ensures ConstructFilePath(today, id, fileName) == fileName
  {
  }

  /** The key starts with the date it was built on; the date reads back from it. */
  lemma KeyDate(today: Date, id: string, fileName: string)
    requires ValidDate(today) && IsUuidText(id) && !StartsWithSep(fileName)
    ensures ParseDate(ConstructFilePath(today, id, fileName)[..10]) == Some(today)
  {
    KeyFormat(today, id, fileName);
    assert ConstructFilePath(today, id, fileName)[..10] == FormatDate(today);
    ParseFormatDate(today);
  }

  /** The id, as extracted from a freshly built key, is the one the key was built with,
      whenever the file name holds no `/` (the empty name included). */
  lemma ExtractIdRoundTrip(today: Date, id: string, fileName: string)
    requires ValidDate(today) && IsUuidText(id) && SEP !in fileName
    ensures ExtractId(ConstructFilePath(today, id, fileName)) == id
  {
    var date := FormatDate(today);
    UuidHasNoSep(id);
    KeyFormat(today, id, fileName);
    assert date + "/" + id + "/" + fileName == (date + [SEP] + id) + [SEP] + fileName;
    SplitJoined(date + [SEP] + id, fileName);
    SplitJoined(date, id);
  }

  /** A `/` inside the file name breaks the extraction: for `dir/base` the handler
      takes `dir` for the id. */
  lemma ExtractIdNestedName(today: Date, id: string, dir: string, base: string)
    requires ValidDate(today) && IsUuidText(id)
    requires dir != [] && SEP !in dir && SEP !in base
    ensures ExtractId(ConstructFilePath(today, id, dir + [SEP] + base)) == dir
  {
    var date := FormatDate(today);
    var prefix := date + [SEP] + id;
    UuidHasNoSep(id);
    KeyFormat(today, id, dir + [SEP] + base);
    assert ConstructFilePath(today, id, dir + [SEP] + base) == (prefix + [SEP] + dir) + [SEP] + base;
    SplitJoined(prefix + [SEP] + dir, base);
    SplitJoined(prefix, dir);
  }

  /** Keys built with different ids differ, whatever the dates and the (relative) names. */
  lemma KeysDiffer(d1: Date, id1: string, n1: string, d2: Date, id2: string, n2: string)
    requires ValidDate(d1) && ValidDate(d2) && IsUuidText(id1) && IsUuidText(id2)
    requires !StartsWithSep(n1) && !StartsWithSep(n2)
    requires id1 != id2
    ensures ConstructFilePath(d1, id1, n1) != ConstructFilePath(d2, id2, n2)
  {
    IdInKey(d1, id1, n1);
    IdInKey(d2, id2, n2);
  }

  /** The id sits at positions 11 to 46 of a key whose name is relative. */
  lemma IdInKey(today: Date, id: string, fileName: string)
    requires ValidDate(today) && IsUuidText(id) && !StartsWithSep(fileName)
    ensures ConstructFilePath(today, id, fileName)[11..47] == id
  {
    var date := FormatDate(today);
    KeyFormat(today, id, fileName);
    assert date + "/" + id + "/" + fileName == (date + "/") + id + ("/" + fileName);
    SliceMiddle(date + "/", id, "/" + fileName);
  }

  lemma SliceMiddle(a: string, b: string, c: string)
    ensures (a + b + c)[|a|..|a| + |b|] == b
  {
  }
}
