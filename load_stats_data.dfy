/** The statistics loader: a naive CSV reader (split on every line feed and
    every comma, no quoting rules) and the merge of several yearly tables
    into one row per year, each table's columns prefixed with its name. */
module LoadStatsData {
  import opened Wrappers
  import opened JsText

  // ---------------------------------------------------------------------------
  // cells and records

  /** A parsed cell: absent (the line had fewer cells than the header), a
      number, or the cleaned text when it does not read as a number. */
  datatype Cell = Missing | NumCell(n: int) | StrCell(s: string)

  /** One CSV line after the header, keyed by header name. */
  type Record = map<string, Cell>

  /** `.replace(/^"|"$/g, "")`: at most one double quote dropped at each end. */
  function StripQuotes(s: string): (r: string)
    ensures var a := if s != [] && s[0] == '"' then 1 else 0;
      a + |r| <= |s| && r == s[a..a + |r|] && |s| - a - |r| <= 1
      && (a + |r| < |s| ==> s[|s| - 1] == '"')
      && (a + |r| == |s| && r != [] ==> r[|r| - 1] != '"')
  {
    var t := if s != [] && s[0] == '"' then s[1..] else s;
    if t != [] && t[|t| - 1] == '"' then t[..|t| - 1] else t
  }

  /** A quoted text without quotes of its own loses exactly its two quotes. */
  lemma StripQuotesOfQuoted(w: string)
    requires '"' !in w
    ensures StripQuotes("\"" + w + "\"") == w
  {
    var s := "\"" + w + "\"";
    assert s[1..] == w + "\"";
    assert (w + "\"")[..|w|] == w;
  }

  /** A text with no quote at either end is left alone. */
  lemma StripQuotesPlain(s: string)
    requires s != [] ==> s[0] != '"' && s[|s| - 1] != '"'
    ensures StripQuotes(s) == s
  {
  }

  /** How every header and cell is cleaned: trimmed, then unquoted. */
  function Clean(s: string): string {
    StripQuotes(Trim(s))
  }

  /** The cleaned cells of one line. */
  function CleanCells(line: string): (cells: seq<string>)
    ensures |cells| == Count(line, ',') + 1
  {
    var raw := Split(line, ',');
    SplitCount(line, ',');
    seq(|raw|, i requires 0 <= i < |raw| => Clean(raw[i]))
  }

  /** `values[index]`, which is `undefined` past the end. */
  function ValueAt(values: seq<string>, index: nat): Option<string> {
    if index < |values| then Some(values[index]) else None
  }

  /** `isNaN(parseFloat(value)) ? value : parseFloat(value)` for a value that
      is either absent or an integer or not a number at all. */
  function CellOf(value: Option<string>): Cell {
    match value
    case None => Missing
    case Some(v) =>
      match ParseInteger(v)
      case Some(n) => NumCell(n)
      case None => StrCell(v)
  }

  lemma CellOfCases(n: int)
    ensures CellOf(None) == Missing
    ensures CellOf(Some(IntToString(n))) == NumCell(n)
    ensures CellOf(Some("")) == StrCell("")
  {
    ParseIntToString(n);
  }

  /** The record the `headers.forEach` loop leaves behind: its keys are
      exactly the header names, and a later header of the same name
      overwrites an earlier one. */
  function RecordOf(headers: seq<string>, values: seq<string>): (r: Record)
    ensures forall k :: k in r <==> k in headers
    decreases |headers|
  {
    if headers == [] then map[]
    else
      var n := |headers| - 1;
      assert headers == headers[..n] + [headers[n]];
      RecordOf(headers[..n], values)[headers[n] := CellOf(ValueAt(values, n))]
  }

  /** The cell under a header is the value in the same column, unless a
      later header has the same name; a missing trailing value is `Missing`. */
  lemma {:induction false} RecordValue(headers: seq<string>, values: seq<string>, i: nat)
    requires i < |headers|
    requires forall j :: i < j < |headers| ==> headers[j] != headers[i]
    ensures headers[i] in RecordOf(headers, values)
    ensures RecordOf(headers, values)[headers[i]] == CellOf(ValueAt(values, i))
  {
    var n := |headers| - 1;
    if i < n {
      RecordValue(headers[..n], values, i);
    }
  }

  /** Cells beyond the last header are dropped. */
  lemma {:induction false} RecordIgnoresSurplus(headers: seq<string>, values: seq<string>, extra: seq<string>)
    requires |headers| <= |values|
    ensures RecordOf(headers, values + extra) == RecordOf(headers, values)
  {
    if headers != [] {
      var n := |headers| - 1;
      RecordIgnoresSurplus(headers[..n], values, extra);
      assert (values + extra)[n] == values[n];
    }
  }

  /** The `headers.forEach` loop of `parseCSV`, filling one record in place. */
  method BuildRecord(headers: seq<string>, values: seq<string>) returns (obj: Record)
    ensures obj == RecordOf(headers, values)
  {
    obj := map[];
    var index := 0;
    while index < |headers|
      invariant 0 <= index <= |headers|
      invariant obj == RecordOf(headers[..index], values)
    {
      assert headers[..index + 1][..index] == headers[..index];
      obj := obj[headers[index] := CellOf(ValueAt(values, index))];
      index := index + 1;
    }
    assert headers[..|headers|] == headers;
  }

  /** The lines of the trimmed text; there is always at least one. */
  function Lines(text: string): (lines: seq<string>)
    ensures |lines| == Count(Trim(text), '\n') + 1
  {
    SplitCount(Trim(text), '\n');
    Split(Trim(text), '\n')
  }

  /** The cleaned header names from the first line. */
  function Headers(text: string): seq<string> {
    CleanCells(Lines(text)[0])
  }

  /** What `parseCSV` returns: one record per line after the first. */
  function ParsedRecords(text: string): (records: seq<Record>)
    ensures |records| == Count(Trim(text), '\n')
    ensures forall i, k :: 0 <= i < |records| ==> (k in records[i] <==> k in Headers(text))
  {
    var lines := Lines(text);
    seq(|lines| - 1, i requires 0 <= i < |lines| - 1 => RecordOf(Headers(text), CleanCells(lines[i + 1])))
  }

  /** `parseCSV`: the outer `map` over the lines, each record filled by
      `BuildRecord`. */
  method ParseCsv(text: string) returns (records: seq<Record>)
    ensures records == ParsedRecords(text)
  {
    var lines := Lines(text);
    var headers := Headers(text);
    ghost var expected := ParsedRecords(text);
    records := [];
    var i := 1;
    while i < |lines|
      invariant 1 <= i <= |lines|
      invariant records == expected[..i - 1]
    {
      var obj := BuildRecord(headers, CleanCells(lines[i]));
      assert obj == expected[i - 1];
      assert expected[..i] == expected[..i - 1] + [obj];
      records := records + [obj];
      i := i + 1;
    }
    assert expected[..|lines| - 1] == expected;
  }

  // ---------------------------------------------------------------------------
  // the years of the merged table

  /** `typeof row.year === "number"` and its value. */
  predicate HasYear(rec: Record, y: int) {
    "year" in rec && rec["year"] == NumCell(y)
  }

  /** `allYears.add` of one record's year, the set kept in insertion order. */
  function AddYear(years: seq<int>, rec: Record): seq<int> {
    if "year" in rec && rec["year"].NumCell? && rec["year"].n !in years then years + [rec["year"].n]
    else years
  }

  /** The years of `records`, added after `years` in order of first appearance. */
  function YearsOfRecords(years: seq<int>, records: seq<Record>): seq<int>
    decreases |records|
  {
    if records == [] then years
    else AddYear(YearsOfRecords(years, records[..|records| - 1]), records[|records| - 1])
  }

  /** The years of all tables, in order of first appearance. */
  function YearsOfTables(tables: seq<seq<Record>>): seq<int>
    decreases |tables|
  {
    if tables == [] then []
    else YearsOfRecords(YearsOfTables(tables[..|tables| - 1]), tables[|tables| - 1])
  }

  predicate Distinct(ys: seq<int>) {
    forall i, j :: 0 <= i < j < |ys| ==> ys[i] != ys[j]
  }

  /** Some record of `records` has the numeric year `y`. */
  predicate YearInRecords(records: seq<Record>, y: int) {
    exists j :: 0 <= j < |records| && HasYear(records[j], y)
  }

  /** Some record of some table has the numeric year `y`. */
  predicate YearInTables(tables: seq<seq<Record>>, y: int) {
    exists i :: 0 <= i < |tables| && YearInRecords(tables[i], y)
  }

  lemma YearInRecordsLast(records: seq<Record>, y: int)
    requires records != []
    ensures YearInRecords(records, y) <==>
      YearInRecords(records[..|records| - 1], y) || HasYear(records[|records| - 1], y)
  {
    var n := |records| - 1;
    if YearInRecords(records, y) {
      var j :| 0 <= j < |records| && HasYear(records[j], y);
      if j < n {
        assert records[..n][j] == records[j];
      }
    }
    if YearInRecords(records[..n], y) {
      var j :| 0 <= j < n && HasYear(records[..n][j], y);
      assert records[..n][j] == records[j];
    }
  }

  lemma YearInTablesLast(tables: seq<seq<Record>>, y: int)
    requires tables != []
    ensures YearInTables(tables, y) <==>
      YearInTables(tables[..|tables| - 1], y) || YearInRecords(tables[|tables| - 1], y)
  {
    var n := |tables| - 1;
    if YearInTables(tables, y) {
      var i :| 0 <= i < |tables| && YearInRecords(tables[i], y);
      if i < n {
        assert tables[..n][i] == tables[i];
      }
    }
    if YearInTables(tables[..n], y) {
      var i :| 0 <= i < n && YearInRecords(tables[..n][i], y);
      assert tables[..n][i] == tables[i];
    }
  }

  lemma {:induction false} YearsOfRecordsSpec(years: seq<int>, records: seq<Record>)
    requires Distinct(years)
    ensures Distinct(YearsOfRecords(years, records))
    ensures forall y :: y in YearsOfRecords(years, records) <==> y in years || YearInRecords(records, y)
  {
    if records != [] {
      var n := |records| - 1;
      YearsOfRecordsSpec(years, records[..n]);
      forall y
        ensures YearInRecords(records, y) <==> YearInRecords(records[..n], y) || HasYear(records[n], y)
      {
        YearInRecordsLast(records, y);
      }
    }
  }

  /** The merged table's years: no duplicates, and exactly the numeric `year`
      cells found in any table. */
  lemma {:induction false} YearsOfTablesSpec(tables: seq<seq<Record>>)
    ensures Distinct(YearsOfTables(tables))
    ensures forall y :: y in YearsOfTables(tables) <==> YearInTables(tables, y)
  {
    if tables != [] {
      var n := |tables| - 1;
      YearsOfTablesSpec(tables[..n]);
      YearsOfRecordsSpec(YearsOfTables(tables[..n]), tables[n]);
      forall y
        ensures YearInTables(tables, y) <==> YearInTables(tables[..n], y) || YearInRecords(tables[n], y)
      {
        YearInTablesLast(tables, y);
      }
    }
  }

  /** The nested `forEach` that fills `allYears`. */
  method CollectYears(tables: seq<seq<Record>>) returns (years: seq<int>)
    ensures years == YearsOfTables(tables)
  {
    years := [];
    var i := 0;
    while i < |tables|
      invariant 0 <= i <= |tables|
      invariant years == YearsOfTables(tables[..i])
    {
      assert tables[..i + 1][..i] == tables[..i];
      var data := tables[i];
      var j := 0;
      while j < |data|
        invariant 0 <= j <= |data|
        invariant years == YearsOfRecords(YearsOfTables(tables[..i]), data[..j])
      {
        assert data[..j + 1][..j] == data[..j];
        var rec := data[j];
        if "year" in rec && rec["year"].NumCell? && rec["year"].n !in years {
          years := years + [rec["year"].n];
        }
        j := j + 1;
      }
      assert data[..|data|] == data;
      i := i + 1;
    }
    assert tables[..|tables|] == tables;
  }

  // ---------------------------------------------------------------------------
  // `sort()` without a comparator: by decimal text, code unit by code unit

  /** `a` sorts strictly before `b` as text. */
  predicate TextBefore(a: string, b: string)
    decreases |a|
  {
    if a == [] then b != []
    else if b == [] then false
    else if a[0] != b[0] then a[0] < b[0]
    else TextBefore(a[1..], b[1..])
  }

  lemma {:induction false} TextBeforeIrreflexive(a: string)
    ensures !TextBefore(a, a)
  {
    if a != [] {
      TextBeforeIrreflexive(a[1..]);
    }
  }

  lemma {:induction false} TextBeforeTransitive(a: string, b: string, c: string)
    requires TextBefore(a, b) && TextBefore(b, c)
    ensures TextBefore(a, c)
    decreases |a|
  {
    if a != [] && a[0] == b[0] && b[0] == c[0] {
      TextBeforeTransitive(a[1..], b[1..], c[1..]);
    }
  }

  lemma {:induction false} TextBeforeTotal(a: string, b: string)
    ensures a == b || TextBefore(a, b) || TextBefore(b, a)
    decreases |a|
  {
    if a != [] && b != [] && a[0] == b[0] {
      TextBeforeTotal(a[1..], b[1..]);
      if a[1..] == b[1..] {
        assert a == [a[0]] + a[1..] && b == [b[0]] + b[1..];
      }
    }
  }

  lemma {:induction false} TextBeforeAsymmetric(a: string, b: string)
    requires TextBefore(a, b)
    ensures !TextBefore(b, a)
    decreases |a|
  {
    if a != [] && b != [] && a[0] == b[0] {
      TextBeforeAsymmetric(a[1..], b[1..]);
    }
  }

  /** How `sort()` compares two years: by their decimal texts. */
  predicate YearBefore(x: int, y: int) {
    TextBefore(IntToString(x), IntToString(y))
  }

  /** Two distinct years are always ordered one way or the other. */
  lemma YearBeforeTotal(x: int, y: int)
    requires x != y
    ensures YearBefore(x, y) || YearBefore(y, x)
  {
    IntToStringInjective(x, y);
    TextBeforeTotal(IntToString(x), IntToString(y));
  }

  predicate SortedByText(ys: seq<int>) {
    forall i, j :: 0 <= i < j < |ys| ==> YearBefore(ys[i], ys[j])
  }

  /** One step of the sort: `y` inserted before the first year it sorts before. */
  function InsertYear(y: int, ys: seq<int>): (r: seq<int>)
    ensures multiset(r) == multiset(ys) + multiset{y}
  {
    if ys == [] then [y]
    else if YearBefore(ys[0], y) then
      assert ys == [ys[0]] + ys[1..];
      [ys[0]] + InsertYear(y, ys[1..])
    else [y] + ys
  }

  /** The years as `sort()` orders them. */
  function SortYears(ys: seq<int>): (r: seq<int>)
    ensures multiset(r) == multiset(ys)
  {
    if ys == [] then []
    else
      assert ys == [ys[0]] + ys[1..];
      InsertYear(ys[0], SortYears(ys[1..]))
  }

  /** A year before every element of a sorted list can go in front. */
  lemma SortedCons(x: int, ys: seq<int>)
    requires SortedByText(ys)
    requires forall k :: 0 <= k < |ys| ==> YearBefore(x, ys[k])
    ensures SortedByText([x] + ys)
  {
    var r := [x] + ys;
    forall a, b | 0 <= a < b < |r|
      ensures YearBefore(r[a], r[b])
    {
      assert r[b] == ys[b - 1];
      if a > 0 {
        assert r[a] == ys[a - 1];
      }
    }
  }

  /** What is before `y` and before every year of `ys` is before every year
      of the insertion. */
  lemma InsertYearBelow(x: int, y: int, ys: seq<int>)
    requires YearBefore(x, y)
    requires forall k :: 0 <= k < |ys| ==> YearBefore(x, ys[k])
    ensures forall k :: 0 <= k < |InsertYear(y, ys)| ==> YearBefore(x, InsertYear(y, ys)[k])
  {
    var r := InsertYear(y, ys);
    forall k | 0 <= k < |r|
      ensures YearBefore(x, r[k])
    {
      assert r[k] in multiset(r);
      if r[k] != y {
        assert r[k] in multiset(ys);
        var m :| 0 <= m < |ys| && ys[m] == r[k];
      }
    }
  }

  lemma {:induction false} InsertYearSorted(y: int, ys: seq<int>)
    requires SortedByText(ys) && y !in ys
    ensures SortedByText(InsertYear(y, ys))
  {
    if ys != [] {
      var tail := ys[1..];
      if YearBefore(ys[0], y) {
        assert y !in tail;
        InsertYearSorted(y, tail);
        assert forall k :: 0 <= k < |tail| ==> tail[k] == ys[k + 1];
        InsertYearBelow(ys[0], y, tail);
        SortedCons(ys[0], InsertYear(y, tail));
      } else {
        YearBeforeTotal(y, ys[0]);
        forall k | 0 <= k < |ys|
          ensures YearBefore(y, ys[k])
        {
          if k > 0 {
            TextBeforeTransitive(IntToString(y), IntToString(ys[0]), IntToString(ys[k]));
          }
        }
        SortedCons(y, ys);
      }
    }
  }

  /** Sorting distinct years puts every year strictly before the later ones. */
  lemma {:induction false} SortYearsSorted(ys: seq<int>)
    requires Distinct(ys)
    ensures SortedByText(SortYears(ys))
  {
    if ys != [] {
      var tail := ys[1..];
      assert Distinct(tail) by {
        forall i, j | 0 <= i < j < |tail|
          ensures tail[i] != tail[j]
        {
          assert tail[i] == ys[i + 1] && tail[j] == ys[j + 1];
        }
      }
      SortYearsSorted(tail);
      assert ys[0] !in multiset(tail) by {
        forall m | 0 <= m < |tail|
          ensures tail[m] != ys[0]
        {
          assert tail[m] == ys[m + 1];
        }
      }
      assert ys[0] !in SortYears(tail) by {
        assert multiset(SortYears(tail)) == multiset(tail);
      }
      InsertYearSorted(ys[0], SortYears(tail));
    }
  }

  /** Sorted years are distinct. */
  lemma SortedDistinct(ys: seq<int>)
    requires SortedByText(ys)
    ensures Distinct(ys)
  {
    forall i, j | 0 <= i < j < |ys|
      ensures ys[i] != ys[j]
    {
      if ys[i] == ys[j] {
        TextBeforeIrreflexive(IntToString(ys[i]));
      }
    }
  }

  /** Appending one character to texts of equal length compares the texts
      first and the characters after. */
  lemma {:induction false} TextBeforeAppend(a: string, b: string, c: char, d: char)
    requires |a| == |b|
    ensures TextBefore(a + [c], b + [d]) <==> TextBefore(a, b) || (a == b && c < d)
    decreases |a|
  {
    if a != [] {
      assert (a + [c])[1..] == a[1..] + [c];
      assert (b + [d])[1..] == b[1..] + [d];
      TextBeforeAppend(a[1..], b[1..], c, d);
      if a[0] == b[0] && a[1..] == b[1..] {
        assert a == [a[0]] + a[1..] && b == [b[0]] + b[1..];
      }
    }
  }

  lemma DigitOrder(i: nat, j: nat)
    requires i < 10 && j < 10
    ensures Digits[i] < Digits[j] <==> i < j
    ensures Digits[i] == Digits[j] <==> i == j
  {
  }

  lemma NatToStringWidth(n: nat)
    ensures n < 10 <==> |NatToString(n)| == 1
  {
  }

  /** For years of the same digit count, text order is numeric order. */
  lemma {:induction false} SameWidthTextOrder(x: nat, y: nat)
    requires |NatToString(x)| == |NatToString(y)|
    ensures TextBefore(NatToString(x), NatToString(y)) <==> x < y
  {
    NatToStringWidth(x);
    NatToStringWidth(y);
    if x < 10 {
      DigitOrder(x, y);
    } else {
      var a := NatToString(x / 10);
      var b := NatToString(y / 10);
      SameWidthTextOrder(x / 10, y / 10);
      TextBeforeAppend(a, b, Digits[x % 10], Digits[y % 10]);
      DigitOrder(x % 10, y % 10);
      DigitsValueOfNatToString(x / 10);
      DigitsValueOfNatToString(y / 10);
      assert a == b <==> x / 10 == y / 10;
    }
  }

  /** `sort()` agrees with ascending numeric order when every year is
      non-negative and has the same number of digits. */
  lemma SortedSameWidthAscending(ys: seq<int>, width: nat)
    requires SortedByText(ys)
    requires forall i :: 0 <= i < |ys| ==> ys[i] >= 0 && |IntToString(ys[i])| == width
    ensures forall i, j :: 0 <= i < j < |ys| ==> ys[i] < ys[j]
  {
    forall i, j | 0 <= i < j < |ys|
      ensures ys[i] < ys[j]
    {
      SameWidthTextOrder(ys[i], ys[j]);
    }
  }

  /** With digit counts that differ, text order is not numeric order:
      1000 sorts before 999. */
  lemma SortIsNotNumeric()
    ensures YearBefore(1000, 999)
    ensures SortYears([999, 1000]) == [1000, 999]
  {
    assert NatToString(1) == "1";
    assert NatToString(10) == "10";
    assert NatToString(100) == "100";
    assert NatToString(1000) == "1000";
    assert NatToString(9) == "9";
    assert NatToString(99) == "99";
    assert NatToString(999) == "999";
    assert TextBefore("1000", "999");
    assert [999, 1000][1..] == [1000];
    assert SortYears([1000]) == [1000];
  }

  // ---------------------------------------------------------------------------
  // the merged rows

  /** One configured statistics table: where it is fetched from, the prefix
      of its columns, and the years it is valid for. */
  datatype StatSource = StatSource(path: string, prefix: string, startYear: int, endYear: int)

  /** One row of the merged table, keyed by column name. */
  type Row = map<string, Cell>

  predicate InRange(source: StatSource, year: int) {
    source.startYear <= year <= source.endYear
  }

  /** `ds.data.find((d) => d.year === year)`: the first record of that year. */
  function FindYear(records: seq<Record>, year: int): (r: Option<Record>)
    ensures r.None? <==> !YearInRecords(records, year)
    ensures r.Some? ==> exists j :: 0 <= j < |records| && records[j] == r.value && HasYear(r.value, year)
                                  && (forall i :: 0 <= i < j ==> !HasYear(records[i], year))
  {
    if records == [] then None
    else if HasYear(records[0], year) then Some(records[0])
    else
      var r := FindYear(records[1..], year);
      assert forall j :: 0 <= j < |records| - 1 ==> records[1..][j] == records[j + 1];
      r
  }

  /** The column name `${prefix}_${key}`. */
  function Column(prefix: string, key: string): (c: string)
    ensures |c| == |prefix| + 1 + |key| && c[|prefix|] == '_' && c[|prefix| + 1..] == key
  {
    prefix + "_" + key
  }

  /** A prefix names each key's column differently. */
  lemma ColumnInjective(prefix: string, a: string, b: string)
    requires Column(prefix, a) == Column(prefix, b)
    ensures a == b
  {
  }

  /** No prefixed column is named `date`. */
  lemma ColumnIsNotDate(prefix: string, key: string)
    ensures Column(prefix, key) != "date"
  {
  }

  /** Two different prefixes can still name the same column: the
      `mangrove` table's `area_ha` and the `mangrove_area` table's `ha`
      both land in `mangrove_area_ha`. */
  lemma PrefixedColumnsCanCollide()
    ensures Column("mangrove", "area_ha") == Column("mangrove_area", "ha")
  {
  }

  /** The columns of `keys` that the `Object.entries(yearData).forEach` loop
      copies: every key but `year`, under its prefixed name. */
  function ColumnsOf(prefix: string, rec: Record, keys: set<string>): Row {
    map k | k in keys && k in rec && k != "year" :: Column(prefix, k) := rec[k]
  }

  /** The copied columns are exactly the prefixed keys other than `year`,
      each holding its key's cell. */
  lemma ColumnsOfSpec(prefix: string, rec: Record, keys: set<string>)
    ensures forall k :: k in keys && k in rec && k != "year" ==>
      Column(prefix, k) in ColumnsOf(prefix, rec, keys) && ColumnsOf(prefix, rec, keys)[Column(prefix, k)] == rec[k]
    ensures forall c :: c in ColumnsOf(prefix, rec, keys) ==>
      exists k :: k in keys && k in rec && k != "year" && c == Column(prefix, k)
  {
  }

  /** Adding one key to the copied set adds its one column. */
  lemma ColumnsOfAdd(prefix: string, rec: Record, done: set<string>, k: string)
    requires k in rec && k != "year"
    ensures ColumnsOf(prefix, rec, done + {k}) == ColumnsOf(prefix, rec, done)[Column(prefix, k) := rec[k]]
  {
    var left := ColumnsOf(prefix, rec, done + {k});
    var right := ColumnsOf(prefix, rec, done)[Column(prefix, k) := rec[k]];
    forall c | c in left
      ensures c in right && left[c] == right[c]
    {
      var j :| j in done + {k} && j in rec && j != "year" && c == Column(prefix, j);
      if c == Column(prefix, k) {
        ColumnInjective(prefix, j, k);
      } else {
        assert j in done;
        assert c in ColumnsOf(prefix, rec, done);
      }
    }
    assert left.Keys == right.Keys;
  }

  lemma MergeUpdate(row: Row, cols: Row, c: string, v: Cell)
    ensures (row + cols)[c := v] == row + cols[c := v]
  {
  }

  /** One step of the copy loop. */
  lemma CopyStep(row: Row, prefix: string, rec: Record, done: set<string>, k: string)
    requires k in rec
    ensures row + ColumnsOf(prefix, rec, done + {k}) ==
      if k != "year" then (row + ColumnsOf(prefix, rec, done))[Column(prefix, k) := rec[k]]
      else row + ColumnsOf(prefix, rec, done)
  {
    if k != "year" {
      ColumnsOfAdd(prefix, rec, done, k);
      MergeUpdate(row, ColumnsOf(prefix, rec, done), Column(prefix, k), rec[k]);
    } else {
      assert ColumnsOf(prefix, rec, done + {k}) == ColumnsOf(prefix, rec, done);
    }
  }

  /** The inner loop of the merge: every column of one record copied into the
      row in place. */
  method CopyColumns(row: Row, prefix: string, rec: Record) returns (out: Row)
    ensures out == row + ColumnsOf(prefix, rec, rec.Keys)
  {
    out := row;
    assert row + ColumnsOf(prefix, rec, {}) == row by {
      assert ColumnsOf(prefix, rec, {}) == map[];
    }
    var keys := rec.Keys;
    ghost var done: set<string> := {};
    while keys != {}
      invariant keys <= rec.Keys && done == rec.Keys - keys
      invariant out == row + ColumnsOf(prefix, rec, done)
      decreases keys
    {
      var k :| k in keys;
      CopyStep(row, prefix, rec, done, k);
      if k != "year" {
        out := out[Column(prefix, k) := rec[k]];
      }
      keys := keys - {k};
      done := done + {k};
    }
    assert done == rec.Keys;
  }

  /** The columns table `table`, configured by `source`, puts into the row
      of `year`: none unless the year is in the source's range and the table
      has a record of that year, and then that record's prefixed columns. */
  function YearColumns(year: int, source: StatSource, table: seq<Record>): Row {
    if InRange(source, year) then
      match FindYear(table, year)
      case Some(rec) => ColumnsOf(source.prefix, rec, rec.Keys)
      case None => map[]
    else map[]
  }

  /** `base` with each map of `layers` laid over it in turn, later ones winning. */
  function Overlay(base: Row, layers: seq<Row>): Row
    decreases |layers|
  {
    if layers == [] then base else Overlay(base, layers[..|layers| - 1]) + layers[|layers| - 1]
  }

  lemma {:induction false} OverlayKeys(base: Row, layers: seq<Row>, c: string)
    ensures c in Overlay(base, layers) <==> c in base || exists i :: 0 <= i < |layers| && c in layers[i]
  {
    if layers != [] {
      var n := |layers| - 1;
      OverlayKeys(base, layers[..n], c);
      if exists i :: 0 <= i < |layers| && c in layers[i] {
        var i :| 0 <= i < |layers| && c in layers[i];
        if i < n {
          assert layers[..n][i] == layers[i];
        }
      }
      if exists i :: 0 <= i < n && c in layers[..n][i] {
        var i :| 0 <= i < n && c in layers[..n][i];
        assert layers[..n][i] == layers[i];
      }
    }
  }

  /** A key holds the value of the last layer that has it. */
  lemma {:induction false} OverlayValue(base: Row, layers: seq<Row>, i: nat, c: string)
    requires i < |layers| && c in layers[i]
    requires forall j :: i < j < |layers| ==> c !in layers[j]
    ensures c in Overlay(base, layers) && Overlay(base, layers)[c] == layers[i][c]
  {
    var n := |layers| - 1;
    if i < n {
      assert layers[..n][i] == layers[i];
      forall j | i < j < n
        ensures c !in layers[..n][j]
      {
        assert layers[..n][j] == layers[j];
      }
      OverlayValue(base, layers[..n], i, c);
    }
  }

  /** A key no layer has keeps its value from the base. */
  lemma {:induction false} OverlayBase(base: Row, layers: seq<Row>, c: string)
    requires c in base
    requires forall i :: 0 <= i < |layers| ==> c !in layers[i]
    ensures c in Overlay(base, layers) && Overlay(base, layers)[c] == base[c]
  {
    if layers != [] {
      var n := |layers| - 1;
      forall i | 0 <= i < n
        ensures c !in layers[..n][i]
      {
        assert layers[..n][i] == layers[i];
      }
      OverlayBase(base, layers[..n], c);
    }
  }

  lemma OverlayStep(base: Row, layers: seq<Row>, n: nat)
    requires n < |layers|
    ensures Overlay(base, layers[..n + 1]) == Overlay(base, layers[..n]) + layers[n]
  {
    assert layers[..n + 1][..n] == layers[..n];
  }

  /** Each table's contribution to the row of `year`, in configuration order. */
  function Contributions(year: int, sources: seq<StatSource>, tables: seq<seq<Record>>): (cs: seq<Row>)
    requires |tables| == |sources|
    ensures |cs| == |sources|
  {
    seq(|sources|, i requires 0 <= i < |sources| => YearColumns(year, sources[i], tables[i]))
  }

  /** The row of `year`: `date`, then each table's columns laid over it. */
  function MergedRow(year: int, sources: seq<StatSource>, tables: seq<seq<Record>>): Row
    requires |tables| == |sources|
  {
    Overlay(map["date" := StrCell(IntToString(year))], Contributions(year, sources, tables))
  }

  /** No table contributes a `date` column. */
  lemma YearColumnsNoDate(year: int, source: StatSource, table: seq<Record>)
    ensures "date" !in YearColumns(year, source, table)
  {
    if InRange(source, year) && FindYear(table, year).Some? {
      var rec := FindYear(table, year).value;
      ColumnsOfSpec(source.prefix, rec, rec.Keys);
      if "date" in ColumnsOf(source.prefix, rec, rec.Keys) {
        var k :| k in rec && k != "year" && "date" == Column(source.prefix, k);
        ColumnIsNotDate(source.prefix, k);
      }
    }
  }

  /** The row's `date` is the year's decimal text, and no table overwrites it. */
  lemma MergedRowDate(year: int, sources: seq<StatSource>, tables: seq<seq<Record>>)
    requires |tables| == |sources|
    ensures "date" in MergedRow(year, sources, tables)
    ensures MergedRow(year, sources, tables)["date"] == StrCell(IntToString(year))
  {
    var cs := Contributions(year, sources, tables);
    forall i | 0 <= i < |cs|
      ensures "date" !in cs[i]
    {
      YearColumnsNoDate(year, sources[i], tables[i]);
    }
    OverlayBase(map["date" := StrCell(IntToString(year))], cs, "date");
  }

  /** A row holds `date` and exactly the columns that some table contributes. */
  lemma MergedRowKeys(year: int, sources: seq<StatSource>, tables: seq<seq<Record>>, c: string)
    requires |tables| == |sources|
    ensures c in MergedRow(year, sources, tables) <==>
      c == "date" || exists i :: 0 <= i < |sources| && c in YearColumns(year, sources[i], tables[i])
  {
    var cs := Contributions(year, sources, tables);
    OverlayKeys(map["date" := StrCell(IntToString(year))], cs, c);
    assert forall i :: 0 <= i < |sources| ==> cs[i] == YearColumns(year, sources[i], tables[i]);
  }

  /** A contributed column holds the cell of the last table that contributes
      it; a table contributes `${prefix}_${key}` for every key but `year` of
      its first record of that year, when the year is in its range. */
  lemma MergedRowValue(year: int, sources: seq<StatSource>, tables: seq<seq<Record>>, i: nat, key: string)
    requires |tables| == |sources| && i < |sources|
    requires InRange(sources[i], year) && FindYear(tables[i], year).Some?
    requires key in FindYear(tables[i], year).value && key != "year"
    requires forall j :: i < j < |sources| ==> Column(sources[i].prefix, key) !in YearColumns(year, sources[j], tables[j])
    ensures Column(sources[i].prefix, key) in MergedRow(year, sources, tables)
    ensures MergedRow(year, sources, tables)[Column(sources[i].prefix, key)] == FindYear(tables[i], year).value[key]
  {
    var cs := Contributions(year, sources, tables);
    var rec := FindYear(tables[i], year).value;
    ColumnsOfSpec(sources[i].prefix, rec, rec.Keys);
    assert cs[i] == ColumnsOf(sources[i].prefix, rec, rec.Keys);
    assert forall j :: i < j < |sources| ==> cs[j] == YearColumns(year, sources[j], tables[j]);
    OverlayValue(map["date" := StrCell(IntToString(year))], cs, i, Column(sources[i].prefix, key));
  }

  /** The `datasets.forEach` loop that fills one merged row in place. */
  method BuildRow(year: int, sources: seq<StatSource>, tables: seq<seq<Record>>) returns (row: Row)
    requires |tables| == |sources|
    ensures row == MergedRow(year, sources, tables)
  {
    ghost var base := map["date" := StrCell(IntToString(year))];
    ghost var cs := Contributions(year, sources, tables);
    row := map["date" := StrCell(IntToString(year))];
    var index := 0;
    while index < |sources|
      invariant 0 <= index <= |sources|
      invariant row == Overlay(base, cs[..index])
    {
      OverlayStep(base, cs, index);
      var source := sources[index];
      ghost var contribution := YearColumns(year, source, tables[index]);
      assert cs[index] == contribution;
      if source.startYear <= year && year <= source.endYear {
        var yearData := FindYear(tables[index], year);
        if yearData.Some? {
          row := CopyColumns(row, source.prefix, yearData.value);
        } else {
          assert row + contribution == row;
        }
      } else {
        assert row + contribution == row;
      }
      index := index + 1;
    }
    assert cs[..|sources|] == cs;
  }

  // ---------------------------------------------------------------------------
  // loadStatsData

  /** Every fetch succeeded. */
  predicate AllFetched(fetched: seq<Option<string>>) {
    forall i :: 0 <= i < |fetched| ==> fetched[i].Some?
  }

  /** The parsed tables, one per fetched text. */
  function Tables(fetched: seq<Option<string>>): (tables: seq<seq<Record>>)
    requires AllFetched(fetched)
    ensures |tables| == |fetched|
  {
    seq(|fetched|, i requires 0 <= i < |fetched| => ParsedRecords(fetched[i].value))
  }

  /** The years of the merged table, in `sort()` order. */
  function MergedYears(fetched: seq<Option<string>>): seq<int>
    requires AllFetched(fetched)
  {
    SortYears(YearsOfTables(Tables(fetched)))
  }

  /** What `loadStatsData` resolves to, given the text each source's fetch
      produced (`None` when the fetch or the read failed): the empty list on
      any failure, otherwise one merged row per year. */
  function Merge(sources: seq<StatSource>, fetched: seq<Option<string>>): seq<Row>
    requires |fetched| == |sources|
  {
    if !AllFetched(fetched) then []
    else
      var years := MergedYears(fetched);
      seq(|years|, i requires 0 <= i < |years| => MergedRow(years[i], sources, Tables(fetched)))
  }

  /** The merged years are distinct, in text order, and exactly the numeric
      `year` cells found in any table. */
  lemma MergedYearsSpec(fetched: seq<Option<string>>)
    requires AllFetched(fetched)
    ensures Distinct(MergedYears(fetched)) && SortedByText(MergedYears(fetched))
    ensures forall y :: y in MergedYears(fetched) <==> YearInTables(Tables(fetched), y)
  {
    var ys := YearsOfTables(Tables(fetched));
    YearsOfTablesSpec(Tables(fetched));
    SortYearsSorted(ys);
    SortedDistinct(SortYears(ys));
    assert forall y :: y in SortYears(ys) <==> y in multiset(ys);
  }

  /** A failed fetch anywhere yields the empty list. */
  lemma MergeFailure(sources: seq<StatSource>, fetched: seq<Option<string>>, i: nat)
    requires |fetched| == |sources| && i < |fetched| && fetched[i].None?
    ensures Merge(sources, fetched) == []
  {
  }

  /** Otherwise there is one row per merged year, and each row's `date` is
      that year's decimal text. */
  lemma MergeRows(sources: seq<StatSource>, fetched: seq<Option<string>>)
    requires |fetched| == |sources| && AllFetched(fetched)
    ensures |Merge(sources, fetched)| == |MergedYears(fetched)|
    ensures forall i :: 0 <= i < |Merge(sources, fetched)| ==>
      "date" in Merge(sources, fetched)[i]
      && Merge(sources, fetched)[i]["date"] == StrCell(IntToString(MergedYears(fetched)[i]))
  {
    var years := MergedYears(fetched);
    forall i | 0 <= i < |years|
      ensures "date" in Merge(sources, fetched)[i]
      ensures Merge(sources, fetched)[i]["date"] == StrCell(IntToString(years[i]))
    {
      MergedRowDate(years[i], sources, Tables(fetched));
    }
  }

  /** The parse step of `loadStatsData`: `None` as soon as one fetch failed. */
  method ParseAll(fetched: seq<Option<string>>) returns (tables: Option<seq<seq<Record>>>)
    ensures AllFetched(fetched) ==> tables == Some(Tables(fetched))
    ensures !AllFetched(fetched) ==> tables == None
  {
    var parsed: seq<seq<Record>> := [];
    var i := 0;
    while i < |fetched|
      invariant 0 <= i <= |fetched|
      invariant |parsed| == i
      invariant forall j :: 0 <= j < i ==> fetched[j].Some? && parsed[j] == ParsedRecords(fetched[j].value)
    {
      if fetched[i].None? {
        return None;
      }
      var data := ParseCsv(fetched[i].value);
      parsed := parsed + [data];
      i := i + 1;
    }
    ghost var expected := Tables(fetched);
    assert |parsed| == |expected|;
    assert forall j :: 0 <= j < |parsed| ==> parsed[j] == expected[j];
    assert parsed == expected;
    return Some(parsed);
  }

  /** The `years.map` that builds one merged row per year. */
  method BuildRows(years: seq<int>, sources: seq<StatSource>, tables: seq<seq<Record>>) returns (rows: seq<Row>)
    requires |tables| == |sources|
    ensures |rows| == |years|
    ensures forall k :: 0 <= k < |years| ==> rows[k] == MergedRow(years[k], sources, tables)
  {
    rows := [];
    var k := 0;
    while k < |years|
      invariant 0 <= k <= |years|
      invariant |rows| == k
      invariant forall j :: 0 <= j < k ==> rows[j] == MergedRow(years[j], sources, tables)
    {
      var row := BuildRow(years[k], sources, tables);
      rows := rows + [row];
      k := k + 1;
    }
  }

  /** `loadStatsData` with its fetches replaced by their outcomes. */
  method LoadStats(sources: seq<StatSource>, fetched: seq<Option<string>>) returns (merged: seq<Row>)
    requires |fetched| == |sources|
    ensures merged == Merge(sources, fetched)
  {
    var parsed := ParseAll(fetched);
    if parsed.None? {
      return [];
    }
    var tables := parsed.value;
    var allYears := CollectYears(tables);
    var years := SortYears(allYears);
    merged := BuildRows(years, sources, tables);
    ghost var expected := Merge(sources, fetched);
    assert |merged| == |expected|;
    assert forall k :: 0 <= k < |merged| ==> merged[k] == expected[k];
  }
}
