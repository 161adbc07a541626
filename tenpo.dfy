/**
 * The store-count file `tenpo2511.csv` (`load_tenpo2511_as_long_df` and
 * `tenpo_long_df_to_docs` in `ijunavi/rag_service.py`): a wide table with one
 * column per prefecture is reshaped into one row per (row, prefecture) whose
 * cell is numeric, and those rows are grouped into documents of 1200 lines.
 * The table is the one `pandas.read_csv(header=2)` produced: a list of column
 * labels and, per row, one cell per column.
 */
module Tenpo {
  import opened Common
  import opened Text
  import opened Chunking

  /** A table cell: a number, a text, or missing (`NaN`). */
  datatype Cell = Num(v: real) | Str(s: string) | NA

  /** One row of the long table: `year`, `timing`, `date`, `prefecture`, `store_count`. */
  datatype LongRow = LongRow(year: Cell, timing: Cell, date: Cell, prefecture: string, storeCount: real)

  /** The reshaped table, or the `ValueError` raised when no id column is found. */
  datatype Reshaped = LongTable(rows: seq<LongRow>) | HeaderError

  const TotalColumn: string := "合計"
  const DateColumn: string := "集計日"
  /** The candidate id columns, in the order the source lists them. */
  const IdCandidates: seq<string> := ["year", "timing", DateColumn]

  predicate Distinct(cols: seq<string>)
  {
    forall i, j :: 0 <= i < j < |cols| ==> cols[i] != cols[j]
  }

  /**
   * `df.rename(columns={cols[0]: "year", cols[1]: "timing"})` when there are
   * at least two columns. Labels are matched by name; of two equal keys in the
   * dict literal the later one wins.
   */
  function RenameColumns(cols: seq<string>): (r: seq<string>)
    ensures |r| == |cols|
    ensures |cols| < 2 ==> r == cols
    ensures |cols| >= 2 ==> r[1] == "timing"
    ensures |cols| >= 2 ==> r[0] == if cols[0] == cols[1] then "timing" else "year"
    ensures |cols| >= 2 ==> forall i :: 2 <= i < |cols| ==>
      && (cols[i] == cols[1] ==> r[i] == "timing")
      && (cols[i] == cols[0] && cols[i] != cols[1] ==> r[i] == "year")
      && (cols[i] != cols[0] && cols[i] != cols[1] ==> r[i] == cols[i])
  {
    if |cols| < 2 then cols
    else
      seq(|cols|, i requires 0 <= i < |cols| =>
        if cols[i] == cols[1] then "timing" else if cols[i] == cols[0] then "year" else cols[i])
  }

  /** `[c for c in cands if c in cols]`. */
  function PresentOf(cands: seq<string>, cols: seq<string>): (r: seq<string>)
    ensures forall c :: c in r <==> c in cands && c in cols
  {
    if cands == [] then []
    else (if cands[0] in cols then [cands[0]] else []) + PresentOf(cands[1..], cols)
  }

  /** `id_cols`: the id columns present, in the order `year`, `timing`, `集計日`. */
  function IdColumns(cols: seq<string>): seq<string>
  {
    PresentOf(IdCandidates, cols)
  }

  /** `[c for c in cols if c not in exclude]`. */
  function Without(cols: seq<string>, exclude: set<string>): (r: seq<string>)
    ensures |r| <= |cols|
    ensures forall c :: c in r <==> c in cols && c !in exclude
  {
    if cols == [] then []
    else (if cols[0] in exclude then [] else [cols[0]]) + Without(cols[1..], exclude)
  }

  /** `pref_cols`: every column except the id columns and `合計`, in table order. */
  function PrefColumns(cols: seq<string>): seq<string>
  {
    Without(cols, (set c | c in IdColumns(cols)) + {TotalColumn})
  }

  /**
   * The exclusion only depends on the fixed names: a column is a prefecture
   * column exactly when it is not `year`, `timing`, `集計日` or `合計`.
   */
  lemma PrefColumnsExclude(cols: seq<string>)
    ensures forall c :: c in PrefColumns(cols) <==>
      c in cols && c != "year" && c != "timing" && c != DateColumn && c != TotalColumn
  {
  }

  /** `pd.to_numeric(cell, errors="coerce")`, `None` standing for `NaN`. */
  function ToNumeric(c: Cell): Option<real>
  {
    match c
    case Num(v) => Some(v)
    case NA => None
    case Str(s) =>
      var body := if |s| > 0 && (s[0] == '-' || s[0] == '+') then s[1..] else s;
      if |body| > 0 && forall k :: 0 <= k < |body| ==> '0' <= body[k] <= '9' then
        var v := DigitsValue(body) as real;
        Some(if s[0] == '-' then -v else v)
      else None
  }

  /** The id value of a row: the cell of that column, or `""` when the column is absent. */
  function IdValue(cols: seq<string>, row: seq<Cell>, name: string): Cell
    requires |row| == |cols|
  {
    if name in cols then row[FirstIndex(cols, name)] else Str("")
  }

  /**
   * `melt` for one prefecture column followed by `dropna`: one long row per
   * table row whose cell in that column is numeric, in row order.
   */
  function MeltColumn(cols: seq<string>, rows: seq<seq<Cell>>, p: string): (r: seq<LongRow>)
    requires p in cols
    requires forall i :: 0 <= i < |rows| ==> |rows[i]| == |cols|
    ensures |r| <= |rows|
  {
    if rows == [] then []
    else
      var row := rows[0];
      var rest := MeltColumn(cols, rows[1..], p);
      match ToNumeric(row[FirstIndex(cols, p)])
      case None => rest
      case Some(v) =>
        [LongRow(IdValue(cols, row, "year"), IdValue(cols, row, "timing"), IdValue(cols, row, DateColumn), p, v)] + rest
  }

  /** `melt` over the prefecture columns: column by column, as pandas stacks them. */
  function Melt(cols: seq<string>, rows: seq<seq<Cell>>, prefs: seq<string>): seq<LongRow>
    requires forall p :: p in prefs ==> p in cols
    requires forall i :: 0 <= i < |rows| ==> |rows[i]| == |cols|
  {
    if prefs == [] then [] else MeltColumn(cols, rows, prefs[0]) + Melt(cols, rows, prefs[1..])
  }

  /**
   * `load_tenpo2511_as_long_df` after the file has been read: rename the first
   * two columns, pick the id and prefecture columns, melt and keep numeric
   * counts. Column labels are distinct after renaming (a table with repeated
   * labels is outside this model).
   */
  function ReshapeToLong(cols: seq<string>, rows: seq<seq<Cell>>): Reshaped
    requires Distinct(RenameColumns(cols))
    requires forall i :: 0 <= i < |rows| ==> |rows[i]| == |cols|
  {
    var named := RenameColumns(cols);
    if IdColumns(named) == [] then HeaderError
    else LongTable(Melt(named, rows, PrefColumns(named)))
  }

  /**
   * The reshape raises exactly when none of `year`, `timing`, `集計日` is a
   * column after renaming, which can only happen when the table has fewer
   * than two columns.
   */
  lemma {:induction false} ReshapeErrorIff(cols: seq<string>, rows: seq<seq<Cell>>)
    requires Distinct(RenameColumns(cols))
    requires forall i :: 0 <= i < |rows| ==> |rows[i]| == |cols|
    ensures ReshapeToLong(cols, rows).HeaderError? <==>
      forall c :: c in RenameColumns(cols) ==> c != "year" && c != "timing" && c != DateColumn
    ensures ReshapeToLong(cols, rows).HeaderError? ==> |cols| < 2
  {
    var named := RenameColumns(cols);
    if |cols| >= 2 {
      assert "timing" in named by { assert named[1] == "timing"; }
      assert "timing" in IdColumns(named);
    }
    if IdColumns(named) != [] {
      var c := IdColumns(named)[0];
      assert c in IdColumns(named);
    }
  }

  /** Every long row of one column comes from a numeric cell of a table row, and vice versa. */
  lemma {:induction false} MeltColumnMembers(cols: seq<string>, rows: seq<seq<Cell>>, p: string, lr: LongRow)
    requires p in cols
    requires forall i :: 0 <= i < |rows| ==> |rows[i]| == |cols|
    ensures lr in MeltColumn(cols, rows, p) <==>
      exists i :: 0 <= i < |rows| && ToNumeric(rows[i][FirstIndex(cols, p)]) == Some(lr.storeCount)
        && lr == LongRow(IdValue(cols, rows[i], "year"), IdValue(cols, rows[i], "timing"),
                         IdValue(cols, rows[i], DateColumn), p, lr.storeCount)
  {
    if rows != [] {
      MeltColumnMembers(cols, rows[1..], p, lr);
      if lr in MeltColumn(cols, rows[1..], p) {
        var i :| 0 <= i < |rows[1..]| && ToNumeric(rows[1..][i][FirstIndex(cols, p)]) == Some(lr.storeCount)
          && lr == LongRow(IdValue(cols, rows[1..][i], "year"), IdValue(cols, rows[1..][i], "timing"),
                           IdValue(cols, rows[1..][i], DateColumn), p, lr.storeCount);
        assert rows[1..][i] == rows[i + 1];
      }
      if exists i :: 0 <= i < |rows| && ToNumeric(rows[i][FirstIndex(cols, p)]) == Some(lr.storeCount)
           && lr == LongRow(IdValue(cols, rows[i], "year"), IdValue(cols, rows[i], "timing"),
                            IdValue(cols, rows[i], DateColumn), p, lr.storeCount) {
        var i :| 0 <= i < |rows| && ToNumeric(rows[i][FirstIndex(cols, p)]) == Some(lr.storeCount)
          && lr == LongRow(IdValue(cols, rows[i], "year"), IdValue(cols, rows[i], "timing"),
                           IdValue(cols, rows[i], DateColumn), p, lr.storeCount);
        if i > 0 {
          assert rows[i] == rows[1..][i - 1];
        }
      }
    }
  }

  /** Melting a column of stacked tables stacks the melted rows: the melt goes row by row. */
  lemma {:induction false} MeltColumnAppend(cols: seq<string>, a: seq<seq<Cell>>, b: seq<seq<Cell>>, p: string)
    requires p in cols
    requires forall i :: 0 <= i < |a| ==> |a[i]| == |cols|
    requires forall i :: 0 <= i < |b| ==> |b[i]| == |cols|
    ensures MeltColumn(cols, a + b, p) == MeltColumn(cols, a, p) + MeltColumn(cols, b, p)
  {
    if a == [] {
      assert a + b == b;
    } else {
      assert (a + b)[0] == a[0] && (a + b)[1..] == a[1..] + b;
      MeltColumnAppend(cols, a[1..], b, p);
    }
  }

  /** One row melts to one long row when its cell in column `p` is numeric, else to none. */
  lemma MeltColumnRow(cols: seq<string>, row: seq<Cell>, p: string)
    requires p in cols && |row| == |cols|
    ensures MeltColumn(cols, [row], p) ==
      match ToNumeric(row[FirstIndex(cols, p)])
      case None => []
      case Some(v) => [LongRow(IdValue(cols, row, "year"), IdValue(cols, row, "timing"), IdValue(cols, row, DateColumn), p, v)]
  {
    assert [row][1..] == [];
  }

  /** The indices of the rows whose cell in column `p` is numeric. */
  ghost function NumericRows(cols: seq<string>, rows: seq<seq<Cell>>, p: string): set<int>
    requires p in cols
    requires forall i :: 0 <= i < |rows| ==> |rows[i]| == |cols|
  {
    set i | 0 <= i < |rows| && ToNumeric(rows[i][FirstIndex(cols, p)]).Some?
  }

  /** A column melts to exactly as many long rows as it has numeric cells. */
  lemma {:induction false} MeltColumnCount(cols: seq<string>, rows: seq<seq<Cell>>, p: string)
    requires p in cols
    requires forall i :: 0 <= i < |rows| ==> |rows[i]| == |cols|
    ensures |MeltColumn(cols, rows, p)| == |NumericRows(cols, rows, p)|
  {
    if rows != [] {
      var front, last := rows[..|rows| - 1], rows[|rows| - 1];
      assert rows == front + [last];
      MeltColumnCount(cols, front, p);
      MeltColumnAppend(cols, front, [last], p);
      MeltColumnRow(cols, last, p);
      NumericRowsSnoc(cols, front, last, p);
    }
  }

  lemma NumericRowsSnoc(cols: seq<string>, front: seq<seq<Cell>>, last: seq<Cell>, p: string)
    requires p in cols && |last| == |cols|
    requires forall i :: 0 <= i < |front| ==> |front[i]| == |cols|
    ensures |NumericRows(cols, front + [last], p)| ==
      |NumericRows(cols, front, p)| + (if ToNumeric(last[FirstIndex(cols, p)]).Some? then 1 else 0)
  {
    var rows, k := front + [last], |front|;
    var before := NumericRows(cols, front, p);
    var added: set<int> := if ToNumeric(last[FirstIndex(cols, p)]).Some? then {k} else {};
    assert NumericRows(cols, rows, p) == before + added by {
      forall i | 0 <= i < k
        ensures rows[i] == front[i]
      {
      }
    }
    assert k !in before;
  }

  /** The long table holds rows only for prefecture columns, in the order of those columns. */
  lemma {:induction false} MeltPrefectures(cols: seq<string>, rows: seq<seq<Cell>>, prefs: seq<string>)
    requires forall p :: p in prefs ==> p in cols
    requires forall i :: 0 <= i < |rows| ==> |rows[i]| == |cols|
    ensures forall lr :: lr in Melt(cols, rows, prefs) ==> lr.prefecture in prefs
  {
    if prefs != [] {
      MeltPrefectures(cols, rows, prefs[1..]);
      forall lr | lr in MeltColumn(cols, rows, prefs[0])
        ensures lr.prefecture == prefs[0]
      {
        MeltColumnMembers(cols, rows, prefs[0], lr);
      }
    }
  }

  /** A long row comes from the melt exactly when its prefecture is one of the columns melted and that column yields it. */
  lemma {:induction false} MeltMembers(cols: seq<string>, rows: seq<seq<Cell>>, prefs: seq<string>, lr: LongRow)
    requires forall p :: p in prefs ==> p in cols
    requires forall i :: 0 <= i < |rows| ==> |rows[i]| == |cols|
    ensures lr in Melt(cols, rows, prefs) <==> lr.prefecture in prefs && lr in MeltColumn(cols, rows, lr.prefecture)
  {
    if prefs != [] {
      MeltMembers(cols, rows, prefs[1..], lr);
      MeltColumnMembers(cols, rows, prefs[0], lr);
    }
  }

  /**
   * The rows of the reshaped table: one per table row and prefecture column
   * (any column but `year`, `timing`, `集計日` and `合計`) whose cell is
   * numeric, carrying that row's id values and the number.
   */
  lemma ReshapeToLongRows(cols: seq<string>, rows: seq<seq<Cell>>, lr: LongRow)
    requires Distinct(RenameColumns(cols))
    requires forall i :: 0 <= i < |rows| ==> |rows[i]| == |cols|
    requires ReshapeToLong(cols, rows).LongTable?
    ensures var named := RenameColumns(cols);
      lr in ReshapeToLong(cols, rows).rows <==>
        && lr.prefecture in named
        && lr.prefecture != "year" && lr.prefecture != "timing"
        && lr.prefecture != DateColumn && lr.prefecture != TotalColumn
        && exists i :: 0 <= i < |rows| && ToNumeric(rows[i][FirstIndex(named, lr.prefecture)]) == Some(lr.storeCount)
             && lr == LongRow(IdValue(named, rows[i], "year"), IdValue(named, rows[i], "timing"),
                              IdValue(named, rows[i], DateColumn), lr.prefecture, lr.storeCount)
  {
    var named := RenameColumns(cols);
    PrefColumnsExclude(named);
    MeltMembers(named, rows, PrefColumns(named), lr);
    if lr.prefecture in named {
      MeltColumnMembers(named, rows, lr.prefecture, lr);
    }
  }

  /** `pd.to_numeric` reads back the decimal rendering of an integer. */
  lemma ToNumericRendered(i: int)
    ensures ToNumeric(Str(IntToString(i))) == Some(i as real)
  {
    var n: nat := if i < 0 then -i else i;
    var ds := NatToString(n);
    NatToStringAscii(n);
    NatToStringRoundTrip(n);
    if i < 0 {
      ToNumericSigned("-" + ds, ds);
    } else {
      assert '0' <= ds[0] <= '9';
      ToNumericUnsigned(ds);
    }
  }

  /** `pd.to_numeric` of a run of ASCII digits. */
  lemma ToNumericUnsigned(ds: string)
    requires |ds| > 0 && forall k :: 0 <= k < |ds| ==> '0' <= ds[k] <= '9'
    ensures AllDecimal(ds) && ToNumeric(Str(ds)) == Some(DigitsValue(ds) as real)
  {
    assert ds[0] != '-' && ds[0] != '+';
  }

  /** `pd.to_numeric` of `-` followed by a run of ASCII digits. */
  lemma ToNumericSigned(s: string, ds: string)
    requires s == "-" + ds
    requires |ds| > 0 && forall k :: 0 <= k < |ds| ==> '0' <= ds[k] <= '9'
    ensures AllDecimal(ds) && ToNumeric(Str(s)) == Some(-(DigitsValue(ds) as real))
  {
    assert s[1..] == ds;
  }

  /** No field of the row, as rendered, holds a line break. */
  predicate NoLineBreak(r: LongRow, showNum: real -> string)
  {
    && '\n' !in CellText(r.year, showNum) && '\n' !in CellText(r.timing, showNum)
    && '\n' !in CellText(r.date, showNum) && '\n' !in r.prefecture
  }

  /** The sentence of a row is one line when its fields are. */
  lemma TenpoLineNoBreak(r: LongRow, showNum: real -> string)
    requires NoLineBreak(r, showNum)
    ensures '\n' !in TenpoLine(r, showNum)
    ensures CountChar(TenpoLine(r, showNum), '\n') == 0
  {
    var n: nat := if Trunc(r.storeCount) < 0 then -Trunc(r.storeCount) else Trunc(r.storeCount);
    NatToStringAscii(n);
    var count := IntToString(Trunc(r.storeCount));
    assert '\n' !in count by {
      if Trunc(r.storeCount) < 0 {
        assert count == "-" + NatToString(n);
      }
    }
    CountCharAbsent(TenpoLine(r, showNum), '\n');
  }

  lemma {:induction false} CountCharAbsent(s: string, c: char)
    requires c !in s
    ensures CountChar(s, c) == 0
  {
    if s != [] {
      assert s[0] != c;
      assert c !in s[1..];
      CountCharAbsent(s[1..], c);
    }
  }

  /** `str()` of a cell inside an f-string; `showNum` stands for numpy's rendering of a number. */
  function CellText(c: Cell, showNum: real -> string): string
  {
    match c
    case Num(v) => showNum(v)
    case Str(s) => s
    case NA => "nan"
  }

  /** The sentence `tenpo_long_df_to_docs` writes for one long row. */
  function TenpoLine(r: LongRow, showNum: real -> string): string
  {
    "スーパー店舗数。" + CellText(r.year, showNum) + " " + CellText(r.timing, showNum)
      + "（集計日 " + CellText(r.date, showNum) + "）"
      + r.prefecture + "の店舗数は" + IntToString(Trunc(r.storeCount)) + "。"
  }

  /** `"\n".join(lines)`. */
  function JoinLines(lines: seq<string>): string
  {
    if lines == [] then "" else if |lines| == 1 then lines[0] else lines[0] + "\n" + JoinLines(lines[1..])
  }

  function CountChar(s: string, c: char): nat
  {
    if s == [] then 0 else (if s[0] == c then 1 else 0) + CountChar(s[1..], c)
  }

  lemma {:induction false} CountCharAppend(a: string, b: string, c: char)
    ensures CountChar(a + b, c) == CountChar(a, c) + CountChar(b, c)
  {
    if a == [] {
      assert a + b == b;
    } else {
      assert (a + b)[1..] == a[1..] + b;
      CountCharAppend(a[1..], b, c);
    }
  }

  /** Joining `n` lines that hold no line break yields exactly `n - 1` line breaks. */
  lemma {:induction false} JoinLinesCount(lines: seq<string>)
    requires lines != []
    requires forall i :: 0 <= i < |lines| ==> CountChar(lines[i], '\n') == 0
    ensures CountChar(JoinLines(lines), '\n') == |lines| - 1
  {
    if |lines| > 1 {
      JoinLinesCount(lines[1..]);
      CountCharAppend(lines[0], "\n", '\n');
      CountCharAppend(lines[0] + "\n", JoinLines(lines[1..]), '\n');
    }
  }

  /** The sentences for a run of long rows: exactly one per row, in order. */
  function TenpoLines(part: seq<LongRow>, showNum: real -> string): (lines: seq<string>)
  {
    seq(|part|, j requires 0 <= j < |part| => TenpoLine(part[j], showNum))
  }

  /** The text of one store-count document: its sentences, one per row, separated by line breaks. */
  function TenpoPage(part: seq<LongRow>, showNum: real -> string): string
  {
    JoinLines(TenpoLines(part, showNum))
  }

  /** The inner loop of `tenpo_long_df_to_docs` and the join: the text of one document. */
  method PartPage(part: seq<LongRow>, showNum: real -> string) returns (page: string)
    ensures page == TenpoPage(part, showNum)
  {
    ghost var all := TenpoLines(part, showNum);
    var lines: seq<string>;
    lines := [];
    for j := 0 to |part|
      invariant lines == all[..j]
    {
      lines := lines + [TenpoLine(part[j], showNum)];
      PrefixGrows(all, j, j + 1);
    }
    assert all[..|part|] == all;
    page := JoinLines(lines);
  }

  /** The document's text is the page of the long rows it covers. */
  predicate HasTenpoPage(doc: Document, longRows: seq<LongRow>, showNum: real -> string)
  {
    1 <= doc.rowFrom <= doc.rowTo <= |longRows|
    && doc.pageContent == TenpoPage(longRows[doc.rowFrom - 1..doc.rowTo], showNum)
  }

  /** One document of `tenpo_long_df_to_docs`: rows `start + 1` through `end`. */
  method RangeDoc(longRows: seq<LongRow>, sourceName: string, start: nat, end: nat, showNum: real -> string)
    returns (doc: Document)
    requires start < end <= |longRows|
    ensures doc.source == sourceName && doc.rowFrom == start + 1 && doc.rowTo == end
    ensures HasTenpoPage(doc, longRows, showNum)
  {
    var part := longRows[start..end];
    var page := PartPage(part, showNum);
    doc := Document(page, sourceName, start + 1, end);
  }

  /**
   * `tenpo_long_df_to_docs(long_df, source_name, group_rows)`: the same row
   * ranges as the generic grouping, and one sentence per long row.
   */
  method TenpoLongDfToDocs(longRows: seq<LongRow>, sourceName: string, groupRows: nat, showNum: real -> string)
    returns (docs: seq<Document>)
    requires groupRows > 0
    ensures HasRowRanges(docs, |longRows|, groupRows)
    ensures forall k :: 0 <= k < |docs| ==> docs[k].source == sourceName && HasTenpoPage(docs[k], longRows, showNum)
  {
    docs := [];
    var total := |longRows|;
    var start := 0;
    while start < total
      invariant start == |docs| * groupRows
      invariant |docs| > 0 ==> start < total + groupRows
      invariant forall k :: 0 <= k < |docs| ==> IsRange(docs[k], k, total, groupRows)
      invariant forall k :: 0 <= k < |docs| ==> docs[k].source == sourceName && HasTenpoPage(docs[k], longRows, showNum)
    {
      var end := Min(start + groupRows, total);
      var doc := RangeDoc(longRows, sourceName, start, end, showNum);
      ghost var n := |docs|;
      assert IsRange(doc, n, total, groupRows);
      docs := docs + [doc];
      MulSucc(n, groupRows);
      start := start + groupRows;
    }
    if |docs| > 0 {
      MulSucc(|docs| - 1, groupRows);
    }
    CeilDivUnique(total, groupRows, |docs|);
  }

  /**
   * Each store-count document has one line per long row it covers: when no
   * field holds a line break, its text has one line break fewer than rows.
   */
  lemma OneLinePerRow(part: seq<LongRow>, showNum: real -> string)
    requires part != []
    requires forall j :: 0 <= j < |part| ==> NoLineBreak(part[j], showNum)
    ensures |TenpoLines(part, showNum)| == |part|
    ensures CountChar(TenpoPage(part, showNum), '\n') == |part| - 1
  {
    var lines := TenpoLines(part, showNum);
    forall j | 0 <= j < |lines|
      ensures CountChar(lines[j], '\n') == 0
    {
      TenpoLineNoBreak(part[j], showNum);
    }
    JoinLinesCount(lines);
  }
}
