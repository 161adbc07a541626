/**
 * Row-range grouping of a table into documents (`csv_df_to_grouped_docs` in
 * `ijunavi/rag_service.py`): `total` rows become documents of at most
 * `group_rows` rows each, tagged with their 1-based first and last row.
 */
module Chunking {
  import opened Common
  import opened Text

  /** A `langchain` document: its text and the `source`/`row_from`/`row_to` metadata. */
  datatype Document = Document(pageContent: string, source: string, rowFrom: int, rowTo: int)

  /** `ceil(n / d)`. */
  function CeilDiv(n: nat, d: nat): (q: nat)
    requires d > 0
    ensures q * d >= n
    ensures q > 0 ==> (q - 1) * d < n
  {
    (n + d - 1) / d
  }

  lemma MulLe(a: int, b: int, d: nat)
    requires a <= b
    ensures a * d <= b * d
  {
  }

  lemma MulSucc(k: int, d: int)
    ensures (k + 1) * d == k * d + d
  {
  }

  /** The two bounds of `CeilDiv` single it out. */
  lemma CeilDivUnique(n: nat, d: nat, q: nat)
    requires d > 0
    requires q * d >= n
    requires q > 0 ==> (q - 1) * d < n
    ensures q == CeilDiv(n, d)
  {
    var c := CeilDiv(n, d);
    if q < c {
      MulLe(q, c - 1, d);
      assert false;
    } else if q > c {
      MulLe(c, q - 1, d);
      assert false;
    }
  }

  /**
   * The documents follow `for start in range(0, total, g)`: document `k`
   * holds rows `k*g + 1` through `min(k*g + g, total)`.
   */
  ghost predicate HasRowRanges(docs: seq<Document>, total: nat, g: nat)
    requires g > 0
  {
    && |docs| == CeilDiv(total, g)
    && forall k :: 0 <= k < |docs| ==> IsRange(docs[k], k, total, g)
  }

  /** Document `k` covers rows `k*g + 1` through `min(k*g + g, total)`. */
  ghost predicate IsRange(doc: Document, k: nat, total: nat, g: nat)
  {
    doc.rowFrom == k * g + 1 && doc.rowTo == Min(k * g + g, total)
  }

  /** Range `k` of `n = ceil(total / g)` ranges: full unless it is the last one, never empty. */
  lemma RangeSize(total: nat, g: nat, n: nat, k: nat)
    requires g > 0 && n == CeilDiv(total, g) && k < n
    ensures k * g < total
    ensures k < n - 1 ==> k * g + g <= total
    ensures k == n - 1 ==> total <= k * g + g
  {
    MulLe(k, n - 1, g);
    MulSucc(n - 1, g);
    if k < n - 1 {
      MulLe(k + 1, n - 1, g);
      MulSucc(k, g);
    }
  }

  /**
   * Such ranges tile the table: none for an empty table, the first starts at
   * row 1, the last ends at row `total`, each starts right after the previous
   * one, each holds between 1 and `g` rows, and all but the last hold exactly `g`.
   */
  lemma RowRangesTile(docs: seq<Document>, total: nat, g: nat)
    requires g > 0 && HasRowRanges(docs, total, g)
    ensures total == 0 <==> docs == []
    ensures docs != [] ==> docs[0].rowFrom == 1 && docs[|docs| - 1].rowTo == total
    ensures forall k :: 0 <= k < |docs| - 1 ==> docs[k + 1].rowFrom == docs[k].rowTo + 1
    ensures forall k :: 0 <= k < |docs| ==> 1 <= docs[k].rowTo - docs[k].rowFrom + 1 <= g
    ensures forall k :: 0 <= k < |docs| - 1 ==> docs[k].rowTo - docs[k].rowFrom + 1 == g
  {
    var n := |docs|;
    if n > 0 {
      RangeSize(total, g, n, n - 1);
      assert IsRange(docs[0], 0, total, g) && IsRange(docs[n - 1], n - 1, total, g);
    }
    forall k | 0 <= k < n
      ensures 1 <= docs[k].rowTo - docs[k].rowFrom + 1 <= g
      ensures k < n - 1 ==> docs[k].rowTo - docs[k].rowFrom + 1 == g
    {
      assert IsRange(docs[k], k, total, g);
      RangeSize(total, g, n, k);
    }
    forall k | 0 <= k < n - 1
      ensures docs[k + 1].rowFrom == docs[k].rowTo + 1
    {
      assert IsRange(docs[k], k, total, g) && IsRange(docs[k + 1], k + 1, total, g);
      RangeSize(total, g, n, k);
      MulSucc(k, g);
    }
  }

  /** The text `csv_df_to_grouped_docs` gives one document. */
  function CsvPageContent(source: string, rowFrom: int, rowTo: int, json: string): string
  {
    "ファイル: " + source + "\n行: " + IntToString(rowFrom) + "-" + IntToString(rowTo) + "\n内容: " + json
  }

  /** The document's text is the grouping's text for the rows it covers. */
  predicate HasCsvPage<R>(doc: Document, rows: seq<R>, toJson: seq<R> -> string)
  {
    && 1 <= doc.rowFrom <= doc.rowTo <= |rows|
    && doc.pageContent == CsvPageContent(doc.source, doc.rowFrom, doc.rowTo, toJson(rows[doc.rowFrom - 1..doc.rowTo]))
  }

  /** One document of `csv_df_to_grouped_docs`: rows `start + 1` through `end`. */
  method CsvRangeDoc<R>(rows: seq<R>, sourceName: string, start: nat, end: nat, toJson: seq<R> -> string)
    returns (doc: Document)
    requires start < end <= |rows|
    ensures doc.source == sourceName && doc.rowFrom == start + 1 && doc.rowTo == end
    ensures HasCsvPage(doc, rows, toJson)
  {
    var part := rows[start..end];
    doc := Document(CsvPageContent(sourceName, start + 1, end, toJson(part)), sourceName, start + 1, end);
  }

  /**
   * `csv_df_to_grouped_docs(df, source_name, group_rows)`. The table is its
   * sequence of rows; `toJson` stands for `DataFrame.to_json(orient="records")`.
   */
  method CsvDfToGroupedDocs<R>(rows: seq<R>, sourceName: string, groupRows: nat, toJson: seq<R> -> string)
    returns (docs: seq<Document>)
    requires groupRows > 0
    ensures HasRowRanges(docs, |rows|, groupRows)
    ensures forall k :: 0 <= k < |docs| ==> docs[k].source == sourceName && HasCsvPage(docs[k], rows, toJson)
  {
    docs := [];
    var total := |rows|;
    var start := 0;
    while start < total
      invariant start == |docs| * groupRows
      invariant |docs| > 0 ==> start < total + groupRows
      invariant forall k :: 0 <= k < |docs| ==> IsRange(docs[k], k, total, groupRows)
      invariant forall k :: 0 <= k < |docs| ==> docs[k].source == sourceName && HasCsvPage(docs[k], rows, toJson)
    {
      var end := Min(start + groupRows, total);
      var doc := CsvRangeDoc(rows, sourceName, start, end, toJson);
      ghost var n := |docs|;
      assert IsRange(doc, n, total, groupRows);
      docs := docs + [doc];
      MulSucc(n, groupRows);
      start := start + groupRows;
    }
    if |docs| > 0 {
      MulSucc(|docs| - 1, groupRows);
    }
    CeilDivUnique(total, groupRows, |docs|);
  }
}
