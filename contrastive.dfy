/**
 * The converter from a JSON file of love/hate contrastive pairs to the `text1,text2,label` CSV
 * file the steering training reads. The JSON file is given as its list of pair records and the
 * CSV writer as an object that collects the rows written to it.
 */
module ContrastivePairs {
  import opened Wrappers
  import opened Lists
  import Steering

  /** One element of `contrastive_pairs`; a missing key is `None`. */
  datatype PairRecord = PairRecord(prompt: Option<string>, loveResponse: Option<string>, hateResponse: Option<string>)

  /** One CSV row: the header, or two texts and their similarity label. */
  datatype Row = HeaderRow(names: seq<string>) | DataRow(text1: string, text2: string, labelValue: real)

  const Header := HeaderRow(["text1", "text2", "label"])

  /** The label of every pair: love and hate answers are dissimilar. */
  const Dissimilar: real := 0.0

  /** The CSV writer: each `writerow` appends one row to the file. */
  class CsvWriter {
    var rows: seq<Row>

    constructor ()
      ensures rows == []
    {
      rows := [];
    }

    method WriteRow(row: Row)
      modifies this
      ensures rows == old(rows) + [row]
    {
      rows := rows + [row];
    }
  }

  /** `pair.get(key, '')`. */
  function Love(p: PairRecord): string {
    p.loveResponse.GetOr("")
  }

  function Hate(p: PairRecord): string {
    p.hateResponse.GetOr("")
  }

  /** Both responses are present and non-empty. */
  predicate IsComplete(p: PairRecord) {
    Love(p) != "" && Hate(p) != ""
  }

  /** `f"{prompt} {response}"`, with a missing prompt read as the empty string. */
  function WithContext(p: PairRecord, response: string): string {
    p.prompt.GetOr("") + " " + response
  }

  /** The rows one pair contributes: none when incomplete, otherwise the plain row and then the prompted row. */
  function PairRows(p: PairRecord): seq<Row> {
    if IsComplete(p) then
      [DataRow(Love(p), Hate(p), Dissimilar), DataRow(WithContext(p, Love(p)), WithContext(p, Hate(p)), Dissimilar)]
    else []
  }

  /** The data rows of all pairs, in input order. */
  function DataRows(pairs: seq<PairRecord>): seq<Row> {
    if pairs == [] then [] else DataRows(pairs[..|pairs| - 1]) + PairRows(pairs[|pairs| - 1])
  }

  /** The whole file: the header, then the data rows. */
  function Rows(pairs: seq<PairRecord>): seq<Row> {
    [Header] + DataRows(pairs)
  }

  lemma DataRowsSnoc(pairs: seq<PairRecord>, p: PairRecord)
    ensures DataRows(pairs + [p]) == DataRows(pairs) + PairRows(p)
  {
    assert (pairs + [p])[..|pairs|] == pairs;
  }

  /** `convert_contrastive_pairs`: the header first, then each pair's rows through the writer. */
  method ConvertContrastivePairs(pairs: seq<PairRecord>) returns (rows: seq<Row>)
    ensures rows == Rows(pairs)
  {
    var writer := new CsvWriter();
    writer.WriteRow(Header);
    WritePairs(writer, pairs);
    rows := writer.rows;
  }

  /** The loop over the pairs: each complete pair writes its plain row and then its prompted row. */
  method WritePairs(writer: CsvWriter, pairs: seq<PairRecord>)
    modifies writer
    ensures writer.rows == old(writer.rows) + DataRows(pairs)
  {
    ghost var rows0 := writer.rows;
    for i := 0 to |pairs|
      invariant writer.rows == rows0 + DataRows(pairs[..i])
    {
      var pair := pairs[i];
      var prompt := pair.prompt.GetOr("");
      var loveResponse := pair.loveResponse.GetOr("");
      var hateResponse := pair.hateResponse.GetOr("");
      DataRowsSnoc(pairs[..i], pair);
      assert pairs[..i + 1] == pairs[..i] + [pair];
      if loveResponse != "" && hateResponse != "" {
        writer.WriteRow(DataRow(loveResponse, hateResponse, Dissimilar));
        var loveWithContext := prompt + " " + loveResponse;
        var hateWithContext := prompt + " " + hateResponse;
        writer.WriteRow(DataRow(loveWithContext, hateWithContext, Dissimilar));
      }
    }
    assert pairs[..|pairs|] == pairs;
  }

  /** Incomplete pairs emit nothing: the rows are those of the complete pairs alone. */
  lemma {:induction false} DataRowsComplete(pairs: seq<PairRecord>)
    ensures DataRows(pairs) == DataRows(Filter(pairs, IsComplete))
  {
    if pairs != [] {
      var init, last := pairs[..|pairs| - 1], pairs[|pairs| - 1];
      DataRowsComplete(init);
      if IsComplete(last) {
        DataRowsSnoc(Filter(init, IsComplete), last);
      }
    }
  }

  /** Every complete pair emits exactly two rows. */
  lemma {:induction false} DataRowsCount(pairs: seq<PairRecord>)
    ensures |DataRows(pairs)| == 2 * |Filter(pairs, IsComplete)|
  {
    if pairs != [] {
      DataRowsCount(pairs[..|pairs| - 1]);
    }
  }

  /** Among complete pairs, rows `2j` and `2j + 1` are the plain and prompted rows of pair `j`. */
  lemma {:induction false} DataRowsAt(pairs: seq<PairRecord>, j: nat)
    requires j < |pairs|
    requires forall i :: 0 <= i < |pairs| ==> IsComplete(pairs[i])
    ensures |DataRows(pairs)| == 2 * |pairs|
    ensures DataRows(pairs)[2 * j..2 * j + 2] == PairRows(pairs[j])
  {
    var init := pairs[..|pairs| - 1];
    if j < |init| {
      DataRowsAt(init, j);
    } else {
      DataRowsCount(init);
      FilterAll(init, IsComplete);
    }
  }

  /** Every data row is labelled 0.0, and the only header is the first row. */
  lemma {:induction false} RowsLabels(pairs: seq<PairRecord>)
    ensures Rows(pairs)[0] == Header
    ensures forall i :: 1 <= i < |Rows(pairs)| ==> Rows(pairs)[i].DataRow? && Rows(pairs)[i].labelValue == Dissimilar
  {
    DataRowsLabels(pairs);
  }

  lemma {:induction false} DataRowsLabels(pairs: seq<PairRecord>)
    ensures forall i :: 0 <= i < |DataRows(pairs)| ==> DataRows(pairs)[i].DataRow? && DataRows(pairs)[i].labelValue == Dissimilar
  {
    if pairs != [] {
      DataRowsLabels(pairs[..|pairs| - 1]);
    }
  }

  /** The total the converter reports: two rows per input pair. */
  function ReportedTotal(pairs: seq<PairRecord>): nat {
    |pairs| * 2
  }

  /** The reported total is the number of data rows exactly when no pair was skipped. */
  lemma ReportedTotalExact(pairs: seq<PairRecord>)
    ensures ReportedTotal(pairs) == |Rows(pairs)| - 1 <==> forall i :: 0 <= i < |pairs| ==> IsComplete(pairs[i])
    ensures |Rows(pairs)| - 1 <= ReportedTotal(pairs)
  {
    DataRowsCount(pairs);
    if forall i :: 0 <= i < |pairs| ==> IsComplete(pairs[i]) {
      FilterAll(pairs, IsComplete);
    } else {
      var k :| 0 <= k < |pairs| && !IsComplete(pairs[k]);
      FilterDrops(pairs, IsComplete, k);
    }
  }

  /** The data rows of a file as the steering loader reads them; the header is not data. */
  function Labeled(rows: seq<Row>): (labeled: seq<Steering.LabeledRow>)
    ensures |labeled| <= |rows|
  {
    if rows == [] then []
    else
      var init := Labeled(rows[..|rows| - 1]);
      match rows[|rows| - 1]
      case DataRow(text1, text2, labelValue) => init + [Steering.LabeledRow(text1, text2, labelValue)]
      case HeaderRow(_) => init
  }

  lemma {:induction false} LabeledDissimilar(rows: seq<Row>)
    requires forall i :: 0 <= i < |rows| && rows[i].DataRow? ==> rows[i].labelValue == Dissimilar
    ensures forall i :: 0 <= i < |Labeled(rows)| ==> Labeled(rows)[i].labelValue == Dissimilar
  {
    if rows != [] {
      LabeledDissimilar(rows[..|rows| - 1]);
    }
  }

  /** The file, read back by the steering loader, yields no positive and no negative example texts. */
  lemma LoadedPairsEmpty(pairs: seq<PairRecord>)
    ensures Steering.LoadLabeled(Labeled(Rows(pairs))).positive == []
    ensures Steering.LoadLabeled(Labeled(Rows(pairs))).negative == []
  {
    RowsLabels(pairs);
    LabeledDissimilar(Rows(pairs));
    Steering.LoadLabeledNoPositives(Labeled(Rows(pairs)));
  }
}
