/**
 The works deduplication script: the sheet pairwise_work_comparisons, read
 with 11 columns, holds the ids in columns 0 and 3, the reviewer's 'Y' in
 column 8 and the one-based preferred id in column 10. Its loop is the one of
 module Preferred.
 */
module Works {
  import opened Sheet
  import opened Groups
  import opened Preferred

  const Columns: Layout := Layout(11, 0, 3, 10, 8)

  /**
   The judgments of the works sheet: (column 0, column 3, column 10 - 1) for
   every row marked 'Y' in column 8; TypeError when such a row has no number
   in column 10.
   */
  function Judgments(rows: seq<Row>): (r: Result<seq<Judgment>>)
    requires Shaped(rows, 11)
    ensures r.Err? ==> r.failure == TypeError
    ensures r.Ok? ==> |r.value| <= |rows|
    ensures r.Err? <==> exists row: Row :: row in rows && row[8] == Yes && !row[10].Num?
    ensures r.Ok? ==> forall j :: j in r.value <==>
      exists row: Row :: row in rows && row[8] == Yes && row[10].Num? && j == Judgment(row[0], row[3], row[10].n - 1)
  {
    Preferred.Judgments(rows, Columns)
  }

  /** The judgments of two stretches of the sheet come one after the other, in sheet order. */
  lemma JudgmentsAppend(a: seq<Row>, b: seq<Row>)
    requires Shaped(a, 11) && Shaped(b, 11)
    ensures Judgments(a + b)
      == if Judgments(a).Err? || Judgments(b).Err? then Err(TypeError) else Ok(Judgments(a).value + Judgments(b).value)
  {
    Preferred.JudgmentsAppend(a, b, Columns);
  }

  /**
   One confirmed row: a 1 in column 10 keeps the column-0 id, a 2 keeps the
   column-3 id, and any other number is out of range for ids[preferred].
   */
  lemma SingleRow(row: Row, n: int)
    requires |row| == 11 && row[8] == Yes && row[10] == Num(n)
    ensures Judgments([row]) == Ok([Judgment(row[0], row[3], n - 1)])
    ensures AllIndexable(Judgments([row]).value) <==> n == 1 || n == 2
    ensures n == 1 ==> Fold(Judgments([row]).value).groups == map[row[0] := {row[3]}]
    ensures n == 2 ==> Fold(Judgments([row]).value).groups == map[row[3] := {row[0]}]
  {
    var j := Judgment(row[0], row[3], n - 1);
    assert [row][1..] == [];
    assert Collect([row][1..], Columns) == Ok([]);
    assert Read(row, Columns) == j;
    assert Preferred.Flagged(row, Columns) && row[Columns.preference].Num?;
    assert Collect([row], Columns) == Ok([j] + []);
    assert [j] + [] == [j];
    assert AllIndexable([j]) <==> j.Indexable() by {
      assert j in [j];
    }
    if n == 1 || n == 2 {
      FoldSnoc([], j);
      assert [] + [j] == [j];
    }
  }

  /** An unconfirmed row contributes nothing, whatever its other cells hold. */
  lemma UnconfirmedRowIgnored(rows: seq<Row>, row: Row)
    requires Shaped(rows, 11) && |row| == 11 && row[8] != Yes
    ensures Judgments([row] + rows) == Judgments(rows)
  {
    assert ([row] + rows)[1..] == rows;
  }
}
