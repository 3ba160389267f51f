/**
 The editions deduplication script: the sheet editions_pairwise_comparison_fl,
 read with 28 columns, holds the ids in columns 0 and 12, the reviewer's 'Y' in
 column 26 and the one-based preferred id in column 27. Its loop is the one of
 module Preferred.
 */
module Editions {
  import opened Sheet
  import opened Groups
  import opened Preferred

  const Columns: Layout := Layout(28, 0, 12, 27, 26)

  /**
   The judgments of the editions sheet: (column 0, column 12, column 27 - 1)
   for every row marked 'Y' in column 26; TypeError when such a row has no
   number in column 27.
   */
  function Judgments(rows: seq<Row>): (r: Result<seq<Judgment>>)
    requires Shaped(rows, 28)
    ensures r.Err? ==> r.failure == TypeError
    ensures r.Ok? ==> |r.value| <= |rows|
    ensures r.Err? <==> exists row: Row :: row in rows && row[26] == Yes && !row[27].Num?
    ensures r.Ok? ==> forall j :: j in r.value <==>
      exists row: Row :: row in rows && row[26] == Yes && row[27].Num? && j == Judgment(row[0], row[12], row[27].n - 1)
  {
    Preferred.Judgments(rows, Columns)
  }

  /** The judgments of two stretches of the sheet come one after the other, in sheet order. */
  lemma JudgmentsAppend(a: seq<Row>, b: seq<Row>)
    requires Shaped(a, 28) && Shaped(b, 28)
    ensures Judgments(a + b)
      == if Judgments(a).Err? || Judgments(b).Err? then Err(TypeError) else Ok(Judgments(a).value + Judgments(b).value)
  {
    Preferred.JudgmentsAppend(a, b, Columns);
  }

  /**
   One confirmed row: a 1 in column 27 keeps the column-0 id, a 2 keeps the
   column-12 id, and any other number is out of range for ids[preferred].
   */
  lemma SingleRow(row: Row, n: int)
    requires |row| == 28 && row[26] == Yes && row[27] == Num(n)
    ensures Judgments([row]) == Ok([Judgment(row[0], row[12], n - 1)])
    ensures AllIndexable(Judgments([row]).value) <==> n == 1 || n == 2
    ensures n == 1 ==> Fold(Judgments([row]).value).groups == map[row[0] := {row[12]}]
    ensures n == 2 ==> Fold(Judgments([row]).value).groups == map[row[12] := {row[0]}]
  {
    var j := Judgment(row[0], row[12], n - 1);
    assert [row][1..] == [];
    assert Collect([row][1..], Columns) == Ok([]);
    assert Read(row, Columns) == j;
    assert Preferred.Flagged(row, Columns) && row[Columns.preference].Num?;
    assert Collect([row], Columns) == Ok([j] + []);
    assert [j] + [] == [j];
    assert AllIndexable([j]) <==> j.Indexable() by {
      assert j in [j];
    }
    if n == 1 || n == 2 {
      FoldSnoc([], j);
      assert [] + [j] == [j];
    }
  }

  /**
   A1~A2 and A2~A3 keeping their first ids, then B1~B2 keeping its second:
   A1 is canonical for A2 and A3, and B2 for B1.
   */
  lemma Scenario()
    ensures var a1, a2, a3, b1, b2 := Text("A1"), Text("A2"), Text("A3"), Text("B1"), Text("B2");
      var g := Fold([Judgment(a1, a2, 0), Judgment(a2, a3, 0), Judgment(b1, b2, 1)]).groups;
      && g == map[a1 := {a2, a3}, b2 := {b1}]
      && forall p: (Id, Id) :: p.0 in g && p.1 in g[p.0] <==> p in {(a1, a2), (a1, a3), (b2, b1)}
  {
    var a1, a2, a3, b1, b2 := Text("A1"), Text("A2"), Text("A3"), Text("B1"), Text("B2");
    var j1, j2, j3 := Judgment(a1, a2, 0), Judgment(a2, a3, 0), Judgment(b1, b2, 1);
    ScenarioFirstTwo();
    FoldSnoc([j1, j2], j3);
    assert [j1, j2] + [j3] == [j1, j2, j3];
    ScenarioThird();
    ScenarioRows();
  }

  /** A1~A2 then A2~A3, both keeping the first id: one group under A1. */
  lemma ScenarioFirstTwo()
    ensures var a1, a2, a3 := Text("A1"), Text("A2"), Text("A3");
      Fold([Judgment(a1, a2, 0), Judgment(a2, a3, 0)]) == State(map[a1 := {a2, a3}], {a1, a2, a3})
  {
    var a1, a2, a3 := Text("A1"), Text("A2"), Text("A3");
    var j1, j2 := Judgment(a1, a2, 0), Judgment(a2, a3, 0);
    FoldSnoc([], j1);
    assert [] + [j1] == [j1];
    assert Fold([j1]) == State(map[a1 := {a2}], {a1, a2});
    FoldSnoc([j1], j2);
    assert [j1] + [j2] == [j1, j2];
    ScenarioSecond();
  }

  /** The rows the flattening of the scenario's final map holds. */
  lemma ScenarioRows()
    ensures var a1, a2, a3, b1, b2 := Text("A1"), Text("A2"), Text("A3"), Text("B1"), Text("B2");
      var g := map[a1 := {a2, a3}, b2 := {b1}];
      forall p: (Id, Id) :: p.0 in g && p.1 in g[p.0] <==> p in {(a1, a2), (a1, a3), (b2, b1)}
  {
  }

  /** B1~B2 keeping B2: B2 is new, so it opens a group holding B1. */
  lemma ScenarioThird()
    ensures var a1, a2, a3, b1, b2 := Text("A1"), Text("A2"), Text("A3"), Text("B1"), Text("B2");
      Step(State(map[a1 := {a2, a3}], {a1, a2, a3}), Judgment(b1, b2, 1)).groups
        == map[a1 := {a2, a3}, b2 := {b1}]
  {
    var a1, a2, a3, b2 := Text("A1"), Text("A2"), Text("A3"), Text("B2");
    assert b2 !in {a1, a2, a3};
  }

  /** A2~A3 after A1~A2: A2 is only a member, so A3 joins A1's group. */
  lemma ScenarioSecond()
    ensures var a1, a2, a3 := Text("A1"), Text("A2"), Text("A3");
      Step(State(map[a1 := {a2}], {a1, a2}), Judgment(a2, a3, 0)) == State(map[a1 := {a2, a3}], {a1, a2, a3})
  {
    var a1, a2, a3 := Text("A1"), Text("A2"), Text("A3");
    var r := Attach(map[a1 := {a2}], a2, a3);
    assert a2 !in map[a1 := {a2}] && a2 in map[a1 := {a2}][a1];
    assert r.Keys == {a1} && r[a1] == {a2, a3};
    assert r == map[a1 := {a2, a3}];
  }
}
