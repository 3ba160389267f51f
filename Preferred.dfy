/**
 The editions and works deduplication scripts, which share one algorithm:
 every reviewed judgment names which of its two ids survives (ids[preferred])
 and the other (ids[1 - preferred]) is merged into its group. Modelled as
 written: only the surviving id is looked up, so the merged id may already be
 a key, or a member of another group.
 */
module Preferred {
  import opened Sheet
  import opened Groups

  /** One reviewed row: the two ids and the zero-based index of the one to keep. */
  datatype Judgment = Judgment(first: Id, second: Id, preferred: int)
  {
    /** ids[preferred] and ids[1 - preferred] both exist only for these indices. */
    predicate Indexable()
    {
      0 <= preferred <= 1
    }

    /** ids[preferred], the id that survives. */
    function Canonical(): Id
      requires Indexable()
    {
      if preferred == 0 then first else second
    }

    /** ids[1 - preferred], the id merged into the survivor. */
    function Duplicate(): Id
      requires Indexable()
    {
      if preferred == 0 then second else first
    }
  }

  /**
   The surviving id is ids[preferred] and the merged one ids[1 - preferred],
   for ids = (first, second); together they are the judgment's two ids.
   */
  lemma IndexedIds(j: Judgment)
    requires j.Indexable()
    ensures j.Canonical() == [j.first, j.second][j.preferred]
    ensures j.Duplicate() == [j.first, j.second][1 - j.preferred]
    ensures {j.Canonical(), j.Duplicate()} == {j.first, j.second}
  {
  }

  /**
   Where a sheet keeps what a judgment is made of: the number of columns read
   (max_col), the two id columns, the one-based preference column and the
   column a reviewer marks 'Y'.
   */
  datatype Layout = Layout(width: nat, first: nat, second: nat, preference: nat, flag: nat)
  {
    predicate Valid()
    {
      first < width && second < width && preference < width && flag < width
    }
  }

  /** A row the reviewer confirmed as a duplicate pair. */
  predicate Flagged(row: Row, layout: Layout)
    requires layout.Valid() && |row| == layout.width
  {
    row[layout.flag] == Yes
  }

  /** The judgment of a confirmed row: the preference column counts from 1, the index from 0. */
  function Read(row: Row, layout: Layout): Judgment
    requires layout.Valid() && |row| == layout.width && row[layout.preference].Num?
  {
    Judgment(row[layout.first], row[layout.second], row[layout.preference].n - 1)
  }

  /**
   The list comprehension over the sheet: a judgment per confirmed row, in sheet
   order; subtracting 1 from a preference cell that is not a number raises
   TypeError.
   */
  function Collect(rows: seq<Row>, layout: Layout): (r: Result<seq<Judgment>>)
    requires layout.Valid() && Shaped(rows, layout.width)
    ensures r.Err? ==> r == Err(TypeError)
    ensures r.Ok? ==> |r.value| <= |rows|
  {
    if rows == [] then Ok([])
    else
      var row := rows[0];
      var rest := Collect(rows[1..], layout);
      if !Flagged(row, layout) then rest
      else if !row[layout.preference].Num? then Err(TypeError)
      else if rest.Err? then rest
      else Ok([Read(row, layout)] + rest.value)
  }

  /**
   What the comprehension yields: TypeError exactly when a confirmed row has
   no number in the preference column, otherwise exactly the judgments of the
   confirmed rows, at most one per row.
   */
  lemma {:induction false} CollectSound(rows: seq<Row>, layout: Layout)
    requires layout.Valid() && Shaped(rows, layout.width)
    ensures var r := Collect(rows, layout);
      && (r.Err? <==> exists row: Row :: row in rows && Flagged(row, layout) && !row[layout.preference].Num?)
      && (r.Err? ==> r.failure == TypeError)
      && (r.Ok? ==> |r.value| <= |rows|)
      && (r.Ok? ==> forall j :: j in r.value <==>
            exists row: Row :: row in rows && Flagged(row, layout) && row[layout.preference].Num? && j == Read(row, layout))
  {
    if rows != [] {
      CollectSound(rows[1..], layout);
      assert forall row :: row in rows <==> row == rows[0] || row in rows[1..];
    }
  }

  /** The judgments of a sheet, with what they are made of. */
  function Judgments(rows: seq<Row>, layout: Layout): (r: Result<seq<Judgment>>)
    requires layout.Valid() && Shaped(rows, layout.width)
    ensures r.Err? <==> exists row: Row :: row in rows && Flagged(row, layout) && !row[layout.preference].Num?
    ensures r.Err? ==> r.failure == TypeError
    ensures r.Ok? ==> |r.value| <= |rows|
    ensures r.Ok? ==> forall j :: j in r.value <==>
      exists row: Row :: row in rows && Flagged(row, layout) && row[layout.preference].Num? && j == Read(row, layout)
  {
    CollectSound(rows, layout);
    Collect(rows, layout)
  }

  /**
   The comprehension works row by row, in sheet order: two stretches of the
   sheet give their judgments one after the other, and TypeError when either
   stretch raises it.
   */
  lemma JudgmentsAppend(a: seq<Row>, b: seq<Row>, layout: Layout)
    requires layout.Valid() && Shaped(a, layout.width) && Shaped(b, layout.width)
    ensures Judgments(a + b, layout)
      == if Judgments(a, layout).Err? || Judgments(b, layout).Err? then Err(TypeError)
         else Ok(Judgments(a, layout).value + Judgments(b, layout).value)
  {
    CollectAppend(a, b, layout);
  }

  lemma {:induction false} CollectAppend(a: seq<Row>, b: seq<Row>, layout: Layout)
    requires layout.Valid() && Shaped(a, layout.width) && Shaped(b, layout.width)
    ensures Collect(a + b, layout)
      == if Collect(a, layout).Err? || Collect(b, layout).Err? then Err(TypeError)
         else Ok(Collect(a, layout).value + Collect(b, layout).value)
  {
    if a == [] {
      assert a + b == b;
      CollectSound(b, layout);
      if Collect(b, layout).Ok? {
        assert [] + Collect(b, layout).value == Collect(b, layout).value;
      }
    } else {
      assert (a + b)[0] == a[0];
      assert (a + b)[1..] == a[1..] + b;
      CollectAppend(a[1..], b, layout);
      CollectSound(b, layout);
      CollectSound(a[1..], layout);
      var rest, tail := Collect(a[1..], layout), Collect(b, layout);
      if Flagged(a[0], layout) && a[0][layout.preference].Num? && rest.Ok? && tail.Ok? {
        var j := Read(a[0], layout);
        assert [j] + (rest.value + tail.value) == ([j] + rest.value) + tail.value;
      }
    }
  }

  /** Every judgment can be indexed by its preference. */
  predicate AllIndexable(js: seq<Judgment>)
  {
    forall j :: j in js ==> j.Indexable()
  }

  /** Every id named by some judgment. */
  function IdsOf(js: seq<Judgment>): set<Id>
  {
    (set j | j in js :: j.first) + (set j | j in js :: j.second)
  }

  /** One pass of the loop body for the judgment j. */
  function Step(s: State, j: Judgment): (r: State)
    requires j.Indexable()
    ensures r.seen == s.seen + {j.first, j.second}
    ensures j.Canonical() !in s.seen ==> r.groups == s.groups[j.Canonical() := {j.Duplicate()}]
    ensures j.Canonical() in s.seen ==> r.groups == Attach(s.groups, j.Canonical(), j.Duplicate())
    ensures s.Valid() ==> r.Valid() && Grows(s.groups, r.groups)
    ensures s.Valid() ==> Together(r.groups, j.Canonical(), j.Duplicate())
  {
    var c, d := j.Canonical(), j.Duplicate();
    if c in s.seen then
      State(Attach(s.groups, c, d), s.seen + {j.first, j.second})
    else
      var r := State(s.groups[c := {d}], s.seen + {j.first, j.second});
      assert s.Valid() ==> r.Valid() && Together(r.groups, c, d) by {
        if s.Valid() {
          MembersOfNewKey(s.groups, c, d);
          assert {j.first, j.second} == {c, d};
          assert c in r.groups && c in r.groups[c] + {c} && d in r.groups[c] + {c};
        }
      }
      r
  }

  /** The state after the loop has processed the judgments `js` in order. */
  function Fold(js: seq<Judgment>): State
    requires AllIndexable(js)
  {
    if js == [] then Initial else Step(Fold(js[..|js| - 1]), js[|js| - 1])
  }

  /** Processing one more judgment is one more Step. */
  lemma FoldSnoc(js: seq<Judgment>, j: Judgment)
    requires AllIndexable(js) && j.Indexable()
    ensures AllIndexable(js + [j])
    ensures Fold(js + [j]) == Step(Fold(js), j)
  {
    assert (js + [j])[..|js|] == js;
  }

  /**
   After every judgment, already_entered is exactly the set of ids of the
   judgments processed so far, and exactly the keys and members of the map.
   */
  lemma {:induction false} FoldValid(js: seq<Judgment>)
    requires AllIndexable(js)
    ensures Fold(js).Valid()
    ensures Fold(js).seen == IdsOf(js)
  {
    if js != [] {
      var init := js[..|js| - 1];
      assert js == init + [js[|js| - 1]];
      assert IdsOf(js) == IdsOf(init) + {js[|js| - 1].first, js[|js| - 1].second};
      FoldValid(init);
    }
  }

  /**
   The body of the loop on mapping_dict and already_entered: a surviving id
   seen for the first time opens a group holding the merged id; a seen one
   passes the merged id to its group. A preference other than 0 or 1 makes
   ids[1 - preferred] raise IndexError.
   */
  method ProcessJudgment(groups: Groups, seen: set<Id>, j: Judgment)
    returns (r: Result<State>)
    requires Covers(groups, seen)
    ensures r.Ok? <==> j.Indexable()
    ensures r.Ok? ==> r.value == Step(State(groups, seen), j)
    ensures r.Err? ==> r.failure == IndexError
  {
    var ids := [j.first, j.second];
    var preferred := j.preferred;
    if !(0 <= preferred <= 1) {
      return Err(IndexError);
    }
    var groups' := groups;
    if ids[preferred] in seen {
      if ids[preferred] in groups {
        groups' := groups[ids[preferred] := groups[ids[preferred]] + {ids[1 - preferred]}];
      } else {
        groups' := AddToEachGroupHolding(groups, ids[preferred], ids[1 - preferred]);
      }
    } else {
      groups' := groups[ids[preferred] := {ids[1 - preferred]}];
    }
    var seen' := seen + {ids[0]};
    seen' := seen' + {ids[1]};
    return Ok(State(groups', seen'));
  }

  /** The consolidation loop of the script, judgment by judgment in sheet order. */
  method Consolidate(js: seq<Judgment>) returns (r: Result<State>)
    ensures r.Ok? <==> AllIndexable(js)
    ensures r.Ok? ==> r.value == Fold(js)
    ensures r.Err? ==> r.failure == IndexError
  {
    var s := Initial;
    var i := 0;
    while i < |js|
      invariant 0 <= i <= |js|
      invariant AllIndexable(js[..i]) && s == Fold(js[..i])
    {
      FoldValid(js[..i]);
      var next := ProcessJudgment(s.groups, s.seen, js[i]);
      if next.Err? {
        assert js[i] in js;
        return next;
      }
      FoldSnoc(js[..i], js[i]);
      assert js[..i + 1] == js[..i] + [js[i]];
      s := next.value;
      i := i + 1;
    }
    assert js[..i] == js;
    return Ok(s);
  }

  /**
   The whole script without its database: read the sheet, consolidate, and
   flatten into the rows of the final mapping table.
   */
  method Run(rows: seq<Row>, layout: Layout) returns (r: Result<seq<(Id, Id)>>)
    requires layout.Valid() && Shaped(rows, layout.width)
    ensures Judgments(rows, layout).Err? ==> r == Err(TypeError)
    ensures Judgments(rows, layout).Ok? && !AllIndexable(Judgments(rows, layout).value) ==> r == Err(IndexError)
    ensures Judgments(rows, layout).Ok? && AllIndexable(Judgments(rows, layout).value) ==>
      && r.Ok?
      && (var g := Fold(Judgments(rows, layout).value).groups;
          forall p :: p in r.value <==> p.0 in g && p.1 in g[p.0])
      && Distinct(r.value)
  {
    var js := Judgments(rows, layout);
    if js.Err? {
      return Err(TypeError);
    }
    var s := Consolidate(js.value);
    if s.Err? {
      return Err(IndexError);
    }
    var mapping := Flatten(s.value.groups);
    return Ok(mapping);
  }

  /** Keys are never removed and sets only grow as more judgments are processed. */
  lemma {:induction false} FoldGrows(js: seq<Judgment>, ks: seq<Judgment>)
    requires AllIndexable(js) && AllIndexable(ks)
    ensures AllIndexable(js + ks)
    ensures Grows(Fold(js).groups, Fold(js + ks).groups)
  {
    if ks == [] {
      assert js + ks == js;
    } else {
      var init := ks[..|ks| - 1];
      var last := ks[|ks| - 1];
      assert ks == init + [last];
      assert js + ks == (js + init) + [last];
      FoldGrows(js, init);
      FoldValid(js + init);
      FoldSnoc(js + init, last);
      GrowsTransitive(Fold(js).groups, Fold(js + init).groups, Fold(js + ks).groups);
    }
  }

  /** No judgment is lost: the two ids of every judgment end up in one group. */
  lemma JudgmentJoined(js: seq<Judgment>, i: nat)
    requires AllIndexable(js) && i < |js|
    ensures Together(Fold(js).groups, js[i].first, js[i].second)
  {
    assert js[..i + 1] == js[..i] + [js[i]];
    assert js == js[..i + 1] + js[i + 1..];
    JoinedAtOnce(js[..i], js[i]);
    FoldGrows(js[..i + 1], js[i + 1..]);
    TogetherGrows(Fold(js[..i + 1]).groups, Fold(js).groups, js[i].first, js[i].second);
  }

  /** The step for a judgment puts its two ids in one group. */
  lemma JoinedAtOnce(js: seq<Judgment>, j: Judgment)
    requires AllIndexable(js + [j])
    ensures Together(Fold(js + [j]).groups, j.first, j.second)
  {
    assert (js + [j])[..|js|] == js;
    assert j == (js + [j])[|js|];
    FoldSnoc(js, j);
    FoldValid(js);
    var c, d := j.Canonical(), j.Duplicate();
    assert Together(Fold(js + [j]).groups, c, d);
    assert {c, d} == {j.first, j.second};
  }

  /** Processing the same judgment twice in a row changes nothing the second time. */
  lemma StepTwice(s: State, j: Judgment)
    requires s.Valid() && j.Indexable()
    ensures Step(Step(s, j), j) == Step(s, j)
  {
    var c, d := j.Canonical(), j.Duplicate();
    var once := Step(s, j);
    assert c in once.seen;
    var twice := Attach(once.groups, c, d);
    assert Step(once, j).groups == twice;
    if c in s.groups || c !in s.seen {
      assert c in once.groups && d in once.groups[c];
      assert twice == once.groups[c := once.groups[c] + {d}];
      assert once.groups[c] + {d} == once.groups[c];
      assert once.groups[c := once.groups[c] + {d}] == once.groups;
    } else {
      AttachTwice(s.groups, c, d);
    }
  }

  /** Adding d to every set holding c a second time changes nothing. */
  lemma AttachTwice(m: Groups, c: Id, d: Id)
    requires c !in m
    ensures Attach(Attach(m, c, d), c, d) == Attach(m, c, d)
  {
    SpreadTwice(m, c, d);
    assert Attach(m, c, d) == AddToGroupsHolding(m, c, d);
  }

  /** The items() update run twice with the same ids is the update run once. */
  lemma SpreadTwice(m: Groups, c: Id, d: Id)
    ensures AddToGroupsHolding(AddToGroupsHolding(m, c, d), c, d) == AddToGroupsHolding(m, c, d)
  {
    var once := AddToGroupsHolding(m, c, d);
    var twice := AddToGroupsHolding(once, c, d);
    forall k | k in m ensures twice[k] == once[k] {
      if c in m[k] {
        assert d in once[k];
      } else {
        assert c == d || c !in once[k];
      }
    }
  }

  /**
   Processing a judgment again later is not a no-op: after X~A, A~B and Z~A
   (each keeping its first id), A sits in the groups of X and Z, and only X's
   group holds B; replaying A~B adds B to Z's group too.
   */
  lemma ReplayLaterChanges()
    ensures var x, z, a, b := Text("X"), Text("Z"), Text("A"), Text("B");
      var js := [Judgment(x, a, 0), Judgment(a, b, 0), Judgment(z, a, 0)];
      && Fold(js).groups == map[x := {a, b}, z := {a}]
      && Fold(js + [Judgment(a, b, 0)]).groups == map[x := {a, b}, z := {a, b}]
  {
    var x, z, a, b := Text("X"), Text("Z"), Text("A"), Text("B");
    var j1, j2, j3 := Judgment(x, a, 0), Judgment(a, b, 0), Judgment(z, a, 0);
    var s3 := State(map[x := {a, b}, z := {a}], {x, a, b, z});
    ReplayFirstTwo();
    FoldSnoc([j1, j2], j3);
    assert [j1, j2] + [j3] == [j1, j2, j3];
    ReplayThird();
    assert Fold([j1, j2, j3]) == s3;
    FoldSnoc([j1, j2, j3], j2);
    ReplayFourth();
  }

  /** X~A then A~B: X opens a group holding A, and B joins it. */
  lemma ReplayFirstTwo()
    ensures var x, a, b := Text("X"), Text("A"), Text("B");
      Fold([Judgment(x, a, 0), Judgment(a, b, 0)]) == State(map[x := {a, b}], {x, a, b})
  {
    var x, a, b := Text("X"), Text("A"), Text("B");
    var j1, j2 := Judgment(x, a, 0), Judgment(a, b, 0);
    FoldSnoc([], j1);
    assert [] + [j1] == [j1];
    assert Fold([j1]) == State(map[x := {a}], {x, a});
    FoldSnoc([j1], j2);
    assert [j1] + [j2] == [j1, j2];
    ReplaySecond();
  }

  /** A~B after X~A: A is only a member, so B joins X's group. */
  lemma ReplaySecond()
    ensures var x, a, b := Text("X"), Text("A"), Text("B");
      Step(State(map[x := {a}], {x, a}), Judgment(a, b, 0)) == State(map[x := {a, b}], {x, a, b})
  {
    var x, a, b := Text("X"), Text("A"), Text("B");
    var r := Attach(map[x := {a}], a, b);
    assert a !in map[x := {a}] && a in map[x := {a}][x];
    assert r.Keys == {x} && r[x] == {a, b};
    assert r == map[x := {a, b}];
  }

  /** Z~A after X~A and A~B: Z is new, so it opens a group holding A. */
  lemma ReplayThird()
    ensures var x, z, a, b := Text("X"), Text("Z"), Text("A"), Text("B");
      Step(State(map[x := {a, b}], {x, a, b}), Judgment(z, a, 0))
        == State(map[x := {a, b}, z := {a}], {x, a, b, z})
  {
    var x, z, a, b := Text("X"), Text("Z"), Text("A"), Text("B");
    assert z !in {x, a, b};
  }

  /** Replaying A~B once Z~A put A in a second group: B joins that group too. */
  lemma ReplayFourth()
    ensures var x, z, a, b := Text("X"), Text("Z"), Text("A"), Text("B");
      Step(State(map[x := {a, b}, z := {a}], {x, a, b, z}), Judgment(a, b, 0)).groups
        == map[x := {a, b}, z := {a, b}]
  {
    var x, z, a, b := Text("X"), Text("Z"), Text("A"), Text("B");
    var m := map[x := {a, b}, z := {a}];
    var r := Attach(m, a, b);
    assert a !in m && a in m[x] && a in m[z];
    assert r.Keys == {x, z} && r[x] == {a, b} && r[z] == {a, b};
    assert r == map[x := {a, b}, z := {a, b}];
  }

  /**
   The merged id is never looked up: after A~B and C~B (each keeping its
   first id), B is the duplicate of two canonical ids; after A~B and C~A, A is
   canonical and a duplicate at once.
   */
  lemma OverlappingGroups()
    ensures var a, b, c := Text("A"), Text("B"), Text("C");
      && Fold([Judgment(a, b, 0), Judgment(c, b, 0)]).groups == map[a := {b}, c := {b}]
      && Fold([Judgment(a, b, 0), Judgment(c, a, 0)]).groups == map[a := {b}, c := {a}]
      && !Partitioned(Fold([Judgment(a, b, 0), Judgment(c, b, 0)]).groups)
      && !Partitioned(Fold([Judgment(a, b, 0), Judgment(c, a, 0)]).groups)
  {
    var a, b, c := Text("A"), Text("B"), Text("C");
    var j1, j2, j3 := Judgment(a, b, 0), Judgment(c, b, 0), Judgment(c, a, 0);
    FoldSnoc([], j1);
    assert [] + [j1] == [j1];
    assert Fold([j1]) == State(map[a := {b}], {a, b});
    FoldSnoc([j1], j2);
    assert [j1] + [j2] == [j1, j2];
    FoldSnoc([j1], j3);
    assert [j1] + [j3] == [j1, j3];
    var g2 := Fold([j1, j2]).groups;
    var g3 := Fold([j1, j3]).groups;
    assert g2 == map[a := {b}, c := {b}];
    assert g3 == map[a := {b}, c := {a}];
    assert b in g2[a] && b in g2[c];
    assert a in g3[c] && a in g3;
  }
}
