/**
 The agents deduplication script: reviewed pairs (id_1, id_2) with no
 preference, where the first id of a pair becomes canonical unless one of the
 two ids was already seen. Modelled as written: a pair whose two ids were both
 seen before is skipped, even when they sit in different groups.
 */
module Agents {
  import opened Sheet
  import opened Groups

  type Pair = (Id, Id)

  /** The agents sheet is read with max_col = 17. */
  const Width: nat := 17

  /** The pair a reviewed row contributes: its columns 0 and 7. */
  function Read(row: Row): Pair
    requires |row| == Width
  {
    (row[0], row[7])
  }

  /** The judgments of the agents sheet: one pair per row marked 'Y' in column 16, in sheet order. */
  function Pairs(rows: seq<Row>): (r: seq<Pair>)
    requires Shaped(rows, Width)
    ensures |r| <= |rows|
    ensures forall p :: p in r <==> exists row :: row in rows && row[16] == Yes && p == Read(row)
  {
    if rows == [] then []
    else (if rows[0][16] == Yes then [Read(rows[0])] else []) + Pairs(rows[1..])
  }

  /** Reading two stretches of the sheet one after the other gives their pairs one after the other. */
  lemma {:induction false} PairsAppend(a: seq<Row>, b: seq<Row>)
    requires Shaped(a, Width) && Shaped(b, Width)
    ensures Pairs(a + b) == Pairs(a) + Pairs(b)
  {
    if a == [] {
      assert a + b == b;
    } else {
      assert (a + b)[1..] == a[1..] + b;
      PairsAppend(a[1..], b);
    }
  }

  /** Every id named by some pair. */
  function IdsOf(ps: seq<Pair>): set<Id>
  {
    (set p | p in ps :: p.0) + (set p | p in ps :: p.1)
  }

  /** One pass of the loop body for the pair (a, b). */
  function Step(s: State, p: Pair): (r: State)
    ensures r.seen == s.seen + {p.0, p.1}
    ensures p.0 in s.seen && p.1 in s.seen ==> r == s
    ensures p.0 !in s.seen && p.1 !in s.seen ==> r.groups == s.groups[p.0 := {p.1}]
    ensures p.0 in s.seen && p.1 !in s.seen ==> r.groups == Attach(s.groups, p.0, p.1)
    ensures p.0 !in s.seen && p.1 in s.seen ==> r.groups == Attach(s.groups, p.1, p.0)
    ensures s.Valid() ==> r.Valid() && Grows(s.groups, r.groups)
    ensures s.Valid() && !(p.0 in s.seen && p.1 in s.seen) ==> Together(r.groups, p.0, p.1)
  {
    var (a, b) := p;
    if a in s.seen && b in s.seen then
      s
    else if a in s.seen then
      State(Attach(s.groups, a, b), s.seen + {a, b})
    else if b in s.seen then
      State(Attach(s.groups, b, a), s.seen + {a, b})
    else
      var r := State(s.groups[a := {b}], s.seen + {a, b});
      assert s.Valid() ==> r.Valid() && Together(r.groups, a, b) by {
        if s.Valid() {
          MembersOfNewKey(s.groups, a, b);
          assert a in r.groups && a in r.groups[a] + {a} && b in r.groups[a] + {a};
        }
      }
      r
  }

  /** The state after the loop has processed the pairs `ps` in order. */
  function Fold(ps: seq<Pair>): State
  {
    if ps == [] then Initial else Step(Fold(ps[..|ps| - 1]), ps[|ps| - 1])
  }

  /**
   After every pair, already_entered is exactly the set of ids of the pairs
   processed so far, and exactly the keys and members of the map.
   */
  lemma {:induction false} FoldValid(ps: seq<Pair>)
    ensures Fold(ps).Valid()
    ensures Fold(ps).seen == IdsOf(ps)
  {
    if ps != [] {
      var init := ps[..|ps| - 1];
      assert ps == init + [ps[|ps| - 1]];
      assert IdsOf(ps) == IdsOf(init) + {ps[|ps| - 1].0, ps[|ps| - 1].1};
      FoldValid(init);
    }
  }

  /** Processing one more pair is one more Step. */
  lemma FoldSnoc(ps: seq<Pair>, p: Pair)
    ensures Fold(ps + [p]) == Step(Fold(ps), p)
  {
    assert (ps + [p])[..|ps|] == ps;
  }

  /**
   The body of the agents loop on agent_mapping_dict and already_entered: an
   id seen for the first time joins the group of the other id of its pair; if
   both are new, the first id opens a group holding the second; if both were
   seen, the pair is skipped.
   */
  method ProcessPair(groups: Groups, seen: set<Id>, p: Pair) returns (groups': Groups, seen': set<Id>)
    ensures State(groups', seen') == Step(State(groups, seen), p)
  {
    groups', seen' := groups, seen;
    var (id1, id2) := p;
    if id1 in seen {
      if id2 in seen {
        return;
      } else if id1 in groups {
        groups' := groups[id1 := groups[id1] + {id2}];
      } else {
        groups' := AddToEachGroupHolding(groups, id1, id2);
      }
    } else if id2 in seen {
      if id2 in groups {
        groups' := groups[id2 := groups[id2] + {id1}];
      } else {
        groups' := AddToEachGroupHolding(groups, id2, id1);
      }
    } else {
      groups' := groups[id1 := {id2}];
    }
    seen' := seen' + {id1};
    seen' := seen' + {id2};
  }

  /** The consolidation loop of the agents script, pair by pair in sheet order. */
  method Consolidate(ps: seq<Pair>) returns (groups: Groups, seen: set<Id>)
    ensures State(groups, seen) == Fold(ps)
  {
    groups, seen := map[], {};
    var i := 0;
    while i < |ps|
      invariant 0 <= i <= |ps|
      invariant State(groups, seen) == Fold(ps[..i])
    {
      FoldSnoc(ps[..i], ps[i]);
      assert ps[..i + 1] == ps[..i] + [ps[i]];
      groups, seen := ProcessPair(groups, seen, ps[i]);
      i := i + 1;
    }
    assert ps[..i] == ps;
  }

  /**
   The whole script without its database: read the sheet, consolidate, and
   flatten into the rows of final_agent_mapping.
   */
  method Run(rows: seq<Row>) returns (mapping: seq<Pair>)
    requires Shaped(rows, Width)
    ensures var g := Fold(Pairs(rows)).groups;
      forall p :: p in mapping <==> p.0 in g && p.1 in g[p.0]
    ensures Distinct(mapping)
    ensures (forall p :: p in Pairs(rows) ==> p.0 != p.1) ==>
      forall i, j :: 0 <= i < j < |mapping| ==> mapping[i].1 != mapping[j].1
    ensures (forall p :: p in Pairs(rows) ==> p.0 != p.1) ==>
      forall i, j :: 0 <= i < |mapping| && 0 <= j < |mapping| ==> mapping[i].0 != mapping[j].1
  {
    var groups, seen := Consolidate(Pairs(rows));
    mapping := Flatten(groups);
    if forall p :: p in Pairs(rows) ==> p.0 != p.1 {
      FoldPartitioned(Pairs(rows));
      FlattenedPartition(groups, mapping);
    }
  }

  /** Keys are never removed and sets only grow as more pairs are processed. */
  lemma {:induction false} FoldGrows(ps: seq<Pair>, qs: seq<Pair>)
    ensures Grows(Fold(ps).groups, Fold(ps + qs).groups)
  {
    if qs == [] {
      assert ps + qs == ps;
    } else {
      var init := qs[..|qs| - 1];
      var last := qs[|qs| - 1];
      assert ps + qs == (ps + init) + [last];
      FoldGrows(ps, init);
      FoldValid(ps + init);
      FoldSnoc(ps + init, last);
      GrowsTransitive(Fold(ps).groups, Fold(ps + init).groups, Fold(ps + qs).groups);
    }
  }

  /**
   Without self-pairs the map stays a partition: every seen id is either a key
   or in the set of exactly one key, never both.
   */
  lemma {:induction false} FoldPartitioned(ps: seq<Pair>)
    requires forall p :: p in ps ==> p.0 != p.1
    ensures Partitioned(Fold(ps).groups)
  {
    if ps != [] {
      var init := ps[..|ps| - 1];
      var p := ps[|ps| - 1];
      assert ps == init + [p];
      FoldPartitioned(init);
      FoldValid(init);
      FoldSnoc(init, p);
      var s := Fold(init);
      if p.0 in s.seen && p.1 in s.seen {
      } else if p.0 in s.seen {
        AttachKeepsPartition(s.groups, p.0, p.1);
      } else if p.1 in s.seen {
        AttachKeepsPartition(s.groups, p.1, p.0);
      } else {
        var r := s.groups[p.0 := {p.1}];
        MembersOfNewKey(s.groups, p.0, p.1);
        forall k, v | k in r && v in r[k] ensures v !in r {
          if k != p.0 {
            assert v in s.groups[k];
          }
        }
      }
    }
  }

  /** Processing again any pair processed before changes nothing. */
  lemma Replay(ps: seq<Pair>, p: Pair)
    requires p in ps
    ensures Fold(ps + [p]) == Fold(ps)
  {
    FoldSnoc(ps, p);
    FoldValid(ps);
    assert p.0 in IdsOf(ps) && p.1 in IdsOf(ps);
  }

  /**
   A pair that names at least one id not seen before ends up, for good, with
   its two ids in one group.
   */
  lemma FreshPairJoined(ps: seq<Pair>, i: nat)
    requires i < |ps|
    requires !(ps[i].0 in IdsOf(ps[..i]) && ps[i].1 in IdsOf(ps[..i]))
    ensures Together(Fold(ps).groups, ps[i].0, ps[i].1)
  {
    assert ps[..i + 1] == ps[..i] + [ps[i]];
    FreshPairJoinedAtOnce(ps[..i], ps[i]);
    assert ps == ps[..i + 1] + ps[i + 1..];
    FoldGrows(ps[..i + 1], ps[i + 1..]);
    TogetherGrows(Fold(ps[..i + 1]).groups, Fold(ps).groups, ps[i].0, ps[i].1);
  }

  /** The step for a pair that names an unseen id puts its two ids in one group. */
  lemma FreshPairJoinedAtOnce(ps: seq<Pair>, p: Pair)
    requires !(p.0 in IdsOf(ps) && p.1 in IdsOf(ps))
    ensures Together(Fold(ps + [p]).groups, p.0, p.1)
  {
    FoldSnoc(ps, p);
    FoldValid(ps);
  }

  /**
   The skipped pair loses a judgment: after A~B and C~D, the pair B~D finds
   both ids seen and is dropped, so B and D never share a group.
   */
  lemma CrossGroupPairDropped()
    ensures var a, b, c, d := Text("A"), Text("B"), Text("C"), Text("D");
      var g := Fold([(a, b), (c, d), (b, d)]).groups;
      g == map[a := {b}, c := {d}] && !Together(g, b, d)
  {
    var a, b, c, d := Text("A"), Text("B"), Text("C"), Text("D");
    FoldSnoc([], (a, b));
    assert [] + [(a, b)] == [(a, b)];
    assert Fold([(a, b)]) == State(map[a := {b}], {a, b});
    FoldSnoc([(a, b)], (c, d));
    assert [(a, b)] + [(c, d)] == [(a, b), (c, d)];
    assert c !in {a, b} && d !in {a, b};
    assert Fold([(a, b), (c, d)]) == State(map[a := {b}, c := {d}], {a, b, c, d});
    FoldSnoc([(a, b), (c, d)], (b, d));
    assert [(a, b), (c, d)] + [(b, d)] == [(a, b), (c, d), (b, d)];
    var g := Fold([(a, b), (c, d), (b, d)]).groups;
    assert g == map[a := {b}, c := {d}];
  }
}
