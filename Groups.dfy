/**
 The consolidation map shared by the three deduplication scripts: a dict from a
 canonical id to the set of ids judged to duplicate it, the update both loops
 use to attach a new id to the group of a seen one, and the flattening of the
 map into (canonical, duplicate) rows.
 */
module Groups {
  import opened Sheet

  type Id = Cell

  /** Each key is a canonical id; its set holds the ids merged into it. */
  type Groups = map<Id, set<Id>>

  /** Every id that sits in some key's set. */
  ghost function Members(m: Groups): set<Id>
  {
    set k, v | k in m && v in m[k] :: v
  }

  /** `seen` is exactly the ids the map mentions, as keys or as members. */
  ghost predicate Covers(m: Groups, seen: set<Id>)
  {
    seen == m.Keys + Members(m)
  }

  /** No id is both canonical and a duplicate, and no id is a duplicate of two canonicals. */
  ghost predicate Partitioned(m: Groups)
  {
    && (forall k, v :: k in m && v in m[k] ==> v !in m)
    && (forall k, k', v :: k in m && k' in m && v in m[k] && v in m[k'] ==> k == k')
  }

  /** m' keeps every key of m, and every set of m only gains ids. */
  ghost predicate Grows(m: Groups, m': Groups)
  {
    m.Keys <= m'.Keys && forall k :: k in m ==> m[k] <= m'[k]
  }

  /** Some group (its key together with its set) holds both a and b. */
  ghost predicate Together(m: Groups, a: Id, b: Id)
  {
    exists k :: k in m && a in m[k] + {k} && b in m[k] + {k}
  }

  /** The variables of every consolidation loop: the map and already_entered. */
  datatype State = State(groups: Groups, seen: set<Id>)
  {
    /** already_entered holds exactly the keys and members of the map. */
    ghost predicate Valid()
    {
      Covers(groups, seen)
    }
  }

  /** Both loops start from an empty map and an empty already_entered. */
  const Initial: State := State(map[], {})

  /** Pairwise different rows. */
  predicate Distinct<T(==)>(rows: seq<T>)
  {
    forall i, j :: 0 <= i < j < |rows| ==> rows[i] != rows[j]
  }

  /** The map after `y` was added to the set of every key whose set holds `x`. */
  function AddToGroupsHolding(m: Groups, x: Id, y: Id): (r: Groups)
    ensures r.Keys == m.Keys && Grows(m, r)
    ensures forall k :: k in m ==> r[k] - m[k] <= {y}
    ensures forall k :: k in m ==> (y in r[k] <==> y in m[k] || x in m[k])
  {
    map k | k in m :: if x in m[k] then m[k] + {y} else m[k]
  }

  /**
   `y` joins the group of `x`: the set of `x` when `x` is a key, otherwise the
   set of every key that holds `x`. Nothing else changes.
   */
  function Attach(m: Groups, x: Id, y: Id): (r: Groups)
    ensures r.Keys == m.Keys && Grows(m, r)
    ensures x in m ==> forall k :: k in m ==> r[k] == if k == x then m[k] + {y} else m[k]
    ensures x !in m ==> forall k :: k in m ==> r[k] == if x in m[k] then m[k] + {y} else m[k]
    ensures x in m.Keys + Members(m) ==> Members(r) == Members(m) + {y} && Together(r, x, y)
    ensures x !in m.Keys + Members(m) ==> r == m
  {
    var r := if x in m then m[x := m[x] + {y}] else AddToGroupsHolding(m, x, y);
    AttachMembers(m, x, y);
    r
  }

  /** How Attach changes the members, and that it puts x and y in one group. */
  lemma AttachMembers(m: Groups, x: Id, y: Id)
    ensures var r := if x in m then m[x := m[x] + {y}] else AddToGroupsHolding(m, x, y);
      && (x in m.Keys + Members(m) ==> Members(r) == Members(m) + {y} && Together(r, x, y))
      && (x !in m.Keys + Members(m) ==> r == m)
  {
    if x in m {
      var r := m[x := m[x] + {y}];
      assert x in r && x in r[x] + {x} && y in r[x] + {x};
      MembersOfExtended(m, x, y);
    } else {
      var r := AddToGroupsHolding(m, x, y);
      if x in Members(m) {
        var k :| k in m && x in m[k];
        assert x in r[k] && y in r[k];
        forall v | v in Members(r) ensures v in Members(m) + {y} {
          var k' :| k' in r && v in r[k'];
        }
        forall v | v in Members(m) ensures v in Members(r) {
          var k' :| k' in m && v in m[k'];
          assert v in r[k'];
        }
      } else {
        forall k | k in m ensures r[k] == m[k] {
          assert x !in m[k];
        }
      }
    }
  }

  /** Adding y to the set of the key x adds y to the members and nothing else. */
  lemma MembersOfExtended(m: Groups, x: Id, y: Id)
    requires x in m
    ensures Members(m[x := m[x] + {y}]) == Members(m) + {y}
  {
    var r := m[x := m[x] + {y}];
    forall v | v in Members(r) ensures v in Members(m) + {y} {
      var k :| k in r && v in r[k];
    }
    forall v | v in Members(m) ensures v in Members(r) {
      var k :| k in m && v in m[k];
      assert k in r && v in r[k];
    }
    assert y in r[x];
  }

  /** A fresh key with the singleton set {y} adds y to the members and nothing else. */
  lemma MembersOfNewKey(m: Groups, x: Id, y: Id)
    requires x !in m
    ensures Members(m[x := {y}]) == Members(m) + {y}
  {
    var r := m[x := {y}];
    forall v | v in Members(m) ensures v in Members(r) {
      var k :| k in m && v in m[k];
      assert k != x && k in r && v in r[k];
    }
    forall v | v in Members(r) ensures v in Members(m) + {y} {
      var k :| k in r && v in r[k];
    }
    assert y in r[x];
  }

  /** Growth composes. */
  lemma GrowsTransitive(m: Groups, m': Groups, m'': Groups)
    requires Grows(m, m') && Grows(m', m'')
    ensures Grows(m, m'')
  {
  }

  /** Ids that share a group keep sharing one while the map grows. */
  lemma TogetherGrows(m: Groups, m': Groups, a: Id, b: Id)
    requires Together(m, a, b) && Grows(m, m')
    ensures Together(m', a, b)
  {
    var k :| k in m && a in m[k] + {k} && b in m[k] + {k};
    assert k in m' && a in m'[k] + {k} && b in m'[k] + {k};
  }

  /**
   Attaching an id that the map does not mention yet to the group of an id it
   does mention keeps the map a partition.
   */
  lemma AttachKeepsPartition(m: Groups, x: Id, y: Id)
    requires Partitioned(m)
    requires x in m.Keys + Members(m) && y !in m.Keys + Members(m)
    ensures Partitioned(Attach(m, x, y))
  {
    if x in m {
      ExtendKeepsPartition(m, x, y);
    } else {
      SpreadKeepsPartition(m, x, y);
    }
  }

  lemma ExtendKeepsPartition(m: Groups, x: Id, y: Id)
    requires Partitioned(m)
    requires x in m && y !in m.Keys + Members(m)
    ensures Partitioned(m[x := m[x] + {y}])
  {
    var r := m[x := m[x] + {y}];
    forall k, v | k in r && v in r[k] ensures v !in r {
      if v != y {
        assert v in m[k];
      }
    }
    assert forall k :: k in m && y in r[k] ==> k == x;
    forall k, k', v | k in r && k' in r && v in r[k] && v in r[k'] ensures k == k' {
      if v != y {
        assert v in m[k] && v in m[k'];
      }
    }
  }

  lemma SpreadKeepsPartition(m: Groups, x: Id, y: Id)
    requires Partitioned(m)
    requires x !in m && x in Members(m) && y !in m.Keys + Members(m)
    ensures Partitioned(AddToGroupsHolding(m, x, y))
  {
    var r := AddToGroupsHolding(m, x, y);
    forall k, k', v | k in r && k' in r && v in r[k] && v in r[k'] ensures k == k' {
      if v == y {
        assert x in m[k] && x in m[k'];
      } else {
        assert v in m[k] && v in m[k'];
      }
    }
    forall k, v | k in r && v in r[k] ensures v !in r {
      if v != y {
        assert v in m[k];
      }
    }
  }

  /**
   The inner loop over `items()` of the scripts: add `y` to every set that
   holds `x`, one key at a time.
   */
  method AddToEachGroupHolding(m: Groups, x: Id, y: Id) returns (r: Groups)
    ensures r == AddToGroupsHolding(m, x, y)
  {
    r := m;
    var keys := m.Keys;
    while keys != {}
      invariant keys <= m.Keys && r.Keys == m.Keys
      invariant forall k :: k in m ==> r[k] == if k !in keys && x in m[k] then m[k] + {y} else m[k]
      decreases keys
    {
      var key :| key in keys;
      if x in r[key] {
        r := r[key := r[key] + {y}];
      }
      keys := keys - {key};
    }
  }

  /**
   The final loop of the scripts: one (key, value) row per member of each set.
   The order in which Python visits keys and set members is not modelled.
   */
  method Flatten(m: Groups) returns (rows: seq<(Id, Id)>)
    ensures forall p :: p in rows <==> p.0 in m && p.1 in m[p.0]
    ensures Distinct(rows)
  {
    rows := [];
    var keys := m.Keys;
    while keys != {}
      invariant keys <= m.Keys
      invariant forall p :: p in rows <==> p.0 in m.Keys - keys && p.1 in m[p.0]
      invariant Distinct(rows)
      decreases keys
    {
      var key :| key in keys;
      var values := m[key];
      while values != {}
        invariant values <= m[key]
        invariant forall p :: p in rows <==>
          (p.0 in m.Keys - keys && p.1 in m[p.0]) || (p.0 == key && p.1 in m[key] - values)
        invariant Distinct(rows)
        decreases values
      {
        var value :| value in values;
        assert (key, value) !in rows;
        rows := rows + [(key, value)];
        values := values - {value};
      }
      keys := keys - {key};
    }
  }

  /**
   In the rows of a partitioned map, an id is the duplicate of at most one
   canonical id and never a canonical id itself.
   */
  lemma FlattenedPartition(m: Groups, rows: seq<(Id, Id)>)
    requires Partitioned(m)
    requires forall p :: p in rows <==> p.0 in m && p.1 in m[p.0]
    requires Distinct(rows)
    ensures forall i, j :: 0 <= i < j < |rows| ==> rows[i].1 != rows[j].1
    ensures forall i, j :: 0 <= i < |rows| && 0 <= j < |rows| ==> rows[i].0 != rows[j].1
  {
    forall i, j | 0 <= i < j < |rows| ensures rows[i].1 != rows[j].1 {
      assert rows[i] in rows && rows[j] in rows;
    }
    forall i, j | 0 <= i < |rows| && 0 <= j < |rows| ensures rows[i].0 != rows[j].1 {
      assert rows[i] in rows && rows[j] in rows;
    }
  }
}
