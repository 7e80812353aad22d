/** Column names in the order the statement builder writes them: sorted bytewise, so that the
    order in which a map yields its keys does not matter. */
module Columns {

  /** Bytewise order of strings, a proper prefix first. */
  predicate Less(a: string, b: string) {
    b != "" && (a == "" || a[0] < b[0] || (a[0] == b[0] && Less(a[1..], b[1..])))
  }

  lemma {:induction false} LessIsStrict(a: string, b: string)
    ensures Less(a, b) ==> a != b && !Less(b, a)
    ensures a == b || Less(a, b) || Less(b, a)
    decreases |a|
  {
    if a != "" && b != "" {
      LessIsStrict(a[1..], b[1..]);
      if a[0] == b[0] && a[1..] == b[1..] {
        assert a == [a[0]] + a[1..] && b == [b[0]] + b[1..];
      }
    }
  }

  lemma {:induction false} LessIsTransitive(a: string, b: string, c: string)
    requires Less(a, b) && Less(b, c)
    ensures Less(a, c)
    decreases |a|
  {
    if a != "" && a[0] == b[0] == c[0] {
      LessIsTransitive(a[1..], b[1..], c[1..]);
    }
  }

  /** Independently: up to some position they are the same, and there the first one ends or has
      the smaller byte. */
  lemma {:induction false} LessIsBytewise(a: string, b: string)
    ensures Less(a, b) <==>
            exists i :: 0 <= i <= |a| && i < |b| && a[..i] == b[..i] && (i == |a| || a[i] < b[i])
    decreases |a|
  {
    if a == "" {
      if b != "" { assert a[..0] == b[..0]; }
    } else if b != "" && a[0] == b[0] {
      LessIsBytewise(a[1..], b[1..]);
      if i :| 0 <= i <= |a| && i < |b| && a[..i] == b[..i] && (i == |a| || a[i] < b[i]) {
        assert i > 0;
        assert a[1..][..i - 1] == a[..i][1..] && b[1..][..i - 1] == b[..i][1..];
      }
      if i :| 0 <= i <= |a[1..]| && i < |b[1..]| && a[1..][..i] == b[1..][..i] && (i == |a[1..]| || a[1..][i] < b[1..][i]) {
        assert a[..i + 1] == [a[0]] + a[1..][..i] && b[..i + 1] == [b[0]] + b[1..][..i];
      }
    } else if b != "" {
      assert a[..0] == b[..0];
      forall i | 0 < i <= |a| && i < |b|
        ensures a[..i] != b[..i]
      {
        assert a[..i][0] != b[..i][0];
      }
    }
  }

  ghost predicate Sorted(names: seq<string>) {
    forall i, j :: 0 <= i < j < |names| ==> Less(names[i], names[j])
  }

  function Names(names: seq<string>): set<string> {
    set n | n in names
  }

  lemma SomeNames(names: seq<string>)
    requires names != []
    ensures Names(names) != {}
  {
    assert names[0] in Names(names);
  }

  lemma SameFirst(a: seq<string>, b: seq<string>)
    requires a != [] && b != [] && Sorted(a) && Sorted(b) && Names(a) == Names(b)
    ensures a[0] == b[0]
  {
    assert a[0] in Names(b) && b[0] in Names(a);
    var i :| 0 <= i < |b| && b[i] == a[0];
    var j :| 0 <= j < |a| && a[j] == b[0];
    LessIsStrict(a[0], b[0]);
  }

  lemma RestNames(a: seq<string>)
    requires a != [] && Sorted(a)
    ensures Sorted(a[1..]) && Names(a[1..]) == Names(a) - {a[0]}
  {
    forall n | n in Names(a) && n != a[0]
      ensures n in a[1..]
    {
      var i :| 0 <= i < |a| && a[i] == n;
      assert a[1..][i - 1] == n;
    }
    forall i | 0 < i < |a|
      ensures a[i] != a[0]
    {
      LessIsStrict(a[0], a[i]);
    }
  }

  /** There is only one sorted list of a set of names. */
  lemma {:induction false} SortedIsUnique(a: seq<string>, b: seq<string>)
    requires Sorted(a) && Sorted(b) && Names(a) == Names(b)
    ensures a == b
    decreases |a|
  {
    if a == [] {
      if b != [] { SomeNames(b); }
    } else {
      assert a[0] in Names(a);
      assert b != [];
      SameFirst(a, b);
      RestNames(a);
      RestNames(b);
      SortedIsUnique(a[1..], b[1..]);
      assert a == [a[0]] + a[1..] && b == [b[0]] + b[1..];
    }
  }

  function Insert(name: string, names: seq<string>): seq<string> {
    if names == [] || Less(name, names[0]) then [name] + names else [names[0]] + Insert(name, names[1..])
  }

  lemma {:induction false} InsertKeepsSorted(name: string, names: seq<string>)
    requires Sorted(names) && name !in names
    ensures Sorted(Insert(name, names)) && Names(Insert(name, names)) == Names(names) + {name}
    decreases |names|
  {
    if names != [] {
      LessIsStrict(name, names[0]);
      if Less(name, names[0]) {
        forall i | 0 < i < |names|
          ensures Less(name, names[i])
        {
          LessIsTransitive(name, names[0], names[i]);
        }
        assert Names([name] + names) == Names(names) + {name};
      } else {
        var rest := names[1..];
        InsertKeepsSorted(name, rest);
        RestNames(names);
        var r := Insert(name, rest);
        forall i | 0 <= i < |r|
          ensures Less(names[0], r[i])
        {
          assert r[i] in Names(r);
          if r[i] != name {
            var j :| 0 <= j < |rest| && rest[j] == r[i];
            assert names[j + 1] == r[i];
          }
        }
        assert Names([names[0]] + r) == Names(r) + {names[0]};
      }
    }
  }

  /** The sorted list of a set of names. */
  ghost function SortedNames(names: set<string>): (r: seq<string>)
    ensures Sorted(r) && Names(r) == names
  {
    if names == {} then [] else
    var n :| n in names;
    InsertKeepsSorted(n, SortedNames(names - {n}));
    Insert(n, SortedNames(names - {n}))
  }

  /** Collects the keys of a map, in whatever order the map yields them, and sorts them. */
  method SortedColumns<V>(m: map<string, V>) returns (columns: seq<string>)
    ensures columns == SortedNames(m.Keys)
  {
    var left := m.Keys;
    columns := [];
    while left != {}
      invariant left <= m.Keys
      invariant Sorted(columns) && Names(columns) == m.Keys - left
      decreases |left|
    {
      var name :| name in left;
      assert name !in Names(columns);
      InsertKeepsSorted(name, columns);
      columns := Insert(name, columns);
      left := left - {name};
    }
    SortedIsUnique(columns, SortedNames(m.Keys));
  }
}
