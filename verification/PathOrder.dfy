/** The order of the file names in one directory, and sorting by it. */
module PathOrder {
  /** The order in which paths of one directory are sorted. */
  predicate Less(a: string, b: string) {
    if b == "" then false
    else if a == "" then true
    else if a[0] != b[0] then a[0] < b[0]
    else Less(a[1..], b[1..])
  }

  lemma {:induction false} LessIsOrder(a: string, b: string)
    ensures a == b || Less(a, b) || Less(b, a)
    ensures !(Less(a, b) && Less(b, a))
    ensures Less(a, b) ==> a != b
  {
    if a != "" && b != "" && a[0] == b[0] {
      LessIsOrder(a[1..], b[1..]);
      assert a == [a[0]] + a[1..] && b == [b[0]] + b[1..];
    }
  }

  lemma {:induction false} LessAfterPrefix(p: string, a: string, b: string)
    ensures Less(p + a, p + b) == Less(a, b)
  {
    if p == "" {
      assert p + a == a && p + b == b;
    } else {
      assert (p + a)[1..] == p[1..] + a && (p + b)[1..] == p[1..] + b;
      LessAfterPrefix(p[1..], a, b);
    }
  }

  lemma {:induction false} LessWithSuffix(a: string, b: string, x: string, y: string)
    requires |a| == |b| && Less(a, b)
    ensures Less(a + x, b + y)
  {
    if a[0] == b[0] {
      assert (a + x)[1..] == a[1..] + x && (b + y)[1..] == b[1..] + y;
      LessWithSuffix(a[1..], b[1..], x, y);
    }
  }

  lemma {:induction false} LessTransitive(a: string, b: string, c: string)
    requires Less(a, b) && Less(b, c)
    ensures Less(a, c)
  {
    if a != "" && a[0] == b[0] && b[0] == c[0] {
      LessTransitive(a[1..], b[1..], c[1..]);
    }
  }

  /** Sorted, and no name twice. */
  predicate Ascending(names: seq<string>) {
    forall i, j | 0 <= i < j < |names| :: Less(names[i], names[j])
  }

  function Inserted(names: seq<string>, name: string): seq<string> {
    if names == [] then [name]
    else if Less(name, names[0]) then [name] + names
    else [names[0]] + Inserted(names[1..], name)
  }

  lemma {:induction false} InsertedMembers(names: seq<string>, name: string)
    ensures forall x :: x in Inserted(names, name) <==> x in names || x == name
  {
    if names != [] {
      InsertedMembers(names[1..], name);
      assert names == [names[0]] + names[1..];
    }
  }

  lemma AscendingCons(first: string, rest: seq<string>)
    requires Ascending(rest) && forall x | x in rest :: Less(first, x)
    ensures Ascending([first] + rest)
  {
    var all := [first] + rest;
    forall i, j | 0 <= i < j < |all|
      ensures Less(all[i], all[j])
    {
      assert all[j] == rest[j - 1] && rest[j - 1] in rest;
    }
  }

  lemma {:induction false} InsertedAscends(names: seq<string>, name: string)
    requires Ascending(names) && name !in names
    ensures Ascending(Inserted(names, name))
  {
    if names != [] {
      var first, rest := names[0], names[1..];
      LessIsOrder(name, first);
      assert forall x | x in rest :: Less(first, x);
      if Less(name, first) {
        forall x | x in names
          ensures Less(name, x)
        {
          if x != first {
            LessTransitive(name, first, x);
          }
        }
        AscendingCons(name, names);
      } else {
        InsertedAscends(rest, name);
        InsertedMembers(rest, name);
        AscendingCons(first, Inserted(rest, name));
      }
    }
  }

  /** Sorts names that are all different. */
  method Sort(names: seq<string>) returns (sorted: seq<string>)
    requires forall i, j | 0 <= i < j < |names| :: names[i] != names[j]
    ensures Ascending(sorted)
    ensures forall x :: x in sorted <==> x in names
  {
    sorted := [];
    for k := 0 to |names|
      invariant Ascending(sorted)
      invariant forall x :: x in sorted <==> x in names[..k]
    {
      InsertedAscends(sorted, names[k]);
      InsertedMembers(sorted, names[k]);
      sorted := Inserted(sorted, names[k]);
      assert names[..k + 1] == names[..k] + [names[k]];
    }
    assert names[..|names|] == names;
  }

  lemma LastIsGreatest(names: seq<string>, x: string)
    requires Ascending(names) && x in names
    ensures x == names[|names| - 1] || Less(x, names[|names| - 1])
  {
  }

  lemma FrontMembers(names: seq<string>, x: string)
    requires Ascending(names) && names != []
    ensures x in names[..|names| - 1] <==> x in names && x != names[|names| - 1]
  {
    var n := |names| - 1;
    assert names == names[..n] + [names[n]];
    if x in names[..n] {
      LessIsOrder(x, names[n]);
    }
  }

  lemma SomeMember(names: seq<string>) returns (x: string)
    requires names != []
    ensures x in names
  {
    x := names[0];
  }

  /** There is only one way to sort a set of names. */
  lemma {:induction false} SortingIsUnique(s: seq<string>, t: seq<string>)
    requires Ascending(s) && Ascending(t) && forall x :: x in s <==> x in t
    ensures s == t
  {
    if s == [] {
      if t != [] { var _ := SomeMember(t); }
    } else {
      var m := |s| - 1;
      assert s[m] in t;
      var n := |t| - 1;
      assert t[n] in s;
      LastIsGreatest(s, t[n]);
      LastIsGreatest(t, s[m]);
      LessIsOrder(s[m], t[n]);
      forall x
        ensures x in s[..m] <==> x in t[..n]
      {
        FrontMembers(s, x);
        FrontMembers(t, x);
      }
      SortingIsUnique(s[..m], t[..n]);
      assert s == s[..m] + [s[m]] && t == t[..n] + [t[n]];
    }
  }
}
