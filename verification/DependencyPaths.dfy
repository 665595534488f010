/** The `..` elimination of gccdeps: a relative dependency path is reduced to a node to start from and
    a list of plain names.  Nodes are named by the list of names from the file-system root. */
module DependencyPaths {
  import opened Options

  type Location = seq<string>

  const UP: string := ".."

  predicate Skip(seg: string) { seg == "" || seg == "." }

  predicate Name(seg: string) { !Skip(seg) && seg != UP }

  /** The list comprehension that drops empty and `.` segments. */
  function Kept(segs: seq<string>): (r: seq<string>)
    ensures forall i :: 0 <= i < |r| ==> !Skip(r[i])
  {
    if segs == [] then [] else (if Skip(segs[0]) then [] else [segs[0]]) + Kept(segs[1..])
  }

  /** `path.parent`; the root has none. */
  function Parent(loc: Location): Option<Location>
  {
    if loc == [] then None else Some(loc[..|loc| - 1])
  }

  function Index(x: seq<string>, s: string): (i: nat)
    requires s in x
    ensures i < |x| && x[i] == s && s !in x[..i]
  {
    if x[0] == s then 0 else 1 + Index(x[1..], s)
  }

  /** The lexical meaning of a path: walk it segment by segment.  None when it climbs above the root. */
  function Walk(loc: Location, segs: seq<string>): Option<Location>
    decreases segs
  {
    if segs == [] then Some(loc)
    else if Skip(segs[0]) then Walk(loc, segs[1..])
    else if segs[0] == UP then
      if Parent(loc).None? then None else Walk(Parent(loc).value, segs[1..])
    else Walk(loc + [segs[0]], segs[1..])
  }

  /** What walking means, segment by segment: empty segments and `.` stay, a name descends, `..` ascends
      unless it would leave the root, and the parts of a path are walked one after the other. */
  lemma WalkLaws(loc: Location, n: string)
    ensures Walk(loc, []) == Some(loc)
    ensures n == "" || n == "." ==> Walk(loc, [n]) == Some(loc)
    ensures n == ".." ==> Walk(loc, [n]) == if loc == [] then None else Some(loc[..|loc| - 1])
    ensures n != "" && n != "." && n != ".." ==> Walk(loc, [n]) == Some(loc + [n])
  {
    assert [n][1..] == [];
  }

  lemma {:induction false} WalkConcat(loc: Location, a: seq<string>, b: seq<string>)
    ensures Walk(loc, a + b) == if Walk(loc, a).None? then None else Walk(Walk(loc, a).value, b)
    decreases a
  {
    if a == [] {
      assert a + b == b;
    } else {
      assert (a + b)[0] == a[0] && (a + b)[1..] == a[1..] + b;
      if Skip(a[0]) {
        WalkConcat(loc, a[1..], b);
      } else if a[0] != UP {
        WalkConcat(loc + [a[0]], a[1..], b);
      } else if loc != [] {
        WalkConcat(Parent(loc).value, a[1..], b);
      }
    }
  }

  /** An empty segment or a `.` may be dropped or added anywhere. */
  lemma DotsAreNothing(loc: Location, a: seq<string>, b: seq<string>)
    ensures Walk(loc, a + ["."] + b) == Walk(loc, a + [""] + b) == Walk(loc, a + b)
  {
    forall n: string | n == "." || n == ""
      ensures Walk(loc, a + [n] + b) == Walk(loc, a + b)
    {
      WalkConcat(loc, a + [n], b);
      WalkConcat(loc, a, [n]);
      WalkConcat(loc, a, b);
      if Walk(loc, a).Some? { WalkLaws(Walk(loc, a).value, n); }
    }
  }

  /** The least depth the walk passes through. */
  function Lowest(loc: Location, segs: seq<string>): (n: nat)
    ensures n <= |loc|
    decreases segs
  {
    if segs == [] then |loc|
    else if Skip(segs[0]) then Lowest(loc, segs[1..])
    else if segs[0] == UP then
      if Parent(loc).None? then 0 else Lowest(Parent(loc).value, segs[1..])
    else
      var n := Lowest(loc + [segs[0]], segs[1..]);
      if n < |loc| then n else |loc|
  }

  /** Two ways to give the same path. */
  ghost predicate SamePath(loc: Location, segs: seq<string>, loc': Location, segs': seq<string>)
  {
    Walk(loc, segs) == Walk(loc', segs') && (Walk(loc, segs).Some? ==> Lowest(loc, segs) == Lowest(loc', segs'))
  }

  lemma {:induction false} KeptIsSamePath(loc: Location, segs: seq<string>)
    ensures SamePath(loc, Kept(segs), loc, segs)
    decreases segs
  {
    if segs != [] {
      var rest := Kept(segs[1..]);
      if Skip(segs[0]) {
        assert Kept(segs) == rest;
        KeptIsSamePath(loc, segs[1..]);
      } else {
        assert Kept(segs)[1..] == rest;
        if segs[0] != UP {
          KeptIsSamePath(loc + [segs[0]], segs[1..]);
        } else if loc != [] {
          KeptIsSamePath(Parent(loc).value, segs[1..]);
        }
      }
    }
  }

  /** A name directly followed by `..` may be dropped wherever it stands. */
  lemma {:induction false} CancelPair(loc: Location, x: seq<string>, i: nat)
    requires i + 1 < |x| && Name(x[i]) && x[i + 1] == UP
    ensures SamePath(loc, x[..i] + x[i + 2..], loc, x)
    decreases i
  {
    var y := x[..i] + x[i + 2..];
    if i == 0 {
      assert y == x[1..][1..];
      assert (loc + [x[0]])[..|loc|] == loc;
    } else {
      assert x[1..][..i - 1] + x[1..][i + 1..] == y[1..];
      if Skip(x[0]) {
        CancelPair(loc, x[1..], i - 1);
      } else if x[0] != UP {
        CancelPair(loc + [x[0]], x[1..], i - 1);
      } else if loc != [] {
        CancelPair(Parent(loc).value, x[1..], i - 1);
      }
    }
  }

  lemma {:induction false} WalkNames(loc: Location, x: seq<string>)
    requires forall i :: 0 <= i < |x| ==> Name(x[i])
    ensures Walk(loc, x) == Some(loc + x) && Lowest(loc, x) == |loc|
    decreases x
  {
    if x != [] {
      WalkNames(loc + [x[0]], x[1..]);
      assert loc + [x[0]] + x[1..] == loc + x;
    } else {
      assert loc + x == loc;
    }
  }

  /** For every base and every segment list: the loop ends; it fails exactly when the path climbs
      above the root; otherwise no `..` is left and the result is the same location, split at the
      lowest point of the walk. */
  method Normalise(base: Location, segs: seq<string>) returns (r: Option<(Location, seq<string>)>)
    ensures r.None? <==> Walk(base, segs).None?
    ensures r.Some? ==>
              && (forall i :: 0 <= i < |r.value.1| ==>
                    r.value.1[i] != "" && r.value.1[i] != "." && r.value.1[i] != "..")
              && r.value.0 <= base && |r.value.0| == Lowest(base, segs)
              && Walk(base, segs) == Some(r.value.0 + r.value.1)
  {
    var x := Kept(segs);
    var path: Option<Location> := Some(base);
    KeptIsSamePath(base, segs);
    while UP in x
      invariant forall i :: 0 <= i < |x| ==> !Skip(x[i])
      invariant path.None? ==> Walk(base, segs).None?
      invariant path.Some? ==> path.value <= base && SamePath(path.value, x, base, segs)
      decreases |x|
    {
      var idx := Index(x, UP);
      if idx == 0 {
        x := x[1..];
        if path.None? { return None; }     // None has no parent: the source raises AttributeError
        path := Parent(path.value);
      } else {
        assert Name(x[idx - 1]) by { assert x[idx - 1] == x[..idx][idx - 1]; }
        if path.Some? { CancelPair(path.value, x, idx - 1); }
        ghost var was := x;
        x := x[..idx] + x[idx + 1..];
        x := x[..idx - 1] + x[idx..];
        assert x == was[..idx - 1] + was[idx - 1 + 2..];
      }
    }
    if path.None? { return None; }         // find_resource on None: the source raises AttributeError
    WalkNames(path.value, x);
    r := Some((path.value, x));
  }
}
