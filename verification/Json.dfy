/** JSON documents and their deep merge, as values: what merging a user's pod template into
    the operator's means (mergeMaps in bindplane_controller.go). */
module Json {

  import opened Options
  import EnvVars
  import ExtraVolumes
  import GoRuntime

  /** A value the merge never looks inside: scalars, and lists, which it replaces whole. */
  datatype Atom =
    | Text(text: string)
    | Number(n: GoRuntime.int64)
    | EnvList(env: seq<EnvVars.EnvVar>)
    | Containers(containers: seq<Fields>)
    | Volumes(volumes: seq<ExtraVolumes.Volume>)
    | Opaque(token: nat)

  type Fields = map<string, Json>

  datatype Json =
    | Null
    | Leaf(atom: Atom)
    | Obj(fields: Fields)

  /** `b` merged into `a`: nulls in `b` are skipped, objects merge with objects, everything
      else in `b` replaces what `a` had. */
  function Merge(a: Json, b: Json): Json
    decreases b
  {
    if b.Null? then a
    else if a.Obj? && b.Obj? then
      Obj(map k | k in a.fields.Keys + Present(b.fields) ::
        if k !in a.fields then b.fields[k]
        else if k !in b.fields then a.fields[k]
        else Merge(a.fields[k], b.fields[k]))
    else b
  }

  /** The keys with a non-null value. */
  function Present(f: Fields): set<string>
  {
    set k | k in f && !f[k].Null?
  }

  /** The value at a path of keys, if every step is into an object that has the key. */
  function At(t: Json, path: seq<string>): Option<Json>
  {
    if path == [] then Some(t)
    else if t.Obj? && path[0] in t.fields then At(t.fields[path[0]], path[1..])
    else None
  }

  /** On the way to `path`, strictly before its end, `b` has a value that is neither null nor an object. */
  predicate Cut(b: Json, path: seq<string>)
  {
    path != [] && (b.Leaf? || (b.Obj? && path[0] in b.fields && Cut(b.fields[path[0]], path[1..])))
  }

  /** What the merge has at every path: both sides merged where both have a value, the user's
      value where only the user has one, and the operator's where only the operator has one,
      unless the user put a plain value higher up. */
  lemma {:induction false} MergeAtPath(a: Json, b: Json, path: seq<string>)
    ensures match (At(a, path), At(b, path))
            case (Some(x), Some(y)) => At(Merge(a, b), path) == Some(Merge(x, y))
            case (Some(x), None) => At(Merge(a, b), path) == if Cut(b, path) then None else Some(x)
            case (None, Some(y)) => At(Merge(a, b), path) == Some(y) || (y.Null? && At(Merge(a, b), path) == None)
            case (None, None) => At(Merge(a, b), path) == None
  {
    if path != [] && a.Obj? && b.Obj? && path[0] in a.fields && path[0] in b.fields {
      MergeAtPath(a.fields[path[0]], b.fields[path[0]], path[1..]);
    }
  }

  /** A plain value of the user's always wins. */
  lemma MergeIsRightBiased(a: Json, b: Json, path: seq<string>)
    requires At(b, path).Some? && At(b, path).value.Leaf?
    ensures At(Merge(a, b), path) == At(b, path)
  {
    MergeAtPath(a, b, path);
  }

  /** Where both have a value: a null of the user's says nothing, two objects join their keys, and anything else of the
      user's stands in place of what was there. */
  lemma MergeDecides(a: Json, b: Json, path: seq<string>, x: Json, y: Json)
    requires At(a, path) == Some(x) && At(b, path) == Some(y)
    ensures At(Merge(a, b), path).Some?
    ensures var m := At(Merge(a, b), path).value;
            && (y.Null? ==> m == x)
            && (y.Leaf? || (y.Obj? && !x.Obj?) ==> m == y)
            && (x.Obj? && y.Obj? ==>
                  m.Obj? && forall k :: k in m.fields <==> k in x.fields || (k in y.fields && y.fields[k] != Null))
  {
    MergeAtPath(a, b, path);
  }

  lemma {:induction false} MergeSelf(b: Json)
    ensures Merge(b, b) == b
  {
    if b.Obj? {
      forall k | k in b.fields
        ensures Merge(b.fields[k], b.fields[k]) == b.fields[k]
      {
        MergeSelf(b.fields[k]);
      }
      assert Merge(b, b).fields == b.fields;
    }
  }

  /** Applying the same template twice is applying it once. */
  lemma {:induction false} MergeIdempotent(a: Json, b: Json)
    ensures Merge(Merge(a, b), b) == Merge(a, b)
  {
    if a.Obj? && b.Obj? {
      var m := Merge(a, b);
      forall k | k in m.fields && k in b.fields
        ensures Merge(m.fields[k], b.fields[k]) == m.fields[k]
      {
        if k in a.fields {
          MergeIdempotent(a.fields[k], b.fields[k]);
        } else {
          MergeSelf(b.fields[k]);
        }
      }
      assert Merge(m, b).fields == m.fields;
    } else if !b.Null? {
      MergeSelf(b);
    }
  }

  /** Wherever `b` has a plain value between an object of `a` and an object of `c`, what `a` has
      there adds nothing to `c`. */
  predicate NothingShows(a: Json, b: Json, c: Json)
  {
    if a.Obj? && b.Obj? && c.Obj? then
      forall k :: k in a.fields && k in b.fields && k in c.fields ==> NothingShows(a.fields[k], b.fields[k], c.fields[k])
    else a.Obj? && b.Leaf? && c.Obj? ==> Merge(a, c) == c
  }

  /** A key of the merge of two objects, and its value. */
  lemma MergeField(a: Json, b: Json, k: string)
    requires a.Obj? && b.Obj?
    ensures k in Merge(a, b).fields <==> k in a.fields || (k in b.fields && !b.fields[k].Null?)
    ensures k in Merge(a, b).fields ==>
              Merge(a, b).fields[k] == if k !in a.fields then b.fields[k]
                                       else if k !in b.fields then a.fields[k]
                                       else Merge(a.fields[k], b.fields[k])
  {}

  lemma UnsharedKey(a: Json, b: Json, c: Json, k: string)
    requires a.Obj? && b.Obj? && c.Obj?
    requires !(k in a.fields && k in b.fields && k in c.fields)
    ensures var l, r := Merge(Merge(a, b), c), Merge(a, Merge(b, c));
            (k in l.fields <==> k in r.fields) && (k in l.fields ==> l.fields[k] == r.fields[k])
  {
    MergeField(a, b, k);
    MergeField(b, c, k);
    MergeField(Merge(a, b), c, k);
    MergeField(a, Merge(b, c), k);
  }

  /** Grouping does not matter exactly when no object of `a` shows through a plain value of `b`. */
  lemma {:induction false} MergeAssociativeIff(a: Json, b: Json, c: Json)
    ensures Merge(Merge(a, b), c) == Merge(a, Merge(b, c)) <==> NothingShows(a, b, c)
  {
    if a.Obj? && b.Obj? && c.Obj? {
      var l, r := Merge(Merge(a, b), c), Merge(a, Merge(b, c));
      forall k | k in a.fields && k in b.fields && k in c.fields
        ensures k in l.fields && k in r.fields
        ensures l.fields[k] == r.fields[k] <==> NothingShows(a.fields[k], b.fields[k], c.fields[k])
      {
        MergeAssociativeIff(a.fields[k], b.fields[k], c.fields[k]);
      }
      forall k | !(k in a.fields && k in b.fields && k in c.fields)
        ensures k in l.fields <==> k in r.fields
        ensures k in l.fields ==> l.fields[k] == r.fields[k]
      {
        UnsharedKey(a, b, c, k);
      }
      if NothingShows(a, b, c) {
        assert l.fields == r.fields;
      }
    }
  }

  /** Grouping can matter: a plain value between two objects at the same key hides the first only when it is merged first. */
  lemma GroupingMatters()
    ensures var (a, b, c) := (Obj(map["k" := Obj(map["x" := Leaf(Number(1))])]),
                              Obj(map["k" := Leaf(Number(2))]),
                              Obj(map["k" := Obj(map["y" := Leaf(Number(3))])]));
            Merge(Merge(a, b), c) != Merge(a, Merge(b, c))
  {
    var a, b := Obj(map["k" := Obj(map["x" := Leaf(Number(1))])]), Obj(map["k" := Leaf(Number(2))]);
    var c := Obj(map["k" := Obj(map["y" := Leaf(Number(3))])]);
    MergeAtPath(Merge(a, b), c, ["k", "x"]);
    MergeAtPath(a, Merge(b, c), ["k", "x"]);
    MergeAssociativeIff(a, b, c);
  }

  /** When no two of three documents disagree on which shared paths are objects, grouping never matters. */
  lemma MergeAssociative(a: Json, b: Json, c: Json)
    requires Agree(a, b)
    ensures Merge(Merge(a, b), c) == Merge(a, Merge(b, c))
  {
    AgreeHides(a, b, c);
    MergeAssociativeIff(a, b, c);
  }

  /** Shared paths are objects on both sides or on neither, nulls aside. */
  predicate Agree(a: Json, b: Json)
  {
    if a.Obj? && b.Obj? then forall k :: k in a.fields && k in b.fields ==> Agree(a.fields[k], b.fields[k])
    else a.Obj? ==> b.Null?
  }

  lemma {:induction false} AgreeHides(a: Json, b: Json, c: Json)
    requires Agree(a, b)
    ensures NothingShows(a, b, c)
  {
    if a.Obj? && b.Obj? && c.Obj? {
      forall k | k in a.fields && k in b.fields && k in c.fields
        ensures NothingShows(a.fields[k], b.fields[k], c.fields[k])
      {
        AgreeHides(a.fields[k], b.fields[k], c.fields[k]);
      }
    }
  }
}
