/** The in-place merge of decoded JSON objects (mergeMaps in bindplane_controller.go): maps live
    on the heap, the target is updated key by key, and subtrees of the source are adopted by
    reference. */
module MergeMaps {
  import opened Json

  /** A decoded JSON value; objects are references. */
  datatype Value = Nil | Plain(atom: Atom) | Ref(o: JsonObject)

  class JsonObject {
    var fields: map<string, Value>
    ghost var Repr: set<JsonObject>

    constructor ()
      ensures Valid() && fresh(Repr) && Tree() == Obj(map[])
    {
      fields := map[];
      Repr := {this};
    }

    /** A tree: every object below is reached by one path only. */
    ghost predicate Valid()
      reads this, Repr
      decreases Repr
    {
      && this in Repr
      && (forall k :: k in fields && fields[k].Ref? ==>
            && fields[k].o in Repr
            && fields[k].o.Repr <= Repr - {this}
            && fields[k].o.Valid())
      && (forall k, l :: k in fields && l in fields && k != l && fields[k].Ref? && fields[l].Ref? ==>
            fields[k].o.Repr !! fields[l].o.Repr)
    }

    /** The document the object stands for. */
    ghost function Tree(): Json
      requires Valid()
      reads this, Repr
      decreases Repr, 0
    {
      Obj(map k | k in fields :: if fields[k].Ref? then fields[k].o.Tree() else Scalar(fields[k]))
    }
  }

  function Scalar(v: Value): Json
    requires !v.Ref?
  {
    match v
    case Nil => Null
    case Plain(a) => Leaf(a)
  }

  ghost predicate ValidValue(v: Value)
    reads if v.Ref? then {v.o} + v.o.Repr else {}
  {
    v.Ref? ==> v.o.Valid()
  }

  ghost function TreeOf(v: Value): Json
    requires ValidValue(v)
    reads if v.Ref? then {v.o} + v.o.Repr else {}
  {
    if v.Ref? then v.o.Tree() else Scalar(v)
  }

  /** `a` with the keys in `done` merged from `b`, the other keys still as they were. */
  function Partial(a: Fields, b: Fields, done: set<string>): Fields
  {
    map k | k in a.Keys + Present(b) * done ::
      if k !in done || k !in b then a[k]
      else if k !in a then b[k]
      else Merge(a[k], b[k])
  }

  lemma PartialDone(a: Fields, b: Fields)
    ensures Obj(Partial(a, b, b.Keys)) == Merge(Obj(a), Obj(b))
  {
    assert Partial(a, b, b.Keys) == Merge(Obj(a), Obj(b)).fields;
  }

  lemma PartialStep(a: Fields, b: Fields, done: set<string>, k: string)
    requires k in b && k !in done
    ensures Partial(a, b, done + {k}) ==
            if b[k].Null? then Partial(a, b, done)
            else Partial(a, b, done)[k := if k in a then Merge(a[k], b[k]) else b[k]]
  {}

  /** A key that was not visited is as it was. */
  lemma PartialAt(a: Fields, b: Fields, done: set<string>, k: string)
    requires k !in done
    ensures k in Partial(a, b, done) <==> k in a
    ensures k in a ==> Partial(a, b, done)[k] == a[k]
  {}

  /** The objects below each key of `b`. */
  ghost function Shares(b: JsonObject): map<string, set<JsonObject>>
    reads b, set k | k in b.fields && b.fields[k].Ref? :: b.fields[k].o
  {
    map k | k in b.fields :: if b.fields[k].Ref? then b.fields[k].o.Repr else {}
  }

  /** A child of `a` holds objects `a` had, and what it adopted from the same key if that is done. */
  ghost predicate Owns(a: JsonObject, own: set<JsonObject>, shares: map<string, set<JsonObject>>, done: set<string>)
    reads a, set k | k in a.fields && a.fields[k].Ref? :: a.fields[k].o
  {
    && own <= a.Repr
    && forall k :: k in a.fields && a.fields[k].Ref? ==>
         a.fields[k].o.Repr <= own + if k in done && k in shares then shares[k] else {}
  }

  /** Merges `b` into `a`, visiting the keys of `b` in any order. Only objects of `a` change, `b`
      keeps its document, and `a` becomes the merge of the two documents. */
  method MergeMaps(a: JsonObject, b: JsonObject)
    requires a.Valid() && b.Valid() && a.Repr !! b.Repr
    modifies a.Repr
    ensures a.Valid() && b.Valid()
    ensures a.Tree() == Merge(old(a.Tree()), old(b.Tree()))
    ensures b.Tree() == old(b.Tree())
    ensures a.Repr <= old(a.Repr) + b.Repr
    decreases b.Repr, 2
  {
    ghost var own := a.Repr;
    ghost var ta, tb := a.Tree().fields, b.Tree().fields;
    var keys := b.fields.Keys;
    ghost var done: set<string> := {};
    assert a.Tree().fields == Partial(ta, tb, {});
    while keys != {}
      invariant keys !! done && keys + done == b.fields.Keys
      invariant a.Valid() && own !! b.Repr && a.Repr <= own + b.Repr
      invariant b.Valid() && b.Tree().fields == tb
      invariant Owns(a, own, Shares(b), done)
      invariant a.Tree().fields == Partial(ta, tb, done)
      decreases keys
    {
      var k :| k in keys;
      MergeKey(a, b, k, own, done, ta, tb);
      keys, done := keys - {k}, done + {k};
    }
    assert done == tb.Keys;
    PartialDone(ta, tb);
  }

  /** One round of the loop of MergeMaps, for key `k`. */
  method MergeKey(a: JsonObject, b: JsonObject, k: string, ghost own: set<JsonObject>, ghost done: set<string>,
                  ghost ta: Fields, ghost tb: Fields)
    requires a.Valid() && b.Valid() && a in own && own !! b.Repr && a.Repr <= own + b.Repr
    requires Owns(a, own, Shares(b), done)
    requires k in b.fields && k !in done && done <= b.fields.Keys
    requires b.Tree().fields == tb && a.Tree().fields == Partial(ta, tb, done)
    modifies own
    ensures a.Valid() && a.Repr <= own + b.Repr
    ensures Owns(a, own, old(Shares(b)), done + {k})
    ensures a.Tree().fields == Partial(ta, tb, done + {k})
    decreases b.Repr, 1
  {
    hide Partial, Merge, Owns, Shares;
    PartialStep(ta, tb, done, k);
    PartialAt(ta, tb, done, k);
    var v := b.fields[k];
    assert tb[k] == TreeOf(v);
    if v == Nil {
      OwnsMore(a, own, Shares(b), done, k);
      return;
    }
    if k in a.fields {
      var av := a.fields[k];
      assert ta[k] == TreeOf(av);
      if av.Ref? && v.Ref? {
        assert Merge(ta[k], tb[k]) == Merge(av.o.Tree(), v.o.Tree());
        Descend(a, b, k, own, done);
        return;
      }
      MergeReplaces(ta[k], tb[k]);
    }
    Assign(a, b, k, own, done);
  }

  /** Anything that is not a merge of two objects replaces. */
  lemma MergeReplaces(a: Json, b: Json)
    requires !b.Null? && !(a.Obj? && b.Obj?)
    ensures Merge(a, b) == b
  {}

  lemma OwnsMore(a: JsonObject, own: set<JsonObject>, shares: map<string, set<JsonObject>>, done: set<string>, k: string)
    requires Owns(a, own, shares, done)
    ensures Owns(a, own, shares, done + {k})
  {}

  /** Both sides have an object at `k`: merge those, and take what the target's child adopted. */
  method Descend(a: JsonObject, b: JsonObject, k: string, ghost own: set<JsonObject>, ghost done: set<string>)
    requires a.Valid() && b.Valid() && a in own && own !! b.Repr && a.Repr <= own + b.Repr
    requires Owns(a, own, Shares(b), done)
    requires k in b.fields && k !in done && k in a.fields && a.fields[k].Ref? && b.fields[k].Ref?
    modifies own
    ensures a.Valid() && a.Repr <= own + b.Repr
    ensures Owns(a, own, old(Shares(b)), done + {k})
    ensures a.Tree().fields == old(a.Tree().fields[k := Merge(a.fields[k].o.Tree(), b.fields[k].o.Tree())])
    decreases b.Repr, 0
  {
    var child := a.fields[k].o;
    ghost var shares := Shares(b);
    ghost var kids := a.Tree().fields[k := Merge(child.Tree(), b.fields[k].o.Tree())];
    SiblingsApart(a, b, k, own, done);
    MergeChild(a, k, b.fields[k].o, kids);
    Grow(a, child.Repr, own, shares, done + {k}, kids);
  }

  /** The recursive call; the other children are not touched by it. */
  method MergeChild(a: JsonObject, k: string, source: JsonObject, ghost kids: Fields)
    requires a.Valid() && k in a.fields && a.fields[k].Ref?
    requires source.Valid() && a !in source.Repr && a.fields[k].o.Repr !! source.Repr
    requires SiblingsClear(a, k, source.Repr)
    requires kids == a.Tree().fields[k := Merge(a.fields[k].o.Tree(), source.Tree())]
    modifies a.fields[k].o.Repr
    ensures a.fields == old(a.fields) && a.Repr == old(a.Repr) && Apart(a, kids)
    ensures a.fields[k].o.Repr <= old(a.fields[k].o.Repr) + source.Repr
    ensures forall l :: l in a.fields && l != k && a.fields[l].Ref? ==> a.fields[l].o.Repr == old(a.fields[l].o.Repr)
    decreases source.Repr, 3
  {
    assert SiblingsClear(a, k, a.fields[k].o.Repr);
    MergeMaps(a.fields[k].o, source);
    forall l | l in a.fields && l != k && a.fields[l].Ref?
      ensures a.fields[l].o.Valid() && a.fields[l].o.Tree() == old(a.fields[l].o.Tree())
    {}
  }

  /** Children are trees, apart from each other and from `a`, with these documents. */
  ghost predicate Apart(a: JsonObject, kids: Fields)
    reads a, set k | k in a.fields && a.fields[k].Ref? :: a.fields[k].o
    reads set k, o | k in a.fields && a.fields[k].Ref? && o in a.fields[k].o.Repr :: o
  {
    && kids.Keys == a.fields.Keys
    && (forall k :: k in a.fields ==>
          && (a.fields[k].Ref? ==> a.fields[k].o.Valid() && a !in a.fields[k].o.Repr)
          && kids[k] == TreeOf(a.fields[k]))
    && (forall k, l :: k in a.fields && l in a.fields && k != l && a.fields[k].Ref? && a.fields[l].Ref? ==>
          a.fields[k].o.Repr !! a.fields[l].o.Repr)
  }

  /** Widens the footprint of `a` to take in what a child adopted. */
  ghost method Grow(a: JsonObject, more: set<JsonObject>, own: set<JsonObject>,
                    shares: map<string, set<JsonObject>>, done: set<string>, kids: Fields)
    requires Apart(a, kids) && a in a.Repr && Owns(a, own, shares, done)
    requires forall k :: k in a.fields && a.fields[k].Ref? ==> a.fields[k].o.Repr <= a.Repr + more
    modifies a`Repr
    ensures a.Repr == old(a.Repr) + more && a.Valid() && a.Tree().fields == kids && Owns(a, own, shares, done)
  {
    a.Repr := a.Repr + more;
    forall k | k in a.fields && a.fields[k].Ref?
      ensures a.fields[k].o.Valid() && a.fields[k].o.Tree() == old(a.fields[k].o.Tree())
    {}
  }

  /** The children at other keys share nothing with what the child at `k` may adopt. */
  lemma SiblingsApart(a: JsonObject, b: JsonObject, k: string, own: set<JsonObject>, done: set<string>)
    requires a.Valid() && b.Valid() && own !! b.Repr && Owns(a, own, Shares(b), done)
    requires k in b.fields && k !in done && b.fields[k].Ref?
    ensures SiblingsClear(a, k, b.fields[k].o.Repr)
  {
    var shares := Shares(b);
    forall l | l in a.fields && l != k && a.fields[l].Ref?
      ensures a.fields[l].o.Repr !! b.fields[k].o.Repr
    {
      assert l in shares ==> shares[l] !! b.fields[k].o.Repr;
    }
  }

  ghost predicate SiblingsClear(a: JsonObject, k: string, taken: set<JsonObject>)
    reads a, set l | l in a.fields && a.fields[l].Ref? :: a.fields[l].o
  {
    forall l :: l in a.fields && l != k && a.fields[l].Ref? ==> a.fields[l].o.Repr !! taken
  }

  /** The source's value replaces whatever the target has at `k`. */
  method Assign(a: JsonObject, b: JsonObject, k: string, ghost own: set<JsonObject>, ghost done: set<string>)
    requires a.Valid() && b.Valid() && a in own && own !! b.Repr && a.Repr <= own + b.Repr
    requires Owns(a, own, Shares(b), done)
    requires k in b.fields && k !in done
    modifies a
    ensures a.Valid() && a.Repr <= own + b.Repr
    ensures Owns(a, own, old(Shares(b)), done + {k})
    ensures a.Tree().fields == old(a.Tree().fields[k := TreeOf(b.fields[k])])
  {
    var v := b.fields[k];
    ghost var kids := a.Tree().fields[k := TreeOf(v)];
    ghost var shares := Shares(b);
    if v.Ref? {
      SiblingsApart(a, b, k, own, done);
    }
    Put(a, k, v, kids);
    Grow(a, if v.Ref? then v.o.Repr else {}, own, shares, done + {k}, kids);
  }

  method Put(a: JsonObject, k: string, v: Value, ghost kids: Fields)
    requires a.Valid() && ValidValue(v) && (v.Ref? ==> a !in v.o.Repr && SiblingsClear(a, k, v.o.Repr))
    requires kids == a.Tree().fields[k := TreeOf(v)]
    modifies a`fields
    ensures a.fields == old(a.fields)[k := v] && Apart(a, kids)
  {
    a.fields := a.fields[k := v];
  }

  // ---------------------------------------------------------------- to objects and back

  /** Hangs a value that shares nothing with `a` under a new key. */
  method Attach(a: JsonObject, k: string, v: Value)
    requires a.Valid() && k !in a.fields && ValidValue(v) && (v.Ref? ==> a.Repr !! v.o.Repr)
    modifies a
    ensures a.Valid() && a.Repr == old(a.Repr) + if v.Ref? then v.o.Repr else {}
    ensures a.Tree().fields == old(a.Tree().fields[k := TreeOf(v)])
  {
    ghost var kids := a.Tree().fields[k := TreeOf(v)];
    ghost var own := {a};
    ghost var shares := Shares(a)[k := if v.Ref? then v.o.Repr else {}];
    Put(a, k, v, kids);
    Grow(a, if v.Ref? then v.o.Repr else {}, own, shares, shares.Keys, kids);
  }

  /** Decodes a document into fresh objects that form a tree. */
  method Decode(document: Json) returns (o: JsonObject)
    requires document.Obj?
    ensures o.Valid() && fresh(o.Repr) && o.Tree() == document
    decreases document
  {
    var f := document.fields;
    o := new JsonObject();
    var keys := f.Keys;
    ghost var done: set<string> := {};
    while keys != {}
      invariant keys !! done && keys + done == f.Keys
      invariant o.Valid() && fresh(o.Repr)
      invariant o.Tree().fields == map k | k in done :: f[k]
      decreases keys
    {
      var k :| k in keys;
      assert k !in o.Tree().fields;
      var v := DecodeValue(document, k);
      Attach(o, k, v);
      keys, done := keys - {k}, done + {k};
    }
    assert o.Tree().fields == f;
  }

  method DecodeValue(document: Json, k: string) returns (v: Value)
    requires document.Obj? && k in document.fields
    ensures ValidValue(v) && (v.Ref? ==> fresh(v.o.Repr)) && TreeOf(v) == document.fields[k]
    decreases document, 0
  {
    match document.fields[k]
    case Null => v := Nil;
    case Leaf(atom) => v := Plain(atom);
    case Obj(_) =>
      var o := Decode(document.fields[k]);
      v := Ref(o);
  }

  /** Encodes a tree of objects as a document. */
  method Encode(o: JsonObject) returns (document: Json)
    requires o.Valid()
    ensures document == o.Tree()
    decreases o.Repr
  {
    var f: Fields := map[];
    var keys := o.fields.Keys;
    while keys != {}
      invariant keys <= o.fields.Keys
      invariant f == map k | k in o.fields && k !in keys :: o.Tree().fields[k]
      decreases keys
    {
      var k :| k in keys;
      var v := o.fields[k];
      if v.Ref? {
        var child := Encode(v.o);
        f := f[k := child];
      } else {
        f := f[k := Scalar(v)];
      }
      keys := keys - {k};
    }
    document := Obj(f);
  }

  /** Decodes both documents, merges the objects in place, and encodes the result. */
  method MergeDocuments(base: Fields, over: Fields) returns (merged: Fields)
    ensures merged == Merge(Obj(base), Obj(over)).fields
  {
    var a := Decode(Obj(base));
    var b := Decode(Obj(over));
    MergeMaps(a, b);
    var document := Encode(a);
    merged := document.fields;
  }
}
