/** Selector keys a Service keeps from the live object: the list travels in an annotation
    (newService and reconcileService in bindplane_controller.go). */
module ServiceSelector {
  import opened Text

  /** Written by the service builder. */
  function Annotation(keys: seq<string>): string { Join(keys, ',') }

  /** Read back: cut at commas, trim, drop empty pieces. */
  function KeysOf(annotation: string): seq<string>
  {
    NonEmpty(Split(annotation, ','))
  }

  function NonEmpty(parts: seq<string>): seq<string>
  {
    if parts == [] then []
    else (if Trim(parts[0]) == "" then [] else [Trim(parts[0])]) + NonEmpty(parts[1..])
  }

  lemma {:induction false} NonEmptyFrom(parts: seq<string>, k: string)
    requires k in NonEmpty(parts)
    ensures k != "" && Trimmed(k) && exists p :: p in parts && k == Trim(p)
  {
    TrimTrims(parts[0]);
    if k == Trim(parts[0]) && k != "" {
      assert parts[0] in parts;
    } else {
      NonEmptyFrom(parts[1..], k);
      var p :| p in parts[1..] && k == Trim(p);
      assert p in parts;
    }
  }

  /** A key that survives the trip through the annotation. */
  predicate Portable(key: string) { key != "" && ',' !in key && Trimmed(key) }

  /** The key list read back is the one written exactly when every key is non-empty, comma-free and trimmed. */
  lemma AnnotationRoundTripIff(keys: seq<string>)
    ensures KeysOf(Annotation(keys)) == keys <==> forall k :: k in keys ==> Portable(k)
  {
    if forall k :: k in keys ==> Portable(k) {
      if keys == [] {
        assert Split("", ',') == [""];
        TrimTrims("");
        assert NonEmpty([""]) == NonEmpty([""][1..]) == [];
      } else {
        SplitJoin(keys, ',');
        NonEmptyKeeps(keys);
      }
    } else {
      var k :| k in keys && !Portable(k);
      if k in KeysOf(Annotation(keys)) {
        NonEmptyFrom(Split(Annotation(keys), ','), k);
        var p :| p in Split(Annotation(keys), ',') && k == Trim(p);
        TrimTrims(p);
      }
    }
  }

  lemma {:induction false} NonEmptyKeeps(keys: seq<string>)
    requires forall k :: k in keys ==> Portable(k)
    ensures NonEmpty(keys) == keys
  {
    if keys != [] {
      assert Portable(keys[0]);
      TrimTrims(keys[0]);
      NonEmptyKeeps(keys[1..]);
      assert keys == [keys[0]] + keys[1..];
    }
  }

  /** `base` with every listed key that the live selector has taken from it. */
  function Kept(base: map<string, string>, live: map<string, string>, keys: seq<string>): map<string, string>
  {
    base + map k | k in live && k in keys :: live[k]
  }

  lemma KeptSnoc(base: map<string, string>, live: map<string, string>, keys: seq<string>, key: string)
    ensures var kept := Kept(base, live, keys);
            Kept(base, live, keys + [key]) == if key in live then kept[key := live[key]] else kept
  {}

  lemma KeptNext(base: map<string, string>, live: map<string, string>, parts: seq<string>, i: nat)
    requires i < |parts|
    ensures var kept, key := Kept(base, live, NonEmpty(parts[..i])), Trim(parts[i]);
            Kept(base, live, NonEmpty(parts[..i + 1])) == if key != "" && key in live then kept[key := live[key]] else kept
  {
    assert parts[..i + 1] == parts[..i] + [parts[i]];
    NonEmptySnoc(parts[..i], parts[i]);
    KeptSnoc(base, live, NonEmpty(parts[..i]), Trim(parts[i]));
  }

  /** Copies the listed keys of the live selector into the desired one. */
  method PreserveSelectorKeys(base: map<string, string>, live: map<string, string>, annotation: string)
    returns (selector: map<string, string>)
    ensures selector == Kept(base, live, KeysOf(annotation))
  {
    var parts := Split(annotation, ',');
    selector := base;
    for i := 0 to |parts|
      invariant selector == Kept(base, live, NonEmpty(parts[..i]))
    {
      KeptNext(base, live, parts, i);
      var key := Trim(parts[i]);
      if key != "" && key in live {
        selector := selector[key := live[key]];
      }
    }
    assert parts[..|parts|] == parts;
  }

  lemma {:induction false} NonEmptySnoc(parts: seq<string>, last: string)
    ensures NonEmpty(parts + [last]) == NonEmpty(parts) + if Trim(last) == "" then [] else [Trim(last)]
  {
    if parts == [] {
      assert (parts + [last])[1..] == [];
    } else {
      assert (parts + [last])[1..] == parts[1..] + [last];
      NonEmptySnoc(parts[1..], last);
    }
  }

  /** The label Argo Rollouts writes to the active Service. */
  const ROLLOUT_HASH := "rollouts-pod-template-hash"

  /** The hash key reaches the reconciler and is kept, while keys that are not listed come from the operator. */
  lemma RolloutHashKept(base: map<string, string>, live: map<string, string>)
    requires ROLLOUT_HASH !in base
    ensures KeysOf(Annotation([ROLLOUT_HASH])) == [ROLLOUT_HASH]
    ensures var kept := Kept(base, live, KeysOf(Annotation([ROLLOUT_HASH])));
            && (ROLLOUT_HASH in kept <==> ROLLOUT_HASH in live)
            && (ROLLOUT_HASH in live ==> kept[ROLLOUT_HASH] == live[ROLLOUT_HASH])
            && (forall k :: k != ROLLOUT_HASH ==> (k in kept <==> k in base) && (k in base ==> kept[k] == base[k]))
  {
    var h := ROLLOUT_HASH;
    assert h[0] == 'r' && h[|h| - 1] == 'h';
    assert Portable(h);
    AnnotationRoundTripIff([h]);
  }

  /** Key by key: the live value of a listed key, even over one of the operator's, and else what the operator wants. */
  lemma KeptByKey(base: map<string, string>, live: map<string, string>, keys: seq<string>, k: string)
    ensures k in keys && k in live ==> k in Kept(base, live, keys) && Kept(base, live, keys)[k] == live[k]
    ensures k !in keys || k !in live ==>
              (k in Kept(base, live, keys) <==> k in base) && (k in base ==> Kept(base, live, keys)[k] == base[k])
  {}

  /** Preserving twice is preserving once. */
  lemma KeptStable(base: map<string, string>, live: map<string, string>, keys: seq<string>)
    ensures Kept(base, Kept(base, live, keys), keys) == Kept(base, live, keys)
  {}
}
