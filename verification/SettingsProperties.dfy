/** What merging, setting and storing settings keep (src/settings.rs). */
module SettingsProperties {
  import opened Basics
  import opened DottedPaths
  import opened Decimals
  import opened SettingsTree

  // ---------------------------------------------------------------- trees that fit a shape

  lemma {:induction false} DefaultFits(shape: Shape)
    requires Proper(shape)
    ensures Fits(shape, Default(shape))
  {
    if shape.Section? {
      forall k | k in shape.fields ensures Fits(shape.fields[k], Default(shape.fields[k])) {
        DefaultFits(shape.fields[k]);
      }
    }
  }

  lemma {:induction false} DefaultAt(shape: Shape, p: Path)
    requires IsLeaf(shape, p)
    ensures At(Default(shape), p) == Some(KindDefault(KindAt(shape, p)))
  {
    if p != [] {
      DefaultAt(shape.fields[p[0]], p[1..]);
    }
  }

  /** Nothing is at a path of a fitting tree that the shape does not have. */
  lemma {:induction false} FitsAt(shape: Shape, j: Json, p: Path)
    requires Fits(shape, j)
    ensures ShapeAt(shape, p).Some? <==> At(j, p).Some?
    ensures At(j, p).Some? ==> Fits(ShapeAt(shape, p).value, At(j, p).value)
  {
    if p != [] && shape.Section? && p[0] in shape.fields {
      FitsAt(shape.fields[p[0]], j.fields[p[0]], p[1..]);
    }
  }

  /** A fitting tree is determined by its leaves. */
  lemma {:induction false} SameLeaves(shape: Shape, a: Json, b: Json)
    requires Fits(shape, a) && Fits(shape, b)
    requires forall p :: IsLeaf(shape, p) ==> At(a, p) == At(b, p)
    ensures a == b
  {
    match shape {
      case Leaf(_) =>
        assert IsLeaf(shape, []);
      case Section(fields, _) =>
        forall k | k in fields ensures a.fields[k] == b.fields[k] {
          forall p | IsLeaf(fields[k], p) ensures At(a.fields[k], p) == At(b.fields[k], p) {
            assert ([k] + p)[1..] == p;
            assert IsLeaf(shape, [k] + p);
          }
          SameLeaves(fields[k], a.fields[k], b.fields[k]);
        }
        assert a.fields == b.fields;
    }
  }

  /** Reading back what was written changes nothing. */
  lemma {:induction false} ReadFits(shape: Shape, j: Json)
    requires Proper(shape) && Fits(shape, j)
    ensures Read(shape, j) == Some(j)
  {
    if shape.Section? {
      forall k | k in shape.fields ensures ReadField(shape, j.fields, k) == Some(j.fields[k]) {
        ReadFits(shape.fields[k], j.fields[k]);
      }
      assert (map k | k in shape.fields :: ReadField(shape, j.fields, k).value) == j.fields;
    }
  }

  // ---------------------------------------------------------------- merging

  /**
   Merging is decided leaf by leaf: the overlay's value where it differs from the default, the
   base's elsewhere.
   */
  lemma {:induction false} MergeIsLeafwise(shape: Shape, base: Json, overlay: Json, defaults: Json)
    requires Fits(shape, base) && Fits(shape, overlay) && Fits(shape, defaults)
    ensures Fits(shape, Merge(base, overlay, defaults))
    ensures forall p :: IsLeaf(shape, p) ==>
      At(Merge(base, overlay, defaults), p) == if At(overlay, p) != At(defaults, p) then At(overlay, p) else At(base, p)
  {
    MergeFits(shape, base, overlay, defaults);
    forall p | IsLeaf(shape, p)
      ensures At(Merge(base, overlay, defaults), p) == if At(overlay, p) != At(defaults, p) then At(overlay, p) else At(base, p)
    {
      MergeAt(shape, base, overlay, defaults, p);
    }
  }

  lemma {:induction false} MergeFits(shape: Shape, base: Json, overlay: Json, defaults: Json)
    requires Fits(shape, base) && Fits(shape, overlay) && Fits(shape, defaults)
    ensures Fits(shape, Merge(base, overlay, defaults))
  {
    if shape.Section? {
      forall k | k in shape.fields
        ensures Fits(shape.fields[k], Merge(base.fields[k], overlay.fields[k], defaults.fields[k]))
      {
        MergeFits(shape.fields[k], base.fields[k], overlay.fields[k], defaults.fields[k]);
      }
    }
  }

  lemma {:induction false} MergeAt(shape: Shape, base: Json, overlay: Json, defaults: Json, p: Path)
    requires Fits(shape, base) && Fits(shape, overlay) && Fits(shape, defaults) && IsLeaf(shape, p)
    ensures At(Merge(base, overlay, defaults), p) == if At(overlay, p) != At(defaults, p) then At(overlay, p) else At(base, p)
  {
    if p != [] {
      var k := p[0];
      MergeAt(shape.fields[k], base.fields[k], overlay.fields[k], defaults.fields[k], p[1..]);
    }
  }

  /** The merged tree always reads back, so `merge_from` never falls back to the base. */
  lemma MergeFromMerges(shape: Shape, base: Json, overlay: Json)
    requires Proper(shape) && Fits(shape, base) && Fits(shape, overlay)
    ensures MergeFrom(shape, base, overlay) == Merge(base, overlay, Default(shape))
    ensures Fits(shape, MergeFrom(shape, base, overlay))
  {
    DefaultFits(shape);
    MergeFits(shape, base, overlay, Default(shape));
    ReadFits(shape, Merge(base, overlay, Default(shape)));
  }

  lemma MergeFromAt(shape: Shape, base: Json, overlay: Json)
    requires Proper(shape) && Fits(shape, base) && Fits(shape, overlay)
    ensures Fits(shape, MergeFrom(shape, base, overlay))
    ensures forall p :: IsLeaf(shape, p) ==>
      At(MergeFrom(shape, base, overlay), p) ==
      if At(overlay, p) != Some(KindDefault(KindAt(shape, p))) then At(overlay, p) else At(base, p)
  {
    MergeFromMerges(shape, base, overlay);
    DefaultFits(shape);
    MergeIsLeafwise(shape, base, overlay, Default(shape));
    forall p | IsLeaf(shape, p) ensures At(Default(shape), p) == Some(KindDefault(KindAt(shape, p))) {
      DefaultAt(shape, p);
    }
  }

  /** Layers can be merged in any grouping. */
  lemma MergeAssociative(shape: Shape, a: Json, b: Json, c: Json)
    requires Proper(shape) && Fits(shape, a) && Fits(shape, b) && Fits(shape, c)
    ensures MergeFrom(shape, MergeFrom(shape, a, b), c) == MergeFrom(shape, a, MergeFrom(shape, b, c))
  {
    MergeFromAt(shape, a, b);
    MergeFromAt(shape, b, c);
    MergeFromAt(shape, MergeFrom(shape, a, b), c);
    MergeFromAt(shape, a, MergeFrom(shape, b, c));
    SameLeaves(shape, MergeFrom(shape, MergeFrom(shape, a, b), c), MergeFrom(shape, a, MergeFrom(shape, b, c)));
  }

  /** The defaults are an identity on both sides. */
  lemma MergeIdentity(shape: Shape, a: Json)
    requires Proper(shape) && Fits(shape, a)
    ensures MergeFrom(shape, a, Default(shape)) == a
    ensures MergeFrom(shape, Default(shape), a) == a
  {
    DefaultFits(shape);
    forall p | IsLeaf(shape, p) ensures At(Default(shape), p) == Some(KindDefault(KindAt(shape, p))) {
      DefaultAt(shape, p);
    }
    MergeFromAt(shape, a, Default(shape));
    SameLeaves(shape, MergeFrom(shape, a, Default(shape)), a);
    MergeFromAt(shape, Default(shape), a);
    SameLeaves(shape, MergeFrom(shape, Default(shape), a), a);
  }

  /**
   Recovering the set-up wizard: loading what was stored over the choices of step 1 and then
   re-applying these keeps every choice that is not a default, and is the same as applying the
   choices to what was stored.
   */
  lemma WizardRecovers(shape: Shape, step1: Json, stored: Json)
    requires Proper(shape) && Fits(shape, step1) && Fits(shape, stored)
    ensures MergeFrom(shape, MergeFrom(shape, step1, stored), step1) == MergeFrom(shape, stored, step1)
    ensures forall p :: IsLeaf(shape, p) && At(step1, p) != Some(KindDefault(KindAt(shape, p))) ==>
      At(MergeFrom(shape, MergeFrom(shape, step1, stored), step1), p) == At(step1, p)
  {
    MergeFromAt(shape, step1, stored);
    MergeFromAt(shape, stored, step1);
    MergeFromAt(shape, MergeFrom(shape, step1, stored), step1);
    SameLeaves(shape, MergeFrom(shape, MergeFrom(shape, step1, stored), step1), MergeFrom(shape, stored, step1));
  }

  // ---------------------------------------------------------------- setting one node

  function Put(j: Json, p: Path, v: Json): Json
    requires At(j, p).Some?
  {
    if p == [] then v else Obj(j.fields[p[0] := Put(j.fields[p[0]], p[1..], v)])
  }

  lemma {:induction false} PutSame(j: Json, p: Path)
    requires At(j, p).Some?
    ensures Put(j, p, At(j, p).value) == j
  {
    if p != [] { PutSame(j.fields[p[0]], p[1..]); }
  }

  /** Putting `v` at node `q` changes what is under `q` and no leaf besides. */
  lemma {:induction false} PutAt(shape: Shape, j: Json, q: Path, v: Json, p: Path)
    requires Fits(shape, j) && ShapeAt(shape, q).Some? && At(j, q).Some? && IsLeaf(shape, p)
    ensures At(Put(j, q, v), p) == if q <= p then At(v, p[|q|..]) else At(j, p)
  {
    if q == [] {
      assert p[0..] == p;
    } else if p[0] == q[0] {
      PutAt(shape.fields[q[0]], j.fields[q[0]], q[1..], v, p[1..]);
      assert q <= p <==> q[1..] <= p[1..];
      assert q <= p ==> p[|q|..] == p[1..][|q[1..]|..];
    }
  }

  lemma {:induction false} PutFits(shape: Shape, j: Json, q: Path, v: Json)
    requires Fits(shape, j) && ShapeAt(shape, q).Some? && At(j, q).Some? && Fits(ShapeAt(shape, q).value, v)
    ensures Fits(shape, Put(j, q, v))
  {
    if q != [] { PutFits(shape.fields[q[0]], j.fields[q[0]], q[1..], v); }
  }

  lemma ReadWithChild(shape: Shape, j: Json, name: string, v: Json)
    requires Proper(shape) && Fits(shape, j) && shape.Section? && name in shape.fields
    ensures Read(shape, Obj(j.fields[name := v])) ==
      match Read(shape.fields[name], v)
      case None => None
      case Some(read) => Some(Obj(j.fields[name := read]))
  {
    var o := j.fields[name := v];
    forall k | k in shape.fields && k != name ensures ReadField(shape, o, k) == Some(j.fields[k]) {
      ReadFits(shape.fields[k], j.fields[k]);
    }
    assert ReadField(shape, o, name) == Read(shape.fields[name], v);
    if Read(shape.fields[name], v).Some? {
      assert (map k | k in shape.fields :: ReadField(shape, o, k).value) == j.fields[name := Read(shape.fields[name], v).value];
    }
  }

  /** Reading checks the changed node and nothing else. */
  lemma {:induction false} ReadPut(shape: Shape, j: Json, q: Path, v: Json)
    requires Proper(shape) && Fits(shape, j) && ShapeAt(shape, q).Some? && At(j, q).Some?
    ensures Read(shape, Put(j, q, v)) ==
      match Read(ShapeAt(shape, q).value, v)
      case None => None
      case Some(read) => Some(Put(j, q, read))
  {
    if q != [] {
      ReadPut(shape.fields[q[0]], j.fields[q[0]], q[1..], v);
      ReadWithChild(shape, j, q[0], Put(j.fields[q[0]], q[1..], v));
    }
  }

  lemma {:induction false} PlaceNode(codec: Codec, shape: Shape, j: Json, q: Path, text: string)
    requires Fits(shape, j) && q != [] && ShapeAt(shape, q).Some? && At(j, q).Some?
    ensures Place(codec, j, q, text) ==
      match Convert(codec, At(j, q), text)
      case Err(e) => Err(e)
      case Ok(v) => Ok(Put(j, q, v))
  {
    if |q| > 1 { PlaceNode(codec, shape.fields[q[0]], j.fields[q[0]], q[1..], text); }
  }

  /**
   Setting a node, leaf or section, fails exactly when the text does not convert or does not read as
   that node; it then changes nothing, and otherwise puts what was read in the node's place.
   */
  lemma SetChangesOneNode(codec: Codec, shape: Shape, j: Json, q: Path, text: string)
    requires Proper(shape) && Fits(shape, j) && q != [] && ShapeAt(shape, q).Some? && PlainPath(q)
    ensures At(j, q).Some?
    ensures AfterSet(codec, shape, j, Join(q), text) == Put(j, q, NewNode(codec, ShapeAt(shape, q).value, At(j, q).value, text))
    ensures Set(codec, shape, j, Join(q), text).Ok? <==>
      var v := Convert(codec, At(j, q), text);
      v.Ok? && Read(ShapeAt(shape, q).value, v.value).Some?
  {
    SplitJoin(q);
    FitsAt(shape, j, q);
    PlaceNode(codec, shape, j, q, text);
    PutSame(j, q);
    var v := Convert(codec, At(j, q), text);
    if v.Ok? { ReadPut(shape, j, q, v.value); }
  }

  lemma NewNodeFits(codec: Codec, shape: Shape, existing: Json, text: string)
    requires Proper(shape) && Fits(shape, existing)
    ensures Fits(shape, NewNode(codec, shape, existing, text))
  {
    var v := Convert(codec, Some(existing), text);
    if v.Ok? { ReadingFits(shape, v.value); }
  }

  /** Whatever is read is a settings tree, also when a whole section was written. */
  lemma {:induction false} ReadingFits(shape: Shape, j: Json)
    requires Proper(shape)
    ensures Read(shape, j).Some? ==> Fits(shape, Read(shape, j).value)
  {
    if shape.Section? && Read(shape, j).Some? {
      forall k | k in shape.fields ensures Fits(shape.fields[k], ReadField(shape, j.fields, k).value) {
        var given := FieldJson(shape.alias, j.fields, k);
        if given.Some? {
          ReadingFits(shape.fields[k], given.value);
        } else {
          DefaultFits(shape.fields[k]);
        }
      }
    }
  }

  lemma {:induction false} ProperAt(shape: Shape, p: Path)
    requires Proper(shape) && ShapeAt(shape, p).Some?
    ensures Proper(ShapeAt(shape, p).value) && PlainPath(p)
  {
    if p != [] {
      ProperAt(shape.fields[p[0]], p[1..]);
      forall k | 0 <= k < |p| ensures PlainName(p[k]) {
        if k > 0 {
          assert p[k] == p[1..][k - 1];
        }
      }
    }
  }

  /** At a leaf: that leaf holds the new value, if the type accepts it, and no other leaf changes. */
  lemma SetChangesOneLeaf(codec: Codec, shape: Shape, j: Json, p: Path, text: string)
    requires Proper(shape) && Fits(shape, j) && IsLeaf(shape, p) && p != []
    ensures At(j, p).Some?
    ensures Fits(shape, AfterSet(codec, shape, j, Join(p), text))
    ensures forall q :: IsLeaf(shape, q) ==>
      At(AfterSet(codec, shape, j, Join(p), text), q) ==
      if q == p then Some(NewLeaf(codec, KindAt(shape, p), At(j, p).value, text)) else At(j, q)
    ensures Set(codec, shape, j, Join(p), text).Ok? <==>
      var v := Convert(codec, At(j, p), text);
      v.Ok? && Accepts(KindAt(shape, p), v.value)
  {
    ProperAt(shape, p);
    FitsAt(shape, j, p);
    SetChangesOneNode(codec, shape, j, p, text);
    var v := NewLeaf(codec, KindAt(shape, p), At(j, p).value, text);
    NewNodeFits(codec, ShapeAt(shape, p).value, At(j, p).value, text);
    PutFits(shape, j, p, v);
    forall q | IsLeaf(shape, q) ensures At(Put(j, p, v), q) == if q == p then Some(v) else At(j, q) {
      PutAt(shape, j, p, v, q);
      NothingUnderALeaf(shape, p, q);
      assert p == q ==> q[|p|..] == [];
    }
  }

  lemma {:induction false} NothingUnderALeaf(shape: Shape, p: Path, q: Path)
    requires IsLeaf(shape, p) && ShapeAt(shape, q).Some?
    ensures p <= q ==> p == q
  {
    if p != [] && q != [] && p[0] == q[0] {
      NothingUnderALeaf(shape.fields[p[0]], p[1..], q[1..]);
      assert p == [p[0]] + p[1..] && q == [q[0]] + q[1..];
    }
  }

  // ---------------------------------------------------------------- setting what is not a leaf

  /** Where a path that the shape does not have would hang, if anywhere. */
  predicate Hangs(shape: Shape, p: Path)
    requires p != []
  {
    var parent := ShapeAt(shape, p[..|p| - 1]);
    parent.Some? && parent.value.Section?
  }

  predicate IsAlias(shape: Shape, p: Path)
    requires p != [] && Hangs(shape, p)
  {
    p[|p| - 1] in ShapeAt(shape, p[..|p| - 1]).value.alias.Values
  }

  lemma {:induction false} PlaceStray(codec: Codec, shape: Shape, j: Json, p: Path, text: string)
    requires Proper(shape) && Fits(shape, j) && p != [] && ShapeAt(shape, p).None?
    ensures Place(codec, j, p, text).Ok? <==> Hangs(shape, p)
    ensures Hangs(shape, p) ==>
      Read(shape, Place(codec, j, p, text).value) == if IsAlias(shape, p) then None else Some(j)
  {
    if |p| == 1 {
      assert p[..0] == [];
      assert At(j, p).None? && p[1..] == [];
      if shape.Section? {
        ReadWithStray(shape, j, p[0], Place(codec, j, p, text).value.fields[p[0]]);
      }
    } else if shape.Section? && p[0] in shape.fields {
      var rest := p[1..];
      assert p[..|p| - 1][1..] == rest[..|rest| - 1];
      PlaceStray(codec, shape.fields[p[0]], j.fields[p[0]], rest, text);
      if Hangs(shape, p) {
        assert j.fields[p[0] := j.fields[p[0]]] == j.fields;
        ReadWithChild(shape, j, p[0], Place(codec, j.fields[p[0]], rest, text).value);
      }
    } else {
      assert p[..|p| - 1][0] == p[0];
    }
  }

  lemma ReadWithStray(shape: Shape, j: Json, name: string, v: Json)
    requires Proper(shape) && Fits(shape, j) && shape.Section? && name !in shape.fields
    ensures Read(shape, Obj(j.fields[name := v])) == if name in shape.alias.Values then None else Some(j)
  {
    var o := j.fields[name := v];
    forall k | k in shape.fields ensures ReadField(shape, o, k) == Some(j.fields[k]) {
      ReadFits(shape.fields[k], j.fields[k]);
    }
    assert (map k | k in shape.fields :: ReadField(shape, o, k).value) == j.fields;
    if name in shape.alias.Values {
      var k :| k in shape.alias && shape.alias[k] == name;
      assert k in o && shape.alias[k] in o;
    }
  }

  /**
   A path that is not in the settings never changes them. The call still reports success
   exactly when the parent is a section and the name is not a second name of one of its fields.
   */
  lemma StrayPathsChangeNothing(codec: Codec, shape: Shape, j: Json, path: string, text: string)
    requires Proper(shape) && Fits(shape, j) && ShapeAt(shape, Split(path)).None?
    ensures AfterSet(codec, shape, j, path, text) == j
    ensures Set(codec, shape, j, path, text).Ok? <==> Hangs(shape, Split(path)) && !IsAlias(shape, Split(path))
  {
    PlaceStray(codec, shape, j, Split(path), text);
  }

  // ---------------------------------------------------------------- which values a leaf can be set to

  /** The targets that `set` cannot reach through the target's own text. */
  predicate Stuck(codec: Codec, existing: Json, target: Json) {
    || (existing.Null? && target.Str? && codec.read(target.s).Some?)
    || (!existing.Null? && target.Null?)
    || (existing.Num? && existing.n >= 0 && target.Num? && target.n < 0)
  }

  /**
   Writing the text of a value over a value of the same type stores that value, except in
   three cases: a text that is itself JSON over an unset field, clearing a set field, and a
   negative number over a non-negative one.
   */
  lemma TextStoresItsValueIff(codec: Codec, kind: Kind, existing: Json, target: Json)
    requires Faithful(codec) && ProperKind(kind) && Accepts(kind, existing) && Accepts(kind, target)
    ensures NewLeaf(codec, kind, existing, Shown(codec, target)) == target <==> !Stuck(codec, existing, target)
  {
    match existing {
      case Null => OverUnset(codec, kind, target);
      case Num(_) => OverNumber(codec, kind, existing, target);
      case Arr(_) => assert Accepts(Texts, target);
      case _ =>
    }
  }

  lemma OverUnset(codec: Codec, kind: Kind, target: Json)
    requires Faithful(codec) && ProperKind(kind) && Accepts(kind, Null) && Accepts(kind, target)
    ensures NewLeaf(codec, kind, Null, Shown(codec, target)) == target <==> !(target.Str? && codec.read(target.s).Some?)
  {
    if target.Str? {
      assert codec.read(target.s) != Some(Str(target.s));
    }
  }

  lemma OverNumber(codec: Codec, kind: Kind, existing: Json, target: Json)
    requires ProperKind(kind) && Accepts(kind, existing) && Accepts(kind, target) && existing.Num?
    ensures NewLeaf(codec, kind, existing, Shown(codec, target)) == target <==>
      !target.Null? && (existing.n >= 0 && target.Num? ==> target.n >= 0)
  {
    NullIsNoNumber();
    if target.Num? {
      ReadShow(target.n);
    }
  }

  lemma GetLeaf(codec: Codec, shape: Shape, j: Json, p: Path)
    requires Proper(shape) && Fits(shape, j) && IsLeaf(shape, p) && p != []
    ensures At(j, p).Some? && Accepts(KindAt(shape, p), At(j, p).value)
    ensures Get(codec, j, Join(p)) == Some(Shown(codec, At(j, p).value))
  {
    ProperAt(shape, p);
    SplitJoin(p);
    FitsAt(shape, j, p);
  }

  /** Writing back what `get` answers changes nothing, at every leaf and every section. */
  lemma WriteBackChangesNothing(codec: Codec, shape: Shape, j: Json, q: Path)
    requires Faithful(codec) && FaithfulOn(codec, shape)
    requires Proper(shape) && Fits(shape, j) && ShapeAt(shape, q).Some? && q != []
    ensures Get(codec, j, Join(q)).Some?
    ensures AfterSet(codec, shape, j, Join(q), Get(codec, j, Join(q)).value) == j
  {
    ProperAt(shape, q);
    SplitJoin(q);
    FitsAt(shape, j, q);
    var node, v := ShapeAt(shape, q).value, At(j, q).value;
    SetChangesOneNode(codec, shape, j, q, Shown(codec, v));
    if node.Leaf? {
      TextStoresItsValueIff(codec, node.kind, v, v);
    } else {
      assert codec.read(codec.show(v)) == Some(v);
      ReadFits(node, v);
    }
    PutSame(j, q);
  }

  /** Resetting restores the default of a leaf unless it is a set optional field. */
  lemma ResetRestoresIff(codec: Codec, shape: Shape, j: Json, p: Path)
    requires Faithful(codec) && Proper(shape) && Fits(shape, j) && IsLeaf(shape, p) && p != []
    ensures At(j, p).Some?
    ensures
      var initial := KindDefault(KindAt(shape, p));
      At(Reset(codec, shape, j, Join(p)), p) == Some(initial) <==> !(initial.Null? && !At(j, p).value.Null?)
    ensures forall q :: IsLeaf(shape, q) && q != p ==> At(Reset(codec, shape, j, Join(p)), q) == At(j, q)
  {
    ProperAt(shape, p);
    DefaultFits(shape);
    DefaultAt(shape, p);
    GetLeaf(codec, shape, Default(shape), p);
    GetLeaf(codec, shape, j, p);
    var initial := KindDefault(KindAt(shape, p));
    SetChangesOneLeaf(codec, shape, j, p, Shown(codec, initial));
    TextStoresItsValueIff(codec, KindAt(shape, p), At(j, p).value, initial);
  }

  // ---------------------------------------------------------------- loading and storing

  lemma LoadStarts(codec: Codec, shape: Shape, db: DbMap)
    requires Proper(shape)
    ensures Loaded(codec, shape, db, {}, Default(shape))
  {
    DefaultFits(shape);
    forall p | IsLeaf(shape, p) ensures At(Default(shape), p) == Some(KindDefault(KindAt(shape, p))) {
      DefaultAt(shape, p);
    }
  }

  /** A path on the way to a leaf is in the shape. */
  lemma {:induction false} PrefixInShape(shape: Shape, p: Path, n: nat)
    requires ShapeAt(shape, p).Some? && n <= |p|
    ensures ShapeAt(shape, p[..n]).Some?
  {
    if n > 0 {
      PrefixInShape(shape.fields[p[0]], p[1..], n - 1);
      assert p[..n][1..] == p[1..][..n - 1];
    }
  }

  lemma StrayIsOffTheWay(shape: Shape, p: Path, q: Path)
    requires ShapeAt(shape, p).Some? && ShapeAt(shape, q).None?
    ensures !(q <= p)
  {
    assert q <= p ==> p[..|q|] == q;
    if q <= p { PrefixInShape(shape, p, |q|); }
  }

  /** Which keys a leaf's prefixes are. */
  lemma KeyOfPrefix(shape: Shape, p: Path, n: nat, key: string)
    requires Proper(shape) && IsLeaf(shape, p) && 0 < n <= |p|
    ensures Join(p[..n]) == key <==> Split(key) == p[..n]
  {
    ProperAt(shape, p);
    SplitJoin(p[..n]);
    JoinSplit(key);
  }

  /** A key that is not on the way to a leaf does not matter to it. */
  lemma CoverWithout(shape: Shape, done: set<string>, p: Path, key: string)
    requires Proper(shape) && IsLeaf(shape, p) && !(Split(key) <= p)
    ensures CoverOf(done + {key}, p, |p|) == CoverOf(done, p, |p|)
  {
    forall n | 0 < n <= |p| ensures Join(p[..n]) != key { KeyOfPrefix(shape, p, n, key); }
  }

  /** When nothing crosses, the key on the way to a leaf is the only one. */
  lemma CoverWith(shape: Shape, db: DbMap, done: set<string>, p: Path, key: string)
    requires Proper(shape) && IsLeaf(shape, p) && Split(key) <= p
    requires Uncrossed(shape, db.Keys) && done <= db.Keys && key in db && key !in done
    ensures CoverOf(done, p, |p|) == 0 && CoverOf(done + {key}, p, |p|) == |Split(key)|
  {
    var before, after := CoverOf(done, p, |p|), CoverOf(done + {key}, p, |p|);
    if before > 0 { OnlyKeyOnTheWay(shape, db, done, p, key, before); }
    if after > 0 { OnlyKeyOnTheWay(shape, db, done, p, key, after); }
    OnlyKeyOnTheWay(shape, db, done, p, key, |Split(key)|);
  }

  lemma OnlyKeyOnTheWay(shape: Shape, db: DbMap, done: set<string>, p: Path, key: string, n: nat)
    requires Proper(shape) && IsLeaf(shape, p) && Split(key) <= p && 0 < n <= |p|
    requires Uncrossed(shape, db.Keys) && done <= db.Keys && key in db && key !in done
    ensures Join(p[..n]) !in done && (Join(p[..n]) == key <==> n == |Split(key)|)
  {
    var q, other := Split(key), Join(p[..n]);
    KeyOfPrefix(shape, p, n, other);
    KeyOfPrefix(shape, p, n, key);
    PrefixInShape(shape, p, n);
    PrefixInShape(shape, p, |q|);
    assert q == p[..|q|];
    assert q <= p[..n] || p[..n] <= q;
    assert Within(shape, q, p[..n]) || Within(shape, p[..n], q);
  }

  /** Until a node or something in it has been loaded, it is the default. */
  lemma UntouchedNode(codec: Codec, shape: Shape, db: DbMap, done: set<string>, j: Json, key: string)
    requires Proper(shape) && Uncrossed(shape, db.Keys) && Loaded(codec, shape, db, done, j) && key in db && key !in done
    requires ShapeAt(shape, Split(key)).Some?
    ensures At(j, Split(key)) == Some(Default(ShapeAt(shape, Split(key)).value))
  {
    var q := Split(key);
    var node := ShapeAt(shape, q).value;
    FitsAt(shape, j, q);
    ProperAt(shape, q);
    DefaultFits(node);
    forall rest | IsLeaf(node, rest) ensures At(At(j, q).value, rest) == At(Default(node), rest) {
      ShapeBelow(shape, q, rest);
      AtBelow(j, q, rest);
      CoverWith(shape, db, done, q + rest, key);
      DefaultAt(node, rest);
    }
    SameLeaves(node, At(j, q).value, Default(node));
  }

  lemma {:induction false} ShapeBelow(shape: Shape, q: Path, rest: Path)
    requires ShapeAt(shape, q).Some?
    ensures ShapeAt(shape, q + rest) == ShapeAt(ShapeAt(shape, q).value, rest)
  {
    if q == [] {
      assert q + rest == rest;
    } else {
      ShapeBelow(shape.fields[q[0]], q[1..], rest);
      assert (q + rest)[1..] == q[1..] + rest;
    }
  }

  lemma {:induction false} AtBelow(j: Json, q: Path, rest: Path)
    requires At(j, q).Some?
    ensures At(j, q + rest) == At(At(j, q).value, rest)
  {
    if q == [] {
      assert q + rest == rest;
    } else {
      AtBelow(j.fields[q[0]], q[1..], rest);
      assert (q + rest)[1..] == q[1..] + rest;
    }
  }

  /** One stored key applied: its node becomes what it restores to. */
  lemma ApplyAtNode(codec: Codec, shape: Shape, j: Json, key: string, stored: Json)
    requires Proper(shape) && Fits(shape, j) && ShapeAt(shape, Split(key)).Some?
    requires At(j, Split(key)) == Some(Default(ShapeAt(shape, Split(key)).value))
    ensures ApplyStored(codec, shape, j, key, stored) == Put(j, Split(key), RestoredNode(codec, ShapeAt(shape, Split(key)).value, stored))
    ensures Fits(ShapeAt(shape, Split(key)).value, RestoredNode(codec, ShapeAt(shape, Split(key)).value, stored))
  {
    var q := Split(key);
    var node := ShapeAt(shape, q).value;
    ProperAt(shape, q);
    JoinSplit(key);
    DefaultFits(node);
    NewNodeFits(codec, node, Default(node), Shown(codec, stored));
    SetChangesOneNode(codec, shape, j, q, Shown(codec, stored));
    PutSame(j, q);
  }

  /** Whatever key comes next, applying it settles the leaf or section it names and no other leaf. */
  lemma LoadStep(codec: Codec, shape: Shape, db: DbMap, done: set<string>, j: Json, key: string)
    requires Proper(shape) && shape.Section? && Uncrossed(shape, db.Keys)
    requires Loaded(codec, shape, db, done, j) && key in db && key !in done
    ensures Loaded(codec, shape, db, done + {key}, ApplyStored(codec, shape, j, key, db[key]))
  {
    if ShapeAt(shape, Split(key)).None? {
      LoadStray(codec, shape, db, done, j, key);
    } else {
      LoadNode(codec, shape, db, done, j, key);
    }
  }

  lemma LoadStray(codec: Codec, shape: Shape, db: DbMap, done: set<string>, j: Json, key: string)
    requires Proper(shape) && Loaded(codec, shape, db, done, j) && key in db && ShapeAt(shape, Split(key)).None?
    ensures Loaded(codec, shape, db, done + {key}, ApplyStored(codec, shape, j, key, db[key]))
  {
    StrayPathsChangeNothing(codec, shape, j, key, Shown(codec, db[key]));
    forall p | IsLeaf(shape, p) ensures At(j, p) == LoadedLeaf(codec, shape, db, done + {key}, p) {
      StrayIsOffTheWay(shape, p, Split(key));
      CoverWithout(shape, done, p, key);
    }
  }

  lemma LoadNode(codec: Codec, shape: Shape, db: DbMap, done: set<string>, j: Json, key: string)
    requires Proper(shape) && Uncrossed(shape, db.Keys) && Loaded(codec, shape, db, done, j) && key in db && key !in done
    requires ShapeAt(shape, Split(key)).Some?
    ensures Loaded(codec, shape, db, done + {key}, ApplyStored(codec, shape, j, key, db[key]))
  {
    var q := Split(key);
    var loaded := RestoredNode(codec, ShapeAt(shape, q).value, db[key]);
    UntouchedNode(codec, shape, db, done, j, key);
    ApplyAtNode(codec, shape, j, key, db[key]);
    PutFits(shape, j, q, loaded);
    JoinSplit(key);
    forall p | IsLeaf(shape, p) ensures At(Put(j, q, loaded), p) == LoadedLeaf(codec, shape, db, done + {key}, p) {
      PutAt(shape, j, q, loaded, p);
      if q <= p {
        CoverWith(shape, db, done, p, key);
        assert p[..|q|] == q;
      } else {
        CoverWithout(shape, done, p, key);
      }
    }
  }

  /** Whatever order the keys are taken in, they lead to the same settings. */
  lemma LoadedIsDetermined(codec: Codec, shape: Shape, db: DbMap, j: Json, k: Json)
    requires Loaded(codec, shape, db, db.Keys, j) && Loaded(codec, shape, db, db.Keys, k)
    ensures j == k
  {
    SameLeaves(shape, j, k);
  }

  lemma SectionFreeIsUncrossed(shape: Shape, db: DbMap)
    requires SectionFree(shape, db)
    ensures Uncrossed(shape, db.Keys)
  {
    forall s, t | s in db.Keys && t in db.Keys && Within(shape, Split(s), Split(t)) ensures s == t {
      PrefixInShape(shape, Split(t), |Split(s)|);
      assert Split(t)[..|Split(s)|] == Split(s);
      NothingUnderALeaf(shape, Split(s), Split(t));
      JoinSplit(s);
      JoinSplit(t);
    }
  }

  /** Without keys that name sections every leaf comes from its own key. */
  lemma LoadedRestores(codec: Codec, shape: Shape, db: DbMap, j: Json)
    requires Proper(shape) && shape.Section? && SectionFree(shape, db) && Loaded(codec, shape, db, db.Keys, j)
    ensures Restores(codec, shape, db, j)
  {
    forall p | IsLeaf(shape, p) ensures At(j, p) == Some(Restored(codec, KindAt(shape, p), Stored(db, Join(p)))) {
      var k := CoverOf(db.Keys, p, |p|);
      assert p[..|p|] == p;
      if 0 < k < |p| {
        KeyOfPrefix(shape, p, k, Join(p[..k]));
        PrefixInShape(shape, p, k);
        NothingUnderALeaf(shape, p[..k], p);
      }
    }
  }

  /** Loading depends on what is stored for the leaves and on nothing else. */
  lemma LoadDependsOnLeavesOnly(codec: Codec, shape: Shape, db: DbMap, other: DbMap, j: Json, k: Json)
    requires Restores(codec, shape, db, j) && Restores(codec, shape, other, k)
    requires forall p :: IsLeaf(shape, p) ==> Stored(db, Join(p)) == Stored(other, Join(p))
    ensures j == k
  {
    SameLeaves(shape, j, k);
  }

  /** What is stored never names a section. */
  lemma StoringIsSectionFree(shape: Shape, j: Json, db: DbMap)
    requires Fits(shape, j) && Flattens(j, db)
    ensures SectionFree(shape, db)
  {
    forall key | key in db ensures ShapeAt(shape, Split(key)).None? || IsLeaf(shape, Split(key)) {
      assert Stored(db, key) == LeafAt(j, Split(key));
      FitsAt(shape, j, Split(key));
    }
  }

  lemma StoredLeaf(shape: Shape, j: Json, db: DbMap, p: Path)
    requires Proper(shape) && Fits(shape, j) && Flattens(j, db) && IsLeaf(shape, p) && p != []
    ensures At(j, p).Some? && Accepts(KindAt(shape, p), At(j, p).value)
    ensures Stored(db, Join(p)) == At(j, p)
  {
    ProperAt(shape, p);
    SplitJoin(p);
    FitsAt(shape, j, p);
    assert Stored(db, Join(p)) == LeafAt(j, Split(Join(p)));
  }

  /** A set optional text that is itself JSON. */
  predicate Retyped(codec: Codec, shape: Shape, j: Json, p: Path)
    requires IsLeaf(shape, p)
  {
    && KindAt(shape, p).MaybeText?
    && LeafAt(j, p).Some? && LeafAt(j, p).value.Str?
    && codec.read(LeafAt(j, p).value.s).Some?
  }

  /**
   Storing settings and loading them again, in any order and with any unknown keys mixed in,
   gives the same settings exactly when no set optional text is itself JSON.
   */
  lemma LoadAfterStoreIff(codec: Codec, shape: Shape, j: Json, stored: DbMap, db: DbMap, loaded: Json)
    requires Faithful(codec) && Proper(shape) && shape.Section? && Fits(shape, j)
    requires Flattens(j, stored)
    requires forall p :: IsLeaf(shape, p) ==> Stored(db, Join(p)) == Stored(stored, Join(p))
    requires Restores(codec, shape, db, loaded)
    ensures loaded == j <==> forall p :: IsLeaf(shape, p) ==> !Retyped(codec, shape, j, p)
  {
    forall p | IsLeaf(shape, p)
      ensures At(loaded, p) == At(j, p) <==> !Retyped(codec, shape, j, p)
    {
      ProperAt(shape, p);
      StoredLeaf(shape, j, stored, p);
      TextStoresItsValueIff(codec, KindAt(shape, p), KindDefault(KindAt(shape, p)), At(j, p).value);
    }
    if forall p :: IsLeaf(shape, p) ==> !Retyped(codec, shape, j, p) {
      SameLeaves(shape, loaded, j);
    }
  }
}
