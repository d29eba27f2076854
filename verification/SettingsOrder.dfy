/** When the order in which stored keys are loaded makes a difference. */
module SettingsOrder {
  import opened Basics
  import opened DottedPaths
  import opened SettingsTree
  import opened SettingsProperties
  import opened SettingsFindings

  lemma NamedOneMore(order: seq<string>, key: string)
    ensures Named(order + [key]) == Named(order) + {key}
    ensures Distinct(order) && key !in Named(order) ==> Distinct(order + [key])
  {
    forall i | 0 <= i < |order| ensures order[i] in Named(order) {
    }
  }

  // ---------------------------------------------------------------- keys that do not cross

  lemma {:induction false} OrderLoads(codec: Codec, shape: Shape, db: DbMap, order: seq<string>)
    requires Proper(shape) && shape.Section? && Uncrossed(shape, db.Keys) && AllStored(db, order) && Distinct(order)
    ensures Loaded(codec, shape, db, Named(order), LoadInOrder(codec, shape, db, order))
  {
    if order == [] {
      LoadStarts(codec, shape, db);
      assert Named(order) == {};
    } else {
      var before, last := order[..|order| - 1], order[|order| - 1];
      OrderLoads(codec, shape, db, before);
      NamedOneMore(before, last);
      assert before + [last] == order;
      LoadStep(codec, shape, db, Named(before), LoadInOrder(codec, shape, db, before), last);
    }
  }

  /** What any order leads to. */
  lemma OrderDecides(codec: Codec, shape: Shape, db: DbMap, order: seq<string>)
    requires Proper(shape) && shape.Section? && Enumerates(order, db)
    ensures Uncrossed(shape, db.Keys) ==> Loaded(codec, shape, db, db.Keys, LoadInOrder(codec, shape, db, order))
    ensures SectionFree(shape, db) ==> Restores(codec, shape, db, LoadInOrder(codec, shape, db, order))
  {
    if Uncrossed(shape, db.Keys) { OrderLoads(codec, shape, db, order); }
    if SectionFree(shape, db) {
      SectionFreeIsUncrossed(shape, db);
      LoadedRestores(codec, shape, db, LoadInOrder(codec, shape, db, order));
    }
  }

  // ---------------------------------------------------------------- keys that cross

  /** Two values of a type, the second of which can be written over the first. */
  lemma TwoValues(codec: Codec, kind: Kind) returns (u: Json, v: Json)
    requires Faithful(codec) && ProperKind(kind) && RoomyKind(kind)
    ensures u != v && Accepts(kind, u) && Accepts(kind, v) && !v.Null? && !Stuck(codec, u, v)
  {
    match kind {
      case Flag(_) => u, v := Bool(false), Bool(true);
      case Unsigned(_, _) => u, v := Num(0), Num(1);
      case Choice(names, first) =>
        var name :| name in names && name != first;
        u, v := Str(first), Str(name);
      case Texts => u, v := Arr([]), Arr([Str("")]);
      case MaybeUnsigned(_) => u, v := Null, Num(0);
      case MaybeSigned => u, v := Num(0), Num(1);
      case _ => u, v := Str("a"), Str("b");
    }
  }

  lemma {:induction false} LeafIn(shape: Shape) returns (p: Path)
    requires Roomy(shape)
    ensures IsLeaf(shape, p)
  {
    p := [];
    if shape.Section? {
      var k :| k in shape.fields;
      var rest := LeafIn(shape.fields[k]);
      p := [k] + rest;
      assert p[1..] == rest;
    }
  }

  lemma {:induction false} RoomyAt(shape: Shape, p: Path)
    requires Roomy(shape) && ShapeAt(shape, p).Some?
    ensures Roomy(ShapeAt(shape, p).value)
  {
    if p != [] { RoomyAt(shape.fields[p[0]], p[1..]); }
  }

  /** What to store for a node so that its leaf `p` becomes `v`. */
  function Storing(node: Shape, p: Path, v: Json): Json
    requires IsLeaf(node, p)
  {
    DefaultAt(node, p);
    With(node, p, v)
  }

  lemma LoadOneMore(codec: Codec, shape: Shape, db: DbMap, order: seq<string>, key: string)
    requires AllStored(db, order) && key in db
    ensures AllStored(db, order + [key])
    ensures
      LoadInOrder(codec, shape, db, order + [key]) ==
      ApplyStored(codec, shape, LoadInOrder(codec, shape, db, order), key, db[key])
  {
    assert (order + [key])[..|order|] == order;
  }

  lemma {:induction false} NullsLoadNothing(codec: Codec, shape: Shape, db: DbMap, order: seq<string>)
    requires AllStored(db, order) && forall i :: 0 <= i < |order| ==> db[order[i]].Null?
    ensures LoadInOrder(codec, shape, db, order) == Default(shape)
  {
    if order != [] { NullsLoadNothing(codec, shape, db, order[..|order| - 1]); }
  }

  lemma {:induction false} AnOrder(keys: set<string>) returns (order: seq<string>)
    ensures Distinct(order) && Named(order) == keys
    decreases |keys|
  {
    order := [];
    if keys != {} {
      var key :| key in keys;
      var rest := AnOrder(keys - {key});
      NamedOneMore(rest, key);
      order := rest + [key];
    }
  }

  /** Two more keys at the end of an order. */
  lemma EnumerateTwoMore(db: DbMap, rest: seq<string>, s: string, t: string)
    requires Distinct(rest) && s in db && t in db && s != t && Named(rest) == db.Keys - {s, t}
    ensures AllStored(db, rest) && Enumerates(rest + [s] + [t], db)
  {
    NamedOneMore(rest, s);
    NamedOneMore(rest + [s], t);
    forall i | 0 <= i < |rest| ensures rest[i] in db { assert rest[i] in Named(rest); }
  }

  /** A leaf that lies below an outer node and within an inner one, where the inner lies in the outer. */
  datatype Crossing = Crossing(outer: Path, inner: Path, below: Path, within: Path, leaf: Path, kind: Kind)

  predicate Crosses(shape: Shape, c: Crossing) {
    && c.outer != [] && c.inner != [] && c.below != [] && c.leaf == c.outer + c.below && c.leaf == c.inner + c.within
    && ShapeAt(shape, c.outer).Some? && ShapeAt(ShapeAt(shape, c.outer).value, c.below) == Some(Leaf(c.kind))
    && ShapeAt(shape, c.inner).Some? && ShapeAt(ShapeAt(shape, c.inner).value, c.within) == Some(Leaf(c.kind))
    && ShapeAt(shape, c.leaf) == Some(Leaf(c.kind))
  }

  lemma CrossingOf(shape: Shape, outer: Path, rest: Path) returns (c: Crossing)
    requires Proper(shape) && Roomy(shape) && outer != [] && rest != [] && ShapeAt(shape, outer + rest).Some?
    ensures Crosses(shape, c) && c.outer == outer && c.inner == outer + rest
    ensures ProperKind(c.kind) && RoomyKind(c.kind)
  {
    var inner := outer + rest;
    assert inner[..|outer|] == outer;
    PrefixInShape(shape, inner, |outer|);
    RoomyAt(shape, inner);
    var within := LeafIn(ShapeAt(shape, inner).value);
    ShapeBelow(shape, inner, within);
    var leaf := inner + within;
    assert leaf == outer + (rest + within);
    ShapeBelow(shape, outer, rest + within);
    ProperAt(shape, leaf);
    RoomyAt(shape, leaf);
    c := Crossing(outer, inner, rest + within, within, leaf, KindAt(shape, leaf));
  }

  lemma KeysApart(s: string, t: string) returns (rest: Path)
    requires s != t && Split(s) <= Split(t)
    ensures rest != [] && Split(s) + rest == Split(t) && Join(Split(s)) == s && Join(Split(t)) == t
  {
    JoinSplit(s);
    JoinSplit(t);
    rest := Split(t)[|Split(s)|..];
    assert Split(s) + rest == Split(t);
    assert rest == [] ==> Split(s) + rest == Split(s);
  }

  function OuterValue(shape: Shape, c: Crossing, u: Json): Json
    requires Crosses(shape, c)
  {
    Storing(ShapeAt(shape, c.outer).value, c.below, u)
  }

  function InnerValue(shape: Shape, c: Crossing, v: Json): Json
    requires Crosses(shape, c)
  {
    Storing(ShapeAt(shape, c.inner).value, c.within, v)
  }

  lemma SectionArrives(codec: Codec, shape: Shape, j: Json, q: Path, section: Json, rest: Path)
    requires FaithfulOn(codec, shape) && Proper(shape) && Fits(shape, j) && q != []
    requires ShapeAt(shape, q).Some? && ShapeAt(shape, q).value.Section? && Fits(ShapeAt(shape, q).value, section)
    ensures
      var after := ApplyStored(codec, shape, j, Join(q), section);
      Fits(shape, after) && At(after, q + rest) == At(section, rest)
  {
    WholeSection(codec, shape, j, q, section);
    AtBelow(ApplyStored(codec, shape, j, Join(q), section), q, rest);
  }

  lemma OuterFits(shape: Shape, c: Crossing, u: Json)
    requires Proper(shape) && Crosses(shape, c) && Accepts(c.kind, u)
    ensures ShapeAt(shape, c.outer).value.Section? && Fits(ShapeAt(shape, c.outer).value, OuterValue(shape, c, u))
    ensures At(OuterValue(shape, c, u), c.below) == Some(u)
  {
    ProperAt(shape, c.outer);
    WithFits(ShapeAt(shape, c.outer).value, c.below, u);
  }

  lemma OuterArrives(codec: Codec, shape: Shape, j: Json, c: Crossing, u: Json)
    requires FaithfulOn(codec, shape) && Proper(shape) && Fits(shape, j) && Crosses(shape, c) && Accepts(c.kind, u)
    ensures
      var after := ApplyStored(codec, shape, j, Join(c.outer), OuterValue(shape, c, u));
      Fits(shape, after) && At(after, c.leaf) == Some(u)
  {
    OuterFits(shape, c, u);
    SectionArrives(codec, shape, j, c.outer, OuterValue(shape, c, u), c.below);
  }

  /** Whole sections arrive as they are stored, and so do leaves that can be written. */
  lemma InnerArrives(codec: Codec, shape: Shape, j: Json, c: Crossing, v: Json)
    requires Faithful(codec) && FaithfulOn(codec, shape) && Proper(shape) && Fits(shape, j) && Crosses(shape, c)
    requires Accepts(c.kind, v) && !v.Null? && At(j, c.leaf).Some?
    requires !Stuck(codec, At(j, c.leaf).value, v)
    ensures
      var after := ApplyStored(codec, shape, j, Join(c.inner), InnerValue(shape, c, v));
      Fits(shape, after) && At(after, c.leaf) == Some(v)
  {
    var q := c.inner;
    var node := ShapeAt(shape, q).value;
    ProperAt(shape, q);
    WithFits(node, c.within, v);
    if node.Section? {
      SectionArrives(codec, shape, j, q, InnerValue(shape, c, v), c.within);
    } else {
      assert c.leaf == q;
      FitsAt(shape, j, q);
      SetChangesOneLeaf(codec, shape, j, q, Shown(codec, v));
      TextStoresItsValueIff(codec, node.kind, At(j, q).value, v);
    }
  }

  /** Sections stored with a part of them besides can be loaded in two ways. */
  lemma CrossedOrdersDiffer(codec: Codec, shape: Shape, keys: set<string>, s: string, t: string)
    returns (db: DbMap, a: seq<string>, b: seq<string>)
    requires Faithful(codec) && FaithfulOn(codec, shape) && Proper(shape) && Roomy(shape)
    requires s in keys && t in keys && s != t && Within(shape, Split(s), Split(t))
    ensures db.Keys == keys && Enumerates(a, db) && Enumerates(b, db)
    ensures LoadInOrder(codec, shape, db, a) != LoadInOrder(codec, shape, db, b)
  {
    var rest := KeysApart(s, t);
    var c := CrossingOf(shape, Split(s), rest);
    var u, v := TwoValues(codec, c.kind);
    BothWays(codec, shape, c, u, v);
    db, a, b := TwoOrders(codec, shape, keys, s, OuterValue(shape, c, u), t, InnerValue(shape, c, v));
  }

  /** Two keys with values, all others null: the two orders of these two. */
  lemma TwoOrders(codec: Codec, shape: Shape, keys: set<string>, s: string, outer: Json, t: string, inner: Json)
    returns (db: DbMap, a: seq<string>, b: seq<string>)
    requires s in keys && t in keys && s != t
    ensures db.Keys == keys && Enumerates(a, db) && Enumerates(b, db)
    ensures LoadInOrder(codec, shape, db, a) == ApplyStored(codec, shape, ApplyStored(codec, shape, Default(shape), s, outer), t, inner)
    ensures LoadInOrder(codec, shape, db, b) == ApplyStored(codec, shape, ApplyStored(codec, shape, Default(shape), t, inner), s, outer)
  {
    db := map key | key in keys :: if key == s then outer else if key == t then inner else Null;
    var others := AnOrder(keys - {s, t});
    assert {t, s} == {s, t};
    EnumerateTwoMore(db, others, s, t);
    EnumerateTwoMore(db, others, t, s);
    a, b := others + [s] + [t], others + [t] + [s];
    forall i | 0 <= i < |others| ensures db[others[i]].Null? { assert others[i] in Named(others); }
    LastTwo(codec, shape, db, others, s, t);
    LastTwo(codec, shape, db, others, t, s);
  }

  lemma LastTwo(codec: Codec, shape: Shape, db: DbMap, others: seq<string>, s: string, t: string)
    requires AllStored(db, others) && s in db && t in db
    requires forall i :: 0 <= i < |others| ==> db[others[i]].Null?
    ensures AllStored(db, others + [s] + [t])
    ensures
      LoadInOrder(codec, shape, db, others + [s] + [t]) ==
      ApplyStored(codec, shape, ApplyStored(codec, shape, Default(shape), s, db[s]), t, db[t])
  {
    NullsLoadNothing(codec, shape, db, others);
    LoadOneMore(codec, shape, db, others, s);
    LoadOneMore(codec, shape, db, others + [s], t);
  }

  /** The outer value last, or the inner one. */
  lemma BothWays(codec: Codec, shape: Shape, c: Crossing, u: Json, v: Json)
    requires Faithful(codec) && FaithfulOn(codec, shape) && Proper(shape) && Crosses(shape, c)
    requires Accepts(c.kind, u) && Accepts(c.kind, v) && u != v && !v.Null? && !Stuck(codec, u, v)
    ensures
      var (s, t) := (Join(c.outer), Join(c.inner));
      var (outer, inner) := (OuterValue(shape, c, u), InnerValue(shape, c, v));
      ApplyStored(codec, shape, ApplyStored(codec, shape, Default(shape), s, outer), t, inner) !=
      ApplyStored(codec, shape, ApplyStored(codec, shape, Default(shape), t, inner), s, outer)
  {
    var s, t := Join(c.outer), Join(c.inner);
    DefaultFits(shape);
    OuterArrives(codec, shape, Default(shape), c, u);
    InnerArrives(codec, shape, ApplyStored(codec, shape, Default(shape), s, OuterValue(shape, c, u)), c, v);
    AppliedFits(codec, shape, Default(shape), t, InnerValue(shape, c, v));
    OuterArrives(codec, shape, ApplyStored(codec, shape, Default(shape), t, InnerValue(shape, c, v)), c, u);
  }

  lemma AppliedFits(codec: Codec, shape: Shape, j: Json, key: string, stored: Json)
    requires Proper(shape) && Fits(shape, j)
    ensures Fits(shape, ApplyStored(codec, shape, j, key, stored))
  {
    var placed := Place(codec, j, Split(key), Shown(codec, stored));
    if placed.Ok? { ReadingFits(shape, placed.value); }
  }

  // ---------------------------------------------------------------- exactly when order matters

  ghost predicate LoadsAlike(codec: Codec, shape: Shape, db: DbMap, a: seq<string>, b: seq<string>) {
    Enumerates(a, db) && Enumerates(b, db) ==> LoadInOrder(codec, shape, db, a) == LoadInOrder(codec, shape, db, b)
  }

  /**
   Whatever is stored under these keys, every order of loading it leads to the same settings: this
   is so exactly when no key names something within a section that another key names.
   */
  lemma OrderIndependentIff(codec: Codec, shape: Shape, keys: set<string>)
    requires Faithful(codec) && FaithfulOn(codec, shape) && Proper(shape) && Roomy(shape) && shape.Section?
    ensures
      (forall db: DbMap, a, b :: db.Keys == keys ==> LoadsAlike(codec, shape, db, a, b)) <==> Uncrossed(shape, keys)
  {
    if Uncrossed(shape, keys) {
      forall db: DbMap, a, b | db.Keys == keys && Enumerates(a, db) && Enumerates(b, db)
        ensures LoadInOrder(codec, shape, db, a) == LoadInOrder(codec, shape, db, b)
      {
        OrderLoads(codec, shape, db, a);
        OrderLoads(codec, shape, db, b);
        LoadedIsDetermined(codec, shape, db, LoadInOrder(codec, shape, db, a), LoadInOrder(codec, shape, db, b));
      }
    } else {
      var s, t :| s in keys && t in keys && Within(shape, Split(s), Split(t)) && s != t;
      var db, a, b := CrossedOrdersDiffer(codec, shape, keys, s, t);
      assert !LoadsAlike(codec, shape, db, a, b);
    }
  }
}
