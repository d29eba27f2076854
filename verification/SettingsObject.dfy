/**
 The settings operations as the source runs them: loops that walk trees and fill maps, and an
 object whose tree they replace. Maps are iterated in any order.
 */
module SettingsObjects {
  import opened Basics
  import opened DottedPaths
  import opened SettingsTree
  import opened SettingsProperties
  import opened SettingsOrder

  /** One more key of the overlay, at any point of the loop. */
  lemma MergeFieldsStep(t: map<string, Json>, other: Json, d: map<string, Json>, done: set<string>, key: string)
    requires other.Obj? && done <= other.fields.Keys && key in other.fields && key !in done
    ensures
      var before := MergeFields(t, other, d, done);
      var given, initial := other.fields[key], DefaultOf(d, key);
      MergeFields(t, other, d, done + {key}) ==
      if key in before then before[key := Merge(before[key], given, initial)]
      else if given != initial then before[key := given]
      else before
  {
  }

  method MergeNonDefault(target: Json, other: Json, defaults: Json) returns (merged: Json)
    ensures merged == Merge(target, other, defaults)
    decreases other
  {
    if target.Obj? && other.Obj? && defaults.Obj? {
      var t := target.fields;
      var left := other.fields.Keys;
      assert t == MergeFields(target.fields, other, defaults.fields, other.fields.Keys - left);
      while left != {}
        invariant left <= other.fields.Keys
        invariant t == MergeFields(target.fields, other, defaults.fields, other.fields.Keys - left)
        decreases |left|
      {
        var key :| key in left;
        ghost var done := other.fields.Keys - left;
        MergeFieldsStep(target.fields, other, defaults.fields, done, key);
        assert other.fields.Keys - (left - {key}) == done + {key};
        var otherVal := other.fields[key];
        var defaultVal := DefaultOf(defaults.fields, key);
        if key in t {
          var targetVal := MergeNonDefault(t[key], otherVal, defaultVal);
          t := t[key := targetVal];
        } else if otherVal != defaultVal {
          t := t[key := otherVal];
        }
        left := left - {key};
      }
      assert other.fields.Keys - left == other.fields.Keys;
      merged := Obj(t);
    } else if other != defaults {
      merged := other;
    } else {
      merged := target;
    }
  }

  /** Field names all the way down that cannot be confused with dotted paths. */
  predicate PlainNames(j: Json) {
    j.Obj? ==> forall k :: k in j.fields ==> PlainName(k) && PlainNames(j.fields[k])
  }

  /** `results` with the leaves of `value` added under the path of `value`. */
  ghost predicate Collected(value: Json, at: Path, results: DbMap, after: DbMap) {
    forall key :: Stored(after, key) == CollectedAt(value, at, results, key)
  }

  function CollectedAt(value: Json, at: Path, results: DbMap, key: string): Option<Json> {
    var path := Split(key);
    if at <= path && LeafAt(value, path[|at|..]).Some? then LeafAt(value, path[|at|..]) else Stored(results, key)
  }

  function Fewer(fields: map<string, Json>, left: set<string>): map<string, Json> {
    map k | k in fields && k !in left :: fields[k]
  }

  lemma CollectNone(fields: map<string, Json>, at: Path, results: DbMap)
    ensures Collected(Obj(Fewer(fields, fields.Keys)), at, results, results)
  {
    forall key ensures Stored(results, key) == CollectedAt(Obj(Fewer(fields, fields.Keys)), at, results, key) {
    }
  }

  lemma CollectStep(fields: map<string, Json>, left: set<string>, key: string, at: Path, results: DbMap, before: DbMap, after: DbMap)
    requires key in left && key in fields
    requires Collected(Obj(Fewer(fields, left)), at, results, before)
    requires Collected(fields[key], at + [key], before, after)
    ensures Collected(Obj(Fewer(fields, left - {key})), at, results, after)
  {
    forall text ensures Stored(after, text) == CollectedAt(Obj(Fewer(fields, left - {key})), at, results, text) {
      assert Stored(after, text) == CollectedAt(fields[key], at + [key], before, text);
      assert Stored(before, text) == CollectedAt(Obj(Fewer(fields, left)), at, results, text);
      CollectKey(fields, left, key, at, results, before, text);
    }
  }

  /** For one key of the map, collecting field `key` next is collecting it with the fields before. */
  lemma CollectKey(fields: map<string, Json>, left: set<string>, key: string, at: Path, results: DbMap, before: DbMap, text: string)
    requires key in left && key in fields
    requires Stored(before, text) == CollectedAt(Obj(Fewer(fields, left)), at, results, text)
    ensures CollectedAt(fields[key], at + [key], before, text) == CollectedAt(Obj(Fewer(fields, left - {key})), at, results, text)
  {
    var path := Split(text);
    if at <= path && path != at {
      var rest := path[|at|..];
      assert path == at + rest && path[|at| + 1..] == rest[1..];
      assert at + [key] <= path <==> rest[0] == key;
    }
  }

  lemma CollectLeaf(value: Json, at: Path, results: DbMap)
    requires !value.Obj? && at != [] && PlainPath(at)
    ensures Collected(value, at, results, results[Join(at) := value])
  {
    SplitJoin(at);
    forall key ensures Stored(results[Join(at) := value], key) == CollectedAt(value, at, results, key) {
      JoinSplit(key);
      var path := Split(key);
      if at <= path {
        assert path == at + path[|at|..];
        assert path == at <==> path[|at|..] == [];
      }
    }
  }

  method CollectSettingsJson(value: Json, prefix: string, results: DbMap, ghost at: Path) returns (after: DbMap)
    requires PlainNames(value) && PlainPath(at) && prefix == Join(at)
    requires at == [] ==> value.Obj?
    ensures Collected(value, at, results, after)
    decreases value
  {
    after := results;
    if value.Obj? {
      var left := value.fields.Keys;
      CollectNone(value.fields, at, results);
      while left != {}
        invariant left <= value.fields.Keys
        invariant Collected(Obj(Fewer(value.fields, left)), at, results, after)
        decreases |left|
      {
        var key :| key in left;
        ghost var before := after;
        ChildJoins(at, key);
        after := CollectSettingsJson(value.fields[key], Child(prefix, key), after, at + [key]);
        CollectStep(value.fields, left, key, at, results, before, after);
        left := left - {key};
      }
      assert Fewer(value.fields, left) == value.fields;
    } else {
      after := after[prefix := value];
      CollectLeaf(value, at, results);
    }
  }

  lemma {:induction false} FittingNamesArePlain(shape: Shape, j: Json)
    requires Proper(shape) && Fits(shape, j)
    ensures PlainNames(j)
  {
    if shape.Section? {
      forall k | k in j.fields ensures PlainName(k) && PlainNames(j.fields[k]) {
        FittingNamesArePlain(shape.fields[k], j.fields[k]);
      }
    }
  }

  class Settings {
    const codec: Codec
    const shape: Shape
    var tree: Json

    ghost predicate Valid()
      reads this
    {
      Proper(shape) && shape.Section? && Fits(shape, tree)
    }

    constructor (codec: Codec, shape: Shape)
      requires Proper(shape) && shape.Section?
      ensures Valid() && this.codec == codec && this.shape == shape && tree == Default(shape)
    {
      this.codec, this.shape, tree := codec, shape, Default(shape);
      DefaultFits(shape);
    }

    method MergeFrom(other: Json)
      requires Valid() && Fits(shape, other)
      modifies `tree
      ensures Valid() && tree == SettingsTree.MergeFrom(shape, old(tree), other)
    {
      MergeFromMerges(shape, tree, other);
      var merged := MergeNonDefault(tree, other, Default(shape));
      var read := Read(shape, merged);
      if read.Some? {
        tree := read.value;
      }
    }

    method Set(path: string, text: string) returns (failure: Option<SetError>)
      requires Valid()
      modifies `tree
      ensures Valid() && tree == AfterSet(codec, shape, old(tree), path, text)
      ensures
        var r := SettingsTree.Set(codec, shape, old(tree), path, text);
        failure == if r.Ok? then None else Some(r.error)
    {
      var placed := Place(codec, tree, Split(path), text);
      if placed.Err? { return Some(placed.error); }
      var read := Read(shape, placed.value);
      if read.None? { return Some(FailedToApply); }
      ReadingFits(shape, placed.value);
      tree := read.value;
      failure := None;
    }

    method Get(path: string) returns (text: Option<string>)
      ensures text == SettingsTree.Get(codec, tree, path)
    {
      var parts := Split(path);
      var current := tree;
      for i := 0 to |parts|
        invariant At(tree, parts) == At(current, parts[i..])
      {
        assert parts[i..][1..] == parts[i + 1..];
        if !current.Obj? || parts[i] !in current.fields { return None; }
        current := current.fields[parts[i]];
      }
      text := Some(Shown(codec, current));
    }

    /** One key of the database map. */
    method LoadKey(key: string, stored: Json)
      requires Valid()
      modifies `tree
      ensures Valid() && tree == ApplyStored(codec, shape, old(tree), key, stored)
    {
      if stored.Null? { return; }
      var _ := Set(key, Shown(codec, stored));
    }

    method Reset(path: string) returns (known: bool)
      requires Valid()
      modifies `tree
      ensures Valid() && tree == SettingsTree.Reset(codec, shape, old(tree), path)
      ensures known <==> SettingsTree.Get(codec, Default(shape), path).Some?
    {
      var defaults := new Settings(codec, shape);
      var initial := defaults.Get(path);
      if initial.None? { return false; }
      var _ := Set(path, initial.value);
      known := true;
    }

    method ToDbMap() returns (db: DbMap)
      requires Valid()
      ensures Flattens(tree, db)
    {
      FittingNamesArePlain(shape, tree);
      db := CollectSettingsJson(tree, "", map[], []);
      forall key ensures Stored(db, key) == LeafAt(tree, Split(key)) {
        assert Stored(db, key) == CollectedAt(tree, [], map[], key);
        assert Split(key)[0..] == Split(key);
      }
    }
  }

  /** The map is walked in any order, which is returned; failed assignments are skipped. */
  method FromDbMap(codec: Codec, shape: Shape, db: DbMap) returns (settings: Settings, ghost order: seq<string>)
    requires Proper(shape) && shape.Section?
    ensures fresh(settings) && settings.Valid() && settings.codec == codec && settings.shape == shape
    ensures Enumerates(order, db) && settings.tree == LoadInOrder(codec, shape, db, order)
    ensures Uncrossed(shape, db.Keys) ==> Loaded(codec, shape, db, db.Keys, settings.tree)
    ensures SectionFree(shape, db) ==> Restores(codec, shape, db, settings.tree)
  {
    settings := new Settings(codec, shape);
    order := [];
    var left := db.Keys;
    while left != {}
      invariant settings.Valid() && fresh(settings) && settings.codec == codec && settings.shape == shape
      invariant Walked(db, left, order) && settings.tree == LoadInOrder(codec, shape, db, order)
      decreases |left|
    {
      var key :| key in left;
      settings.LoadKey(key, db[key]);
      LoadOneMore(codec, shape, db, order, key);
      WalkOne(db, left, order, key);
      left, order := left - {key}, order + [key];
    }
    OrderDecides(codec, shape, db, order);
  }

  /** `order` names the keys that are no longer to be visited. */
  predicate Walked(db: DbMap, left: set<string>, order: seq<string>) {
    left <= db.Keys && AllStored(db, order) && Distinct(order) && Named(order) == db.Keys - left
  }

  lemma WalkOne(db: DbMap, left: set<string>, order: seq<string>, key: string)
    requires Walked(db, left, order) && key in left
    ensures Walked(db, left - {key}, order + [key])
  {
    NamedOneMore(order, key);
  }

  /**
   Settings are written to the database and read again, with unknown keys of others among them:
   they come back the same exactly when no set optional text is itself JSON.
   */
  method StoreAndLoad(settings: Settings, others: DbMap) returns (loaded: Settings)
    requires settings.Valid() && Faithful(settings.codec)
    requires forall key :: key in others ==> ShapeAt(settings.shape, Split(key)).None?
    ensures fresh(loaded) && loaded.Valid() && loaded.codec == settings.codec && loaded.shape == settings.shape
    ensures loaded.tree == settings.tree <==>
      forall p :: IsLeaf(settings.shape, p) ==> !Retyped(settings.codec, settings.shape, settings.tree, p)
  {
    var stored := settings.ToDbMap();
    var db := others + stored;
    OthersStaySectionFree(settings.shape, settings.tree, stored, others);
    var loading, _ := FromDbMap(settings.codec, settings.shape, db);
    loaded := loading;
    LoadAfterStoreIff(settings.codec, settings.shape, settings.tree, stored, db, loaded.tree);
  }

  lemma OthersStaySectionFree(shape: Shape, j: Json, stored: DbMap, others: DbMap)
    requires Proper(shape) && shape.Section? && Fits(shape, j) && Flattens(j, stored)
    requires forall key :: key in others ==> ShapeAt(shape, Split(key)).None?
    ensures SectionFree(shape, others + stored)
    ensures forall p :: IsLeaf(shape, p) ==> Stored(others + stored, Join(p)) == Stored(stored, Join(p))
  {
    StoringIsSectionFree(shape, j, stored);
    forall p | IsLeaf(shape, p) ensures Stored(others + stored, Join(p)) == Stored(stored, Join(p)) {
      ProperAt(shape, p);
      SplitJoin(p);
    }
  }
}
