/**
 The settings tree (src/settings.rs). A settings value is modelled by the JSON it serialises
 to; a shape says which fields the structs have, with their types and defaults. The struct
 operations are then functions on trees that fit the shape.
 */
module SettingsTree {
  import opened Basics
  import opened DottedPaths
  import opened Decimals

  datatype Json = Null | Bool(b: bool) | Num(n: int) | Str(s: string) | Arr(items: seq<Json>) | Obj(fields: map<string, Json>)

  /** The field types of the settings structs, each with its default; optional fields start unset. */
  datatype Kind =
    | Flag(initially: bool)
    | Unsigned(limit: int, start: int)
    | Text(initial: string)
    | Choice(names: set<string>, first: string)
    | Texts
    | MaybeText
    | MaybeUnsigned(limit: int)
    | MaybeSigned

  /** `alias` gives the second name under which a field may be read. */
  datatype Shape = Leaf(kind: Kind) | Section(fields: map<string, Shape>, alias: map<string, string>)

  function KindDefault(kind: Kind): Json {
    match kind
    case Flag(b) => Bool(b)
    case Unsigned(_, n) => Num(n)
    case Text(s) => Str(s)
    case Choice(_, s) => Str(s)
    case Texts => Arr([])
    case _ => Null
  }

  predicate Accepts(kind: Kind, j: Json) {
    match kind
    case Flag(_) => j.Bool?
    case Unsigned(limit, _) => j.Num? && 0 <= j.n <= limit
    case Text(_) => j.Str?
    case Choice(names, _) => j.Str? && j.s in names
    case Texts => j.Arr? && forall k :: 0 <= k < |j.items| ==> j.items[k].Str?
    case MaybeText => j.Null? || j.Str?
    case MaybeUnsigned(limit) => j.Null? || (j.Num? && 0 <= j.n <= limit)
    case MaybeSigned => j.Null? || (j.Num? && I64_MIN <= j.n <= I64_MAX)
  }

  predicate ProperKind(kind: Kind) {
    && Accepts(kind, KindDefault(kind))
    && (kind.Unsigned? || kind.MaybeUnsigned? ==> kind.limit <= U64_MAX)
  }

  /** The type has more than one value. */
  predicate RoomyKind(kind: Kind) {
    match kind
    case Unsigned(limit, _) => limit >= 1
    case MaybeUnsigned(limit) => limit >= 0
    case Choice(names, first) => exists name :: name in names && name != first
    case _ => true
  }

  /** Every field has a choice, and every section a field. */
  predicate Roomy(shape: Shape) {
    match shape
    case Leaf(kind) => RoomyKind(kind)
    case Section(fields, _) => fields != map[] && forall k :: k in fields ==> Roomy(fields[k])
  }

  /** Plain field names, and no alias that is itself a field. */
  predicate Proper(shape: Shape) {
    match shape
    case Leaf(kind) => ProperKind(kind)
    case Section(fields, alias) =>
      && (forall k :: k in fields ==> PlainName(k) && Proper(fields[k]))
      && (forall k :: k in alias ==> k in fields && alias[k] !in fields)
  }

  function Default(shape: Shape): Json {
    match shape
    case Leaf(kind) => KindDefault(kind)
    case Section(fields, _) => Obj(map k | k in fields :: Default(fields[k]))
  }

  /** The trees that settings of this shape serialise to. */
  predicate Fits(shape: Shape, j: Json) {
    match shape
    case Leaf(kind) => Accepts(kind, j)
    case Section(fields, _) =>
      j.Obj? && j.fields.Keys == fields.Keys && forall k :: k in fields ==> Fits(fields[k], j.fields[k])
  }

  function At(j: Json, path: Path): Option<Json> {
    if path == [] then Some(j)
    else if j.Obj? && path[0] in j.fields then At(j.fields[path[0]], path[1..])
    else None
  }

  function ShapeAt(shape: Shape, path: Path): Option<Shape> {
    if path == [] then Some(shape)
    else if shape.Section? && path[0] in shape.fields then ShapeAt(shape.fields[path[0]], path[1..])
    else None
  }

  predicate IsLeaf(shape: Shape, path: Path) {
    ShapeAt(shape, path).Some? && ShapeAt(shape, path).value.Leaf?
  }

  function KindAt(shape: Shape, path: Path): Kind
    requires IsLeaf(shape, path)
  {
    ShapeAt(shape, path).value.kind
  }

  // ---------------------------------------------------------------- reading

  function FieldJson(alias: map<string, string>, o: map<string, Json>, k: string): Option<Json> {
    if k in o then Some(o[k])
    else if k in alias && alias[k] in o then Some(o[alias[k]])
    else None
  }

  /**
   Deserialise and serialise again: unknown keys are dropped, missing ones take their default,
   and a field given under both of its names is an error.
   */
  function Read(shape: Shape, j: Json): Option<Json>
    decreases shape, 1
  {
    match shape
    case Leaf(kind) => if Accepts(kind, j) then Some(j) else None
    case Section(fields, alias) =>
      if !j.Obj? || (exists k :: k in alias && k in j.fields && alias[k] in j.fields) then None
      else if exists k :: k in fields && ReadField(shape, j.fields, k).None? then None
      else Some(Obj(map k | k in fields :: ReadField(shape, j.fields, k).value))
  }

  function ReadField(shape: Shape, o: map<string, Json>, k: string): Option<Json>
    requires shape.Section? && k in shape.fields
    decreases shape, 0
  {
    var given := FieldJson(shape.alias, o, k);
    if given.Some? then Read(shape.fields[k], given.value) else Some(Default(shape.fields[k]))
  }

  // ---------------------------------------------------------------- merging

  function DefaultOf(d: map<string, Json>, k: string): Json {
    if k in d then d[k] else Null
  }

  function Merge(target: Json, other: Json, defaults: Json): Json
    decreases other
  {
    if target.Obj? && other.Obj? && defaults.Obj? then
      Obj(MergeFields(target.fields, other, defaults.fields, other.fields.Keys))
    else if other != defaults then other
    else target
  }

  /** The fields of `target` after those of `other` named in `done` have been merged in. */
  function MergeFields(t: map<string, Json>, other: Json, d: map<string, Json>, done: set<string>): map<string, Json>
    requires other.Obj? && done <= other.fields.Keys
    decreases other, 0
  {
    map k | k in t.Keys + done && (k in t || other.fields[k] != DefaultOf(d, k)) ::
      if k !in done then t[k]
      else if k in t then Merge(t[k], other.fields[k], DefaultOf(d, k))
      else other.fields[k]
  }

  function MergeFrom(shape: Shape, settings: Json, other: Json): Json {
    match Read(shape, Merge(settings, other, Default(shape)))
    case Some(merged) => merged
    case None => settings
  }

  // ---------------------------------------------------------------- setting and getting

  /** The JSON reader and printer, which are not part of this model. */
  datatype Codec = Codec(read: string -> Option<Json>, show: Json -> string)

  /**
   What the model assumes of JSON texts: integers, `null` and lists of texts read back, and the
   text of a JSON string is never the string it denotes.
   */
  ghost predicate Faithful(codec: Codec) {
    && (forall n :: I64_MIN <= n <= U64_MAX ==> codec.read(ShowInt(n)) == Some(Num(n)))
    && codec.read("null") == Some(Null)
    && (forall j :: Accepts(Texts, j) ==> codec.read(codec.show(j)) == Some(j))
    && (forall text :: codec.read(text) != Some(Str(text)))
  }

  /** The same of the trees of one shape: they are printed and read back whole. */
  ghost predicate FaithfulOn(codec: Codec, shape: Shape) {
    forall q, j :: ShapeAt(shape, q).Some? && Fits(ShapeAt(shape, q).value, j) && j.Obj? ==> codec.read(codec.show(j)) == Some(j)
  }

  datatype SetError =
    PathNotFound | ParentNotObject | ExpectedBoolean | ExpectedInteger | InvalidArray | InvalidObject | FailedToApply

  datatype Result<+T> = Ok(value: T) | Err(error: SetError)

  function OrElse(read: Option<Json>, error: SetError): Result<Json> {
    if read.Some? then Ok(read.value) else Err(error)
  }

  function Number(read: Option<int>): Option<Json> {
    if read.Some? then Some(Num(read.value)) else None
  }

  /** The text as a value of the type of what is there already. */
  function Convert(codec: Codec, existing: Option<Json>, text: string): Result<Json> {
    if existing.None? then Ok(ReadOrText(codec, text))
    else
      match existing.value
      case Bool(_) =>
        if text == "true" then Ok(Bool(true)) else if text == "false" then Ok(Bool(false)) else Err(ExpectedBoolean)
      case Num(n) => OrElse(Number(if 0 <= n <= U64_MAX then ReadU64(text) else ReadI64(text)), ExpectedInteger)
      case Null => Ok(ReadOrText(codec, text))
      case Arr(_) => OrElse(codec.read(text), InvalidArray)
      case Obj(_) => OrElse(codec.read(text), InvalidObject)
      case Str(_) => Ok(Str(text))
  }

  function ReadOrText(codec: Codec, text: string): Json {
    var read := codec.read(text);
    if read.Some? then read.value else Str(text)
  }

  /** Walk to the parent of the last name and put the converted text there. */
  function Place(codec: Codec, j: Json, path: Path, text: string): Result<Json>
    requires path != []
    decreases path
  {
    if |path| == 1 then
      if !j.Obj? then Err(ParentNotObject)
      else
        match Convert(codec, At(j, path), text)
        case Err(e) => Err(e)
        case Ok(v) => Ok(Obj(j.fields[path[0] := v]))
    else if !j.Obj? || path[0] !in j.fields then Err(PathNotFound)
    else
      match Place(codec, j.fields[path[0]], path[1..], text)
      case Err(e) => Err(e)
      case Ok(v) => Ok(Obj(j.fields[path[0] := v]))
  }

  function Set(codec: Codec, shape: Shape, settings: Json, path: string, text: string): Result<Json> {
    match Place(codec, settings, Split(path), text)
    case Err(e) => Err(e)
    case Ok(placed) => OrElse(Read(shape, placed), FailedToApply)
  }

  /** The settings after a call of `set`; a failed call leaves them as they were. */
  function AfterSet(codec: Codec, shape: Shape, settings: Json, path: string, text: string): Json {
    var r := Set(codec, shape, settings, path, text);
    if r.Ok? then r.value else settings
  }

  /** What `set` leaves at a node of this shape, leaf or section. */
  function NewNode(codec: Codec, shape: Shape, existing: Json, text: string): Json {
    match Convert(codec, Some(existing), text)
    case Err(_) => existing
    case Ok(v) =>
      match Read(shape, v)
      case Some(read) => read
      case None => existing
  }

  function NewLeaf(codec: Codec, kind: Kind, existing: Json, text: string): Json {
    NewNode(codec, Leaf(kind), existing, text)
  }

  function ShowBool(b: bool): string { if b then "true" else "false" }

  function Shown(codec: Codec, j: Json): string {
    match j
    case Str(s) => s
    case Num(n) => ShowInt(n)
    case Bool(b) => ShowBool(b)
    case Null => "null"
    case _ => codec.show(j)
  }

  function Get(codec: Codec, settings: Json, path: string): Option<string> {
    var j := At(settings, Split(path));
    if j.Some? then Some(Shown(codec, j.value)) else None
  }

  function Reset(codec: Codec, shape: Shape, settings: Json, path: string): Json {
    var initial := Get(codec, Default(shape), path);
    if initial.Some? then AfterSet(codec, shape, settings, path, initial.value) else settings
  }

  // ---------------------------------------------------------------- the database map

  type DbMap = map<string, Json>

  function Stored(db: DbMap, key: string): Option<Json> {
    if key in db then Some(db[key]) else None
  }

  function LeafAt(j: Json, path: Path): Option<Json> {
    var found := At(j, path);
    if found.Some? && !found.value.Obj? then found else None
  }

  /** `db` holds the leaves of the tree under their dotted paths, and nothing else. */
  ghost predicate Flattens(j: Json, db: DbMap) {
    forall key :: Stored(db, key) == LeafAt(j, Split(key))
  }

  /** No stored key names a whole section. */
  predicate SectionFree(shape: Shape, db: DbMap) {
    forall key :: key in db ==> ShapeAt(shape, Split(key)).None? || IsLeaf(shape, Split(key))
  }

  /** Sections may be stored whole, but then nothing within them is stored besides. */
  predicate Uncrossed(shape: Shape, keys: set<string>) {
    forall s, t :: s in keys && t in keys && Within(shape, Split(s), Split(t)) ==> s == t
  }

  predicate Within(shape: Shape, outer: Path, inner: Path) {
    outer <= inner && ShapeAt(shape, inner).Some?
  }

  /** One stored value applied to defaults: a null is skipped, and so is what does not convert. */
  function ApplyStored(codec: Codec, shape: Shape, settings: Json, key: string, stored: Json): Json {
    if stored.Null? then settings else AfterSet(codec, shape, settings, key, Shown(codec, stored))
  }

  /** The settings after stored keys have been applied to the defaults in this order. */
  function LoadInOrder(codec: Codec, shape: Shape, db: DbMap, order: seq<string>): Json
    requires AllStored(db, order)
  {
    if order == [] then Default(shape)
    else
      var last := order[|order| - 1];
      ApplyStored(codec, shape, LoadInOrder(codec, shape, db, order[..|order| - 1]), last, db[last])
  }

  predicate AllStored(db: DbMap, order: seq<string>) { forall i :: 0 <= i < |order| ==> order[i] in db }

  function Named(order: seq<string>): set<string> { set key | key in order }

  predicate Distinct(order: seq<string>) { forall i, j :: 0 <= i < j < |order| ==> order[i] != order[j] }

  /** One order in which the whole map may be walked. */
  predicate Enumerates(order: seq<string>, db: DbMap) {
    AllStored(db, order) && Distinct(order) && Named(order) == db.Keys
  }

  /** What a node of this shape becomes when `stored` is loaded over the defaults. */
  function RestoredNode(codec: Codec, shape: Shape, stored: Json): Json {
    if stored.Null? then Default(shape) else NewNode(codec, shape, Default(shape), Shown(codec, stored))
  }

  function Restored(codec: Codec, kind: Kind, stored: Option<Json>): Json {
    if stored.None? then KindDefault(kind) else RestoredNode(codec, Leaf(kind), stored.value)
  }

  /** The length of the longest of the first `n` prefixes of `p` that is a key in `done`; 0 if none is. */
  function CoverOf(done: set<string>, p: Path, n: nat): (k: nat)
    requires n <= |p|
    ensures k <= n && (k > 0 ==> Join(p[..k]) in done)
    ensures forall m :: k < m <= n ==> Join(p[..m]) !in done
  {
    if n == 0 then 0 else if Join(p[..n]) in done then n else CoverOf(done, p, n - 1)
  }

  /** What a leaf holds once the keys in `done` have been loaded. */
  function LoadedLeaf(codec: Codec, shape: Shape, db: DbMap, done: set<string>, p: Path): Option<Json>
    requires IsLeaf(shape, p) && done <= db.Keys
  {
    var k := CoverOf(done, p, |p|);
    if k == 0 then Some(KindDefault(KindAt(shape, p)))
    else
      match ShapeAt(shape, p[..k])
      case Some(node) => At(RestoredNode(codec, node, db[Join(p[..k])]), p[k..])
      case None => None
  }

  /** The settings part way through loading, or at its end when all keys are done: each leaf comes
      from the stored key that names it or a section around it, and else is the default. */
  ghost predicate Loaded(codec: Codec, shape: Shape, db: DbMap, done: set<string>, j: Json) {
    && Fits(shape, j) && done <= db.Keys
    && forall p :: IsLeaf(shape, p) ==> At(j, p) == LoadedLeaf(codec, shape, db, done, p)
  }

  /** The same when no key names a section: `j` is the default tree with every leaf loaded from `db`. */
  ghost predicate Restores(codec: Codec, shape: Shape, db: DbMap, j: Json) {
    && Fits(shape, j)
    && forall p :: IsLeaf(shape, p) ==> At(j, p) == Some(Restored(codec, KindAt(shape, p), Stored(db, Join(p))))
  }
}
