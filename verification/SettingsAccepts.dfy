/**
 Which texts each setting takes and what it then holds, type by type, and what reading a section makes
 of objects that are not complete.
 */
module SettingsAccepts {
  import opened Basics
  import opened DottedPaths
  import opened Decimals
  import opened SettingsTree
  import opened SettingsProperties

  // ---------------------------------------------------------------- leaves

  /** A decimal text of a number up to `limit` is taken; a larger one does not apply, and what is no
      decimal text of 64 bits is no number. */
  ghost predicate TakesDecimal(text: string, limit: int, r: Result<Json>) {
    && (forall n :: Decimal(text, n) && n <= limit ==> r == Ok(Num(n)))
    && (forall n :: Decimal(text, n) && limit < n <= U64_MAX ==> r == Err(FailedToApply))
    && ((forall n :: Decimal(text, n) ==> n > U64_MAX) ==> r == Err(ExpectedInteger))
  }

  /** Over a negative number, signed decimals of 64 bits are taken. */
  ghost predicate TakesSigned(text: string, r: Result<Json>) {
    && (forall n :: SignedDecimal(text, n) && I64_MIN <= n <= I64_MAX ==> r == Ok(Num(n)))
    && ((forall n :: SignedDecimal(text, n) ==> !(I64_MIN <= n <= I64_MAX)) ==> r == Err(ExpectedInteger))
  }

  predicate ListOfTexts(v: Json) { v.Arr? && forall k :: 0 <= k < |v.items| ==> v.items[k].Str? }

  /** What a leaf of this type, holding `existing`, makes of a text: the value it takes, or the error. */
  ghost predicate Takes(codec: Codec, kind: Kind, existing: Json, text: string, r: Result<Json>) {
    var read := codec.read(text);
    match kind
    case Flag(_) =>
      r == if text == "true" then Ok(Bool(true)) else if text == "false" then Ok(Bool(false)) else Err(ExpectedBoolean)
    case Unsigned(limit, _) => TakesDecimal(text, limit, r)
    case Text(_) => r == Ok(Str(text))
    case Choice(names, _) => r == if text in names then Ok(Str(text)) else Err(FailedToApply)
    case Texts =>
      r == if read.None? then Err(InvalidArray) else if ListOfTexts(read.value) then Ok(read.value) else Err(FailedToApply)
    case MaybeText =>
      if existing.Str? || read.None? then r == Ok(Str(text))
      else r == if read.value.Null? || read.value.Str? then Ok(read.value) else Err(FailedToApply)
    case MaybeUnsigned(limit) =>
      if existing.Num? then TakesDecimal(text, limit, r)
      else
        r == if read.Some? && (read.value.Null? || (read.value.Num? && 0 <= read.value.n <= limit)) then Ok(read.value) else Err(FailedToApply)
    case MaybeSigned =>
      if existing.Num? && existing.n >= 0 then TakesDecimal(text, I64_MAX, r)
      else if existing.Num? then TakesSigned(text, r)
      else
        r == if read.Some? && (read.value.Null? || (read.value.Num? && I64_MIN <= read.value.n <= I64_MAX)) then Ok(read.value) else Err(FailedToApply)
  }

  /** Setting node `q` converts the text, reads it as that node, and puts it in place. */
  lemma SetAtNode(codec: Codec, shape: Shape, j: Json, q: Path, text: string)
    requires Proper(shape) && Fits(shape, j) && q != [] && ShapeAt(shape, q).Some? && PlainPath(q)
    ensures At(j, q).Some?
    ensures Set(codec, shape, j, Join(q), text) ==
            match Convert(codec, At(j, q), text)
            case Err(e) => Err(e)
            case Ok(v) =>
              match Read(ShapeAt(shape, q).value, v)
              case None => Err(FailedToApply)
              case Some(read) => Ok(Put(j, q, read))
  {
    SplitJoin(q);
    FitsAt(shape, j, q);
    PlaceNode(codec, shape, j, q, text);
    var v := Convert(codec, At(j, q), text);
    if v.Ok? { ReadPut(shape, j, q, v.value); }
  }

  /** The value a leaf takes. */
  function Taken(codec: Codec, kind: Kind, existing: Json, text: string): Result<Json> {
    match Convert(codec, Some(existing), text)
    case Err(e) => Err(e)
    case Ok(v) => if Accepts(kind, v) then Ok(v) else Err(FailedToApply)
  }

  lemma NumberTaken(codec: Codec, kind: Kind, existing: Json, text: string)
    requires existing.Num? && ProperKind(kind) && Accepts(kind, existing)
    ensures Takes(codec, kind, existing, text, Taken(codec, kind, existing, text))
  {
    forall n ensures ReadU64(text) == Some(n) <==> Decimal(text, n) && n <= U64_MAX { ReadU64Iff(text, n); }
    forall n ensures ReadI64(text) == Some(n) <==> SignedDecimal(text, n) && I64_MIN <= n <= I64_MAX { ReadI64Iff(text, n); }
  }

  lemma OtherTaken(codec: Codec, kind: Kind, existing: Json, text: string)
    requires !existing.Num? && Accepts(kind, existing)
    ensures Takes(codec, kind, existing, text, Taken(codec, kind, existing, text))
  {}

  /** Setting a leaf: the value that its type takes from the text is put in place, and any other text
      fails with that type's error. */
  lemma SetTakes(codec: Codec, shape: Shape, j: Json, p: Path, text: string) returns (r: Result<Json>)
    requires Proper(shape) && Fits(shape, j) && IsLeaf(shape, p) && p != []
    ensures At(j, p).Some? && Takes(codec, KindAt(shape, p), At(j, p).value, text, r)
    ensures Set(codec, shape, j, Join(p), text) == if r.Ok? then Ok(Put(j, p, r.value)) else Err(r.error)
  {
    ProperAt(shape, p);
    FitsAt(shape, j, p);
    SetAtNode(codec, shape, j, p, text);
    var kind, existing := KindAt(shape, p), At(j, p).value;
    r := Taken(codec, kind, existing, text);
    if existing.Num? { NumberTaken(codec, kind, existing, text); } else { OtherTaken(codec, kind, existing, text); }
  }

  // ---------------------------------------------------------------- sections

  /** The object gives this value for a field, under one of the field's names, or leaves it out when
      the value is the default. */
  ghost predicate GivesField(shape: Shape, o: map<string, Json>, k: string, v: Json)
    requires shape.Section? && k in shape.fields
  {
    var second := k in shape.alias && shape.alias[k] in o;
    && (k in o ==> o[k] == v && !second)
    && (second ==> o[shape.alias[k]] == v)
    && (k !in o && !second ==> v == Default(shape.fields[k]))
  }

  /** The object gives every field of `j`; it may hold anything else besides. */
  ghost predicate Gives(shape: Shape, o: map<string, Json>, j: Json)
    requires shape.Section? && Fits(shape, j)
  {
    forall k :: k in shape.fields ==> GivesField(shape, o, k, j.fields[k])
  }

  lemma GivenField(shape: Shape, o: map<string, Json>, k: string, v: Json)
    requires Proper(shape) && shape.Section? && k in shape.fields && Fits(shape.fields[k], v) && GivesField(shape, o, k, v)
    ensures ReadField(shape, o, k) == Some(v)
  {
    ReadFits(shape.fields[k], v);
  }

  lemma GivenOnce(shape: Shape, o: map<string, Json>, k: string, v: Json)
    requires Proper(shape) && shape.Section? && k in shape.alias && GivesField(shape, o, k, v)
    ensures !(k in o && shape.alias[k] in o)
  {}

  /** Reading an object fills in what it leaves out, takes either name, and ignores what it does not know. */
  lemma ReadFillsIn(shape: Shape, o: map<string, Json>, j: Json)
    requires Proper(shape) && shape.Section? && Fits(shape, j) && Gives(shape, o, j)
    ensures Read(shape, Obj(o)) == Some(j)
  {
    forall k | k in shape.fields ensures ReadField(shape, o, k) == Some(j.fields[k]) { GivenField(shape, o, k, j.fields[k]); }
    forall k | k in shape.alias ensures !(k in o && shape.alias[k] in o) { GivenOnce(shape, o, k, j.fields[k]); }
    assert (map k | k in shape.fields :: ReadField(shape, o, k).value) == j.fields;
  }

  /** Reading fails for what is no object, for a field given under both its names, and for a field
      whose given value does not read. */
  lemma ReadRefuses(shape: Shape, v: Json)
    requires Proper(shape) && shape.Section?
    requires
      || !v.Obj?
      || (exists k :: k in shape.alias && k in v.fields && shape.alias[k] in v.fields)
      || (exists k :: k in shape.fields && k in v.fields && Read(shape.fields[k], v.fields[k]).None?)
    ensures Read(shape, v).None?
  {
    if v.Obj? && exists k :: k in shape.fields && k in v.fields && Read(shape.fields[k], v.fields[k]).None? {
      var k :| k in shape.fields && k in v.fields && Read(shape.fields[k], v.fields[k]).None?;
      assert ReadField(shape, v.fields, k).None?;
    }
  }

  /** Setting a section takes the text of a JSON object that gives a section, and puts that in place. */
  lemma SetSection(codec: Codec, shape: Shape, j: Json, q: Path, text: string)
    requires Proper(shape) && Fits(shape, j) && q != [] && ShapeAt(shape, q).Some? && ShapeAt(shape, q).value.Section?
    ensures At(j, q).Some?
    ensures codec.read(text).None? ==> Set(codec, shape, j, Join(q), text) == Err(InvalidObject)
    ensures codec.read(text).Some? && !codec.read(text).value.Obj? ==> Set(codec, shape, j, Join(q), text) == Err(FailedToApply)
    ensures forall o, node :: codec.read(text) == Some(Obj(o)) && Fits(ShapeAt(shape, q).value, node) && Gives(ShapeAt(shape, q).value, o, node) ==>
              Set(codec, shape, j, Join(q), text) == Ok(Put(j, q, node))
  {
    ProperAt(shape, q);
    FitsAt(shape, j, q);
    SetAtNode(codec, shape, j, q, text);
    forall o, node | codec.read(text) == Some(Obj(o)) && Fits(ShapeAt(shape, q).value, node) && Gives(ShapeAt(shape, q).value, o, node)
      ensures Set(codec, shape, j, Join(q), text) == Ok(Put(j, q, node))
    {
      ReadFillsIn(ShapeAt(shape, q).value, o, node);
    }
  }

  // ---------------------------------------------------------------- paths that are not in the settings

  /** How setting an unknown path goes: on the way, at a leaf, for a second name, or without a trace. */
  lemma StraySets(codec: Codec, shape: Shape, j: Json, path: string, text: string)
    requires Proper(shape) && Fits(shape, j) && ShapeAt(shape, Split(path)).None?
    ensures var p := Split(path);
            var parent := ShapeAt(shape, p[..|p| - 1]);
            Set(codec, shape, j, path, text) ==
            if parent.None? then Err(PathNotFound)
            else if parent.value.Leaf? then Err(ParentNotObject)
            else if p[|p| - 1] in parent.value.alias.Values then Err(FailedToApply)
            else Ok(j)
  {
    PlaceStray(codec, shape, j, Split(path), text);
    StrayError(codec, shape, j, Split(path), text);
  }

  lemma {:induction false} StrayError(codec: Codec, shape: Shape, j: Json, p: Path, text: string)
    requires Proper(shape) && Fits(shape, j) && p != [] && ShapeAt(shape, p).None?
    ensures var parent := ShapeAt(shape, p[..|p| - 1]);
            && (parent.None? ==> Place(codec, j, p, text) == Err(PathNotFound))
            && (parent.Some? && parent.value.Leaf? ==> Place(codec, j, p, text) == Err(ParentNotObject))
  {
    if |p| > 1 {
      assert p[..|p| - 1][0] == p[0];
      if shape.Section? && p[0] in shape.fields {
        assert p[..|p| - 1][1..] == p[1..][..|p[1..]| - 1];
        StrayError(codec, shape.fields[p[0]], j.fields[p[0]], p[1..], text);
      }
    } else {
      assert p[..0] == [];
    }
  }
}
