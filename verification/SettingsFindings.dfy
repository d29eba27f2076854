/** Settings that do not come back, and stored keys whose order matters. */
module SettingsFindings {
  import opened Basics
  import opened DottedPaths
  import opened SettingsTree
  import opened SettingsProperties
  import Structs = SettingsShape

  /** Settings with the defaults everywhere but in one leaf. */
  function With(shape: Shape, p: Path, v: Json): Json
    requires At(Default(shape), p).Some?
  {
    Put(Default(shape), p, v)
  }

  lemma WithFits(shape: Shape, p: Path, v: Json)
    requires Proper(shape) && IsLeaf(shape, p) && Accepts(KindAt(shape, p), v)
    ensures At(Default(shape), p).Some? && Fits(shape, With(shape, p, v)) && At(With(shape, p, v), p) == Some(v)
  {
    DefaultFits(shape);
    FitsAt(shape, Default(shape), p);
    PutFits(shape, Default(shape), p, v);
    PutAt(shape, Default(shape), p, v, p);
    assert p[|p|..] == [];
  }

  /** An optional field that holds the text "null" is stored, and is unset when it is loaded again. */
  lemma NullTextLoadsUnset(codec: Codec, shape: Shape, p: Path, stored: DbMap, loaded: Json)
    requires Faithful(codec) && Proper(shape) && shape.Section? && IsLeaf(shape, p) && KindAt(shape, p) == MaybeText
    requires At(Default(shape), p).Some? && Flattens(With(shape, p, Str("null")), stored) && Restores(codec, shape, stored, loaded)
    ensures Fits(shape, With(shape, p, Str("null"))) && At(With(shape, p, Str("null")), p) == Some(Str("null"))
    ensures At(loaded, p) == Some(Null)
  {
    WithFits(shape, p, Str("null"));
    StoredLeaf(shape, With(shape, p, Str("null")), stored, p);
    assert codec.read("null") == Some(Null);
  }

  /** A section stored whole and one of its texts stored besides: the settings depend on which of
      the two keys comes last. */
  lemma OrderMatters(codec: Codec, shape: Shape, q: Path, rest: Path, whole: string, part: string)
    requires FaithfulOn(codec, shape) && Proper(shape) && ShapeAt(shape, q).Some? && q != [] && rest != []
    requires IsLeaf(ShapeAt(shape, q).value, rest) && KindAt(ShapeAt(shape, q).value, rest).Text?
    ensures At(Default(ShapeAt(shape, q).value), rest).Some?
    ensures
      var section := With(ShapeAt(shape, q).value, rest, Str(whole));
      var first, second := Join(q), Join(q + rest);
      var sectionThenPart := ApplyStored(codec, shape, ApplyStored(codec, shape, Default(shape), first, section), second, Str(part));
      var partThenSection := ApplyStored(codec, shape, ApplyStored(codec, shape, Default(shape), second, Str(part)), first, section);
      && At(sectionThenPart, q + rest) == Some(Str(part))
      && At(partThenSection, q + rest) == Some(Str(whole))
  {
    var node := ShapeAt(shape, q).value;
    ProperAt(shape, q);
    WithFits(node, rest, Str(whole));
    var section := With(node, rest, Str(whole));
    ShapeBelow(shape, q, rest);
    DefaultFits(shape);
    var afterSection := ApplyStored(codec, shape, Default(shape), Join(q), section);
    WholeSection(codec, shape, Default(shape), q, section);
    OneText(codec, shape, afterSection, q + rest, part);
    var afterPart := ApplyStored(codec, shape, Default(shape), Join(q + rest), Str(part));
    OneText(codec, shape, Default(shape), q + rest, part);
    WholeSection(codec, shape, afterPart, q, section);
    AtBelow(ApplyStored(codec, shape, afterPart, Join(q), section), q, rest);
  }

  lemma WholeSection(codec: Codec, shape: Shape, j: Json, q: Path, section: Json)
    requires FaithfulOn(codec, shape) && Proper(shape) && Fits(shape, j) && q != []
    requires ShapeAt(shape, q).Some? && ShapeAt(shape, q).value.Section? && Fits(ShapeAt(shape, q).value, section)
    ensures Fits(shape, ApplyStored(codec, shape, j, Join(q), section))
    ensures At(ApplyStored(codec, shape, j, Join(q), section), q) == Some(section)
  {
    ProperAt(shape, q);
    FitsAt(shape, j, q);
    SetChangesOneNode(codec, shape, j, q, Shown(codec, section));
    assert codec.read(codec.show(section)) == Some(section);
    ReadFits(ShapeAt(shape, q).value, section);
    PutFits(shape, j, q, section);
    PutThere(j, q, section);
  }

  lemma {:induction false} PutThere(j: Json, q: Path, v: Json)
    requires At(j, q).Some?
    ensures At(Put(j, q, v), q) == Some(v)
  {
    if q != [] { PutThere(j.fields[q[0]], q[1..], v); }
  }

  lemma OneText(codec: Codec, shape: Shape, j: Json, p: Path, text: string)
    requires Proper(shape) && Fits(shape, j) && IsLeaf(shape, p) && KindAt(shape, p).Text? && p != []
    ensures Fits(shape, ApplyStored(codec, shape, j, Join(p), Str(text)))
    ensures At(ApplyStored(codec, shape, j, Join(p), Str(text)), p) == Some(Str(text))
  {
    ProperAt(shape, p);
    FitsAt(shape, j, p);
    SetChangesOneLeaf(codec, shape, j, p, text);
  }

  lemma TextInSection(shape: Shape, section: string, name: string)
    requires ShapeAt(shape, [section, name]).Some?
    ensures ShapeAt(shape, [section]).Some?
    ensures ShapeAt(ShapeAt(shape, [section]).value, [name]) == ShapeAt(shape, [section, name])
  {
    assert [section, name][..1] == [section] && [section] + [name] == [section, name];
    PrefixInShape(shape, [section, name], 1);
    ShapeBelow(shape, [section], [name]);
  }

  lemma BothHappenIn(shape: Shape)
    requires ShapeAt(shape, ["selected_model"]) == Some(Leaf(MaybeText))
    requires ShapeAt(shape, ["agent", "name"]) == Some(Leaf(Text("superwave")))
    ensures IsLeaf(shape, ["selected_model"]) && KindAt(shape, ["selected_model"]) == MaybeText
    ensures ShapeAt(shape, ["agent"]).Some?
    ensures IsLeaf(ShapeAt(shape, ["agent"]).value, ["name"]) && KindAt(ShapeAt(shape, ["agent"]).value, ["name"]).Text?
  {
    TextInSection(shape, "agent", "name");
  }

  /** The structs have both: an optional text at the top, and a text in a section. */
  lemma BothHappen()
    ensures var shape := Structs.Settings();
            && Proper(shape) && shape.Section?
            && IsLeaf(shape, ["selected_model"]) && KindAt(shape, ["selected_model"]) == MaybeText
            && ShapeAt(shape, ["agent"]).Some?
            && IsLeaf(ShapeAt(shape, ["agent"]).value, ["name"]) && KindAt(ShapeAt(shape, ["agent"]).value, ["name"]).Text?
  {
    Structs.SettingsAreProper();
    Structs.TwoFields();
    BothHappenIn(Structs.Settings());
  }
}
