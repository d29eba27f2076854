/** Dotted setting paths, such as `agent.name`, and the lists of names they stand for. */
module DottedPaths {
  type Path = seq<string>

  /** A field name: not empty and without the separator. */
  predicate PlainName(name: string) {
    name != "" && '.' !in name
  }

  predicate PlainPath(path: Path) {
    forall k :: 0 <= k < |path| ==> PlainName(path[k])
  }

  /** The names between the dots; the empty text has one empty name. */
  function Split(text: string): (path: Path)
    ensures path != []
    ensures forall k :: 0 <= k < |path| ==> '.' !in path[k]
  {
    if text == "" then [""]
    else
      var rest := Split(text[1..]);
      if text[0] == '.' then [""] + rest else [[text[0]] + rest[0]] + rest[1..]
  }

  function Join(path: Path): string {
    if path == [] then "" else if |path| == 1 then path[0] else path[0] + "." + Join(path[1..])
  }

  lemma {:induction false} SplitName(name: string)
    requires '.' !in name
    ensures Split(name) == [name]
  {
    if name != "" {
      assert name[0] in name;
      assert forall c :: c in name[1..] ==> c in name;
      SplitName(name[1..]);
      assert [name[0]] + name[1..] == name;
    }
  }

  lemma {:induction false} SplitAtDot(name: string, rest: string)
    requires '.' !in name
    ensures Split(name + "." + rest) == [name] + Split(rest)
  {
    var text := name + "." + rest;
    if name == "" {
      assert text[1..] == rest;
    } else {
      assert name[0] in name;
      assert forall c :: c in name[1..] ==> c in name;
      SplitAtDot(name[1..], rest);
      assert text[1..] == name[1..] + "." + rest;
      assert [name[0]] + name[1..] == name;
    }
  }

  lemma {:induction false} SplitJoin(path: Path)
    requires path != [] && forall k :: 0 <= k < |path| ==> '.' !in path[k]
    ensures Split(Join(path)) == path
  {
    if |path| == 1 {
      SplitName(path[0]);
    } else {
      SplitAtDot(path[0], Join(path[1..]));
      SplitJoin(path[1..]);
    }
  }

  lemma {:induction false} JoinSplit(text: string)
    ensures Join(Split(text)) == text
  {
    if text != "" {
      var rest := Split(text[1..]);
      JoinSplit(text[1..]);
      if text[0] == '.' {
        assert ([""] + rest)[1..] == rest;
        assert "" + "." + text[1..] == text;
      } else {
        var path := [[text[0]] + rest[0]] + rest[1..];
        assert path[1..] == rest[1..];
        assert Join(path) == [text[0]] + Join(rest);
      }
    }
  }

  /** How a path grows while a tree is walked from its root. */
  function Child(prefix: string, name: string): string {
    if prefix == "" then name else prefix + "." + name
  }

  lemma {:induction false} ChildJoins(path: Path, name: string)
    requires PlainPath(path)
    ensures Child(Join(path), name) == Join(path + [name])
  {
    if path == [] {
      assert path + [name] == [name];
    } else {
      assert PlainName(path[0]);
      assert Join(path) != "";
      assert (path + [name])[1..] == path[1..] + [name];
      ChildJoins(path[1..], name);
      if |path| > 1 {
        assert PlainName(path[1]);
      }
    }
  }
}
