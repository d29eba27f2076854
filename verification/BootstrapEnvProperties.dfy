/** What the `.env` writer and updater promise (src/bootstrap.rs). */
module BootstrapEnvProperties {
  import opened Basics
  import opened BootstrapEnv

  // ---------------------------------------------------------------- escaping

  function EscapeChar(c: char): string {
    if c == '\\' then "\\\\" else if c == '"' then "\\\"" else [c]
  }

  function EscapeOnce(value: string): string {
    if value == "" then "" else EscapeChar(value[0]) + EscapeOnce(value[1..])
  }

  lemma {:induction false} ReplaceAllAppend(a: string, b: string, c: char, to: string)
    ensures ReplaceAll(a + b, c, to) == ReplaceAll(a, c, to) + ReplaceAll(b, c, to)
  {
    if a == "" {
      assert a + b == b;
    } else {
      assert (a + b)[1..] == a[1..] + b;
      ReplaceAllAppend(a[1..], b, c, to);
    }
  }

  /** The two passes do not disturb each other. */
  lemma {:induction false} EscapeIsOnePass(value: string)
    ensures Escape(value) == EscapeOnce(value)
  {
    if value != "" {
      EscapeIsOnePass(value[1..]);
      var head := if value[0] == '\\' then "\\\\" else [value[0]];
      ReplaceAllAppend(head, ReplaceAll(value[1..], '\\', "\\\\"), '"', "\\\"");
      EscapeHead(value[0]);
    }
  }

  lemma EscapeHead(c: char)
    ensures ReplaceAll(if c == '\\' then "\\\\" else [c], '"', "\\\"") == EscapeChar(c)
  {
    assert [c][1..] == "" && "\\\\"[1..] == "\\" && "\\"[1..] == "";
    assert ReplaceAll("\\", '"', "\\\"") == "\\";
    assert ReplaceAll([c], '"', "\\\"") == (if c == '"' then "\\\"" else [c]) + "";
  }

  // ---------------------------------------------------------------- a quote-aware reader

  datatype Quoted = Quoted(value: string, rest: string)

  /** The value up to the closing quote; a backslash makes the next character literal. */
  function ReadQuoted(text: string): (r: Option<Quoted>)
    ensures r.Some? ==> |r.value.rest| < |text|
  {
    if text == "" then None
    else if text[0] == '"' then Some(Quoted("", text[1..]))
    else
      var escaped := text[0] == '\\';
      if escaped && |text| == 1 then None
      else
        var c := if escaped then text[1] else text[0];
        var r := ReadQuoted(text[if escaped then 2 else 1..]);
        if r.None? then None else Some(Quoted([c] + r.value.value, r.value.rest))
  }

  /** `KEY="value"` and a line feed, again and again. */
  function ReadVars(text: string): Option<seq<Var>>
    decreases |text|
  {
    if text == "" then Some([])
    else
      var n := Find(text, '=');
      if n + 1 >= |text| || text[n + 1] != '"' then None
      else
        var quoted := ReadQuoted(text[n + 2..]);
        if quoted.None? || quoted.value.rest == "" || quoted.value.rest[0] != '\n' then None
        else
          var more := ReadVars(quoted.value.rest[1..]);
          if more.None? then None else Some([Var(text[..n], quoted.value.value)] + more.value)
  }

  lemma {:induction false} ReadQuotedEscaped(value: string, rest: string)
    ensures ReadQuoted(EscapeOnce(value) + "\"" + rest) == Some(Quoted(value, rest))
  {
    var text := EscapeOnce(value) + "\"" + rest;
    if value == "" {
      assert text[1..] == rest;
    } else {
      ReadQuotedEscaped(value[1..], rest);
      var tail := EscapeOnce(value[1..]) + "\"" + rest;
      var head := EscapeChar(value[0]);
      assert text == head + tail;
      assert text[|head|..] == tail;
      assert value == [value[0]] + value[1..];
    }
  }

  lemma {:induction false} FindIn(before: string, c: char, after: string)
    requires c !in before
    ensures Find(before + [c] + after, c) == |before|
  {
    if before != "" {
      assert before[0] in before && forall x :: x in before[1..] ==> x in before;
      assert (before + [c] + after)[1..] == before[1..] + [c] + after;
      FindIn(before[1..], c, after);
    }
  }

  lemma ReadFirst(v: Var, more: string)
    requires '=' !in v.key
    ensures
      var text := EnvLine(v.key, v.value) + "\n" + more;
      var n := Find(text, '=');
      && text[..n] == v.key
      && n + 1 < |text| && text[n + 1] == '"'
      && ReadQuoted(text[n + 2..]) == Some(Quoted(v.value, "\n" + more))
  {
    EscapeIsOnePass(v.value);
    var quoted := EscapeOnce(v.value) + "\"" + ("\n" + more);
    assert EnvLine(v.key, v.value) + "\n" + more == v.key + "=\"" + quoted;
    FindEquals(v.key, quoted);
    ReadQuotedEscaped(v.value, "\n" + more);
  }

  lemma FindEquals(key: string, quoted: string)
    requires '=' !in key
    ensures
      var text := key + "=\"" + quoted;
      Find(text, '=') == |key| && text[..|key|] == key && text[|key| + 1] == '"' && text[|key| + 2..] == quoted
  {
    FindIn(key, '=', "\"" + quoted);
    assert key + "=\"" + quoted == key + ['='] + ("\"" + quoted);
  }

  /** Every printed list of variables reads back, whatever the values hold. */
  lemma {:induction false} PrintedVarsReadBack(vars: seq<Var>)
    requires forall k :: 0 <= k < |vars| ==> '=' !in vars[k].key
    ensures ReadVars(Print(vars)) == Some(vars)
  {
    if vars != [] {
      PrintedVarsReadBack(vars[1..]);
      var v, text := vars[0], Print(vars);
      assert text == EnvLine(v.key, v.value) + "\n" + Print(vars[1..]);
      ReadFirst(v, Print(vars[1..]));
      assert vars == [Var(text[..Find(text, '=')], v.value)] + vars[1..];
      assert ("\n" + Print(vars[1..]))[1..] == Print(vars[1..]);
    }
  }

  // ---------------------------------------------------------------- lines

  predicate NoBreak(text: string) { '\n' !in text }

  predicate NoBreaks(lines: seq<string>) { forall k :: 0 <= k < |lines| ==> NoBreak(lines[k]) }

  function Tidy(lines: seq<string>): seq<string> {
    if lines == [] then [] else [StripReturn(lines[0])] + Tidy(lines[1..])
  }

  lemma {:induction false} LinesHaveNoBreaks(text: string)
    ensures NoBreaks(Lines(text))
    decreases |text|
  {
    if text != "" {
      var n := Find(text, '\n');
      assert text[..|text|] == text;
      if n < |text| {
        LinesHaveNoBreaks(text[n + 1..]);
      }
    }
  }

  /** Writing lines and reading them again loses a carriage return at the end of each. */
  lemma {:induction false} LinesOfUnlines(lines: seq<string>)
    requires NoBreaks(lines)
    ensures Lines(Unlines(lines)) == Tidy(lines)
  {
    if lines != [] {
      var text := Unlines(lines);
      assert text == lines[0] + ['\n'] + Unlines(lines[1..]);
      FindIn(lines[0], '\n', Unlines(lines[1..]));
      assert text[..|lines[0]|] == lines[0] && text[|lines[0]| + 1..] == Unlines(lines[1..]);
      LinesOfUnlines(lines[1..]);
    }
  }

  lemma {:induction false} EscapeBreaksNothing(value: string)
    requires NoBreak(value)
    ensures NoBreak(EscapeOnce(value))
  {
    if value != "" {
      assert value[0] in value && forall c :: c in value[1..] ==> c in value;
      EscapeBreaksNothing(value[1..]);
    }
  }

  lemma EnvLineIsALine(key: string, value: string)
    requires NoBreak(key) && NoBreak(value)
    ensures NoBreak(EnvLine(key, value)) && !EndsInReturn(EnvLine(key, value)) && For(key, EnvLine(key, value))
  {
    EscapeIsOnePass(value);
    EscapeBreaksNothing(value);
    var line := EnvLine(key, value);
    assert line[|line| - 1] == '"';
    assert line[..|key| + 1] == key + "=";
  }

  lemma {:induction false} OthersAreLines(lines: seq<string>, key: string)
    requires NoBreaks(lines)
    ensures NoBreaks(Others(lines, key))
  {
    if lines != [] {
      OthersAreLines(lines[1..], key);
    }
  }

  lemma {:induction false} ReplacedAreLines(lines: seq<string>, key: string, line: string)
    requires NoBreaks(lines) && NoBreak(line)
    ensures NoBreaks(Replaced(lines, key, line))
  {
    if lines != [] {
      if For(key, lines[0]) {
        OthersAreLines(lines[1..], key);
      } else {
        ReplacedAreLines(lines[1..], key, line);
      }
    }
  }

  /** The lines of the updated text. */
  lemma UpsertedLines(existing: string, key: string, value: string)
    requires NoBreak(key) && NoBreak(value)
    ensures Lines(Upsert(existing, key, value)) == Tidy(Replaced(Lines(existing), key, EnvLine(key, value)))
  {
    EnvLineIsALine(key, value);
    LinesHaveNoBreaks(existing);
    ReplacedAreLines(Lines(existing), key, EnvLine(key, value));
    LinesOfUnlines(Replaced(Lines(existing), key, EnvLine(key, value)));
  }

  /** A key's prefix never reaches the carriage return at the end of a line. */
  lemma ForStripped(key: string, line: string)
    ensures For(key, StripReturn(line)) <==> For(key, line)
  {
    var prefix := key + "=";
    assert prefix[|key|] == '=';
    if prefix <= line && EndsInReturn(line) {
      assert line[|key|] == '=';
      assert prefix <= line[..|line| - 1];
    }
  }

  // ---------------------------------------------------------------- one line for the key

  function Mine(lines: seq<string>, key: string): seq<string> {
    if lines == [] then []
    else if For(key, lines[0]) then [lines[0]] + Mine(lines[1..], key)
    else Mine(lines[1..], key)
  }

  lemma {:induction false} OthersHaveNoMine(lines: seq<string>, key: string)
    ensures Mine(Others(lines, key), key) == [] && Others(Others(lines, key), key) == Others(lines, key)
  {
    if lines != [] {
      OthersHaveNoMine(lines[1..], key);
      if !For(key, lines[0]) {
        assert ([lines[0]] + Others(lines[1..], key))[1..] == Others(lines[1..], key);
      }
    }
  }

  lemma {:induction false} ReplacedHasOne(lines: seq<string>, key: string, line: string)
    requires For(key, line)
    ensures Mine(Replaced(lines, key, line), key) == [line]
    ensures Others(Replaced(lines, key, line), key) == Others(lines, key)
  {
    if lines == [] {
      assert [line][1..] == [];
    } else if For(key, lines[0]) {
      assert ([line] + Others(lines[1..], key))[1..] == Others(lines[1..], key);
      OthersHaveNoMine(lines[1..], key);
    } else {
      assert ([lines[0]] + Replaced(lines[1..], key, line))[1..] == Replaced(lines[1..], key, line);
      ReplacedHasOne(lines[1..], key, line);
    }
  }

  lemma {:induction false} TidyParts(lines: seq<string>, key: string)
    ensures Mine(Tidy(lines), key) == Tidy(Mine(lines, key))
    ensures Others(Tidy(lines), key) == Tidy(Others(lines, key))
  {
    if lines != [] {
      ForStripped(key, lines[0]);
      TidyParts(lines[1..], key);
      assert Tidy(lines)[1..] == Tidy(lines[1..]);
      assert ([lines[0]] + Mine(lines[1..], key))[1..] == Mine(lines[1..], key);
      assert ([lines[0]] + Others(lines[1..], key))[1..] == Others(lines[1..], key);
    }
  }

  /** After an update there is exactly one line for the key, and every other line is still there in order. */
  lemma UpsertLeavesOneLine(existing: string, key: string, value: string)
    requires NoBreak(key) && NoBreak(value)
    ensures Mine(Lines(Upsert(existing, key, value)), key) == [EnvLine(key, value)]
    ensures Others(Lines(Upsert(existing, key, value)), key) == Tidy(Others(Lines(existing), key))
  {
    var line := EnvLine(key, value);
    var lines := Replaced(Lines(existing), key, line);
    EnvLineIsALine(key, value);
    UpsertedLines(existing, key, value);
    ReplacedHasOne(Lines(existing), key, line);
    TidyParts(lines, key);
    assert Tidy([line]) == [line];
  }

  // ---------------------------------------------------------------- the last write wins

  predicate NoReturns(lines: seq<string>) { forall k :: 0 <= k < |lines| ==> !EndsInReturn(lines[k]) }

  lemma TidyCons(line: string, rest: seq<string>)
    ensures Tidy([line] + rest) == [StripReturn(line)] + Tidy(rest)
  {
    assert ([line] + rest)[1..] == rest;
  }

  lemma {:induction false} ReplacedTwice(lines: seq<string>, key: string, first: string, second: string)
    requires For(key, first) && For(key, second) && !EndsInReturn(second)
    ensures Replaced(Tidy(Replaced(lines, key, first)), key, second) == Tidy(Replaced(lines, key, second))
  {
    ForStripped(key, first);
    if lines == [] || For(key, lines[0]) {
      var rest := if lines == [] then [] else Others(lines[1..], key);
      if lines != [] { OthersHaveNoMine(lines[1..], key); }
      TidyParts(rest, key);
      TidyCons(first, rest);
      TidyCons(second, rest);
      assert ([StripReturn(first)] + Tidy(rest))[1..] == Tidy(rest);
    } else {
      ForStripped(key, lines[0]);
      ReplacedTwice(lines[1..], key, first, second);
      var a, b := Replaced(lines[1..], key, first), Replaced(lines[1..], key, second);
      TidyCons(lines[0], a);
      TidyCons(lines[0], b);
      assert ([StripReturn(lines[0])] + Tidy(a))[1..] == Tidy(a);
    }
  }

  lemma {:induction false} TidyUnlinesIff(lines: seq<string>)
    ensures |Unlines(Tidy(lines))| <= |Unlines(lines)|
    ensures Unlines(Tidy(lines)) == Unlines(lines) <==> NoReturns(lines)
    ensures |Unlines(Tidy(lines))| == |Unlines(lines)| <==> NoReturns(lines)
  {
    if lines != [] {
      var rest := lines[1..];
      TidyUnlinesIff(rest);
      assert Tidy(lines)[1..] == Tidy(rest);
      var a, b := Unlines(Tidy(lines)), Unlines(lines);
      assert a == StripReturn(lines[0]) + "\n" + Unlines(Tidy(rest));
      assert b == lines[0] + "\n" + Unlines(rest);
      assert |b| - |a| == (|lines[0]| - |StripReturn(lines[0])|) + (|Unlines(rest)| - |Unlines(Tidy(rest))|);
      if !EndsInReturn(lines[0]) {
        assert a[|lines[0]| + 1..] == Unlines(Tidy(rest)) && b[|lines[0]| + 1..] == Unlines(rest);
      }
      if NoReturns(rest) && !EndsInReturn(lines[0]) {
        forall k | 0 <= k < |lines| ensures !EndsInReturn(lines[k]) {
          assert k > 0 ==> lines[k] == rest[k - 1];
        }
      }
      if NoReturns(lines) {
        assert !EndsInReturn(lines[0]);
        forall k | 0 <= k < |rest| ensures !EndsInReturn(rest[k]) {
          assert rest[k] == lines[k + 1];
        }
      }
    }
  }

  lemma {:induction false} ReplacedReturns(lines: seq<string>, key: string, line: string)
    requires !EndsInReturn(line)
    ensures NoReturns(Replaced(lines, key, line)) <==> NoReturns(Others(lines, key))
  {
    if lines != [] {
      var rest := lines[1..];
      if For(key, lines[0]) {
        ConsReturns(line, Others(rest, key));
        assert Others(lines, key) == Others(rest, key);
      } else {
        ReplacedReturns(rest, key, line);
        ConsReturns(lines[0], Replaced(rest, key, line));
        ConsReturns(lines[0], Others(rest, key));
      }
    }
  }

  lemma ConsReturns(line: string, lines: seq<string>)
    ensures NoReturns([line] + lines) <==> !EndsInReturn(line) && NoReturns(lines)
  {
    var all := [line] + lines;
    if NoReturns(all) {
      assert !EndsInReturn(all[0]);
      forall k | 0 <= k < |lines| ensures !EndsInReturn(lines[k]) {
        assert lines[k] == all[k + 1];
      }
    }
  }

  /**
   A second update of a key hides the first, and updating twice is updating once, exactly when
   no other line of the file ends in a stray carriage return: each update eats one of those.
   */
  lemma LastWriteWinsIff(existing: string, key: string, first: string, second: string)
    requires NoBreak(key) && NoBreak(first) && NoBreak(second)
    ensures Upsert(Upsert(existing, key, first), key, second) == Upsert(existing, key, second)
      <==> NoReturns(Others(Lines(existing), key))
  {
    var lines := Lines(existing);
    EnvLineIsALine(key, first);
    EnvLineIsALine(key, second);
    UpsertedLines(existing, key, first);
    ReplacedTwice(lines, key, EnvLine(key, first), EnvLine(key, second));
    TidyUnlinesIff(Replaced(lines, key, EnvLine(key, second)));
    ReplacedReturns(lines, key, EnvLine(key, second));
  }

  lemma LineHasEquals(key: string, line: string)
    requires For(key, line)
    ensures '=' in line
  {
    assert line[|key|] == '=';
  }

  /** A file whose only line ends in a carriage return, and no line feed: the second update eats it. */
  lemma StrayReturnIsEaten(key: string, value: string)
    requires NoBreak(key) && NoBreak(value)
    ensures Upsert(Upsert("x\r", key, value), key, value) != Upsert("x\r", key, value)
  {
    var file := "x\r";
    assert file[0] == 'x' && file[1] == '\r' && |file| == 2;
    assert Find(file, '\n') == 2;
    assert Lines(file) == [file];
    if For(key, file) { LineHasEquals(key, file); }
    assert Others([file], key) == [file] + Others([file][1..], key);
    assert Others(Lines(file), key)[0] == file && EndsInReturn(file);
    LastWriteWinsIff(file, key, value, value);
  }

  // ---------------------------------------------------------------- look-ups

  /** What follows `KEY=` on the first line for the key. */
  function Raw(lines: seq<string>, key: string): Option<string> {
    if lines == [] then None
    else if For(key, lines[0]) then Some(lines[0][|key| + 1..])
    else Raw(lines[1..], key)
  }

  function StripOption(raw: Option<string>): Option<string> {
    if raw.Some? then Some(StripReturn(raw.value)) else None
  }

  lemma {:induction false} RawOfTidy(lines: seq<string>, key: string)
    ensures Raw(Tidy(lines), key) == StripOption(Raw(lines, key))
  {
    if lines != [] {
      ForStripped(key, lines[0]);
      RawOfTidy(lines[1..], key);
      if For(key, lines[0]) {
        assert lines[0][|key|] == '=';
        var raw := lines[0][|key| + 1..];
        assert raw != "" ==> raw[|raw| - 1] == lines[0][|lines[0]| - 1];
        assert StripReturn(lines[0])[|key| + 1..] == StripReturn(raw);
      }
    }
  }

  lemma {:induction false} RawOfReplaced(lines: seq<string>, key: string, line: string)
    requires For(key, line)
    ensures Raw(Replaced(lines, key, line), key) == Some(line[|key| + 1..])
  {
    if lines != [] && !For(key, lines[0]) {
      assert ([lines[0]] + Replaced(lines[1..], key, line))[1..] == Replaced(lines[1..], key, line);
      RawOfReplaced(lines[1..], key, line);
    }
  }

  /** No line is for two keys. */
  lemma OneKeyALine(key: string, other: string, line: string)
    requires '=' !in key && '=' !in other && For(key, line) && For(other, line)
    ensures key == other
  {
    assert line[|key|] == '=' && line[|other|] == '=';
    assert key == line[..|key|] && other == line[..|other|];
    assert |key| < |other| ==> '=' in other;
    assert |other| < |key| ==> '=' in key;
  }

  lemma {:induction false} RawOfOthers(lines: seq<string>, key: string, other: string)
    requires '=' !in key && '=' !in other && key != other
    ensures Raw(Others(lines, key), other) == Raw(lines, other)
  {
    if lines != [] {
      RawOfOthers(lines[1..], key, other);
      if For(key, lines[0]) {
        if For(other, lines[0]) { OneKeyALine(key, other, lines[0]); }
      } else {
        assert ([lines[0]] + Others(lines[1..], key))[1..] == Others(lines[1..], key);
      }
    }
  }

  lemma {:induction false} RawOfOtherReplaced(lines: seq<string>, key: string, line: string, other: string)
    requires '=' !in key && '=' !in other && key != other && For(key, line)
    ensures Raw(Replaced(lines, key, line), other) == Raw(lines, other)
  {
    if For(other, line) { OneKeyALine(key, other, line); }
    if lines == [] {
      assert Raw([line][1..], other).None?;
    } else if For(key, lines[0]) {
      if For(other, lines[0]) { OneKeyALine(key, other, lines[0]); }
      assert ([line] + Others(lines[1..], key))[1..] == Others(lines[1..], key);
      RawOfOthers(lines[1..], key, other);
    } else {
      assert ([lines[0]] + Replaced(lines[1..], key, line))[1..] == Replaced(lines[1..], key, line);
      RawOfOtherReplaced(lines[1..], key, line, other);
    }
  }

  function Lookup(text: string, key: string): Option<string> { Raw(Lines(text), key) }

  lemma LookupUpserted(existing: string, key: string, value: string, q: string)
    requires NoBreak(key) && NoBreak(value) && '=' !in key && '=' !in q
    ensures Lookup(Upsert(existing, key, value), q) ==
      if q == key then Some(EnvLine(key, value)[|key| + 1..]) else StripOption(Lookup(existing, q))
    ensures !EndsInReturn(EnvLine(key, value)[|key| + 1..])
  {
    var line := EnvLine(key, value);
    EnvLineIsALine(key, value);
    UpsertedLines(existing, key, value);
    RawOfTidy(Replaced(Lines(existing), key, line), q);
    var raw := line[|key| + 1..];
    assert raw == "\"" + Escape(value) + "\"" && raw[|raw| - 1] == '"';
    if q == key {
      RawOfReplaced(Lines(existing), key, line);
    } else {
      RawOfOtherReplaced(Lines(existing), key, line, q);
    }
  }

  /** The updated key reads back as the value; every other key looks up as before, less a carriage return. */
  lemma UpsertThenLookup(existing: string, key: string, value: string, other: string)
    requires NoBreak(key) && NoBreak(value) && '=' !in key && '=' !in other && key != other
    ensures
      var raw := Lookup(Upsert(existing, key, value), key);
      raw.Some? && raw.value != "" && raw.value[0] == '"' && ReadQuoted(raw.value[1..]) == Some(Quoted(value, ""))
    ensures Lookup(Upsert(existing, key, value), other) == StripOption(Lookup(existing, other))
  {
    LookupUpserted(existing, key, value, key);
    LookupUpserted(existing, key, value, other);
    EscapeIsOnePass(value);
    ReadQuotedEscaped(value, "");
    var raw := EnvLine(key, value)[|key| + 1..];
    assert raw[1..] == EscapeOnce(value) + "\"" + "";
  }

  /** Updates of different keys commute for every later look-up. */
  lemma UpsertsCommute(existing: string, a: string, v: string, b: string, w: string, q: string)
    requires NoBreak(a) && NoBreak(v) && NoBreak(b) && NoBreak(w)
    requires '=' !in a && '=' !in b && '=' !in q && a != b
    ensures Lookup(Upsert(Upsert(existing, a, v), b, w), q) == Lookup(Upsert(Upsert(existing, b, w), a, v), q)
  {
    LookupUpserted(existing, a, v, q);
    LookupUpserted(existing, b, w, q);
    LookupUpserted(Upsert(existing, a, v), b, w, q);
    LookupUpserted(Upsert(existing, b, w), a, v, q);
  }

  // ---------------------------------------------------------------- updating a printed file

  function Updated(vars: seq<Var>, key: string, value: string): seq<Var> {
    if vars == [] then [Var(key, value)]
    else if vars[0].key == key then [Var(key, value)] + Without(vars[1..], key)
    else [vars[0]] + Updated(vars[1..], key, value)
  }

  function Without(vars: seq<Var>, key: string): seq<Var> {
    if vars == [] then []
    else if vars[0].key == key then Without(vars[1..], key)
    else [vars[0]] + Without(vars[1..], key)
  }

  // The lines of a printed variable: several when its value holds line feeds.

  function Pieces(text: string): (pieces: seq<string>)
    ensures pieces != []
    decreases |text|
  {
    var n := Find(text, '\n');
    if n == |text| then [text] else [text[..n]] + Pieces(text[n + 1..])
  }

  function VarPieces(v: Var): (pieces: seq<string>)
    ensures pieces != []
  {
    Pieces(EnvLine(v.key, v.value))
  }

  function AllPieces(vars: seq<Var>): seq<string> {
    if vars == [] then [] else VarPieces(vars[0]) + AllPieces(vars[1..])
  }

  lemma {:induction false} PiecesOfText(text: string)
    ensures NoBreaks(Pieces(text)) && Unlines(Pieces(text)) == text + "\n"
    decreases |text|
  {
    var n := Find(text, '\n');
    assert text[..|text|] == text;
    if n == |text| {
      UnlinesOne(text);
    } else {
      PiecesOfText(text[n + 1..]);
      assert Pieces(text)[1..] == Pieces(text[n + 1..]);
      assert text == text[..n] + "\n" + text[n + 1..];
    }
  }

  lemma {:induction false} UnlinesAppend(a: seq<string>, b: seq<string>)
    ensures Unlines(a + b) == Unlines(a) + Unlines(b)
  {
    if a == [] {
      assert a + b == b;
    } else {
      assert (a + b)[1..] == a[1..] + b;
      UnlinesAppend(a[1..], b);
    }
  }

  lemma {:induction false} PrintIsUnlines(vars: seq<Var>)
    ensures NoBreaks(AllPieces(vars)) && Print(vars) == Unlines(AllPieces(vars))
  {
    if vars != [] {
      PrintIsUnlines(vars[1..]);
      PiecesOfText(EnvLine(vars[0].key, vars[0].value));
      UnlinesAppend(VarPieces(vars[0]), AllPieces(vars[1..]));
    }
  }

  /** Lines are recovered from their text. */
  lemma {:induction false} UnlinesInjective(a: seq<string>, b: seq<string>)
    requires NoBreaks(a) && NoBreaks(b) && Unlines(a) == Unlines(b)
    ensures a == b
  {
    if a != [] && b != [] {
      FindIn(a[0], '\n', Unlines(a[1..]));
      FindIn(b[0], '\n', Unlines(b[1..]));
      var text := Unlines(a);
      assert text == a[0] + ['\n'] + Unlines(a[1..]) && text == b[0] + ['\n'] + Unlines(b[1..]);
      assert a[0] == text[..|a[0]|] && b[0] == text[..|b[0]|];
      assert Unlines(a[1..]) == text[|a[0]| + 1..] && Unlines(b[1..]) == text[|b[0]| + 1..];
      UnlinesInjective(a[1..], b[1..]);
      assert a == [a[0]] + a[1..] && b == [b[0]] + b[1..];
    }
  }

  lemma {:induction false} PartsAppend(a: seq<string>, b: seq<string>, key: string)
    ensures Mine(a + b, key) == Mine(a, key) + Mine(b, key)
    ensures Others(a + b, key) == Others(a, key) + Others(b, key)
  {
    if a == [] {
      assert a + b == b;
    } else {
      assert (a + b)[1..] == a[1..] + b;
      PartsAppend(a[1..], b, key);
    }
  }

  lemma {:induction false} TidyAppend(a: seq<string>, b: seq<string>)
    ensures Tidy(a + b) == Tidy(a) + Tidy(b)
  {
    if a == [] {
      assert a + b == b;
    } else {
      assert (a + b)[1..] == a[1..] + b;
      TidyAppend(a[1..], b);
    }
  }

  lemma {:induction false} TidyIff(lines: seq<string>)
    ensures Tidy(lines) == lines <==> NoReturns(lines)
  {
    if lines != [] {
      TidyIff(lines[1..]);
      ConsReturns(lines[0], lines[1..]);
      assert lines == [lines[0]] + lines[1..];
      assert Tidy(lines)[1..] == Tidy(lines[1..]);
    }
  }

  /** A line-based update does no harm to this variable: none of its lines but those of the
      updated key look like the key's, and the other lines end in no carriage return. */
  predicate Unharmed(v: Var, key: string) {
    if v.key == key then Others(VarPieces(v), key) == []
    else Mine(VarPieces(v), key) == [] && NoReturns(VarPieces(v))
  }

  predicate AllUnharmed(vars: seq<Var>, key: string) { forall k :: 0 <= k < |vars| ==> Unharmed(vars[k], key) }

  /** Lines of other keys' variables that look like the key's. */
  function Foreign(vars: seq<Var>, key: string): nat {
    if vars == [] then 0 else (if vars[0].key == key then 0 else |Mine(VarPieces(vars[0]), key)|) + Foreign(vars[1..], key)
  }

  /** Lines of the key's variables that do not. */
  function Leftover(vars: seq<Var>, key: string): nat {
    if vars == [] then 0 else (if vars[0].key == key then |Others(VarPieces(vars[0]), key)| else 0) + Leftover(vars[1..], key)
  }

  /** The lines of a new list, against those of the old one. */
  lemma {:induction false} UpdatedShares(vars: seq<Var>, key: string, value: string)
    ensures
      var own, after := VarPieces(Var(key, value)), AllPieces(Updated(vars, key, value));
      && |Mine(after, key)| == |Mine(own, key)| + Foreign(vars, key)
      && |Others(AllPieces(vars), key)| + |Others(own, key)| == |Others(after, key)| + Leftover(vars, key)
    ensures |Mine(AllPieces(Without(vars, key)), key)| == Foreign(vars, key)
    ensures |Others(AllPieces(vars), key)| == |Others(AllPieces(Without(vars, key)), key)| + Leftover(vars, key)
  {
    if vars == [] {
      AllPiecesCons(Var(key, value), [], key);
    } else {
      var rest := vars[1..];
      UpdatedShares(rest, key, value);
      AllPiecesCons(vars[0], rest, key);
      assert vars == [vars[0]] + rest;
      if vars[0].key == key {
        AllPiecesCons(Var(key, value), Without(rest, key), key);
      } else {
        AllPiecesCons(vars[0], Without(rest, key), key);
        AllPiecesCons(vars[0], Updated(rest, key, value), key);
      }
    }
  }

  lemma AllPiecesCons(v: Var, rest: seq<Var>, key: string)
    ensures AllPieces([v] + rest) == VarPieces(v) + AllPieces(rest)
    ensures Mine(AllPieces([v] + rest), key) == Mine(VarPieces(v), key) + Mine(AllPieces(rest), key)
    ensures Others(AllPieces([v] + rest), key) == Others(VarPieces(v), key) + Others(AllPieces(rest), key)
  {
    assert ([v] + rest)[1..] == rest;
    PartsAppend(VarPieces(v), AllPieces(rest), key);
  }

  lemma OnePiece(key: string, value: string)
    requires NoBreak(key) && NoBreak(value)
    ensures VarPieces(Var(key, value)) == [EnvLine(key, value)]
    ensures Mine(VarPieces(Var(key, value)), key) == [EnvLine(key, value)] && Others(VarPieces(Var(key, value)), key) == []
  {
    EnvLineIsALine(key, value);
    var line := EnvLine(key, value);
    assert forall k :: 0 <= k < |line| ==> line[k] != '\n';
    assert Mine([line][1..], key) == [] && Others([line][1..], key) == [];
  }

  lemma ConsLength(v: Var, rest: seq<Var>, key: string)
    ensures |Unlines(AllPieces([v] + rest))| == |Unlines(VarPieces(v))| + |Unlines(AllPieces(rest))|
    ensures
      |Unlines(Others(AllPieces([v] + rest), key))| ==
      |Unlines(Others(VarPieces(v), key))| + |Unlines(Others(AllPieces(rest), key))|
  {
    AllPiecesCons(v, rest, key);
    UnlinesAppend(VarPieces(v), AllPieces(rest));
    UnlinesAppend(Others(VarPieces(v), key), Others(AllPieces(rest), key));
  }

  /** If nothing was foreign or left over, the variables that stay are as long as the other lines. */
  lemma {:induction false} WithoutLength(vars: seq<Var>, key: string)
    requires Foreign(vars, key) == 0 && Leftover(vars, key) == 0
    ensures |Unlines(AllPieces(Without(vars, key)))| == |Unlines(Others(AllPieces(vars), key))|
  {
    if vars != [] {
      var v, rest := vars[0], vars[1..];
      WithoutLength(rest, key);
      assert vars == [v] + rest;
      ConsLength(v, rest, key);
      if v.key != key {
        NoMineAllOthers(VarPieces(v), key);
        ConsLength(v, Without(rest, key), key);
      }
    }
  }

  /** And the new text is as long as these and the new variable. */
  lemma {:induction false} UpdatedLength(vars: seq<Var>, key: string, value: string)
    requires Foreign(vars, key) == 0 && Leftover(vars, key) == 0
    ensures
      |Unlines(AllPieces(Updated(vars, key, value)))| ==
      |Unlines(VarPieces(Var(key, value)))| + |Unlines(Others(AllPieces(vars), key))|
  {
    if vars == [] {
      ConsLength(Var(key, value), [], key);
    } else {
      var v, rest := vars[0], vars[1..];
      assert vars == [v] + rest;
      ConsLength(v, rest, key);
      if v.key == key {
        WithoutLength(rest, key);
        ConsLength(Var(key, value), Without(rest, key), key);
      } else {
        UpdatedLength(rest, key, value);
        NoMineAllOthers(VarPieces(v), key);
        ConsLength(v, Updated(rest, key, value), key);
      }
    }
  }

  /** No line is foreign or left over, and the others end in no carriage return: nothing is harmed. */
  lemma {:induction false} UnharmedByParts(vars: seq<Var>, key: string)
    requires Foreign(vars, key) == 0 && Leftover(vars, key) == 0 && NoReturns(Others(AllPieces(vars), key))
    ensures AllUnharmed(vars, key)
  {
    if vars != [] {
      var v, rest := vars[0], vars[1..];
      AllPiecesCons(v, rest, key);
      assert vars == [v] + rest;
      AppendReturns(Others(VarPieces(v), key), Others(AllPieces(rest), key));
      UnharmedByParts(rest, key);
      if v.key != key { NoMineAllOthers(VarPieces(v), key); }
      forall k | 0 <= k < |vars| ensures Unharmed(vars[k], key) {
        assert k > 0 ==> vars[k] == rest[k - 1];
      }
    }
  }

  lemma {:induction false} NoMineAllOthers(lines: seq<string>, key: string)
    requires Mine(lines, key) == []
    ensures Others(lines, key) == lines
  {
    if lines != [] { NoMineAllOthers(lines[1..], key); }
  }

  lemma {:induction false} AppendReturns(a: seq<string>, b: seq<string>)
    ensures NoReturns(a + b) <==> NoReturns(a) && NoReturns(b)
  {
    if a == [] {
      assert a + b == b;
    } else {
      AppendReturns(a[1..], b);
      ConsReturns(a[0], a[1..] + b);
      ConsReturns(a[0], a[1..]);
      assert a + b == [a[0]] + (a[1..] + b) && a == [a[0]] + a[1..];
    }
  }

  /** Lines that are not the key's are passed over. */
  lemma {:induction false} ReplacedPasses(a: seq<string>, b: seq<string>, key: string, line: string)
    requires Mine(a, key) == []
    ensures Replaced(a + b, key, line) == a + Replaced(b, key, line)
  {
    if a == [] {
      assert a + b == b;
    } else {
      assert (a + b)[1..] == a[1..] + b;
      ReplacedPasses(a[1..], b, key, line);
    }
  }

  lemma {:induction false} OthersOfUnharmed(vars: seq<Var>, key: string)
    requires AllUnharmed(vars, key)
    ensures Others(Tidy(AllPieces(vars)), key) == AllPieces(Without(vars, key))
  {
    if vars != [] {
      var v, rest := vars[0], vars[1..];
      OthersOfUnharmed(rest, key);
      TidyAppend(VarPieces(v), AllPieces(rest));
      PartsAppend(Tidy(VarPieces(v)), Tidy(AllPieces(rest)), key);
      TidyParts(VarPieces(v), key);
      assert Unharmed(v, key);
      if v.key != key {
        TidyIff(VarPieces(v));
        NoMineAllOthers(VarPieces(v), key);
        AllPiecesCons(v, Without(rest, key), key);
      }
    }
  }

  // A list of texts that may hold line feeds, line by line.

  function Expand(texts: seq<string>): seq<string> {
    if texts == [] then [] else Pieces(texts[0]) + Expand(texts[1..])
  }

  lemma {:induction false} ExpandKeepsText(texts: seq<string>)
    ensures NoBreaks(Expand(texts)) && Unlines(Expand(texts)) == Unlines(texts)
  {
    if texts != [] {
      ExpandKeepsText(texts[1..]);
      PiecesOfText(texts[0]);
      UnlinesAppend(Pieces(texts[0]), Expand(texts[1..]));
    }
  }

  lemma LineIsOnePiece(line: string)
    requires NoBreak(line)
    ensures Pieces(line) == [line]
  {
    assert forall k :: 0 <= k < |line| ==> line[k] != '\n';
  }

  lemma {:induction false} ExpandLines(lines: seq<string>)
    requires NoBreaks(lines)
    ensures Expand(lines) == lines
  {
    if lines != [] {
      LineIsOnePiece(lines[0]);
      ExpandLines(lines[1..]);
    }
  }

  lemma ExpandCons(text: string, lines: seq<string>)
    requires NoBreaks(lines)
    ensures Expand([text] + lines) == Pieces(text) + lines
  {
    assert ([text] + lines)[1..] == lines;
    ExpandLines(lines);
  }

  /** What replacing leaves: the new text's lines and the others. */
  lemma {:induction false} ExpandedShares(lines: seq<string>, key: string, text: string)
    requires NoBreaks(lines)
    ensures
      var own, after := Pieces(text), Expand(Replaced(lines, key, text));
      && |Mine(after, key)| == |Mine(own, key)|
      && |Others(after, key)| == |Others(own, key)| + |Others(lines, key)|
      && |Unlines(after)| == |Unlines(own)| + |Unlines(Others(lines, key))|
  {
    var own := Pieces(text);
    if lines == [] {
      ExpandCons(text, []);
      assert [text] + [] == [text] && own + [] == own;
    } else if For(key, lines[0]) {
      var rest := Others(lines[1..], key);
      OthersAreLines(lines[1..], key);
      ExpandCons(text, rest);
      OthersHaveNoMine(lines[1..], key);
      PartsAppend(own, rest, key);
      UnlinesAppend(own, rest);
    } else {
      var rest := Replaced(lines[1..], key, text);
      ExpandedShares(lines[1..], key, text);
      LineIsOnePiece(lines[0]);
      assert ([lines[0]] + rest)[1..] == rest;
      PartsAppend([lines[0]], Expand(rest), key);
      assert Mine([lines[0]], key) == [] && Others([lines[0]], key) == [lines[0]] by { assert [lines[0]][1..] == []; }
      UnlinesAppend([lines[0]], Expand(rest));
      UnlinesAppend([lines[0]], Others(lines[1..], key));
    }
  }

  lemma {:induction false} ReplacedUnharmed(vars: seq<Var>, key: string, value: string)
    requires AllUnharmed(vars, key)
    ensures Expand(Replaced(Tidy(AllPieces(vars)), key, EnvLine(key, value))) == AllPieces(Updated(vars, key, value))
  {
    var line := EnvLine(key, value);
    if vars == [] {
      AllPiecesCons(Var(key, value), [], key);
      ExpandCons(line, []);
      assert [line] + [] == [line];
    } else {
      var v, rest := vars[0], vars[1..];
      var p := VarPieces(v);
      TidyAppend(p, AllPieces(rest));
      TidyParts(p, key);
      assert Unharmed(v, key);
      if v.key == key {
        ReplacedHead(Tidy(p), Tidy(AllPieces(rest)), key, line);
        OthersOfUnharmed(rest, key);
        PrintIsUnlines(Without(rest, key));
        ExpandCons(line, AllPieces(Without(rest, key)));
        AllPiecesCons(Var(key, value), Without(rest, key), key);
      } else {
        ReplacedUnharmed(rest, key, value);
        TidyIff(p);
        ReplacedPasses(p, Tidy(AllPieces(rest)), key, line);
        PiecesOfText(EnvLine(v.key, v.value));
        ExpandAppend(p, Replaced(Tidy(AllPieces(rest)), key, line));
        AllPiecesCons(v, Updated(rest, key, value), key);
      }
    }
  }

  lemma {:induction false} ExpandAppend(lines: seq<string>, texts: seq<string>)
    requires NoBreaks(lines)
    ensures Expand(lines + texts) == lines + Expand(texts)
  {
    if lines == [] {
      assert lines + texts == texts;
    } else {
      LineIsOnePiece(lines[0]);
      assert (lines + texts)[1..] == lines[1..] + texts;
      ExpandAppend(lines[1..], texts);
    }
  }

  /** A block of the key's lines at the front becomes the new line. */
  lemma ReplacedHead(a: seq<string>, b: seq<string>, key: string, line: string)
    requires a != [] && Others(a, key) == []
    ensures Replaced(a + b, key, line) == [line] + Others(b, key)
  {
    assert (a + b)[1..] == a[1..] + b;
    PartsAppend(a[1..], b, key);
  }

  /**
   Updating a printed file is printing the updated list exactly when the update harms no variable:
   values without line breaks are never harmed, and others only by lines that look like the key's
   or that end in a carriage return. The new value may be any text.
   */
  lemma UpsertUpdatesPrintedVarsIff(vars: seq<Var>, key: string, value: string)
    ensures Upsert(Print(vars), key, value) == Print(Updated(vars, key, value)) <==> AllUnharmed(vars, key)
  {
    var line, before, after := EnvLine(key, value), AllPieces(vars), AllPieces(Updated(vars, key, value));
    var replaced := Replaced(Tidy(before), key, line);
    PrintIsUnlines(vars);
    PrintIsUnlines(Updated(vars, key, value));
    LinesOfUnlines(before);
    LinesHaveNoBreaks(Print(vars));
    ExpandKeepsText(replaced);
    if AllUnharmed(vars, key) { ReplacedUnharmed(vars, key, value); }
    if Unlines(replaced) == Unlines(after) {
      UnlinesInjective(Expand(replaced), after);
      ExpandedShares(Tidy(before), key, line);
      TidyParts(before, key);
      TidyLength(Others(before, key));
      UpdatedShares(vars, key, value);
      UpdatedLength(vars, key, value);
      TidyUnlinesIff(Others(before, key));
      UnharmedByParts(vars, key);
    }
  }

  predicate Unescaped(text: string) { '\\' !in text && '"' !in text }

  lemma {:induction false} ReplaceNothing(text: string, c: char, to: string)
    requires c !in text
    ensures ReplaceAll(text, c, to) == text
  {
    if text != "" {
      assert text[0] in text && forall x :: x in text[1..] ==> x in text;
      ReplaceNothing(text[1..], c, to);
    }
  }

  lemma EscapeAround(before: string, plain: string, after: string)
    requires Unescaped(plain)
    ensures Escape(before + plain + after) == Escape(before) + plain + Escape(after)
  {
    var first := ReplaceAll(before, '\\', "\\\\");
    var last := ReplaceAll(after, '\\', "\\\\");
    ReplaceAllAppend(before + plain, after, '\\', "\\\\");
    ReplaceAllAppend(before, plain, '\\', "\\\\");
    ReplaceNothing(plain, '\\', "\\\\");
    ReplaceAllAppend(first + plain, last, '"', "\\\"");
    ReplaceAllAppend(first, plain, '"', "\\\"");
    ReplaceNothing(plain, '"', "\\\"");
  }

  lemma SecondPiece(before: string, after: string)
    requires NoBreak(before)
    ensures Pieces(before + "\n" + after) == [before] + Pieces(after)
  {
    var text := before + ['\n'] + after;
    FindIn(before, '\n', after);
    assert text[..|before|] == before && text[|before| + 1..] == after;
  }

  lemma FirstPieceIsFor(key: string, rest: string)
    requires NoBreak(key)
    ensures For(key, Pieces(key + "=" + rest)[0])
  {
    var start := key + "=";
    var text := start + rest;
    var n := Find(text, '\n');
    assert text[..|start|] == start && forall k :: 0 <= k < |start| ==> text[k] == start[k] && start[k] != '\n';
    assert n >= |start|;
    assert text[..n][..|start|] == start;
  }

  /** A value whose second line begins like a line of another key: updating that key rewrites it. */
  lemma ValueOverLinesIsHarmed(own: string, key: string, first: string, more: string, value: string)
    requires own != key && NoBreak(own) && NoBreak(key) && NoBreak(first) && Unescaped(key)
    ensures
      var printed := [Var(own, first + ("\n" + key + "=") + more)];
      Upsert(Print(printed), key, value) != Print(Updated(printed, key, value))
  {
    var v := Var(own, first + ("\n" + key + "=") + more);
    var before, after := own + "=\"" + Escape(first), Escape(more) + "\"";
    EscapeAround(first, "\n" + key + "=", more);
    assert EnvLine(own, v.value) == before + "\n" + (key + "=" + after);
    EscapeIsOnePass(first);
    EscapeBreaksNothing(first);
    SecondPiece(before, key + "=" + after);
    FirstPieceIsFor(key, after);
    var pieces := VarPieces(v);
    PartsAppend([before], Pieces(key + "=" + after), key);
    assert Mine(pieces, key) != [];
    assert !Unharmed([v][0], key);
    UpsertUpdatesPrintedVarsIff([v], key, value);
  }

  lemma {:induction false} TidyLength(lines: seq<string>)
    ensures |Tidy(lines)| == |lines|
  {
    if lines != [] { TidyLength(lines[1..]); }
  }

  predicate Plain(v: Var) { '=' !in v.key && NoBreak(v.key) && NoBreak(v.value) }

  predicate AllPlain(vars: seq<Var>) { forall k :: 0 <= k < |vars| ==> Plain(vars[k]) }

  lemma PlainIsUnharmed(v: Var, key: string)
    requires Plain(v) && '=' !in key
    ensures Unharmed(v, key)
  {
    OnePiece(v.key, v.value);
    EnvLineIsALine(v.key, v.value);
    var line := EnvLine(v.key, v.value);
    assert Mine([line][1..], key) == [];
    if v.key != key && For(key, line) { OneKeyALine(v.key, key, line); }
  }

  /** Without line breaks the file holds the updated list, and a reader finds it. */
  lemma UpsertUpdatesPrintedVars(vars: seq<Var>, key: string, value: string)
    requires AllPlain(vars) && Plain(Var(key, value))
    ensures Upsert(Print(vars), key, value) == Print(Updated(vars, key, value))
    ensures ReadVars(Upsert(Print(vars), key, value)) == Some(Updated(vars, key, value))
  {
    forall k | 0 <= k < |vars| ensures Unharmed(vars[k], key) { PlainIsUnharmed(vars[k], key); }
    UpsertUpdatesPrintedVarsIff(vars, key, value);
    UpdatedIsPlain(vars, key, value);
    PrintedVarsReadBack(Updated(vars, key, value));
  }

  lemma {:induction false} UpdatedIsPlain(vars: seq<Var>, key: string, value: string)
    requires AllPlain(vars) && Plain(Var(key, value))
    ensures AllPlain(Updated(vars, key, value)) && AllPlain(Without(vars, key))
  {
    if vars != [] {
      UpdatedIsPlain(vars[1..], key, value);
    }
  }
}
