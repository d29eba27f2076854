/**
 The bootstrap `.env` file (src/bootstrap.rs): writing a list of variables, and updating one
 variable in the text of a file. The file system is left out; both work on the text.
 */
module BootstrapEnv {
  datatype Var = Var(key: string, value: string)

  function ReplaceAll(text: string, c: char, to: string): string {
    if text == "" then "" else (if text[0] == c then to else [text[0]]) + ReplaceAll(text[1..], c, to)
  }

  /** Backslashes first, then double quotes. */
  function Escape(value: string): string {
    ReplaceAll(ReplaceAll(value, '\\', "\\\\"), '"', "\\\"")
  }

  function EnvLine(key: string, value: string): string {
    key + "=\"" + Escape(value) + "\""
  }

  function Print(vars: seq<Var>): string {
    if vars == [] then "" else EnvLine(vars[0].key, vars[0].value) + "\n" + Print(vars[1..])
  }

  // ---------------------------------------------------------------- lines

  /** The position of the first `c`, or the length. */
  function Find(text: string, c: char): (n: nat)
    ensures n <= |text| && c !in text[..n]
    ensures n < |text| ==> text[n] == c
  {
    if text == "" || text[0] == c then 0 else 1 + Find(text[1..], c)
  }

  predicate EndsInReturn(line: string) { line != "" && line[|line| - 1] == '\r' }

  function StripReturn(line: string): string {
    if EndsInReturn(line) then line[..|line| - 1] else line
  }

  /** A line ends at a line feed, or at a carriage return and a line feed, or at the end. */
  function Lines(text: string): seq<string>
    decreases |text|
  {
    if text == "" then []
    else
      var n := Find(text, '\n');
      if n == |text| then [text] else [StripReturn(text[..n])] + Lines(text[n + 1..])
  }

  function Unlines(lines: seq<string>): string {
    if lines == [] then "" else lines[0] + "\n" + Unlines(lines[1..])
  }

  // ---------------------------------------------------------------- updating one variable

  predicate For(key: string, line: string) { key + "=" <= line }

  /** The first line for the key becomes `line`, later ones go; a missing one is appended. */
  function Replaced(lines: seq<string>, key: string, line: string): seq<string> {
    if lines == [] then [line]
    else if For(key, lines[0]) then [line] + Others(lines[1..], key)
    else [lines[0]] + Replaced(lines[1..], key, line)
  }

  function Others(lines: seq<string>, key: string): seq<string> {
    if lines == [] then []
    else if For(key, lines[0]) then Others(lines[1..], key)
    else [lines[0]] + Others(lines[1..], key)
  }

  function Upsert(existing: string, key: string, value: string): string {
    Unlines(Replaced(Lines(existing), key, EnvLine(key, value)))
  }

  // ---------------------------------------------------------------- the source's loops

  lemma {:induction false} PrintSnoc(vars: seq<Var>, v: Var)
    ensures Print(vars + [v]) == Print(vars) + EnvLine(v.key, v.value) + "\n"
  {
    if vars == [] {
      assert Print([v]) == EnvLine(v.key, v.value) + "\n" + "";
    } else {
      assert (vars + [v])[1..] == vars[1..] + [v];
      PrintSnoc(vars[1..], v);
    }
  }

  lemma UnlinesOne(line: string)
    ensures Unlines([line]) == line + "\n"
  {
    assert Unlines([line]) == line + "\n" + "";
  }

  method SaveBootstrapEnv(vars: seq<Var>) returns (content: string)
    ensures content == Print(vars)
  {
    content := "";
    for i := 0 to |vars|
      invariant content == Print(vars[..i])
    {
      PrintSnoc(vars[..i], vars[i]);
      assert vars[..i + 1] == vars[..i] + [vars[i]];
      content := content + (EnvLine(vars[i].key, vars[i].value) + "\n");
    }
    assert vars[..|vars|] == vars;
  }

  /** What the lines from here on still contribute. */
  function Rest(lines: seq<string>, key: string, line: string, found: bool): seq<string> {
    if found then Others(lines, key) else Replaced(lines, key, line)
  }

  lemma RestStep(lines: seq<string>, key: string, line: string, found: bool)
    requires lines != []
    ensures Unlines(Rest(lines, key, line, found)) ==
      if !For(key, lines[0]) then lines[0] + "\n" + Unlines(Rest(lines[1..], key, line, found))
      else if found then Unlines(Rest(lines[1..], key, line, true))
      else line + "\n" + Unlines(Rest(lines[1..], key, line, true))
  {
    var rest := Rest(lines[1..], key, line, true);
    assert ([line] + rest)[1..] == rest;
    var same := Rest(lines[1..], key, line, found);
    assert ([lines[0]] + same)[1..] == same;
    assert [] + same == same;
  }

  /** The text written so far and what the remaining lines contribute, one line later. */
  lemma WriteStep(result: string, lines: seq<string>, i: nat, key: string, line: string, found: bool)
    requires i < |lines|
    ensures
      var matches := For(key, lines[i]);
      var written := if !matches then result + lines[i] + "\n" else if found then result else result + line + "\n";
      written + Unlines(Rest(lines[i + 1..], key, line, found || matches)) == result + Unlines(Rest(lines[i..], key, line, found))
  {
    RestStep(lines[i..], key, line, found);
    assert lines[i..][1..] == lines[i + 1..];
    var rest := Unlines(Rest(lines[i + 1..], key, line, found || For(key, lines[i])));
    Regroup(result, lines[i], rest);
    Regroup(result, line, rest);
  }

  lemma Regroup(a: string, b: string, c: string)
    ensures a + b + "\n" + c == a + (b + "\n" + c)
  {
  }

  method UpsertBootstrapVar(existing: string, key: string, value: string) returns (result: string)
    ensures result == Upsert(existing, key, value)
  {
    var newLine := EnvLine(key, value);
    var prefix := key + "=";
    var lines := Lines(existing);
    var found := false;
    result := "";
    assert lines[0..] == lines;
    for i := 0 to |lines|
      invariant result + Unlines(Rest(lines[i..], key, newLine, found)) == Upsert(existing, key, value)
    {
      var line := lines[i];
      WriteStep(result, lines, i, key, newLine, found);
      if prefix <= line {
        if !found {
          result := result + newLine + "\n";
          found := true;
        }
        continue;
      }
      result := result + line + "\n";
    }
    if !found {
      UnlinesOne(newLine);
      result := result + newLine + "\n";
    }
  }
}
