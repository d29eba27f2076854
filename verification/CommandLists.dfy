/** Normalised command lists: trimmed, without empty entries or repetitions, and sorted. */
module CommandLists {
  /** White space and line terminators of ECMAScript. */
  predicate IsSpace(c: char) {
    var n := c as int;
    || 0x09 <= n <= 0x0D || n == 0x20 || n == 0xA0 || n == 0x1680 || 0x2000 <= n <= 0x200A
    || n == 0x2028 || n == 0x2029 || n == 0x202F || n == 0x205F || n == 0x3000 || n == 0xFEFF
  }

  function TrimStart(s: string): (r: string)
    ensures r == "" || !IsSpace(r[0])
    ensures s != "" && !IsSpace(s[0]) ==> r == s
  {
    if s != "" && IsSpace(s[0]) then TrimStart(s[1..]) else s
  }

  function TrimEnd(s: string): (r: string)
    ensures r <= s && (r == "" || !IsSpace(r[|r| - 1]))
    ensures s != "" && !IsSpace(s[|s| - 1]) ==> r == s
  {
    if s != "" && IsSpace(s[|s| - 1]) then TrimEnd(s[..|s| - 1]) else s
  }

  function Trim(s: string): string { TrimEnd(TrimStart(s)) }

  lemma TrimTwice(s: string)
    ensures Trim(Trim(s)) == Trim(s)
  {
    var r := Trim(s);
    if r != "" {
      assert r[0] == TrimStart(s)[0];
    }
  }

  /** The order of `toSorted`: by code units, a prefix first. */
  predicate Less(a: string, b: string) {
    b != "" && (a == "" || a[0] < b[0] || (a[0] == b[0] && Less(a[1..], b[1..])))
  }

  lemma {:induction false} LessIrreflexive(a: string)
    ensures !Less(a, a)
  {
    if a != "" { LessIrreflexive(a[1..]); }
  }

  lemma {:induction false} LessTransitive(a: string, b: string, c: string)
    requires Less(a, b) && Less(b, c)
    ensures Less(a, c)
  {
    if a != "" && a[0] == b[0] == c[0] {
      LessTransitive(a[1..], b[1..], c[1..]);
    }
  }

  lemma {:induction false} LessTotal(a: string, b: string)
    ensures a == b || Less(a, b) || Less(b, a)
  {
    if a != "" && b != "" && a[0] == b[0] {
      LessTotal(a[1..], b[1..]);
      if a[1..] == b[1..] {
        assert a == [a[0]] + a[1..] && b == [b[0]] + b[1..];
      }
    }
  }

  /** `a` is a proper part of `b` from the front, or has the smaller character where they first differ. */
  ghost predicate Precedes(a: string, b: string) {
    || (|a| < |b| && a == b[..|a|])
    || exists k :: 0 <= k < |a| && k < |b| && a[..k] == b[..k] && a[k] < b[k]
  }

  lemma {:induction false} LessIff(a: string, b: string)
    ensures Less(a, b) <==> Precedes(a, b)
  {
    if a != "" && b != "" && a[0] == b[0] {
      LessIff(a[1..], b[1..]);
      assert a == [a[0]] + a[1..] && b == [b[0]] + b[1..];
      if Precedes(a[1..], b[1..]) { PrecedesInFront(a[0], a[1..], b[1..]); }
      if Precedes(a, b) { PrecedesBehind(a, b); }
    } else if a != "" && b != "" {
      assert a[0] < b[0] ==> a[..0] == b[..0];
    }
  }

  lemma PrecedesInFront(c: char, a: string, b: string)
    requires Precedes(a, b)
    ensures Precedes([c] + a, [c] + b)
  {
    if |a| < |b| && a == b[..|a|] {
      assert ([c] + b)[..|a| + 1] == [c] + b[..|a|];
    } else {
      var k :| 0 <= k < |a| && k < |b| && a[..k] == b[..k] && a[k] < b[k];
      assert ([c] + a)[..k + 1] == [c] + a[..k] && ([c] + b)[..k + 1] == [c] + b[..k];
      assert ([c] + a)[k + 1] < ([c] + b)[k + 1];
    }
  }

  lemma PrecedesBehind(a: string, b: string)
    requires Precedes(a, b) && a != "" && b != "" && a[0] == b[0]
    ensures Precedes(a[1..], b[1..])
  {
    if |a| < |b| && a == b[..|a|] {
      assert b[..|a|][1..] == b[1..][..|a[1..]|];
    } else {
      var k :| 0 <= k < |a| && k < |b| && a[..k] == b[..k] && a[k] < b[k];
      assert a[..k][1..] == a[1..][..k - 1] && b[..k][1..] == b[1..][..k - 1];
      assert a[1..][k - 1] < b[1..][k - 1];
    }
  }

  predicate Sorted(list: seq<string>) {
    forall i, j :: 0 <= i < j < |list| ==> Less(list[i], list[j])
  }

  function Insert(list: seq<string>, v: string): seq<string> {
    if list == [] then [v]
    else if list[0] == v then list
    else if Less(v, list[0]) then [v] + list
    else [list[0]] + Insert(list[1..], v)
  }

  lemma {:induction false} InsertInserts(list: seq<string>, v: string)
    requires Sorted(list)
    ensures Sorted(Insert(list, v))
    ensures forall x :: x in Insert(list, v) <==> x in list || x == v
  {
    if list == [] || list[0] == v {
    } else if Less(v, list[0]) {
      forall k | 0 <= k < |list| ensures Less(v, list[k]) {
        if k > 0 { LessTransitive(v, list[0], list[k]); }
      }
    } else {
      LessTotal(list[0], v);
      InsertInserts(list[1..], v);
      var rest := Insert(list[1..], v);
      forall k | 0 <= k < |rest| ensures Less(list[0], rest[k]) {
        assert rest[k] in list[1..] || rest[k] == v;
      }
    }
  }

  /** The commands a list names. */
  function Names(values: seq<string>): set<string> {
    set v | v in values && Trim(v) != "" :: Trim(v)
  }

  function UniqSorted(values: seq<string>): seq<string> {
    if values == [] then []
    else
      var rest := UniqSorted(values[1..]);
      var v := Trim(values[0]);
      if v == "" then rest else Insert(rest, v)
  }

  lemma {:induction false} UniqSortedIsNormal(values: seq<string>)
    ensures Sorted(UniqSorted(values))
    ensures forall x :: x in UniqSorted(values) <==> x in Names(values)
    ensures Names(UniqSorted(values)) == Names(values)
  {
    if values != [] {
      var v := Trim(values[0]);
      UniqSortedIsNormal(values[1..]);
      if v != "" { InsertInserts(UniqSorted(values[1..]), v); }
      assert Names(values) == Names(values[1..]) + (if v == "" then {} else {v});
    }
    NamesOfNormal(UniqSorted(values), values);
  }

  lemma NamesOfNormal(list: seq<string>, values: seq<string>)
    requires forall x :: x in list <==> x in Names(values)
    ensures Names(list) == Names(values)
  {
    forall x | x in Names(values) ensures Trim(x) == x && x != "" {
      var v :| v in values && Trim(v) != "" && Trim(v) == x;
      TrimTwice(v);
    }
    forall x | x in Names(list) ensures x in Names(values) {
      var v :| v in list && Trim(v) != "" && Trim(v) == x;
    }
    forall x | x in Names(values) ensures x in Names(list) {
      assert x in list;
    }
  }

  /** Sorted lists with the same members are the same list. */
  lemma {:induction false} SortedIsUnique(a: seq<string>, b: seq<string>)
    requires Sorted(a) && Sorted(b) && forall x :: x in a <==> x in b
    ensures a == b
  {
    if a != [] { assert a[0] in b; }
    if b != [] { assert b[0] in a; }
    if a != [] {
      HeadIsLeast(a);
      HeadIsLeast(b);
      if a[0] != b[0] {
        LessTransitive(a[0], b[0], a[0]);
        LessIrreflexive(a[0]);
      }
      forall x ensures x in a[1..] <==> x in b[1..] {
        LessIrreflexive(a[0]);
        assert x in a <==> x == a[0] || x in a[1..];
        assert x in b <==> x == b[0] || x in b[1..];
      }
      SortedIsUnique(a[1..], b[1..]);
    }
  }

  lemma HeadIsLeast(list: seq<string>)
    requires Sorted(list) && list != []
    ensures forall x :: x in list && x != list[0] ==> Less(list[0], x)
    ensures list[0] !in list[1..]
  {
    LessIrreflexive(list[0]);
  }

  /** Normalising depends on what the list names and on nothing else. */
  lemma SameNamesSameList(a: seq<string>, b: seq<string>)
    ensures UniqSorted(a) == UniqSorted(b) <==> Names(a) == Names(b)
  {
    UniqSortedIsNormal(a);
    UniqSortedIsNormal(b);
    if Names(a) == Names(b) {
      SortedIsUnique(UniqSorted(a), UniqSorted(b));
    }
  }
}
