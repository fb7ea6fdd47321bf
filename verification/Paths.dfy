/** Slash-separated paths: splitting, joining, and the lexical cleaning of Go's path package. */
module Paths {

  predicate NoSlash(c: string) { '/' !in c }

  /** A part of a path that stays in the cleaned path. */
  predicate IsName(c: string) { c != "" && c != "." && c != ".." && NoSlash(c) }

  predicate AllNames(parts: seq<string>) { forall i :: 0 <= i < |parts| ==> IsName(parts[i]) }

  predicate NoSlashes(parts: seq<string>) { forall i :: 0 <= i < |parts| ==> NoSlash(parts[i]) }

  /** The parts between the slashes, empty ones included. */
  function Split(s: string): (parts: seq<string>)
    ensures |parts| > 0 && NoSlashes(parts)
  {
    if s == "" then [""]
    else if s[0] == '/' then [""] + Split(s[1..])
    else
      var rest := Split(s[1..]);
      [[s[0]] + rest[0]] + rest[1..]
  }

  function Join(parts: seq<string>): string {
    if parts == [] then "" else if |parts| == 1 then parts[0] else parts[0] + "/" + Join(parts[1..])
  }

  /** One more part, after the parts already cleaned. */
  function Push(out: seq<string>, c: string, rooted: bool): seq<string> {
    if c == "" || c == "." then out
    else if c == ".." then
      if out != [] && out[|out| - 1] != ".." then out[..|out| - 1]
      else if rooted then out
      else out + [".."]
    else out + [c]
  }

  function Resolve(out: seq<string>, parts: seq<string>, rooted: bool): seq<string>
    decreases |parts|
  {
    if parts == [] then out else Resolve(Push(out, parts[0], rooted), parts[1..], rooted)
  }

  predicate IsRooted(s: string) { s != "" && s[0] == '/' }

  /** The shortest path with the same meaning, found without looking at any file. */
  function Clean(s: string): string {
    var parts := Resolve([], Split(s), IsRooted(s));
    if IsRooted(s) then "/" + Join(parts) else if parts == [] then "." else Join(parts)
  }

  /** Everything up to the last slash, cleaned. */
  function Dir(s: string): string {
    var parts := Split(s);
    Clean(Join(parts[..|parts| - 1] + [""]))
  }

  // ---------- Splitting and joining ----------

  lemma {:induction false} SplitConcat(a: string, b: string)
    ensures Split(a + "/" + b) == Split(a) + Split(b)
  {
    var s := a + "/" + b;
    if a == "" {
      assert s[1..] == b;
    } else {
      assert s[1..] == a[1..] + "/" + b;
      SplitConcat(a[1..], b);
    }
  }

  lemma {:induction false} SplitName(c: string)
    requires NoSlash(c)
    ensures Split(c) == [c]
  {
    if c != "" {
      assert c[0] in c && c == [c[0]] + c[1..];
      SplitName(c[1..]);
    }
  }

  lemma {:induction false} SplitJoin(parts: seq<string>)
    requires parts != [] && NoSlashes(parts)
    ensures Split(Join(parts)) == parts
    decreases |parts|
  {
    SplitName(parts[0]);
    if |parts| > 1 {
      SplitConcat(parts[0], Join(parts[1..]));
      SplitJoin(parts[1..]);
    }
  }

  lemma {:induction false} JoinSplit(s: string)
    ensures Join(Split(s)) == s
  {
    if s != "" {
      JoinSplit(s[1..]);
      var rest := Split(s[1..]);
      if s[0] == '/' {
        assert Split(s)[1..] == rest;
      } else {
        assert Split(s)[1..] == rest[1..];
      }
    }
  }

  /** Only a path that begins with a slash has an empty first part before others. */
  lemma JoinRooted(parts: seq<string>)
    requires parts != [] && NoSlashes(parts) && parts[0] != ""
    ensures !IsRooted(Join(parts)) && Join(parts) != ""
  {
  }

  // ---------- Cleaning ----------

  /** A cleaned relative path: names behind any number of "..". */
  predicate Cleaned(parts: seq<string>) {
    && (forall i :: 0 <= i < |parts| ==> parts[i] == ".." || IsName(parts[i]))
    && (forall i :: 0 < i < |parts| && parts[i] == ".." ==> parts[i - 1] == "..")
  }

  lemma {:induction false} ResolveCleaned(out: seq<string>, parts: seq<string>)
    requires Cleaned(out) && NoSlashes(parts)
    ensures Cleaned(Resolve(out, parts, false))
    decreases |parts|
  {
    if parts != [] { ResolveCleaned(Push(out, parts[0], false), parts[1..]); }
  }

  lemma {:induction false} ResolveConcat(out: seq<string>, a: seq<string>, b: seq<string>, rooted: bool)
    ensures Resolve(out, a + b, rooted) == Resolve(Resolve(out, a, rooted), b, rooted)
    decreases |a|
  {
    if a == [] {
      assert a + b == b;
    } else {
      assert (a + b)[1..] == a[1..] + b;
      ResolveConcat(Push(out, a[0], rooted), a[1..], b, rooted);
    }
  }

  /** Parts that are cleaned already are kept. */
  lemma {:induction false} ResolveKeeps(out: seq<string>, parts: seq<string>)
    requires Cleaned(out + parts)
    ensures Resolve(out, parts, false) == out + parts
    decreases |parts|
  {
    if parts == [] {
      assert out + parts == out;
    } else {
      var all, c := out + parts, parts[0];
      assert all[|out|] == c;
      if c == ".." && out != [] { assert all[|out| - 1] == out[|out| - 1]; }
      assert Push(out, c, false) == out + [c];
      assert out + [c] + parts[1..] == all;
      ResolveKeeps(out + [c], parts[1..]);
    }
  }

  lemma CleanParts(s: string)
    requires !IsRooted(s)
    ensures var parts := Resolve([], Split(s), false);
            && Cleaned(parts) && NoSlashes(parts)
            && (parts != [] ==> Split(Clean(s)) == parts && !IsRooted(Clean(s)))
            && (parts == [] ==> Clean(s) == ".")
  {
    var parts := Resolve([], Split(s), false);
    ResolveCleaned([], Split(s));
    if parts != [] {
      SplitJoin(parts);
      JoinRooted(parts);
    }
  }

  /** Cleaning twice is cleaning once. */
  lemma CleanTwice(s: string)
    requires !IsRooted(s)
    ensures Clean(Clean(s)) == Clean(s)
  {
    CleanParts(s);
    var parts := Resolve([], Split(s), false);
    if parts == [] {
      SplitName(".");
      assert Resolve([], ["."], false) == [];
    } else {
      assert [] + parts == parts;
      ResolveKeeps([], parts);
    }
  }

  /** A relative path made of names alone is clean. */
  lemma NamesAreClean(s: string)
    requires AllNames(Split(s))
    ensures Clean(s) == s && !IsRooted(s)
  {
    var parts := Split(s);
    JoinSplit(s);
    JoinRooted(parts);
    assert [] + parts == parts;
    ResolveKeeps([], parts);
  }
}
