/** The agent's checks on the names and links in an archive. */
module Extract {

  import opened Options
  import opened Paths

  /** The cleaned name of an archive member; none if it is refused. */
  function SafeName(n: string): Option<string> {
    if n == "" || '\0' in n || '\\' in n then None
    else if IsRooted(n) then None
    else if ".." in Split(n) then None
    else Some(Clean(n))
  }

  function JoinPath(dir: string, target: string): string { Clean(dir + "/" + target) }

  predicate HasPrefix(s: string, prefix: string) { prefix <= s }

  /** Whether a link of this name may point at this target. */
  predicate CheckLinkTarget(name: string, target: string, relToLink: bool) {
    if target == "" || HasPrefix(target, "/") || '\0' in target then false
    else
      var p := Clean(if relToLink then JoinPath(Dir(name), target) else target);
      !(p == ".." || HasPrefix(p, "../"))
  }

  // ---------- Walking a target ----------

  /** How a part moves the walk: up for "..", nowhere for "" and ".", else down. */
  function Move(c: string): int { if c == "" || c == "." then 0 else if c == ".." then -1 else 1 }

  /** How deep the walk is after its first parts. */
  function Level(depth: int, parts: seq<string>, k: nat): int
    requires k <= |parts|
  {
    if k == 0 then depth else Level(depth, parts, k - 1) + Move(parts[k - 1])
  }

  /** A walk that begins this deep below the root never goes above it. */
  predicate StaysInside(depth: int, parts: seq<string>) {
    forall k: nat :: k <= |parts| ==> Level(depth, parts, k) >= 0
  }

  lemma {:induction false} LevelShift(depth: int, parts: seq<string>, k: nat)
    requires 1 <= k <= |parts|
    ensures Level(depth, parts, k) == Level(depth + Move(parts[0]), parts[1..], k - 1)
  {
    if k > 1 { LevelShift(depth, parts, k - 1); }
  }

  /** The same, one part at a time. */
  lemma StaysInsideStep(depth: int, parts: seq<string>)
    requires parts != []
    ensures StaysInside(depth, parts) <==> depth >= 0 && StaysInside(depth + Move(parts[0]), parts[1..])
  {
    var d, rest := depth + Move(parts[0]), parts[1..];
    forall k: nat | k <= |rest| ensures Level(d, rest, k) == Level(depth, parts, k + 1) { LevelShift(depth, parts, k + 1); }
    if StaysInside(depth, parts) {
      assert Level(depth, parts, 0) == depth;
      forall k: nat | k <= |rest| ensures Level(d, rest, k) >= 0 { assert Level(depth, parts, k + 1) >= 0; }
    }
    if depth >= 0 && StaysInside(d, rest) {
      forall k: nat | k <= |parts| ensures Level(depth, parts, k) >= 0 { if k > 0 { assert Level(d, rest, k - 1) >= 0; } }
    }
  }

  /** What begins outside stays outside. */
  lemma {:induction false} OutStaysOut(out: seq<string>, parts: seq<string>)
    requires out != [] && out[0] == ".."
    ensures Resolve(out, parts, false) != [] && Resolve(out, parts, false)[0] == ".."
    decreases |parts|
  {
    if parts != [] { OutStaysOut(Push(out, parts[0], false), parts[1..]); }
  }

  /** The cleaned path begins with ".." exactly if the walk went above the root at some point. */
  lemma {:induction false} BeginsOutsideIff(out: seq<string>, parts: seq<string>)
    requires AllNames(out) && NoSlashes(parts)
    ensures var r := Resolve(out, parts, false); (r != [] && r[0] == "..") <==> !StaysInside(|out|, parts)
    decreases |parts|
  {
    if parts == [] {
      assert Level(|out|, parts, 0) == |out|;
    } else {
      var c := parts[0];
      var next := Push(out, c, false);
      StaysInsideStep(|out|, parts);
      if c == ".." && out == [] {
        OutStaysOut(next, parts[1..]);
        assert Level(-1, parts[1..], 0) == -1;
      } else {
        BeginsOutsideIff(next, parts[1..]);
      }
    }
  }

  lemma FirstPart(p: string)
    ensures Split(p)[0] == ".." <==> p == ".." || HasPrefix(p, "../")
  {
    JoinSplit(p);
    if HasPrefix(p, "../") {
      assert p == ".." + "/" + p[3..];
      SplitConcat("..", p[3..]);
      SplitName("..");
    } else if p == ".." {
      SplitName("..");
    }
  }

  /** A checked relative path is refused exactly if its walk from `depth` names below the root goes above it. */
  lemma CleanedIsInside(p: string, names: seq<string>, parts: seq<string>)
    requires !IsRooted(p) && AllNames(names) && NoSlashes(parts)
    requires Resolve([], Split(p), false) == Resolve(names, parts, false)
    ensures var q := Clean(Clean(p)); (q == ".." || HasPrefix(q, "../")) <==> !StaysInside(|names|, parts)
  {
    CleanTwice(p);
    CleanParts(p);
    BeginsOutsideIff(names, parts);
    FirstPart(Clean(p));
    SplitName(".");
  }

  /** The directory of a checked member name: its names but the last. */
  lemma DirNames(name: string)
    requires AllNames(Split(name))
    ensures var names := Split(name)[..|Split(name)| - 1];
            && AllNames(names) && !IsRooted(Dir(name)) && Dir(name) != ""
            && Resolve([], Split(Dir(name)), false) == names
  {
    var names := Split(name)[..|Split(name)| - 1];
    DirParts(names);
    hide Resolve, IsRooted, Clean, Join, Split;
  }

  lemma DirParts(names: seq<string>)
    requires AllNames(names)
    ensures var dir := Clean(Join(names + [""])); !IsRooted(dir) && dir != "" && Resolve([], Split(dir), false) == names
  {
    var dir := Join(names + [""]);
    ResolveNames(names);
    SplitJoin(names + [""]);
    if names == [] {
      assert names + [""] == [""];
      assert Clean(dir) == ".";
      SplitName(".");
      assert Resolve([], ["."], false) == [];
    } else {
      JoinRooted(names + [""]);
      assert Clean(dir) == Join(names);
      SplitJoin(names);
      JoinRooted(names);
    }
  }

  lemma ResolveNames(names: seq<string>)
    requires AllNames(names)
    ensures Resolve([], names, false) == names && Resolve([], names + [""], false) == names
  {
    assert [] + names == names;
    ResolveKeeps([], names);
    ResolveConcat([], names, [""], false);
  }

  /**
   * A link is accepted exactly if its target is not empty, relative and free of NUL, and walking its parts
   * from the link's directory never goes above the root.
   */
  lemma {:induction false} LinkAcceptedIff(name: string, target: string)
    requires AllNames(Split(name))
    ensures CheckLinkTarget(name, target, true) <==>
              target != "" && !IsRooted(target) && '\0' !in target && StaysInside(|Split(name)| - 1, Split(target))
  {
    if target != "" && !IsRooted(target) && '\0' !in target {
      DirNames(name);
      var names, dir := Split(name)[..|Split(name)| - 1], Dir(name);
      SplitConcat(dir, target);
      ResolveConcat([], Split(dir), Split(target), false);
      CleanedIsInside(dir + "/" + target, names, Split(target));
    }
  }

  /** The same for a target that is taken from the root itself. */
  lemma {:induction false} RootLinkAcceptedIff(name: string, target: string)
    ensures CheckLinkTarget(name, target, false) <==>
              target != "" && !IsRooted(target) && '\0' !in target && StaysInside(0, Split(target))
  {
    if target != "" && !IsRooted(target) && '\0' !in target {
      CleanedIsInside(target, [], Split(target));
      CleanTwice(target);
    }
  }

  lemma {:induction false} ResolveNoDots(out: seq<string>, parts: seq<string>)
    requires AllNames(out) && NoSlashes(parts) && ".." !in parts
    ensures AllNames(Resolve(out, parts, false))
    decreases |parts|
  {
    if parts != [] {
      assert parts[0] in parts && ".." !in parts[1..];
      ResolveNoDots(Push(out, parts[0], false), parts[1..]);
    }
  }

  /** A name that is accepted is turned into "." or names alone, and would be accepted as it is. */
  lemma SafeNamesAreSafe(n: string)
    requires SafeName(n).Some?
    ensures SafeName(n).value == "." || AllNames(Split(SafeName(n).value))
    ensures !IsRooted(SafeName(n).value)
  {
    ResolveNoDots([], Split(n));
    CleanParts(n);
  }
}
