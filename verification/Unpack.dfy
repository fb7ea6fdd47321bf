/**
 * The agent's extraction of an archive of directories and regular files, and the way of an upload from
 * the panel to the bot's directory.
 */
module Unpack {

  import opened Artifact
  import opened Extract
  import opened Options
  import opened Paths

  /** A place below the extraction root, as the names that lead to it. */
  type Path = seq<string>

  /** `owned`: it belongs to the bot's user rather than to the agent's. */
  datatype Node = Folder(owned: bool) | File(body: string, executable: bool, owned: bool)

  type Tree = map<Path, Node>

  /** Where a member goes; nowhere if it names the root itself. */
  function PathOf(w: Written): Path {
    var name := SafeName(w.name);
    if name.None? || name.value == "." then [] else Split(name.value)
  }

  predicate IsFile(w: Written) { !w.dir && PathOf(w) != [] }

  /** What a member writes counts against the quota. */
  function SizeOf(w: Written): nat { if IsFile(w) then |w.body| else 0 }

  function Sum(ws: seq<Written>): nat {
    if ws == [] then 0 else Sum(ws[..|ws| - 1]) + SizeOf(ws[|ws| - 1])
  }

  /** A place some member is at or below. */
  predicate Covered(ws: seq<Written>, p: Path) { p != [] && exists k :: 0 <= k < |ws| && p <= PathOf(ws[k]) }

  /** No file is where another member is, or above it. */
  predicate Compatible(ws: seq<Written>) {
    forall j, k :: 0 <= j < |ws| && 0 <= k < |ws| && j != k && IsFile(ws[j]) ==> !(PathOf(ws[j]) <= PathOf(ws[k]))
  }

  predicate SafeNames(ws: seq<Written>) { forall k :: 0 <= k < |ws| ==> SafeName(ws[k].name).Some? }

  /** Whose a place is once these members are extracted: their own members', or as whatever created it left it. */
  predicate Owned(ws: seq<Written>, p: Path) {
    ws != [] &&
    var before, w := ws[..|ws| - 1], ws[|ws| - 1];
    PathOf(w) == p || if Covered(before, p) then Owned(before, p) else !w.dir
  }

  ghost predicate Places(tree: Tree, ws: seq<Written>) { forall p: Path :: p in tree <==> Covered(ws, p) }

  predicate Contents(tree: Tree, ws: seq<Written>) {
    forall k :: 0 <= k < |ws| && IsFile(ws[k]) ==>
      PathOf(ws[k]) in tree && tree[PathOf(ws[k])] == File(ws[k].body, ws[k].executable, true)
  }

  predicate NoOtherFiles(tree: Tree, ws: seq<Written>) {
    forall p :: p in tree && tree[p].File? ==> exists k :: 0 <= k < |ws| && IsFile(ws[k]) && PathOf(ws[k]) == p
  }

  predicate Owners(tree: Tree, ws: seq<Written>) { forall p :: p in tree ==> (tree[p].owned <==> Owned(ws, p)) }

  /** The tree is exactly what the members say: their files with their contents, and the folders they lie in. */
  ghost predicate Holds(tree: Tree, ws: seq<Written>) {
    Places(tree, ws) && Contents(tree, ws) && NoOtherFiles(tree, ws) && Owners(tree, ws)
  }

  // ---------- The calls ----------

  datatype MkdirResult = Made | AlreadyThere | NoFolder

  predicate HasFolder(tree: Tree, p: Path)
    requires p != []
  {
    |p| == 1 || (p[..|p| - 1] in tree && tree[p[..|p| - 1]].Folder?)
  }

  /** Above everything there are folders. */
  predicate InFolders(tree: Tree) { forall p :: p in tree ==> p != [] && HasFolder(tree, p) }

  /** The first places on the way to `path`. */
  function Way(path: Path, n: nat): set<Path>
    requires n <= |path|
  {
    set i | 1 <= i <= n :: path[..i]
  }

  /** Every missing one of them is made a folder. */
  function WithFolders(tree: Tree, path: Path, n: nat, owned: bool): Tree
    requires n <= |path|
  {
    map p | p in tree.Keys + Way(path, n) :: if p in tree then tree[p] else Folder(owned)
  }

  /** None of them is a file. */
  predicate NoFileOnWay(tree: Tree, path: Path, n: nat)
    requires n <= |path|
  {
    forall i :: 1 <= i <= n && path[..i] in tree ==> tree[path[..i]].Folder?
  }

  lemma FolderAdded(tree: Tree, path: Path, i: nat, owned: bool)
    requires 1 <= i <= |path| && InFolders(tree)
    requires NoFileOnWay(tree, path, i - 1)
    ensures var before, p := WithFolders(tree, path, i - 1, owned), path[..i];
            && HasFolder(before, p) && (p in before <==> p in tree) && (p in tree ==> before[p] == tree[p])
            && WithFolders(tree, path, i, owned) == if p in before then before else before[p := Folder(owned)]
  {
    var before, p := WithFolders(tree, path, i - 1, owned), path[..i];
    WayGrows(path, i);
    hide Way;
    assert p[..i - 1] == path[..i - 1];
  }

  lemma WayGrows(path: Path, i: nat)
    requires 1 <= i <= |path|
    ensures Way(path, i) == Way(path, i - 1) + {path[..i]} && path[..i] !in Way(path, i - 1)
    ensures i > 1 ==> path[..i - 1] in Way(path, i - 1)
  {
    forall j | 1 <= j <= i - 1 ensures path[..j] != path[..i] { assert |path[..j]| == j; }
  }

  class Root {
    var tree: Tree

    constructor ()
      ensures tree == map[]
    {
      tree := map[];
    }

    method Mkdir(p: Path, owned: bool) returns (r: MkdirResult)
      requires p != []
      modifies this
      ensures r.NoFolder? <==> !HasFolder(old(tree), p)
      ensures r.AlreadyThere? <==> HasFolder(old(tree), p) && p in old(tree)
      ensures tree == if r.Made? then old(tree)[p := Folder(owned)] else old(tree)
    {
      if !HasFolder(tree, p) { return NoFolder; }
      if p in tree { return AlreadyThere; }
      tree := tree[p := Folder(owned)];
      r := Made;
    }

    /** Creates the missing folders above a member, the bot's user's. A file in the last place is not noticed here. */
    method MkParents(path: Path) returns (ok: bool)
      requires path != [] && InFolders(tree)
      modifies this
      ensures ok ==> tree == WithFolders(old(tree), path, |path| - 1, true)
      ensures ok <==> NoFileOnWay(old(tree), path, if |path| == 1 then 0 else |path| - 2)
    {
      hide InFolders, WithFolders, Way;
      NoFolders(tree, path, true);
      var i := 1;
      while i < |path|
        invariant 1 <= i <= |path|
        invariant tree == WithFolders(old(tree), path, i - 1, true)
        invariant i > 1 ==> NoFileOnWay(old(tree), path, i - 2)
        decreases |path| - i
      {
        if NoFileOnWay(old(tree), path, i - 1) { FolderAdded(old(tree), path, i, true); } else { FileOnWay(old(tree), path, i, true); }
        var made := Mkdir(path[..i], true);
        if made.NoFolder? { return false; }
        i := i + 1;
      }
      ok := true;
    }

    /** Creates a folder and those above it that are missing, the agent's user's. */
    method MkdirAll(path: Path) returns (ok: bool)
      requires path != [] && InFolders(tree)
      modifies this
      ensures ok ==> tree == WithFolders(old(tree), path, |path|, false)
      ensures ok <==> NoFileOnWay(old(tree), path, |path|)
    {
      hide InFolders, WithFolders, Way;
      NoFolders(tree, path, false);
      var i := 1;
      while i <= |path|
        invariant 1 <= i <= |path| + 1
        invariant tree == WithFolders(old(tree), path, i - 1, false)
        invariant NoFileOnWay(old(tree), path, i - 1)
        decreases |path| - i
      {
        FolderAdded(old(tree), path, i, false);
        var _ := Mkdir(path[..i], false);
        if tree[path[..i]].File? { return false; }
        i := i + 1;
      }
      ok := true;
    }

    method WriteNew(path: Path, body: string, executable: bool) returns (ok: bool)
      requires path != []
      modifies this
      ensures ok <==> HasFolder(old(tree), path) && path !in old(tree)
      ensures tree == if ok then old(tree)[path := File(body, executable, true)] else old(tree)
    {
      if !HasFolder(tree, path) || path in tree { return false; }
      tree := tree[path := File(body, executable, true)];
      ok := true;
    }

    /**
     * Extracts an archive of folders and files into an empty directory. It succeeds exactly if every name
     * is safe, no file is at or above the place of another member, and the files fit the quota; and then
     * the directory holds exactly the files that were written, with their contents, and their folders.
     */
    method ExtractTarGz(ws: seq<Written>, maxBytes: nat) returns (ok: bool)
      requires tree == map[]
      modifies this
      ensures ok <==> SafeNames(ws) && Compatible(ws) && Sum(ws) <= maxBytes
      ensures ok ==> Holds(tree, ws)
    {
      hide SafeName, PathOf, Compatible, Sum, Holds, NoFileOnWay, WithFolders, InFolders, HasFolder;
      var total := 0;
      NothingHeld(maxBytes);
      for k := 0 to |ws|
        invariant SafeNames(ws[..k]) && Compatible(ws[..k]) && total == Sum(ws[..k]) <= maxBytes
        invariant Holds(tree, ws[..k])
      {
        var w, before := ws[k], ws[..k];
        assert ws[..k + 1] == before + [w];
        Prefixes(ws, k + 1);
        MemberStep(tree, before, w);
        if SafeName(w.name).None? { return false; }
        var path := MemberPath(w);
        if path == [] { continue; }
        if w.dir {
          var made := MkdirAll(path);
          if !made { return false; }
          tree := tree[path := Folder(true)];
        } else {
          var parents := MkParents(path);
          if !parents { return false; }
          if total + |w.body| > maxBytes { return false; }
          var written := WriteNew(path, w.body, w.executable);
          if !written { return false; }
          total := total + |w.body|;
        }
      }
      assert ws[..|ws|] == ws;
      ok := true;
    }
  }

  method MemberPath(w: Written) returns (p: Path)
    requires SafeName(w.name).Some?
    ensures p == PathOf(w)
  {
    var name := SafeName(w.name).value;
    p := if name == "." then [] else Split(name);
  }

  lemma NoFolders(tree: Tree, path: Path, owned: bool)
    ensures WithFolders(tree, path, 0, owned) == tree
  {
  }

  /** A file in the place before is where creating a folder fails. */
  lemma FileOnWay(tree: Tree, path: Path, i: nat, owned: bool)
    requires 2 <= i <= |path| && NoFileOnWay(tree, path, i - 2) && !NoFileOnWay(tree, path, i - 1)
    ensures !HasFolder(WithFolders(tree, path, i - 1, owned), path[..i])
  {
    assert path[..i][..i - 1] == path[..i - 1];
  }

  // ---------- One member more ----------

  lemma NothingHeld(maxBytes: nat)
    ensures Holds(map[], []) && Compatible([]) && Sum([]) == 0 && SafeNames([])
  {
  }

  lemma {:induction false} SumMonotone(ws: seq<Written>, k: nat)
    requires k <= |ws|
    ensures Sum(ws[..k]) <= Sum(ws)
  {
    if k < |ws| {
      assert ws[..|ws| - 1][..k] == ws[..k];
      SumMonotone(ws[..|ws| - 1], k);
    } else {
      assert ws[..k] == ws;
    }
  }

  /** What fails for the first members fails for all. */
  lemma Prefixes(ws: seq<Written>, k: nat)
    requires k <= |ws|
    ensures Compatible(ws) ==> Compatible(ws[..k])
    ensures SafeNames(ws) ==> SafeNames(ws[..k])
    ensures Sum(ws[..k]) <= Sum(ws)
  {
    SumMonotone(ws, k);
    hide Sum, PathOf, IsFile;
  }

  lemma CompatibleStep(ws: seq<Written>, w: Written)
    requires Compatible(ws)
    ensures Compatible(ws + [w]) <==>
              && (IsFile(w) ==> !Covered(ws, PathOf(w)))
              && (forall j :: 0 <= j < |ws| && IsFile(ws[j]) ==> !(PathOf(ws[j]) <= PathOf(w)))
  {
    hide PathOf;
    var all := ws + [w];
    assert forall j :: 0 <= j < |ws| ==> all[j] == ws[j];
    assert all[|ws|] == w;
  }

  /** A file stands in the way exactly if a file member is at one of these places. */
  lemma FilesOnWay(tree: Tree, ws: seq<Written>, path: Path, n: nat)
    requires Holds(tree, ws) && n <= |path|
    ensures NoFileOnWay(tree, path, n) <==>
              forall j :: 0 <= j < |ws| && IsFile(ws[j]) && |PathOf(ws[j])| <= n ==> !(PathOf(ws[j]) <= path)
  {
    hide PathOf, Owned, Covered;
    forall j | 0 <= j < |ws| && IsFile(ws[j]) && |PathOf(ws[j])| <= n && PathOf(ws[j]) <= path
      ensures !NoFileOnWay(tree, path, n)
    {
      assert path[..|PathOf(ws[j])|] == PathOf(ws[j]) && PathOf(ws[j]) != [];
    }
    forall i | 1 <= i <= n && path[..i] in tree && tree[path[..i]].File?
      ensures exists j :: 0 <= j < |ws| && IsFile(ws[j]) && |PathOf(ws[j])| <= n && PathOf(ws[j]) <= path
    {
      var j :| 0 <= j < |ws| && IsFile(ws[j]) && PathOf(ws[j]) == path[..i];
    }
  }

  lemma HoldsInFolders(tree: Tree, ws: seq<Written>)
    requires Holds(tree, ws) && Compatible(ws)
    ensures InFolders(tree)
  {
    hide PathOf, Owned;
    forall p | p in tree
      ensures p != [] && HasFolder(tree, p)
    {
      assert Covered(ws, p);
      var k :| 0 <= k < |ws| && p <= PathOf(ws[k]);
      if |p| > 1 {
        var q := p[..|p| - 1];
        assert q <= PathOf(ws[k]) && Covered(ws, q);
      }
    }
  }

  lemma CoveredStep(ws: seq<Written>, w: Written, p: Path)
    ensures Covered(ws + [w], p) <==> Covered(ws, p) || (p != [] && p <= PathOf(w))
  {
    hide PathOf;
    var all := ws + [w];
    assert all[|ws|] == w && forall k :: 0 <= k < |ws| ==> all[k] == ws[k];
  }

  lemma OwnedStep(ws: seq<Written>, w: Written, p: Path)
    ensures Owned(ws + [w], p) <==> PathOf(w) == p || if Covered(ws, p) then Owned(ws, p) else !w.dir
  {
    hide PathOf, Covered;
    assert (ws + [w])[..|ws|] == ws;
  }

  lemma WayIff(path: Path, n: nat, p: Path)
    requires n <= |path|
    ensures p in Way(path, n) <==> p != [] && |p| <= n && p <= path
  {
    if p != [] && |p| <= n && p <= path { assert p == path[..|p|]; }
  }

  /** What a member adds: itself, and the folders above it that were missing. */
  ghost predicate Adds(tree: Tree, w: Written, after: Tree)
    requires PathOf(w) != []
  {
    var path := PathOf(w);
    && (forall p: Path :: p in after <==> p in tree || (p != [] && p <= path))
    && after[path] == (if w.dir then Folder(true) else File(w.body, w.executable, true))
    && (forall p :: p in tree && p != path ==> after[p] == tree[p])
    && (forall p :: p in after && p !in tree && p != path ==> after[p] == Folder(!w.dir))
  }

  lemma PlacesAdded(tree: Tree, ws: seq<Written>, w: Written, after: Tree)
    requires Places(tree, ws) && forall p: Path :: p in after <==> p in tree || (p != [] && p <= PathOf(w))
    ensures Places(after, ws + [w])
  {
    hide PathOf, Covered;
    forall p: Path ensures p in after <==> Covered(ws + [w], p) { CoveredStep(ws, w, p); }
  }

  lemma OwnersAdded(tree: Tree, ws: seq<Written>, w: Written, after: Tree)
    requires Places(tree, ws) && Owners(tree, ws)
    requires forall p :: p in after ==> (after[p].owned <==> PathOf(w) == p || if p in tree then tree[p].owned else !w.dir)
    ensures Owners(after, ws + [w])
  {
    hide PathOf, Covered, Owned;
    forall p | p in after ensures after[p].owned <==> Owned(ws + [w], p) { OwnedStep(ws, w, p); }
  }

  lemma ContentsAdded(tree: Tree, ws: seq<Written>, w: Written, after: Tree)
    requires Contents(tree, ws) && forall k :: 0 <= k < |ws| && IsFile(ws[k]) ==> PathOf(ws[k]) != PathOf(w)
    requires forall p :: p in tree && p != PathOf(w) ==> p in after && after[p] == tree[p]
    requires IsFile(w) ==> PathOf(w) in after && after[PathOf(w)] == File(w.body, w.executable, true)
    ensures Contents(after, ws + [w])
  {
    hide PathOf;
  }

  lemma FilesAdded(tree: Tree, ws: seq<Written>, w: Written, after: Tree)
    requires NoOtherFiles(tree, ws)
    requires forall p :: p in after && after[p].File? ==> (p in tree && tree[p].File?) || (IsFile(w) && p == PathOf(w))
    ensures NoOtherFiles(after, ws + [w])
  {
    hide PathOf;
    var all := ws + [w];
    assert all[|ws|] == w;
    forall p | p in after && after[p].File?
      ensures exists k :: 0 <= k < |all| && IsFile(all[k]) && PathOf(all[k]) == p
    {
      if p in tree && tree[p].File? {
        var k :| 0 <= k < |ws| && IsFile(ws[k]) && PathOf(ws[k]) == p;
        assert all[k] == ws[k];
      }
    }
  }

  lemma NotWhereAFileIs(ws: seq<Written>, w: Written)
    requires Compatible(ws + [w])
    ensures forall k :: 0 <= k < |ws| && IsFile(ws[k]) ==> PathOf(ws[k]) != PathOf(w)
  {
    hide PathOf;
    var all := ws + [w];
    forall k | 0 <= k < |ws| && IsFile(ws[k])
      ensures PathOf(ws[k]) != PathOf(w)
    {
      assert all[k] == ws[k] && all[|ws|] == w && !(PathOf(all[k]) <= PathOf(all[|ws|]));
    }
  }

  lemma AddsOwners(tree: Tree, w: Written, after: Tree)
    requires PathOf(w) != [] && Adds(tree, w, after)
    ensures forall p :: p in after ==> (after[p].owned <==> PathOf(w) == p || if p in tree then tree[p].owned else !w.dir)
  {
    hide PathOf;
  }

  lemma AddsFiles(tree: Tree, w: Written, after: Tree)
    requires PathOf(w) != [] && Adds(tree, w, after)
    ensures forall p :: p in after && after[p].File? ==> (p in tree && tree[p].File?) || (IsFile(w) && p == PathOf(w))
  {
    hide PathOf;
  }

  lemma AddsContents(tree: Tree, w: Written, after: Tree)
    requires PathOf(w) != [] && Adds(tree, w, after)
    ensures forall p: Path :: p in after <==> p in tree || (p != [] && p <= PathOf(w))
    ensures forall p :: p in tree && p != PathOf(w) ==> p in after && after[p] == tree[p]
    ensures IsFile(w) ==> PathOf(w) in after && after[PathOf(w)] == File(w.body, w.executable, true)
  {
    hide PathOf;
  }

  lemma AddedHolds(tree: Tree, ws: seq<Written>, w: Written, after: Tree)
    requires Holds(tree, ws) && PathOf(w) != [] && Adds(tree, w, after) && Compatible(ws + [w])
    ensures Holds(after, ws + [w])
  {
    hide PathOf, Adds, Places, Contents, NoOtherFiles, Owners, Compatible, IsFile;
    NotWhereAFileIs(ws, w);
    AddsOwners(tree, w, after);
    AddsFiles(tree, w, after);
    AddsContents(tree, w, after);
    PlacesAdded(tree, ws, w, after);
    OwnersAdded(tree, ws, w, after);
    ContentsAdded(tree, ws, w, after);
    FilesAdded(tree, ws, w, after);
  }

  lemma FolderFits(tree: Tree, ws: seq<Written>, w: Written)
    requires Holds(tree, ws) && Compatible(ws) && PathOf(w) != [] && w.dir
    ensures NoFileOnWay(tree, PathOf(w), |PathOf(w)|) <==> Compatible(ws + [w])
  {
    CompatibleStep(ws, w);
    FilesOnWay(tree, ws, PathOf(w), |PathOf(w)|);
    hide PathOf, Holds, Compatible, Covered, NoFileOnWay;
  }

  lemma FolderAdds(tree: Tree, w: Written)
    requires PathOf(w) != [] && w.dir
    ensures Adds(tree, w, WithFolders(tree, PathOf(w), |PathOf(w)|, false)[PathOf(w) := Folder(true)])
  {
    hide PathOf;
    var path := PathOf(w);
    forall p: Path ensures p in Way(path, |path|) <==> p != [] && |p| <= |path| && p <= path { WayIff(path, |path|, p); }
    hide Way;
  }

  lemma FileAdds(tree: Tree, w: Written)
    requires PathOf(w) != [] && !w.dir
    ensures Adds(tree, w, WithFolders(tree, PathOf(w), |PathOf(w)| - 1, true)[PathOf(w) := File(w.body, w.executable, true)])
  {
    hide PathOf;
    var path := PathOf(w);
    forall p: Path ensures p in Way(path, |path| - 1) <==> p != [] && |p| <= |path| - 1 && p <= path { WayIff(path, |path| - 1, p); }
    hide Way;
    forall p: Path | p <= path && |p| == |path| ensures p == path { assert path[..|path|] == path; }
  }

  /** Creating a file fails exactly if a file is above it, or anything in its place. */
  lemma FileFits(tree: Tree, ws: seq<Written>, w: Written)
    requires Holds(tree, ws) && Compatible(ws) && PathOf(w) != [] && !w.dir
    ensures Compatible(ws + [w]) <==> NoFileOnWay(tree, PathOf(w), |PathOf(w)| - 1) && PathOf(w) !in tree
  {
    CompatibleStep(ws, w);
    FilesOnWay(tree, ws, PathOf(w), |PathOf(w)| - 1);
    hide PathOf, Compatible, Covered, NoFileOnWay, Contents, NoOtherFiles, Owners;
  }

  lemma FolderAbove(tree: Tree, path: Path)
    requires path != []
    ensures var t := WithFolders(tree, path, |path| - 1, true);
            && (path in t <==> path in tree)
            && (NoFileOnWay(tree, path, |path| - 1) <==>
                  NoFileOnWay(tree, path, if |path| == 1 then 0 else |path| - 2) && HasFolder(t, path))
  {
    var n := |path| - 1;
    WayIff(path, n, path);
    if n > 0 {
      var q := path[..n];
      WayIff(path, n, q);
      hide Way;
      assert q in WithFolders(tree, path, n, true);
    }
  }

  /** A member for the root itself changes nothing. */
  lemma RootMember(tree: Tree, ws: seq<Written>, w: Written)
    requires Holds(tree, ws) && Compatible(ws) && PathOf(w) == []
    ensures Holds(tree, ws + [w]) && Compatible(ws + [w])
  {
    CompatibleStep(ws, w);
    hide PathOf, Covered, Owned, Compatible;
    PlacesAdded(tree, ws, w, tree);
    OwnersAdded(tree, ws, w, tree);
    ContentsAdded(tree, ws, w, tree);
    FilesAdded(tree, ws, w, tree);
  }

  /** All that one member does, and when it fails. */
  lemma MemberStep(tree: Tree, ws: seq<Written>, w: Written)
    requires Holds(tree, ws) && Compatible(ws)
    ensures InFolders(tree)
    ensures Sum(ws + [w]) == Sum(ws) + SizeOf(w)
    ensures PathOf(w) == [] ==> Holds(tree, ws + [w]) && Compatible(ws + [w])
    ensures PathOf(w) != [] && w.dir ==>
              var path := PathOf(w);
              && (NoFileOnWay(tree, path, |path|) <==> Compatible(ws + [w]))
              && (Compatible(ws + [w]) ==> Holds(WithFolders(tree, path, |path|, false)[path := Folder(true)], ws + [w]))
    ensures PathOf(w) != [] && !w.dir ==>
              var path := PathOf(w);
              var t := WithFolders(tree, path, |path| - 1, true);
              && (Compatible(ws + [w]) <==>
                    NoFileOnWay(tree, path, if |path| == 1 then 0 else |path| - 2) && HasFolder(t, path) && path !in t)
              && (Compatible(ws + [w]) ==> Holds(t[path := File(w.body, w.executable, true)], ws + [w]))
  {
    HoldsInFolders(tree, ws);
    assert (ws + [w])[..|ws|] == ws;
    hide PathOf, Holds, Compatible, NoFileOnWay, WithFolders, InFolders, HasFolder, Adds;
    if PathOf(w) == [] {
      RootMember(tree, ws, w);
    } else if w.dir {
      FolderFits(tree, ws, w);
      FolderAdds(tree, w);
      if Compatible(ws + [w]) { AddedHolds(tree, ws, w, WithFolders(tree, PathOf(w), |PathOf(w)|, false)[PathOf(w) := Folder(true)]); }
    } else {
      FileFits(tree, ws, w);
      FileAdds(tree, w);
      FolderAbove(tree, PathOf(w));
      var after := WithFolders(tree, PathOf(w), |PathOf(w)| - 1, true)[PathOf(w) := File(w.body, w.executable, true)];
      if Compatible(ws + [w]) { AddedHolds(tree, ws, w, after); }
    }
  }

  // ---------- Whose the folders are ----------

  /** The first member at or below a place. */
  predicate FirstAt(ws: seq<Written>, k: nat, p: Path) {
    k < |ws| && p <= PathOf(ws[k]) && forall j :: 0 <= j < k ==> !(p <= PathOf(ws[j]))
  }

  /** A folder that no member is for, created on the way to a folder further down. */
  predicate LeftToAgent(ws: seq<Written>, p: Path) {
    && (forall j :: 0 <= j < |ws| ==> PathOf(ws[j]) != p)
    && exists k: nat :: k < |ws| && FirstAt(ws, k, p) && ws[k].dir
  }

  lemma LeftStep(ws: seq<Written>, w: Written, p: Path)
    requires p != []
    ensures LeftToAgent(ws + [w], p) <==>
              PathOf(w) != p && if Covered(ws, p) then LeftToAgent(ws, p) else p <= PathOf(w) && w.dir && forall j :: 0 <= j < |ws| ==> PathOf(ws[j]) != p
  {
    hide PathOf;
    var all := ws + [w];
    assert all[|ws|] == w && forall k :: 0 <= k < |ws| ==> all[k] == ws[k];
    if Covered(ws, p) {
      forall k: nat ensures FirstAt(all, k, p) <==> FirstAt(ws, k, p) {}
    } else {
      forall k: nat ensures FirstAt(all, k, p) <==> k == |ws| && p <= PathOf(w) {
        if k < |ws| { assert !(p <= PathOf(ws[k])); }
      }
    }
  }

  /**
   * "Everything created is owned by the bot's user" holds for every place but the folders that no member is
   * for and that were first created on the way to a folder member.
   */
  lemma {:induction false} OwnedIff(ws: seq<Written>, p: Path)
    requires Covered(ws, p)
    ensures Owned(ws, p) <==> !LeftToAgent(ws, p)
  {
    var before, w := ws[..|ws| - 1], ws[|ws| - 1];
    assert ws == before + [w];
    CoveredStep(before, w, p);
    OwnedStep(before, w, p);
    LeftStep(before, w, p);
    hide PathOf, Owned, Covered, LeftToAgent;
    if Covered(before, p) {
      OwnedIff(before, p);
    } else {
      NotAt(before, p);
    }
  }

  /** So a folder listed without those above it leaves them the agent's. */
  lemma LoneFolderLeavesParents(w: Written, n: nat)
    requires w.dir && 0 < n < |PathOf(w)|
    ensures LeftToAgent([w], PathOf(w)[..n]) && Covered([w], PathOf(w)[..n])
  {
    hide PathOf;
    assert FirstAt([w], 0, PathOf(w)[..n]);
  }

  lemma NotAt(ws: seq<Written>, p: Path)
    requires !Covered(ws, p) && p != []
    ensures forall j :: 0 <= j < |ws| ==> PathOf(ws[j]) != p
  {
    hide PathOf;
    forall j | 0 <= j < |ws| ensures PathOf(ws[j]) != p { assert p != [] && !(p <= PathOf(ws[j])); }
  }

  // ---------- From the panel to the bot's directory ----------

  lemma {:induction false} SumIsWritten(ws: seq<Written>)
    ensures Sum(ws) <= WrittenBytes(ws)
  {
    if ws != [] { SumIsWritten(ws[..|ws| - 1]); }
  }

  /** What the agent is sent of an upload. */
  function Sent(ms: seq<Member>): seq<Written> { AllWritten(NormalEntries(ms)) }

  /** Where a file or folder of the upload belongs. */
  lemma PathOfEntry(e: Entry)
    requires GoodName(e.name) && '\0' !in e.name
    ensures PathOf(WrittenAs(e)) == Split(e.name)
  {
    WrittenIsReadBack(e);
    JoinSplit(e.name);
    hide SafeName, Join;
    SplitName(".");
  }

  lemma SentIsSafe(ms: seq<Member>)
    ensures SafeNames(Sent(ms)) <==> NoNul(NormalEntries(ms))
  {
    NormalEntriesAreGood(ms);
    var es := NormalEntries(ms);
    hide SafeName, NormalEntries, GoodName;
    forall k | 0 <= k < |es| ensures SafeName(Sent(ms)[k].name).Some? <==> '\0' !in es[k].name {
      WrittenIsReadBack(es[k]);
    }
  }

  /**
   * The whole way of an upload, to a bot with at least the disk it was checked against. The panel takes it
   * exactly if it is acceptable; the agent extracts it exactly if besides no file is at or above the place
   * of another entry. Then the bot's directory holds exactly the
   * upload's own files, with their contents, and their folders.
   */
  method Deliver(ms: seq<Member>, limit: nat, maxBytes: nat, root: Root) returns (taken: bool, ok: bool)
    requires limit <= maxBytes && root.tree == map[]
    modifies root
    ensures taken <==> Accepts(ms, limit)
    ensures ok <==> Accepts(ms, limit) && Compatible(Sent(ms))
    ensures ok ==> Holds(root.tree, Sent(ms))
    ensures ok ==> forall k :: 0 <= k < |NormalEntries(ms)| ==> FileArrived(root.tree, NormalEntries(ms)[k])
    ensures ok ==> forall p :: p in root.tree ==> (root.tree[p].owned <==> !LeftToAgent(Sent(ms), p))
  {
    hide NormalEntries, Acceptable, Files, Bytes, SafeName, Compatible, Sum, WrittenBytes, LeftToAgent, Contents, NoOtherFiles, NoNul, SafeNames, Holds, FileArrived;
    var written := Normalise(ms, limit);
    if written.None? { return false, false; }
    SumIsWritten(written.value);
    SentIsSafe(ms);
    ok := root.ExtractTarGz(written.value, maxBytes);
    taken := true;
    if ok {
      SentArrives(ms, root.tree);
      SentOwners(ms, root.tree);
    }
  }

  /** An entry of the upload, as the bot's directory holds it. */
  predicate FileArrived(tree: Tree, e: Entry) {
    var p := Split(e.name);
    p in tree && if e.dir then tree[p].Folder? else tree[p] == File(e.body, e.executable, true)
  }

  lemma SentArrives(ms: seq<Member>, tree: Tree)
    requires Holds(tree, Sent(ms)) && NoNul(NormalEntries(ms)) && Compatible(Sent(ms))
    ensures forall k :: 0 <= k < |NormalEntries(ms)| ==> FileArrived(tree, NormalEntries(ms)[k])
  {
    NormalEntriesAreGood(ms);
    var es, ws := NormalEntries(ms), Sent(ms);
    hide NormalEntries, GoodName, PathOf, Owned, Compatible;
    forall k | 0 <= k < |es| ensures FileArrived(tree, es[k]) {
      PathOfEntry(es[k]);
      var p := PathOf(ws[k]);
      assert p <= p && Covered(ws, p);
      if es[k].dir { FolderIsNoFile(tree, ws, k); }
    }
  }

  lemma FolderIsNoFile(tree: Tree, ws: seq<Written>, k: nat)
    requires k < |ws| && ws[k].dir && Holds(tree, ws) && Compatible(ws) && PathOf(ws[k]) in tree
    ensures tree[PathOf(ws[k])].Folder?
  {
    hide PathOf, Owned, Covered;
  }

  lemma SentOwners(ms: seq<Member>, tree: Tree)
    requires Holds(tree, Sent(ms))
    ensures forall p :: p in tree ==> (tree[p].owned <==> !LeftToAgent(Sent(ms), p))
  {
    hide LeftToAgent, Owned, Covered, NormalEntries;
    forall p | p in tree ensures tree[p].owned <==> !LeftToAgent(Sent(ms), p) { OwnedIff(Sent(ms), p); }
  }
}
