/** The panel's normalisation of an upload: which member names it takes, and what it writes for the agent. */
module Artifact {

  import opened Extract
  import opened Options
  import opened Paths

  const MAX_FILES := 20000

  datatype NameResult = Refused | Dropped | Kept(name: string)

  datatype Kind = Directory | Regular | Header | Special

  /** A member of an uploaded tar archive; of its mode only the execute bits matter. */
  datatype Member = Member(name: string, kind: Kind, executable: bool, body: string)

  datatype Entry = Entry(name: string, dir: bool, executable: bool, body: string)

  /** A member of the archive that is written. */
  datatype Written = Written(name: string, dir: bool, executable: bool, body: string)

  function Slashed(s: string): (r: string)
    ensures |r| == |s| && forall i :: 0 <= i < |s| ==> r[i] == if s[i] == '\\' then '/' else s[i]
  {
    if s == "" then "" else [if s[0] == '\\' then '/' else s[0]] + Slashed(s[1..])
  }

  function CleanName(raw: string): NameResult {
    var name := Slashed(raw);
    if IsRooted(name) || (|name| > 1 && name[1] == ':') then Refused
    else if ".." in Split(name) then Refused
    else
      var clean := Clean(name);
      var parts := Split(clean);
      if clean == "." || clean == "" then Dropped
      // What macOS adds to an archive is left out.
      else if parts[|parts| - 1] == ".DS_Store" || "__MACOSX" in parts then Dropped
      else Kept(clean)
  }

  // ---------- The panel ----------

  /** The entry of a member, if there is anything to keep. */
  function EntryOf(m: Member): seq<Entry> {
    match CleanName(m.name)
    case Kept(name) =>
      if m.kind.Directory? then [Entry(name, true, true, "")]
      else if m.kind.Regular? then [Entry(name, false, m.executable, m.body)]
      else []
    case _ => []
  }

  function Entries(ms: seq<Member>): seq<Entry> {
    if ms == [] then [] else Entries(ms[..|ms| - 1]) + EntryOf(ms[|ms| - 1])
  }

  function Size(m: Member): nat { if m.kind.Regular? then |m.body| else 0 }

  function Total(ms: seq<Member>): nat {
    if ms == [] then 0 else Total(ms[..|ms| - 1]) + Size(ms[|ms| - 1])
  }

  predicate MayTake(m: Member) { !CleanName(m.name).Refused? && !m.kind.Special? }

  /** A tar archive is taken if its names are good, it holds only directories and regular files, and it is not too large. */
  predicate Acceptable(ms: seq<Member>, limit: nat) {
    && (forall k :: 0 <= k < |ms| ==> MayTake(ms[k]))
    && (forall k :: 0 <= k < |ms| ==> |Entries(ms[..k])| < MAX_FILES)
    && Total(ms) <= limit
  }

  lemma {:induction false} TotalMonotone(ms: seq<Member>, k: nat)
    requires k <= |ms|
    ensures Total(ms[..k]) <= Total(ms)
  {
    if k < |ms| {
      assert ms[..|ms| - 1][..k] == ms[..k];
      TotalMonotone(ms[..|ms| - 1], k);
    } else {
      assert ms[..k] == ms;
    }
  }

  lemma AcceptablePrefix(ms: seq<Member>, k: nat, limit: nat)
    requires k <= |ms| && Acceptable(ms, limit)
    ensures Acceptable(ms[..k], limit)
  {
    TotalMonotone(ms, k);
    hide Entries, Total, MayTake;
    forall j | 0 <= j < k ensures |Entries(ms[..k][..j])| < MAX_FILES { assert ms[..k][..j] == ms[..j]; }
  }

  lemma SumsStep(ms: seq<Member>, k: nat)
    requires k < |ms|
    ensures Entries(ms[..k + 1]) == Entries(ms[..k]) + EntryOf(ms[k]) && Total(ms[..k + 1]) == Total(ms[..k]) + Size(ms[k])
  {
    assert ms[..k + 1][..k] == ms[..k];
    hide EntryOf, Size;
  }

  lemma {:induction false} AcceptableStep(ms: seq<Member>, k: nat, limit: nat)
    requires k < |ms|
    ensures Acceptable(ms[..k + 1], limit) <==>
              Acceptable(ms[..k], limit) && MayTake(ms[k]) && |Entries(ms[..k])| < MAX_FILES && Total(ms[..k]) + Size(ms[k]) <= limit
  {
    SumsStep(ms, k);
    hide MayTake, Size, Entries, Total;
    if Acceptable(ms[..k + 1], limit) { AcceptableBack(ms, k, limit); }
    if Acceptable(ms[..k], limit) && MayTake(ms[k]) && |Entries(ms[..k])| < MAX_FILES { AcceptableOn(ms, k, limit); }
  }

  lemma AcceptableBack(ms: seq<Member>, k: nat, limit: nat)
    requires k < |ms| && Acceptable(ms[..k + 1], limit)
    ensures Acceptable(ms[..k], limit) && MayTake(ms[k]) && |Entries(ms[..k])| < MAX_FILES
  {
    hide MayTake, Size, Entries, Total;
    var now := ms[..k + 1];
    AcceptablePrefix(now, k, limit);
    assert now[..k] == ms[..k] && MayTake(now[k]);
    assert |Entries(now[..k])| < MAX_FILES;
  }

  lemma AcceptableOn(ms: seq<Member>, k: nat, limit: nat)
    requires k < |ms| && Acceptable(ms[..k], limit) && MayTake(ms[k]) && |Entries(ms[..k])| < MAX_FILES
    ensures Total(ms[..k + 1]) <= limit ==> Acceptable(ms[..k + 1], limit)
  {
    hide MayTake, Size, Entries, Total;
    var was, now := ms[..k], ms[..k + 1];
    forall j | 0 <= j <= k ensures |Entries(now[..j])| < MAX_FILES {
      if j < k { assert was[..j] == now[..j] && |Entries(was[..j])| < MAX_FILES; } else { assert now[..j] == was; }
    }
    forall j | 0 <= j <= k ensures MayTake(now[j]) { if j < k { assert MayTake(was[j]); } }
  }

  /** Reads the members one after another, stopping at the first that is not to be taken. */
  method TarGzEntries(ms: seq<Member>, limit: nat) returns (r: Option<seq<Entry>>)
    ensures r.Some? <==> Acceptable(ms, limit)
    ensures r.Some? ==> r.value == Entries(ms)
  {
    hide CleanName, Acceptable, Entries, Total;
    var out, total := NothingYet(ms, limit);
    for k := 0 to |ms|
      invariant out == Entries(ms[..k]) && total == Total(ms[..k]) <= limit
      invariant Acceptable(ms[..k], limit)
    {
      AcceptableStep(ms, k, limit);
      SumsStep(ms, k);
      if Acceptable(ms, limit) { AcceptablePrefix(ms, k + 1, limit); }
      var m := ms[k];
      if |out| >= MAX_FILES { return None; }
      var name := CleanName(m.name);
      if name.Refused? { return None; }
      match m.kind
      case Directory =>
        if name.Kept? { out := out + [Entry(name.name, true, true, "")]; }
      case Regular =>
        total := total + |m.body|;
        if total > limit { return None; }
        if name.Kept? { out := out + [Entry(name.name, false, m.executable, m.body)]; }
      case Header =>
      case Special => return None;
    }
    assert ms[..|ms|] == ms;
    r := Some(out);
  }

  method NothingYet(ms: seq<Member>, limit: nat) returns (out: seq<Entry>, total: nat)
    ensures out == Entries(ms[..0]) && total == Total(ms[..0]) == 0 && Acceptable(ms[..0], limit)
  {
    out, total := [], 0;
  }

  /** The one top-level directory that holds everything, if there is one. */
  predicate CommonRoot(es: seq<Entry>, root: string) {
    forall k :: 0 <= k < |es| ==> Split(es[k].name)[0] == root && (|Split(es[k].name)| > 1 || es[k].dir)
  }

  function Stripped(es: seq<Entry>, root: string): (r: seq<Entry>)
    ensures |r| <= |es|
  {
    if es == [] then []
    else
      var e, before := es[|es| - 1], Stripped(es[..|es| - 1], root);
      if e.name == root then before else before + [e.(name := Join(Split(e.name)[1..]))]
  }

  predicate GoodNames(es: seq<Entry>) { forall k :: 0 <= k < |es| ==> AllNames(Split(es[k].name)) }

  /** What is left of a name behind a prefix it has. */
  function TrimPrefix(s: string, prefix: string): string {
    if prefix <= s then s[|prefix|..] else s
  }

  lemma CutRoot(name: string, root: string)
    requires AllNames(Split(name)) && Split(name)[0] == root
    ensures |Split(name)| == 1 ==> name == root
    ensures |Split(name)| > 1 ==>
              && name != root && TrimPrefix(name, root + "/") == Join(Split(name)[1..])
              && name == root + "/" + Join(Split(name)[1..])
  {
    var parts := Split(name);
    JoinSplit(name);
    if |parts| > 1 {
      assert name == root + "/" + Join(parts[1..]);
      assert (root + "/") + Join(parts[1..]) == name;
    }
  }

  /** The root all entries lie under, or nothing if there is no single one. */
  method SoleRoot(es: seq<Entry>) returns (root: string)
    requires GoodNames(es)
    ensures root != "" ==> es != [] && root == Split(es[0].name)[0] && CommonRoot(es, root)
    ensures root == "" ==> es == [] || !CommonRoot(es, Split(es[0].name)[0])
  {
    hide Split;
    root := "";
    for k := 0 to |es|
      invariant root == if k == 0 then "" else Split(es[0].name)[0]
      invariant forall j :: 0 <= j < k ==> Split(es[j].name)[0] == root && (|Split(es[j].name)| > 1 || es[j].dir)
    {
      var parts := Split(es[k].name);
      assert AllNames(parts);
      if |parts| == 1 && !es[k].dir { return ""; }
      if root == "" {
        root := parts[0];
      } else if root != parts[0] {
        return "";
      }
    }
    assert es != [] ==> AllNames(Split(es[0].name));
  }

  lemma StrippedStep(es: seq<Entry>, root: string, k: nat)
    requires k < |es| && GoodNames(es) && CommonRoot(es, root)
    ensures var e := es[k];
            Stripped(es[..k + 1], root) ==
            Stripped(es[..k], root) + if e.name == root then [] else [e.(name := TrimPrefix(e.name, root + "/"))]
  {
    assert es[..k + 1][..k] == es[..k];
    CutRoot(es[k].name, root);
    JoinSplit(es[k].name);
    hide Split, Join, TrimPrefix;
  }

  /** Takes the sole root off every name; its own entries go. */
  method StripCommonRoot(es: seq<Entry>) returns (out: seq<Entry>)
    requires GoodNames(es)
    ensures es != [] && CommonRoot(es, Split(es[0].name)[0]) ==> out == Stripped(es, Split(es[0].name)[0])
    ensures es == [] || !CommonRoot(es, Split(es[0].name)[0]) ==> out == es
  {
    hide Split, GoodNames, CommonRoot;
    var root := SoleRoot(es);
    if root == "" { return es; }
    assert es[..|es|] == es;
    out := [];
    for k := 0 to |es|
      invariant out == Stripped(es[..k], root)
    {
      var e := es[k];
      StrippedStep(es, root, k);
      hide Stripped;
      if e.name != root {
        out := out + [e.(name := TrimPrefix(e.name, root + "/"))];
      }
    }
  }

  function Files(es: seq<Entry>): nat {
    if es == [] then 0 else Files(es[..|es| - 1]) + if es[|es| - 1].dir then 0 else 1
  }

  function Bytes(es: seq<Entry>): nat {
    if es == [] then 0 else Bytes(es[..|es| - 1]) + |es[|es| - 1].body|
  }

  function WrittenAs(e: Entry): Written {
    if e.dir then Written(e.name + "/", true, true, "") else Written(e.name, false, e.executable, e.body)
  }

  /** The bytes of the files that are written. */
  function WrittenBytes(ws: seq<Written>): nat {
    if ws == [] then 0 else WrittenBytes(ws[..|ws| - 1]) + |ws[|ws| - 1].body|
  }

  lemma {:induction false} WrittenBytesOf(es: seq<Entry>, ws: seq<Written>)
    requires |ws| == |es| && forall k :: 0 <= k < |es| ==> ws[k] == WrittenAs(es[k])
    ensures WrittenBytes(ws) <= Bytes(es)
  {
    if es != [] { WrittenBytesOf(es[..|es| - 1], ws[..|ws| - 1]); }
  }

  /**
   * Writes the members in order; refused if there is no file, or too much in them. A name with a NUL in it
   * fits no header the archive writer could use, so that one fails on it.
   */
  method WriteNormalised(es: seq<Entry>, limit: nat) returns (r: Option<seq<Written>>)
    ensures r.Some? <==> Files(es) > 0 && Bytes(es) <= limit && NoNul(es)
    ensures r.Some? ==> |r.value| == |es| && forall k :: 0 <= k < |es| ==> r.value[k] == WrittenAs(es[k])
  {
    var total, files := 0, 0;
    for k := 0 to |es|
      invariant total == Bytes(es[..k]) && files == Files(es[..k])
    {
      assert es[..k + 1][..k] == es[..k];
      total := total + |es[k].body|;
      if !es[k].dir { files := files + 1; }
    }
    assert es[..|es|] == es;
    if files == 0 || total > limit { return None; }
    var out: seq<Written> := [];
    for k := 0 to |es|
      invariant |out| == k && forall j :: 0 <= j < k ==> out[j] == WrittenAs(es[j]) && '\0' !in es[j].name
    {
      if '\0' in es[k].name { return None; }
      out := out + [WrittenAs(es[k])];
    }
    r := Some(out);
  }

  /** The entries of an upload, without the one directory that holds everything. */
  function NormalEntries(ms: seq<Member>): seq<Entry> {
    var es := Entries(ms);
    if es != [] && CommonRoot(es, Split(es[0].name)[0]) then Stripped(es, Split(es[0].name)[0]) else es
  }

  /**
   * An upload that is taken: good members, and among the entries at least one file, not too much in them, and
   * no name with a NUL in it.
   */
  predicate Accepts(ms: seq<Member>, limit: nat) {
    Acceptable(ms, limit) && Files(NormalEntries(ms)) > 0 && Bytes(NormalEntries(ms)) <= limit && NoNul(NormalEntries(ms))
  }

  function AllWritten(es: seq<Entry>): (ws: seq<Written>)
    ensures |ws| == |es| && forall k :: 0 <= k < |es| ==> ws[k] == WrittenAs(es[k])
  {
    seq(|es|, i requires 0 <= i < |es| => WrittenAs(es[i]))
  }

  lemma NormalEntriesAreGood(ms: seq<Member>)
    ensures GoodEntries(Entries(ms)) && GoodEntries(NormalEntries(ms))
    ensures (forall k :: 0 <= k < |ms| ==> '\0' !in ms[k].name) ==> NoNul(NormalEntries(ms))
  {
    hide GoodName, Entries, Stripped;
    EntriesAreGood(ms);
    var es := Entries(ms);
    if es != [] && CommonRoot(es, Split(es[0].name)[0]) { StrippedAreGood(es, Split(es[0].name)[0]); }
  }

  /**
   * An uploaded tar archive, from its members to what is written: taken exactly if it is acceptable, and
   * then its entries are written, all of them and in order, without their common root.
   */
  method Normalise(ms: seq<Member>, limit: nat) returns (r: Option<seq<Written>>)
    ensures r.Some? <==> Accepts(ms, limit)
    ensures r.Some? ==> r.value == AllWritten(NormalEntries(ms))
    // The agent takes every name that is written, and reads it as the entry's.
    ensures r.Some? ==> forall k :: 0 <= k < |r.value| ==> SafeName(r.value[k].name) == Some(NormalEntries(ms)[k].name)
    ensures r.Some? ==> WrittenBytes(r.value) <= limit
  {
    NormalEntriesAreGood(ms);
    hide CleanName, Acceptable, Stripped, Entries, WrittenAs, Files, Bytes, CommonRoot, WrittenBytes;
    var entries := TarGzEntries(ms, limit);
    if entries.None? { return None; }
    var stripped := StripCommonRoot(entries.value);
    assert stripped == NormalEntries(ms);
    r := WriteNormalised(stripped, limit);
    if r.Some? {
      WrittenBytesOf(stripped, r.value);
      forall k | 0 <= k < |stripped| ensures SafeName(r.value[k].name) == Some(stripped[k].name) { WrittenIsReadBack(stripped[k]); }
    }
  }

  // ---------- What the agent makes of it ----------

  predicate GoodName(name: string) { AllNames(Split(name)) && '\\' !in name }

  predicate GoodEntries(es: seq<Entry>) { forall k :: 0 <= k < |es| ==> GoodName(es[k].name) }

  predicate NoNul(es: seq<Entry>) { forall k :: 0 <= k < |es| ==> '\0' !in es[k].name }

  predicate Lacks(parts: seq<string>, c: char) { forall i :: 0 <= i < |parts| ==> c !in parts[i] }

  lemma {:induction false} SplitLacks(s: string, c: char)
    requires c !in s
    ensures Lacks(Split(s), c)
  {
    if s != "" { SplitLacks(s[1..], c); }
  }

  lemma {:induction false} JoinLacks(parts: seq<string>, c: char)
    requires Lacks(parts, c) && c != '/'
    ensures c !in Join(parts)
  {
    if |parts| > 1 { JoinLacks(parts[1..], c); }
  }

  lemma {:induction false} ResolveLacks(out: seq<string>, parts: seq<string>, c: char)
    requires Lacks(out, c) && Lacks(parts, c) && c != '.'
    ensures Lacks(Resolve(out, parts, false), c)
    decreases |parts|
  {
    if parts != [] { ResolveLacks(Push(out, parts[0], false), parts[1..], c); }
  }

  lemma CleanLacks(s: string, c: char)
    requires !IsRooted(s) && c !in s && c != '.' && c != '/'
    ensures c !in Clean(s)
  {
    SplitLacks(s, c);
    ResolveLacks([], Split(s), c);
    JoinLacks(Resolve([], Split(s), false), c);
  }

  /** A name the panel keeps is made of names alone, and free of what the agent refuses but for a NUL that was there before. */
  lemma {:induction false} KeptNameIsGood(raw: string)
    requires CleanName(raw).Kept?
    ensures GoodName(CleanName(raw).name)
    ensures '\0' !in raw ==> '\0' !in CleanName(raw).name
  {
    var name := Slashed(raw);
    ResolveNoDots([], Split(name));
    CleanParts(name);
    CleanLacks(name, '\\');
    if '\0' !in raw { CleanLacks(name, '\0'); }
  }

  // ---------- Which names are kept ----------

  /** The parts that say something: neither empty nor ".". */
  function Telling(parts: seq<string>): seq<string> {
    if parts == [] then [] else (if parts[0] == "" || parts[0] == "." then [] else [parts[0]]) + Telling(parts[1..])
  }

  lemma {:induction false} ResolveTells(out: seq<string>, parts: seq<string>)
    requires ".." !in parts && NoSlashes(parts)
    ensures Resolve(out, parts, false) == out + Telling(parts)
    decreases |parts|
  {
    if parts == [] {
      assert out + [] == out;
    } else {
      var c := parts[0];
      var told: seq<string> := if c == "" || c == "." then [] else [c];
      assert Push(out, c, false) == out + told;
      hide Push;
      ResolveTells(out + told, parts[1..]);
      assert out + told + Telling(parts[1..]) == out + (told + Telling(parts[1..]));
    }
  }

  lemma {:induction false} TellingNames(parts: seq<string>)
    requires ".." !in parts && NoSlashes(parts)
    ensures AllNames(Telling(parts))
  {
    if parts != [] { TellingNames(parts[1..]); }
  }

  /**
   * What becomes of a member's name: with its parts cut at slashes and backslashes alike, it is refused if it begins
   * with one, names a drive or climbs; it is dropped if nothing but empty and "." parts is left, or if it is what
   * macOS adds; otherwise it is kept as the parts left, in order.
   */
  lemma CleanNameIs(raw: string)
    ensures var parts := Split(Slashed(raw));
            var names := Telling(parts);
            CleanName(raw) ==
            if (raw != "" && (raw[0] == '/' || raw[0] == '\\')) || (|raw| > 1 && raw[1] == ':') then Refused
            else if ".." in parts then Refused
            else if names == [] || names[|names| - 1] == ".DS_Store" || "__MACOSX" in names then Dropped
            else Kept(Join(names))
  {
    var name := Slashed(raw);
    var parts := Split(name);
    if !IsRooted(name) && ".." !in parts {
      ResolveTells([], parts);
      TellingNames(parts);
      assert [] + Telling(parts) == Telling(parts);
      CleanParts(name);
      if Telling(parts) != [] { TellingIsNotDot(Telling(parts)); }
    }
  }

  lemma TellingIsNotDot(names: seq<string>)
    requires names != [] && AllNames(names)
    ensures Join(names) != "." && Join(names) != ""
  {
    SplitJoin(names);
    SplitName(".");
    JoinRooted(names);
  }

  lemma EntryIsGood(m: Member)
    ensures GoodEntries(EntryOf(m)) && ('\0' !in m.name ==> NoNul(EntryOf(m)))
  {
    hide GoodName;
    if CleanName(m.name).Kept? { KeptNameIsGood(m.name); }
  }

  lemma {:induction false} EntriesAreGood(ms: seq<Member>)
    ensures GoodEntries(Entries(ms))
    ensures (forall k :: 0 <= k < |ms| ==> '\0' !in ms[k].name) ==> NoNul(Entries(ms))
  {
    if ms != [] {
      hide EntryOf, GoodName;
      EntryIsGood(ms[|ms| - 1]);
      EntriesAreGood(ms[..|ms| - 1]);
    }
  }

  lemma RestIsGood(name: string)
    requires GoodName(name) && |Split(name)| > 1
    ensures GoodName(Join(Split(name)[1..]))
    ensures '\0' !in name ==> '\0' !in Join(Split(name)[1..])
  {
    var parts := Split(name);
    SplitJoin(parts[1..]);
    SplitLacks(name, '\\');
    JoinLacks(parts[1..], '\\');
    if '\0' !in name {
      SplitLacks(name, '\0');
      JoinLacks(parts[1..], '\0');
    }
  }

  lemma {:induction false} StrippedAreGood(es: seq<Entry>, root: string)
    requires GoodEntries(es) && CommonRoot(es, root)
    ensures GoodEntries(Stripped(es, root))
    ensures NoNul(es) ==> NoNul(Stripped(es, root))
  {
    if es != [] {
      StrippedAreGood(es[..|es| - 1], root);
      var name := es[|es| - 1].name;
      JoinSplit(name);
      if |Split(name)| > 1 { RestIsGood(name); }
      hide GoodName;
    }
  }

  /** What is written for an entry is read back as that entry's name, unless a NUL is in it. */
  predicate WrittenIsRead(w: Written, e: Entry) {
    && w.name == e.name + (if e.dir then "/" else "") && w.dir == e.dir
    && SafeName(w.name) == if '\0' in w.name then None else Some(e.name)
  }

  lemma {:induction false} WrittenIsReadBack(e: Entry)
    requires GoodName(e.name)
    ensures WrittenIsRead(WrittenAs(e), e)
  {
    var name := e.name;
    NamesAreClean(name);
    if e.dir {
      assert name + "/" == name + "/" + "";
      SplitConcat(name, "");
      ResolveConcat([], Split(name), [""], false);
    }
  }

  // ---------- What stripping does ----------

  function Rooted(es: seq<Entry>, root: string): (r: seq<Entry>)
    ensures |r| == |es| && forall k :: 0 <= k < |es| ==> r[k] == es[k].(name := root + "/" + es[k].name)
  {
    if es == [] then []
    else Rooted(es[..|es| - 1], root) + [es[|es| - 1].(name := root + "/" + es[|es| - 1].name)]
  }

  function NotNamed(es: seq<Entry>, root: string): seq<Entry> {
    if es == [] then []
    else NotNamed(es[..|es| - 1], root) + if es[|es| - 1].name == root then [] else [es[|es| - 1]]
  }

  /**
   * Putting the root back in front of what is left gives the entries again, in order, all but those of the
   * root itself, and those are directories: nothing else is lost, and different paths stay different.
   */
  lemma {:induction false} StrippingRoundTrip(es: seq<Entry>, root: string)
    requires GoodNames(es) && CommonRoot(es, root)
    ensures Rooted(Stripped(es, root), root) == NotNamed(es, root)
    ensures forall k :: 0 <= k < |es| && es[k].name == root ==> es[k].dir
  {
    if es != [] {
      var n := |es| - 1;
      StrippingRoundTrip(es[..n], root);
      CutRoot(es[n].name, root);
      var before := Stripped(es[..n], root);
      if es[n].name != root { assert (before + [es[n].(name := Join(Split(es[n].name)[1..]))])[..|before|] == before; }
      forall k | 0 <= k < |es| && es[k].name == root ensures es[k].dir {
        SplitName(root);
        if k < n { assert es[..n][k] == es[k]; }
      }
    }
  }

  predicate Distinct(es: seq<Entry>) { forall i, j :: 0 <= i < j < |es| ==> es[i].name != es[j].name }

  lemma {:induction false} NotNamedDistinct(es: seq<Entry>, root: string)
    requires Distinct(es)
    ensures Distinct(NotNamed(es, root))
    ensures forall k :: 0 <= k < |NotNamed(es, root)| ==> NotNamed(es, root)[k] in es
  {
    if es != [] { NotNamedDistinct(es[..|es| - 1], root); }
  }

  /** Different paths stay different. */
  lemma StrippingKeepsDistinct(es: seq<Entry>, root: string)
    requires GoodNames(es) && CommonRoot(es, root) && Distinct(es)
    ensures Distinct(Stripped(es, root))
  {
    StrippingRoundTrip(es, root);
    NotNamedDistinct(es, root);
    var out := Stripped(es, root);
    forall i, j | 0 <= i < j < |out| ensures out[i].name != out[j].name {
      assert Rooted(out, root)[i].name != Rooted(out, root)[j].name;
    }
  }
}
