/** Release archives and what `inspect` makes of them (internal/nodeartifact/artifact.go). An
    archive is its sequence of entries; the ZIP container and its digest are not part of it. */
module Artifact {
  import opened Common
  import opened Paths
  import opened Links

  /** One archive entry; `declared` is the size in its header. */
  datatype ZipEntry = ZipEntry(name: string, kind: Kind, executable: bool, declared: nat, body: string)

  /** The JSON decoder's answer to whether a package manifest has a start script. */
  type Decoder = string -> bool

  const MAX_EXPANDED := 256 * 1024 * 1024
  const MAX_FILE := 32 * 1024 * 1024
  const MAX_ENTRIES := 20000
  const PACKAGE: Path := ["package.json"]

  predicate Slashed(name: string) {
    name != "" && name[|name| - 1] == '/'
  }

  function PathOf(e: ZipEntry): Path {
    Split(if Slashed(e.name) then e.name[..|e.name| - 1] else e.name)
  }

  /** Permissions matter only for regular files. */
  function ItemOf(e: ZipEntry): Item {
    if e.kind == Directory then DIR else Item(e.kind, e.kind == Regular && e.executable, e.body)
  }

  function Limit(e: ZipEntry): nat {
    if PathOf(e) == PACKAGE then 1024 * 1024 else if e.kind == Symlink then 4096 else MAX_FILE
  }

  predicate EntryOk(starts: Decoder, e: ZipEntry) {
    && SafePath(PathOf(e)) && e.kind != Special && (Slashed(e.name) <==> e.kind == Directory)
    && e.declared <= MAX_FILE && (e.kind == Directory ==> e.declared == 0)
    && Bytes(e.body) <= Limit(e) && Bytes(e.body) == e.declared
    && (e.kind == Symlink ==> SafeTarget(e.body))
    && (PathOf(e) == PACKAGE ==> e.kind == Regular && starts(e.body))
  }

  function Total(files: seq<ZipEntry>): nat {
    if files == [] then 0 else Total(files[..|files| - 1]) + files[|files| - 1].declared
  }

  function Listed(files: seq<ZipEntry>): Entries {
    if files == [] then map[]
    else Listed(files[..|files| - 1])[PathOf(files[|files| - 1]) := ItemOf(files[|files| - 1])]
  }

  ghost predicate NoneTwice(files: seq<ZipEntry>) {
    forall i, j | 0 <= i < j < |files| :: PathOf(files[i]) != PathOf(files[j])
  }

  predicate AllOk(starts: Decoder, files: seq<ZipEntry>) {
    files == [] || (AllOk(starts, files[..|files| - 1]) && EntryOk(starts, files[|files| - 1]))
  }

  /** Every entry is fine by itself and no path is listed twice. */
  ghost predicate Sound(starts: Decoder, files: seq<ZipEntry>) {
    AllOk(starts, files) && NoneTwice(files)
  }

  /** The proper parents of these paths. */
  function Above(ps: set<Path>): set<Path> {
    set p: Path, i: int | p in ps && 0 < i < |p| :: p[..i]
  }

  function With(m: Entries, dirs: set<Path>): Entries {
    map p | p in m.Keys + dirs :: if p in m then m[p] else DIR
  }

  /** The listed entries with their implicit directories. */
  function Release(files: seq<ZipEntry>): Entries {
    With(Listed(files), Above(Listed(files).Keys))
  }

  /** No file or link stands where a parent must be. */
  ghost predicate Compatible(m: Entries) {
    forall p | p in Above(m.Keys) && p in m :: m[p].kind == Directory
  }

  ghost predicate LinksFollow(entries: Entries) {
    forall p | p in entries && p != [] && entries[p].kind == Symlink :: Follow(entries, p, MAX_HOPS).Some?
  }

  /** What does not concern links. */
  ghost predicate Plain(starts: Decoder, files: seq<ZipEntry>) {
    && 0 < |files| <= MAX_ENTRIES && Sound(starts, files) && Total(files) <= MAX_EXPANDED
    && PACKAGE in Listed(files) && Listed(files)[PACKAGE].kind == Regular
    && Compatible(Listed(files)) && |Release(files)| <= MAX_ENTRIES
  }

  ghost predicate Acceptable(starts: Decoder, files: seq<ZipEntry>) {
    Plain(starts, files) && LinksFollow(Release(files))
  }

  // ---------------------------------------------------------------- reading the entries

  lemma {:induction false} ListedKeys(files: seq<ZipEntry>, p: Path)
    ensures p in Listed(files) <==> exists i | 0 <= i < |files| :: PathOf(files[i]) == p
    decreases |files|
  {
    if files != [] {
      var init, last := files[..|files| - 1], files[|files| - 1];
      ListedKeys(init, p);
      if PathOf(last) == p { assert PathOf(files[|files| - 1]) == p; }
      if p in Listed(init) {
        var i :| 0 <= i < |init| && PathOf(init[i]) == p;
        assert PathOf(files[i]) == p;
      }
    }
  }

  /** A listed path comes from its entry. */
  lemma {:induction false} ListedItem(files: seq<ZipEntry>, i: nat)
    requires NoneTwice(files) && i < |files|
    ensures PathOf(files[i]) in Listed(files) && Listed(files)[PathOf(files[i])] == ItemOf(files[i])
    decreases |files|
  {
    if i < |files| - 1 {
      assert files[..|files| - 1][i] == files[i];
      ListedItem(files[..|files| - 1], i);
    }
  }

  lemma {:induction false} TotalGrows(files: seq<ZipEntry>, n: nat)
    requires n <= |files|
    ensures Total(files[..n]) <= Total(files)
    decreases |files|
  {
    if n < |files| {
      var init := files[..|files| - 1];
      TotalGrows(init, n);
      assert init[..n] == files[..n];
    } else {
      assert files[..n] == files;
    }
  }

  /** The first loop of `inspect`. */
  method ReadEntries(starts: Decoder, files: seq<ZipEntry>) returns (entries: Option<Entries>)
    ensures entries.Some? <==> Sound(starts, files) && Total(files) <= MAX_EXPANDED
    ensures entries.Some? ==> entries.value == Listed(files)
  {
    var m: Entries := map[];
    var expanded := 0;
    var i := 0;
    while i < |files|
      invariant 0 <= i <= |files|
      invariant Sound(starts, files[..i]) && m == Listed(files[..i]) && expanded == Total(files[..i]) <= MAX_EXPANDED
    {
      var next := files[..i + 1];
      assert next[..i] == files[..i] && next[i] == files[i];
      var ok := CheckEntry(starts, files[i]);
      ListedKeys(files[..i], PathOf(files[i]));
      if !ok {
        BadEntry(starts, files, i);
        return None;
      }
      if PathOf(files[i]) in m {
        Duplicate(starts, files, i);
        return None;
      }
      if expanded + files[i].declared > MAX_EXPANDED {
        TotalGrows(files, i + 1);
        return None;
      }
      Extended(starts, files, i);
      m := m[PathOf(files[i]) := ItemOf(files[i])];
      expanded := expanded + files[i].declared;
      i := i + 1;
    }
    assert files[..|files|] == files;
    return Some(m);
  }

  lemma {:induction false} AllOkAt(starts: Decoder, files: seq<ZipEntry>, i: nat)
    requires AllOk(starts, files) && i < |files|
    ensures EntryOk(starts, files[i])
    decreases |files|
  {
    if i < |files| - 1 { AllOkAt(starts, files[..|files| - 1], i); }
  }

  lemma {:induction false} AllOkFrom(starts: Decoder, files: seq<ZipEntry>)
    requires forall i | 0 <= i < |files| :: EntryOk(starts, files[i])
    ensures AllOk(starts, files)
    decreases |files|
  {
    if files != [] {
      var init := files[..|files| - 1];
      forall i | 0 <= i < |init| ensures EntryOk(starts, init[i]) {
        assert init[i] == files[i];
      }
      AllOkFrom(starts, init);
    }
  }

  lemma {:induction false} BadEntry(starts: Decoder, files: seq<ZipEntry>, i: nat)
    requires i < |files| && !EntryOk(starts, files[i])
    ensures !Sound(starts, files)
  {
    if AllOk(starts, files) { AllOkAt(starts, files, i); }
  }

  lemma {:induction false} Duplicate(starts: Decoder, files: seq<ZipEntry>, i: nat)
    requires i < |files| && PathOf(files[i]) in Listed(files[..i])
    ensures !Sound(starts, files)
  {
    ListedKeys(files[..i], PathOf(files[i]));
    var k :| 0 <= k < i && PathOf(files[..i][k]) == PathOf(files[i]);
    assert PathOf(files[k]) == PathOf(files[i]);
  }

  lemma {:induction false} Extended(starts: Decoder, files: seq<ZipEntry>, i: nat)
    requires i < |files| && Sound(starts, files[..i]) && EntryOk(starts, files[i]) && PathOf(files[i]) !in Listed(files[..i])
    ensures Sound(starts, files[..i + 1])
  {
    var before, after := files[..i], files[..i + 1];
    assert after[..i] == before;
    OneMore(files, i);
  }

  lemma {:induction false} OneMore(files: seq<ZipEntry>, i: nat)
    requires i < |files| && NoneTwice(files[..i]) && PathOf(files[i]) !in Listed(files[..i])
    ensures NoneTwice(files[..i + 1])
  {
    var before, after := files[..i], files[..i + 1];
    ListedKeys(before, PathOf(files[i]));
    forall j, k | 0 <= j < k < |after| ensures PathOf(after[j]) != PathOf(after[k]) {
      assert after[j] == before[j];
      if k < i { assert after[k] == before[k]; }
    }
  }

  method CheckEntry(starts: Decoder, e: ZipEntry) returns (ok: bool)
    ensures ok <==> EntryOk(starts, e)
  {
    var name := if Slashed(e.name) then e.name[..|e.name| - 1] else e.name;
    var safe := CheckName(name);
    if !safe || e.kind == Special || Slashed(e.name) != (e.kind == Directory) { return false; }
    if e.declared > MAX_FILE || (e.kind == Directory && e.declared != 0) { return false; }
    var count := Bytes(e.body);
    if count > Limit(e) || count != e.declared { return false; }
    if e.kind == Symlink {
      var target := CheckTarget(e.body);
      if !target { return false; }
    }
    return PathOf(e) == PACKAGE ==> e.kind == Regular && starts(e.body);
  }

  // ---------------------------------------------------------------- implicit directories

  lemma {:induction false} WithTwice(m: Entries, dirs: set<Path>, more: set<Path>)
    ensures With(With(m, dirs), more) == With(m, dirs + more)
  {
  }

  lemma {:induction false} AboveUnion(a: set<Path>, b: set<Path>)
    ensures Above(a + b) == Above(a) + Above(b)
  {
  }

  /** The second loop of `inspect`: materializes parents in whatever order the map is visited. */
  method AddParents(listed: Entries) returns (entries: Option<Entries>)
    ensures entries.Some? <==> Compatible(listed)
    ensures entries.Some? ==> entries.value == With(listed, Above(listed.Keys))
  {
    var m := listed;
    var todo := listed.Keys;
    ghost var done: set<Path> := {};
    assert Above({}) == {} && With(listed, {}) == listed;
    while todo != {}
      invariant todo + done == listed.Keys
      invariant m == With(listed, Above(done))
      invariant forall p | p in Above(done) && p in listed :: listed[p].kind == Directory
      decreases |todo|
    {
      var name :| name in todo;
      todo := todo - {name};
      var next := AddParentsOf(m, name);
      AboveUnion(done, {name});
      AboveUnion(done + {name}, todo);
      WithTwice(listed, Above(done), Above({name}));
      if next.None? { return None; }
      m := next.value;
      done := done + {name};
      assert todo + done == listed.Keys;
    }
    return Some(m);
  }

  method AddParentsOf(entries: Entries, name: Path) returns (result: Option<Entries>)
    ensures result.Some? <==> forall p | p in Above({name}) && p in entries :: entries[p].kind == Directory
    ensures result.Some? ==> result.value == With(entries, Above({name}))
  {
    if name == [] {
      assert Above({name}) == {} && With(entries, {}) == entries;
      return Some(entries);
    }
    var m := entries;
    var parent := Parent(name);
    ghost var added: set<Path> := {};
    assert With(entries, {}) == entries;
    while parent != []
      invariant |parent| < |name| && parent == name[..|parent|]
      invariant added == set i | |parent| < i < |name| :: name[..i]
      invariant m == With(entries, added)
      invariant forall p | p in added && p in entries :: entries[p].kind == Directory
      decreases |parent|
    {
      assert parent in Above({name});
      assert parent !in added;
      WithTwice(entries, added, {parent});
      if parent in m {
        if m[parent].kind != Directory { return None; }
        assert With(m, {parent}) == m;
      } else {
        assert With(m, {parent}) == m[parent := DIR];
        m := m[parent := DIR];
      }
      added := added + {parent};
      parent := Parent(parent);
    }
    assert added == Above({name});
    return Some(m);
  }

  /** The third loop of `inspect`. */
  method CheckLinks(entries: Entries) returns (ok: bool)
    ensures ok <==> LinksFollow(entries)
  {
    var todo := entries.Keys;
    ghost var next := StepsOf(entries);
    assert Tabulates(entries, next);
    while todo != {}
      invariant todo <= entries.Keys
      invariant forall p | p in next && p !in todo :: Leads(entries, next, p, MAX_HOPS)
      decreases |todo|
    {
      var name :| name in todo;
      todo := todo - {name};
      if name != [] && entries[name].kind == Symlink {
        var found := RegularTarget(entries, name, {}, next, []);
        if !found {
          LeadsIsFollow(entries, next, name, MAX_HOPS);
          return false;
        }
      }
    }
    forall p | p in next ensures Follow(entries, p, MAX_HOPS).Some? {
      LeadsIsFollow(entries, next, p, MAX_HOPS);
    }
    return true;
  }

  /** `inspect` accepts exactly the acceptable archives and returns their entries, parents included. */
  method Inspect(starts: Decoder, files: seq<ZipEntry>) returns (entries: Option<Entries>)
    ensures entries.Some? <==> Acceptable(starts, files)
    ensures entries.Some? ==> entries.value == Release(files)
  {
    if |files| == 0 || |files| > MAX_ENTRIES { return None; }
    var listed := ReadEntries(starts, files);
    if listed.None? { return None; }
    if PACKAGE !in listed.value || listed.value[PACKAGE].kind != Regular { return None; }
    var closed := AddParents(listed.value);
    if closed.None? || |closed.value| > MAX_ENTRIES { return None; }
    var ok := CheckLinks(closed.value);
    return if ok then closed else None;
  }

  // ---------------------------------------------------------------- accepted archives

  lemma {:induction false} BytesAppend(a: string, b: string)
    ensures Bytes(a + b) == Bytes(a) + Bytes(b)
    decreases |a|
  {
    if a == "" {
      assert a + b == b;
    } else {
      assert (a + b)[1..] == a[1..] + b;
      BytesAppend(a[1..], b);
    }
  }

  lemma {:induction false} JoinCut(p: Path, i: nat)
    requires 0 < i < |p|
    ensures Join(p) == Join(p[..i]) + "/" + Join(p[i..])
    decreases i
  {
    if i == 1 {
      assert p[..1] == [p[0]];
    } else {
      JoinCut(p[1..], i - 1);
      assert p[..i][1..] == p[1..][..i - 1];
      assert p[1..][i - 1..] == p[i..];
      assert Join(p) == p[0] + "/" + Join(p[1..]);
    }
  }

  lemma {:induction false} PrefixOf(s: string, head: string, tail: string)
    requires s == head + tail
    ensures Bytes(head) <= Bytes(s) && (Printable(s) ==> Printable(head))
  {
    BytesAppend(head, tail);
    if Printable(s) {
      forall k | 0 <= k < |head| ensures head[k] != '\\' && head[k] != ':' && !Control(head[k]) {
        assert s[k] == head[k];
      }
    }
  }

  lemma {:induction false} JoinedParent(p: Path, i: nat)
    requires 0 < i < |p|
    ensures Bytes(Join(p[..i])) <= Bytes(Join(p)) && (Printable(Join(p)) ==> Printable(Join(p[..i])))
  {
    JoinCut(p, i);
    var tail := "/" + Join(p[i..]);
    assert Join(p[..i]) + "/" + Join(p[i..]) == Join(p[..i]) + tail;
    PrefixOf(Join(p), Join(p[..i]), tail);
  }

  /** The parents of a safe name are safe names. */
  lemma {:induction false} SafeParent(p: Path, i: nat)
    requires SafePath(p) && 0 < i < |p|
    ensures SafePath(p[..i])
  {
    JoinedParent(p, i);
  }

  /** Accepted entries are closed: safe names, safe targets, real directories above everything. */
  lemma {:induction false} ReleaseIsClosed(starts: Decoder, files: seq<ZipEntry>)
    requires Sound(starts, files) && Compatible(Listed(files))
    ensures Closed(Release(files))
  {
    ReleaseIsSafe(starts, files);
    ReleaseIsNested(Listed(files));
  }

  lemma {:induction false} ReleaseIsSafe(starts: Decoder, files: seq<ZipEntry>)
    requires Sound(starts, files)
    ensures Safe(Release(files))
  {
    forall p | p in Release(files)
      ensures SafePath(p) && (Release(files)[p].kind == Symlink ==> SafeTarget(Release(files)[p].body))
    {
      if p in Listed(files) {
        ListedIsSafe(starts, files, p);
      } else {
        var q, i :| q in Listed(files) && 0 < i < |q| && p == q[..i];
        ListedIsSafe(starts, files, q);
        SafeParent(q, i);
      }
    }
  }

  lemma {:induction false} ListedIsSafe(starts: Decoder, files: seq<ZipEntry>, p: Path)
    requires Sound(starts, files) && p in Listed(files)
    ensures SafePath(p) && (Listed(files)[p].kind == Symlink ==> SafeTarget(Listed(files)[p].body))
  {
    ListedKeys(files, p);
    var i :| 0 <= i < |files| && PathOf(files[i]) == p;
    ListedItem(files, i);
    AllOkAt(starts, files, i);
  }

  lemma {:induction false} ReleaseIsNested(m: Entries)
    requires Compatible(m)
    ensures Nested(With(m, Above(m.Keys)))
  {
    var r := With(m, Above(m.Keys));
    forall p, i | p in r && 0 < i < |p| ensures IsDir(r, p[..i]) {
      if p in m {
        assert p[..i] in Above(m.Keys);
      } else {
        var q, j :| q in m && 0 < j < |q| && p == q[..j];
        assert p[..i] == q[..i];
        assert q[..i] in Above(m.Keys);
      }
    }
  }

  /** `inspect` accepts an archive exactly when, its names and sizes being fine, every link leads
      the filesystem through real directories inside the root to a regular file in at most 32 hops. */
  lemma {:induction false} AcceptedExactly(starts: Decoder, files: seq<ZipEntry>)
    ensures Acceptable(starts, files) <==>
              Plain(starts, files) && forall p | p in Release(files) && p != [] && Release(files)[p].kind == Symlink ::
                                Resolve(Release(files), p, MAX_HOPS).Some?
  {
    if Plain(starts, files) {
      ReleaseIsClosed(starts, files);
      forall p | p in Release(files) && p != [] && Release(files)[p].kind == Symlink
        ensures Follow(Release(files), p, MAX_HOPS) == Resolve(Release(files), p, MAX_HOPS)
      {
        FollowAgrees(Release(files), p, MAX_HOPS);
      }
    }
  }

  /** In an accepted release, opening a link anywhere opens the regular file the checker found. */
  lemma {:induction false} LinksOpenFiles(starts: Decoder, files: seq<ZipEntry>, p: Path)
    requires Acceptable(starts, files) && p in Release(files) && Release(files)[p].kind == Symlink
    ensures p != [] && Follow(Release(files), p, MAX_HOPS).Some?
    ensures var f := Follow(Release(files), p, MAX_HOPS).value;
            && f in Release(files) && Release(files)[f].kind == Regular
            && Resolve(Release(files), p, MAX_HOPS) == Some(f)
            && Kernel(Release(files), [], p, MAX_HOPS) == Some(f)
  {
    ReleaseIsClosed(starts, files);
    assert SafePath(p);
    FollowAgrees(Release(files), p, MAX_HOPS);
    KernelFollows(Release(files), p, MAX_HOPS);
  }
}
