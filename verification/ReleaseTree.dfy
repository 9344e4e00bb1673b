/** Release directories: extraction, sealing, verification and export
    (internal/nodeartifact/extract.go, verify.go and export.go, `sealRelease` of
    internal/nodelaunch/install_linux.go). A directory tree maps every path below its root to a
    node; a loop over its paths stands for a walk, in whatever order. */
module ReleaseTree {
  import opened Common
  import opened Paths
  import opened Links
  import opened Artifact

  /** Permission bits. */
  type Mode = bv9

  const PRIVATE_DIR: Mode := 0x1C0   // 0700
  const PRIVATE_FILE: Mode := 0x180  // 0600
  const SEALED_OPEN: Mode := 0x16D   // 0555
  const SEALED_READ: Mode := 0x124   // 0444
  const ANY_EXECUTE: Mode := 0x049   // 0111

  /** `special` is any of setuid, setgid and sticky. */
  datatype Node =
    | Dir(mode: Mode, special: bool)
    | File(mode: Mode, special: bool, body: string)
    | Link(target: string)
    | Other

  type Tree = map<Path, Node>

  datatype Root = Root(mode: Mode, special: bool, tree: Tree)

  predicate Executable(m: Mode) {
    m & ANY_EXECUTE != 0
  }

  /** A tree as a filesystem has it: every path below a directory of the tree. */
  ghost predicate Shaped(tree: Tree) {
    forall p | p in tree ::
      && p != [] && (forall i | 0 <= i < |p| :: Named(p[i]) && '/' !in p[i])
      && (forall i | 0 < i < |p| :: p[..i] in tree && tree[p[..i]].Dir?)
  }

  // ---------------------------------------------------------------- extraction

  /** What extraction makes of one entry. */
  function Extracted(item: Item): Node {
    match item.kind
    case Directory => Dir(PRIVATE_DIR, false)
    case Regular => File(if item.executable then PRIVATE_DIR else PRIVATE_FILE, false, item.body)
    case Symlink => Link(item.body)
    case Special => Other
  }

  function Image(entries: Entries): Tree {
    map p | p in entries :: Extracted(entries[p])
  }

  /** The tree holds exactly these entries: directories in one mode, executable files in a second and
      other files in a third, links and contents unchanged, and no special bits. */
  ghost predicate Carries(tree: Tree, entries: Entries, dir: Mode, executable: Mode, plain: Mode) {
    && tree.Keys == entries.Keys
    && forall p | p in tree ::
         match entries[p].kind
         case Directory => tree[p] == Dir(dir, false)
         case Regular => tree[p] == File(if entries[p].executable then executable else plain, false, entries[p].body)
         case Symlink => tree[p] == Link(entries[p].body)
         case Special => false
  }

  /** `MkdirAll`: fails where something other than a directory is in the way. */
  method MakeDirs(tree: Tree, p: Path) returns (result: Option<Tree>)
    ensures result.Some? <==> forall i | 0 < i <= |p| && p[..i] in tree :: tree[p[..i]].Dir?
    ensures result.Some? ==>
              && (forall q | q in tree :: q in result.value && result.value[q] == tree[q])
              && (forall i | 0 < i <= |p| :: p[..i] in result.value && result.value[p[..i]].Dir?)
              && (forall q | q in result.value && q !in tree :: result.value[q] == Dir(PRIVATE_DIR, false) && 0 < |q| <= |p| && q == p[..|q|])
  {
    var made := tree;
    var k := 0;
    while k < |p|
      invariant 0 <= k <= |p|
      invariant forall q | q in tree :: q in made && made[q] == tree[q]
      invariant forall i | 0 < i <= k :: p[..i] in made && made[p[..i]].Dir?
      invariant forall q | q in made && q !in tree :: made[q] == Dir(PRIVATE_DIR, false) && 0 < |q| <= k && q == p[..|q|]
    {
      var q := p[..k + 1];
      if q in made {
        if !made[q].Dir? { return None; }
      } else {
        made := made[q := Dir(PRIVATE_DIR, false)];
      }
      k := k + 1;
    }
    return Some(made);
  }

  /** Exclusive creation in an existing directory. */
  function Create(tree: Tree, p: Path, n: Node): Option<Tree>
    requires p != []
  {
    if p in tree || (|p| > 1 && !(Parent(p) in tree && tree[Parent(p)].Dir?)) then None else Some(tree[p := n])
  }

  /** Part of the image, without links: what is there is right, and files appear only when written. */
  ghost predicate Staged(entries: Entries, tree: Tree, todo: set<Path>) {
    && (forall p | p in tree :: p in entries && entries[p].kind != Symlink && tree[p] == Extracted(entries[p]))
    && (forall p | p in entries && p !in todo && entries[p].kind != Symlink :: p in tree)
    && (forall p | p in tree && entries[p].kind == Regular :: p !in todo)
  }

  /** Entries as extraction needs them. */
  ghost predicate Grounded(entries: Entries) {
    (forall p | p in entries :: p != [] && entries[p].kind != Special) && Nested(entries)
  }

  /** Directories and regular files, in any order. */
  method WriteFiles(entries: Entries) returns (tree: Tree)
    requires Grounded(entries)
    ensures Staged(entries, tree, {})
  {
    tree := map[];
    var todo := entries.Keys;
    while todo != {}
      invariant todo <= entries.Keys && Staged(entries, tree, todo)
      decreases |todo|
    {
      var name :| name in todo;
      tree := WriteOne(entries, tree, todo, name);
      todo := todo - {name};
    }
  }

  /** Nothing but directories stands in the way, because no link has been made yet. */
  method WriteOne(entries: Entries, tree: Tree, ghost todo: set<Path>, name: Path) returns (tree': Tree)
    requires Grounded(entries) && Staged(entries, tree, todo) && name in todo && name in entries
    ensures Staged(entries, tree', todo - {name})
  {
    var item := entries[name];
    tree' := tree;
    if item.kind == Symlink { return; }
    var at := if item.kind == Directory then name else Parent(name);
    DirsFit(entries, name, at);
    var made := MakeDirs(tree, at);
    DirsStaged(entries, tree, made.value, todo, at);
    tree' := made.value;
    if item.kind == Regular {
      assert |name| > 1 ==> at[..|at|] == Parent(name);
      var written := Create(tree', name, Extracted(item));
      tree' := written.value;
    } else {
      assert at[..|at|] == name;
    }
  }

  lemma {:induction false} DirsFit(entries: Entries, name: Path, at: Path)
    requires Grounded(entries) && name in entries
    requires at == if entries[name].kind == Directory then name else Parent(name)
    ensures forall i | 0 < i <= |at| :: IsDir(entries, at[..i])
  {
    forall i | 0 < i <= |at| ensures IsDir(entries, at[..i]) {
      assert at[..i] == name[..i];
      if i == |name| { assert name[..i] == name; }
    }
  }

  lemma {:induction false} DirsStaged(entries: Entries, tree: Tree, tree': Tree, todo: set<Path>, at: Path)
    requires Staged(entries, tree, todo)
    requires forall i | 0 < i <= |at| :: IsDir(entries, at[..i])
    requires forall q | q in tree :: q in tree' && tree'[q] == tree[q]
    requires forall q | q in tree' && q !in tree :: tree'[q] == Dir(PRIVATE_DIR, false) && 0 < |q| <= |at| && q == at[..|q|]
    ensures Staged(entries, tree', todo)
  {
  }

  /** The staged files and the links made so far. */
  ghost predicate Linking(entries: Entries, tree: Tree, todo: set<Path>) {
    && (forall p | p in tree :: p in entries && tree[p] == Extracted(entries[p]))
    && (forall p | p in entries && entries[p].kind != Symlink :: p in tree)
    && (forall p | p in entries && entries[p].kind == Symlink :: p in tree <==> p !in todo)
  }

  /** Links last, so none of them can redirect a write. */
  method WriteLinks(entries: Entries, staged: Tree) returns (tree: Tree)
    requires Grounded(entries) && Staged(entries, staged, {})
    ensures tree == Image(entries)
  {
    tree := staged;
    var todo := entries.Keys;
    while todo != {}
      invariant todo <= entries.Keys && Linking(entries, tree, todo)
      decreases |todo|
    {
      var name :| name in todo;
      if entries[name].kind == Symlink {
        tree := WriteLink(entries, tree, todo, name);
      }
      todo := todo - {name};
    }
  }

  method WriteLink(entries: Entries, tree: Tree, ghost todo: set<Path>, name: Path) returns (tree': Tree)
    requires Grounded(entries) && Linking(entries, tree, todo) && name in todo && name in entries && entries[name].kind == Symlink
    ensures Linking(entries, tree', todo - {name})
  {
    assert |name| > 1 ==> IsDir(entries, name[..|name| - 1]);
    var made := Create(tree, name, Link(entries[name].body));
    tree' := made.value;
  }

  /** `Extract` stages exactly the image of every acceptable archive. */
  method Extract(starts: Decoder, files: seq<ZipEntry>) returns (result: Option<Root>)
    ensures result == if Acceptable(starts, files) then Some(Root(PRIVATE_DIR, false, Image(Release(files)))) else None
    ensures result.Some? ==> result.value.mode == 0x1C0 && Carries(result.value.tree, Release(files), 0x1C0, 0x1C0, 0x180)
  {
    var entries := Inspect(starts, files);
    if entries.None? { return None; }
    ReleaseIsGrounded(starts, files);
    NothingSpecial(starts, files);
    var staged := WriteFiles(entries.value);
    var tree := WriteLinks(entries.value, staged);
    return Some(Root(PRIVATE_DIR, false, tree));
  }

  lemma {:induction false} ReleaseIsGrounded(starts: Decoder, files: seq<ZipEntry>)
    requires Sound(starts, files) && Compatible(Listed(files))
    ensures Grounded(Release(files))
  {
    ReleaseIsClosed(starts, files);
    NothingSpecial(starts, files);
  }

  lemma {:induction false} NothingSpecial(starts: Decoder, files: seq<ZipEntry>)
    requires Sound(starts, files)
    ensures forall p | p in Release(files) :: Release(files)[p].kind != Special
  {
    forall p | p in Release(files) ensures Release(files)[p].kind != Special {
      if p in Listed(files) {
        ListedKeys(files, p);
        var i :| 0 <= i < |files| && PathOf(files[i]) == p;
        ListedItem(files, i);
        AllOkAt(starts, files, i);
      }
    }
  }

  // ---------------------------------------------------------------- sealing

  function SealedNode(n: Node): Node {
    match n
    case Dir(_, _) => Dir(SEALED_OPEN, false)
    case File(mode, _, body) => File(if Executable(mode) then SEALED_OPEN else SEALED_READ, false, body)
    case Link(target) => n
    case Other => n
  }

  function SealedTree(tree: Tree): Tree {
    map p | p in tree :: SealedNode(tree[p])
  }

  /** `sealRelease`: files on the way, directories afterwards, links never. */
  method SealRelease(root: Root) returns (result: Option<Root>)
    ensures result == if exists p | p in root.tree :: root.tree[p].Other? then None
                      else Some(Root(SEALED_OPEN, false, SealedTree(root.tree)))
    ensures result.Some? ==>
              && result.value.mode == 0x16D && result.value.tree.Keys == root.tree.Keys
              && forall p | p in root.tree ::
                   match root.tree[p]
                   case Dir(_, _) => result.value.tree[p] == Dir(0x16D, false)
                   case File(mode, _, body) => result.value.tree[p] == File(if mode & 0x049 != 0 then 0x16D else 0x124, false, body)
                   case Link(_) => result.value.tree[p] == root.tree[p]
                   case Other => false
  {
    var tree := root.tree;
    var todo := tree.Keys;
    var directories: seq<Path> := [];
    while todo != {}
      invariant todo <= root.tree.Keys && tree.Keys == root.tree.Keys
      invariant forall p | p in tree :: if p in todo || root.tree[p].Dir? then tree[p] == root.tree[p] else tree[p] == SealedNode(root.tree[p])
      invariant forall p | p in tree && p !in todo :: !root.tree[p].Other? && (root.tree[p].Dir? ==> p in directories)
      invariant forall p | p in directories :: p in tree && root.tree[p].Dir?
      decreases |todo|
    {
      var name :| name in todo;
      todo := todo - {name};
      match tree[name] {
        case Dir(_, _) => directories := directories + [name];
        case Link(_) =>
        case Other => return None;
        case File(mode, _, body) =>
          tree := tree[name := File(if Executable(mode) then SEALED_OPEN else SEALED_READ, false, body)];
      }
    }
    var sealed := SealDirectories(root.tree, tree, directories);
    return Some(Root(SEALED_OPEN, false, sealed));
  }

  method SealDirectories(was: Tree, tree: Tree, directories: seq<Path>) returns (sealed: Tree)
    requires tree.Keys == was.Keys
    requires forall p | p in tree :: if was[p].Dir? then p in directories else tree[p] == SealedNode(was[p])
    requires forall p | p in directories :: p in was && was[p].Dir?
    ensures sealed == SealedTree(was)
  {
    sealed := tree;
    var i := |directories|;
    while i > 0
      invariant 0 <= i <= |directories| && sealed.Keys == was.Keys
      invariant forall p | p in was && !was[p].Dir? :: sealed[p] == SealedNode(was[p])
      invariant forall k | i <= k < |directories| :: sealed[directories[k]] == Dir(SEALED_OPEN, false)
    {
      i := i - 1;
      sealed := sealed[directories[i] := Dir(SEALED_OPEN, false)];
    }
    forall p | p in was ensures sealed[p] == SealedNode(was[p]) {
      if was[p].Dir? {
        var k :| 0 <= k < |directories| && directories[k] == p;
      }
    }
  }

  // ---------------------------------------------------------------- verification

  /** What verification expects of one entry, and what extracting and sealing it gives. */
  function Wanted(item: Item): Node {
    SealedNode(Extracted(item))
  }

  /** The per-path checks of `VerifySealed`. */
  method CheckNode(item: Item, n: Node) returns (ok: bool)
    requires item.kind != Special
    ensures ok <==> n == Wanted(item)
    ensures item.kind == Regular ==> (ok <==> n == File(if item.executable then 0x16D else 0x124, false, item.body))
    ensures item.kind == Directory ==> (ok <==> n == Dir(0x16D, false))
    ensures item.kind == Symlink ==> (ok <==> n == Link(item.body))
  {
    match n {
      case Link(target) => return item.kind == Symlink && target == item.body;
      case Dir(mode, special) => return item.kind == Directory && mode == SEALED_OPEN && !special;
      case File(mode, special, body) =>
        var permission := if item.executable then SEALED_OPEN else SEALED_READ;
        return item.kind == Regular && mode == permission && !special && body == item.body;
      case Other => return false;
    }
  }

  /** Verification accepts a tree exactly when extracting and sealing the archive builds it. */
  method VerifySealed(starts: Decoder, files: seq<ZipEntry>, root: Root) returns (ok: bool)
    ensures ok <==> Acceptable(starts, files) && root == Root(SEALED_OPEN, false, SealedTree(Image(Release(files))))
    ensures ok <==>
              && Acceptable(starts, files) && root.mode == 0x16D && !root.special
              && Carries(root.tree, Release(files), 0x16D, 0x16D, 0x124)
  {
    if Acceptable(starts, files) {
      NothingSpecial(starts, files);
      SealedCarries(Release(files), root.tree);
    }
    var inspected := Inspect(starts, files);
    if inspected.None? { return false; }
    NothingSpecial(starts, files);
    var entries := inspected.value;
    if root.mode != SEALED_OPEN || root.special { return false; }
    ok := CheckNodes(entries, root.tree);
  }

  /** The walk and its counter: every node is expected, and as many were seen as are expected. */
  method CheckNodes(entries: Entries, tree: Tree) returns (ok: bool)
    requires forall p | p in entries :: entries[p].kind != Special
    ensures ok <==> tree == SealedTree(Image(entries))
  {
    var seen := 0;
    var todo := tree.Keys;
    while todo != {}
      invariant todo <= tree.Keys && seen == |tree.Keys - todo|
      invariant forall p | p in tree && p !in todo :: p in entries && tree[p] == Wanted(entries[p])
      decreases |todo|
    {
      var name :| name in todo;
      if name !in entries { return false; }
      var right := CheckNode(entries[name], tree[name]);
      if !right { return false; }
      assert tree.Keys - (todo - {name}) == (tree.Keys - todo) + {name};
      todo := todo - {name};
      seen := seen + 1;
    }
    assert tree.Keys - {} == tree.Keys;
    WantedAll(entries, tree);
    return seen == |entries|;
  }

  lemma {:induction false} WantedAll(entries: Entries, tree: Tree)
    requires forall p | p in tree :: p in entries && tree[p] == Wanted(entries[p])
    ensures |tree.Keys| == |entries| <==> tree == SealedTree(Image(entries))
  {
    assert SealedTree(Image(entries)).Keys == entries.Keys;
    if |tree.Keys| == |entries| { SameSize(tree.Keys, entries.Keys); }
  }

  lemma {:induction false} SameSize(a: set<Path>, b: set<Path>)
    requires a <= b && |a| == |b|
    ensures a == b
  {
    if b - a != {} {
      var x :| x in b - a;
      SubsetCount(a, b - {x});
    }
  }

  /** The tree that extracting and sealing builds holds the entries in their sealed modes, and only it does. */
  lemma {:induction false} SealedCarries(entries: Entries, tree: Tree)
    requires forall p | p in entries :: entries[p].kind != Special
    ensures tree == SealedTree(Image(entries)) <==> Carries(tree, entries, 0x16D, 0x16D, 0x124)
  {
    var sealed := SealedTree(Image(entries));
    assert sealed.Keys == entries.Keys;
    forall p | p in entries ensures sealed[p] == Wanted(entries[p]) {
    }
  }

  /** Installing an archive produces a tree that passes verification against it. */
  method InstallRelease(starts: Decoder, files: seq<ZipEntry>) returns (result: Option<Root>)
    ensures result.Some? <==> Acceptable(starts, files)
    ensures result.Some? ==> result.value == Root(SEALED_OPEN, false, SealedTree(Image(Release(files))))
    ensures result.Some? ==> result.value.mode == 0x16D && Carries(result.value.tree, Release(files), 0x16D, 0x16D, 0x124)
  {
    var extracted := Extract(starts, files);
    if extracted.None? { return None; }
    NothingSpecial(starts, files);
    result := SealRelease(extracted.value);
    SealedCarries(Release(files), SealedTree(Image(Release(files))));
  }

  // ---------------------------------------------------------------- export

  /** What `inspect` should find of a node. */
  function ItemFor(n: Node): Item {
    match n
    case Dir(_, _) => DIR
    case File(mode, _, body) => Item(Regular, Executable(mode), body)
    case Link(target) => Item(Symlink, false, target)
    case Other => Item(Special, false, "")
  }

  function Shape(tree: Tree): Entries {
    map p | p in tree :: ItemFor(tree[p])
  }

  /** The archive entry written for a node. */
  function Header(p: Path, n: Node): ZipEntry {
    match n
    case Dir(_, _) => ZipEntry(Join(p) + "/", Directory, false, 0, "")
    case File(mode, _, body) => ZipEntry(Join(p), Regular, Executable(mode), Bytes(body), body)
    case Link(target) => ZipEntry(Join(p), Symlink, false, Bytes(target), target)
    case Other => ZipEntry(Join(p), Special, false, 0, "")
  }

  function Below(tree: Tree, dir: Path): set<Path> {
    set p | p in tree && |dir| < |p| && p[..|dir|] == dir
  }

  function Children(tree: Tree, dir: Path): set<Path> {
    set p | p in Below(tree, dir) && |p| == |dir| + 1
  }

  ghost predicate Described(tree: Tree, files: seq<ZipEntry>, paths: seq<Path>) {
    |files| == |paths| && forall i | 0 <= i < |paths| :: paths[i] in tree && files[i] == Header(paths[i], tree[paths[i]])
  }

  /** The entries list these paths, each once. */
  ghost predicate Lists(tree: Tree, files: seq<ZipEntry>, paths: seq<Path>, ps: set<Path>) {
    Described(tree, files, paths) && Distinct(paths) && Visited(paths) == ps
  }

  lemma {:induction false} ListsBoth(tree: Tree, a: seq<ZipEntry>, ap: seq<Path>, s: set<Path>, b: seq<ZipEntry>, bp: seq<Path>, t: set<Path>)
    requires Lists(tree, a, ap, s) && Lists(tree, b, bp, t) && s !! t
    ensures Lists(tree, a + b, ap + bp, s + t)
  {
    VisitBoth(ap, bp);
  }

  lemma {:induction false} VisitBoth(a: seq<Path>, b: seq<Path>)
    requires Distinct(a) && Distinct(b) && Visited(a) !! Visited(b)
    ensures Distinct(a + b) && Visited(a + b) == Visited(a) + Visited(b)
  {
    forall i, j | 0 <= i < j < |a + b| ensures (a + b)[i] != (a + b)[j] {
      if i < |a| <= j {
        assert a[i] in Visited(a) && b[j - |a|] in Visited(b);
      }
    }
  }

  lemma {:induction false} ListsOne(tree: Tree, p: Path)
    requires p in tree
    ensures Lists(tree, [Header(p, tree[p])], [p], {p})
  {
  }

  /** Everything below a directory, split over its children. */
  function Under(tree: Tree, dir: Path, done: set<Path>): set<Path> {
    set p | p in Below(tree, dir) && p[..|dir| + 1] in done
  }

  lemma {:induction false} UnderOne(tree: Tree, dir: Path, done: set<Path>, child: Path)
    requires child in Children(tree, dir) && child !in done
    ensures Under(tree, dir, done + {child}) == Under(tree, dir, done) + ({child} + Below(tree, child))
    ensures Under(tree, dir, done) !! {child} + Below(tree, child)
  {
    assert child[..|dir| + 1] == child;
    forall p | p in Below(tree, child) ensures p in Below(tree, dir) && p[..|dir| + 1] == child {
      assert p[..|dir|] == p[..|child|][..|dir|];
    }
    forall p | p in Under(tree, dir, done + {child}) && p !in Under(tree, dir, done)
      ensures p in {child} + Below(tree, child)
    {
      assert p[..|dir| + 1] == child;
      if |p| == |dir| + 1 { assert p[..|dir| + 1] == p; }
    }
  }

  lemma {:induction false} UnderAll(tree: Tree, dir: Path)
    requires Shaped(tree)
    ensures Under(tree, dir, Children(tree, dir)) == Below(tree, dir)
  {
    forall p | p in Below(tree, dir) ensures p[..|dir| + 1] in Children(tree, dir) {
      var c := p[..|dir| + 1];
      assert c[..|dir|] == p[..|dir|];
      if |c| < |p| { assert c in tree; } else { assert c == p; }
    }
  }

  // ---- bounds

  /** Expanded bytes of these paths. */
  ghost function Size(tree: Tree, ps: set<Path>): nat
    requires ps <= tree.Keys
    decreases |ps|
  {
    if ps == {} then 0
    else
      var p :| p in ps;
      Header(p, tree[p]).declared + Size(tree, ps - {p})
  }

  lemma {:induction false} SizeRemove(tree: Tree, ps: set<Path>, p: Path)
    requires ps <= tree.Keys && p in ps
    ensures Size(tree, ps) == Header(p, tree[p]).declared + Size(tree, ps - {p})
    decreases |ps|
  {
    var first :| first in ps && Size(tree, ps) == Header(first, tree[first]).declared + Size(tree, ps - {first});
    if first != p {
      SizeRemove(tree, ps - {first}, p);
      SizeRemove(tree, ps - {p}, first);
      assert ps - {first} - {p} == ps - {p} - {first};
    }
  }

  lemma {:induction false} SizeUnion(tree: Tree, s: set<Path>, t: set<Path>)
    requires s <= tree.Keys && t <= tree.Keys && s !! t
    ensures Size(tree, s + t) == Size(tree, s) + Size(tree, t)
    decreases |s|
  {
    if s == {} {
      assert s + t == t;
    } else {
      var p :| p in s;
      SizeRemove(tree, s, p);
      SizeRemove(tree, s + t, p);
      assert s + t - {p} == (s - {p}) + t;
      SizeUnion(tree, s - {p}, t);
    }
  }

  /** What the walk itself refuses in a node. */
  predicate Fits(p: Path, n: Node) {
    && SafePath(p) && !n.Other?
    && (n.File? ==> Bytes(n.body) <= MAX_FILE) && (n.Link? ==> SafeTarget(n.target))
  }

  /** These paths cannot all be exported after so many entries and bytes. */
  ghost predicate Blocked(tree: Tree, ps: set<Path>, entries: nat, expanded: nat)
    requires ps <= tree.Keys
  {
    || entries + |ps| > MAX_ENTRIES || expanded + Size(tree, ps) > MAX_EXPANDED
    || exists p | p in ps :: !Fits(p, tree[p])
  }

  lemma {:induction false} BlockedAfter(tree: Tree, s: set<Path>, t: set<Path>, entries: nat, expanded: nat)
    requires s <= tree.Keys && t <= tree.Keys && s !! t
    requires Blocked(tree, t, entries + |s|, expanded + Size(tree, s))
    ensures Blocked(tree, s + t, entries, expanded)
  {
    SizeUnion(tree, s, t);
    assert |s + t| == |s| + |t|;
    if p :| p in t && !Fits(p, tree[p]) { assert p in s + t; }
  }

  lemma {:induction false} BlockedWithin(tree: Tree, s: set<Path>, t: set<Path>, entries: nat, expanded: nat)
    requires s <= t <= tree.Keys && Blocked(tree, s, entries, expanded)
    ensures Blocked(tree, t, entries, expanded)
  {
    SizeUnion(tree, s, t - s);
    assert s + (t - s) == t;
    SubsetCount(s, t);
    if p :| p in s && !Fits(p, tree[p]) { assert p in t; }
  }

  /** The walk of a set of paths: all of them listed and counted, or a reason why not. */
  ghost predicate Walked(tree: Tree, files: Option<seq<ZipEntry>>, paths: seq<Path>, ps: set<Path>,
                         entries: nat, expanded: nat, entries': nat, expanded': nat)
    requires ps <= tree.Keys
  {
    if files.None? then Blocked(tree, ps, entries, expanded)
    else Lists(tree, files.value, paths, ps) && entries' == entries + |ps| && expanded' == expanded + Size(tree, ps)
  }

  /** One directory of the recursive walk: everything below it, each path once. */
  method Walk(tree: Tree, dir: Path, entries: nat, expanded: nat)
    returns (files: Option<seq<ZipEntry>>, entries': nat, expanded': nat, ghost paths: seq<Path>)
    requires Shaped(tree)
    ensures Walked(tree, files, paths, Below(tree, dir), entries, expanded, entries', expanded')
    decreases Below(tree, dir)
  {
    entries', expanded', paths := entries, expanded, [];
    files := Some([]);
    var todo := Children(tree, dir);
    if entries + |todo| > MAX_ENTRIES {
      SubsetCount(todo, Below(tree, dir));
      return None, entries', expanded', paths;
    }
    NoneUnder(tree, dir);
    while todo != {}
      invariant todo <= Children(tree, dir) && files.Some?
      invariant Walked(tree, files, paths, Under(tree, dir, Children(tree, dir) - todo), entries, expanded, entries', expanded')
      decreases |todo|
    {
      var name :| name in todo;
      var sub: Option<seq<ZipEntry>>;
      ghost var more: seq<Path>;
      ghost var n, bytes := entries', expanded';
      sub, entries', expanded', more := Visit(tree, dir, name, entries', expanded');
      OneChildMore(tree, dir, todo, name, files.value, paths, sub, more, entries, expanded, n, bytes, entries', expanded');
      if sub.None? { return None, entries', expanded', paths; }
      files, paths := Some(files.value + sub.value), paths + more;
      todo := todo - {name};
    }
    UnderAll(tree, dir);
    assert Children(tree, dir) - {} == Children(tree, dir);
  }

  lemma {:induction false} NoneUnder(tree: Tree, dir: Path)
    ensures Under(tree, dir, Children(tree, dir) - Children(tree, dir)) == {}
    ensures Lists(tree, [], [], {}) && Size(tree, {}) == 0
  {
  }

  lemma {:induction false} OneChildMore(tree: Tree, dir: Path, todo: set<Path>, child: Path,
                                        out: seq<ZipEntry>, paths: seq<Path>, sub: Option<seq<ZipEntry>>, more: seq<Path>,
                                        entries: nat, expanded: nat, n: nat, bytes: nat, n': nat, bytes': nat)
    requires child in todo && todo <= Children(tree, dir)
    requires Walked(tree, Some(out), paths, Under(tree, dir, Children(tree, dir) - todo), entries, expanded, n, bytes)
    requires {child} + Below(tree, child) <= tree.Keys
    requires Walked(tree, sub, more, {child} + Below(tree, child), n, bytes, n', bytes')
    ensures sub.None? ==> Blocked(tree, Below(tree, dir), entries, expanded)
    ensures sub.Some? ==> Walked(tree, Some(out + sub.value), paths + more, Under(tree, dir, Children(tree, dir) - (todo - {child})),
                                 entries, expanded, n', bytes')
  {
    var done := Children(tree, dir) - todo;
    var s, t := Under(tree, dir, done), {child} + Below(tree, child);
    UnderOne(tree, dir, done, child);
    assert Children(tree, dir) - (todo - {child}) == done + {child};
    if sub.None? {
      BlockedAfter(tree, s, t, entries, expanded);
      BlockedWithin(tree, s + t, Below(tree, dir), entries, expanded);
    } else {
      ListsBoth(tree, out, paths, s, sub.value, more, t);
      SizeUnion(tree, s, t);
      assert |s + t| == |s| + |t|;
    }
  }

  /** One child: its own entry, then what is below it. */
  method Visit(tree: Tree, ghost dir: Path, name: Path, entries: nat, expanded: nat)
    returns (files: Option<seq<ZipEntry>>, entries': nat, expanded': nat, ghost paths: seq<Path>)
    requires Shaped(tree) && name in Children(tree, dir)
    ensures Walked(tree, files, paths, {name} + Below(tree, name), entries, expanded, entries', expanded')
    decreases Below(tree, dir), 0
  {
    entries', expanded', paths := entries + 1, expanded, [name];
    files := None;
    ListsOne(tree, name);
    SizeOne(tree, name);
    if entries' > MAX_ENTRIES || !SafePath(name) {
      BlockedWithin(tree, {name}, {name} + Below(tree, name), entries, expanded);
      return;
    }
    match tree[name] {
      case Dir(_, _) =>
        Smaller(tree, dir, name);
        var sub: Option<seq<ZipEntry>>;
        ghost var more: seq<Path>;
        sub, entries', expanded', more := Walk(tree, name, entries + 1, expanded);
        DirectoryDone(tree, name, sub, more, entries, expanded, entries', expanded');
        if sub.Some? {
          files, paths := Some([Header(name, tree[name])] + sub.value), [name] + more;
        }
      case File(_, _, body) =>
        NothingBelow(tree, name);
        if Bytes(body) <= MAX_FILE && expanded + Bytes(body) <= MAX_EXPANDED {
          files, expanded' := Some([Header(name, tree[name])]), expanded + Bytes(body);
        }
      case Link(target) =>
        NothingBelow(tree, name);
        var safe := CheckTarget(target);
        if safe && expanded + Bytes(target) <= MAX_EXPANDED {
          files, expanded' := Some([Header(name, tree[name])]), expanded + Bytes(target);
        }
      case Other =>
        assert !Fits(name, tree[name]);
    }
  }

  lemma {:induction false} SizeOne(tree: Tree, p: Path)
    requires p in tree
    ensures Size(tree, {p}) == Header(p, tree[p]).declared
  {
    SizeRemove(tree, {p}, p);
    assert {p} - {p} == {};
  }

  lemma {:induction false} DirectoryDone(tree: Tree, name: Path, sub: Option<seq<ZipEntry>>, more: seq<Path>,
                                         entries: nat, expanded: nat, n': nat, bytes': nat)
    requires name in tree && tree[name].Dir?
    requires Walked(tree, sub, more, Below(tree, name), entries + 1, expanded, n', bytes')
    ensures sub.None? ==> Blocked(tree, {name} + Below(tree, name), entries, expanded)
    ensures sub.Some? ==> Walked(tree, Some([Header(name, tree[name])] + sub.value), [name] + more, {name} + Below(tree, name),
                                 entries, expanded, n', bytes')
  {
    SizeOne(tree, name);
    if sub.None? {
      BlockedAfter(tree, {name}, Below(tree, name), entries, expanded);
    } else {
      ListsOne(tree, name);
      ListsBoth(tree, [Header(name, tree[name])], [name], {name}, sub.value, more, Below(tree, name));
      SizeUnion(tree, {name}, Below(tree, name));
    }
  }

  lemma {:induction false} Smaller(tree: Tree, dir: Path, child: Path)
    requires child in Children(tree, dir)
    ensures Below(tree, child) < Below(tree, dir)
  {
    forall p | p in Below(tree, child) ensures p in Below(tree, dir) {
      assert p[..|dir|] == p[..|child|][..|dir|];
    }
    assert child in Below(tree, dir) && child !in Below(tree, child);
  }

  lemma {:induction false} NothingBelow(tree: Tree, p: Path)
    requires Shaped(tree) && p in tree && !tree[p].Dir?
    ensures Below(tree, p) == {}
  {
    forall q | q in tree ensures !(|p| < |q| && q[..|p|] == p) {
    }
  }

  /** An entry's name leads back to its path. */
  lemma {:induction false} HeaderPath(p: Path, n: Node)
    requires p != [] && forall i | 0 <= i < |p| :: Named(p[i]) && '/' !in p[i]
    ensures PathOf(Header(p, n)) == p
  {
    SplitJoin(p);
    LastChar(p);
    if n.Dir? { assert (Join(p) + "/")[..|Join(p)|] == Join(p); }
  }

  lemma {:induction false} LastChar(p: Path)
    requires p != [] && forall i | 0 <= i < |p| :: p[i] != "" && '/' !in p[i]
    ensures Join(p) != "" && Join(p)[|Join(p)| - 1] != '/'
    decreases |p|
  {
    if |p| > 1 { LastChar(p[1..]); }
  }

  lemma {:induction false} ListedPaths(tree: Tree, files: seq<ZipEntry>, paths: seq<Path>)
    requires Shaped(tree) && Lists(tree, files, paths, tree.Keys)
    ensures forall i | 0 <= i < |files| :: PathOf(files[i]) == paths[i]
    ensures NoneTwice(files) && Listed(files).Keys == tree.Keys
  {
    forall i | 0 <= i < |files| ensures PathOf(files[i]) == paths[i] {
      HeaderPath(paths[i], tree[paths[i]]);
    }
    forall p ensures p in Listed(files) <==> p in tree {
      ListedKeys(files, p);
      assert p in tree <==> p in paths by { assert p in tree <==> p in Visited(paths); }
      if p in tree {
        var i :| 0 <= i < |paths| && paths[i] == p;
        assert PathOf(files[i]) == p;
      }
    }
  }

  /** What is listed is the shape of the tree, and it already has all its directories. */
  lemma {:induction false} ListedShape(tree: Tree, files: seq<ZipEntry>, paths: seq<Path>)
    requires Shaped(tree) && Lists(tree, files, paths, tree.Keys) && forall p | p in tree :: !tree[p].Other?
    ensures Release(files) == Shape(tree)
  {
    ListedIsShape(tree, files, paths);
    AboveShaped(tree);
    WithNothing(Shape(tree), Above(tree.Keys));
  }

  lemma {:induction false} ListedIsShape(tree: Tree, files: seq<ZipEntry>, paths: seq<Path>)
    requires Shaped(tree) && Lists(tree, files, paths, tree.Keys) && forall p | p in tree :: !tree[p].Other?
    ensures Listed(files) == Shape(tree)
  {
    ListedPaths(tree, files, paths);
    forall p | p in tree ensures Listed(files)[p] == Shape(tree)[p] {
      ListedNode(tree, files, paths, p);
    }
  }

  lemma {:induction false} WithNothing(m: Entries, dirs: set<Path>)
    requires dirs <= m.Keys
    ensures With(m, dirs) == m
  {
  }

  lemma {:induction false} ListedNode(tree: Tree, files: seq<ZipEntry>, paths: seq<Path>, p: Path)
    requires Lists(tree, files, paths, tree.Keys) && NoneTwice(files) && p in tree && !tree[p].Other?
    requires forall i | 0 <= i < |files| :: PathOf(files[i]) == paths[i]
    ensures p in Listed(files) && Listed(files)[p] == ItemFor(tree[p])
  {
    assert p in Visited(paths);
    var i :| 0 <= i < |paths| && paths[i] == p;
    ListedItem(files, i);
  }

  lemma {:induction false} AboveShaped(tree: Tree)
    requires Shaped(tree)
    ensures Above(tree.Keys) <= tree.Keys
  {
  }

  ghost predicate NodesOk(starts: Decoder, tree: Tree) {
    forall p | p in tree :: EntryOk(starts, Header(p, tree[p]))
  }

  /** The trees that can be exported. */
  ghost predicate Exportable(starts: Decoder, tree: Tree) {
    && |tree| <= MAX_ENTRIES && Size(tree, tree.Keys) <= MAX_EXPANDED
    && NodesOk(starts, tree)
    && PACKAGE in tree && tree[PACKAGE].File?
    && LinksFollow(Shape(tree))
  }

  lemma {:induction false} BlockedIsNotExportable(starts: Decoder, tree: Tree)
    requires Shaped(tree) && Blocked(tree, tree.Keys, 0, 0)
    ensures !Exportable(starts, tree)
  {
    if p :| p in tree && !Fits(p, tree[p]) {
      HeaderPath(p, tree[p]);
      assert !EntryOk(starts, Header(p, tree[p]));
    }
  }

  lemma {:induction false} TotalIsSize(tree: Tree, files: seq<ZipEntry>, paths: seq<Path>)
    requires Described(tree, files, paths) && Distinct(paths) && Visited(paths) <= tree.Keys
    ensures Total(files) == Size(tree, Visited(paths))
    decreases |paths|
  {
    if paths == [] {
      assert Visited(paths) == {};
    } else {
      var rest, last := paths[..|paths| - 1], paths[|paths| - 1];
      assert paths == rest + [last];
      assert last !in Visited(rest);
      VisitOne(rest, last);
      TotalIsSize(tree, files[..|files| - 1], rest);
      SizeRemove(tree, Visited(paths), last);
      assert Visited(paths) - {last} == Visited(rest);
    }
  }

  lemma {:induction false} SoundListing(starts: Decoder, tree: Tree, files: seq<ZipEntry>, paths: seq<Path>)
    requires Shaped(tree) && Lists(tree, files, paths, tree.Keys)
    ensures Sound(starts, files) <==> NodesOk(starts, tree)
  {
    ListedPaths(tree, files, paths);
    if AllOk(starts, files) {
      forall p | p in tree ensures EntryOk(starts, Header(p, tree[p])) {
        assert p in Visited(paths);
        var i :| 0 <= i < |paths| && paths[i] == p;
        AllOkAt(starts, files, i);
      }
    } else if NodesOk(starts, tree) {
      forall i | 0 <= i < |files| ensures EntryOk(starts, files[i]) {
        assert EntryOk(starts, Header(paths[i], tree[paths[i]]));
      }
      AllOkFrom(starts, files);
    }
  }

  /** A listing of a tree is acceptable exactly when the tree is exportable. */
  lemma {:induction false} ListingAccepted(starts: Decoder, tree: Tree, files: seq<ZipEntry>, paths: seq<Path>)
    requires Shaped(tree) && Lists(tree, files, paths, tree.Keys)
    ensures Acceptable(starts, files) <==> Exportable(starts, tree)
    ensures Acceptable(starts, files) ==> Release(files) == Shape(tree)
  {
    SoundListing(starts, tree, files, paths);
    if Sound(starts, files) { PlainListing(starts, tree, files, paths); }
  }

  lemma {:induction false} PlainListing(starts: Decoder, tree: Tree, files: seq<ZipEntry>, paths: seq<Path>)
    requires Shaped(tree) && Lists(tree, files, paths, tree.Keys) && Sound(starts, files)
    ensures Release(files) == Shape(tree)
    ensures Plain(starts, files) <==>
              |tree| <= MAX_ENTRIES && Size(tree, tree.Keys) <= MAX_EXPANDED && PACKAGE in tree && tree[PACKAGE].File?
  {
    TotalIsSize(tree, files, paths);
    VisitedCount(paths);
    SoundShape(starts, tree, files, paths);
  }

  lemma {:induction false} NothingOther(starts: Decoder, tree: Tree)
    requires NodesOk(starts, tree)
    ensures forall p | p in tree :: !tree[p].Other?
  {
    forall p | p in tree ensures !tree[p].Other? {
      EntryKind(starts, Header(p, tree[p]));
    }
  }

  lemma {:induction false} EntryKind(starts: Decoder, e: ZipEntry)
    requires EntryOk(starts, e)
    ensures e.kind != Special
  {
  }

  lemma {:induction false} SoundShape(starts: Decoder, tree: Tree, files: seq<ZipEntry>, paths: seq<Path>)
    requires Shaped(tree) && Lists(tree, files, paths, tree.Keys) && Sound(starts, files)
    ensures Listed(files) == Release(files) == Shape(tree) && Compatible(Shape(tree)) && |Shape(tree)| == |tree|
    ensures PACKAGE in Shape(tree) && Shape(tree)[PACKAGE].kind == Regular <==> PACKAGE in tree && tree[PACKAGE].File?
  {
    SoundListing(starts, tree, files, paths);
    NothingOther(starts, tree);
    ListedIsShape(tree, files, paths);
    ListedShape(tree, files, paths);
    ShapeFacts(tree);
  }

  lemma {:induction false} ShapeFacts(tree: Tree)
    requires Shaped(tree)
    ensures Compatible(Shape(tree)) && |Shape(tree)| == |tree|
    ensures PACKAGE in Shape(tree) && Shape(tree)[PACKAGE].kind == Regular <==> PACKAGE in tree && tree[PACKAGE].File?
  {
    assert Shape(tree).Keys == tree.Keys;
  }

  /** Export succeeds exactly on exportable trees, and its archive inspects back to the tree. */
  method Export(starts: Decoder, root: Root) returns (files: Option<seq<ZipEntry>>)
    requires Shaped(root.tree)
    ensures files.Some? <==> Exportable(starts, root.tree)
    ensures files.Some? ==> Acceptable(starts, files.value) && Release(files.value) == Shape(root.tree)
  {
    var entries, expanded;
    ghost var paths;
    files, entries, expanded, paths := Walk(root.tree, [], 0, 0);
    assert Below(root.tree, []) == root.tree.Keys;
    if files.None? {
      BlockedIsNotExportable(starts, root.tree);
      return;
    }
    ListingAccepted(starts, root.tree, files.value, paths);
    var inspected := Inspect(starts, files.value);
    if inspected.None? { return None; }
  }

  // ---------------------------------------------------------------- install, then export

  /** Where an entry of a release comes from: the archive, or the need for a directory. */
  lemma {:induction false} Origin(starts: Decoder, files: seq<ZipEntry>, p: Path) returns (i: int)
    requires Sound(starts, files) && p in Release(files)
    ensures if p in Listed(files)
            then 0 <= i < |files| && PathOf(files[i]) == p && Release(files)[p] == ItemOf(files[i]) && EntryOk(starts, files[i])
            else Release(files)[p] == DIR && p in Above(Listed(files).Keys)
  {
    i := -1;
    if p in Listed(files) {
      ListedKeys(files, p);
      i :| 0 <= i < |files| && PathOf(files[i]) == p;
      ListedItem(files, i);
      AllOkAt(starts, files, i);
    }
  }

  /** Reading the modes back, whichever of the two trees they are in, gives the entries of the archive. */
  lemma {:induction false} ModesReadBack(starts: Decoder, files: seq<ZipEntry>)
    requires Sound(starts, files)
    ensures Shape(Image(Release(files))) == Release(files) == Shape(SealedTree(Image(Release(files))))
  {
    var entries := Release(files);
    assert Image(entries).Keys == entries.Keys && SealedTree(Image(entries)).Keys == entries.Keys;
    forall p | p in entries ensures ItemFor(Extracted(entries[p])) == entries[p] == ItemFor(Wanted(entries[p])) {
      var i := Origin(starts, files, p);
      ExecutableModes();
    }
  }

  lemma {:induction false} ExecutableModes()
    ensures Executable(PRIVATE_DIR) && Executable(SEALED_OPEN) && !Executable(PRIVATE_FILE) && !Executable(SEALED_READ)
  {
  }

  lemma {:induction false} InstalledIsShaped(starts: Decoder, files: seq<ZipEntry>)
    requires Sound(starts, files) && Compatible(Listed(files))
    ensures Shaped(SealedTree(Image(Release(files))))
  {
    var entries, tree := Release(files), SealedTree(Image(Release(files)));
    ReleaseIsClosed(starts, files);
    forall p | p in tree
      ensures p != [] && (forall i | 0 <= i < |p| :: Named(p[i]) && '/' !in p[i])
      ensures forall i | 0 < i < |p| :: p[..i] in tree && tree[p[..i]].Dir?
    {
      assert SafePath(p);
      forall i | 0 < i < |p| ensures p[..i] in tree && tree[p[..i]].Dir? {
        assert IsDir(entries, p[..i]);
      }
    }
  }

  /** The entry written for what was installed from an entry passes the checks the original passed. */
  lemma {:induction false} HeaderOfEntry(starts: Decoder, e: ZipEntry)
    requires EntryOk(starts, e)
    ensures EntryOk(starts, Header(PathOf(e), Wanted(ItemOf(e)))) && Header(PathOf(e), Wanted(ItemOf(e))).declared == e.declared
  {
    HeaderFields(e);
    if e.kind == Directory { EmptyBody(e.body); }
    SameEntry(starts, e, Header(PathOf(e), Wanted(ItemOf(e))));
  }

  lemma {:induction false} HeaderFields(e: ZipEntry)
    requires SafePath(PathOf(e)) && e.kind != Special && Bytes(e.body) == e.declared && (e.kind == Directory ==> e.declared == 0)
    ensures var h := Header(PathOf(e), Wanted(ItemOf(e)));
            && PathOf(h) == PathOf(e) && h.kind == e.kind && h.declared == e.declared && (e.kind != Directory ==> h.body == e.body)
            && (Slashed(h.name) <==> h.kind == Directory) && Bytes(h.body) == h.declared
  {
    HeaderPath(PathOf(e), Wanted(ItemOf(e)));
    LastChar(PathOf(e));
  }

  lemma {:induction false} SameEntry(starts: Decoder, e: ZipEntry, h: ZipEntry)
    requires EntryOk(starts, e) && PathOf(h) == PathOf(e) && h.kind == e.kind && h.declared == e.declared && h.body == e.body
    requires Slashed(h.name) <==> h.kind == Directory
    ensures EntryOk(starts, h)
  {
  }

  lemma {:induction false} EmptyBody(s: string)
    requires Bytes(s) == 0
    ensures s == ""
  {
  }

  lemma {:induction false} HeaderOfDirectory(starts: Decoder, p: Path)
    requires SafePath(p) && p != PACKAGE
    ensures EntryOk(starts, Header(p, Wanted(DIR))) && Header(p, Wanted(DIR)).declared == 0
  {
    HeaderPath(p, Wanted(DIR));
    LastChar(p);
  }

  lemma {:induction false} InstalledEntry(starts: Decoder, files: seq<ZipEntry>, p: Path)
    requires Sound(starts, files) && PACKAGE in Listed(files) && p in Release(files)
    ensures EntryOk(starts, Header(p, Wanted(Release(files)[p])))
    ensures p !in Listed(files) ==> Header(p, Wanted(Release(files)[p])).declared == 0
  {
    ReleaseIsSafe(starts, files);
    assert SafePath(p);
    var i := Origin(starts, files, p);
    if p in Listed(files) { HeaderOfEntry(starts, files[i]); } else { HeaderOfDirectory(starts, p); }
  }

  lemma {:induction false} SizeNothing(tree: Tree, ps: set<Path>)
    requires ps <= tree.Keys && forall p | p in ps :: Header(p, tree[p]).declared == 0
    ensures Size(tree, ps) == 0
    decreases |ps|
  {
    if ps != {} {
      var p :| p in ps;
      SizeRemove(tree, ps, p);
      SizeNothing(tree, ps - {p});
    }
  }

  /** The listed paths take as many bytes in the tree as the archive declares. */
  lemma {:induction false} SizeListed(tree: Tree, files: seq<ZipEntry>)
    requires NoneTwice(files) && Listed(files).Keys <= tree.Keys
    requires forall i | 0 <= i < |files| :: PathOf(files[i]) in tree && Header(PathOf(files[i]), tree[PathOf(files[i])]).declared == files[i].declared
    ensures Size(tree, Listed(files).Keys) == Total(files)
    decreases |files|
  {
    if files != [] {
      var init, last := files[..|files| - 1], files[|files| - 1];
      var p := PathOf(last);
      ListedKeys(init, p);
      assert forall i | 0 <= i < |init| :: init[i] == files[i];
      assert p !in Listed(init);
      SizeListed(tree, init);
      assert Listed(files).Keys == Listed(init).Keys + {p};
      SizeRemove(tree, Listed(files).Keys, p);
      assert Listed(files).Keys - {p} == Listed(init).Keys;
    }
  }

  lemma {:induction false} InstalledSize(starts: Decoder, files: seq<ZipEntry>)
    requires Sound(starts, files) && PACKAGE in Listed(files)
    ensures var tree := SealedTree(Image(Release(files))); Size(tree, tree.Keys) == Total(files)
  {
    var tree, listed := SealedTree(Image(Release(files))), Listed(files).Keys;
    assert tree.Keys == Release(files).Keys && listed <= tree.Keys;
    forall p | p in tree ensures tree[p] == Wanted(Release(files)[p]) {
    }
    forall i | 0 <= i < |files| ensures PathOf(files[i]) in tree && Header(PathOf(files[i]), tree[PathOf(files[i])]).declared == files[i].declared {
      ListedItem(files, i);
      AllOkAt(starts, files, i);
      HeaderOfEntry(starts, files[i]);
    }
    forall p | p in tree.Keys - listed ensures Header(p, tree[p]).declared == 0 {
      InstalledEntry(starts, files, p);
    }
    SizeListed(tree, files);
    SizeNothing(tree, tree.Keys - listed);
    SizeUnion(tree, listed, tree.Keys - listed);
    assert listed + (tree.Keys - listed) == tree.Keys;
  }

  /** Whatever can be installed can be exported again, and the exported archive has the same entries. */
  lemma {:induction false} InstalledIsExportable(starts: Decoder, files: seq<ZipEntry>)
    requires Acceptable(starts, files)
    ensures var tree := SealedTree(Image(Release(files)));
            Shaped(tree) && Exportable(starts, tree) && Shape(tree) == Release(files)
  {
    var tree := SealedTree(Image(Release(files)));
    InstalledIsShaped(starts, files);
    ModesReadBack(starts, files);
    InstalledSize(starts, files);
    assert tree.Keys == Release(files).Keys;
    forall p | p in tree ensures EntryOk(starts, Header(p, tree[p])) {
      InstalledEntry(starts, files, p);
    }
    assert |tree| == |tree.Keys| == |Release(files).Keys| == |Release(files)|;
  }
}
