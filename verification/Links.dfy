/** Symbolic links of a release (internal/nodeartifact/artifact.go, `regularTarget`).

    The checker resolves a link lexically: it cleans the joined name and looks the result up. The
    filesystem resolves it component by component. The two agree on every archive whose entries
    are closed under parents, and that is what keeps extraction inside its root. */
module Links {
  import opened Common
  import opened Paths

  datatype Kind = Regular | Directory | Symlink | Special

  /** One path of a release; the body of a link is its target. */
  datatype Item = Item(kind: Kind, executable: bool, body: string)

  const DIR := Item(Directory, false, "")

  type Entries = map<Path, Item>

  const MAX_HOPS := 32

  function Parent(p: Path): Path
    requires p != []
  {
    p[..|p| - 1]
  }

  predicate IsDir(entries: Entries, p: Path) {
    p in entries && entries[p].kind == Directory
  }

  /** Names are safe and links have safe targets. */
  ghost predicate Safe(entries: Entries) {
    forall p | p in entries :: SafePath(p) && (entries[p].kind == Symlink ==> SafeTarget(entries[p].body))
  }

  /** Every parent is a real directory. */
  ghost predicate Nested(entries: Entries) {
    forall p, i | p in entries && 0 < i < |p| :: IsDir(entries, p[..i])
  }

  ghost predicate Closed(entries: Entries) {
    Safe(entries) && Nested(entries)
  }

  // ---------------------------------------------------------------- as the checker sees it

  /** `path.Join(path.Dir(name), target)`. */
  function Target(name: Path, target: string): Path
    requires name != []
  {
    CleanOnto([], Parent(name) + Split(target))
  }

  /** Every directory above the path is an entry. */
  predicate Inside(entries: Entries, p: Path) {
    forall i | 0 < i < |p| :: IsDir(entries, p[..i])
  }

  /** Where a link leads by one lexical step. */
  function Lexical(entries: Entries, name: Path): Option<Path>
    requires name in entries && name != []
  {
    var t := Target(name, entries[name].body);
    if SafePath(t) && Inside(entries, t) && t in entries then Some(t) else None
  }

  /** The regular file a link leads to within `n` lexical steps. */
  function Follow(entries: Entries, name: Path, n: nat): Option<Path>
    requires name in entries && name != []
    decreases n
  {
    if n == 0 || Lexical(entries, name).None? then None
    else
      var t := Lexical(entries, name).value;
      match entries[t].kind
      case Regular => Some(t)
      case Symlink => Follow(entries, t, n - 1)
      case Directory => None
      case Special => None
  }

  // ---------------------------------------------------------------- as the filesystem sees it

  datatype Place = Missing | Escaped | NotDirectory | Through(at: Path) | At(p: Path)

  /** Resolves components one by one from a directory, and stops at a link in the way. */
  function Descend(entries: Entries, cwd: Path, parts: Path): Place
    decreases |parts|
  {
    if parts == [] then At(cwd)
    else if parts[0] == ".." then
      if cwd == [] then Escaped else Descend(entries, Parent(cwd), parts[1..])
    else
      var child := cwd + [parts[0]];
      if child !in entries then Missing
      else if |parts| == 1 then At(child)
      else match entries[child].kind
        case Directory => Descend(entries, child, parts[1..])
        case Symlink => Through(child)
        case Regular => NotDirectory
        case Special => NotDirectory
  }

  /** The regular file a link leads to within `n` hops through real directories only. */
  function Resolve(entries: Entries, name: Path, n: nat): Option<Path>
    requires name in entries && name != []
    decreases n
  {
    if n == 0 then None
    else
      var found := Descend(entries, Parent(name), Split(entries[name].body));
      if !found.At? || found.p !in entries || found.p == [] then None
      else match entries[found.p].kind
        case Regular => Some(found.p)
        case Symlink => Resolve(entries, found.p, n - 1)
        case Directory => None
        case Special => None
  }

  /** Full resolution with a hop limit, following links wherever they stand. */
  function Kernel(entries: Entries, cwd: Path, parts: Path, hops: nat): Option<Path>
    decreases hops, |parts|
  {
    if parts == [] then Some(cwd)
    else if parts[0] == ".." then
      if cwd == [] then None else Kernel(entries, Parent(cwd), parts[1..], hops)
    else
      var child := cwd + [parts[0]];
      if child !in entries then None
      else match entries[child].kind
        case Directory => Kernel(entries, child, parts[1..], hops)
        case Symlink => if hops == 0 then None else Kernel(entries, cwd, Split(entries[child].body) + parts[1..], hops - 1)
        case Regular => if |parts| == 1 then Some(child) else None
        case Special => None
  }

  // ---------------------------------------------------------------- they agree

  /** Climbing costs nothing: the parents of a directory are directories. */
  lemma {:induction false} Climb(entries: Entries, cwd: Path, parts: Path)
    requires Ups(parts) <= |cwd|
    ensures Descend(entries, cwd, parts) == Descend(entries, cwd[..|cwd| - Ups(parts)], parts[Ups(parts)..])
    decreases |parts|
  {
    if parts == [] || parts[0] != ".." {
      assert cwd[..|cwd|] == cwd && parts[0..] == parts;
    } else {
      var up := Parent(cwd);
      Climb(entries, up, parts[1..]);
      assert up[..|up| - Ups(parts[1..])] == cwd[..|cwd| - Ups(parts)];
      assert parts[1..][Ups(parts[1..])..] == parts[Ups(parts)..];
    }
  }

  lemma {:induction false} ClimbEscapes(entries: Entries, cwd: Path, parts: Path)
    requires Ups(parts) > |cwd|
    ensures Descend(entries, cwd, parts) == Escaped
    decreases |cwd|
  {
    if cwd != [] {
      ClimbEscapes(entries, Parent(cwd), parts[1..]);
    }
  }

  /** Going down by name arrives exactly when everything on the way is a real directory. */
  lemma {:induction false} Down(entries: Entries, cwd: Path, parts: Path)
    requires AllNamed(parts) && parts != []
    requires forall i | 0 < i <= |cwd| :: IsDir(entries, cwd[..i])
    ensures Descend(entries, cwd, parts).At? <==> cwd + parts in entries && Inside(entries, cwd + parts)
    ensures Descend(entries, cwd, parts).At? ==> Descend(entries, cwd, parts) == At(cwd + parts)
    decreases |parts|
  {
    var child := cwd + [parts[0]];
    var whole := cwd + parts;
    assert whole[..|child|] == child;
    if |parts| == 1 {
      assert child == whole;
      forall i | 0 < i < |whole| ensures whole[..i] == cwd[..i] {
      }
    } else {
      assert child + parts[1..] == whole;
      if IsDir(entries, child) {
        forall i | 0 < i <= |child| ensures IsDir(entries, child[..i]) {
          assert i <= |cwd| ==> child[..i] == cwd[..i];
          assert i == |child| ==> child[..i] == child;
        }
        Down(entries, child, parts[1..]);
      }
    }
  }

  lemma {:induction false} ParentsAreDirs(entries: Entries, name: Path, n: nat)
    requires Closed(entries) && name in entries && n < |name|
    ensures forall i | 0 < i <= n :: IsDir(entries, name[..n][..i])
  {
    forall i | 0 < i <= n ensures IsDir(entries, name[..n][..i]) {
      assert name[..n][..i] == name[..i];
    }
  }

  /** One lexical step and one walk through the tree arrive at the same place or both nowhere. */
  lemma {:induction false} StepAgrees(entries: Entries, name: Path)
    requires Closed(entries) && name in entries && entries[name].kind == Symlink && name != []
    ensures var found := Descend(entries, Parent(name), Split(entries[name].body));
            && (Lexical(entries, name).Some? <==> found.At? && found.p in entries)
            && (Lexical(entries, name).Some? ==> found == At(Lexical(entries, name).value))
  {
    var dir, parts := Parent(name), Split(entries[name].body);
    var ups := Ups(parts);
    CleanJoined(dir, parts);
    if ups > |dir| {
      CleanEscapes(dir, parts);
      ClimbEscapes(entries, dir, parts);
    } else {
      CleanTarget(dir, parts);
      Climb(entries, dir, parts);
      var base := dir[..|dir| - ups];
      assert base == name[..|base|];
      ParentsAreDirs(entries, name, |base|);
      Down(entries, base, parts[ups..]);
    }
  }

  /** Lexical and physical resolution give the same file, for every number of hops. */
  lemma {:induction false} FollowAgrees(entries: Entries, name: Path, n: nat)
    requires Closed(entries) && name in entries && entries[name].kind == Symlink && name != []
    ensures Follow(entries, name, n) == Resolve(entries, name, n)
    ensures Follow(entries, name, n).Some? ==>
              Follow(entries, name, n).value in entries && entries[Follow(entries, name, n).value].kind == Regular
  {
    forall p | p in entries && entries[p].kind == Symlink ensures Agreed(entries, p) {
      assert SafePath(p);
      StepAgrees(entries, p);
    }
    FollowAgreed(entries, name, n);
  }

  /** What `StepAgrees` shows of one link. */
  predicate Agreed(entries: Entries, name: Path)
    requires name in entries
  {
    && name != []
    && var found := Descend(entries, Parent(name), Split(entries[name].body));
       && (Lexical(entries, name).Some? <==> found.At? && found.p in entries)
       && (Lexical(entries, name).Some? ==> found == At(Lexical(entries, name).value))
  }

  lemma {:induction false} FollowAgreed(entries: Entries, name: Path, n: nat)
    requires forall p | p in entries && entries[p].kind == Symlink :: Agreed(entries, p)
    requires name in entries && entries[name].kind == Symlink && name != []
    ensures Follow(entries, name, n) == Resolve(entries, name, n)
    ensures Follow(entries, name, n).Some? ==>
              Follow(entries, name, n).value in entries && entries[Follow(entries, name, n).value].kind == Regular
    decreases n
  {
    if n > 0 {
      assert Agreed(entries, name);
      if Lexical(entries, name).Some? && entries[Lexical(entries, name).value].kind == Symlink {
        FollowAgreed(entries, Lexical(entries, name).value, n - 1);
      }
    }
  }

  /** Opening a resolved link from the root leads the kernel to the same file, in the same hops. */
  lemma {:induction false} KernelFollows(entries: Entries, name: Path, n: nat)
    requires Closed(entries) && name in entries && entries[name].kind == Symlink && name != []
    requires Resolve(entries, name, n).Some?
    ensures Kernel(entries, [], name, n) == Resolve(entries, name, n)
    decreases n
  {
    SafeIsTame(entries);
    KernelLast(entries, name, n);
    OpenLast(entries, name, n);
  }

  /** What the kernel's walk needs of safe entries. */
  ghost predicate Tame(entries: Entries) {
    forall p | p in entries ::
      p != [] && Named(p[|p| - 1]) && (entries[p].kind == Symlink ==> Descending(Split(entries[p].body)))
  }

  lemma {:induction false} SafeIsTame(entries: Entries)
    requires Safe(entries)
    ensures Tame(entries)
  {
    forall p | p in entries
      ensures p != [] && Named(p[|p| - 1]) && (entries[p].kind == Symlink ==> Descending(Split(entries[p].body)))
    {
      assert SafePath(p);
    }
  }

  lemma {:induction false} KernelLast(entries: Entries, name: Path, n: nat)
    requires Tame(entries) && name in entries && entries[name].kind == Symlink && name != []
    requires Resolve(entries, name, n).Some?
    ensures Kernel(entries, Parent(name), [name[|name| - 1]], n) == Resolve(entries, name, n)
    decreases n
  {
    var p := Descend(entries, Parent(name), Split(entries[name].body)).p;
    KernelHop(entries, name, n);
    if entries[p].kind == Symlink {
      KernelLast(entries, p, n - 1);
    } else {
      OpenFile(entries, p, n - 1);
    }
  }

  /** Opening a link is opening what its target names. */
  lemma {:induction false} KernelHop(entries: Entries, name: Path, n: nat)
    requires name in entries && entries[name].kind == Symlink && name != [] && n > 0
    requires Named(name[|name| - 1]) && Descending(Split(entries[name].body))
    requires Descend(entries, Parent(name), Split(entries[name].body)).At?
    ensures var p := Descend(entries, Parent(name), Split(entries[name].body)).p;
            p != [] && Kernel(entries, Parent(name), [name[|name| - 1]], n) == Kernel(entries, Parent(p), [p[|p| - 1]], n - 1)
  {
    OpenLink(entries, Parent(name), name, n);
    KernelDescends(entries, Parent(name), Split(entries[name].body), n - 1);
  }

  lemma {:induction false} OpenFile(entries: Entries, p: Path, hops: nat)
    requires p in entries && p != [] && entries[p].kind == Regular && p[|p| - 1] != ".."
    ensures Kernel(entries, Parent(p), [p[|p| - 1]], hops) == Some(p)
  {
    assert Parent(p) + [p[|p| - 1]] == p;
  }

  /** Opening an entry from the root comes down to its last component. */
  lemma {:induction false} OpenLast(entries: Entries, p: Path, hops: nat)
    requires Closed(entries) && p in entries && p != []
    ensures Kernel(entries, [], p, hops) == Kernel(entries, Parent(p), [p[|p| - 1]], hops)
  {
    forall i | 0 < i < |p| ensures IsDir(entries, [] + p[..i]) {
      assert [] + p[..i] == p[..i];
    }
    Arrive(entries, [], p, hops);
    assert [] + Parent(p) == Parent(p);
  }

  lemma {:induction false} OpenLink(entries: Entries, cwd: Path, p: Path, hops: nat)
    requires p in entries && entries[p].kind == Symlink && p != [] && Parent(p) == cwd && hops > 0 && p[|p| - 1] != ".."
    ensures Kernel(entries, cwd, [p[|p| - 1]], hops) == Kernel(entries, cwd, Split(entries[p].body), hops - 1)
  {
    assert cwd + [p[|p| - 1]] == p;
    assert Split(entries[p].body) + [p[|p| - 1]][1..] == Split(entries[p].body);
  }

  /** The kernel reaches the last component of a path through real directories. */
  lemma {:induction false} Arrive(entries: Entries, cwd: Path, parts: Path, hops: nat)
    requires parts != [] && AllNamed(parts)
    requires forall i | 0 < i < |parts| :: IsDir(entries, cwd + parts[..i])
    ensures Kernel(entries, cwd, parts, hops) == Kernel(entries, cwd + Parent(parts), [parts[|parts| - 1]], hops)
    decreases |parts|
  {
    if |parts| == 1 {
      assert cwd + Parent(parts) == cwd && parts == [parts[0]];
    } else {
      assert cwd + parts[..1] == cwd + [parts[0]];
      forall i | 0 < i < |parts[1..]| ensures IsDir(entries, cwd + [parts[0]] + parts[1..][..i]) {
        assert cwd + parts[..i + 1] == cwd + [parts[0]] + parts[1..][..i];
      }
      Arrive(entries, cwd + [parts[0]], parts[1..], hops);
      assert cwd + [parts[0]] + Parent(parts[1..]) == cwd + Parent(parts);
    }
  }

  /** Where the walk meets no link, the kernel walks alike, up to the last component. */
  lemma {:induction false} KernelDescends(entries: Entries, cwd: Path, parts: Path, hops: nat)
    requires Descend(entries, cwd, parts).At? && parts != [] && Ups(parts) < |parts| && AllNamed(parts[Ups(parts)..])
    ensures var p := Descend(entries, cwd, parts).p;
            p != [] && Kernel(entries, cwd, parts, hops) == Kernel(entries, Parent(p), [p[|p| - 1]], hops)
    decreases |parts|
  {
    if parts[0] == ".." {
      assert parts[1..][Ups(parts[1..])..] == parts[Ups(parts)..];
      KernelDescends(entries, Parent(cwd), parts[1..], hops);
    } else {
      var child := cwd + [parts[0]];
      if |parts| == 1 {
        assert Parent(child) == cwd && parts == [parts[0]];
      } else {
        assert parts[0..] == parts;
        assert AllNamed(parts[1..]);
        assert Ups(parts[1..]) == 0 && parts[1..][0..] == parts[1..];
        KernelDescends(entries, child, parts[1..], hops);
      }
    }
  }

  // ---------------------------------------------------------------- the visited set

  /** Where each link leads by one lexical step, as a table. */
  type Steps = map<Path, Option<Path>>

  ghost function StepsOf(entries: Entries): Steps {
    map p | p in entries && p != [] && entries[p].kind == Symlink :: Lexical(entries, p)
  }

  ghost predicate Tabulates(entries: Entries, next: Steps) {
    && next.Keys == (set p | p in entries && p != [] && entries[p].kind == Symlink)
    && forall p {:trigger Lexical(entries, p)} | p in next :: next[p] == Lexical(entries, p)
  }

  predicate IsFile(entries: Entries, p: Path) {
    p in entries && entries[p].kind == Regular
  }

  /** Whether the table leads from a link to a regular file within `n` steps. */
  predicate Leads(entries: Entries, next: Steps, name: Path, n: nat)
    decreases n
  {
    && n > 0 && name in next && next[name].Some?
    && (IsFile(entries, next[name].value) || Leads(entries, next, next[name].value, n - 1))
  }

  lemma {:induction false} LeadsIsFollow(entries: Entries, next: Steps, name: Path, n: nat)
    requires Tabulates(entries, next) && name in next
    ensures Leads(entries, next, name, n) <==> Follow(entries, name, n).Some?
    decreases n
  {
    if n > 0 && Lexical(entries, name).Some? && Lexical(entries, name).value in next {
      LeadsIsFollow(entries, next, Lexical(entries, name).value, n - 1);
    }
  }

  /** A chain of links, each one step from the one before. */
  ghost predicate Chain(next: Steps, chain: seq<Path>) {
    && (forall i | 0 <= i < |chain| :: chain[i] in next)
    && (forall i | 0 <= i < |chain| - 1 :: next[chain[i]] == Some(chain[i + 1]))
  }

  /** No step leads both to a file and to a further link. */
  ghost predicate LinksOnly(entries: Entries, next: Steps) {
    forall p | p in next :: !IsFile(entries, p)
  }

  /** Walking along a chain uses up steps and keeps the outcome. */
  lemma {:induction false} Along(entries: Entries, next: Steps, chain: seq<Path>, n: nat)
    requires LinksOnly(entries, next) && Chain(next, chain) && chain != []
    ensures Leads(entries, next, chain[0], n) <==>
              n >= |chain| && Leads(entries, next, chain[|chain| - 1], n - (|chain| - 1))
    decreases |chain|
  {
    if |chain| > 1 && n > 0 {
      var rest := chain[1..];
      assert next[chain[0]] == Some(chain[1]) && chain[1] in next;
      forall i | 0 <= i < |rest| - 1 ensures next[rest[i]] == Some(rest[i + 1]) {
        assert next[chain[i + 1]] == Some(chain[i + 1 + 1]);
      }
      Along(entries, next, rest, n - 1);
    }
  }

  /** A link that leads back to itself leads to no file, however many steps are allowed. */
  lemma {:induction false} CyclesLeadNowhere(entries: Entries, next: Steps, chain: seq<Path>, n: nat)
    requires LinksOnly(entries, next) && Chain(next, chain) && |chain| >= 2 && chain[0] == chain[|chain| - 1]
    ensures !Leads(entries, next, chain[0], n)
    decreases n
  {
    Along(entries, next, chain, n);
    if n >= |chain| {
      CyclesLeadNowhere(entries, next, chain, n - (|chain| - 1));
    }
  }

  lemma {:induction false} Revisited(entries: Entries, next: Steps, chain: seq<Path>, name: Path, n: nat)
    requires LinksOnly(entries, next) && Chain(next, chain + [name]) && name in Visited(chain)
    ensures !Leads(entries, next, name, n)
  {
    var k :| 0 <= k < |chain| && chain[k] == name;
    var whole := chain + [name];
    var loop := whole[k..];
    forall i | 0 <= i < |loop| - 1 ensures next[loop[i]] == Some(loop[i + 1]) {
      assert next[whole[k + i]] == Some(whole[k + i + 1]);
    }
    CyclesLeadNowhere(entries, next, loop, n);
  }

  lemma {:induction false} ExtendChain(next: Steps, chain: seq<Path>, name: Path, target: Path)
    requires Chain(next, chain + [name]) && name in next && next[name] == Some(target) && target in next
    ensures Chain(next, chain + [name] + [target])
  {
    var whole := chain + [name];
    var longer := whole + [target];
    forall i | 0 <= i < |longer| - 1 ensures next[longer[i]] == Some(longer[i + 1]) {
      if i < |whole| - 1 {
        assert next[whole[i]] == Some(whole[i + 1]);
      }
    }
  }

  ghost predicate Distinct(chain: seq<Path>) {
    forall i, j | 0 <= i < j < |chain| :: chain[i] != chain[j]
  }

  ghost function Visited(chain: seq<Path>): set<Path> {
    set p | p in chain
  }

  lemma {:induction false} VisitOne(chain: seq<Path>, name: Path)
    requires Distinct(chain) && name !in Visited(chain)
    ensures Distinct(chain + [name]) && Visited(chain + [name]) == Visited(chain) + {name}
  {
    forall p | p in Visited(chain) + {name} ensures p in chain + [name] {
      if p == name { assert (chain + [name])[|chain|] == p; }
    }
  }

  lemma {:induction false} VisitedCount(chain: seq<Path>)
    requires Distinct(chain)
    ensures |Visited(chain)| == |chain|
    decreases |chain|
  {
    if chain != [] {
      var rest, last := chain[..|chain| - 1], chain[|chain| - 1];
      VisitedCount(rest);
      assert chain == rest + [last];
      VisitOne(rest, last);
    }
  }

  /** `regularTarget`: the visited set and the size bound find a file exactly when one lies within
      the steps that are left. `chain` is how the recursion got here. */
  method RegularTarget(entries: Entries, name: Path, seen: set<Path>, ghost next: Steps, ghost chain: seq<Path>) returns (ok: bool)
    requires Tabulates(entries, next) && Chain(next, chain + [name])
    requires name in entries && name != [] && entries[name].kind == Symlink
    requires Distinct(chain) && seen == Visited(chain) && |chain| <= MAX_HOPS
    ensures ok <==> Leads(entries, next, name, MAX_HOPS - |chain|)
    decreases MAX_HOPS - |chain|
  {
    VisitedCount(chain);
    assert LinksOnly(entries, next);
    if name in seen {
      Revisited(entries, next, chain, name, MAX_HOPS - |chain|);
      return false;
    }
    if |seen| >= MAX_HOPS { return false; }
    var found := OneStep(entries, name, next);
    if found.None? { return false; }
    var target := found.value;
    if entries[target].kind == Regular { return true; }
    if entries[target].kind != Symlink { return false; }
    ExtendChain(next, chain, name, target);
    VisitOne(chain, name);
    ok := RegularTarget(entries, target, seen + {name}, next, chain + [name]);
  }

  /** Joins, cleans and looks up, with every directory on the way. */
  method OneStep(entries: Entries, name: Path, ghost next: Steps) returns (found: Option<Path>)
    requires name in entries && name != [] && entries[name].kind == Symlink && Tabulates(entries, next)
    ensures name in next && found == next[name]
    ensures found.Some? ==> found.value in entries && found.value != [] && (entries[found.value].kind == Symlink <==> found.value in next)
  {
    var target := Target(name, entries[name].body);
    ghost var step := Lexical(entries, name);
    if !SafePath(target) { return None; }
    var inside := CheckParents(entries, target);
    return if inside && target in entries then Some(target) else None;
  }

  method CheckParents(entries: Entries, target: Path) returns (ok: bool)
    requires target != []
    ensures ok <==> Inside(entries, target)
  {
    var parent := Parent(target);
    while parent != []
      invariant |parent| < |target| && parent == target[..|parent|]
      invariant forall i | |parent| < i < |target| :: IsDir(entries, target[..i])
      decreases |parent|
    {
      if parent !in entries || entries[parent].kind != Directory { return false; }
      parent := Parent(parent);
    }
    return true;
  }
}
