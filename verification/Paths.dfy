/** Slash-separated names as the artifact code reads them (internal/nodeartifact/artifact.go).

    A path is the sequence of its components. `Clean` is the lexical simplification of Go's
    `path` package on relative names. */
module Paths {

  type Path = seq<string>

  /** The size in UTF-8, which is what Go's `len` counts. */
  function Bytes(s: string): nat {
    if s == "" then 0 else Width(s[0]) + Bytes(s[1..])
  }

  function Width(c: char): nat {
    if c as int < 0x80 then 1 else if c as int < 0x800 then 2 else if c as int < 0x10000 then 3 else 4
  }

  function Split(s: string): (parts: Path)
    ensures |parts| >= 1
    ensures forall i | 0 <= i < |parts| :: '/' !in parts[i]
  {
    if s == "" then [""]
    else
      var rest := Split(s[1..]);
      if s[0] == '/' then [""] + rest else [[s[0]] + rest[0]] + rest[1..]
  }

  function Join(p: Path): string {
    if p == [] then "" else if |p| == 1 then p[0] else p[0] + "/" + Join(p[1..])
  }

  lemma {:induction false} JoinSplit(s: string)
    ensures Join(Split(s)) == s
  {
    if s != "" {
      JoinSplit(s[1..]);
      var rest := Split(s[1..]);
      var parts := Split(s);
      if s[0] == '/' {
        assert parts[1..] == rest;
      } else {
        assert parts[1..] == rest[1..];
      }
      assert s == [s[0]] + s[1..];
    }
  }

  lemma {:induction false} SplitAppend(a: string, s: string)
    requires '/' !in a
    ensures Split(a + "/" + s) == [a] + Split(s)
  {
    if a != "" {
      SplitAppend(a[1..], s);
      assert (a + "/" + s)[1..] == a[1..] + "/" + s;
      assert a == [a[0]] + a[1..];
    } else {
      assert (a + "/" + s)[1..] == s;
    }
  }

  lemma {:induction false} SplitPlain(a: string)
    requires '/' !in a
    ensures Split(a) == [a]
  {
    if a != "" {
      SplitPlain(a[1..]);
      assert a == [a[0]] + a[1..];
    }
  }

  lemma {:induction false} SplitJoin(p: Path)
    requires p != [] && forall i | 0 <= i < |p| :: '/' !in p[i]
    ensures Split(Join(p)) == p
  {
    if |p| == 1 {
      SplitPlain(p[0]);
    } else {
      SplitJoin(p[1..]);
      SplitAppend(p[0], Join(p[1..]));
    }
  }

  // ---------------------------------------------------------------- cleaning

  /** Components already kept, then those still to read. */
  function CleanOnto(kept: Path, parts: Path): Path
    decreases |parts|
  {
    if parts == [] then kept
    else if parts[0] == "" || parts[0] == "." then CleanOnto(kept, parts[1..])
    else if parts[0] == ".." && kept != [] && kept[|kept| - 1] != ".." then CleanOnto(kept[..|kept| - 1], parts[1..])
    else CleanOnto(kept + [parts[0]], parts[1..])
  }

  /** `path.Clean` of a relative name. */
  function Clean(s: string): string {
    var p := CleanOnto([], Split(s));
    if p == [] then "." else Join(p)
  }

  predicate Named(c: string) {
    c != "" && c != "." && c != ".."
  }

  predicate AllNamed(p: Path) {
    forall i | 0 <= i < |p| :: Named(p[i])
  }

  lemma {:induction false} CleanNamed(kept: Path, parts: Path)
    requires AllNamed(parts)
    ensures CleanOnto(kept, parts) == kept + parts
    decreases |parts|
  {
    if parts != [] {
      CleanNamed(kept + [parts[0]], parts[1..]);
      assert kept + [parts[0]] + parts[1..] == kept + parts;
    } else {
      assert kept + parts == kept;
    }
  }

  /** Cleaning what has no dot components only drops the empty ones. */
  lemma {:induction false} CleanDrops(kept: Path, parts: Path)
    requires forall i | 0 <= i < |parts| :: parts[i] != "." && parts[i] != ".."
    ensures |CleanOnto(kept, parts)| <= |kept| + |parts|
    ensures |CleanOnto(kept, parts)| == |kept| + |parts| ==> AllNamed(parts)
    ensures forall i | 0 <= i < |CleanOnto(kept, parts)| :: CleanOnto(kept, parts)[i] in kept || CleanOnto(kept, parts)[i] in parts
    decreases |parts|
  {
    if parts != [] {
      CleanDrops(if parts[0] == "" then kept else kept + [parts[0]], parts[1..]);
      assert parts == [parts[0]] + parts[1..];
    }
  }

  // ---------------------------------------------------------------- safe names

  predicate Control(c: char) {
    (c as int) < 0x20 || 0x7f <= c as int < 0xa0
  }

  predicate Printable(s: string) {
    forall i | 0 <= i < |s| :: s[i] != '\\' && s[i] != ':' && !Control(s[i])
  }

  function Lower(s: string): string {
    if s == "" then "" else [LowerChar(s[0])] + Lower(s[1..])
  }

  /** Only letters that can lead to the reserved names matter here; U+0130 lowers to `i`. */
  function LowerChar(c: char): char {
    if 'A' <= c <= 'Z' then (c as int + 32) as char else if c as int == 0x130 then 'i' else c
  }

  predicate Reserved(c: string) {
    var l := Lower(c);
    l == ".git" || l == ".npmrc" || l == ".env" || ".env." <= l
  }

  const MAX_NAME := 4096
  const MAX_DEPTH := 64

  /** Components that name the same thing to the checker and to the filesystem. */
  predicate SafePath(p: Path) {
    && 0 < |p| <= MAX_DEPTH && Bytes(Join(p)) <= MAX_NAME && Printable(Join(p))
    && forall i | 0 <= i < |p| :: Named(p[i]) && '/' !in p[i] && !Reserved(p[i])
  }

  /** The word in any mixture of capitals. */
  ghost predicate Spells(s: string, word: string) {
    |s| == |word| && forall i | 0 <= i < |s| ::
      || s[i] == word[i] || ('a' <= word[i] <= 'z' && s[i] as int == word[i] as int - 32)
      || (word[i] == 'i' && s[i] as int == 0x130)
  }

  lemma {:induction false} LowerAt(s: string, i: nat)
    requires i < |s|
    ensures |Lower(s)| == |s| && Lower(s)[i] == LowerChar(s[i])
    decreases |s|
  {
    if i > 0 { LowerAt(s[1..], i - 1); } else if |s| > 1 { LowerAt(s[1..], 0); }
  }

  lemma {:induction false} LowerSpells(s: string, word: string)
    requires forall i | 0 <= i < |word| :: 'a' <= word[i] <= 'z' || word[i] == '.'
    ensures Lower(s) == word <==> Spells(s, word)
  {
    if s != "" { LowerAt(s, 0); }
    forall i | 0 <= i < |s| ensures |Lower(s)| == |s| && Lower(s)[i] == LowerChar(s[i]) {
      LowerAt(s, i);
    }
  }

  lemma {:induction false} LowerCut(s: string, n: nat)
    requires n <= |s|
    ensures |Lower(s)| == |s| && Lower(s)[..n] == Lower(s[..n])
  {
    if s != "" { LowerAt(s, 0); }
    forall i | 0 <= i < n ensures |Lower(s)| == |s| && |Lower(s[..n])| == n && Lower(s)[i] == Lower(s[..n])[i] {
      LowerAt(s, i);
      LowerAt(s[..n], i);
    }
  }

  /** The names no release may contain, however they are capitalized. */
  lemma {:induction false} ReservedExactly(c: string)
    ensures Reserved(c) <==>
              Spells(c, ".git") || Spells(c, ".npmrc") || Spells(c, ".env") || (|c| >= 5 && Spells(c[..5], ".env."))
  {
    LowerSpells(c, ".git");
    LowerSpells(c, ".npmrc");
    LowerSpells(c, ".env");
    if |c| >= 5 {
      LowerCut(c, 5);
      LowerSpells(c[..5], ".env.");
    } else {
      LowerCut(c, 0);
    }
  }

  /** A safe name, spelled out. */
  lemma {:induction false} SafeNameLaw(name: string)
    ensures SafePath(Split(name)) <==>
              && Bytes(name) <= 4096 && |Split(name)| <= 64
              && (forall i | 0 <= i < |name| :: name[i] != '\\' && name[i] != ':' && name[i] as int >= 0x20 && !(0x7f <= name[i] as int < 0xa0))
              && (forall i | 0 <= i < |Split(name)| ::
                    var part := Split(name)[i];
                    && part != "" && part != "." && part != ".."
                    && !Spells(part, ".git") && !Spells(part, ".npmrc") && !Spells(part, ".env") && !(|part| >= 5 && Spells(part[..5], ".env.")))
  {
    JoinSplit(name);
    forall i | 0 <= i < |Split(name)|
      ensures Reserved(Split(name)[i]) <==>
                var part := Split(name)[i];
                Spells(part, ".git") || Spells(part, ".npmrc") || Spells(part, ".env") || (|part| >= 5 && Spells(part[..5], ".env."))
    {
      ReservedExactly(Split(name)[i]);
    }
  }

  /** `safeName`: accepts exactly the names whose components form a safe path. */
  method CheckName(name: string) returns (ok: bool)
    ensures ok <==> SafePath(Split(name))
  {
    JoinSplit(name);
    var parts := Split(name);
    if name == "" || Bytes(name) > MAX_NAME || !Printable(name) { return false; }
    if name[0] == '/' {
      SlashFirst(name);
      return false;
    }
    if Clean(name) != name {
      if SafePath(parts) { SafeIsClean(name); }
      return false;
    }
    if |parts| > MAX_DEPTH { return false; }
    var i := 0;
    while i < |parts|
      invariant 0 <= i <= |parts|
      invariant forall k | 0 <= k < i :: parts[k] != "." && parts[k] != ".." && !Reserved(parts[k])
    {
      if parts[i] == "." || parts[i] == ".." || Reserved(parts[i]) { return false; }
      i := i + 1;
    }
    CleanIsNamed(name);
    return true;
  }

  lemma {:induction false} SlashFirst(name: string)
    requires name != "" && name[0] == '/'
    ensures Split(name)[0] == ""
  {
  }

  lemma {:induction false} SafeIsClean(name: string)
    requires SafePath(Split(name))
    ensures Clean(name) == name
  {
    CleanNamed([], Split(name));
    assert [] + Split(name) == Split(name);
    JoinSplit(name);
  }

  lemma {:induction false} CleanIsNamed(name: string)
    requires Clean(name) == name && forall i | 0 <= i < |Split(name)| :: Split(name)[i] != "." && Split(name)[i] != ".."
    ensures AllNamed(Split(name))
  {
    var parts := Split(name);
    var p := CleanOnto([], parts);
    CleanDrops([], parts);
    if p == [] {
      SplitPlain(".");
    } else {
      SplitJoin(p);
    }
  }

  // ---------------------------------------------------------------- safe targets

  /** How many components lead upwards before the first that does not. */
  function Ups(parts: Path): (n: nat)
    ensures n <= |parts|
    ensures forall i | 0 <= i < n :: parts[i] == ".."
    ensures n < |parts| ==> parts[n] != ".."
  {
    if parts == [] || parts[0] != ".." then 0 else 1 + Ups(parts[1..])
  }

  /** Up, then down by name, never up again. */
  predicate Descending(parts: Path) {
    Ups(parts) < |parts| && AllNamed(parts[Ups(parts)..])
  }

  predicate SafeTarget(target: string) {
    Bytes(target) <= MAX_NAME && Printable(target) && Descending(Split(target))
  }

  lemma {:induction false} NotDescending(parts: Path, i: nat)
    requires Ups(parts) <= i < |parts| && !Named(parts[i])
    ensures !Descending(parts)
  {
    assert !Named(parts[Ups(parts)..][i - Ups(parts)]);
  }

  /** `safeTarget`. */
  method CheckTarget(target: string) returns (ok: bool)
    ensures ok <==> SafeTarget(target)
  {
    var parts := Split(target);
    if target == "" || Bytes(target) > MAX_NAME || !Printable(target) { return false; }
    if target[0] == '/' {
      SlashFirst(target);
      NotDescending(parts, 0);
      return false;
    }
    ok := CheckParts(parts);
  }

  /** The loop of `safeTarget`. */
  method CheckParts(parts: Path) returns (ok: bool)
    ensures ok <==> Descending(parts)
  {
    var descending := false;
    var i := 0;
    ghost var ups := Ups(parts);
    while i < |parts|
      invariant 0 <= i <= |parts|
      invariant descending <==> ups < i
      invariant forall k | ups <= k < i :: Named(parts[k])
    {
      if parts[i] == "" || parts[i] == "." {
        NotDescending(parts, i);
        return false;
      }
      if parts[i] == ".." {
        if descending {
          NotDescending(parts, i);
          return false;
        }
      } else {
        descending := true;
      }
      i := i + 1;
    }
    return descending;
  }

  /** Cleaning a safe target onto a named directory climbs and then descends. */
  lemma {:induction false} CleanTarget(dir: Path, parts: Path)
    requires AllNamed(dir) && Ups(parts) <= |dir| && AllNamed(parts[Ups(parts)..])
    ensures CleanOnto(dir, parts) == dir[..|dir| - Ups(parts)] + parts[Ups(parts)..]
    decreases |parts|
  {
    if parts == [] || parts[0] != ".." {
      CleanNamed(dir, parts);
      assert parts[0..] == parts && dir[..|dir|] == dir;
    } else {
      var up := dir[..|dir| - 1];
      CleanTarget(up, parts[1..]);
      assert parts[1..][Ups(parts[1..])..] == parts[Ups(parts)..];
      assert up[..|up| - Ups(parts[1..])] == dir[..|dir| - Ups(parts)];
    }
  }

  lemma {:induction false} CleanJoined(dir: Path, parts: Path)
    requires AllNamed(dir)
    ensures CleanOnto([], dir + parts) == CleanOnto(dir, parts)
  {
    CleanPrefix([], dir, parts);
    assert [] + dir == dir;
  }

  lemma {:induction false} CleanPrefix(kept: Path, dir: Path, parts: Path)
    requires AllNamed(dir)
    ensures CleanOnto(kept, dir + parts) == CleanOnto(kept + dir, parts)
    decreases |dir|
  {
    if dir == [] {
      assert dir + parts == parts && kept + dir == kept;
    } else {
      assert (dir + parts)[1..] == dir[1..] + parts;
      CleanPrefix(kept + [dir[0]], dir[1..], parts);
      assert kept + [dir[0]] + dir[1..] == kept + dir;
    }
  }

  /** Climbing above the root leaves a `..` in front. */
  lemma {:induction false} CleanEscapes(dir: Path, parts: Path)
    requires AllNamed(dir) && Ups(parts) > |dir| && AllNamed(parts[Ups(parts)..])
    ensures CleanOnto(dir, parts) != [] && CleanOnto(dir, parts)[0] == ".."
    decreases |dir|
  {
    if dir == [] {
      assert parts[1..][Ups(parts[1..])..] == parts[Ups(parts)..];
      assert [] + [parts[0]] == [".."];
      CleanUps([".."], parts[1..]);
    } else {
      assert parts[1..][Ups(parts[1..])..] == parts[Ups(parts)..];
      CleanEscapes(dir[..|dir| - 1], parts[1..]);
    }
  }

  lemma {:induction false} CleanUps(kept: Path, parts: Path)
    requires kept != [] && kept[0] == ".." && kept[|kept| - 1] == ".." && AllNamed(parts[Ups(parts)..])
    ensures CleanOnto(kept, parts) != [] && CleanOnto(kept, parts)[0] == ".."
    decreases |parts|
  {
    if parts != [] && parts[0] == ".." {
      assert parts[1..][Ups(parts[1..])..] == parts[Ups(parts)..];
      CleanUps(kept + [".."], parts[1..]);
    } else {
      assert parts[0..] == parts;
      CleanNamed(kept, parts);
    }
  }
}
