/**
 * Comparing two workspaces and carrying the winner's changes over (src/arena/ArenaWorkspaceService.ts).
 * A workspace is a map from paths below its root to files and directories; symbolic links are
 * not part of this model. The file digest is a parameter.
 */
module ArenaWorkspace {
  import opened Messages
  import opened Text

  const NUL := 0 as char

  /** The names from the root down to an entry. */
  type Path = seq<string>

  datatype Node = File(content: string) | Directory

  type Tree = map<Path, Node>

  /** A name that a file system can hold: a backslash is allowed, "." and ".." are not names. */
  predicate FileName(name: string) {
    name != "" && name != "." && name != ".." && '/' !in name && NUL !in name
  }

  /** Every entry is named and lies in directories of the tree. */
  ghost predicate ValidTree(t: Tree) {
    && (forall p :: p in t ==> p != [] && forall i :: 0 <= i < |p| ==> FileName(p[i]))
    && (forall p, k :: p in t && 0 < k < |p| ==> IsDirectory(t, p[..k]))
  }

  const EXCLUDED_ROOTS: set<string> := {
    ".git", ".dpagent-arena", "node_modules", "dist", "logs", "runtime", "contexts", "workspace",
    "workspace-smoke-default", "ux-workspace", "outputs"
  }

  predicate Excluded(p: Path) {
    p != [] && p[0] in EXCLUDED_ROOTS
  }

  predicate IsFile(t: Tree, p: Path) {
    p in t && t[p].File?
  }

  predicate IsDirectory(t: Tree, p: Path) {
    p in t && t[p] == Directory
  }

  /** The regular files that belong to the workspace. */
  function Listed(t: Tree): set<Path> {
    set p | p in t && t[p].File? && !Excluded(p)
  }

  function FileDigests(t: Tree, digest: string -> string): map<Path, string> {
    map p | p in Listed(t) :: digest(t[p].content)
  }

  /** The listed files that are missing on one side or differ in digest. */
  function Diff(source: Tree, branch: Tree, digest: string -> string): set<Path> {
    set p | p in Listed(source) + Listed(branch) &&
            (p !in Listed(source) || p !in Listed(branch)
             || digest(source[p].content) != digest(branch[p].content))
  }

  /** No difference is found exactly when the digests of all files agree. */
  lemma NoDiffIff(source: Tree, branch: Tree, digest: string -> string)
    ensures Diff(source, branch, digest) == {} <==> FileDigests(source, digest) == FileDigests(branch, digest)
  {
    var d, a, b := Diff(source, branch, digest), FileDigests(source, digest), FileDigests(branch, digest);
    if d == {} {
      forall p ensures p in a <==> p in b {
        assert p !in d;
      }
      forall p | p in a ensures a[p] == b[p] {
        assert p !in d;
      }
    } else {
      var p :| p in d;
      assert (p in a) != (p in b) || a[p] != b[p];
    }
  }

  // ----- paths as text -----

  predicate IsSeparator(c: char) {
    c == '/' || c == '\\'
  }

  predicate CleanName(name: string) {
    name != "" && forall i :: 0 <= i < |name| ==> !IsSeparator(name[i])
  }

  function JoinPath(p: Path): string {
    if p == [] then "" else if |p| == 1 then p[0] else p[0] + ("/" + JoinPath(p[1..]))
  }

  /** The non-empty stretches between separators; `current` is the stretch being read. */
  function Pieces(s: string, current: string): seq<string> {
    if s == "" then (if current == "" then [] else [current])
    else if IsSeparator(s[0]) then (if current == "" then [] else [current]) + Pieces(s[1..], "")
    else Pieces(s[1..], current + [s[0]])
  }

  /** A changed file's path, or nothing when it is empty or climbs up. */
  function SafeRelativePath(relativePath: string): Option<Path> {
    var names := Pieces(relativePath, "");
    if names == [] || ".." in names then None else Some(names)
  }

  lemma {:induction false} PiecesOfName(name: string, current: string, rest: string)
    requires forall i :: 0 <= i < |name| ==> !IsSeparator(name[i])
    ensures Pieces(name + rest, current) == Pieces(rest, current + name)
  {
    if name == "" {
      assert name + rest == rest && current + name == current;
    } else {
      assert (name + rest)[1..] == name[1..] + rest;
      assert current + [name[0]] + name[1..] == current + name;
      PiecesOfName(name[1..], current + [name[0]], rest);
    }
  }

  lemma PiecesOfSeparated(name: string, rest: string)
    requires CleanName(name)
    ensures Pieces(name + ("/" + rest), "") == [name] + Pieces(rest, "")
  {
    PiecesOfName(name, "", "/" + rest);
    assert "" + name == name;
    assert ("/" + rest)[1..] == rest;
  }

  lemma {:induction false} PiecesOfJoin(p: Path)
    requires forall i :: 0 <= i < |p| ==> CleanName(p[i])
    ensures Pieces(JoinPath(p), "") == p
  {
    hide IsSeparator;
    if |p| == 1 {
      PiecesOfName(p[0], "", "");
      assert p[0] + "" == p[0] == "" + p[0];
      assert p == [p[0]];
    } else if p != [] {
      PiecesOfJoin(p[1..]);
      PiecesOfSeparated(p[0], JoinPath(p[1..]));
      assert p == [p[0]] + p[1..];
    }
  }

  lemma {:induction false} PiecesClean(s: string, current: string)
    requires forall i :: 0 <= i < |current| ==> !IsSeparator(current[i])
    ensures forall i :: 0 <= i < |Pieces(s, current)| ==> CleanName(Pieces(s, current)[i])
  {
    if s != "" {
      PiecesClean(s[1..], if IsSeparator(s[0]) then "" else current + [s[0]]);
    }
  }

  /** A path survives being written out and checked exactly when its names are clean and none climbs up. */
  lemma SafePathRoundTripIff(p: Path)
    requires p != []
    ensures SafeRelativePath(JoinPath(p)) == Some(p) <==> ".." !in p && forall i :: 0 <= i < |p| ==> CleanName(p[i])
  {
    PiecesClean(JoinPath(p), "");
    if forall i :: 0 <= i < |p| ==> CleanName(p[i]) {
      PiecesOfJoin(p);
    }
  }

  // ----- the hash of a workspace -----

  const DIGEST_LENGTH := 64

  /** The list that is hashed, one path and digest per file. */
  datatype Entry = Entry(path: string, digest: string)

  predicate Encodable(e: Entry) {
    NUL !in e.path && |e.digest| == DIGEST_LENGTH
  }

  function Encode(e: Entry): string {
    e.path + ([NUL] + e.digest)
  }

  function Payload(entries: seq<Entry>): string {
    if entries == [] then ""
    else if |entries| == 1 then Encode(entries[0])
    else Encode(entries[0]) + ("\n" + Payload(entries[1..]))
  }

  function NulIndex(s: string): (n: nat)
    ensures n <= |s| && NUL !in s[..n] && (n < |s| ==> s[n] == NUL)
  {
    if s == "" || s[0] == NUL then 0
    else
      assert s[..1 + NulIndex(s[1..])] == [s[0]] + s[1..][..NulIndex(s[1..])];
      1 + NulIndex(s[1..])
  }

  /** Reads the entries back: a path up to the NUL, a digest of fixed length, a line end. */
  function Decode(s: string): seq<Entry>
    decreases |s|
  {
    var n := NulIndex(s);
    var end := n + 1 + DIGEST_LENGTH;
    if end > |s| then []
    else [Entry(s[..n], s[n + 1..end])] + (if end < |s| then Decode(s[end + 1..]) else [])
  }

  lemma {:induction false} NulIndexOf(path: string, rest: string)
    requires NUL !in path
    ensures NulIndex(path + ([NUL] + rest)) == |path|
  {
    var s := path + ([NUL] + rest);
    if path != "" {
      assert s[1..] == path[1..] + ([NUL] + rest);
      NulIndexOf(path[1..], rest);
    }
  }

  lemma DecodeFirst(e: Entry, rest: string)
    requires Encodable(e)
    ensures Decode(Encode(e) + rest) == [e] + (if rest == "" then [] else Decode(rest[1..]))
  {
    var s := Encode(e) + rest;
    assert s == e.path + ([NUL] + (e.digest + rest));
    NulIndexOf(e.path, e.digest + rest);
    var n := |e.path|;
    var end := n + 1 + DIGEST_LENGTH;
    assert s[..n] == e.path && s[n + 1..end] == e.digest;
    assert rest != "" ==> s[end + 1..] == rest[1..];
  }

  /** The hashed text determines the entries, line ends in paths included. */
  lemma {:induction false} PayloadDecodes(entries: seq<Entry>)
    requires forall i :: 0 <= i < |entries| ==> Encodable(entries[i])
    ensures Decode(Payload(entries)) == entries
  {
    if entries != [] {
      hide Encode, Encodable;
      var rest := if |entries| == 1 then "" else "\n" + Payload(entries[1..]);
      assert Payload(entries) == Encode(entries[0]) + rest;
      DecodeFirst(entries[0], rest);
      if |entries| > 1 {
        assert rest[1..] == Payload(entries[1..]);
        PayloadDecodes(entries[1..]);
      }
    }
  }

  /** Code-unit order, by which paths are sorted. */
  predicate Before(a: string, b: string) {
    a == "" || (b != "" && (a[0] < b[0] || (a[0] == b[0] && Before(a[1..], b[1..]))))
  }

  lemma {:induction false} BeforeTotal(a: string, b: string)
    ensures Before(a, b) || Before(b, a)
  {
    if a != "" && b != "" {
      BeforeTotal(a[1..], b[1..]);
    }
  }

  lemma {:induction false} BeforeTransitive(a: string, b: string, c: string)
    requires Before(a, b) && Before(b, c)
    ensures Before(a, c)
  {
    if a != "" && a[0] == b[0] == c[0] {
      BeforeTransitive(a[1..], b[1..], c[1..]);
    }
  }

  lemma {:induction false} FirstExists(s: set<string>)
    requires s != {}
    ensures exists m :: IsFirst(m, s)
  {
    var a :| a in s;
    if s == {a} {
      BeforeTotal(a, a);
      assert IsFirst(a, s);
    } else {
      FirstExists(s - {a});
      var m :| IsFirst(m, s - {a});
      BeforeTotal(a, m);
      BeforeTotal(a, a);
      if Before(a, m) {
        forall x | x in s ensures Before(a, x) {
          if x != a {
            BeforeTransitive(a, m, x);
          }
        }
        assert IsFirst(a, s);
      } else {
        assert IsFirst(m, s);
      }
    }
  }

  lemma {:induction false} BeforeAntisymmetric(a: string, b: string)
    requires Before(a, b) && Before(b, a)
    ensures a == b
  {
    if a != "" {
      BeforeAntisymmetric(a[1..], b[1..]);
      assert a == [a[0]] + a[1..] && b == [b[0]] + b[1..];
    }
  }

  predicate IsFirst(m: string, s: set<string>) {
    m in s && forall x :: x in s ==> Before(m, x)
  }

  lemma FirstIsUnique(s: set<string>)
    requires s != {}
    ensures exists m :: IsFirst(m, s)
    ensures forall m, n :: IsFirst(m, s) && IsFirst(n, s) ==> m == n
  {
    FirstExists(s);
    forall m, n | IsFirst(m, s) && IsFirst(n, s) ensures m == n {
      BeforeAntisymmetric(m, n);
    }
  }

  function Sorted(s: set<string>): seq<string> {
    if s == {} then []
    else
      FirstIsUnique(s);
      var m :| m in s && IsFirst(m, s);
      [m] + Sorted(s - {m})
  }

  lemma {:induction false} SortedHolds(s: set<string>)
    ensures forall x :: x in Sorted(s) <==> x in s
  {
    if s != {} {
      FirstIsUnique(s);
      var m := Sorted(s)[0];
      assert m in s && Sorted(s) == [m] + Sorted(s - {m});
      SortedHolds(s - {m});
    }
  }

  /** The entries of a file map in path order. */
  function Entries(files: map<string, string>): seq<Entry> {
    var names := Sorted(files.Keys);
    SortedHolds(files.Keys);
    seq(|names|, i requires 0 <= i < |names| => Entry(names[i], files[names[i]]))
  }

  /** Two file maps are hashed to the same text only if they are the same map. */
  lemma PayloadInjective(a: map<string, string>, b: map<string, string>)
    requires forall p :: p in a ==> Encodable(Entry(p, a[p]))
    requires forall p :: p in b ==> Encodable(Entry(p, b[p]))
    ensures Payload(Entries(a)) == Payload(Entries(b)) <==> a == b
  {
    SortedHolds(a.Keys);
    SortedHolds(b.Keys);
    PayloadDecodes(Entries(a));
    PayloadDecodes(Entries(b));
    if Payload(Entries(a)) == Payload(Entries(b)) {
      EntriesDetermine(a, b);
      EntriesDetermine(b, a);
      assert a.Keys == b.Keys;
    }
  }

  lemma EntriesDetermine(a: map<string, string>, b: map<string, string>)
    requires Entries(a) == Entries(b)
    ensures forall p :: p in a ==> p in b && a[p] == b[p]
  {
    SortedHolds(a.Keys);
    SortedHolds(b.Keys);
    var names, names' := Sorted(a.Keys), Sorted(b.Keys);
    forall p | p in a ensures p in b && a[p] == b[p] {
      var i :| 0 <= i < |names| && names[i] == p;
      assert Entries(a)[i] == Entries(b)[i];
      assert names'[i] in Sorted(b.Keys);
    }
  }

  /** Two names at the start of one path are the same name. */
  lemma SameFirstName(name: string, other: string, path: string)
    requires '/' !in name && '/' !in other
    requires |name| <= |path| && path[..|name|] == name && (|name| < |path| ==> path[|name|] == '/')
    requires |other| <= |path| && path[..|other|] == other && (|other| < |path| ==> path[|other|] == '/')
    ensures name == other
  {
    assert forall i :: 0 <= i < |name| ==> name[i] == path[i];
    assert forall i :: 0 <= i < |other| ==> other[i] == path[i];
  }

  lemma {:induction false} JoinInjective(p: Path, q: Path)
    requires p != [] && q != []
    requires forall i :: 0 <= i < |p| ==> FileName(p[i])
    requires forall i :: 0 <= i < |q| ==> FileName(q[i])
    requires JoinPath(p) == JoinPath(q)
    ensures p == q
  {
    var u, v := JoinPath(p), JoinPath(q);
    assert u == p[0] + u[|p[0]|..] && v == q[0] + v[|q[0]|..];
    assert u[..|p[0]|] == p[0] && v[..|q[0]|] == q[0];
    SameFirstName(p[0], q[0], u);
    if |p| > 1 && |q| > 1 {
      assert u[|p[0]| + 1..] == JoinPath(p[1..]) && v[|q[0]| + 1..] == JoinPath(q[1..]);
      JoinInjective(p[1..], q[1..]);
      assert p == [p[0]] + p[1..] && q == [q[0]] + q[1..];
    } else {
      assert |u| == |v|;
    }
  }

  lemma ListedJoinInjective(t: Tree)
    requires ValidTree(t)
    ensures forall p, q :: p in Listed(t) && q in Listed(t) && JoinPath(p) == JoinPath(q) ==> p == q
  {
    forall p, q | p in Listed(t) && q in Listed(t) && JoinPath(p) == JoinPath(q) ensures p == q {
      JoinInjective(p, q);
    }
  }

  /** The digests of the listed files by written-out path. */
  function FileMap(t: Tree, digest: string -> string): map<string, string>
    requires ValidTree(t)
  {
    ListedJoinInjective(t);
    map p | p in Listed(t) :: JoinPath(p) := digest(t[p].content)
  }

  /** The text that is hashed. */
  function HashedText(t: Tree, digest: string -> string): string
    requires ValidTree(t)
  {
    Payload(Entries(FileMap(t, digest)))
  }

  function Hash(t: Tree, digest: string -> string): string
    requires ValidTree(t)
  {
    digest(HashedText(t, digest))
  }

  lemma NoNulInPath(p: Path)
    requires p != [] && forall i :: 0 <= i < |p| ==> FileName(p[i])
    ensures NUL !in JoinPath(p)
  {
    if |p| > 1 {
      NoNulInPath(p[1..]);
    }
  }

  lemma FileMapEncodable(t: Tree, digest: string -> string)
    requires ValidTree(t) && forall s :: |digest(s)| == DIGEST_LENGTH
    ensures forall s :: s in FileMap(t, digest) ==> Encodable(Entry(s, FileMap(t, digest)[s]))
  {
    forall s | s in FileMap(t, digest) ensures Encodable(Entry(s, FileMap(t, digest)[s])) {
      var p := FileMapKey(t, s, digest);
      FileMapAt(t, p, digest);
      NoNulInPath(p);
    }
  }

  /** The hashed text is the same exactly when the digests of all files are. */
  lemma HashedTextIff(a: Tree, b: Tree, digest: string -> string)
    requires ValidTree(a) && ValidTree(b)
    requires forall s :: |digest(s)| == DIGEST_LENGTH
    ensures HashedText(a, digest) == HashedText(b, digest) <==> FileDigests(a, digest) == FileDigests(b, digest)
  {
    hide JoinPath, FileMap, Entries, Payload, FileDigests, ValidTree;
    var m, m' := FileMap(a, digest), FileMap(b, digest);
    FileMapEncodable(a, digest);
    FileMapEncodable(b, digest);
    PayloadInjective(m, m');
    if FileDigests(a, digest) == FileDigests(b, digest) {
      EqualDigestsEqualMaps(a, b, digest);
    }
    if m == m' {
      MapDeterminesDigests(a, b, digest);
    }
  }

  lemma EqualDigestsEqualMaps(a: Tree, b: Tree, digest: string -> string)
    requires ValidTree(a) && ValidTree(b) && FileDigests(a, digest) == FileDigests(b, digest)
    ensures FileMap(a, digest) == FileMap(b, digest)
  {
    hide JoinPath, FileMap, FileDigests, ValidTree;
    DigestsDetermineMap(a, b, digest);
    DigestsDetermineMap(b, a, digest);
    assert FileMap(a, digest).Keys == FileMap(b, digest).Keys;
  }

  /**
   * Workspaces with equal file digests have equal hashes, for every digest; and unless the digest
   * collides on just the two hashed texts, only those have.
   */
  lemma HashIff(a: Tree, b: Tree, digest: string -> string)
    requires ValidTree(a) && ValidTree(b)
    ensures FileDigests(a, digest) == FileDigests(b, digest) ==> Hash(a, digest) == Hash(b, digest)
    ensures var p, q := HashedText(a, digest), HashedText(b, digest);
            (forall s :: |digest(s)| == DIGEST_LENGTH) && (digest(p) == digest(q) ==> p == q)
            && Hash(a, digest) == Hash(b, digest)
            ==> FileDigests(a, digest) == FileDigests(b, digest)
  {
    hide FileMap, Entries, Payload, FileDigests, ValidTree, HashedText;
    if FileDigests(a, digest) == FileDigests(b, digest) {
      EqualDigestsEqualText(a, b, digest);
    }
    if forall s :: |digest(s)| == DIGEST_LENGTH {
      HashedTextIff(a, b, digest);
    }
  }

  lemma EqualDigestsEqualText(a: Tree, b: Tree, digest: string -> string)
    requires ValidTree(a) && ValidTree(b) && FileDigests(a, digest) == FileDigests(b, digest)
    ensures HashedText(a, digest) == HashedText(b, digest)
  {
    hide FileMap, Entries, Payload, FileDigests, ValidTree;
    EqualDigestsEqualMaps(a, b, digest);
  }

  lemma FileMapAt(t: Tree, p: Path, digest: string -> string)
    requires ValidTree(t) && p in Listed(t)
    ensures JoinPath(p) in FileMap(t, digest) && FileMap(t, digest)[JoinPath(p)] == FileDigests(t, digest)[p]
  {
    hide JoinPath;
    ListedJoinInjective(t);
  }

  lemma FileMapKey(t: Tree, s: string, digest: string -> string) returns (p: Path)
    requires ValidTree(t) && s in FileMap(t, digest)
    ensures p in Listed(t) && JoinPath(p) == s
  {
    hide JoinPath;
    p :| p in Listed(t) && JoinPath(p) == s;
  }

  lemma DigestsDetermineMap(a: Tree, b: Tree, digest: string -> string)
    requires ValidTree(a) && ValidTree(b) && FileDigests(a, digest) == FileDigests(b, digest)
    ensures forall s :: s in FileMap(a, digest) ==> s in FileMap(b, digest) && FileMap(a, digest)[s] == FileMap(b, digest)[s]
  {
    hide JoinPath, FileMap, ValidTree;
    forall s | s in FileMap(a, digest)
      ensures s in FileMap(b, digest) && FileMap(a, digest)[s] == FileMap(b, digest)[s]
    {
      var p := FileMapKey(a, s, digest);
      assert p in FileDigests(a, digest) && p in FileDigests(b, digest);
      FileMapAt(a, p, digest);
      FileMapAt(b, p, digest);
    }
  }

  lemma MapDeterminesDigests(a: Tree, b: Tree, digest: string -> string)
    requires ValidTree(a) && ValidTree(b) && FileMap(a, digest) == FileMap(b, digest)
    ensures FileDigests(a, digest) == FileDigests(b, digest)
  {
    hide JoinPath, FileMap;
    MapDeterminesDigest(a, b, digest);
    MapDeterminesDigest(b, a, digest);
  }

  lemma MapDeterminesDigest(a: Tree, b: Tree, digest: string -> string)
    requires ValidTree(a) && ValidTree(b) && FileMap(a, digest) == FileMap(b, digest)
    ensures forall p :: p in Listed(a) ==> p in Listed(b) && FileDigests(a, digest)[p] == FileDigests(b, digest)[p]
  {
    hide JoinPath, FileMap;
    forall p | p in Listed(a) ensures p in Listed(b) && FileDigests(a, digest)[p] == FileDigests(b, digest)[p] {
      FileMapAt(a, p, digest);
      var q := FileMapKey(b, JoinPath(p), digest);
      JoinInjective(p, q);
      FileMapAt(b, p, digest);
    }
  }

  // ----- carrying the changes over -----

  /** The entry that the names lead to; "." stays where it is. */
  function Resolve(names: seq<string>): Path {
    if names == [] then []
    else (if names[0] == "." then [] else [names[0]]) + Resolve(names[1..])
  }

  /** The paths of a proposal, or nothing when one of them is unsafe. */
  function SafePaths(changedFiles: seq<string>): Option<seq<seq<string>>> {
    if changedFiles == [] then Some([])
    else if SafeRelativePath(changedFiles[0]).None? || SafePaths(changedFiles[1..]).None? then None
    else Some([SafeRelativePath(changedFiles[0]).value] + SafePaths(changedFiles[1..]).value)
  }

  /** The relative path begins with two dots, which is taken for leaving the workspace. */
  predicate LooksOutside(p: Path) {
    p != [] && StartsWith(p[0], "..")
  }

  predicate FileAbove(t: Tree, p: Path) {
    exists k :: 0 < k < |p| && IsFile(t, p[..k])
  }

  function Ancestors(p: Path): set<Path> {
    set k | 0 < k < |p| :: p[..k]
  }

  /** The file copied to its place, with the directories it lies in. */
  function CopyIn(t: Tree, p: Path, content: string): Tree {
    t + (map q | q in Ancestors(p) :: Directory) + map[p := File(content)]
  }

  /** One changed file carried over, or nothing when the file system or a check refuses. */
  function ApplyOne(t: Tree, branch: Tree, p: Path): Option<Tree> {
    if LooksOutside(p) || p == [] || IsDirectory(branch, p) then None
    else if IsFile(branch, p) then
      if FileAbove(t, p) || IsDirectory(t, p) then None else Some(CopyIn(t, p, branch[p].content))
    else if p !in t then Some(t)
    else if IsDirectory(t, p) then None
    else Some(t - {p})
  }

  datatype Progress = Progress(tree: Tree, done: bool)

  /** The changes in order, up to the first that is refused. */
  function ApplyAll(t: Tree, branch: Tree, paths: seq<Path>): Progress
    decreases |paths|
  {
    if paths == [] then Progress(t, true)
    else if ApplyOne(t, branch, paths[0]).None? then Progress(t, false)
    else ApplyAll(ApplyOne(t, branch, paths[0]).value, branch, paths[1..])
  }

  /** A copied file with its parents leaves a tree, and changes nothing else. */
  lemma CopyFrame(t: Tree, branch: Tree, p: Path)
    requires ValidTree(t) && ValidTree(branch) && IsFile(branch, p) && !FileAbove(t, p) && !IsDirectory(t, p)
    ensures var t' := CopyIn(t, p, branch[p].content);
            && ValidTree(t')
            && (forall q :: q in t && q != p ==> q in t' && t'[q] == t[q])
            && (forall q :: q in t' && q !in t && q != p ==> t'[q] == Directory && IsDirectory(branch, q) && q in Ancestors(p))
  {
    hide FileName;
    var t' := CopyIn(t, p, branch[p].content);
    forall q | q in Ancestors(p) ensures IsDirectory(branch, q) && (q in t ==> t[q] == Directory) && q != p {
      var k :| 0 < k < |p| && q == p[..k];
    }
    forall q, k | q in t' && 0 < k < |q| ensures IsDirectory(t', q[..k]) {
      if q == p {
        assert q[..k] in Ancestors(p);
      } else if q in t {
        assert IsDirectory(t, q[..k]);
      } else {
        var n :| 0 < n < |p| && q == p[..n];
        assert q[..k] == p[..k];
        assert q[..k] in Ancestors(p);
      }
    }
    forall q | q in t' ensures q != [] && forall i :: 0 <= i < |q| ==> FileName(q[i]) {
      if q !in t && q != p {
        assert q in branch;
      }
    }
  }

  /** A removed file leaves a tree. */
  lemma RemoveFrame(t: Tree, p: Path)
    requires ValidTree(t) && IsFile(t, p)
    ensures ValidTree(t - {p})
  {
    hide FileName;
    forall q, k | q in t - {p} && 0 < k < |q| ensures IsDirectory(t - {p}, q[..k]) {
      assert IsDirectory(t, q[..k]);
    }
  }

  /** What one step does, whatever the path. */
  lemma StepFrame(t: Tree, branch: Tree, p: Path)
    requires ValidTree(t) && ValidTree(branch) && ApplyOne(t, branch, p).Some?
    ensures var t' := ApplyOne(t, branch, p).value;
            && ValidTree(t')
            && (forall q :: q in t && q != p ==> q in t' && t'[q] == t[q])
            && (forall q :: q in t' && q !in t && q != p ==> t'[q] == Directory && IsDirectory(branch, q) && q in Ancestors(p))
            && (IsFile(branch, p) ==> p in t' && t'[p] == branch[p])
            && (p !in branch ==> p !in t')
  {
    if IsFile(branch, p) {
      CopyFrame(t, branch, p);
    } else if p in t {
      RemoveFrame(t, p);
    }
    hide ValidTree, Ancestors;
  }

  /** A path that is a file on one side and a directory on the other. */
  predicate Clashes(source: Tree, branch: Tree, p: Path) {
    !Excluded(p) && ((IsFile(source, p) && IsDirectory(branch, p)) || (IsDirectory(source, p) && IsFile(branch, p)))
  }

  ghost predicate Clash(source: Tree, branch: Tree) {
    exists p :: Clashes(source, branch, p)
  }

  /** Every entry of a half-reconciled tree comes from one of the two sides, and no directory is lost. */
  ghost predicate Between(source: Tree, branch: Tree, t: Tree) {
    && ValidTree(t)
    && (forall q :: q in t ==> (q in source && t[q] == source[q]) || (q in branch && t[q] == branch[q]))
    && (forall q :: IsDirectory(source, q) ==> IsDirectory(t, q))
  }

  lemma StepBetween(source: Tree, branch: Tree, t: Tree, p: Path)
    requires ValidTree(source) && ValidTree(branch) && Between(source, branch, t)
    requires ApplyOne(t, branch, p).Some?
    ensures Between(source, branch, ApplyOne(t, branch, p).value)
  {
    StepFrame(t, branch, p);
    var t' := ApplyOne(t, branch, p).value;
    forall q | IsDirectory(source, q) ensures IsDirectory(t', q) {
      assert IsDirectory(t, q);
    }
    forall q | q in t' ensures (q in source && t'[q] == source[q]) || (q in branch && t'[q] == branch[q]) {
      if q == p {
        assert IsFile(branch, p) || t' == t;
      }
    }
  }

  /** With no clash a step on a difference fails only for a path that looks like leaving the workspace. */
  lemma StepSucceedsIff(source: Tree, branch: Tree, t: Tree, p: Path, digest: string -> string)
    requires ValidTree(source) && ValidTree(branch) && Between(source, branch, t)
    requires p in Diff(source, branch, digest) && !Clash(source, branch)
    ensures ApplyOne(t, branch, p).Some? <==> !LooksOutside(p)
  {
    assert !Clashes(source, branch, p);
    if IsFile(branch, p) && FileAbove(t, p) {
      var k :| 0 < k < |p| && IsFile(t, p[..k]);
      assert IsDirectory(branch, p[..k]);
      assert p[..k][0] == p[0];
      assert Clashes(source, branch, p[..k]);
    }
  }

  /** A clash makes the step at that path fail, whatever was done before it. */
  lemma StepFailsAtClash(source: Tree, branch: Tree, t: Tree, p: Path)
    requires Between(source, branch, t) && Clashes(source, branch, p)
    ensures ApplyOne(t, branch, p).None?
  {
  }

  lemma ClashIsDiff(source: Tree, branch: Tree, p: Path, digest: string -> string)
    requires Clashes(source, branch, p)
    ensures p in Diff(source, branch, digest)
  {
  }

  /** A directory made to hold a copied file. */
  ghost predicate IsNewParent(t: Tree, branch: Tree, q: Path, paths: seq<Path>) {
    IsDirectory(t, q) && IsDirectory(branch, q) && exists p :: p in paths && q in Ancestors(p)
  }

  /** Between two states of an application nothing is lost outside the paths, and only parents are new. */
  ghost predicate KeptOutside(branch: Tree, t: Tree, t': Tree, paths: seq<Path>) {
    && (forall q :: q in t && q !in paths ==> q in t' && t'[q] == t[q])
    && (forall q :: q in t' && q !in t && q !in paths ==> IsNewParent(t', branch, q, paths))
  }

  lemma {:induction false} ApplyAllKeeps(source: Tree, branch: Tree, t: Tree, paths: seq<Path>)
    requires ValidTree(source) && ValidTree(branch) && Between(source, branch, t)
    ensures Between(source, branch, ApplyAll(t, branch, paths).tree)
    ensures KeptOutside(branch, t, ApplyAll(t, branch, paths).tree, paths)
    decreases |paths|
  {
    hide ValidTree, Between, ApplyOne, KeptOutside;
    if paths != [] && ApplyOne(t, branch, paths[0]).Some? {
      var t1 := ApplyOne(t, branch, paths[0]).value;
      assert ValidTree(t) by {
        BetweenIsTree(source, branch, t);
      }
      StepFrame(t, branch, paths[0]);
      StepBetween(source, branch, t, paths[0]);
      ApplyAllKeeps(source, branch, t1, paths[1..]);
      KeptFirst(branch, t, t1, ApplyAll(t, branch, paths).tree, paths);
    } else {
      NothingKept(branch, t, paths);
    }
  }

  lemma BetweenIsTree(source: Tree, branch: Tree, t: Tree)
    requires Between(source, branch, t)
    ensures ValidTree(t)
  {
  }

  lemma NothingKept(branch: Tree, t: Tree, paths: seq<Path>)
    ensures KeptOutside(branch, t, t, paths)
  {
  }

  lemma KeptFirst(branch: Tree, t: Tree, t1: Tree, t': Tree, paths: seq<Path>)
    requires paths != [] && KeptOutside(branch, t1, t', paths[1..])
    requires forall q :: q in t && q != paths[0] ==> q in t1 && t1[q] == t[q]
    requires forall q :: q in t1 && q !in t && q != paths[0] ==>
               t1[q] == Directory && IsDirectory(branch, q) && q in Ancestors(paths[0])
    ensures KeptOutside(branch, t, t', paths)
  {
    hide Ancestors;
    assert paths == [paths[0]] + paths[1..];
    forall q | q in t' && q !in t && q !in paths ensures IsNewParent(t', branch, q, paths) {
      if q in t1 {
        assert t'[q] == t1[q];
      } else {
        assert IsNewParent(t', branch, q, paths[1..]);
      }
    }
  }

  /** What a step settled stays settled. */
  predicate Settled(t: Tree, branch: Tree, p: Path) {
    (IsFile(branch, p) ==> p in t && t[p] == branch[p]) && (p !in branch ==> p !in t)
  }

  lemma {:induction false} ApplyAllSettles(t: Tree, branch: Tree, paths: seq<Path>)
    requires ValidTree(t) && ValidTree(branch) && ApplyAll(t, branch, paths).done
    ensures forall p :: p in paths || Settled(t, branch, p) ==> Settled(ApplyAll(t, branch, paths).tree, branch, p)
    decreases |paths|
  {
    if paths != [] {
      var t1 := ApplyOne(t, branch, paths[0]).value;
      StepFrame(t, branch, paths[0]);
      ApplyAllSettles(t1, branch, paths[1..]);
      assert paths == [paths[0]] + paths[1..];
      forall p | Settled(t, branch, p) ensures Settled(t1, branch, p) {
      }
    }
  }

  lemma {:induction false} ApplyAllDoneIff(source: Tree, branch: Tree, t: Tree, paths: seq<Path>, digest: string -> string)
    requires ValidTree(source) && ValidTree(branch) && Between(source, branch, t)
    requires forall p :: p in paths ==> p in Diff(source, branch, digest)
    ensures !Clash(source, branch)
            ==> (ApplyAll(t, branch, paths).done <==> forall p :: p in paths ==> !LooksOutside(p))
    ensures ApplyAll(t, branch, paths).done ==> forall p :: p in paths ==> !Clashes(source, branch, p)
    decreases |paths|
  {
    hide Diff, Clashes, Clash, LooksOutside, ApplyOne, Between, ValidTree;
    if paths != [] {
      var p, next := paths[0], ApplyOne(t, branch, paths[0]);
      assert paths == [p] + paths[1..];
      if !Clash(source, branch) {
        StepSucceedsIff(source, branch, t, p, digest);
      }
      if Clashes(source, branch, p) {
        StepFailsAtClash(source, branch, t, p);
      }
      if next.Some? {
        StepBetween(source, branch, t, p);
        ApplyAllDoneIff(source, branch, next.value, paths[1..], digest);
      }
    }
  }

  /**
   * Applying the computed difference, in any order, succeeds exactly when no path is a file on
   * one side and a directory on the other and no changed path begins with two dots.
   */
  lemma ReconcilesIff(source: Tree, branch: Tree, paths: seq<Path>, digest: string -> string)
    requires ValidTree(source) && ValidTree(branch)
    requires forall p :: p in paths <==> p in Diff(source, branch, digest)
    ensures ApplyAll(source, branch, paths).done
            <==> !Clash(source, branch) && forall p :: p in Diff(source, branch, digest) ==> !LooksOutside(p)
  {
    ApplyAllDoneIff(source, branch, source, paths, digest);
    if Clash(source, branch) {
      var p :| Clashes(source, branch, p);
      ClashIsDiff(source, branch, p, digest);
      assert p in paths;
    }
  }

  /** After a complete application the listed files are the branch's, and so is the hash. */
  lemma Reconciled(source: Tree, branch: Tree, paths: seq<Path>, digest: string -> string)
    requires ValidTree(source) && ValidTree(branch)
    requires forall p :: p in paths <==> p in Diff(source, branch, digest)
    requires ApplyAll(source, branch, paths).done
    ensures var t := ApplyAll(source, branch, paths).tree;
            && ValidTree(t)
            && FileDigests(t, digest) == FileDigests(branch, digest)
            && Diff(t, branch, digest) == {}
            && Hash(t, digest) == Hash(branch, digest)
  {
    hide ApplyAll, ApplyOne, Hash, HashedText, Diff, Ancestors;
    var t := ApplyAll(source, branch, paths).tree;
    ReconcilesIff(source, branch, paths, digest);
    SelfBetween(source, branch);
    ApplyAllKeeps(source, branch, source, paths);
    ApplyAllSettles(source, branch, paths);
    hide ValidTree, Between, Clash, Settled;
    BetweenIsTree(source, branch, t);
    forall p ensures p in Listed(t) <==> p in Listed(branch)
             ensures p in Listed(t) ==> digest(t[p].content) == digest(branch[p].content)
    {
      ReconciledAt(source, branch, t, p, digest);
    }
    NoDiffIff(t, branch, digest);
    HashIff(t, branch, digest);
  }

  lemma SelfBetween(source: Tree, branch: Tree)
    requires ValidTree(source)
    ensures Between(source, branch, source)
  {
  }

  lemma ReconciledAt(source: Tree, branch: Tree, t: Tree, p: Path, digest: string -> string)
    requires !Clash(source, branch) && Between(source, branch, t)
    requires p in Diff(source, branch, digest) ==> Settled(t, branch, p)
    requires p !in Diff(source, branch, digest) && p in source ==> p in t && t[p] == source[p]
    requires p !in Diff(source, branch, digest) && p !in source && p in t ==> t[p] == Directory
    ensures p in Listed(t) <==> p in Listed(branch)
    ensures p in Listed(t) ==> digest(t[p].content) == digest(branch[p].content)
  {
    assert !Clashes(source, branch, p);
  }

  lemma NewParentIsListed(t: Tree, branch: Tree, q: Path, paths: seq<Path>)
    requires ValidTree(t) && IsNewParent(t, branch, q, paths) && forall p :: p in paths ==> !Excluded(p)
    ensures !Excluded(q)
  {
    var p :| p in paths && q in Ancestors(p);
    var k :| 0 < k < |p| && q == p[..k];
    assert q[0] == p[0];
  }

  /** What an application leaves alone: listed or not, every entry outside the changed paths and their parents. */
  lemma UntouchedElsewhere(source: Tree, branch: Tree, paths: seq<Path>)
    requires ValidTree(source) && ValidTree(branch)
    ensures var t := ApplyAll(source, branch, paths).tree;
            && (forall q :: q in source && q !in paths ==> q in t && t[q] == source[q])
            && (forall q :: q in t && q !in source && q !in paths ==> IsNewParent(t, branch, q, paths))
            && (forall q :: IsDirectory(source, q) ==> IsDirectory(t, q))
            && ((forall p :: p in paths ==> !Excluded(p))
                ==> forall q :: Excluded(q) ==> (q in t <==> q in source) && (q in t ==> t[q] == source[q]))
  {
    ApplyAllKeeps(source, branch, source, paths);
    var t := ApplyAll(source, branch, paths).tree;
    if forall p :: p in paths ==> !Excluded(p) {
      forall q | Excluded(q) ensures (q in t <==> q in source) && (q in t ==> t[q] == source[q]) {
        if IsNewParent(t, branch, q, paths) {
          NewParentIsListed(t, branch, q, paths);
        }
      }
    }
  }

  lemma {:induction false} ResolveNames(p: Path)
    requires forall i :: 0 <= i < |p| ==> FileName(p[i])
    ensures Resolve(p) == p && ".." !in p
  {
    if p != [] {
      ResolveNames(p[1..]);
      assert p == [p[0]] + p[1..];
    }
  }

  function ResolveAll(names: seq<seq<string>>): (paths: seq<Path>)
    ensures |paths| == |names| && forall i :: 0 <= i < |names| ==> paths[i] == Resolve(names[i])
  {
    if names == [] then [] else [Resolve(names[0])] + ResolveAll(names[1..])
  }

  function JoinAll(names: seq<seq<string>>): (texts: seq<string>)
    ensures |texts| == |names| && forall i :: 0 <= i < |names| ==> texts[i] == JoinPath(names[i])
  {
    if names == [] then [] else [JoinPath(names[0])] + JoinAll(names[1..])
  }

  /** The proposal's texts lead back to the entries they were written from when no name holds a backslash. */
  lemma {:induction false} ProposalReadsBack(paths: seq<Path>)
    requires forall p :: p in paths ==> Carries(p)
    ensures SafePaths(JoinAll(paths)) == Some(paths) && ResolveAll(paths) == paths
  {
    hide Pieces, JoinPath, SafeRelativePath, Resolve, Carries;
    if paths != [] {
      assert paths == [paths[0]] + paths[1..];
      PathReadsBack(paths[0]);
      ProposalReadsBack(paths[1..]);
      assert JoinAll(paths)[1..] == JoinAll(paths[1..]);
    }
  }

  /** The names of the path can be carried by a text. */
  predicate Carries(p: Path) {
    p != [] && forall i :: 0 <= i < |p| ==> FileName(p[i]) && '\\' !in p[i]
  }

  lemma PathReadsBack(p: Path)
    requires Carries(p)
    ensures SafeRelativePath(JoinPath(p)) == Some(p) && Resolve(p) == p
  {
    hide Pieces, JoinPath, SafeRelativePath, Resolve;
    ResolveNames(p);
    assert forall i :: 0 <= i < |p| ==> CleanName(p[i]);
    SafePathRoundTripIff(p);
  }

  /** The texts are those of the difference, each path once or more and in any order. */
  ghost predicate Written(source: Tree, branch: Tree, digest: string -> string, paths: seq<Path>, changedFiles: seq<string>)
    requires ValidTree(source) && ValidTree(branch)
  {
    && (forall p :: p in paths <==> p in Diff(source, branch, digest))
    && (forall p :: p in paths ==> Carries(p))
    && changedFiles == JoinAll(paths)
  }

  /**
   * From the texts of the difference to the reconciled workspace: carrying them over succeeds exactly when
   * nothing clashes and no changed path begins with two dots, and then gives the branch's hash.
   */
  lemma DifferenceIsCarriedOver(source: Tree, branch: Tree, digest: string -> string, paths: seq<Path>, changedFiles: seq<string>)
    requires ValidTree(source) && ValidTree(branch) && Written(source, branch, digest, paths, changedFiles)
    ensures SafePaths(changedFiles).Some?
    ensures var progress := ApplyAll(source, branch, ResolveAll(SafePaths(changedFiles).value));
            && (progress.done
                <==> !Clash(source, branch) && forall p :: p in Diff(source, branch, digest) ==> !LooksOutside(p))
            && (progress.done ==> ValidTree(progress.tree) && Hash(progress.tree, digest) == Hash(branch, digest))
  {
    hide Diff, Clash, LooksOutside, Carries, Hash, ApplyAll, SafePaths, ResolveAll, JoinAll, ValidTree, FileDigests;
    ProposalReadsBack(paths);
    ReconcilesIff(source, branch, paths, digest);
    if ApplyAll(source, branch, paths).done {
      Reconciled(source, branch, paths, digest);
    }
  }

  /** A new file at the root whose name begins with two dots, such as "..cache", cannot be carried over. */
  lemma DottedNameIsRefused(rest: string, content: string, digest: string -> string)
    requires FileName(".." + rest)
    ensures var name := ".." + rest;
            var branch: Tree := map[[name] := File(content)];
            && ValidTree(branch) && !Clash(map[], branch) && Diff(map[], branch, digest) == {[name]}
            && ApplyAll(map[], branch, [[name]]) == Progress(map[], false)
  {
    var name := ".." + rest;
    DottedName(rest);
    OneNewFile(name, content, digest);
    hide Diff, ValidTree, FileName, Excluded;
    assert [[name]][0] == [name];
  }

  lemma DottedName(rest: string)
    ensures StartsWith(".." + rest, "..") && ".." + rest !in EXCLUDED_ROOTS
  {
    var name := ".." + rest;
    assert name[..2] == ".." && name[1] == '.';
    assert forall root :: root in EXCLUDED_ROOTS ==> |root| > 1 && root[1] != '.';
  }

  /** Names joined by a backslash are read back as several. */
  lemma BackslashSplits(a: string, b: string)
    requires CleanName(a) && CleanName(b)
    ensures Pieces(a + ("\\" + b), "") == [a, b]
  {
    PiecesOfName(a, "", "\\" + b);
    PiecesOfName(b, "", "");
    assert ("\\" + b)[1..] == b;
    assert "" + a == a && "" + b == b && b + "" == b;
  }

  /** With a backslash in a name the change is looked for at another place, here found nowhere, and stays pending. */
  lemma BackslashIsLost(a: string, b: string, content: string, digest: string -> string)
    requires CleanName(a) && CleanName(b) && FileName(a) && FileName(b)
    requires !StartsWith(a, "..") && FileName(a + ("\\" + b)) && a + ("\\" + b) !in EXCLUDED_ROOTS
    ensures var name := a + ("\\" + b);
            var branch: Tree := map[[name] := File(content)];
            && ValidTree(branch) && Diff(map[], branch, digest) == {[name]}
            && SafePaths([JoinPath([name])]) == Some([[a, b]])
            && ApplyAll(map[], branch, ResolveAll([[a, b]])) == Progress(map[], true)
  {
    var name := a + ("\\" + b);
    var branch: Tree := map[[name] := File(content)];
    BackslashSplits(a, b);
    OneNewFile(name, content, digest);
    LostNowhere(branch, name, a, b);
    hide Pieces, Diff, ValidTree, Excluded, StartsWith, ApplyAll;
    assert SafeRelativePath(name) == Some([a, b]);
    SafePathsOfOne(name);
  }

  lemma SafePathsOfOne(text: string)
    requires SafeRelativePath(text).Some?
    ensures SafePaths([text]) == Some([SafeRelativePath(text).value])
  {
    hide SafeRelativePath;
    var texts := [text];
    assert texts[1..] == [];
    assert SafePaths(texts[1..]) == Some([]);
    var names := SafeRelativePath(text).value;
    assert [names] + [] == [names];
  }

  lemma OneNewFile(name: string, content: string, digest: string -> string)
    requires FileName(name) && name !in EXCLUDED_ROOTS
    ensures ValidTree(map[[name] := File(content)])
    ensures Diff(map[], map[[name] := File(content)], digest) == {[name]}
  {
    var branch: Tree := map[[name] := File(content)];
    assert forall p :: p in branch <==> p == [name];
    assert !Excluded([name]);
  }

  lemma LostNowhere(branch: Tree, name: string, a: string, b: string)
    requires FileName(a) && FileName(b) && branch.Keys == {[name]}
    ensures !LooksOutside([a, b]) ==> ApplyAll(map[], branch, ResolveAll([[a, b]])) == Progress(map[], true)
  {
    ResolveNames([a, b]);
    var paths := ResolveAll([[a, b]]);
    assert paths == [[a, b]];
    assert paths[1..] == [];
    assert [a, b] !in branch;
  }

  datatype ApplyResult =
    | StaleSource
    | StaleBranch
    | UnsafePath
    | Refused
    | Applied(sourceHashBefore: string, sourceHashAfter: string, changedFiles: seq<string>)

  /** The workspace that receives the winner's changes. */
  class SourceWorkspace {
    var tree: Tree

    constructor (t: Tree)
      ensures tree == t
    {
      tree := t;
    }

    /** Carries the changes over one file at a time, up to the first that is refused. */
    method ApplyPaths(branch: Tree, paths: seq<Path>) returns (done: bool)
      requires ValidTree(tree) && ValidTree(branch)
      modifies this
      ensures ValidTree(tree)
      ensures ApplyAll(old(tree), branch, paths) == Progress(tree, done)
    {
      hide ApplyOne, ValidTree;
      var i := 0;
      while i < |paths|
        invariant 0 <= i <= |paths|
        invariant ValidTree(tree)
        invariant ApplyAll(tree, branch, paths[i..]) == ApplyAll(old(tree), branch, paths)
      {
        var next := ApplyOne(tree, branch, paths[i]);
        assert paths[i..][0] == paths[i] && paths[i..][1..] == paths[i + 1..];
        if next.None? {
          return false;
        }
        StepFrame(tree, branch, paths[i]);
        tree := next.value;
        i := i + 1;
      }
      done := true;
    }

    /** A stale hash or an unsafe path is rejected before any write. */
    method ApplyDiff(branch: Tree, expectedSourceHash: string, expectedBranchHash: string,
                     changedFiles: seq<string>, digest: string -> string)
      returns (result: ApplyResult)
      requires ValidTree(tree) && ValidTree(branch)
      modifies this
      ensures ValidTree(tree)
      ensures result == StaleSource <==> Hash(old(tree), digest) != Trim(expectedSourceHash)
      ensures result == StaleBranch
              <==> Hash(old(tree), digest) == Trim(expectedSourceHash) && Hash(branch, digest) != Trim(expectedBranchHash)
      ensures result == UnsafePath
              <==> Hash(old(tree), digest) == Trim(expectedSourceHash) && Hash(branch, digest) == Trim(expectedBranchHash)
                   && SafePaths(changedFiles).None?
      ensures result in {StaleSource, StaleBranch, UnsafePath} ==> tree == old(tree)
      ensures result in {StaleSource, StaleBranch, UnsafePath} || SafePaths(changedFiles).Some?
      ensures result == Refused || result.Applied?
              ==> ApplyAll(old(tree), branch, ResolveAll(SafePaths(changedFiles).value)) == Progress(tree, result.Applied?)
      ensures result.Applied?
              ==> result == Applied(Hash(old(tree), digest), Hash(tree, digest), JoinAll(SafePaths(changedFiles).value))
      ensures forall paths :: Written(old(tree), branch, digest, paths, changedFiles)
                              && Hash(old(tree), digest) == Trim(expectedSourceHash) && Hash(branch, digest) == Trim(expectedBranchHash) ==>
                && (result.Applied?
                    <==> !Clash(old(tree), branch) && forall p :: p in Diff(old(tree), branch, digest) ==> !LooksOutside(p))
                && (result.Applied? ==> result.sourceHashAfter == Hash(branch, digest))
    {
      ghost var source := tree;
      forall paths | Written(source, branch, digest, paths, changedFiles)
        ensures SafePaths(changedFiles).Some?
        ensures var progress := ApplyAll(source, branch, ResolveAll(SafePaths(changedFiles).value));
                && (progress.done
                    <==> !Clash(source, branch) && forall p :: p in Diff(source, branch, digest) ==> !LooksOutside(p))
                && (progress.done ==> ValidTree(progress.tree) && Hash(progress.tree, digest) == Hash(branch, digest))
      {
        DifferenceIsCarriedOver(source, branch, digest, paths, changedFiles);
      }
      hide Written, Clash, Diff, LooksOutside;
      var sourceHashBefore := Hash(tree, digest);
      if sourceHashBefore != Trim(expectedSourceHash) {
        return StaleSource;
      }
      if Hash(branch, digest) != Trim(expectedBranchHash) {
        return StaleBranch;
      }
      var names := SafePaths(changedFiles);
      if names.None? {
        return UnsafePath;
      }
      hide Hash, SafePaths, ApplyAll, JoinAll, Trim, ValidTree;
      var done := ApplyPaths(branch, ResolveAll(names.value));
      result := if done then Applied(sourceHashBefore, Hash(tree, digest), JoinAll(names.value)) else Refused;
    }
  }
}
