/** Which directories a scan lists beside the files it finds, and who their parents are
    (scripts/architecture-recon-index.ts:225-248, 366-429). */
module ReconPaths {
  import opened Wrappers
  import opened ReconIndex
  import opened ReconScan
  import opened ReconRuns

  /** A file met on the walk, by its path below the root. */
  datatype Entry = Entry(path: Path, digest: Digest, size: nat, mtime: int)

  /** dirname, with the root as its own parent. */
  function ComponentParent(p: Path): Path { if p == [] then [] else p[..|p| - 1] }

  function ClassifyDirectory(p: Path): Level {
    if p == [] then Context else if |p| > 1 then Component else Container
  }

  function ParentForDirectory(p: Path): Option<Path> {
    if p == [] then None
    else
      var parent := ComponentParent(p);
      if parent == [] || |p| <= 1 then Some([]) else Some(parent)
  }

  function ParentForFile(p: Path): Path
    requires p != []
  {
    var parent := ComponentParent(p);
    if parent != [] then parent else if p[..1] == p then [] else p[..1]
  }

  function DirectoryCandidate(p: Path): Candidate {
    Candidate(p, Directory, ClassifyDirectory(p), ParentForDirectory(p), "0", None, None)
  }

  function FileCandidate(e: Entry): Candidate
    requires e.path != []
  {
    Candidate(e.path, File, Code, Some(ParentForFile(e.path)), e.digest, Some(e.size), Some(e.mtime))
  }

  /** The walk meets each file once, and none of them at the path of a directory above another. */
  ghost predicate WalkOk(files: seq<Entry>) {
    && (forall i :: 0 <= i < |files| ==> files[i].path != [])
    && (forall i, j :: 0 <= i < j < |files| ==> files[i].path != files[j].path)
    && (forall i, j :: 0 <= i < |files| && 0 <= j < |files| ==> !(files[i].path < files[j].path))
  }

  /** p is a directory above one of the files, or the root. */
  ghost predicate Above(files: seq<Entry>, p: Path) {
    p == [] || exists i :: 0 <= i < |files| && p < files[i].path
  }

  predicate Between(low: Path, p: Path, high: Path) { low < p < high }

  /** The loop that climbs from a file to the root. */
  method AddAncestors(file: Path, before: set<Path>) returns (directories: set<Path>)
    requires file != []
    ensures forall p :: p in directories <==> p in before || (p < file && p != []) || p == []
  {
    directories := before;
    var ancestor := ComponentParent(file);
    while ancestor != []
      invariant ancestor < file
      invariant forall p :: p in directories <==> p in before || Between(ancestor, p, file)
      decreases |ancestor|
    {
      ghost var lower := ancestor;
      directories := directories + {ancestor};
      ancestor := ComponentParent(ancestor);
      forall p ensures Between(ancestor, p, file) <==> Between(lower, p, file) || p == lower {
        BetweenParentAnd(lower, p, file);
      }
    }
    directories := directories + {[]};
  }

  lemma BetweenParentAnd(lower: Path, p: Path, file: Path)
    requires lower != [] && lower < file
    ensures Between(ComponentParent(lower), p, file) <==> Between(lower, p, file) || p == lower
  {
    if ComponentParent(lower) < p < file {
      assert |p| >= |lower|;
      assert p == file[..|p|] && lower == file[..|lower|];
      assert p[..|lower|] == lower;
    }
  }

  method CollectDirectories(files: seq<Entry>) returns (directories: set<Path>)
    requires WalkOk(files)
    ensures forall p :: p in directories <==> Above(files, p)
  {
    directories := {[]};
    for i := 0 to |files|
      invariant forall p :: p in directories <==> Above(files[..i], p)
    {
      directories := AddAncestors(files[i].path, directories);
      forall p ensures Above(files[..i + 1], p) <==> Above(files[..i], p) || p < files[i].path {
        AboveOneMore(files, i, p);
      }
    }
    assert files[..|files|] == files;
  }

  lemma AboveOneMore(files: seq<Entry>, i: nat, p: Path)
    requires i < |files|
    ensures Above(files[..i + 1], p) <==> Above(files[..i], p) || p < files[i].path
  {
    if p < files[i].path {
      assert files[..i + 1][i] == files[i];
    }
    if Above(files[..i], p) && p != [] {
      var j :| 0 <= j < i && p < files[..i][j].path;
      assert files[..i + 1][j] == files[..i][j];
    }
    if Above(files[..i + 1], p) && p != [] {
      var j :| 0 <= j < i + 1 && p < files[..i + 1][j].path;
      assert j < i ==> files[..i][j] == files[..i + 1][j];
    }
  }

  /** The candidates of a walk, given the directories in whatever order they are sorted. */
  function Candidates(directories: seq<Path>, files: seq<Entry>): (cs: seq<Candidate>)
    requires forall i :: 0 <= i < |files| ==> files[i].path != []
    ensures |cs| == |directories| + |files|
    ensures forall i :: 0 <= i < |cs| ==>
      cs[i] == if i < |directories| then DirectoryCandidate(directories[i]) else FileCandidate(files[i - |directories|])
  {
    seq(|directories|, i requires 0 <= i < |directories| => DirectoryCandidate(directories[i])) +
    seq(|files|, i requires 0 <= i < |files| => FileCandidate(files[i]))
  }

  /** A directory as a scan lists it: the root is the context, its directories are containers and anything
      deeper is a component; every directory but the root belongs to the one that holds it. */
  predicate ListsDirectory(c: Candidate, p: Path) {
    && c.path == p && c.kind == Directory && c.digest == "0" && c.size == None && c.mtime == None
    && (|p| == 0 ==> c.level == Context && c.parent == None)
    && (|p| == 1 ==> c.level == Container)
    && (|p| > 1 ==> c.level == Component)
    && (|p| > 0 ==> c.parent == Some(p[..|p| - 1]))
  }

  /** A file as a scan lists it: code, in the directory that holds it. */
  predicate ListsFile(c: Candidate, e: Entry)
    requires e.path != []
  {
    && c.path == e.path && c.kind == File && c.level == Code && c.parent == Some(e.path[..|e.path| - 1])
    && c.digest == e.digest && c.size == Some(e.size) && c.mtime == Some(e.mtime)
  }

  lemma ListedDirectory(p: Path, c: Candidate)
    ensures c == DirectoryCandidate(p) <==> ListsDirectory(c, p)
  {
    if |p| == 1 {
      assert p[..0] == [];
    }
  }

  lemma ListedFile(e: Entry, c: Candidate)
    requires e.path != []
    ensures c == FileCandidate(e) <==> ListsFile(c, e)
  {
    if |e.path| == 1 {
      assert e.path[..1] == e.path && e.path[..0] == [];
    }
  }

  /** A scan lists the given directories and the files, each as it is, and nothing else. */
  lemma CandidatesExactly(directories: seq<Path>, files: seq<Entry>, c: Candidate)
    requires forall i :: 0 <= i < |files| ==> files[i].path != []
    ensures c in Candidates(directories, files) <==>
      || (exists i :: 0 <= i < |directories| && ListsDirectory(c, directories[i]))
      || (exists i :: 0 <= i < |files| && ListsFile(c, files[i]))
  {
    hide DirectoryCandidate, FileCandidate, ListsDirectory, ListsFile;
    var cs, n := Candidates(directories, files), |directories|;
    if c in cs {
      var i :| 0 <= i < |cs| && cs[i] == c;
      if i < n {
        ListedDirectory(directories[i], c);
      } else {
        ListedFile(files[i - n], c);
      }
    }
    if i :| 0 <= i < |directories| && ListsDirectory(c, directories[i]) {
      ListedDirectory(directories[i], c);
      assert cs[i] == c;
    }
    if i :| 0 <= i < |files| && ListsFile(c, files[i]) {
      ListedFile(files[i], c);
      assert cs[n + i] == c;
    }
  }

  /** A walk's candidates have distinct paths and hold the parent of each, as a scan's commit needs. */
  lemma CandidatesAreClosed(directories: seq<Path>, files: seq<Entry>)
    requires WalkOk(files)
    requires forall p :: p in directories <==> Above(files, p)
    requires forall i, j :: 0 <= i < j < |directories| ==> directories[i] != directories[j]
    ensures DistinctPaths(Candidates(directories, files)) && ParentsFound(Candidates(directories, files))
  {
    var cs := Candidates(directories, files);
    var n := |directories|;
    forall i, j | 0 <= i < j < |cs| ensures cs[i].path != cs[j].path {
      if i < n <= j {
        assert directories[i] in directories;
        NotAbove(files, j - n, directories[i]);
      }
    }
    forall i | 0 <= i < |cs| && cs[i].parent.Some? ensures Found(cs, cs[i].parent.value) {
      var q := cs[i].parent.value;
      if i < n {
        assert directories[i] in directories;
        AboveParent(files, directories[i]);
      } else {
        assert q < files[i - n].path;
      }
      assert q in directories;
      var k :| 0 <= k < n && directories[k] == q;
      assert cs[k].path == q;
    }
  }

  lemma NotAbove(files: seq<Entry>, j: nat, p: Path)
    requires WalkOk(files) && j < |files| && Above(files, p)
    ensures files[j].path != p
  {
  }

  lemma AboveParent(files: seq<Entry>, p: Path)
    requires Above(files, p) && p != []
    ensures Above(files, ParentForDirectory(p).value)
  {
    var i :| 0 <= i < |files| && p < files[i].path;
    assert ComponentParent(p) < files[i].path;
  }
}
