/** An abstract local filesystem: a set of directory paths, a map from file
    path to content, and the paths at which the OS refuses to create
    anything. Paths are compared as strings, without normalisation. The
    pure `After…` functions say what one OS call does; class `Disk` is the
    mutable filesystem the modelled code works on. */
module FileSystem {
  import opened Wrappers
  import opened Document

  type Path = string

  datatype Content =
    | Text(text: string)
    /** A document as `yaml.dump` writes it; its textual form is not modelled. */
    | Yaml(doc: Value)

  datatype FsState = FsState(dirs: set<Path>, files: map<Path, Content>, denied: set<Path>) {
    /** No path is both a directory and a file. */
    predicate Valid() {
      dirs !! files.Keys
    }
  }

  /** The outcome of a sequence of filesystem calls: what it returned or
      raised, and the filesystem it left behind (nothing is rolled back). */
  datatype Run<T> = Run(result: Result<T, Exc>, state: FsState)

  /** `os.path.join(a, b)` on POSIX: a relative `b` is appended to `a`
      after at most one inserted '/', and an absolute `b` discards `a`. */
  function Join(a: Path, b: Path): (r: Path)
    ensures b == [] || b[0] != '/' ==> r == JoinHead(a) + b
    ensures b != [] && b[0] == '/' ==> r == b
  {
    if b != [] && b[0] == '/' then b
    else if a == [] || a[|a| - 1] == '/' then a + b
    else a + "/" + b
  }

  /** Whatever `b` is, the joined path ends with `b`; a relative `b` keeps
      `a` in front. */
  lemma JoinTermina(a: Path, b: Path)
    ensures |b| <= |Join(a, b)| && Join(a, b)[|Join(a, b)| - |b|..] == b
    ensures b == [] || b[0] != '/' ==> a <= Join(a, b)
  {
  }

  /** An `a` that is empty or already ends in '/' is put in front of a
      relative `b` unchanged: no second '/' is added. */
  lemma JoinHeadMantem(a: Path)
    ensures a == [] || a[|a| - 1] == '/' ==> JoinHead(a) == a
  {
  }

  /** The text `Join(a, b)` puts in front of a relative `b`: `a` itself
      when it is empty or already ends in '/', and `a` plus one '/'
      otherwise. */
  function JoinHead(a: Path): (h: Path)
    ensures a <= h && |h| <= |a| + 1
    ensures h == [] <==> a == []
    ensures h != [] ==> h[|h| - 1] == '/'
  {
    if a == [] || a[|a| - 1] == '/' then a else a + "/"
  }

  /** The directory `p` names and every directory above it: what
      `os.makedirs(p)` brings into existence. */
  function Ancestry(p: Path): (r: set<Path>)
    ensures forall q :: q in r ==> q != [] && q <= p
    ensures p != [] ==> p in r
  {
    var r := set i | 0 < i <= |p| && (i == |p| || p[i] == '/') :: p[..i];
    assert p != [] ==> p[..|p|] in r && p[..|p|] == p;
    r
  }

  /** The directories `makedirs` creates are exactly the non-empty
      prefixes of `p` that end where `p` ends or just before a '/'. */
  lemma AncestryExacta(p: Path)
    ensures forall q :: q in Ancestry(p) <==> q != [] && q <= p && (|q| == |p| || p[|q|] == '/')
  {
    forall q | q != [] && q <= p && (|q| == |p| || p[|q|] == '/') ensures q in Ancestry(p) {
      assert q == p[..|q|];
    }
  }

  /** The length of the part of `p` up to and including its last '/'. */
  function LastSep(p: Path): (i: nat)
    ensures i <= |p|
    ensures i > 0 ==> p[i - 1] == '/'
    ensures forall j :: i <= j < |p| ==> p[j] != '/'
  {
    if p == [] then 0
    else if p[|p| - 1] == '/' then |p|
    else LastSep(p[..|p| - 1])
  }

  /** `h.rstrip('/')`. */
  function StripSeps(h: Path): (r: Path)
    ensures r <= h
  {
    if h != [] && h[|h| - 1] == '/' then StripSeps(h[..|h| - 1]) else h
  }

  predicate AllSeps(h: Path) {
    forall j :: 0 <= j < |h| ==> h[j] == '/'
  }

  /** `StripSeps` removes exactly the separators that end `h`: what it
      drops is all '/', and what it keeps does not end in one. */
  lemma {:induction false} StripSepsExacta(h: Path)
    ensures var r := StripSeps(h); AllSeps(h[|r|..]) && (r != [] ==> r[|r| - 1] != '/')
    ensures StripSeps(h) == [] ==> AllSeps(h)
    decreases |h|
  {
    if h != [] && h[|h| - 1] == '/' {
      var g := h[..|h| - 1];
      StripSepsExacta(g);
      var r := StripSeps(g);
      assert h[|r|..] == g[|r|..] + "/";
    }
    assert h[0..] == h;
  }

  /** `os.path.dirname(p)` on POSIX: the part of `p` before its last '/',
      without the separators that end it, unless that part is made of
      separators only; empty when `p` has no '/'. */
  function Dirname(p: Path): (r: Path)
    ensures r <= p
  {
    var h := p[..LastSep(p)];
    if h != [] && !AllSeps(h) then StripSeps(h) else h
  }

  /** `Dirname(p)` is the part of `p` before its last '/' with the
      separators that end it removed, unless that part is all separators;
      it is empty exactly when `p` has no '/'. */
  lemma DirnameExacta(p: Path)
    ensures var r := Dirname(p); |r| <= LastSep(p) && AllSeps(p[|r|..LastSep(p)])
    ensures Dirname(p) == [] <==> '/' !in p
    ensures var r := Dirname(p); r != [] && r[|r| - 1] == '/' ==> AllSeps(r) && r == p[..LastSep(p)]
  {
    var h := p[..LastSep(p)];
    StripSepsExacta(h);
    assert '/' in p ==> LastSep(p) > 0;
    assert p[|h|..LastSep(p)] == [];
  }

  /** A path as an `OSError` message shows it, between single quotes. */
  function Quoted(p: Path): string {
    "'" + p + "'"
  }

  /** The `FileNotFoundError` an OS call raises for `p`. */
  function NotFound(p: Path): Exc {
    OSError("[Errno 2] No such file or directory: " + Quoted(p))
  }

  /** `os.path.exists(p)`: true of directories as well as files. */
  predicate ExistsIn(s: FsState, p: Path) {
    p in s.dirs || p in s.files
  }

  /** The error `open(p, 'w')` raises when the parent of `p` is missing:
      `NotADirectoryError` when a directory on the way is a file,
      `FileNotFoundError` otherwise. */
  function NoParent(s: FsState, p: Path): (e: Exc)
    ensures e.OSError?
  {
    if exists q :: q in Ancestry(Dirname(p)) && q in s.files then OSError("[Errno 20] Not a directory: " + Quoted(p))
    else NotFound(p)
  }

  /** `os.makedirs(p, exist_ok=True)`. */
  function AfterMakeDirs(s: FsState, p: Path): (r: Result<FsState, Exc>)
    ensures r.Success? ==> r.value == s.(dirs := s.dirs + Ancestry(p))
    ensures r.Success? <==>
      p != [] && forall q :: q in Ancestry(p) ==> q !in s.files && (q in s.dirs || q !in s.denied)
    ensures s.Valid() && r.Success? ==> r.value.Valid()
  {
    if p == [] then Failure(NotFound(p))
    else if p in s.files then Failure(OSError("[Errno 17] File exists: " + Quoted(p)))
    else if exists q :: q in Ancestry(p) && q in s.files then Failure(OSError("[Errno 20] Not a directory: " + Quoted(p)))
    else if exists q :: q in Ancestry(p) && q !in s.dirs && q in s.denied then
      Failure(OSError("[Errno 13] Permission denied: " + Quoted(p)))
    else Success(s.(dirs := s.dirs + Ancestry(p)))
  }

  /** `open(p, 'w')` followed by writing `c`: creates or truncates the file. */
  function AfterWrite(s: FsState, p: Path, c: Content): (r: Result<FsState, Exc>)
    ensures r.Success? ==> r.value == s.(files := s.files[p := c])
    ensures r.Success? <==>
      p != [] && p !in s.dirs && p !in s.denied && Dirname(p) !in s.files && (Dirname(p) == [] || Dirname(p) in s.dirs)
    ensures s.Valid() && r.Success? ==> r.value.Valid()
  {
    if p == [] then Failure(NotFound(p))
    else if Dirname(p) in s.files then Failure(OSError("[Errno 20] Not a directory: " + Quoted(p)))
    else if Dirname(p) != [] && Dirname(p) !in s.dirs then Failure(NoParent(s, p))
    else if p in s.dirs then Failure(OSError("[Errno 21] Is a directory: " + Quoted(p)))
    else if p in s.denied then Failure(OSError("[Errno 13] Permission denied: " + Quoted(p)))
    else Success(s.(files := s.files[p := c]))
  }

  /** The local filesystem the modelled code changes in place. */
  class Disk {
    var dirs: set<Path>
    var files: map<Path, Content>
    const denied: set<Path>

    function State(): FsState
      reads this
    {
      FsState(dirs, files, denied)
    }

    constructor (s: FsState)
      ensures State() == s
    {
      dirs, files, denied := s.dirs, s.files, s.denied;
    }

    predicate Exists(p: Path)
      reads this
    {
      ExistsIn(State(), p)
    }

    method MakeDirs(p: Path) returns (err: Option<Exc>)
      modifies this
      ensures AfterMakeDirs(old(State()), p).Success? ==>
        err == None && State() == AfterMakeDirs(old(State()), p).value
      ensures AfterMakeDirs(old(State()), p).Failure? ==>
        err == Some(AfterMakeDirs(old(State()), p).error) && State() == old(State())
    {
      var r := AfterMakeDirs(State(), p);
      if r.Success? {
        dirs := r.value.dirs;
        err := None;
      } else {
        err := Some(r.error);
      }
    }

    method WriteFile(p: Path, c: Content) returns (err: Option<Exc>)
      modifies this
      ensures AfterWrite(old(State()), p, c).Success? ==>
        err == None && State() == AfterWrite(old(State()), p, c).value
      ensures AfterWrite(old(State()), p, c).Failure? ==>
        err == Some(AfterWrite(old(State()), p, c).error) && State() == old(State())
    {
      var r := AfterWrite(State(), p, c);
      if r.Success? {
        files := r.value.files;
        err := None;
      } else {
        err := Some(r.error);
      }
    }
  }
}
