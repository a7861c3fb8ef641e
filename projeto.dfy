/** `cria_estrutura_projeto`: lays out a new Hari project under the
    directory `nome` — the directories `configs` and `utils`, then five
    stub files, each written only when nothing exists at its path yet.
    The method works on a `Disk`; `Scaffold` is the pure account of the
    same calls that the lemmas reason about. */
module Projeto {
  import opened Wrappers
  import opened Document
  import opened FileSystem

  const Configs: Path := "configs"
  const Utils: Path := "utils"

  /** The directories created under the project, in creation order. */
  const Diretorios: seq<Path> := [Configs, Utils]

  /** One stub file: its path relative to the project and its text. */
  datatype Arquivo = Arquivo(nomeDirArquivo: Path, conteudo: string)

  /** The stub `configs/configs.json`, with the project name filled in. */
  function ConfigsJson(nome: string): string {
    "# Este e um exemplo do arquivo configs.json.\n"
    + "{\n"
    + "    \"nome_projeto\": \"" + nome + "\",\n"
    + "    \"versao\": \"1.0.0\",\n"
    + "    \"log_level\": \"INFO\",\n"
    + "    \"num_tentativas\": 3,\n"
    + "    \"tabelas_entrada\": [\n"
    + "        {\n"
    + "            \"path\": \"\",  # ex: catalog uri, bucket path.\n"
    + "            \"formato\": \"\"  # ex: parquet, csv, table, etc.\n"
    + "        }\n"
    + "    ],\n"
    + "    \"tabelas_saida\": [\n"
    + "        {\n"
    + "            \"path\": \"\",  # ex: catalog uri, bucket path.\n"
    + "            \"formato\": \"\"  # ex: parquet, csv, table, etc.\n"
    + "        }\n"
    + "    ]\n"
    + "}\n"
  }

  /** The relative paths of the stub files, in writing order. */
  const NomesArquivos: seq<Path> :=
    [Configs + "/" + "configs.json", Utils + "/" + "helpers.py", Utils + "/" + "validators.py", "job.py", "README.md"]

  /** The stub files of project `nome`, in writing order. The validators
      stub keeps the run of 24 blanks its source literal contains. */
  function Arquivos(nome: string): (r: seq<Arquivo>)
    ensures |r| == |NomesArquivos|
  {
    [ Arquivo(NomesArquivos[0], ConfigsJson(nome)),
      Arquivo(NomesArquivos[1], "# Este e um exemplo do arquivo utils/helpers.py\n"),
      Arquivo(NomesArquivos[2], "# Este e um exemplo do arquivo " + "                        " + "utils/validators.py\n"),
      Arquivo(NomesArquivos[3], "# Este e um exemplo do arquivo job.py\n"),
      Arquivo(NomesArquivos[4], "# " + nome + "\n") ]
  }

  /** What `cria_estrutura_projeto` returns: the directory paths and the
      file paths it visited, each joined onto the project name. */
  datatype Estrutura = Estrutura(diretorios: seq<Path>, arquivos: seq<Path>)

  function Sob(nome: string, rels: seq<Path>): (r: seq<Path>)
    ensures |r| == |rels|
  {
    seq(|rels|, i requires 0 <= i < |rels| => Join(nome, rels[i]))
  }

  function Caminhos(nome: string, arqs: seq<Arquivo>): (r: seq<Path>)
    ensures |r| == |arqs|
  {
    seq(|arqs|, i requires 0 <= i < |arqs| => Join(nome, arqs[i].nomeDirArquivo))
  }

  /** Puts `ps` in front of the list a successful run returns. */
  function Prepend(ps: seq<Path>, r: Run<seq<Path>>): Run<seq<Path>> {
    if r.result.Success? then Run(Success(ps + r.result.value), r.state) else r
  }

  lemma PrependNothing(r: Run<seq<Path>>)
    ensures Prepend([], r) == r
  {
    if r.result.Success? {
      assert [] + r.result.value == r.result.value;
    }
  }

  lemma PrependTwice(a: seq<Path>, b: seq<Path>, r: Run<seq<Path>>)
    ensures Prepend(a, Prepend(b, r)) == Prepend(a + b, r)
  {
    if r.result.Success? {
      assert a + (b + r.result.value) == (a + b) + r.result.value;
    }
  }

  /** The directory loop over `dirs`: `os.makedirs(join(nome, d), exist_ok=True)`
      for each `d`, stopping at the first error. */
  function CriaDiretorios(s: FsState, nome: string, dirs: seq<Path>): Run<seq<Path>>
    decreases |dirs|
  {
    if dirs == [] then Run(Success([]), s)
    else
      var p := Join(nome, dirs[0]);
      match AfterMakeDirs(s, p)
      case Failure(e) => Run(Failure(e), s)
      case Success(s1) => Prepend([p], CriaDiretorios(s1, nome, dirs[1..]))
  }

  /** One turn of the file loop: when nothing exists at `p`, create its
      parent directory and write `c` there. */
  function PassoArquivo(s: FsState, p: Path, c: string): Run<()> {
    if ExistsIn(s, p) then Run(Success(()), s)
    else
      match AfterMakeDirs(s, Dirname(p))
      case Failure(e) => Run(Failure(e), s)
      case Success(s1) =>
        match AfterWrite(s1, p, Text(c))
        case Failure(e) => Run(Failure(e), s1)
        case Success(s2) => Run(Success(()), s2)
  }

  /** The file loop over `arqs`, stopping at the first error. */
  function EscreveArquivos(s: FsState, nome: string, arqs: seq<Arquivo>): Run<seq<Path>>
    decreases |arqs|
  {
    if arqs == [] then Run(Success([]), s)
    else
      var p := Join(nome, arqs[0].nomeDirArquivo);
      var passo := PassoArquivo(s, p, arqs[0].conteudo);
      if passo.result.Failure? then Run(Failure(passo.result.error), passo.state)
      else Prepend([p], EscreveArquivos(passo.state, nome, arqs[1..]))
  }

  /** The whole of `cria_estrutura_projeto(nome)` started on `s`. */
  function Scaffold(s: FsState, nome: string): Run<Estrutura> {
    var d := CriaDiretorios(s, nome, Diretorios);
    if d.result.Failure? then Run(Failure(d.result.error), d.state)
    else
      var f := EscreveArquivos(d.state, nome, Arquivos(nome));
      if f.result.Failure? then Run(Failure(f.result.error), f.state)
      else Run(Success(Estrutura(d.result.value, f.result.value)), f.state)
  }

  /** `cria_estrutura_projeto` over the disk `disk`. */
  method CriaEstruturaProjeto(disk: Disk, nome: string) returns (r: Result<Estrutura, Exc>)
    modifies disk
    ensures Run(r, disk.State()) == Scaffold(old(disk.State()), nome)
  {
    var diretoriosCriados: seq<Path> := [];
    var arquivosCriados: seq<Path> := [];
    assert Diretorios[0..] == Diretorios;
    PrependNothing(CriaDiretorios(disk.State(), nome, Diretorios));
    for i := 0 to |Diretorios|
      invariant CriaDiretorios(old(disk.State()), nome, Diretorios)
             == Prepend(diretoriosCriados, CriaDiretorios(disk.State(), nome, Diretorios[i..]))
    {
      var dirPath := Join(nome, Diretorios[i]);
      assert Diretorios[i..][0] == Diretorios[i] && Diretorios[i..][1..] == Diretorios[i + 1..];
      var e := disk.MakeDirs(dirPath);
      if e.Some? {
        return Failure(e.value);
      }
      PrependTwice(diretoriosCriados, [dirPath], CriaDiretorios(disk.State(), nome, Diretorios[i + 1..]));
      diretoriosCriados := diretoriosCriados + [dirPath];
    }
    assert Diretorios[|Diretorios|..] == [] && diretoriosCriados + [] == diretoriosCriados;
    ghost var s1 := disk.State();
    assert CriaDiretorios(old(disk.State()), nome, Diretorios) == Run(Success(diretoriosCriados), s1);
    var arquivos := Arquivos(nome);
    assert arquivos[0..] == arquivos;
    PrependNothing(EscreveArquivos(disk.State(), nome, arquivos));
    for i := 0 to |arquivos|
      invariant EscreveArquivos(s1, nome, arquivos)
             == Prepend(arquivosCriados, EscreveArquivos(disk.State(), nome, arquivos[i..]))
    {
      var pathArquivo := Join(nome, arquivos[i].nomeDirArquivo);
      assert arquivos[i..][0] == arquivos[i] && arquivos[i..][1..] == arquivos[i + 1..];
      if !disk.Exists(pathArquivo) {
        var e := disk.MakeDirs(Dirname(pathArquivo));
        if e.Some? {
          return Failure(e.value);
        }
        e := disk.WriteFile(pathArquivo, Text(arquivos[i].conteudo));
        if e.Some? {
          return Failure(e.value);
        }
      }
      PrependTwice(arquivosCriados, [pathArquivo], EscreveArquivos(disk.State(), nome, arquivos[i + 1..]));
      arquivosCriados := arquivosCriados + [pathArquivo];
    }
    assert arquivos[|arquivos|..] == [] && arquivosCriados + [] == arquivosCriados;
    assert EscreveArquivos(s1, nome, arquivos) == Run(Success(arquivosCriados), disk.State());
    return Success(Estrutura(diretoriosCriados, arquivosCriados));
  }

  /** `t` is `s` with directories and files added: no directory removed,
      no existing file changed, the same paths refused. */
  predicate Cresce(s: FsState, t: FsState) {
    t.denied == s.denied && s.dirs <= t.dirs
    && forall q :: q in s.files ==> q in t.files && t.files[q] == s.files[q]
  }

  lemma CresceTransitivo(s: FsState, t: FsState, u: FsState)
    requires Cresce(s, t) && Cresce(t, u)
    ensures Cresce(s, u)
  {
  }

  lemma CaminhosDosArquivos(nome: string)
    ensures Caminhos(nome, Arquivos(nome)) == Sob(nome, NomesArquivos)
  {
  }

  /** The directory loop changes no file; on success it returned each
      joined path, and that directory and all its parents now exist and
      were files nowhere before. */
  lemma {:induction false} CriaDiretoriosEfeito(s: FsState, nome: string, dirs: seq<Path>)
    ensures var r := CriaDiretorios(s, nome, dirs);
      r.state.files == s.files && r.state.denied == s.denied && s.dirs <= r.state.dirs
      && (s.Valid() ==> r.state.Valid())
    ensures var r := CriaDiretorios(s, nome, dirs);
      r.result.Success? ==>
        r.result.value == Sob(nome, dirs)
        && forall i :: 0 <= i < |dirs| ==>
             Ancestry(Join(nome, dirs[i])) <= r.state.dirs && Ancestry(Join(nome, dirs[i])) !! s.files.Keys
    decreases |dirs|
  {
    if dirs != [] {
      var p := Join(nome, dirs[0]);
      match AfterMakeDirs(s, p)
      case Failure(_) =>
      case Success(s1) =>
        CriaDiretoriosEfeito(s1, nome, dirs[1..]);
        var r := CriaDiretorios(s1, nome, dirs[1..]);
        if r.result.Success? {
          SobCauda(nome, dirs);
          assert s1.files == s.files && Ancestry(p) <= s1.dirs;
          forall i | 0 <= i < |dirs|
            ensures Ancestry(Join(nome, dirs[i])) <= r.state.dirs && Ancestry(Join(nome, dirs[i])) !! s.files.Keys
          {
            if i > 0 {
              assert dirs[i] == dirs[1..][i - 1];
            }
          }
        }
    }
  }

  /** One turn of the file loop only adds; on success something exists
      at `p`, and if nothing did before, it is the file `c`. */
  lemma PassoArquivoEfeito(s: FsState, p: Path, c: string)
    ensures var r := PassoArquivo(s, p, c);
      Cresce(s, r.state) && (forall q :: q in r.state.files && q !in s.files ==> q == p)
      && (s.Valid() ==> r.state.Valid())
    ensures var r := PassoArquivo(s, p, c);
      r.result.Success? ==> ExistsIn(r.state, p) && (!ExistsIn(s, p) ==> p in r.state.files && r.state.files[p] == Text(c))
  {
  }

  /** The file loop only adds, and only files at its own paths; on
      success it returned those paths and something exists at each. */
  lemma {:induction false} EscreveArquivosEfeito(s: FsState, nome: string, arqs: seq<Arquivo>)
    ensures var r := EscreveArquivos(s, nome, arqs);
      Cresce(s, r.state) && (forall q :: q in r.state.files && q !in s.files ==> q in Caminhos(nome, arqs))
      && (s.Valid() ==> r.state.Valid())
    ensures var r := EscreveArquivos(s, nome, arqs);
      r.result.Success? ==>
        r.result.value == Caminhos(nome, arqs) && forall p :: p in Caminhos(nome, arqs) ==> ExistsIn(r.state, p)
    decreases |arqs|
  {
    if arqs != [] {
      var p := Join(nome, arqs[0].nomeDirArquivo);
      var passo := PassoArquivo(s, p, arqs[0].conteudo);
      PassoArquivoEfeito(s, p, arqs[0].conteudo);
      if passo.result.Success? {
        var t := passo.state;
        EscreveArquivosEfeito(t, nome, arqs[1..]);
        var r := EscreveArquivos(t, nome, arqs[1..]);
        CresceTransitivo(s, t, r.state);
        CaminhosCauda(nome, arqs);
      }
    }
  }

  /** A file the loop finds missing gets the text it declares; a later
      turn never replaces it, since the loop writes only where nothing
      exists. */
  lemma {:induction false} EscreveArquivosConteudo(s: FsState, nome: string, arqs: seq<Arquivo>, i: nat)
    requires Distinct(Caminhos(nome, arqs)) && i < |arqs|
    ensures var r := EscreveArquivos(s, nome, arqs); var p := Caminhos(nome, arqs)[i];
      r.result.Success? && p in r.state.files && p !in s.files ==> r.state.files[p] == Text(arqs[i].conteudo)
    decreases |arqs|
  {
    var p0 := Join(nome, arqs[0].nomeDirArquivo);
    var passo := PassoArquivo(s, p0, arqs[0].conteudo);
    PassoArquivoEfeito(s, p0, arqs[0].conteudo);
    if passo.result.Success? {
      var t := passo.state;
      var rest := arqs[1..];
      CaminhosCauda(nome, arqs);
      DistintoCauda(p0, Caminhos(nome, rest));
      EscreveArquivosEfeito(t, nome, rest);
      if i > 0 {
        assert rest[i - 1] == arqs[i];
        EscreveArquivosConteudo(t, nome, rest, i - 1);
      }
    }
  }

  lemma CaminhosCauda(nome: string, arqs: seq<Arquivo>)
    requires arqs != []
    ensures Caminhos(nome, arqs) == [Join(nome, arqs[0].nomeDirArquivo)] + Caminhos(nome, arqs[1..])
  {
  }

  lemma CaudaEm<T>(x: T, s: seq<T>, i: nat)
    requires i < |s|
    ensures ([x] + s)[i + 1] == s[i]
  {
  }

  lemma DistintoCauda<T>(x: T, s: seq<T>)
    requires Distinct([x] + s)
    ensures Distinct(s) && x !in s
  {
    forall i, j | 0 <= i < j < |s| ensures s[i] != s[j] {
      assert ([x] + s)[i + 1] == s[i] && ([x] + s)[j + 1] == s[j];
    }
    forall i | 0 <= i < |s| ensures s[i] != x {
      assert ([x] + s)[0] == x && ([x] + s)[i + 1] == s[i];
    }
  }

  lemma PrefixoCancela(h: Path, a: Path, b: Path)
    requires h + a <= h + b
    ensures a <= b
  {
    assert a == (h + a)[|h|..] && b[..|a|] == (h + b)[|h|..|h| + |a|];
  }

  lemma RelativosDistintos(nome: string, rels: seq<Path>)
    requires Distinct(rels) && forall i :: 0 <= i < |rels| ==> rels[i] == [] || rels[i][0] != '/'
    ensures Distinct(Sob(nome, rels))
  {
    forall i, j | 0 <= i < j < |rels| ensures Sob(nome, rels)[i] != Sob(nome, rels)[j] {
      var h := JoinHead(nome);
      assert rels[i] == (h + rels[i])[|h|..] && rels[j] == (h + rels[j])[|h|..];
    }
  }

  /** The five stub paths of a project are five different paths. */
  lemma CaminhosDistintos(nome: string)
    ensures Distinct(Sob(nome, NomesArquivos))
  {
    RelativosDistintos(nome, NomesArquivos);
  }

  /** No stub file lies on the way to a project directory, so writing the
      stubs never blocks the directories of a later run. */
  lemma ArquivoForaDoCaminho(nome: string, d: Path, f: Path)
    requires d in Diretorios && f in NomesArquivos
    ensures !(Join(nome, f) <= Join(nome, d)) && Join(nome, f) !in Ancestry(Join(nome, d))
  {
    if Join(nome, f) <= Join(nome, d) {
      PrefixoCancela(JoinHead(nome), f, d);
    }
  }

  lemma JuntoNaoVazio(nome: string, rel: Path)
    requires rel != [] && rel[0] != '/'
    ensures Join(nome, rel) != []
  {
  }

  /** Whatever the outcome, the run only added: no directory disappeared,
      no file that existed before changed, and every new file is one of
      the five stubs of the project. */
  lemma ScaffoldPreserva(s: FsState, nome: string)
    ensures var r := Scaffold(s, nome);
      Cresce(s, r.state)
      && (forall q :: q in r.state.files && q !in s.files ==> q in Sob(nome, NomesArquivos))
      && (s.Valid() ==> r.state.Valid())
  {
    var d := CriaDiretorios(s, nome, Diretorios);
    CriaDiretoriosEfeito(s, nome, Diretorios);
    if d.result.Success? {
      EscreveArquivosEfeito(d.state, nome, Arquivos(nome));
      CaminhosDosArquivos(nome);
      CresceTransitivo(s, d.state, EscreveArquivos(d.state, nome, Arquivos(nome)).state);
    }
  }

  /** On success the call returns the two directory paths and the five
      stub paths joined onto `nome`, whatever the disk held before. */
  lemma ScaffoldListas(s: FsState, nome: string)
    ensures var r := Scaffold(s, nome);
      r.result.Success? ==> r.result.value == Estrutura(Sob(nome, Diretorios), Sob(nome, NomesArquivos))
  {
    CriaDiretoriosEfeito(s, nome, Diretorios);
    var d := CriaDiretorios(s, nome, Diretorios);
    if d.result.Success? {
      EscreveArquivosEfeito(d.state, nome, Arquivos(nome));
      CaminhosDosArquivos(nome);
    }
  }

  /** After a success both project directories exist. */
  lemma ScaffoldDiretorios(s: FsState, nome: string)
    ensures var r := Scaffold(s, nome);
      r.result.Success? ==> forall p :: p in Sob(nome, Diretorios) ==> p in r.state.dirs
  {
    CriaDiretoriosEfeito(s, nome, Diretorios);
    var d := CriaDiretorios(s, nome, Diretorios);
    if d.result.Success? {
      var f := EscreveArquivos(d.state, nome, Arquivos(nome));
      EscreveArquivosEfeito(d.state, nome, Arquivos(nome));
      forall i | 0 <= i < |Diretorios| ensures Sob(nome, Diretorios)[i] in f.state.dirs {
        JuntoNaoVazio(nome, Diretorios[i]);
      }
    }
  }

  /** After a success something exists at each stub path: the stub, or
      whatever already stood there. */
  lemma ScaffoldArquivos(s: FsState, nome: string)
    ensures var r := Scaffold(s, nome);
      r.result.Success? ==> forall p :: p in Sob(nome, NomesArquivos) ==> ExistsIn(r.state, p)
  {
    var d := CriaDiretorios(s, nome, Diretorios);
    if d.result.Success? {
      EscreveArquivosEfeito(d.state, nome, Arquivos(nome));
      CaminhosDosArquivos(nome);
    }
  }

  /** After a successful run each stub path that is a file holds the text
      it held before, or, when it was not there before, the stub's text. */
  lemma ScaffoldConteudo(s: FsState, nome: string, i: nat)
    requires i < |NomesArquivos|
    ensures var r := Scaffold(s, nome); var p := Join(nome, NomesArquivos[i]);
      r.result.Success? && p in r.state.files ==>
        r.state.files[p] == if p in s.files then s.files[p] else Text(Arquivos(nome)[i].conteudo)
  {
    var d := CriaDiretorios(s, nome, Diretorios);
    CriaDiretoriosEfeito(s, nome, Diretorios);
    if d.result.Success? {
      CaminhosDosArquivos(nome);
      CaminhosDistintos(nome);
      EscreveArquivosEfeito(d.state, nome, Arquivos(nome));
      EscreveArquivosConteudo(d.state, nome, Arquivos(nome), i);
    }
  }

  /** `p` and every directory above it exist, and none is a file. */
  predicate JaCriado(t: FsState, p: Path) {
    p != [] && Ancestry(p) <= t.dirs && Ancestry(p) !! t.files.Keys
  }

  lemma MakeDirsRepete(t: FsState, p: Path)
    requires JaCriado(t, p)
    ensures AfterMakeDirs(t, p) == Success(t)
  {
    assert t.dirs + Ancestry(p) == t.dirs;
  }

  lemma {:induction false} CriaDiretoriosRepete(t: FsState, nome: string, dirs: seq<Path>)
    requires forall i :: 0 <= i < |dirs| ==> JaCriado(t, Join(nome, dirs[i]))
    ensures CriaDiretorios(t, nome, dirs) == Run(Success(Sob(nome, dirs)), t)
    decreases |dirs|
  {
    if dirs != [] {
      MakeDirsRepete(t, Join(nome, dirs[0]));
      forall i | 0 <= i < |dirs[1..]| ensures JaCriado(t, Join(nome, dirs[1..][i])) {
        assert dirs[1..][i] == dirs[i + 1];
      }
      CriaDiretoriosRepete(t, nome, dirs[1..]);
      SobCauda(nome, dirs);
    }
  }

  lemma SobCauda(nome: string, rels: seq<Path>)
    requires rels != []
    ensures Sob(nome, rels) == [Join(nome, rels[0])] + Sob(nome, rels[1..])
  {
  }

  lemma {:induction false} EscreveArquivosRepete(t: FsState, nome: string, arqs: seq<Arquivo>)
    requires forall p :: p in Caminhos(nome, arqs) ==> ExistsIn(t, p)
    ensures EscreveArquivos(t, nome, arqs) == Run(Success(Caminhos(nome, arqs)), t)
    decreases |arqs|
  {
    if arqs != [] {
      var p := Join(nome, arqs[0].nomeDirArquivo);
      CaminhosCauda(nome, arqs);
      EscreveArquivosRepete(t, nome, arqs[1..]);
    }
  }

  /** Running `cria_estrutura_projeto` again after a success changes
      nothing and returns the same lists: every directory is there and
      every stub path is taken. */
  lemma ScaffoldIdempotente(s: FsState, nome: string)
    requires Scaffold(s, nome).result.Success?
    ensures Scaffold(Scaffold(s, nome).state, nome) == Scaffold(s, nome)
  {
    var u := Scaffold(s, nome).state;
    ScaffoldListas(s, nome);
    DiretoriosJaCriados(s, nome);
    CriaDiretoriosRepete(u, nome, Diretorios);
    ScaffoldArquivos(s, nome);
    CaminhosDosArquivos(nome);
    EscreveArquivosRepete(u, nome, Arquivos(nome));
  }

  /** After a success both project directories and their parents exist on
      the disk left behind, and none of them is a file. */
  lemma DiretoriosJaCriados(s: FsState, nome: string)
    requires Scaffold(s, nome).result.Success?
    ensures forall i :: 0 <= i < |Diretorios| ==> JaCriado(Scaffold(s, nome).state, Join(nome, Diretorios[i]))
  {
    var d := CriaDiretorios(s, nome, Diretorios);
    CriaDiretoriosEfeito(s, nome, Diretorios);
    var f := EscreveArquivos(d.state, nome, Arquivos(nome));
    EscreveArquivosEfeito(d.state, nome, Arquivos(nome));
    CaminhosDosArquivos(nome);
    var ps := Sob(nome, NomesArquivos);
    assert Scaffold(s, nome).state == f.state;
    forall i | 0 <= i < |Diretorios| ensures JaCriado(f.state, Join(nome, Diretorios[i])) {
      var dp := Join(nome, Diretorios[i]);
      JuntoNaoVazio(nome, Diretorios[i]);
      forall k | 0 <= k < |ps| ensures ps[k] !in Ancestry(dp) {
        ArquivoForaDoCaminho(nome, Diretorios[i], NomesArquivos[k]);
      }
      JaCriadoDepois(s, d.state, f.state, ps, dp);
    }
  }

  lemma JaCriadoDepois(s: FsState, t: FsState, u: FsState, ps: seq<Path>, dp: Path)
    requires dp != [] && Ancestry(dp) <= t.dirs && Ancestry(dp) !! s.files.Keys && t.files == s.files
    requires Cresce(t, u) && forall q :: q in u.files && q !in t.files ==> q in ps
    requires forall k :: 0 <= k < |ps| ==> ps[k] !in Ancestry(dp)
    ensures JaCriado(u, dp)
  {
  }

  predicate SemBarra(p: Path) {
    '/' !in p
  }

  lemma {:induction false} LastSepSemBarra(h: Path, b: Path)
    requires SemBarra(b)
    ensures LastSep(h + b) == LastSep(h)
    decreases |b|
  {
    if b != [] {
      assert (h + b)[..|h + b| - 1] == h + b[..|b| - 1];
      LastSepSemBarra(h, b[..|b| - 1]);
    } else {
      assert h + b == h;
    }
  }

  lemma StripSepsUma(a: Path)
    requires a != [] && a[|a| - 1] != '/'
    ensures StripSeps(a + "/") == a
  {
    assert (a + "/")[..|a + "/"| - 1] == a;
  }

  /** `os.path.dirname(a + "/" + b)` is `a` when `b` holds no separator
      and `a` is non-empty and does not end in one. */
  lemma DirnameUltimo(a: Path, b: Path)
    requires a != [] && a[|a| - 1] != '/' && SemBarra(b)
    ensures Dirname(a + "/" + b) == a
  {
    var h := a + "/";
    assert a + "/" + b == h + b;
    LastSepSemBarra(h, b);
    assert LastSep(h) == |h|;
    assert (h + b)[..|h|] == h;
    StripSepsUma(a);
    assert !AllSeps(h) by {
      assert h[|a| - 1] == a[|a| - 1];
    }
  }

  /** `os.path.dirname` of a path without a separator is empty. */
  lemma DirnameSemBarra(b: Path)
    requires SemBarra(b)
    ensures Dirname(b) == []
  {
    LastSepSemBarra([], b);
    assert [] + b == b;
  }

  /** On a disk without files and refusals, the directory loop succeeds
      and adds only the directories on the way to each joined path. */
  lemma {:induction false} CriaDiretoriosLimpo(t: FsState, nome: string, dirs: seq<Path>)
    requires t.files == map[] && t.denied == {}
    requires forall i :: 0 <= i < |dirs| ==> Join(nome, dirs[i]) != []
    ensures var r := CriaDiretorios(t, nome, dirs);
      r.result.Success? && r.state.files == map[] && r.state.denied == {}
      && forall q :: q in r.state.dirs ==> q in t.dirs || exists i :: 0 <= i < |dirs| && q <= Join(nome, dirs[i])
    decreases |dirs|
  {
    if dirs != [] {
      var p := Join(nome, dirs[0]);
      var t1 := t.(dirs := t.dirs + Ancestry(p));
      assert AfterMakeDirs(t, p) == Success(t1);
      forall i | 0 <= i < |dirs[1..]| ensures Join(nome, dirs[1..][i]) != [] {
        assert dirs[1..][i] == dirs[i + 1];
      }
      CriaDiretoriosLimpo(t1, nome, dirs[1..]);
      var r := CriaDiretorios(t1, nome, dirs[1..]);
      forall q | q in r.state.dirs ensures q in t.dirs || exists i :: 0 <= i < |dirs| && q <= Join(nome, dirs[i]) {
        if q !in t1.dirs {
          var i :| 0 <= i < |dirs[1..]| && q <= Join(nome, dirs[1..][i]);
          assert dirs[1..][i] == dirs[i + 1];
        } else if q !in t.dirs {
          assert q <= Join(nome, dirs[0]);
        }
      }
    }
  }

  /** The conditions under which the file loop writes every stub: nothing
      at the stub paths, no file and no stub on the way to their parent
      directories, nothing refused. */
  predicate Livre(t: FsState, ps: seq<Path>) {
    forall i :: 0 <= i < |ps| ==> LivreEm(t, ps, ps[i])
  }

  predicate LivreEm(t: FsState, ps: seq<Path>, p: Path) {
    p != [] && p !in t.dirs && p !in t.files && p !in t.denied && Dirname(p) != []
    && (forall q :: q in Ancestry(Dirname(p)) ==> q !in t.files && q !in t.denied)
    && forall j :: 0 <= j < |ps| ==> !(ps[j] <= Dirname(p))
  }

  /** The state after one free turn of the file loop at `p`. */
  function Escrito(t: FsState, p: Path, c: string): FsState {
    t.(dirs := t.dirs + Ancestry(Dirname(p)), files := t.files[p := Text(c)])
  }

  lemma PassoLivre(t: FsState, ps: seq<Path>, c: string)
    requires ps != [] && Livre(t, ps)
    ensures PassoArquivo(t, ps[0], c) == Run(Success(()), Escrito(t, ps[0], c))
  {
    var p := ps[0];
    assert LivreEm(t, ps, p);
    var t1 := t.(dirs := t.dirs + Ancestry(Dirname(p)));
    assert AfterMakeDirs(t, Dirname(p)) == Success(t1);
    assert p !in Ancestry(Dirname(p)) by {
      assert !(ps[0] <= Dirname(ps[0]));
    }
    assert Dirname(p) in Ancestry(Dirname(p));
    assert AfterWrite(t1, p, Text(c)) == Success(Escrito(t, p, c));
  }

  lemma LivreResto(t: FsState, ps: seq<Path>, c: string)
    requires ps != [] && Distinct(ps) && Livre(t, ps)
    ensures Distinct(ps[1..]) && Livre(Escrito(t, ps[0], c), ps[1..])
  {
    var t2 := Escrito(t, ps[0], c);
    var pr := ps[1..];
    assert LivreEm(t, ps, ps[0]);
    forall i | 0 <= i < |pr| ensures LivreEm(t2, pr, pr[i]) {
      assert pr[i] == ps[i + 1];
      assert LivreEm(t, ps, ps[i + 1]);
      assert !(ps[i + 1] <= Dirname(ps[0])) && ps[0] != ps[i + 1];
      forall q | q in Ancestry(Dirname(pr[i])) ensures q !in t2.files {
        assert !(ps[0] <= Dirname(ps[i + 1]));
      }
      forall j | 0 <= j < |pr| ensures !(pr[j] <= Dirname(pr[i])) {
        assert pr[j] == ps[j + 1];
      }
    }
    forall i, j | 0 <= i < j < |pr| ensures pr[i] != pr[j] {
      assert pr[i] == ps[i + 1] && pr[j] == ps[j + 1];
    }
  }

  /** When the way is free the file loop succeeds and every stub file
      holds its own text. */
  lemma {:induction false} EscreveArquivosLivre(t: FsState, nome: string, arqs: seq<Arquivo>)
    requires Distinct(Caminhos(nome, arqs)) && Livre(t, Caminhos(nome, arqs))
    ensures var r := EscreveArquivos(t, nome, arqs);
      r.result == Success(Caminhos(nome, arqs))
      && forall i :: 0 <= i < |arqs| ==>
           Caminhos(nome, arqs)[i] in r.state.files && r.state.files[Caminhos(nome, arqs)[i]] == Text(arqs[i].conteudo)
    decreases |arqs|
  {
    if arqs != [] {
      var ps := Caminhos(nome, arqs);
      var rest := arqs[1..];
      var pr := Caminhos(nome, rest);
      assert ps[1..] == pr;
      var t2 := Escrito(t, ps[0], arqs[0].conteudo);
      PassoLivre(t, ps, arqs[0].conteudo);
      LivreResto(t, ps, arqs[0].conteudo);
      EscreveArquivosLivre(t2, nome, rest);
      EscreveArquivosEfeito(t2, nome, rest);
      var r := EscreveArquivos(t2, nome, rest);
      assert ps[0] == Join(nome, arqs[0].nomeDirArquivo);
      assert EscreveArquivos(t, nome, arqs) == Prepend([ps[0]], r);
      assert ps == [ps[0]] + pr;
      forall i | 0 <= i < |arqs|
        ensures ps[i] in r.state.files && r.state.files[ps[i]] == Text(arqs[i].conteudo)
      {
        if i > 0 {
          assert ps[i] == pr[i - 1] && arqs[i] == rest[i - 1];
        }
      }
    }
  }

  lemma DirnameTopo(nome: Path, f: Path)
    requires nome != [] && nome[|nome| - 1] != '/' && f != [] && SemBarra(f)
    ensures Dirname(Join(nome, f)) == nome
  {
    DirnameUltimo(nome, f);
  }

  lemma DirnameSob(nome: Path, d: Path, f: Path)
    requires nome != [] && nome[|nome| - 1] != '/' && d != [] && SemBarra(d) && SemBarra(f)
    ensures Dirname(Join(nome, d + "/" + f)) == Join(nome, d)
  {
    assert nome + "/" + (d + "/" + f) == (nome + "/" + d) + "/" + f;
    DirnameUltimo(nome + "/" + d, f);
  }

  lemma ArquivoForaDoNome(nome: string, f: Path)
    requires nome != [] && f in NomesArquivos
    ensures !(Join(nome, f) <= nome)
  {
  }

  /** The parent directory of a stub path of a plain project name is the
      project directory or one of its two subdirectories. */
  lemma DirnameEntre(nome: string, i: nat)
    requires nome != [] && SemBarra(nome) && i < |NomesArquivos|
    ensures var p := Dirname(Sob(nome, NomesArquivos)[i]);
      p == Join(nome, Configs) || p == Join(nome, Utils) || p == nome
  {
    assert Sob(nome, NomesArquivos)[i] == Join(nome, NomesArquivos[i]);
    if i == 0 {
      DirnameSob(nome, Configs, "configs.json");
    } else if i == 1 {
      DirnameSob(nome, Utils, "helpers.py");
    } else if i == 2 {
      DirnameSob(nome, Utils, "validators.py");
    } else {
      DirnameTopo(nome, NomesArquivos[i]);
    }
  }

  /** No stub path lies on the way to the parent directory of a stub. */
  lemma ForaDosPais(nome: string, i: nat, j: nat)
    requires nome != [] && SemBarra(nome) && i < |NomesArquivos| && j < |NomesArquivos|
    ensures !(Sob(nome, NomesArquivos)[j] <= Dirname(Sob(nome, NomesArquivos)[i]))
  {
    DirnameEntre(nome, i);
    ArquivoForaDoCaminho(nome, Configs, NomesArquivos[j]);
    ArquivoForaDoCaminho(nome, Utils, NomesArquivos[j]);
    ArquivoForaDoNome(nome, NomesArquivos[j]);
  }

  lemma LivreNovoEm(nome: string, t: FsState, i: nat)
    requires nome != [] && SemBarra(nome) && i < |NomesArquivos|
    requires forall q :: q in t.dirs ==> q <= Join(nome, Configs) || q <= Join(nome, Utils)
    ensures var p := Sob(nome, NomesArquivos)[i]; p != [] && p !in t.dirs && Dirname(p) != []
  {
    JuntoNaoVazio(nome, NomesArquivos[i]);
    ArquivoForaDoCaminho(nome, Configs, NomesArquivos[i]);
    ArquivoForaDoCaminho(nome, Utils, NomesArquivos[i]);
    DirnameEntre(nome, i);
    JuntoNaoVazio(nome, Configs);
    JuntoNaoVazio(nome, Utils);
  }

  /** Right after the directory loop on an empty disk, the way is free
      for all five stubs of a plain project name. */
  lemma LivreNovo(nome: string, t: FsState)
    requires nome != [] && SemBarra(nome) && t.files == map[] && t.denied == {}
    requires forall q :: q in t.dirs ==> q <= Join(nome, Configs) || q <= Join(nome, Utils)
    ensures Livre(t, Sob(nome, NomesArquivos))
  {
    var ps := Sob(nome, NomesArquivos);
    forall i | 0 <= i < |ps| ensures LivreEm(t, ps, ps[i]) {
      LivreNovoEm(nome, t, i);
      forall j | 0 <= j < |ps| ensures !(ps[j] <= Dirname(ps[i])) {
        ForaDosPais(nome, i, j);
      }
    }
  }

  /** The directory loop on an empty disk: it succeeds and creates only
      the directories on the way to the two project directories. */
  lemma DiretoriosNovos(nome: string)
    ensures var d := CriaDiretorios(FsState({}, map[], {}), nome, Diretorios);
      d.result == Success(Sob(nome, Diretorios)) && d.state.files == map[] && d.state.denied == {}
      && forall q :: q in d.state.dirs ==> q <= Join(nome, Configs) || q <= Join(nome, Utils)
  {
    var s := FsState({}, map[], {});
    JuntoNaoVazio(nome, Configs);
    JuntoNaoVazio(nome, Utils);
    CriaDiretoriosLimpo(s, nome, Diretorios);
    CriaDiretoriosEfeito(s, nome, Diretorios);
    var d := CriaDiretorios(s, nome, Diretorios);
    forall q | q in d.state.dirs ensures q <= Join(nome, Configs) || q <= Join(nome, Utils) {
      var i :| 0 <= i < |Diretorios| && q <= Join(nome, Diretorios[i]);
    }
  }

  /** `cria_estrutura_projeto` on an empty disk, for any plain project
      name: it succeeds, returns the joined directory and stub paths, and
      every stub holds its declared text. */
  lemma ProjetoNovo(nome: string)
    requires nome != [] && SemBarra(nome)
    ensures var r := Scaffold(FsState({}, map[], {}), nome);
      r.result == Success(Estrutura(Sob(nome, Diretorios), Sob(nome, NomesArquivos)))
      && forall i :: 0 <= i < |NomesArquivos| ==>
           Join(nome, NomesArquivos[i]) in r.state.files
           && r.state.files[Join(nome, NomesArquivos[i])] == Text(Arquivos(nome)[i].conteudo)
  {
    DiretoriosNovos(nome);
    var d := CriaDiretorios(FsState({}, map[], {}), nome, Diretorios);
    LivreNovo(nome, d.state);
    CaminhosDosArquivos(nome);
    CaminhosDistintos(nome);
    EscreveArquivosLivre(d.state, nome, Arquivos(nome));
    var f := EscreveArquivos(d.state, nome, Arquivos(nome));
    assert Scaffold(FsState({}, map[], {}), nome) == Run(Success(Estrutura(d.result.value, f.result.value)), f.state);
    forall i | 0 <= i < |NomesArquivos|
      ensures Join(nome, NomesArquivos[i]) in f.state.files
        && f.state.files[Join(nome, NomesArquivos[i])] == Text(Arquivos(nome)[i].conteudo)
    {
      assert Caminhos(nome, Arquivos(nome))[i] == Join(nome, NomesArquivos[i]);
    }
  }

  lemma PassoArquivoPastas(t: FsState, p: Path, c: string)
    ensures forall q :: q in PassoArquivo(t, p, c).state.dirs ==> q in t.dirs || q in Ancestry(Dirname(p))
  {
  }

  /** The directory loop creates no directory off the way to one of the
      joined paths. */
  lemma {:induction false} CriaDiretoriosPastas(s: FsState, nome: string, dirs: seq<Path>)
    ensures var r := CriaDiretorios(s, nome, dirs);
      forall q :: q in r.state.dirs ==> q in s.dirs || exists i :: 0 <= i < |dirs| && q in Ancestry(Join(nome, dirs[i]))
    decreases |dirs|
  {
    if dirs != [] {
      var p := Join(nome, dirs[0]);
      match AfterMakeDirs(s, p)
      case Failure(_) =>
      case Success(s1) =>
        CriaDiretoriosPastas(s1, nome, dirs[1..]);
        var r := CriaDiretorios(s1, nome, dirs[1..]);
        forall q | q in r.state.dirs
          ensures q in s.dirs || exists i :: 0 <= i < |dirs| && q in Ancestry(Join(nome, dirs[i]))
        {
          if q !in s1.dirs {
            var i :| 0 <= i < |dirs[1..]| && q in Ancestry(Join(nome, dirs[1..][i]));
            assert dirs[1..][i] == dirs[i + 1];
          } else if q !in s.dirs {
            assert q in Ancestry(Join(nome, dirs[0]));
          }
        }
    }
  }

  /** The file loop creates no directory off the way to a stub's parent. */
  lemma {:induction false} EscreveArquivosPastas(t: FsState, nome: string, arqs: seq<Arquivo>)
    ensures var r := EscreveArquivos(t, nome, arqs);
      forall q :: q in r.state.dirs ==> q in t.dirs || exists i :: 0 <= i < |arqs| && q in Ancestry(Dirname(Caminhos(nome, arqs)[i]))
    decreases |arqs|
  {
    if arqs != [] {
      var ps := Caminhos(nome, arqs);
      var passo := PassoArquivo(t, ps[0], arqs[0].conteudo);
      PassoArquivoPastas(t, ps[0], arqs[0].conteudo);
      if passo.result.Success? {
        var rest := arqs[1..];
        CaminhosCauda(nome, arqs);
        EscreveArquivosPastas(passo.state, nome, rest);
        var r := EscreveArquivos(passo.state, nome, rest);
        forall q | q in r.state.dirs
          ensures q in t.dirs || exists i :: 0 <= i < |arqs| && q in Ancestry(Dirname(ps[i]))
        {
          if q !in passo.state.dirs {
            var i :| 0 <= i < |rest| && q in Ancestry(Dirname(Caminhos(nome, rest)[i]));
            CaudaEm(ps[0], Caminhos(nome, rest), i);
          } else if q !in t.dirs {
            assert q in Ancestry(Dirname(ps[0]));
          }
        }
      }
    }
  }

  /** `q` is one of the directories `os.makedirs` creates for a path in `ps`. */
  predicate NaRota(q: Path, ps: seq<Path>) {
    exists i :: 0 <= i < |ps| && q in Ancestry(ps[i])
  }

  function Pais(ps: seq<Path>): (r: seq<Path>)
    ensures |r| == |ps|
  {
    seq(|ps|, i requires 0 <= i < |ps| => Dirname(ps[i]))
  }

  lemma {:induction false} FasesPastas(s: FsState, nome: string, dirs: seq<Path>, arqs: seq<Arquivo>)
    ensures var d := CriaDiretorios(s, nome, dirs);
      var t := if d.result.Failure? then d.state else EscreveArquivos(d.state, nome, arqs).state;
      forall q :: q in t.dirs ==>
        q in s.dirs || NaRota(q, Sob(nome, dirs)) || NaRota(q, Pais(Caminhos(nome, arqs)))
  {
    var d := CriaDiretorios(s, nome, dirs);
    CriaDiretoriosPastas(s, nome, dirs);
    assert forall q :: q in d.state.dirs && q !in s.dirs ==> NaRota(q, Sob(nome, dirs)) by {
      forall q | q in d.state.dirs && q !in s.dirs ensures NaRota(q, Sob(nome, dirs)) {
        var i :| 0 <= i < |dirs| && q in Ancestry(Join(nome, dirs[i]));
        assert Sob(nome, dirs)[i] == Join(nome, dirs[i]);
      }
    }
    if d.result.Success? {
      EscreveArquivosPastas(d.state, nome, arqs);
      var f := EscreveArquivos(d.state, nome, arqs);
      assert forall q :: q in f.state.dirs && q !in d.state.dirs ==> NaRota(q, Pais(Caminhos(nome, arqs))) by {
        forall q | q in f.state.dirs && q !in d.state.dirs
          ensures NaRota(q, Pais(Caminhos(nome, arqs)))
        {
          var i :| 0 <= i < |arqs| && q in Ancestry(Dirname(Caminhos(nome, arqs)[i]));
          assert Pais(Caminhos(nome, arqs))[i] == Dirname(Caminhos(nome, arqs)[i]);
        }
      }
    }
  }

  /** Whatever the outcome, every directory the run created lies on the
      way to one of the two project directories or to the parent of one of
      the stub files. */
  lemma ScaffoldPastas(s: FsState, nome: string)
    ensures var r := Scaffold(s, nome);
      forall q :: q in r.state.dirs ==>
        q in s.dirs || NaRota(q, Sob(nome, Diretorios)) || NaRota(q, Pais(Sob(nome, NomesArquivos)))
  {
    FasesPastas(s, nome, Diretorios, Arquivos(nome));
    CaminhosDosArquivos(nome);
  }

  lemma {:induction false} EscreveArquivosConcat(t: FsState, nome: string, a: seq<Arquivo>, b: seq<Arquivo>)
    ensures var ra := EscreveArquivos(t, nome, a);
      ra.result.Success? ==> EscreveArquivos(t, nome, a + b) == Prepend(ra.result.value, EscreveArquivos(ra.state, nome, b))
    decreases |a|
  {
    if a == [] {
      assert a + b == b;
      PrependNothing(EscreveArquivos(t, nome, b));
    } else {
      assert (a + b)[0] == a[0] && (a + b)[1..] == a[1..] + b;
      var p := Join(nome, a[0].nomeDirArquivo);
      var passo := PassoArquivo(t, p, a[0].conteudo);
      if passo.result.Success? {
        EscreveArquivosConcat(passo.state, nome, a[1..], b);
        var r1 := EscreveArquivos(passo.state, nome, a[1..]);
        if r1.result.Success? {
          PrependTwice([p], r1.result.value, EscreveArquivos(r1.state, nome, b));
        }
      }
    }
  }

  lemma Partes<T>(s: seq<T>, k: nat)
    requires k <= |s|
    ensures s == s[..k] + s[k..]
  {
  }

  /** The parent directories of the stub paths themselves. */
  lemma PaisDosStubs()
    ensures Dirname(NomesArquivos[0]) == Configs && Dirname(NomesArquivos[1]) == Utils
      && Dirname(NomesArquivos[2]) == Utils && Dirname(NomesArquivos[3]) == []
  {
    DirnameUltimo(Configs, "configs.json");
    DirnameUltimo(Utils, "helpers.py");
    DirnameUltimo(Utils, "validators.py");
    DirnameSemBarra(NomesArquivos[3]);
  }

  lemma MaisLongo(a: Path, b: Path)
    requires b != []
    ensures !(a + b <= a)
  {
  }

  lemma PrimeiroDifere(a: Path, c: Path)
    requires a != [] && c != [] && a[0] != c[0]
    ensures !(a <= c)
  {
  }

  /** Without a project name no stub path lies on the way to `configs`
      or `utils`. */
  lemma ForaDosDiretorios(i: nat)
    requires i < |NomesArquivos|
    ensures !(NomesArquivos[i] <= Configs) && !(NomesArquivos[i] <= Utils)
  {
    if i == 0 {
      MaisLongo(Configs, "/" + "configs.json");
      assert Configs + "/" + "configs.json" == Configs + ("/" + "configs.json");
      PrimeiroDifere(NomesArquivos[i], Utils);
    } else if i <= 2 {
      PrimeiroDifere(NomesArquivos[i], Configs);
      assert Utils + "/" + NomesArquivos[i][|Utils| + 1..] == Utils + ("/" + NomesArquivos[i][|Utils| + 1..]);
      MaisLongo(Utils, "/" + NomesArquivos[i][|Utils| + 1..]);
    } else {
      PrimeiroDifere(NomesArquivos[i], Configs);
      PrimeiroDifere(NomesArquivos[i], Utils);
    }
  }

  lemma PaisDosTres()
    ensures var ps := NomesArquivos[..3];
      forall i :: 0 <= i < |ps| ==> Dirname(ps[i]) == Configs || Dirname(ps[i]) == Utils
  {
    var ps := NomesArquivos[..3];
    PaisDosStubs();
    forall i | 0 <= i < |ps| ensures Dirname(ps[i]) == Configs || Dirname(ps[i]) == Utils {
      assert ps[i] == NomesArquivos[i];
    }
  }

  lemma JobNaoEhStub()
    ensures NomesArquivos[3] !in NomesArquivos[..3]
      && !(NomesArquivos[3] <= Configs) && !(NomesArquivos[3] <= Utils)
  {
    ForaDosDiretorios(3);
    var ps := NomesArquivos[..3];
    forall i | 0 <= i < |ps| ensures ps[i] != NomesArquivos[3] {
      assert ps[i] == NomesArquivos[i];
      assert ps[i][0] != NomesArquivos[3][0];
    }
  }

  /** On a disk without files and without refused paths nothing is in
      the way of `p` but directories. */
  lemma NadaNoCaminho(t: FsState, p: Path)
    requires t.files == map[] && t.denied == {}
    ensures p !in t.files && p !in t.denied
    ensures forall q :: q in Ancestry(Dirname(p)) ==> q !in t.files && q !in t.denied
  {
  }

  /** With an empty project name the three stubs under `configs` and
      `utils` have a free way on the disk the directory loop leaves. */
  lemma LivreVazio(t: FsState)
    requires t.files == map[] && t.denied == {}
    requires forall q :: q in t.dirs ==> q <= Configs || q <= Utils
    ensures Distinct(NomesArquivos[..3]) && Livre(t, NomesArquivos[..3])
  {
    var ps := NomesArquivos[..3];
    PaisDosTres();
    forall i | 0 <= i < |ps| ensures LivreEm(t, ps, ps[i]) {
      assert ps[i] == NomesArquivos[i];
      ForaDosDiretorios(i);
      NadaNoCaminho(t, ps[i]);
      forall j | 0 <= j < |ps| ensures !(ps[j] <= Dirname(ps[i])) {
        assert ps[j] == NomesArquivos[j];
        ForaDosDiretorios(j);
      }
    }
    CaminhosDistintos("");
    forall i, j | 0 <= i < j < |ps| ensures ps[i] != ps[j] {
      assert ps[i] == NomesArquivos[i] && ps[j] == NomesArquivos[j];
      assert Sob("", NomesArquivos)[i] == NomesArquivos[i] && Sob("", NomesArquivos)[j] == NomesArquivos[j];
    }
  }

  /** A path that is on the way to neither `configs` nor `utils`, and is
      none of the stubs written, is still free after they are written. */
  lemma AindaLivre(t: FsState, u: FsState, ps: seq<Path>, p: Path)
    requires t.files == map[] && forall q :: q in t.dirs ==> q <= Configs || q <= Utils
    requires forall i :: 0 <= i < |ps| ==> Dirname(ps[i]) == Configs || Dirname(ps[i]) == Utils
    requires forall q :: q in u.dirs ==> q in t.dirs || exists i :: 0 <= i < |ps| && q <= Dirname(ps[i])
    requires forall q :: q in u.files && q !in t.files ==> q in ps
    requires p !in ps && !(p <= Configs) && !(p <= Utils)
    ensures !ExistsIn(u, p)
  {
  }

  lemma CaminhosVazios()
    ensures Caminhos("", Arquivos("")[..3]) == NomesArquivos[..3]
  {
    var a := Arquivos("")[..3];
    forall i | 0 <= i < 3 ensures Caminhos("", a)[i] == NomesArquivos[..3][i] {
      assert a[i] == Arquivos("")[i];
    }
  }

  /** With an empty project name the first three stubs are written on the
      disk the directory loop leaves; it then holds no `job.py`. */
  lemma TresPrimeiros(t: FsState, a: seq<Arquivo>)
    requires Caminhos("", a) == NomesArquivos[..3]
    requires t.files == map[] && t.denied == {} && forall q :: q in t.dirs ==> q <= Configs || q <= Utils
    ensures var ra := EscreveArquivos(t, "", a); ra.result.Success? && !ExistsIn(ra.state, NomesArquivos[3])
  {
    LivreVazio(t);
    EscreveArquivosLivre(t, "", a);
    EscreveArquivosPastas(t, "", a);
    EscreveArquivosEfeito(t, "", a);
    PaisDosTres();
    JobNaoEhStub();
    AindaLivre(t, EscreveArquivos(t, "", a).state, NomesArquivos[..3], NomesArquivos[3]);
  }

  /** `cria_estrutura_projeto("")` on an empty disk: `job.py` has no
      directory part, so the `os.makedirs("")` before writing it raises
      FileNotFoundError. */
  lemma NomeVazio()
    ensures Scaffold(FsState({}, map[], {}), "").result == Failure(NotFound(""))
  {
    DiretoriosNovos("");
    var d := CriaDiretorios(FsState({}, map[], {}), "", Diretorios);
    var arqs := Arquivos("");
    var a := arqs[..3];
    assert Join("", Configs) == Configs && Join("", Utils) == Utils;
    CaminhosVazios();
    TresPrimeiros(d.state, a);
    var b := arqs[3..];
    Partes(arqs, 3);
    var ra := EscreveArquivos(d.state, "", a);
    EscreveArquivosConcat(d.state, "", a, b);
    var job := NomesArquivos[3];
    assert b[0].nomeDirArquivo == job && Join("", job) == job;
    PaisDosStubs();
    var erro := NotFound("");
    assert AfterMakeDirs(ra.state, Dirname(job)) == Failure(erro);
    assert EscreveArquivos(ra.state, "", b) == Run(Failure(erro), ra.state);
  }
}
