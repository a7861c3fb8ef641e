/** The contract object of `hari/models/contrato.py`: a mutable record of a
    data contract that renders itself as a document (`cria_contrato`) and
    writes that document to `<project>/contratos/<project>.yaml`
    (`salvar_contrato`). The object's attributes, taken together, are the
    value `Campos`; the pure functions over it say what each operation
    computes, and the class `Contrato` performs them in place. */
module ContratoModel {
  import opened Wrappers
  import opened Document
  import opened FileSystem

  /** The contract format version every new object carries. */
  const Versao: string := "1.0.0"

  /** What the constructor stores as the column list: the typing object
      `List[Dict[str, str]]` itself, not an empty list. */
  const ColunasPadrao: Value := TypeHint("typing.List[typing.Dict[str, str]]")

  /** The text every error of `salvar_contrato` starts with. */
  const Prefixo: string := "Erro ao salvar contrato: "

  const NaoCriado: string := "Contrato nao foi criado."

  /** The attributes of a `Contrato`, as one value. `frequencia` and
      `tolerancia` are `None` while the object has no such attribute at
      all; reading one then raises `AttributeError`. */
  datatype Campos = Campos(
    versao: string,
    dataCriacao: string,
    nomeProjeto: string,
    descricao: Option<string>,
    ownerEmail: Option<string>,
    tabelaSaida: string,
    tabelaSaidaFormato: string,
    particao: Option<seq<string>>,
    path: Option<string>,
    colunas: Value,
    sla: bool,
    frequencia: Option<string>,
    tolerancia: Option<string>)
  {
    /** With the SLA switched on, both SLA attributes exist. */
    predicate Coerente() {
      sla ==> frequencia.Some? && tolerancia.Some?
    }
  }

  /** The constructor's SLA validation: with `sla` set, a missing or empty
      frequency is refused first, then a missing or empty tolerance. */
  function CheckSla(sla: bool, frequencia: Option<string>, tolerancia: Option<string>): (r: Option<Exc>)
    ensures r.None? <==> !sla || (Given(frequencia) && Given(tolerancia))
    ensures sla && !Given(frequencia) ==> r == Some(ValueError("SLA deve ser definido se sla for True."))
    ensures sla && Given(frequencia) && !Given(tolerancia) ==>
      r == Some(ValueError("SLA tolerancia deve ser definido se sla for True."))
  {
    if !sla then None
    else if !Given(frequencia) then Some(ValueError("SLA deve ser definido se sla for True."))
    else if !Given(tolerancia) then Some(ValueError("SLA tolerancia deve ser definido se sla for True."))
    else None
  }

  /** The attributes right after `Contrato(...)`: the version, the
      column placeholder, the arguments as given, and SLA attributes
      created only when `sla` is set. A call that passes validation leaves
      a coherent object whose SLA values are then non-empty. */
  function Inicial(
    nomeProjeto: string, tabelaSaida: string, tabelaSaidaFormato: string, sla: bool,
    particao: Option<seq<string>>, path: Option<string>, descricao: Option<string>, ownerEmail: Option<string>,
    frequencia: Option<string>, tolerancia: Option<string>, dataCriacao: string): (c: Campos)
    ensures c.versao == Versao && c.colunas == ColunasPadrao && c.sla == sla
    ensures c.nomeProjeto == nomeProjeto && c.dataCriacao == dataCriacao && c.tabelaSaida == tabelaSaida
    ensures c.tabelaSaidaFormato == tabelaSaidaFormato && c.descricao == descricao && c.ownerEmail == ownerEmail
    ensures c.particao == particao && c.path == path
    ensures c.frequencia.Some? || c.tolerancia.Some? ==> sla
    ensures sla ==> c.frequencia == frequencia && c.tolerancia == tolerancia
    ensures CheckSla(sla, frequencia, tolerancia) == None ==>
      c.Coerente() && (sla ==> Given(c.frequencia) && Given(c.tolerancia))
  {
    Campos(Versao, dataCriacao, nomeProjeto, descricao, ownerEmail, tabelaSaida, tabelaSaidaFormato,
      particao, path, ColunasPadrao, sla,
      if sla then frequencia else None,
      if sla then tolerancia else None)
  }

  /** How a document shows an optional string: `None` becomes null. */
  function OptStr(o: Option<string>): (v: Value)
    ensures o.None? <==> v == Null
  {
    if o.Some? then Str(o.value) else Null
  }

  function Strs(ss: seq<string>): (vs: seq<Value>)
    ensures |vs| == |ss| && forall i :: 0 <= i < |ss| ==> vs[i] == Str(ss[i])
  {
    seq(|ss|, i requires 0 <= i < |ss| => Str(ss[i]))
  }

  /** How a document shows an optional list of strings. */
  function OptStrs(o: Option<seq<string>>): (v: Value)
    ensures o.None? <==> v == Null
    ensures o.Some? ==> v == List(Strs(o.value))
  {
    if o.Some? then List(Strs(o.value)) else Null
  }

  /** The six entries every contract document has, then `sla` when it is
      given; the values are left abstract. */
  function Forma(
    versao: Value, data: Value, nome: Value, descricao: Value, owner: Value, tabela: Value,
    sla: Option<Value>): seq<Entry>
  {
    [ Entry("versao", versao), Entry("data_criacao", data), Entry("nome", nome),
      Entry("descricao", descricao), Entry("owner_email", owner), Entry("tabela_saida", tabela) ]
    + (if sla.Some? then [Entry("sla", sla.value)] else [])
  }

  function ChavesContrato(comSla: bool): seq<string> {
    ["versao", "data_criacao", "nome", "descricao", "owner_email", "tabela_saida"]
    + (if comSla then ["sla"] else [])
  }

  lemma FormaChaves(
    versao: Value, data: Value, nome: Value, descricao: Value, owner: Value, tabela: Value,
    sla: Option<Value>)
    ensures Keys(Forma(versao, data, nome, descricao, owner, tabela, sla)) == ChavesContrato(sla.Some?)
    ensures Distinct(ChavesContrato(sla.Some?))
  {
  }

  /** Keys and lookups of any document of that form. */
  lemma FormaCampos(
    versao: Value, data: Value, nome: Value, descricao: Value, owner: Value, tabela: Value,
    sla: Option<Value>)
    ensures var d := Forma(versao, data, nome, descricao, owner, tabela, sla);
      && Keys(d) == ChavesContrato(sla.Some?)
      && Lookup(d, "versao") == Some(versao)
      && Lookup(d, "data_criacao") == Some(data)
      && Lookup(d, "nome") == Some(nome)
      && Lookup(d, "descricao") == Some(descricao)
      && Lookup(d, "owner_email") == Some(owner)
      && Lookup(d, "tabela_saida") == Some(tabela)
      && Lookup(d, "sla") == sla
  {
    var d := Forma(versao, data, nome, descricao, owner, tabela, sla);
    FormaChaves(versao, data, nome, descricao, owner, tabela, sla);
    LookupDistinct(d, 0); LookupDistinct(d, 1); LookupDistinct(d, 2);
    LookupDistinct(d, 3); LookupDistinct(d, 4); LookupDistinct(d, 5);
    if sla.Some? {
      LookupDistinct(d, 6);
    } else {
      LookupFinds(d, "sla");
    }
  }

  /** The `tabela_saida` sub-document. */
  function TabelaSaida(c: Campos): (t: seq<Entry>)
    ensures Keys(t) == ["nome", "formato", "particao", "path", "colunas"]
    ensures Lookup(t, "nome") == Some(Str(c.tabelaSaida))
    ensures Lookup(t, "formato") == Some(Str(c.tabelaSaidaFormato))
    ensures Lookup(t, "particao") == Some(OptStrs(c.particao))
    ensures Lookup(t, "path") == Some(OptStr(c.path))
    ensures Lookup(t, "colunas") == Some(c.colunas)
  {
    var t := [
      Entry("nome", Str(c.tabelaSaida)),
      Entry("formato", Str(c.tabelaSaidaFormato)),
      Entry("particao", OptStrs(c.particao)),
      Entry("path", OptStr(c.path)),
      Entry("colunas", c.colunas) ];
    assert Keys(t) == ["nome", "formato", "particao", "path", "colunas"];
    LookupDistinct(t, 0); LookupDistinct(t, 1); LookupDistinct(t, 2); LookupDistinct(t, 3); LookupDistinct(t, 4);
    t
  }

  /** The `sla` sub-document. */
  function SlaDoc(frequencia: string, tolerancia: string): (s: seq<Entry>)
    ensures Keys(s) == ["frequencia_atualizacao", "sla_tolerancia"]
    ensures Lookup(s, "frequencia_atualizacao") == Some(Str(frequencia))
    ensures Lookup(s, "sla_tolerancia") == Some(Str(tolerancia))
  {
    var s := [Entry("frequencia_atualizacao", Str(frequencia)), Entry("sla_tolerancia", Str(tolerancia))];
    assert Keys(s) == ["frequencia_atualizacao", "sla_tolerancia"];
    LookupDistinct(s, 0); LookupDistinct(s, 1);
    s
  }

  /** The message Python gives for reading a private attribute that was
      never created. */
  function SemAtributo(nome: string): Exc {
    AttributeError("'Contrato' object has no attribute '_Contrato__" + nome + "'")
  }

  /** `cria_contrato`: the document it builds, or the `AttributeError` it
      raises when the SLA is on and an SLA attribute does not exist. It
      succeeds exactly on coherent attributes, the frequency being looked
      up first, and a document it builds has the contract keys. */
  function Construir(c: Campos): (r: Result<seq<Entry>, Exc>)
    ensures r.Success? <==> c.Coerente()
    ensures r.Failure? ==>
      r.error == SemAtributo(if c.frequencia.None? then "frequencia_atualizacao" else "sla_tolerancia")
    ensures r.Success? ==> Keys(r.value) == ChavesContrato(c.sla) && r.value != []
  {
    if c.sla && c.frequencia.None? then Failure(SemAtributo("frequencia_atualizacao"))
    else if c.sla && c.tolerancia.None? then Failure(SemAtributo("sla_tolerancia"))
    else
      var sla := if c.sla then Some(Dict(SlaDoc(c.frequencia.value, c.tolerancia.value))) else None;
      FormaChaves(Str(c.versao), Str(c.dataCriacao), Str(c.nomeProjeto),
        OptStr(c.descricao), OptStr(c.ownerEmail), Dict(TabelaSaida(c)), sla);
      Success(Forma(
        Str(c.versao), Str(c.dataCriacao), Str(c.nomeProjeto),
        OptStr(c.descricao), OptStr(c.ownerEmail),
        Dict(TabelaSaida(c)), sla))
  }

  /** The document holds every attribute under its own key, in a fixed
      order: unset optional strings as null (not left out), the output
      table as its sub-document, and an `sla` entry exactly when the
      object's own SLA flag is on. */
  lemma ConstruirCampos(c: Campos)
    requires c.Coerente()
    ensures Construir(c).Success?
    ensures var d := Construir(c).value;
      && Keys(d) == ChavesContrato(c.sla)
      && Lookup(d, "versao") == Some(Str(c.versao))
      && Lookup(d, "data_criacao") == Some(Str(c.dataCriacao))
      && Lookup(d, "nome") == Some(Str(c.nomeProjeto))
      && Lookup(d, "descricao") == Some(OptStr(c.descricao))
      && Lookup(d, "owner_email") == Some(OptStr(c.ownerEmail))
      && Lookup(d, "tabela_saida") == Some(Dict(TabelaSaida(c)))
      && Lookup(d, "sla") ==
           (if c.sla then Some(Dict(SlaDoc(c.frequencia.value, c.tolerancia.value))) else None)
  {
    FormaCampos(
      Str(c.versao), Str(c.dataCriacao), Str(c.nomeProjeto),
      OptStr(c.descricao), OptStr(c.ownerEmail),
      Dict(TabelaSaida(c)),
      if c.sla then Some(Dict(SlaDoc(c.frequencia.value, c.tolerancia.value))) else None);
  }

  /** With the SLA flag off, the SLA attributes do not reach the document,
      whatever they hold. */
  lemma SlaDesligadoIgnorado(c: Campos, frequencia: Option<string>, tolerancia: Option<string>)
    requires !c.sla
    ensures Construir(c.(frequencia := frequencia, tolerancia := tolerancia)) == Construir(c)
  {
  }

  /** The file `salvar_contrato` writes: `<nome>.yaml` inside
      `<nome>/contratos`. */
  function ArquivoContrato(nome: string): Path {
    Join(Join(nome, "contratos"), nome + ".yaml")
  }

  /** For a plain relative project name the file is
      `<nome>/contratos/<nome>.yaml`. */
  lemma ArquivoRelativo(nome: string)
    requires nome != [] && nome[0] != '/' && nome[|nome| - 1] != '/'
    ensures ArquivoContrato(nome) == nome + "/contratos/" + nome + ".yaml"
  {
    assert Join(nome, "contratos") == nome + "/contratos";
  }

  /** For an absolute project name the second join starts over: the file
      is `<nome>.yaml` itself, outside the `contratos` directory. */
  lemma ArquivoAbsoluto(nome: string)
    requires nome != [] && nome[0] == '/'
    ensures ArquivoContrato(nome) == nome + ".yaml"
    ensures !(Join(nome, "contratos") + "/" <= ArquivoContrato(nome))
  {
    var f := nome + ".yaml";
    assert f[0] == '/';
    var dir := Join(nome, "contratos");
    if nome[|nome| - 1] == '/' {
      assert dir == nome + "contratos";
    } else {
      assert dir == nome + "/contratos";
    }
    assert f[|nome|] == '.';
  }

  /** How `salvar_contrato` re-raises: a `ValueError` stays one, anything
      else becomes a plain `Exception`; both get the prefix. */
  function Embrulha(e: Exc): (r: Exc)
    ensures r.ValueError? <==> e.ValueError?
    ensures !r.ValueError? ==> r.Exception?
    ensures r.message == Prefixo + e.message
  {
    if e.ValueError? then ValueError(Prefixo + e.message) else Exception(Prefixo + e.message)
  }

  /** `salvar_contrato` on filesystem `s` for a project `nome` whose built
      document is `contrato` (`None` before `cria_contrato`). A directory
      the call created stays when the write then fails. Whatever happens,
      no file other than `ArquivoContrato(nome)` is created or changed, no
      directory is removed, and the refused paths stay the same. */
  function Salvar(s: FsState, nome: string, contrato: Option<seq<Entry>>): (r: Run<()>)
    ensures r.state.denied == s.denied && s.dirs <= r.state.dirs
    ensures r.state.files.Keys <= s.files.Keys + {ArquivoContrato(nome)}
    ensures forall f :: f in s.files && f != ArquivoContrato(nome) ==> f in r.state.files && r.state.files[f] == s.files[f]
  {
    if contrato.None? || contrato.value == [] then
      Run(Failure(Embrulha(ValueError(NaoCriado))), s)
    else
      var dir := Join(nome, "contratos");
      match AfterMakeDirs(s, dir)
      case Failure(e) => Run(Failure(Embrulha(e)), s)
      case Success(s1) =>
        match AfterWrite(s1, Join(dir, nome + ".yaml"), Yaml(Dict(contrato.value)))
        case Failure(e) => Run(Failure(Embrulha(e)), s1)
        case Success(s2) => Run(Success(()), s2)
  }

  /** Saving before building is refused with a prefixed `ValueError` and
      touches nothing. */
  lemma SalvarSemContrato(s: FsState, nome: string)
    ensures Salvar(s, nome, None) == Run(Failure(ValueError(Prefixo + NaoCriado)), s)
  {
  }

  /** Every failure of a save carries the prefix, and it is a `ValueError`
      exactly when nothing had been built; filesystem errors come out as
      plain `Exception`. */
  lemma SalvarErros(s: FsState, nome: string, contrato: Option<seq<Entry>>)
    ensures var r := Salvar(s, nome, contrato).result;
      r.Failure? ==> Prefixo <= r.error.message && (r.error.ValueError? <==> contrato.None? || contrato.value == [])
  {
    var r := Salvar(s, nome, contrato).result;
    if r.Failure? {
      assert r.error.message == Prefixo + r.error.message[|Prefixo|..];
    }
  }

  /** A successful save leaves the `contratos` directory and its parents in
      place and the document as YAML at `ArquivoContrato(nome)`; every other
      file is as it was, and it succeeds exactly when both calls can. */
  lemma SalvarSucesso(s: FsState, nome: string, doc: seq<Entry>)
    requires doc != []
    ensures var r := Salvar(s, nome, Some(doc));
      r.result.Success? <==>
        AfterMakeDirs(s, Join(nome, "contratos")).Success? &&
        AfterWrite(AfterMakeDirs(s, Join(nome, "contratos")).value, ArquivoContrato(nome), Yaml(Dict(doc))).Success?
    ensures var r := Salvar(s, nome, Some(doc));
      r.result.Success? ==>
        && r.state.files == s.files[ArquivoContrato(nome) := Yaml(Dict(doc))]
        && r.state.dirs == s.dirs + Ancestry(Join(nome, "contratos"))
        && r.state.denied == s.denied
  {
  }

  /** The mutable contract object. The `slaPublico` and `colunasParticao`
      fields are the public attributes `sla` and `colunas_particao` that
      callers may attach from outside; they are distinct from the private
      attributes the methods read. */
  class Contrato {
    const versao: string
    const dataCriacao: string
    const nomeProjeto: string
    const tabelaSaida: string
    const tabelaSaidaFormato: string
    const sla: bool
    var descricao: Option<string>
    var ownerEmail: Option<string>
    var particao: Option<seq<string>>
    var path: Option<string>
    var colunas: Value
    var frequencia: Option<string>
    var tolerancia: Option<string>
    var contrato: Option<seq<Entry>>
    var slaPublico: Option<bool>
    var colunasParticao: Option<seq<string>>

    function Atributos(): Campos
      reads this
    {
      Campos(versao, dataCriacao, nomeProjeto, descricao, ownerEmail, tabelaSaida, tabelaSaidaFormato,
        particao, path, colunas, sla, frequencia, tolerancia)
    }

    predicate Valid()
      reads this
    {
      Atributos().Coerente()
    }

    /** The attribute assignments of `__init__`; validation is `New`'s. */
    constructor Init(
      nomeProjeto: string, tabelaSaida: string, tabelaSaidaFormato: string, sla: bool,
      particao: Option<seq<string>>, path: Option<string>, descricao: Option<string>, ownerEmail: Option<string>,
      frequencia: Option<string>, tolerancia: Option<string>, dataCriacao: string)
      ensures Atributos() == Inicial(nomeProjeto, tabelaSaida, tabelaSaidaFormato, sla, particao, path,
                                     descricao, ownerEmail, frequencia, tolerancia, dataCriacao)
      ensures contrato == None && slaPublico == None && colunasParticao == None
    {
      this.versao := Versao;
      this.dataCriacao := dataCriacao;
      this.nomeProjeto := nomeProjeto;
      this.descricao := descricao;
      this.ownerEmail := ownerEmail;
      this.tabelaSaida := tabelaSaida;
      this.tabelaSaidaFormato := tabelaSaidaFormato;
      this.particao := particao;
      this.path := path;
      this.colunas := ColunasPadrao;
      this.sla := sla;
      this.contrato := None;
      this.frequencia := if sla then frequencia else None;
      this.tolerancia := if sla then tolerancia else None;
      this.slaPublico := None;
      this.colunasParticao := None;
    }

    /** `Contrato(...)`: the object, or the `ValueError` of the SLA check.
        The creation time is a parameter. */
    static method New(
      nomeProjeto: string, tabelaSaida: string, tabelaSaidaFormato: string, sla: bool,
      particao: Option<seq<string>>, path: Option<string>, descricao: Option<string>, ownerEmail: Option<string>,
      frequencia: Option<string>, tolerancia: Option<string>, dataCriacao: string)
      returns (r: Result<Contrato, Exc>)
      ensures r.Failure? <==> CheckSla(sla, frequencia, tolerancia).Some?
      ensures r.Failure? ==> r.error == CheckSla(sla, frequencia, tolerancia).value
      ensures r.Success? ==>
        && fresh(r.value) && r.value.Valid() && r.value.contrato == None
        && r.value.Atributos() == Inicial(nomeProjeto, tabelaSaida, tabelaSaidaFormato, sla, particao, path,
                                          descricao, ownerEmail, frequencia, tolerancia, dataCriacao)
    {
      var e := CheckSla(sla, frequencia, tolerancia);
      if e.Some? {
        return Failure(e.value);
      }
      var c := new Contrato.Init(nomeProjeto, tabelaSaida, tabelaSaidaFormato, sla, particao, path,
                                 descricao, ownerEmail, frequencia, tolerancia, dataCriacao);
      return Success(c);
    }

    /** The `frequencia_atualizacao` property. */
    function FrequenciaAtualizacao(): (r: Result<string, Exc>)
      reads this
      ensures r.Success? <==> frequencia.Some?
      ensures r.Failure? ==> r.error == SemAtributo("frequencia_atualizacao")
    {
      if frequencia.Some? then Success(frequencia.value) else Failure(SemAtributo("frequencia_atualizacao"))
    }

    /** The `sla_tolerancia` property. */
    function SlaTolerancia(): (r: Result<string, Exc>)
      reads this
      ensures r.Success? <==> tolerancia.Some?
      ensures r.Failure? ==> r.error == SemAtributo("sla_tolerancia")
    {
      if tolerancia.Some? then Success(tolerancia.value) else Failure(SemAtributo("sla_tolerancia"))
    }

    method SetParticao(valor: seq<string>)
      modifies this
      ensures particao == Some(valor)
      ensures Atributos() == old(Atributos()).(particao := Some(valor))
      ensures contrato == old(contrato) && slaPublico == old(slaPublico) && colunasParticao == old(colunasParticao)
    {
      particao := Some(valor);
    }

    method SetPath(valor: string)
      modifies this
      ensures path == Some(valor)
      ensures Atributos() == old(Atributos()).(path := Some(valor))
      ensures contrato == old(contrato) && slaPublico == old(slaPublico) && colunasParticao == old(colunasParticao)
    {
      path := Some(valor);
    }

    method SetDescricao(valor: string)
      modifies this
      ensures descricao == Some(valor)
      ensures Atributos() == old(Atributos()).(descricao := Some(valor))
      ensures contrato == old(contrato) && slaPublico == old(slaPublico) && colunasParticao == old(colunasParticao)
    {
      descricao := Some(valor);
    }

    method SetOwnerEmail(valor: string)
      modifies this
      ensures ownerEmail == Some(valor)
      ensures Atributos() == old(Atributos()).(ownerEmail := Some(valor))
      ensures contrato == old(contrato) && slaPublico == old(slaPublico) && colunasParticao == old(colunasParticao)
    {
      ownerEmail := Some(valor);
    }

    /** Setting creates the attribute if it did not exist, so the getter
        succeeds from then on. */
    method SetFrequenciaAtualizacao(valor: string)
      modifies this
      ensures FrequenciaAtualizacao() == Success(valor)
      ensures Atributos() == old(Atributos()).(frequencia := Some(valor))
      ensures contrato == old(contrato) && slaPublico == old(slaPublico) && colunasParticao == old(colunasParticao)
    {
      frequencia := Some(valor);
    }

    method SetSlaTolerancia(valor: string)
      modifies this
      ensures SlaTolerancia() == Success(valor)
      ensures Atributos() == old(Atributos()).(tolerancia := Some(valor))
      ensures contrato == old(contrato) && slaPublico == old(slaPublico) && colunasParticao == old(colunasParticao)
    {
      tolerancia := Some(valor);
    }

    /** The `tabela_saida_colunas` setter, given the column documents. */
    method SetColunas(valor: seq<Value>)
      modifies this
      ensures colunas == List(valor)
      ensures Atributos() == old(Atributos()).(colunas := List(valor))
      ensures contrato == old(contrato) && slaPublico == old(slaPublico) && colunasParticao == old(colunasParticao)
    {
      colunas := List(valor);
    }

    /** `cria_contrato`: stores a snapshot of the current attributes as the
        document; later setter calls do not change the stored document. */
    method CriaContrato() returns (err: Option<Exc>)
      modifies this
      ensures Construir(old(Atributos())).Success? ==>
        err == None && contrato == Some(Construir(old(Atributos())).value)
      ensures Construir(old(Atributos())).Failure? ==>
        err == Some(Construir(old(Atributos())).error) && contrato == old(contrato)
      ensures Atributos() == old(Atributos())
      ensures slaPublico == old(slaPublico) && colunasParticao == old(colunasParticao)
    {
      var r := Construir(Atributos());
      if r.Success? {
        contrato := Some(r.value);
        err := None;
      } else {
        err := Some(r.error);
      }
    }

    /** `salvar_contrato` on `disk`. */
    method SalvarContrato(disk: Disk) returns (err: Option<Exc>)
      modifies disk
      ensures var run := Salvar(old(disk.State()), nomeProjeto, contrato);
        disk.State() == run.state && (err.None? <==> run.result.Success?)
        && (err.Some? ==> err.value == run.result.error)
    {
      if contrato.None? || contrato.value == [] {
        return Some(Embrulha(ValueError(NaoCriado)));
      }
      var dir := Join(nomeProjeto, "contratos");
      var e := disk.MakeDirs(dir);
      if e.Some? {
        return Some(Embrulha(e.value));
      }
      e := disk.WriteFile(Join(dir, nomeProjeto + ".yaml"), Yaml(Dict(contrato.value)));
      if e.Some? {
        return Some(Embrulha(e.value));
      }
      return None;
    }
  }
}
