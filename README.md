# Hari: project scaffolding and data contracts, modelled in Dafny

Hari is a command-line tool for data-engineering projects. This project
models four of its parts:

- **Project scaffolding.** `cria_estrutura_projeto(nome_projeto)` creates the
  `configs` and `utils` directories of a new project. It then writes five stub
  files (`configs/configs.json`, `utils/helpers.py`, `utils/validators.py`,
  `job.py`, `README.md`) unless a file is already there. It returns the lists
  of directory and file paths it dealt with.
- **The contract object.** `Contrato` is a mutable record describing an output
  table: its name, format, partitions, path and columns, plus a description, an
  owner e-mail and an optional SLA. It renders itself as a document
  (`cria_contrato`) and saves that document as `<nome>/contratos/<nome>.yaml`
  (`salvar_contrato`).
- **The contract dialogue.** `cria_estrutura_contrato` asks the user, question
  by question, for a contract's data. The questions cover the columns, the
  partition columns chosen among them, and the SLA. It then builds and saves
  the contract.
- **The functional contract builder.** `contract(...)` assembles the same kind
  of document in one call, from arguments.

Files:

| file | module | what it holds |
|---|---|---|
| `wrappers.dfy` | `Wrappers` | `Option`, `Result`, the Python exceptions the core raises (`Exc`), Python truthiness of strings |
| `document.dfy` | `Document` | YAML-like values; a dict is an ordered list of entries with `Lookup`, `Get` (`dict.get`) and key lemmas |
| `filesystem.dfy` | `FileSystem` | POSIX `os.path.join` and `os.path.dirname`; `os.makedirs(exist_ok=True)` and `open(p, 'w')` as state transitions on an abstract filesystem; the mutable `Disk` |
| `contract.dfy` | `ContractBuilder` | `hari/cli/commands/contract.py` |
| `contrato.dfy` | `ContratoModel` | `hari/models/contrato.py`: attribute value `Campos`, pure `Construir`/`Salvar`, class `Contrato` |
| `contrato_dados.dfy` | `ContratoDados` | `hari/cli/contrato_dados.py`: prompt semantics over a script of typed lines, the dialogue as pure functions, and the methods that run it on a `Terminal` |
| `projeto.dfy` | `Projeto` | `hari/cli/projeto.py`: the fixed tables, the pure `Scaffold` fold, the method `CriaEstruturaProjeto`, and its properties |

Each imperative operation is a method whose `ensures` ties its result and new
state to a pure function of the old state. The properties are proved as lemmas
about that function. Examples are `CriaEstruturaProjeto` against `Scaffold`,
`CriaEstruturaContrato` against `Fluxo`, and `Contrato.SalvarContrato` against
`Salvar`.

Behaviour of the code that a reader might not expect:

- **Unset fields become null.** `cria_contrato` writes unset optional fields
  as null entries (`descricao`, `owner_email`, `particao`, `path`); it does not
  leave them out.
- **Repeat runs return the full directory list.** A second scaffolding run
  returns the same directory list as the first and changes nothing on the
  disk (`ScaffoldIdempotente`).
- **SLA and partition answers are never saved.** The dialogue attaches them
  to the public attributes `sla` and `colunas_particao`. `cria_contrato` reads
  the private `__sla` and `__tabela_saida_particao`, so the saved document
  never has an `sla` entry and its partition list is always null
  (`DocumentoDoDialogo`, `RespostasIgnoradas`).
- **The precision cannot be skipped.** The precision prompt tells the user to
  press Enter to skip, but it has no default, so Enter only asks again
  (`PrecisaoDe`).

Other behaviour of the code that the model makes explicit:

- For an absolute project name, the second `os.path.join` in
  `salvar_contrato` starts over. The YAML file then lands at `<nome>.yaml`,
  outside the `contratos` directory (`ArquivoAbsoluto`).
- With an empty project name, scaffolding fails with `FileNotFoundError` at
  `job.py`. That file has no directory part, so `os.makedirs('')` is called
  (`NomeVazio`).

## Model

| member | source | states |
|---|---|---|
| `FileSystem.Join` | hari/cli/projeto.py:72 | POSIX `os.path.join(a, b)`: a relative `b` comes right after `JoinHead(a)`; an absolute `b` is the whole result and `a` is discarded |
| `FileSystem.JoinTermina` | hari/cli/projeto.py:72 | the joined path always ends with `b`, and with a relative `b` it starts with `a` |
| `FileSystem.JoinHeadMantem` | hari/cli/projeto.py:77 | an `a` that is empty or already ends in `/` is kept unchanged, so `a/` joined with `b` is `a/b` and not `a//b` |
| `FileSystem.JoinHead` | hari/cli/projeto.py:77 | what precedes a relative `b` extends `a` by at most one character, is empty only for an empty `a`, and otherwise ends in `/`; `JoinHeadMantem` says when it is `a` itself |
| `FileSystem.Ancestry` | hari/cli/projeto.py:73 | the directories `makedirs` creates are non-empty prefixes of the path, the path itself among them; `AncestryExacta` says which prefixes |
| `FileSystem.AncestryExacta` | hari/cli/projeto.py:73 | they are exactly the non-empty prefixes that end where the path ends or just before a `/`, so every intermediate directory is created |
| `FileSystem.Dirname` | hari/cli/projeto.py:79 | `os.path.dirname` returns a prefix of its argument; `DirnameExacta` says which |
| `FileSystem.StripSepsExacta` | hari/cli/projeto.py:79 | stripping trailing separators drops only `/` characters and keeps a part that does not end in `/` |
| `FileSystem.DirnameExacta` | hari/cli/projeto.py:79 | `os.path.dirname` is the part before the last `/` with its trailing separators removed, unless that part is all separators; it is empty exactly when the path has no `/` |
| `FileSystem.AfterMakeDirs` | hari/cli/projeto.py:73 | `makedirs(p, exist_ok=True)` succeeds exactly when `p` is non-empty and no ancestor is a file or a denied, missing directory; on success it adds exactly the ancestry and keeps the filesystem consistent |
| `FileSystem.AfterWrite` | hari/cli/projeto.py:80-81 | `open(p, 'w').write(c)` succeeds exactly when `p` is not a directory, is not denied and its parent directory exists; on success only `p`'s content changes |
| `FileSystem.Disk.MakeDirs` | hari/cli/projeto.py:73 | the disk moves to the state `AfterMakeDirs` gives, or stays unchanged and returns the error |
| `FileSystem.Disk.WriteFile` | hari/cli/projeto.py:80-81 | the disk moves to the state `AfterWrite` gives, or stays unchanged and returns the error |
| `Document.Get` | hari/cli/commands/contract.py:74-77 | `dict.get(k, default)`: the stored value when the key is present, the default otherwise |
| `Document.LookupFinds` | hari/cli/commands/contract.py:62-87 | a lookup succeeds exactly for the dict's keys and returns one of its own entries |
| `ContractBuilder.OutputTable` | hari/cli/commands/contract.py:73-79 | the output table has exactly the keys name, path, format, partitioned_by, columns in that order; each takes the input's value or `''`/`''`/`'delta'`/`[]`, and columns is the given list |
| `ContractBuilder.Sla` | hari/cli/commands/contract.py:81-85 | the SLA is normalised to exactly frequency and tolerance, `''` when missing; other keys are dropped |
| `ContractBuilder.Contract` | hari/cli/commands/contract.py:62-87 | top-level keys are hari_version, created_at, name, then description and owner_email only when non-empty, output_table, then sla only when a non-empty mapping is given; no key appears twice |
| `ContractBuilder.ContractFields` | hari/cli/commands/contract.py:62-87 | every key holds its own input: description/owner_email exactly when truthy and then equal to the argument, the normalised output table and SLA |
| `ContractBuilder.RequiredOnly` | hari/cli/commands/contract.py:62-79 | with only the required arguments, the keys are exactly hari_version, created_at, name, output_table |
| `ContratoModel.CheckSla` | hari/models/contrato.py:35-41 | with `sla` set, a missing or empty frequency is refused first, then a missing or empty tolerance, each with its message; otherwise validation passes |
| `ContratoModel.Inicial` | hari/models/contrato.py:22-44 | the constructor stores version 1.0.0, the typing-object column placeholder and each of its arguments (name, table, format, description, owner, partition, path, creation date); SLA attributes exist only when the SLA is on and then hold the given values; after validation the object is coherent and those values are non-empty |
| `ContratoModel.TabelaSaida` | hari/models/contrato.py:109-115 | the output table sub-document has nome, formato, particao, path, colunas in order, unset ones as null |
| `ContratoModel.SlaDoc` | hari/models/contrato.py:119-122 | the SLA sub-document has exactly frequencia_atualizacao and sla_tolerancia with the stored values |
| `ContratoModel.Construir` | hari/models/contrato.py:102-124 | building succeeds exactly on coherent attributes; otherwise it raises the `AttributeError` of the missing frequency, or else of the missing tolerance; a built document is non-empty and has the contract keys in order |
| `ContratoModel.ConstruirCampos` | hari/models/contrato.py:102-124 | the built document has every attribute under its key in fixed order, unset optionals as null, and an `sla` entry exactly when the SLA flag is on |
| `ContratoModel.SlaDesligadoIgnorado` | hari/models/contrato.py:118-122 | with the SLA flag off, the SLA attributes never affect the document |
| `ContratoModel.ArquivoRelativo` | hari/models/contrato.py:131-134 | for a plain relative name the file is `<nome>/contratos/<nome>.yaml` |
| `ContratoModel.ArquivoAbsoluto` | hari/models/contrato.py:131-134 | for an absolute name the file is `<nome>.yaml`, not inside the `contratos` directory |
| `ContratoModel.Embrulha` | hari/models/contrato.py:139-142 | re-raising keeps a `ValueError` a `ValueError`, turns anything else into `Exception`, and prefixes the message |
| `ContratoModel.Salvar` | hari/models/contrato.py:126-142 | whatever the outcome, no file other than the contract file is created or changed, no directory is removed and the refused paths stay |
| `ContratoModel.SalvarSemContrato` | hari/models/contrato.py:126-140 | saving before building fails with the prefixed "not created" `ValueError` and leaves the filesystem as it was |
| `ContratoModel.SalvarErros` | hari/models/contrato.py:126-142 | every save error carries the prefix, and it is a `ValueError` exactly when nothing had been built |
| `ContratoModel.SalvarSucesso` | hari/models/contrato.py:130-138 | a save succeeds exactly when `makedirs` and the write both can; then only the contract file changes, to the document as YAML, and `contratos` and its parents exist |
| `ContratoModel.Contrato.Init` | hari/models/contrato.py:22-44 | the new object's attributes are exactly `Inicial` of the arguments, with no document built |
| `ContratoModel.Contrato.New` | hari/models/contrato.py:9-44 | construction fails exactly when the SLA check fails, with its error; otherwise a fresh valid object with the initial attributes |
| `ContratoModel.Contrato.FrequenciaAtualizacao` | hari/models/contrato.py:78-80 | the getter returns the value when the attribute exists and raises `AttributeError` otherwise |
| `ContratoModel.Contrato.SlaTolerancia` | hari/models/contrato.py:86-88 | the getter returns the value when the attribute exists and raises `AttributeError` otherwise |
| `ContratoModel.Contrato.SetParticao` | hari/models/contrato.py:50-52 | only the partition list changes |
| `ContratoModel.Contrato.SetPath` | hari/models/contrato.py:58-60 | only the path changes |
| `ContratoModel.Contrato.SetDescricao` | hari/models/contrato.py:66-68 | only the description changes |
| `ContratoModel.Contrato.SetOwnerEmail` | hari/models/contrato.py:74-76 | only the owner e-mail changes |
| `ContratoModel.Contrato.SetFrequenciaAtualizacao` | hari/models/contrato.py:82-84 | the attribute is created or replaced, so the getter succeeds with the value; nothing else changes |
| `ContratoModel.Contrato.SetSlaTolerancia` | hari/models/contrato.py:90-92 | the attribute is created or replaced, so the getter succeeds with the value; nothing else changes |
| `ContratoModel.Contrato.SetColunas` | hari/models/contrato.py:98-100 | only the column list changes |
| `ContratoModel.Contrato.CriaContrato` | hari/models/contrato.py:102-124 | stores a snapshot of the document; on `AttributeError` it keeps the previous document; attributes are untouched |
| `ContratoModel.Contrato.SalvarContrato` | hari/models/contrato.py:126-142 | the disk ends in the state `Salvar` gives and the error is the one `Salvar` raises |
| `ContratoDados.AskText` | hari/cli/contrato_dados.py:13-21 | a text prompt's answer comes from the first line it accepts, every line before it having been refused; it is never empty without a default |
| `ContratoDados.AskTextEnd` | hari/cli/contrato_dados.py:16-21 | a prompt without default runs out of input exactly when all remaining lines are empty; with a default it reads exactly one line |
| `ContratoDados.AskConfirm` | hari/cli/contrato_dados.py:35-38 | a yes/no answer comes from the first line read as yes, no or empty |
| `ContratoDados.AskConfirmSkips` | hari/cli/contrato_dados.py:35-38 | the question skips exactly the lines that are not yes, no or empty, and runs out exactly when every remaining line is such |
| `ContratoDados.ConfirmEnter` | hari/cli/contrato_dados.py:48-51 | an empty reply gives the question's default |
| `ContratoDados.SimNao` | hari/cli/contrato_dados.py:35-38 | `y` answers yes and `n` answers no, whatever the question's default |
| `ContratoDados.AskChoice` | hari/cli/contrato_dados.py:65-70 | a choice is `''` or one of the offered choices, taken from the first acceptable line, every line before it having been refused |
| `ContratoDados.ColunaDoc` | hari/cli/contrato_dados.py:41-51 | a column document has nome, tipo, precisao only when asked, eh_nulo, eh_unico, each holding the column's own answer |
| `ContratoDados.PrecisaoDe` | hari/cli/contrato_dados.py:44-47 | a precision is read exactly for float, decimal and double; it is then non-empty, otherwise no line is consumed |
| `ContratoDados.ColunaDe` | hari/cli/contrato_dados.py:41-51 | a completed column has a non-empty name and type and a precision exactly for the floating types; `ColunaPrimeiraVez` says which line is which field |
| `ContratoDados.ColunaPrimeiraVez` | hari/cli/contrato_dados.py:41-51 | with answers accepted at the first try, the first line is the column name and the second its type, the third the precision when the type is float, decimal or double, and the next two the nullable and unique flags; Enter on both gives nullable yes and unique no |
| `ContratoDados.ColunasFrom` | hari/cli/contrato_dados.py:33-52 | the loop only appends valid columns to those already read |
| `ContratoDados.EnterEncerraColunas` | hari/cli/contrato_dados.py:35-40 | once a column exists, Enter at "add a column?" ends the loop |
| `ContratoDados.EnterPrimeiraColuna` | hari/cli/contrato_dados.py:35-40 | with no column yet, Enter starts a column, so a finished loop has at least one |
| `ContratoDados.RemoveFirst` | hari/cli/contrato_dados.py:79 | `list.remove` drops exactly one occurrence of a present element and leaves the list alone otherwise |
| `ContratoDados.ParticoesFrom` | hari/cli/contrato_dados.py:64-92 | the partition loop only extends the list chosen so far |
| `ContratoDados.ParticoesValidas` | hari/cli/contrato_dados.py:64-92 | the pool and the chosen list stay a rearrangement of the column names; the result has no repeats and draws on the names |
| `ContratoDados.ParticoesDasColunas` | hari/cli/contrato_dados.py:61-92 | chosen partitions are distinct column names, at most as many as columns |
| `ContratoDados.RepetidaExigeDuplicata` | hari/cli/contrato_dados.py:73-76 | a choice already made is offered again only when two columns share that name |
| `ContratoDados.ParticoesDe` | hari/cli/contrato_dados.py:56-63 | with no columns nothing is asked and no partitions result |
| `ContratoDados.SlaDe` | hari/cli/contrato_dados.py:109-114 | an accepted SLA has non-empty frequency and tolerance; `SlaPrimeiraVez` says which line is which |
| `ContratoDados.SlaPrimeiraVez` | hari/cli/contrato_dados.py:109-114 | a no, or Enter, skips the SLA; after a yes the next line is the frequency and the one after it the tolerance |
| `ContratoDados.Cabecalho` | hari/cli/contrato_dados.py:13-21 | table name and format are non-empty; the description may be empty; `CabecalhoPrimeiraVez` says which line is which |
| `ContratoDados.CabecalhoPrimeiraVez` | hari/cli/contrato_dados.py:13-21 | with answers accepted at the first try, the first line is the description (kept even when empty), the second the table name and the third the format |
| `ContratoDados.Depois` | hari/cli/contrato_dados.py:55-117 | the questions after the columns consume at least one line; without columns no partition results; accepted SLA values are non-empty |
| `ContratoDados.Dialogo` | hari/cli/contrato_dados.py:13-117 | a finished dialogue consumed more than the three header lines, and has no partitions when it has no columns |
| `ContratoDados.DialogoValido` | hari/cli/contrato_dados.py:13-117 | a finished dialogue has non-empty table name and format, valid columns, distinct partitions taken from the column names, and non-empty SLA values |
| `ContratoDados.DialogoComSla` | tests/test_cli_contrato_dados.py:86-120 | the test's answers typed as lines give one `col1`/`int` column, no partitions, no owner and the SLA answers, and the dialogue's object then has frequency `diaria` and tolerance `1 hora` |
| `ContratoDados.CamposDe` | hari/cli/contrato_dados.py:23-117 | the dialogue's object has the project name, table and format answers, the dialogue's columns, description and owner only when non-empty, the accepted SLA answers as frequency and tolerance (unset when declined), the SLA flag off, no partition and no path, and is coherent |
| `ContratoDados.AplicaFinal` | hari/cli/contrato_dados.py:103-116 | the answers after the columns change only owner e-mail and SLA values: a non-empty owner answer becomes the owner, accepted SLA answers become frequency and tolerance; an empty owner answer and a declined SLA keep the old values; the object stays coherent |
| `ContratoDados.DocumentoDoDialogo` | hari/cli/contrato_dados.py:23-120 | the document always builds; it has no `sla` entry and a null partition list; description and owner are null when skipped; the columns are those entered |
| `ContratoDados.RespostasIgnoradas` | hari/cli/contrato_dados.py:93-117 | the SLA and partition answers never change the document |
| `ContratoDados.Fluxo` | hari/cli/contrato_dados.py:8-123 | whatever is answered, no file other than the contract file is created or changed, no directory is removed and the refused paths stay |
| `ContratoDados.FluxoArquivo` | hari/cli/contrato_dados.py:8-123 | an interrupted dialogue writes nothing; a successful run changes only the contract file, to the dialogue's document |
| `ContratoDados.Terminal.Prompt` | hari/cli/contrato_dados.py:13-15 | returns the answer `AskText` finds and moves the cursor past it |
| `ContratoDados.Terminal.Confirm` | hari/cli/contrato_dados.py:35-38 | returns the answer `AskConfirm` finds and moves the cursor past it |
| `ContratoDados.Terminal.Choose` | hari/cli/contrato_dados.py:65-70 | returns the answer `AskChoice` finds and moves the cursor past it |
| `ContratoDados.LerColuna` | hari/cli/contrato_dados.py:41-52 | reads exactly the column `ColunaDe` describes |
| `ContratoDados.LerColunas` | hari/cli/contrato_dados.py:33-53 | the loop reads exactly the columns `ColunasFrom` describes |
| `ContratoDados.EscolherParticoes` | hari/cli/contrato_dados.py:61-92 | the loop selects exactly the partitions `ParticoesFrom` describes |
| `ContratoDados.LerCabecalho` | hari/cli/contrato_dados.py:13-21 | reads the answers `Cabecalho` describes |
| `ContratoDados.LerParticoes` | hari/cli/contrato_dados.py:56-92 | reads the answers `ParticoesDe` describes |
| `ContratoDados.LerSla` | hari/cli/contrato_dados.py:109-117 | reads the answers `SlaDe` describes |
| `ContratoDados.PerguntarDepois` | hari/cli/contrato_dados.py:56-117 | reads the answers `Depois` describes and applies the owner and SLA setters to the object; sets the public `colunas_particao` to the partitions when there are any and `sla` to true when the SLA is accepted, and leaves each alone otherwise |
| `ContratoDados.Perguntar` | hari/cli/contrato_dados.py:12-117 | yields a fresh contract whose attributes are those the dialogue's answers determine, or nothing when the input ends; its public `colunas_particao` holds the partitions exactly when there are some and its public `sla` is true exactly when the SLA was accepted |
| `ContratoDados.CriaEstruturaContrato` | hari/cli/contrato_dados.py:8-123 | the disk ends as `Fluxo` says, and the error is the one `Fluxo` raises |
| `Projeto.CaminhosDosArquivos` | hari/cli/projeto.py:24-66 | the stub file paths are the project name joined with the five fixed relative names, in order |
| `Projeto.CaminhosDistintos` | hari/cli/projeto.py:24-66 | no two stub files share a path |
| `Projeto.ArquivoForaDoCaminho` | hari/cli/projeto.py:71-82 | no stub file path is a fixed directory or one of its ancestors |
| `Projeto.CriaEstruturaProjeto` | hari/cli/projeto.py:5-84 | the result and the new disk are those of `Scaffold` on the old disk |
| `Projeto.CriaDiretoriosEfeito` | hari/cli/projeto.py:71-74 | the directory loop (the fold `Projeto.CriaDiretorios`) touches no file; on success it returns the joined paths and all their ancestors exist |
| `Projeto.PassoArquivoEfeito` | hari/cli/projeto.py:77-82 | one file step (`Projeto.PassoArquivo`) never changes an existing file; on success the path exists and a new file holds the stub text |
| `Projeto.EscreveArquivosEfeito` | hari/cli/projeto.py:76-82 | the file loop (the fold `Projeto.EscreveArquivos`) only adds stub files; on success it returns every stub path, each of which exists |
| `Projeto.EscreveArquivosConteudo` | hari/cli/projeto.py:78-81 | every stub file the loop newly wrote holds its declared text |
| `Projeto.ScaffoldPreserva` | hari/cli/projeto.py:68-84 | scaffolding (`Projeto.Scaffold`, the whole function) never alters or removes an existing file, only adds stub files, and keeps the filesystem consistent |
| `Projeto.ScaffoldListas` | hari/cli/projeto.py:68-84 | on success, it returns the two joined directory paths and the five joined file paths, whether the files were written or already existed |
| `Projeto.ScaffoldDiretorios` | hari/cli/projeto.py:71-74 | on success, both project directories exist |
| `Projeto.ScaffoldArquivos` | hari/cli/projeto.py:76-82 | on success, every stub path exists |
| `Projeto.ScaffoldConteudo` | hari/cli/projeto.py:78-81 | on success, a stub path keeps its old content if it was a file before, and holds the stub text otherwise |
| `Projeto.MakeDirsRepete` | hari/cli/projeto.py:73 | `makedirs` of an existing directory chain is a no-op |
| `Projeto.CriaDiretoriosRepete` | hari/cli/projeto.py:71-74 | the directory loop over existing directories changes nothing and returns the full list |
| `Projeto.EscreveArquivosRepete` | hari/cli/projeto.py:76-82 | the file loop over existing paths writes nothing and returns the full list |
| `Projeto.ScaffoldIdempotente` | hari/cli/projeto.py:68-84 | running the scaffolding again after a success changes nothing and returns the same lists |
| `Projeto.DirnameSob` | hari/cli/projeto.py:79 | the parent of `nome/d/f` is `nome/d` |
| `Projeto.CriaDiretoriosLimpo` | hari/cli/projeto.py:71-74 | on a disk without files and without refused paths, the directory loop succeeds and creates only prefixes of the joined paths |
| `Projeto.EscreveArquivosLivre` | hari/cli/projeto.py:76-82 | the loop succeeds and every stub holds its text when the stub paths are distinct and each stub path is non-empty, exists neither as file nor directory and is not refused, has a non-empty parent, and has on the way to that parent no file, no refused path and no other stub path |
| `Projeto.EscreveArquivosPastas` | hari/cli/projeto.py:79 | the file loop creates no directory other than those `makedirs` creates for a stub's parent (its `Ancestry`) |
| `Projeto.CriaDiretoriosPastas` | hari/cli/projeto.py:71-74 | whatever the disk, the directory loop creates no directory other than those `makedirs` creates for one of the joined paths (its `Ancestry`) |
| `Projeto.FasesPastas` | hari/cli/projeto.py:68-82 | for any directory and file lists, the directory phase followed (on success) by the file phase creates no directory outside the `Ancestry` of a joined directory or of a stub's parent |
| `Projeto.ScaffoldPastas` | hari/cli/projeto.py:68-84 | whatever the disk and the outcome, every new directory is in the `Ancestry` of a project directory or of a stub file's parent, so no partial name such as `nome/con` appears |
| `Projeto.DiretoriosJaCriados` | hari/cli/projeto.py:71-82 | after a success both project directories and their parents exist and none is a file |
| `Projeto.ProjetoNovo` | hari/cli/projeto.py:68-84 | on an empty disk, a non-empty name without `/` gives `nome/configs`, `nome/utils` and the five stub paths, each holding its text |
| `Projeto.NomeVazio` | hari/cli/projeto.py:76-81 | an empty project name fails with `FileNotFoundError` on `''` when the loop reaches `job.py` |

## Left out

- The clock: the creation time `datetime.now()` is a parameter of the
  constructor and of the dialogue.
- Serialisation: the text `yaml.dump` produces is not modelled. A saved
  contract holds the document value itself (`Yaml(...)`).
- `ContratoModel.ColunasPadrao`: the typing object `List[Dict[str, str]]`,
  stored as the initial column list, is a named placeholder value. How YAML
  would render it is not modelled.
- `ContratoModel.Contrato.SetColunas`: takes column documents. The Python
  setter accepts any object.
- `ContratoModel.Contrato.SetParticao`: the Python setter stores any value;
  the model stores a list of strings.
- `ContratoModel.Contrato.SetPath`, `ContratoModel.Contrato.SetDescricao`,
  `ContratoModel.Contrato.SetOwnerEmail`: the Python setters accept any value,
  `None` included; the model takes a string and always stores `Some` of it.
  No modelled caller passes anything else.
- Console output: the `console.print` messages and colours, and the prompt
  texts, are not modelled. A prompt is known by its position in the dialogue.
- Terminal input: the user's input is a fixed script of lines.
- End of input: running out of lines at a `typer` prompt or confirm is
  `InputEnded("Aborted!")`, standing for click's abort.
- `ContratoDados.AskChoice`: running out of lines at the partition prompt,
  which is rich's `Prompt.ask`, lets Python's `EOFError` through with no
  "Aborted!" message; the model gives it the same `InputEnded("Aborted!")`
  as the other prompts, so it does not tell the two ends of input apart.
- `ContratoDados.Terminal.Choose`: the same end of input as `AskChoice`.
- Prompt parsing: `confirm` and `Prompt.ask` parsing is modelled for ASCII.
  `Lower` handles only ASCII letters. `Strip` removes the ASCII whitespace
  `str.strip` removes, 0x1C-0x1F included, but no non-ASCII whitespace.
- Typer's default rendering and its value conversion are not modelled.
- The filesystem: it is an abstract state of directory and file paths and a
  set of paths that cannot be created. The model has no permissions beyond
  that set, no symbolic links, no path normalisation (`a//b`, `a/./b`,
  trailing slashes are distinct paths), no concurrent changes, and no partial
  writes.
- OS errors: every OS failure is one `OSError` with the errno text of
  `FileNotFoundError`, `NotADirectoryError`, `FileExistsError`,
  `IsADirectoryError` or `PermissionError`. When several problems apply at
  once, the model picks one in a fixed order.
- `FileSystem.AfterMakeDirs`: the error message always names the path passed
  in. Python names the directory where the creation failed, such as
  `[Errno 20] Not a directory: 'a/b'` for `makedirs('a/b/c')` under a file
  `a/b`.
- `FileSystem.AfterMakeDirs`: a path with a NUL character raises
  `ValueError: embedded null byte` in Python. The model has no such check and
  treats it like any other path.
- `FileSystem.AfterMakeDirs`: a failure leaves the filesystem as it was.
  `os.makedirs` keeps the ancestors it created before the one that failed.
- `FileSystem.Disk.MakeDirs`: on failure the disk is unchanged, for the same
  reason. A directory created before the failing one is not kept.
- `FileSystem.AfterWrite`: a path with a NUL character raises `ValueError` in
  Python; the model has no such check. Its failure messages name `p`.
- `ContratoModel.SalvarErros`: because of the NUL gap above, the lemma does
  not cover a project name with a NUL character. Python re-raises that
  `ValueError` as a `ValueError`, so the "`ValueError` exactly when nothing
  was built" half does not hold for such names.
- `ContractBuilder.Contract`: in Python the returned dict holds the caller's
  `columns` list, and the objects taken from `output_table`, themselves, not
  copies. A later change to them shows in the contract. The model has only
  immutable values, so it says what the document holds when built and nothing
  about sharing.
- `hari/cli/app.py`, the Typer commands that call these functions, and the
  Spark session helpers are not part of this model.
