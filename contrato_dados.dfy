/** The interactive contract dialogue of `hari/cli/contrato_dados.py`.
    The terminal is a fixed script of typed lines and a cursor into it;
    each prompt consumes lines until one is acceptable, as the prompt
    libraries do when they ask again. Running out of lines ends the
    dialogue with `InputEnded` before anything is written. */
module ContratoDados {
  import opened Wrappers
  import opened Document
  import opened FileSystem
  import opened ContratoModel

  /** What one prompt obtained: the answer and the index of the first line
      it did not consume, or the end of the input. */
  datatype Asked<T> = Got(value: T, next: nat) | Eof

  /** The abort a `typer` prompt raises when the input ends in the middle
      of it. The partition prompt's `EOFError` is given the same value. */
  const Fim: Exc := InputEnded("Aborted!")

  /** Whitespace as `str.strip` removes it, among the ASCII characters:
      blank, tab to carriage return, and the four separators 0x1C-0x1F. */
  predicate IsSpace(c: char) {
    c == ' ' || '\t' <= c <= '\r' || 0x1C <= c as int <= 0x1F
  }

  function Strip(s: string): string {
    if s != [] && IsSpace(s[0]) then Strip(s[1..])
    else if s != [] && IsSpace(s[|s| - 1]) then Strip(s[..|s| - 1])
    else s
  }

  /** `str.lower` on ASCII letters. */
  function Lower(s: string): string {
    seq(|s|, i requires 0 <= i < |s| => if 'A' <= s[i] <= 'Z' then (s[i] as int + 32) as char else s[i])
  }

  /** How `prompt(text, default=...)` takes one typed line: a non-empty line
      is the answer; an empty line gives the default, and is asked again
      when there is none. */
  function TextReply(line: string, default: Option<string>): Option<string> {
    if line != "" then Some(line) else default
  }

  /** How `confirm(text, default=...)` takes one typed line: `y`/`yes` and
      `n`/`no` in any case and surrounded by whitespace, or an empty reply
      for the default; anything else is asked again. */
  function ConfirmReply(line: string, default: bool): Option<bool> {
    var a := Strip(Lower(line));
    if a == "y" || a == "yes" then Some(true)
    else if a == "n" || a == "no" then Some(false)
    else if a == "" then Some(default)
    else None
  }

  /** How `Prompt.ask(text, choices=..., default='')` takes one typed line:
      an empty line gives `''`; otherwise the stripped line must be one of
      the choices. */
  function ChoiceReply(line: string, choices: seq<string>): Option<string> {
    if line == "" then Some("")
    else if Strip(line) in choices then Some(Strip(line))
    else None
  }

  /** A text prompt reading the script from line `k`: the answer comes
      from the first line it accepts; every line before it was refused. */
  function AskText(script: seq<string>, k: nat, default: Option<string>): (r: Asked<string>)
    decreases |script| - k
    ensures r.Got? ==> k < r.next <= |script| && TextReply(script[r.next - 1], default) == Some(r.value)
    ensures r.Got? ==> forall j :: k <= j < r.next - 1 ==> TextReply(script[j], default).None?
    ensures r.Got? && default.None? ==> r.value != ""
  {
    if k >= |script| then Eof
    else match TextReply(script[k], default)
      case Some(v) => Got(v, k + 1)
      case None => AskText(script, k + 1, default)
  }

  /** A yes/no question reading the script from line `k`. */
  function AskConfirm(script: seq<string>, k: nat, default: bool): (r: Asked<bool>)
    decreases |script| - k
    ensures r.Got? ==> k < r.next <= |script| && ConfirmReply(script[r.next - 1], default) == Some(r.value)
  {
    if k >= |script| then Eof
    else match ConfirmReply(script[k], default)
      case Some(v) => Got(v, k + 1)
      case None => AskConfirm(script, k + 1, default)
  }

  /** A choice among `choices` reading the script from line `k`: the answer
      is `''` or one of the choices, taken from the first acceptable line. */
  function AskChoice(script: seq<string>, k: nat, choices: seq<string>): (r: Asked<string>)
    decreases |script| - k
    ensures r.Got? ==> k < r.next <= |script| && ChoiceReply(script[r.next - 1], choices) == Some(r.value)
    ensures r.Got? ==> forall j :: k <= j < r.next - 1 ==> ChoiceReply(script[j], choices).None?
    ensures r.Got? ==> r.value == "" || r.value in choices
  {
    if k >= |script| then Eof
    else match ChoiceReply(script[k], choices)
      case Some(v) => Got(v, k + 1)
      case None => AskChoice(script, k + 1, choices)
  }

  /** A text prompt without a default is asked again on every empty line,
      so it meets the end of the input exactly when every remaining line is
      empty; with a default it never asks twice. */
  lemma {:induction false} AskTextEnd(script: seq<string>, k: nat, default: Option<string>)
    decreases |script| - k
    ensures default.None? ==>
      (AskText(script, k, default).Eof? <==> forall j :: k <= j < |script| ==> script[j] == "")
    ensures default.Some? && k < |script| ==> AskText(script, k, default).next == k + 1
  {
    if k < |script| && script[k] == "" && default.None? {
      AskTextEnd(script, k + 1, default);
    }
  }

  /** A yes/no question skips exactly the lines it cannot read as yes, no
      or empty. */
  lemma {:induction false} AskConfirmSkips(script: seq<string>, k: nat, default: bool)
    decreases |script| - k
    ensures var r := AskConfirm(script, k, default);
      r.Got? ==> forall j :: k <= j < r.next - 1 ==> ConfirmReply(script[j], default).None?
    ensures AskConfirm(script, k, default).Eof? <==>
      forall j :: k <= j < |script| ==> ConfirmReply(script[j], default).None?
  {
    if k < |script| && ConfirmReply(script[k], default).None? {
      AskConfirmSkips(script, k + 1, default);
    }
  }

  /** An empty line answers a yes/no question with its default. */
  lemma ConfirmEnter(default: bool)
    ensures ConfirmReply("", default) == Some(default)
  {
    assert Lower("") == "";
  }

  /** A column as the dialogue records it. */
  datatype Coluna = Coluna(nome: string, tipo: string, precisao: Option<string>, ehNulo: bool, ehUnico: bool)
  {
    /** Name and type are never empty; a precision is asked for, and then
        given, exactly for the floating types. */
    predicate Valid() {
      nome != "" && tipo != "" && (precisao.Some? <==> tipo in TiposComPrecisao)
      && (precisao.Some? ==> precisao.value != "")
    }
  }

  const TiposComPrecisao: seq<string> := ["float", "decimal", "double"]

  /** The column as a document: `precisao` only when it was asked for. */
  function ColunaDoc(c: Coluna): (v: Value)
    ensures v.Dict?
    ensures Keys(v.entries) ==
      ["nome", "tipo"] + (if c.precisao.Some? then ["precisao"] else []) + ["eh_nulo", "eh_unico"]
    ensures Lookup(v.entries, "nome") == Some(Str(c.nome))
    ensures Lookup(v.entries, "tipo") == Some(Str(c.tipo))
    ensures Lookup(v.entries, "precisao") == (if c.precisao.Some? then Some(Str(c.precisao.value)) else None)
    ensures Lookup(v.entries, "eh_nulo") == Some(Bool(c.ehNulo))
    ensures Lookup(v.entries, "eh_unico") == Some(Bool(c.ehUnico))
  {
    var e := [Entry("nome", Str(c.nome)), Entry("tipo", Str(c.tipo))]
      + (if c.precisao.Some? then [Entry("precisao", Str(c.precisao.value))] else [])
      + [Entry("eh_nulo", Bool(c.ehNulo)), Entry("eh_unico", Bool(c.ehUnico))];
    var n := if c.precisao.Some? then 1 else 0;
    assert Keys(e) == ["nome", "tipo"] + (if c.precisao.Some? then ["precisao"] else []) + ["eh_nulo", "eh_unico"];
    LookupDistinct(e, 0); LookupDistinct(e, 1); LookupDistinct(e, 2); LookupDistinct(e, 3);
    LookupDistinct(e, 2 + n); LookupDistinct(e, 3 + n); LookupFinds(e, "precisao");
    Dict(e)
  }

  function ColunasDoc(cs: seq<Coluna>): (vs: seq<Value>)
    ensures |vs| == |cs| && forall i :: 0 <= i < |cs| ==> vs[i] == ColunaDoc(cs[i])
  {
    seq(|cs|, i requires 0 <= i < |cs| => ColunaDoc(cs[i]))
  }

  function Nomes(cs: seq<Coluna>): (ns: seq<string>)
    ensures |ns| == |cs| && forall i :: 0 <= i < |cs| ==> ns[i] == cs[i].nome
  {
    seq(|cs|, i requires 0 <= i < |cs| => cs[i].nome)
  }

  /** The precision prompt, asked only for the floating types. Without a
      default it cannot be skipped with Enter, whatever its text says. */
  function PrecisaoDe(script: seq<string>, k: nat, tipo: string): (r: Asked<Option<string>>)
    ensures r.Got? && r.value.None? ==> r.next == k
    ensures r.Got? ==> (r.value.Some? <==> tipo in TiposComPrecisao)
    ensures r.Got? && r.value.Some? ==> k < r.next <= |script| && r.value.value != ""
  {
    if tipo in TiposComPrecisao then
      match AskText(script, k, None)
      case Eof => Eof
      case Got(p, k1) => Got(Some(p), k1)
    else Got(None, k)
  }

  /** The prompts for one column: name, type, precision when asked, nullable
      (default yes), unique (default no). */
  function ColunaDe(script: seq<string>, k: nat): (r: Asked<Coluna>)
    ensures r.Got? ==> k < r.next <= |script| && r.value.Valid()
  {
    match AskText(script, k, None)
    case Eof => Eof
    case Got(nome, k1) =>
      match AskText(script, k1, None)
      case Eof => Eof
      case Got(tipo, k2) =>
        match PrecisaoDe(script, k2, tipo)
        case Eof => Eof
        case Got(precisao, k3) =>
          match AskConfirm(script, k3, true)
          case Eof => Eof
          case Got(nulo, k4) =>
            match AskConfirm(script, k4, false)
            case Eof => Eof
            case Got(unico, k5) => Got(Coluna(nome, tipo, precisao, nulo, unico), k5)
  }

  /** Answers accepted at the first try: the first line is the name, the
      second the type, then the precision when the type has one, then the
      nullable and the unique flags; Enter gives nullable yes and unique no. */
  lemma ColunaPrimeiraVez(script: seq<string>, k: nat, n: string, t: string)
    requires k + 2 <= |script| && script[k] == n && script[k + 1] == t && n != "" && t != ""
    ensures var j := if t in TiposComPrecisao then k + 3 else k + 2;
      j + 2 <= |script| && (t in TiposComPrecisao ==> script[k + 2] != "")
      && ConfirmReply(script[j], true).Some? && ConfirmReply(script[j + 1], false).Some? ==>
        ColunaDe(script, k) == Got(Coluna(n, t, if t in TiposComPrecisao then Some(script[k + 2]) else None,
          ConfirmReply(script[j], true).value, ConfirmReply(script[j + 1], false).value), j + 2)
    ensures var j := if t in TiposComPrecisao then k + 3 else k + 2;
      j + 2 <= |script| && (t in TiposComPrecisao ==> script[k + 2] != "")
      && script[j] == "" && script[j + 1] == "" ==>
        ColunaDe(script, k) == Got(Coluna(n, t, if t in TiposComPrecisao then Some(script[k + 2]) else None, true, false), j + 2)
  {
    ConfirmEnter(true);
    ConfirmEnter(false);
  }

  /** The column loop from line `k` with `cols` read so far: the "add a
      column?" question defaults to yes only while no column exists. */
  function ColunasFrom(script: seq<string>, k: nat, cols: seq<Coluna>): (r: Asked<seq<Coluna>>)
    decreases |script| - k
    ensures r.Got? ==> cols <= r.value && k < r.next <= |script|
    ensures r.Got? ==> forall i :: |cols| <= i < |r.value| ==> r.value[i].Valid()
  {
    match AskConfirm(script, k, cols == [])
    case Eof => Eof
    case Got(add, k1) =>
      if !add then Got(cols, k1)
      else
        match ColunaDe(script, k1)
        case Eof => Eof
        case Got(c, k2) => ColunasFrom(script, k2, cols + [c])
  }

  /** With at least one column, Enter at the "add a column?" question
      ends the loop. */
  lemma EnterEncerraColunas(script: seq<string>, k: nat, cols: seq<Coluna>)
    requires cols != [] && k < |script| && script[k] == ""
    ensures ColunasFrom(script, k, cols) == Got(cols, k + 1)
  {
    assert Strip(Lower("")) == "";
  }

  /** With no column yet, Enter at the first question leads to reading a
      column, so a finished loop has at least one. */
  lemma EnterPrimeiraColuna(script: seq<string>, k: nat)
    requires k < |script| && script[k] == ""
    ensures ColunasFrom(script, k, []).Got? ==> |ColunasFrom(script, k, []).value| >= 1
  {
    assert Strip(Lower("")) == "";
    assert AskConfirm(script, k, true) == Got(true, k + 1);
  }

  /** `list.remove(x)`: drops the first occurrence. */
  function RemoveFirst(s: seq<string>, x: string): (r: seq<string>)
    ensures x in s ==> |r| == |s| - 1 && multiset(r) == multiset(s) - multiset{x}
    ensures x !in s ==> r == s
  {
    if s == [] then []
    else if s[0] == x then
      assert s == [s[0]] + s[1..];
      s[1..]
    else
      var t := RemoveFirst(s[1..], x);
      assert s == [s[0]] + s[1..];
      [s[0]] + t
  }

  /** The partition loop with `pool` still offered and `parts` chosen:
      Enter finishes, a new choice moves from the pool to the chosen list, a
      repeated one is only warned about; the loop also ends when the pool
      runs out or the "another?" question (default no) is declined. */
  function ParticoesFrom(script: seq<string>, k: nat, pool: seq<string>, parts: seq<string>): (r: Asked<seq<string>>)
    decreases |script| - k
    ensures r.Got? ==> parts <= r.value && k <= r.next
  {
    if pool == [] then Got(parts, k)
    else
      match AskChoice(script, k, pool)
      case Eof => Eof
      case Got(ch, k1) =>
        if ch == "" then Got(parts, k1)
        else
          var repetida := ch in parts;
          var pool' := if repetida then pool else RemoveFirst(pool, ch);
          var parts' := if repetida then parts else parts + [ch];
          if pool' == [] then Got(parts', k1)
          else
            match AskConfirm(script, k1, false)
            case Eof => Eof
            case Got(continuar, k2) =>
              if !continuar then Got(parts', k2) else ParticoesFrom(script, k2, pool', parts')
  }

  /** The partition loop keeps `pool` and `parts` together a rearrangement
      of the column names, so the chosen partitions are column names, none
      twice. */
  lemma {:induction false} ParticoesValidas(
    script: seq<string>, k: nat, pool: seq<string>, parts: seq<string>, names: seq<string>)
    requires multiset(pool) + multiset(parts) == multiset(names)
    requires Distinct(parts)
    ensures var r := ParticoesFrom(script, k, pool, parts);
      r.Got? ==> Distinct(r.value) && multiset(r.value) <= multiset(names)
    decreases |script| - k
  {
    if pool != [] {
      var a := AskChoice(script, k, pool);
      if a.Got? && a.value != "" {
        var ch := a.value;
        assert ch in pool;
        if ch !in parts {
          var pool' := RemoveFirst(pool, ch);
          var parts' := parts + [ch];
          assert multiset(pool') + multiset(parts') == multiset(names);
          assert Distinct(parts') by {
            forall i, j | 0 <= i < j < |parts'| ensures parts'[i] != parts'[j] {
              if j == |parts| {
                assert parts[i] in parts;
              }
            }
          }
          if pool' != [] {
            var c := AskConfirm(script, a.next, false);
            if c.Got? && c.value {
              ParticoesValidas(script, c.next, pool', parts', names);
            }
          }
        } else {
          if pool != [] {
            var c := AskConfirm(script, a.next, false);
            if c.Got? && c.value {
              ParticoesValidas(script, c.next, pool, parts, names);
            }
          }
        }
      }
    }
  }

  /** Every chosen partition is the name of a column, none is chosen
      twice, and there are at most as many as columns. */
  lemma ParticoesDasColunas(script: seq<string>, k: nat, cols: seq<Coluna>)
    ensures var r := ParticoesFrom(script, k, Nomes(cols), []);
      r.Got? ==> Distinct(r.value) && |r.value| <= |cols| && forall p :: p in r.value ==> p in Nomes(cols)
  {
    var names := Nomes(cols);
    assert multiset(names) + multiset([]) == multiset(names);
    ParticoesValidas(script, k, names, [], names);
    var r := ParticoesFrom(script, k, names, []);
    if r.Got? {
      SubMultiset(r.value, names);
    }
  }

  lemma SubMultiset(a: seq<string>, b: seq<string>)
    requires multiset(a) <= multiset(b)
    ensures |a| <= |b|
    ensures forall x :: x in a ==> x in b
  {
    var rest := multiset(b) - multiset(a);
    assert multiset(b) == multiset(a) + rest;
    assert |multiset(b)| == |multiset(a)| + |rest|;
    forall x | x in a ensures x in b {
      assert x in multiset(a);
    }
  }

  /** A choice already made can be offered again only when two columns
      share its name. */
  lemma RepetidaExigeDuplicata(pool: seq<string>, parts: seq<string>, names: seq<string>, ch: string)
    requires multiset(pool) + multiset(parts) == multiset(names)
    requires ch in pool && ch in parts
    ensures multiset(names)[ch] >= 2
  {
    assert multiset(pool)[ch] >= 1 && multiset(parts)[ch] >= 1;
  }

  /** The partition question, asked only when there are columns
      (default no). */
  function ParticoesDe(script: seq<string>, k: nat, cols: seq<Coluna>): (r: Asked<seq<string>>)
    ensures r.Got? ==> k <= r.next
    ensures r.Got? && cols == [] ==> r == Got([], k)
  {
    if cols == [] then Got([], k)
    else
      match AskConfirm(script, k, false)
      case Eof => Eof
      case Got(add, k1) =>
        if !add then Got([], k1) else ParticoesFrom(script, k1, Nomes(cols), [])
  }

  datatype SlaRespostas = SlaRespostas(frequencia: string, tolerancia: string)

  /** The SLA question (default no), then frequency and tolerance. */
  function SlaDe(script: seq<string>, k: nat): (r: Asked<Option<SlaRespostas>>)
    ensures r.Got? ==> k < r.next <= |script|
    ensures r.Got? && r.value.Some? ==> r.value.value.frequencia != "" && r.value.value.tolerancia != ""
  {
    match AskConfirm(script, k, false)
    case Eof => Eof
    case Got(sla, k1) =>
      if !sla then Got(None, k1)
      else
        match AskText(script, k1, None)
        case Eof => Eof
        case Got(f, k2) =>
          match AskText(script, k2, None)
          case Eof => Eof
          case Got(t, k3) => Got(Some(SlaRespostas(f, t)), k3)
  }

  /** Answers accepted at the first try: after a yes, the first line is the
      frequency and the second the tolerance; a no, or Enter, skips both. */
  lemma SlaPrimeiraVez(script: seq<string>, k: nat)
    requires k < |script| && ConfirmReply(script[k], false).Some?
    ensures !ConfirmReply(script[k], false).value ==> SlaDe(script, k) == Got(None, k + 1)
    ensures script[k] == "" ==> SlaDe(script, k) == Got(None, k + 1)
    ensures ConfirmReply(script[k], false).value && k + 3 <= |script| && script[k + 1] != "" && script[k + 2] != "" ==>
      SlaDe(script, k) == Got(Some(SlaRespostas(script[k + 1], script[k + 2])), k + 3)
  {
    ConfirmEnter(false);
  }

  /** Everything the dialogue asks, in order. */
  datatype Respostas = Respostas(
    descricao: string, tabelaSaida: string, formato: string,
    colunas: seq<Coluna>, particoes: seq<string>,
    ownerEmail: string, sla: Option<SlaRespostas>)

  function Cabecalho(script: seq<string>, k: nat): (r: Asked<(string, string, string)>)
    ensures r.Got? ==> k < r.next <= |script| && r.value.1 != "" && r.value.2 != ""
  {
    match AskText(script, k, Some(""))
    case Eof => Eof
    case Got(descricao, k1) =>
      match AskText(script, k1, None)
      case Eof => Eof
      case Got(tabela, k2) =>
        match AskText(script, k2, None)
        case Eof => Eof
        case Got(formato, k3) => Got((descricao, tabela, formato), k3)
  }

  /** Answers accepted at the first try: description, table name and
      format, in that order; an empty description is kept as empty. */
  lemma CabecalhoPrimeiraVez(script: seq<string>, k: nat)
    requires k + 3 <= |script| && script[k + 1] != "" && script[k + 2] != ""
    ensures Cabecalho(script, k) == Got((script[k], script[k + 1], script[k + 2]), k + 3)
  {
  }

  /** The answers given after the columns. */
  datatype Final = Final(particoes: seq<string>, ownerEmail: string, sla: Option<SlaRespostas>)

  /** The questions after the columns: partitions, owner e-mail, SLA. At
      least the owner prompt consumes a line; no partition is asked for
      without columns, and accepted SLA values are non-empty. */
  function Depois(script: seq<string>, k: nat, colunas: seq<Coluna>): (r: Asked<Final>)
    ensures r.Got? ==> k < r.next <= |script|
    ensures r.Got? && colunas == [] ==> r.value.particoes == []
    ensures r.Got? && r.value.sla.Some? ==> r.value.sla.value.frequencia != "" && r.value.sla.value.tolerancia != ""
  {
    match ParticoesDe(script, k, colunas)
    case Eof => Eof
    case Got(particoes, k5) =>
      match AskText(script, k5, Some(""))
      case Eof => Eof
      case Got(owner, k6) =>
        match SlaDe(script, k6)
        case Eof => Eof
        case Got(sla, k7) => Got(Final(particoes, owner, sla), k7)
  }

  /** The answers of a whole dialogue read from line `k`: a finished one
      has consumed at least the header and column lines, and has no
      partitions when it has no columns. */
  function Dialogo(script: seq<string>, k: nat): (r: Asked<Respostas>)
    ensures r.Got? ==> k + 3 < r.next <= |script|
    ensures r.Got? && r.value.colunas == [] ==> r.value.particoes == []
  {
    match Cabecalho(script, k)
    case Eof => Eof
    case Got(h, k3) =>
      match ColunasFrom(script, k3, [])
      case Eof => Eof
      case Got(colunas, k4) =>
        match Depois(script, k4, colunas)
        case Eof => Eof
        case Got(f, k7) => Got(Respostas(h.0, h.1, h.2, colunas, f.particoes, f.ownerEmail, f.sla), k7)
  }

  /** `y` and `n` answer a yes/no question whatever its default. */
  lemma SimNao(default: bool)
    ensures ConfirmReply("y", default) == Some(true) && ConfirmReply("n", default) == Some(false)
  {
    assert Lower("y") == "y" && Strip("y") == "y";
    assert Lower("n") == "n" && Strip("n") == "n";
  }

  /** The answers of tests/test_cli_contrato_dados.py:86-120 typed as
      lines: description skipped, table and format, one `col1`/`int`
      column (nullable, not unique), no more columns, no partitions, no
      owner, and the SLA `diaria` / `1 hora`. */
  const RoteiroComSla: seq<string> :=
    ["", "tabela_saida", "csv", "y", "col1", "int", "y", "n", "n", "n", "", "y", "diaria", "1 hora"]

  const ColunaDoTeste: Coluna := Coluna("col1", "int", None, true, false)

  lemma RoteiroColuna()
    ensures ColunaDe(RoteiroComSla, 4) == Got(ColunaDoTeste, 8)
  {
    SimNao(true);
    SimNao(false);
    ColunaPrimeiraVez(RoteiroComSla, 4, "col1", "int");
  }

  lemma RoteiroColunas()
    ensures ColunasFrom(RoteiroComSla, 3, []) == Got([ColunaDoTeste], 9)
  {
    SimNao(true);
    SimNao(false);
    assert AskConfirm(RoteiroComSla, 3, true) == Got(true, 4);
    RoteiroColuna();
    assert AskConfirm(RoteiroComSla, 8, false) == Got(false, 9);
    assert [] + [ColunaDoTeste] == [ColunaDoTeste];
    assert ColunasFrom(RoteiroComSla, 8, [ColunaDoTeste]) == Got([ColunaDoTeste], 9);
  }

  lemma RoteiroDepois()
    ensures Depois(RoteiroComSla, 9, [ColunaDoTeste]) == Got(Final([], "", Some(SlaRespostas("diaria", "1 hora"))), 14)
  {
    var script := RoteiroComSla;
    SimNao(false);
    assert AskConfirm(script, 9, false) == Got(false, 10);
    assert ParticoesDe(script, 9, [ColunaDoTeste]) == Got([], 10);
    assert AskText(script, 10, Some("")) == Got("", 11);
    SlaPrimeiraVez(script, 11);
  }

  /** The dialogue on that script ends with the SLA answers the test
      expects on the object: frequency `diaria`, tolerance `1 hora`. */
  lemma DialogoComSla()
    ensures var a := Respostas("", "tabela_saida", "csv", [ColunaDoTeste], [], "", Some(SlaRespostas("diaria", "1 hora")));
      && Dialogo(RoteiroComSla, 0) == Got(a, |RoteiroComSla|)
      && CamposDe("projeto3", "", a).frequencia == Some("diaria")
      && CamposDe("projeto3", "", a).tolerancia == Some("1 hora")
  {
    CabecalhoPrimeiraVez(RoteiroComSla, 0);
    RoteiroColunas();
    RoteiroDepois();
  }

  /** The answers of a finished dialogue are well formed: non-empty table
      name and format, valid columns, partitions that are distinct column
      names, and SLA values that are non-empty. */
  lemma DialogoValido(script: seq<string>, k: nat)
    ensures var d := Dialogo(script, k);
      d.Got? ==>
        && d.value.tabelaSaida != "" && d.value.formato != ""
        && (forall i :: 0 <= i < |d.value.colunas| ==> d.value.colunas[i].Valid())
        && Distinct(d.value.particoes)
        && (forall p :: p in d.value.particoes ==> p in Nomes(d.value.colunas))
        && (d.value.sla.Some? ==> d.value.sla.value.frequencia != "" && d.value.sla.value.tolerancia != "")
  {
    var d := Dialogo(script, k);
    if d.Got? {
      var h := Cabecalho(script, k);
      var c := ColunasFrom(script, h.next, []);
      var p := AskConfirm(script, c.next, false);
      if c.value != [] && p.Got? && p.value {
        ParticoesDasColunas(script, p.next, c.value);
      }
    }
  }

  /** The attributes the dialogue leaves on its `Contrato`: the constructor
      with only table and format, the description and owner set only when
      non-empty, the columns, and the SLA values through their setters. */
  function CamposDe(nome: string, dataCriacao: string, a: Respostas): (r: Campos)
    ensures r.versao == Versao && r.nomeProjeto == nome && r.dataCriacao == dataCriacao
    ensures r.tabelaSaida == a.tabelaSaida && r.tabelaSaidaFormato == a.formato
    ensures !r.sla && r.particao == None && r.path == None && r.Coerente()
    ensures r.colunas == List(ColunasDoc(a.colunas))
    ensures r.descricao == (if a.descricao != "" then Some(a.descricao) else None)
    ensures r.ownerEmail == (if a.ownerEmail != "" then Some(a.ownerEmail) else None)
    ensures r.frequencia == (if a.sla.Some? then Some(a.sla.value.frequencia) else None)
    ensures r.tolerancia == (if a.sla.Some? then Some(a.sla.value.tolerancia) else None)
  {
    var inicio := Inicial(nome, a.tabelaSaida, a.formato, false, None, None, None, None, None, None, dataCriacao);
    AplicaFinal(
      inicio.(descricao := if a.descricao != "" then Some(a.descricao) else None, colunas := List(ColunasDoc(a.colunas))),
      Final(a.particoes, a.ownerEmail, a.sla))
  }

  /** The setters the answers after the columns call: the owner e-mail
      when non-empty, the two SLA values when the SLA was accepted. The
      partitions go to an attribute outside `Campos`. */
  function AplicaFinal(x: Campos, f: Final): (r: Campos)
    ensures r.(ownerEmail := x.ownerEmail, frequencia := x.frequencia, tolerancia := x.tolerancia) == x
    ensures r.ownerEmail == (if f.ownerEmail != "" then Some(f.ownerEmail) else x.ownerEmail)
    ensures f.sla.Some? ==> r.frequencia == Some(f.sla.value.frequencia) && r.tolerancia == Some(f.sla.value.tolerancia)
    ensures f.sla.None? ==> r.frequencia == x.frequencia && r.tolerancia == x.tolerancia
    ensures x.Coerente() ==> r.Coerente()
  {
    x.(ownerEmail := if f.ownerEmail != "" then Some(f.ownerEmail) else x.ownerEmail,
       frequencia := if f.sla.Some? then Some(f.sla.value.frequencia) else x.frequencia,
       tolerancia := if f.sla.Some? then Some(f.sla.value.tolerancia) else x.tolerancia)
  }

  /** The document the dialogue saves: always built, without an `sla`
      entry and with a null partition list, whatever was answered about the
      SLA or the partitions; description and owner are null when skipped. */
  lemma DocumentoDoDialogo(nome: string, dataCriacao: string, a: Respostas)
    ensures Construir(CamposDe(nome, dataCriacao, a)).Success?
    ensures var d := Construir(CamposDe(nome, dataCriacao, a)).value;
      && Keys(d) == ChavesContrato(false)
      && Lookup(d, "nome") == Some(Str(nome))
      && Lookup(d, "versao") == Some(Str(Versao))
      && Lookup(d, "descricao") == Some(if a.descricao != "" then Str(a.descricao) else Null)
      && Lookup(d, "owner_email") == Some(if a.ownerEmail != "" then Str(a.ownerEmail) else Null)
      && Lookup(d, "sla") == None
      && Lookup(d, "tabela_saida") == Some(Dict(TabelaSaida(CamposDe(nome, dataCriacao, a))))
    ensures var t := TabelaSaida(CamposDe(nome, dataCriacao, a));
      && Lookup(t, "particao") == Some(Null)
      && Lookup(t, "colunas") == Some(List(ColunasDoc(a.colunas)))
  {
    ConstruirCampos(CamposDe(nome, dataCriacao, a));
  }

  /** The SLA and partition answers never change what is saved. */
  lemma RespostasIgnoradas(
    nome: string, dataCriacao: string, a: Respostas, particoes: seq<string>, sla: Option<SlaRespostas>)
    ensures Construir(CamposDe(nome, dataCriacao, a.(particoes := particoes, sla := sla)))
         == Construir(CamposDe(nome, dataCriacao, a))
  {
    SlaDesligadoIgnorado(CamposDe(nome, dataCriacao, a),
      if sla.Some? then Some(sla.value.frequencia) else None,
      if sla.Some? then Some(sla.value.tolerancia) else None);
  }

  /** The whole of `cria_estrutura_contrato` on filesystem `s`: whatever
      is answered, no file other than the contract file is created or
      changed, no directory is removed, and the refused paths stay. */
  function Fluxo(s: FsState, nome: string, dataCriacao: string, script: seq<string>, k: nat): (r: Run<()>)
    ensures r.state.denied == s.denied && s.dirs <= r.state.dirs
    ensures r.state.files.Keys <= s.files.Keys + {ArquivoContrato(nome)}
    ensures forall f :: f in s.files && f != ArquivoContrato(nome) ==> f in r.state.files && r.state.files[f] == s.files[f]
  {
    match Dialogo(script, k)
    case Eof => Run(Failure(Fim), s)
    case Got(a, _) =>
      match Construir(CamposDe(nome, dataCriacao, a))
      case Failure(e) => Run(Failure(e), s)
      case Success(doc) => Salvar(s, nome, Some(doc))
  }

  /** A dialogue cut short writes nothing; a finished one saves its
      document at the contract file and changes no other file. */
  lemma FluxoArquivo(s: FsState, nome: string, dataCriacao: string, script: seq<string>, k: nat)
    ensures Dialogo(script, k).Eof? ==> Fluxo(s, nome, dataCriacao, script, k) == Run(Failure(Fim), s)
    ensures var f := Fluxo(s, nome, dataCriacao, script, k);
      f.result.Success? ==>
        && Dialogo(script, k).Got?
        && f.state.files ==
             s.files[ArquivoContrato(nome) := Yaml(Dict(Construir(CamposDe(nome, dataCriacao, Dialogo(script, k).value)).value))]
  {
    var d := Dialogo(script, k);
    if d.Got? {
      var c := CamposDe(nome, dataCriacao, d.value);
      DocumentoDoDialogo(nome, dataCriacao, d.value);
      var doc := Construir(c).value;
      assert doc != [] by { FormaChaves(Str(c.versao), Str(c.dataCriacao), Str(c.nomeProjeto),
        OptStr(c.descricao), OptStr(c.ownerEmail), Dict(TabelaSaida(c)), None); }
      SalvarSucesso(s, nome, doc);
    }
  }

  /** The terminal: the lines the user will type, and how many have been
      read. */
  class Terminal {
    const script: seq<string>
    var pos: nat

    constructor (script: seq<string>)
      ensures this.script == script && pos == 0
    {
      this.script := script;
      pos := 0;
    }

    /** A text prompt: the answer `AskText` finds, and the cursor past it. */
    method Prompt(default: Option<string>) returns (r: Option<string>)
      modifies this
      ensures var a := AskText(script, old(pos), default);
        && (a.Got? ==> r == Some(a.value) && pos == a.next)
        && (a.Eof? ==> r == None && pos == old(pos))
    {
      var a := AskText(script, pos, default);
      if a.Got? {
        r := Some(a.value);
        pos := a.next;
      } else {
        r := None;
      }
    }

    method Confirm(default: bool) returns (r: Option<bool>)
      modifies this
      ensures var a := AskConfirm(script, old(pos), default);
        && (a.Got? ==> r == Some(a.value) && pos == a.next)
        && (a.Eof? ==> r == None && pos == old(pos))
    {
      var a := AskConfirm(script, pos, default);
      if a.Got? {
        r := Some(a.value);
        pos := a.next;
      } else {
        r := None;
      }
    }

    method Choose(choices: seq<string>) returns (r: Option<string>)
      modifies this
      ensures var a := AskChoice(script, old(pos), choices);
        && (a.Got? ==> r == Some(a.value) && pos == a.next)
        && (a.Eof? ==> r == None && pos == old(pos))
    {
      var a := AskChoice(script, pos, choices);
      if a.Got? {
        r := Some(a.value);
        pos := a.next;
      } else {
        r := None;
      }
    }
  }

  method LerColuna(term: Terminal) returns (r: Option<Coluna>)
    modifies term
    ensures var a := ColunaDe(term.script, old(term.pos));
      && (a.Got? ==> r == Some(a.value) && term.pos == a.next)
      && (a.Eof? ==> r == None)
  {
    var nome := term.Prompt(None);
    if nome.None? { return None; }
    var tipo := term.Prompt(None);
    if tipo.None? { return None; }
    var precisao: Option<string> := None;
    if tipo.value in TiposComPrecisao {
      var p := term.Prompt(None);
      if p.None? { return None; }
      precisao := Some(p.value);
    }
    var nulo := term.Confirm(true);
    if nulo.None? { return None; }
    var unico := term.Confirm(false);
    if unico.None? { return None; }
    return Some(Coluna(nome.value, tipo.value, precisao, nulo.value, unico.value));
  }

  /** The column loop. */
  method LerColunas(term: Terminal) returns (r: Option<seq<Coluna>>)
    modifies term
    ensures var a := ColunasFrom(term.script, old(term.pos), []);
      && (a.Got? ==> r == Some(a.value) && term.pos == a.next)
      && (a.Eof? ==> r == None)
  {
    var cols: seq<Coluna> := [];
    while true
      invariant ColunasFrom(term.script, old(term.pos), []) == ColunasFrom(term.script, term.pos, cols)
      decreases |term.script| - term.pos
    {
      var add := term.Confirm(cols == []);
      if add.None? { return None; }
      if !add.value { break; }
      var c := LerColuna(term);
      if c.None? { return None; }
      cols := cols + [c.value];
    }
    return Some(cols);
  }

  /** The partition loop over the column names `nomes`. */
  method EscolherParticoes(term: Terminal, nomes: seq<string>) returns (r: Option<seq<string>>)
    modifies term
    ensures var a := ParticoesFrom(term.script, old(term.pos), nomes, []);
      && (a.Got? ==> r == Some(a.value) && term.pos == a.next)
      && (a.Eof? ==> r == None)
  {
    var pool := nomes;
    var parts: seq<string> := [];
    while pool != []
      invariant ParticoesFrom(term.script, old(term.pos), nomes, []) == ParticoesFrom(term.script, term.pos, pool, parts)
      decreases |term.script| - term.pos
    {
      var ch := term.Choose(pool);
      if ch.None? { return None; }
      if ch.value == "" { break; }
      if ch.value !in parts {
        parts := parts + [ch.value];
        pool := RemoveFirst(pool, ch.value);
      }
      if pool == [] { break; }
      var continuar := term.Confirm(false);
      if continuar.None? { return None; }
      if !continuar.value { break; }
    }
    return Some(parts);
  }

  /** The description, table and format prompts. */
  method LerCabecalho(term: Terminal) returns (r: Option<(string, string, string)>)
    modifies term
    ensures var a := Cabecalho(term.script, old(term.pos));
      && (a.Got? ==> r == Some(a.value) && term.pos == a.next)
      && (a.Eof? ==> r == None)
  {
    var descricao := term.Prompt(Some(""));
    if descricao.None? { return None; }
    var tabela := term.Prompt(None);
    if tabela.None? { return None; }
    var formato := term.Prompt(None);
    if formato.None? { return None; }
    return Some((descricao.value, tabela.value, formato.value));
  }

  /** The partition question and, when accepted, the partition loop. */
  method LerParticoes(term: Terminal, colunas: seq<Coluna>) returns (r: Option<seq<string>>)
    modifies term
    ensures var a := ParticoesDe(term.script, old(term.pos), colunas);
      && (a.Got? ==> r == Some(a.value) && term.pos == a.next)
      && (a.Eof? ==> r == None)
  {
    if colunas == [] {
      return Some([]);
    }
    var add := term.Confirm(false);
    if add.None? { return None; }
    if !add.value {
      return Some([]);
    }
    r := EscolherParticoes(term, Nomes(colunas));
  }

  /** The SLA question and, when accepted, its two prompts. */
  method LerSla(term: Terminal) returns (r: Option<Option<SlaRespostas>>)
    modifies term
    ensures var a := SlaDe(term.script, old(term.pos));
      && (a.Got? ==> r == Some(a.value) && term.pos == a.next)
      && (a.Eof? ==> r == None)
  {
    var querSla := term.Confirm(false);
    if querSla.None? { return None; }
    if !querSla.value {
      return Some(None);
    }
    var f := term.Prompt(None);
    if f.None? { return None; }
    var t := term.Prompt(None);
    if t.None? { return None; }
    return Some(Some(SlaRespostas(f.value, t.value)));
  }

  /** The questions after the columns, storing each answer on `c`. */
  method PerguntarDepois(term: Terminal, c: Contrato, colunas: seq<Coluna>) returns (r: Option<Final>)
    modifies term, c
    ensures var a := Depois(term.script, old(term.pos), colunas);
      && (a.Got? ==> r == Some(a.value) && term.pos == a.next)
      && (a.Got? ==> c.Atributos() == AplicaFinal(old(c.Atributos()), a.value))
      && (a.Eof? ==> r == None)
    ensures var a := Depois(term.script, old(term.pos), colunas);
      a.Got? ==>
        && c.colunasParticao == (if a.value.particoes != [] then Some(a.value.particoes) else old(c.colunasParticao))
        && c.slaPublico == (if a.value.sla.Some? then Some(true) else old(c.slaPublico))
    ensures c.contrato == old(c.contrato)
  {
    ghost var script, k0 := term.script, term.pos;
    var particoes := LerParticoes(term, colunas);
    if particoes.None? { return None; }
    if particoes.value != [] {
      c.colunasParticao := Some(particoes.value);
    }
    var owner := term.Prompt(Some(""));
    if owner.None? { return None; }
    if owner.value != "" {
      c.SetOwnerEmail(owner.value);
    }
    var sla := LerSla(term);
    if sla.None? { return None; }
    if sla.value.Some? {
      c.SetFrequenciaAtualizacao(sla.value.value.frequencia);
      c.SetSlaTolerancia(sla.value.value.tolerancia);
      c.slaPublico := Some(true);
    }
    r := Some(Final(particoes.value, owner.value, sla.value));
    assert Depois(script, k0, colunas) == Got(r.value, term.pos);
  }

  /** The questions of `cria_estrutura_contrato`, each answer stored on a
      new `Contrato` as it arrives; `null` when the input ends first. */
  method Perguntar(term: Terminal, nome: string, dataCriacao: string) returns (c: Contrato?)
    modifies term
    ensures Dialogo(term.script, old(term.pos)).Eof? ==> c == null
    ensures Dialogo(term.script, old(term.pos)).Got? ==>
      c != null && fresh(c) && c.contrato == None &&
      c.Atributos() == CamposDe(nome, dataCriacao, Dialogo(term.script, old(term.pos)).value)
    ensures var d := Dialogo(term.script, old(term.pos));
      d.Got? ==>
        && c != null
        && c.colunasParticao == (if d.value.particoes != [] then Some(d.value.particoes) else None)
        && c.slaPublico == (if d.value.sla.Some? then Some(true) else None)
  {
    ghost var script, k0 := term.script, term.pos;
    var h := LerCabecalho(term);
    if h.None? { return null; }
    ghost var k3 := term.pos;
    assert Cabecalho(script, k0) == Got(h.value, k3);
    var (descricao, tabela, formato) := h.value;
    c := new Contrato.Init(nome, tabela, formato, false, None, None, None, None, None, None, dataCriacao);
    if descricao != "" {
      c.SetDescricao(descricao);
    }
    var colunas := LerColunas(term);
    if colunas.None? { return null; }
    ghost var k4 := term.pos;
    assert ColunasFrom(script, k3, []) == Got(colunas.value, k4);
    c.SetColunas(ColunasDoc(colunas.value));
    var f := PerguntarDepois(term, c, colunas.value);
    if f.None? { return null; }
    assert Depois(script, k4, colunas.value) == Got(f.value, term.pos);
    ghost var a := Respostas(descricao, tabela, formato, colunas.value, f.value.particoes, f.value.ownerEmail, f.value.sla);
    assert Dialogo(script, k0) == Got(a, term.pos);
  }

  /** `cria_estrutura_contrato(console, nome_projeto)`, reading from
      `term` and saving on `disk`; the creation time is a parameter. */
  method CriaEstruturaContrato(term: Terminal, disk: Disk, nome: string, dataCriacao: string)
    returns (err: Option<Exc>)
    modifies term, disk
    ensures var f := Fluxo(old(disk.State()), nome, dataCriacao, term.script, old(term.pos));
      && disk.State() == f.state
      && (err.None? <==> f.result.Success?)
      && (err.Some? ==> err.value == f.result.error)
  {
    var c := Perguntar(term, nome, dataCriacao);
    if c == null {
      return Some(Fim);
    }
    DocumentoDoDialogo(nome, dataCriacao, Dialogo(term.script, old(term.pos)).value);
    var _ := c.CriaContrato();
    err := c.SalvarContrato(disk);
  }
}
