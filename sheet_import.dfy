/** The general stock-sheet import (`importar_planilha_geral`, main.py): every row
    of an uploaded sheet names a product and its stock for one entity; products
    are created on demand and the entity's stock row for each product is updated
    or inserted. The whole import is one transaction: the session's pending
    changes are a working copy of the two tables, the commit writes them back and
    any error discards them. */
module SheetImport {

  import opened Wrappers
  import opened Models
  import Text
  import Decimal
  import Clock
  import Crud

  /** A cell as pandas hands it over: empty (`NaN`), an integer, or text. */
  datatype Celula = Vazia | Inteiro(n: int) | Texto(s: string)

  /** The two cells of a row the import reads. */
  datatype Linha = Linha(item: Celula, estoqueAtual: Celula)

  /** The sheet: its column headers and its rows. */
  datatype Planilha = Planilha(colunas: seq<string>, linhas: seq<Linha>)

  /** Why an import is rolled back. Every one of them reaches the client as a 500. */
  datatype Falha =
    | PlanilhaInvalida                    // a required column is missing (the 400 raised inside the try)
    | QuantidadeInvalida(valor: string)   // `int()` refused the stock cell
    | EntidadeInexistente(entidadeId: int) // an inserted stock row breaks the `entidade_id` foreign key

  const ColunaItem := "Item"
  const ColunaEstoque := "Estoque atual"

  /** `str(cell)` for a non-empty cell. */
  function Str(c: Celula): string
    requires !c.Vazia?
  {
    match c
    case Inteiro(n) => Decimal.IntToString(n)
    case Texto(s) => s
  }

  /** `0 if pd.isna(cell) else int(cell)`; `None` is the `ValueError`. */
  function Quantidade(c: Celula): (r: Option<int>)
    ensures c.Vazia? ==> r == Some(0)
    ensures c.Inteiro? ==> r == Some(c.n)
  {
    match c
    case Vazia => Some(0)
    case Inteiro(n) => Some(n)
    case Texto(s) => Decimal.ParseIntPy(s)
  }

  /** A number typed as text in the stock column is read as that number. */
  lemma QuantidadeDeTexto(n: int)
    ensures Quantidade(Texto(Decimal.IntToString(n))) == Some(n)
  {
    Decimal.ParseIntPyRoundTrip(n);
  }

  /** What the import does with one row. */
  datatype Acao = Pular | Gravar(nome: string, quantidade: int) | Rejeitar(valor: string)

  /** Rows without an item, or whose item is blank once stripped, are skipped;
      otherwise the stripped item names the product and the stock cell must read
      as an integer. */
  function AcaoDaLinha(l: Linha): (r: Acao)
    ensures r.Pular? <==> l.item.Vazia? || Text.Trim(Str(l.item), Text.IsPySpace) == []
    ensures r.Gravar? ==> r.nome == Text.Trim(Str(l.item), Text.IsPySpace) && r.nome != []
    ensures r.Gravar? ==> Some(r.quantidade) == Quantidade(l.estoqueAtual)
    ensures r.Rejeitar? <==> !r.Pular? && Quantidade(l.estoqueAtual).None?
  {
    if l.item.Vazia? then Pular
    else
      var nome := Text.Trim(Str(l.item), Text.IsPySpace);
      if nome == [] then Pular
      else
        match Quantidade(l.estoqueAtual)
        case None => Rejeitar(Str(l.estoqueAtual))
        case Some(q) => Gravar(nome, q)
  }

  /** The session's view of the two tables and the two counters. */
  datatype Importacao = Importacao(
    produtos: seq<Produto>,
    estoques: seq<Estoque>,
    proximoProdutoId: int,
    proximoEstoqueId: int,
    produtosCriados: nat,
    estoquesAtualizados: nat)

  /** The database constraints the import relies on and keeps. */
  predicate Consistente(s: Importacao) {
    ProdutoIds(s.produtos, s.proximoProdutoId) && EstoqueIds(s.estoques, s.proximoEstoqueId)
    && NomesUnicos(s.produtos) && EstoquesReferenciam(s.estoques, s.proximoProdutoId)
  }

  /** `query(Produto).filter_by(nome_item=nome).first()` */
  function ProdutoPorNome(produtos: seq<Produto>, nome: string): (r: Option<nat>)
    ensures r.Some? ==> r.value < |produtos| && produtos[r.value].nomeItem == nome
    ensures r.Some? ==> forall i :: 0 <= i < r.value ==> produtos[i].nomeItem != nome
    ensures r.None? ==> forall i :: 0 <= i < |produtos| ==> produtos[i].nomeItem != nome
  {
    IndexWhere(produtos, (p: Produto) => p.nomeItem == nome)
  }

  /** `query(Estoque).filter_by(produto_id=..., entidade_id=...).first()` */
  function EstoqueDe(estoques: seq<Estoque>, produtoId: int, entidadeId: int): (r: Option<nat>)
    ensures r.Some? ==> r.value < |estoques|
    ensures r.Some? ==> estoques[r.value].produtoId == produtoId && estoques[r.value].entidadeId == entidadeId
    ensures r.Some? ==> forall i :: 0 <= i < r.value ==> !(estoques[i].produtoId == produtoId && estoques[i].entidadeId == entidadeId)
    ensures r.None? ==> forall i :: 0 <= i < |estoques| ==> !(estoques[i].produtoId == produtoId && estoques[i].entidadeId == entidadeId)
  {
    IndexWhere(estoques, (e: Estoque) => e.produtoId == produtoId && e.entidadeId == entidadeId)
  }

  /** Changing a stock row's quantity does not move any lookup. */
  lemma EstoqueDeAtualizado(t: seq<Estoque>, k: nat, q: int, produtoId: int, entidadeId: int)
    requires k < |t|
    ensures EstoqueDe(t[k := t[k].(quantidadeSistema := q)], produtoId, entidadeId) == EstoqueDe(t, produtoId, entidadeId)
  {
    var u := t[k := t[k].(quantidadeSistema := q)];
    assert forall i :: 0 <= i < |t| ==> u[i].produtoId == t[i].produtoId && u[i].entidadeId == t[i].entidadeId;
    var a := EstoqueDe(t, produtoId, entidadeId);
    var b := EstoqueDe(u, produtoId, entidadeId);
    if a.Some? && b.Some? {
      assert !(a.value < b.value) && !(b.value < a.value);
    }
  }

  /** Appending a stock row only answers lookups that had no answer. */
  lemma EstoqueDeAnexado(t: seq<Estoque>, x: Estoque, produtoId: int, entidadeId: int)
    ensures EstoqueDe(t + [x], produtoId, entidadeId) ==
      if EstoqueDe(t, produtoId, entidadeId).Some? then EstoqueDe(t, produtoId, entidadeId)
      else if x.produtoId == produtoId && x.entidadeId == entidadeId then Some(|t|)
      else None
  {
    var u := t + [x];
    assert forall i :: 0 <= i < |t| ==> u[i] == t[i];
    assert u[|t|] == x;
    var a := EstoqueDe(t, produtoId, entidadeId);
    var b := EstoqueDe(u, produtoId, entidadeId);
    if a.Some? && b.Some? {
      assert !(a.value < b.value) && !(b.value < a.value);
    }
  }

  /** The stock the session holds for the product named `nome` at the entity. */
  function QuantidadeDe(s: Importacao, nome: string, entidadeId: int): Option<int> {
    match ProdutoPorNome(s.produtos, nome)
    case None => None
    case Some(p) =>
      match EstoqueDe(s.estoques, s.produtos[p].id, entidadeId)
      case None => None
      case Some(e) => Some(s.estoques[e].quantidadeSistema)
  }

  /** One row that is not skipped: find the product by name or create it (its group
      is its own name), then update the entity's stock row for it or insert one. */
  function GravarLinha(s: Importacao, nome: string, quantidade: int, entidadeId: int, entidadeExiste: bool)
    : (r: Result<Importacao, Falha>)
    ensures r.Ok? ==> r.value.estoquesAtualizados == s.estoquesAtualizados + 1
    ensures r.Ok? && ProdutoPorNome(s.produtos, nome).Some? ==>
      r.value.produtos == s.produtos && r.value.produtosCriados == s.produtosCriados
    ensures r.Ok? && ProdutoPorNome(s.produtos, nome).None? ==>
      r.value.produtos == s.produtos + [Produto(s.proximoProdutoId, nome, Some(nome))]
      && r.value.produtosCriados == s.produtosCriados + 1
    ensures r.Err? ==> r.error == EntidadeInexistente(entidadeId) && !entidadeExiste
    ensures entidadeExiste ==> r.Ok?
  {
    var p := ProdutoPorNome(s.produtos, nome);
    var produtoId := if p.Some? then s.produtos[p.value].id else s.proximoProdutoId;
    var s1 :=
      if p.Some? then s
      else s.(produtos := s.produtos + [Produto(s.proximoProdutoId, nome, Some(nome))],
              proximoProdutoId := s.proximoProdutoId + 1,
              produtosCriados := s.produtosCriados + 1);
    match EstoqueDe(s1.estoques, produtoId, entidadeId)
    case Some(e) =>
      Ok(s1.(estoques := s1.estoques[e := s1.estoques[e].(quantidadeSistema := quantidade)],
             estoquesAtualizados := s1.estoquesAtualizados + 1))
    case None =>
      if !entidadeExiste then Err(EntidadeInexistente(entidadeId))
      else
        Ok(s1.(estoques := s1.estoques + [Estoque(s1.proximoEstoqueId, quantidade, produtoId, entidadeId)],
               proximoEstoqueId := s1.proximoEstoqueId + 1,
               estoquesAtualizados := s1.estoquesAtualizados + 1))
  }

  /** The number of rows that are not skipped. */
  function Gravacoes(linhas: seq<Linha>): nat {
    if linhas == [] then 0
    else Gravacoes(linhas[..|linhas| - 1]) + (if AcaoDaLinha(linhas[|linhas| - 1]).Gravar? then 1 else 0)
  }

  /** One row applied to the session. */
  function Passo(t: Importacao, linha: Linha, entidadeId: int, entidadeExiste: bool): (r: Result<Importacao, Falha>)
    ensures AcaoDaLinha(linha).Pular? ==> r == Ok(t)
    ensures AcaoDaLinha(linha).Rejeitar? ==> r == Err(QuantidadeInvalida(AcaoDaLinha(linha).valor))
    ensures r.Ok? ==> r.value.estoquesAtualizados == t.estoquesAtualizados + (if AcaoDaLinha(linha).Gravar? then 1 else 0)
    ensures r.Ok? ==> |t.produtos| <= |r.value.produtos| && r.value.produtos[..|t.produtos|] == t.produtos
    ensures r.Ok? ==> r.value.produtosCriados == t.produtosCriados + (|r.value.produtos| - |t.produtos|)
    ensures r.Ok? ==> forall j :: |t.produtos| <= j < |r.value.produtos| ==>
      r.value.produtos[j].grupo == Some(r.value.produtos[j].nomeItem)
  {
    match AcaoDaLinha(linha)
    case Pular => Ok(t)
    case Rejeitar(v) => Err(QuantidadeInvalida(v))
    case Gravar(nome, q) => GravarLinha(t, nome, q, entidadeId, entidadeExiste)
  }

  /** The session after the rows, in order, or the failure that stops the loop. */
  function ImportarLinhas(s: Importacao, linhas: seq<Linha>, entidadeId: int, entidadeExiste: bool)
    : (r: Result<Importacao, Falha>)
    ensures r.Ok? ==> r.value.estoquesAtualizados == s.estoquesAtualizados + Gravacoes(linhas)
    ensures r.Ok? ==> |s.produtos| <= |r.value.produtos| && r.value.produtos[..|s.produtos|] == s.produtos
    ensures r.Ok? ==> r.value.produtosCriados == s.produtosCriados + (|r.value.produtos| - |s.produtos|)
    ensures r.Ok? ==> forall j :: |s.produtos| <= j < |r.value.produtos| ==>
      r.value.produtos[j].grupo == Some(r.value.produtos[j].nomeItem)
    decreases |linhas|
  {
    if linhas == [] then Ok(s)
    else
      match ImportarLinhas(s, linhas[..|linhas| - 1], entidadeId, entidadeExiste)
      case Err(f) => Err(f)
      case Ok(t) => Passo(t, linhas[|linhas| - 1], entidadeId, entidadeExiste)
  }

  /** The loop's step: the first `i + 1` rows are the first `i` and then row `i`. */
  lemma ImportarPasso(s: Importacao, linhas: seq<Linha>, entidadeId: int, entidadeExiste: bool, i: nat)
    requires i < |linhas|
    ensures ImportarLinhas(s, linhas[..i + 1], entidadeId, entidadeExiste) ==
      match ImportarLinhas(s, linhas[..i], entidadeId, entidadeExiste)
      case Err(f) => Err(f)
      case Ok(t) => Passo(t, linhas[i], entidadeId, entidadeExiste)
  {
    assert linhas[..i + 1][..i] == linhas[..i];
  }

  /** The whole import: the column check, then the rows. */
  function Importar(s: Importacao, planilha: Planilha, entidadeId: int, entidadeExiste: bool)
    : (r: Result<Importacao, Falha>)
    ensures ColunaItem !in planilha.colunas || ColunaEstoque !in planilha.colunas ==> r == Err(PlanilhaInvalida)
    ensures ColunaItem in planilha.colunas && ColunaEstoque in planilha.colunas ==>
      r == ImportarLinhas(s, planilha.linhas, entidadeId, entidadeExiste)
  {
    if ColunaItem !in planilha.colunas || ColunaEstoque !in planilha.colunas then Err(PlanilhaInvalida)
    else ImportarLinhas(s, planilha.linhas, entidadeId, entidadeExiste)
  }

  const Abertura := "Estoque geral atualizado! "
  const Meio := " novos produtos criados, "
  const Fecho := " estoques atualizados."

  /** The success message. */
  function Mensagem(produtosCriados: nat, estoquesAtualizados: nat): string {
    Abertura + Decimal.IntToString(produtosCriados) + Meio + Decimal.IntToString(estoquesAtualizados) + Fecho
  }

  /** Where the five pieces of a message sit in it. */
  lemma Pecas(a: string, p: string, b: string, e: string, c: string)
    ensures var m := a + p + b + e + c;
      m[..|a|] == a && m[|a|..] == p + (b + e + c) && m[|a| + |p|..|a| + |p| + |b|] == b
      && m[|a| + |p| + |b|..] == e + c
  {
    var m := a + p + b + e + c;
    assert m == a + (p + (b + e + c));
    assert m == (a + p + b) + (e + c);
  }

  /** Both counts can be read back off the message: the products created right
      after the opening words, the stock rows written right after the middle ones. */
  lemma MensagemLeContagens(produtosCriados: nat, estoquesAtualizados: nat)
    ensures var m, a := Mensagem(produtosCriados, estoquesAtualizados), |Decimal.IntToString(produtosCriados)|;
      m[..26] == Abertura && m[26 + a..26 + a + 25] == Meio
      && Decimal.ParseIntJs(m[26..]) == Some(produtosCriados)
      && Decimal.ParseIntJs(m[26 + a + 25..]) == Some(estoquesAtualizados)
  {
    var p, e := Decimal.IntToString(produtosCriados), Decimal.IntToString(estoquesAtualizados);
    assert |Abertura| == 26 && |Meio| == 25;
    assert Meio[0] == ' ' && Fecho[0] == ' ';
    Pecas(Abertura, p, Meio, e, Fecho);
    Decimal.ParseIntPrefix(produtosCriados, Meio + e + Fecho);
    Decimal.ParseIntPrefix(estoquesAtualizados, Fecho);
  }

  // ------------------------------------------------------------------ properties

  /** A row leaves the product table consistent: ids stay ascending, names unique
      and stock rows keep pointing at products that exist. */
  lemma GravarPreserva(s: Importacao, nome: string, quantidade: int, entidadeId: int, entidadeExiste: bool)
    requires Consistente(s)
    requires GravarLinha(s, nome, quantidade, entidadeId, entidadeExiste).Ok?
    ensures Consistente(GravarLinha(s, nome, quantidade, entidadeId, entidadeExiste).value)
  {
    var t := GravarLinha(s, nome, quantidade, entidadeId, entidadeExiste).value;
    var p := ProdutoPorNome(s.produtos, nome);
    if p.None? {
      assert t.produtos == s.produtos + [Produto(s.proximoProdutoId, nome, Some(nome))];
    }
  }

  /** After a row, the session holds the row's quantity for its product at the
      entity. */
  lemma GravarGrava(s: Importacao, nome: string, quantidade: int, entidadeId: int, entidadeExiste: bool)
    requires Consistente(s)
    requires GravarLinha(s, nome, quantidade, entidadeId, entidadeExiste).Ok?
    ensures QuantidadeDe(GravarLinha(s, nome, quantidade, entidadeId, entidadeExiste).value, nome, entidadeId)
      == Some(quantidade)
  {
    var t := GravarLinha(s, nome, quantidade, entidadeId, entidadeExiste).value;
    var p := ProdutoPorNome(s.produtos, nome);
    var produtoId := if p.Some? then s.produtos[p.value].id else s.proximoProdutoId;
    var q := ProdutoPorNome(t.produtos, nome);
    if p.Some? {
      assert q == p;
    } else {
      assert t.produtos[|s.produtos|].nomeItem == nome;
      assert q == Some(|s.produtos|);
      assert EstoqueDe(s.estoques, produtoId, entidadeId).None?;
    }
    var e := EstoqueDe(s.estoques, produtoId, entidadeId);
    if e.Some? {
      EstoqueDeAtualizado(s.estoques, e.value, quantidade, produtoId, entidadeId);
    } else {
      EstoqueDeAnexado(s.estoques, Estoque(s.proximoEstoqueId, quantidade, produtoId, entidadeId), produtoId, entidadeId);
    }
  }

  /** A row touches no other (product, entity) pair. */
  lemma GravarIsola(s: Importacao, nome: string, quantidade: int, entidadeId: int, entidadeExiste: bool,
                    outro: string, outraEntidade: int)
    requires Consistente(s)
    requires GravarLinha(s, nome, quantidade, entidadeId, entidadeExiste).Ok?
    requires outro != nome || outraEntidade != entidadeId
    ensures QuantidadeDe(GravarLinha(s, nome, quantidade, entidadeId, entidadeExiste).value, outro, outraEntidade)
      == QuantidadeDe(s, outro, outraEntidade)
  {
    if ProdutoPorNome(s.produtos, nome).Some? {
      GravarIsolaConhecido(s, nome, quantidade, entidadeId, entidadeExiste, outro, outraEntidade);
    } else {
      GravarIsolaNovo(s, nome, quantidade, entidadeId, entidadeExiste, outro, outraEntidade);
    }
  }

  /** `GravarIsola` for a product already in the table. */
  lemma GravarIsolaConhecido(s: Importacao, nome: string, quantidade: int, entidadeId: int, entidadeExiste: bool,
                             outro: string, outraEntidade: int)
    requires Consistente(s)
    requires GravarLinha(s, nome, quantidade, entidadeId, entidadeExiste).Ok?
    requires outro != nome || outraEntidade != entidadeId
    requires ProdutoPorNome(s.produtos, nome).Some?
    ensures QuantidadeDe(GravarLinha(s, nome, quantidade, entidadeId, entidadeExiste).value, outro, outraEntidade)
      == QuantidadeDe(s, outro, outraEntidade)
  {
    var t := GravarLinha(s, nome, quantidade, entidadeId, entidadeExiste).value;
    var produtoId := s.produtos[ProdutoPorNome(s.produtos, nome).value].id;
    var b := ProdutoPorNome(t.produtos, outro);
    assert b == ProdutoPorNome(s.produtos, outro);
    if b.Some? {
      EstoqueIsolado(s.estoques, produtoId, quantidade, entidadeId, s.proximoEstoqueId, t.produtos[b.value].id, outraEntidade);
    }
  }

  /** `GravarIsola` for a product the row creates. */
  lemma GravarIsolaNovo(s: Importacao, nome: string, quantidade: int, entidadeId: int, entidadeExiste: bool,
                        outro: string, outraEntidade: int)
    requires Consistente(s)
    requires GravarLinha(s, nome, quantidade, entidadeId, entidadeExiste).Ok?
    requires outro != nome || outraEntidade != entidadeId
    requires ProdutoPorNome(s.produtos, nome).None?
    ensures QuantidadeDe(GravarLinha(s, nome, quantidade, entidadeId, entidadeExiste).value, outro, outraEntidade)
      == QuantidadeDe(s, outro, outraEntidade)
  {
    var t := GravarLinha(s, nome, quantidade, entidadeId, entidadeExiste).value;
    var produtoId := s.proximoProdutoId;
    var a := ProdutoPorNome(s.produtos, outro);
    var b := ProdutoPorNome(t.produtos, outro);
    assert t.produtos[|s.produtos|].nomeItem == nome;
    assert forall i :: 0 <= i < |s.produtos| ==> t.produtos[i] == s.produtos[i];
    if outro != nome {
      if a.Some? && b.Some? {
        assert !(a.value < b.value) && !(b.value < a.value);
      }
    } else {
      assert a.None? && b == Some(|s.produtos|);
      assert EstoqueDe(t.estoques, s.proximoProdutoId, outraEntidade).None?;
    }
    if b.Some? {
      EstoqueIsolado(s.estoques, produtoId, quantidade, entidadeId, s.proximoEstoqueId, t.produtos[b.value].id, outraEntidade);
    }
  }

  /** Upserting one (product, entity) pair's stock leaves every other pair's lookup alone. */
  lemma EstoqueIsolado(estoques: seq<Estoque>, produtoId: int, quantidade: int, entidadeId: int, novoId: int,
                       pid: int, outraEntidade: int)
    requires pid != produtoId || outraEntidade != entidadeId
    ensures var e := EstoqueDe(estoques, produtoId, entidadeId);
      var depois := if e.Some? then estoques[e.value := estoques[e.value].(quantidadeSistema := quantidade)]
        else estoques + [Estoque(novoId, quantidade, produtoId, entidadeId)];
      var k := EstoqueDe(estoques, pid, outraEntidade);
      EstoqueDe(depois, pid, outraEntidade) == k
      && (k.Some? ==> depois[k.value].quantidadeSistema == estoques[k.value].quantidadeSistema)
  {
    var e := EstoqueDe(estoques, produtoId, entidadeId);
    if e.Some? {
      EstoqueDeAtualizado(estoques, e.value, quantidade, pid, outraEntidade);
    } else {
      EstoqueDeAnexado(estoques, Estoque(novoId, quantidade, produtoId, entidadeId), pid, outraEntidade);
    }
  }

  /** The loop keeps the constraints. */
  lemma {:induction false} ImportarPreserva(s: Importacao, linhas: seq<Linha>, entidadeId: int, entidadeExiste: bool)
    requires Consistente(s)
    requires ImportarLinhas(s, linhas, entidadeId, entidadeExiste).Ok?
    ensures Consistente(ImportarLinhas(s, linhas, entidadeId, entidadeExiste).value)
    decreases |linhas|
  {
    if linhas != [] {
      var anteriores := linhas[..|linhas| - 1];
      ImportarPreserva(s, anteriores, entidadeId, entidadeExiste);
      var t := ImportarLinhas(s, anteriores, entidadeId, entidadeExiste).value;
      match AcaoDaLinha(linhas[|linhas| - 1])
      case Pular =>
      case Rejeitar(_) =>
      case Gravar(nome, q) => GravarPreserva(t, nome, q, entidadeId, entidadeExiste);
    }
  }

  /** The quantity of the last non-skipped row naming `nome`, if any. */
  function UltimaQuantidade(linhas: seq<Linha>, nome: string): Option<int> {
    if linhas == [] then None
    else
      var a := AcaoDaLinha(linhas[|linhas| - 1]);
      if a.Gravar? && a.nome == nome then Some(a.quantidade)
      else UltimaQuantidade(linhas[..|linhas| - 1], nome)
  }

  /** Upsert semantics: after a successful import, a product named in the sheet
      holds, at the entity, the quantity of the last row naming it; every other
      (product, entity) pair keeps what it had. */
  lemma {:induction false} UltimaLinhaVence(s: Importacao, linhas: seq<Linha>, entidadeId: int, entidadeExiste: bool,
                                            nome: string, entidade: int)
    requires Consistente(s)
    requires ImportarLinhas(s, linhas, entidadeId, entidadeExiste).Ok?
    ensures var t := ImportarLinhas(s, linhas, entidadeId, entidadeExiste).value;
      if entidade == entidadeId && UltimaQuantidade(linhas, nome).Some?
      then QuantidadeDe(t, nome, entidade) == UltimaQuantidade(linhas, nome)
      else QuantidadeDe(t, nome, entidade) == QuantidadeDe(s, nome, entidade)
    decreases |linhas|
  {
    if linhas != [] {
      var anteriores := linhas[..|linhas| - 1];
      UltimaLinhaVence(s, anteriores, entidadeId, entidadeExiste, nome, entidade);
      ImportarPreserva(s, anteriores, entidadeId, entidadeExiste);
      var t := ImportarLinhas(s, anteriores, entidadeId, entidadeExiste).value;
      match AcaoDaLinha(linhas[|linhas| - 1])
      case Pular =>
      case Rejeitar(_) =>
      case Gravar(n, q) =>
        if n == nome && entidade == entidadeId {
          GravarGrava(t, n, q, entidadeId, entidadeExiste);
        } else {
          GravarIsola(t, n, q, entidadeId, entidadeExiste, nome, entidade);
        }
    }
  }

  /** All or nothing: a row whose stock cell is not an integer fails the import. */
  lemma {:induction false} LinhaRejeitadaFalha(s: Importacao, linhas: seq<Linha>, entidadeId: int, entidadeExiste: bool, i: nat)
    requires i < |linhas| && AcaoDaLinha(linhas[i]).Rejeitar?
    ensures ImportarLinhas(s, linhas, entidadeId, entidadeExiste).Err?
    decreases |linhas|
  {
    if i < |linhas| - 1 {
      var anteriores := linhas[..|linhas| - 1];
      assert anteriores[i] == linhas[i];
      LinhaRejeitadaFalha(s, anteriores, entidadeId, entidadeExiste, i);
    }
  }

  /** ... and nothing else fails it when the entity exists. */
  lemma {:induction false} SemRejeicaoSucesso(s: Importacao, linhas: seq<Linha>, entidadeId: int)
    requires forall i :: 0 <= i < |linhas| ==> !AcaoDaLinha(linhas[i]).Rejeitar?
    ensures ImportarLinhas(s, linhas, entidadeId, true).Ok?
    decreases |linhas|
  {
    if linhas != [] {
      var anteriores := linhas[..|linhas| - 1];
      assert forall i :: 0 <= i < |anteriores| ==> anteriores[i] == linhas[i];
      SemRejeicaoSucesso(s, anteriores, entidadeId);
    }
  }

  // ------------------------------------------------- pending rows, as written

  /** The session as the route sees it with `autoflush=False`: a stock row the loop
      adds stays pending, and `query(Estoque)` does not see it, until the next
      `db.flush()`, which the loop runs only right after creating a product.
      `gravados` is how many stock rows the database already holds. */
  datatype Sessao = Sessao(t: Importacao, gravados: nat)

  /** One row as written: the stock lookup sees only the flushed rows. */
  function GravarLinhaComoEscrito(s: Sessao, nome: string, quantidade: int, entidadeId: int, entidadeExiste: bool)
    : (r: Result<Sessao, Falha>)
    requires s.gravados <= |s.t.estoques|
    ensures r.Ok? ==> r.value.gravados <= |r.value.t.estoques|
    ensures r.Ok? ==> r.value.t.estoquesAtualizados == s.t.estoquesAtualizados + 1
    ensures r.Ok? && ProdutoPorNome(s.t.produtos, nome).Some? ==>
      r.value.t.produtos == s.t.produtos && r.value.gravados == s.gravados
    ensures r.Ok? && ProdutoPorNome(s.t.produtos, nome).None? ==> r.value.gravados == |s.t.estoques|
    ensures entidadeExiste ==> r.Ok?
  {
    var p := ProdutoPorNome(s.t.produtos, nome);
    var produtoId := if p.Some? then s.t.produtos[p.value].id else s.t.proximoProdutoId;
    var s1 :=
      if p.Some? then s
      else Sessao(s.t.(produtos := s.t.produtos + [Produto(s.t.proximoProdutoId, nome, Some(nome))],
                       proximoProdutoId := s.t.proximoProdutoId + 1,
                       produtosCriados := s.t.produtosCriados + 1),
                  |s.t.estoques|);
    match EstoqueDe(s1.t.estoques[..s1.gravados], produtoId, entidadeId)
    case Some(e) =>
      Ok(s1.(t := s1.t.(estoques := s1.t.estoques[e := s1.t.estoques[e].(quantidadeSistema := quantidade)],
                        estoquesAtualizados := s1.t.estoquesAtualizados + 1)))
    case None =>
      if !entidadeExiste then Err(EntidadeInexistente(entidadeId))
      else
        Ok(s1.(t := s1.t.(estoques := s1.t.estoques + [Estoque(s1.t.proximoEstoqueId, quantidade, produtoId, entidadeId)],
                          proximoEstoqueId := s1.t.proximoEstoqueId + 1,
                          estoquesAtualizados := s1.t.estoquesAtualizados + 1)))
  }

  /** When nothing is pending, the row as written is the row with every row visible. */
  lemma ComoEscritoSemPendentes(s: Sessao, nome: string, quantidade: int, entidadeId: int, entidadeExiste: bool)
    requires s.gravados == |s.t.estoques|
    ensures var r := GravarLinhaComoEscrito(s, nome, quantidade, entidadeId, entidadeExiste);
      var v := GravarLinha(s.t, nome, quantidade, entidadeId, entidadeExiste);
      (r.Ok? <==> v.Ok?) && (r.Ok? ==> r.value.t == v.value) && (r.Err? ==> r.error == v.error)
  {
    assert s.t.estoques[..s.gravados] == s.t.estoques;
  }

  /** The rows loop as written. */
  function ImportarLinhasComoEscrito(s: Sessao, linhas: seq<Linha>, entidadeId: int, entidadeExiste: bool)
    : (r: Result<Sessao, Falha>)
    requires s.gravados <= |s.t.estoques|
    ensures r.Ok? ==> r.value.gravados <= |r.value.t.estoques|
    ensures r.Ok? ==> r.value.t.estoquesAtualizados == s.t.estoquesAtualizados + Gravacoes(linhas)
    decreases |linhas|
  {
    if linhas == [] then Ok(s)
    else
      match ImportarLinhasComoEscrito(s, linhas[..|linhas| - 1], entidadeId, entidadeExiste)
      case Err(f) => Err(f)
      case Ok(t) =>
        match AcaoDaLinha(linhas[|linhas| - 1])
        case Pular => Ok(t)
        case Rejeitar(v) => Err(QuantidadeInvalida(v))
        case Gravar(nome, q) => GravarLinhaComoEscrito(t, nome, q, entidadeId, entidadeExiste)
  }

  /** Two rows for the same product name with quantities `q1` then `q2`. */
  function LinhasRepetidas(nome: string, q1: int, q2: int): seq<Linha> {
    [Linha(Texto(nome), Inteiro(q1)), Linha(Texto(nome), Inteiro(q2))]
  }

  /** The session of an import into an empty database. */
  function Vazia(): Importacao {
    Importacao([], [], 1, 1, 0, 0)
  }

  /** A row naming an already trimmed, non-empty `nome` with quantity `q` is written. */
  lemma LinhaGravada(l: Linha, nome: string, q: int)
    requires l.item == Texto(nome) && l.estoqueAtual == Inteiro(q)
    requires nome != [] && Text.Trim(nome, Text.IsPySpace) == nome
    ensures AcaoDaLinha(l) == Gravar(nome, q)
  {
    assert Str(l.item) == nome;
    assert Quantidade(l.estoqueAtual) == Some(q);
  }

  lemma LinhasRepetidasAcoes(nome: string, q1: int, q2: int)
    requires nome != [] && Text.Trim(nome, Text.IsPySpace) == nome
    ensures AcaoDaLinha(LinhasRepetidas(nome, q1, q2)[0]) == Gravar(nome, q1)
    ensures AcaoDaLinha(LinhasRepetidas(nome, q1, q2)[1]) == Gravar(nome, q2)
  {
    LinhaGravada(Linha(Texto(nome), Inteiro(q1)), nome, q1);
    LinhaGravada(Linha(Texto(nome), Inteiro(q2)), nome, q2);
  }

  /** The prefixes the rows loop recurses through on a sheet of two rows. */
  lemma Prefixos<T>(a: T, b: T)
    ensures [a, b][..|[a, b]| - 1] == [a] && [a][..|[a]| - 1] == []
  {
  }

  /** The rows loop over two rows that are both written. */
  lemma DuasLinhasComoEscrito(s: Sessao, l0: Linha, l1: Linha, nome: string, q1: int, q2: int, e: int)
    requires s.gravados <= |s.t.estoques|
    requires AcaoDaLinha(l0) == Gravar(nome, q1) && AcaoDaLinha(l1) == Gravar(nome, q2)
    ensures var r1 := GravarLinhaComoEscrito(s, nome, q1, e, true);
      r1.Ok? && ImportarLinhasComoEscrito(s, [l0, l1], e, true) == GravarLinhaComoEscrito(r1.value, nome, q2, e, true)
  {
    Prefixos(l0, l1);
    assert ImportarLinhasComoEscrito(s, [], e, true) == Ok(s);
  }

  lemma DuasLinhas(s: Importacao, l0: Linha, l1: Linha, nome: string, q1: int, q2: int, e: int)
    requires AcaoDaLinha(l0) == Gravar(nome, q1) && AcaoDaLinha(l1) == Gravar(nome, q2)
    ensures var r1 := GravarLinha(s, nome, q1, e, true);
      r1.Ok? && ImportarLinhas(s, [l0, l1], e, true) == GravarLinha(r1.value, nome, q2, e, true)
  {
    Prefixos(l0, l1);
    assert ImportarLinhas(s, [], e, true) == Ok(s);
  }

  /** The first row creates the product, flushes, and adds a pending stock row. */
  lemma PrimeiraComoEscrito(nome: string, q1: int, e: int)
    ensures GravarLinhaComoEscrito(Sessao(Vazia(), 0), nome, q1, e, true)
      == Ok(Sessao(Importacao([Produto(1, nome, Some(nome))], [Estoque(1, q1, 1, e)], 2, 2, 1, 1), 0))
  {
    assert ProdutoPorNome([], nome) == None;
    assert EstoqueDe([], 1, e) == None;
    assert [] + [Produto(1, nome, Some(nome))] == [Produto(1, nome, Some(nome))];
    assert [] + [Estoque(1, q1, 1, e)] == [Estoque(1, q1, 1, e)];
  }

  /** The second row finds the product, so no flush: the pending row stays unseen. */
  lemma SegundaComoEscrito(nome: string, q1: int, q2: int, e: int)
    ensures GravarLinhaComoEscrito(Sessao(Importacao([Produto(1, nome, Some(nome))], [Estoque(1, q1, 1, e)], 2, 2, 1, 1), 0), nome, q2, e, true)
      == Ok(Sessao(Importacao([Produto(1, nome, Some(nome))], [Estoque(1, q1, 1, e), Estoque(2, q2, 1, e)], 2, 3, 1, 2), 0))
  {
    var x := Produto(1, nome, Some(nome));
    assert ProdutoPorNome([x], nome) == Some(0);
    assert [Estoque(1, q1, 1, e)][..0] == [];
    assert EstoqueDe([], 1, e) == None;
    assert [Estoque(1, q1, 1, e)] + [Estoque(2, q2, 1, e)] == [Estoque(1, q1, 1, e), Estoque(2, q2, 1, e)];
  }

  /** With every row visible the first row is written the same way. */
  lemma PrimeiraVisivel(nome: string, q1: int, e: int)
    ensures GravarLinha(Vazia(), nome, q1, e, true)
      == Ok(Importacao([Produto(1, nome, Some(nome))], [Estoque(1, q1, 1, e)], 2, 2, 1, 1))
  {
    assert ProdutoPorNome([], nome) == None;
    assert EstoqueDe([], 1, e) == None;
    assert [] + [Produto(1, nome, Some(nome))] == [Produto(1, nome, Some(nome))];
    assert [] + [Estoque(1, q1, 1, e)] == [Estoque(1, q1, 1, e)];
  }

  /** With every row visible the second row finds the first one's stock row. */
  lemma SegundaVisivel(nome: string, q1: int, q2: int, e: int)
    ensures GravarLinha(Importacao([Produto(1, nome, Some(nome))], [Estoque(1, q1, 1, e)], 2, 2, 1, 1), nome, q2, e, true)
      == Ok(Importacao([Produto(1, nome, Some(nome))], [Estoque(1, q2, 1, e)], 2, 2, 1, 2))
  {
    var x := Produto(1, nome, Some(nome));
    assert ProdutoPorNome([x], nome) == Some(0);
    assert EstoqueDe([Estoque(1, q1, 1, e)], 1, e) == Some(0);
    assert [Estoque(1, q1, 1, e)][0 := Estoque(1, q2, 1, e)] == [Estoque(1, q2, 1, e)];
  }

  /** As written, the second row inserts a second stock row. */
  lemma LinhaRepetidaComoEscrito(nome: string, q1: int, q2: int, e: int)
    requires nome != [] && Text.Trim(nome, Text.IsPySpace) == nome
    ensures ImportarLinhasComoEscrito(Sessao(Vazia(), 0), LinhasRepetidas(nome, q1, q2), e, true)
      == Ok(Sessao(Importacao([Produto(1, nome, Some(nome))], [Estoque(1, q1, 1, e), Estoque(2, q2, 1, e)], 2, 3, 1, 2), 0))
  {
    var linhas := LinhasRepetidas(nome, q1, q2);
    LinhasRepetidasAcoes(nome, q1, q2);
    DuasLinhasComoEscrito(Sessao(Vazia(), 0), linhas[0], linhas[1], nome, q1, q2, e);
    PrimeiraComoEscrito(nome, q1, e);
    SegundaComoEscrito(nome, q1, q2, e);
    assert linhas == [linhas[0], linhas[1]];
  }

  /** With every added row visible, the second row updates the first. */
  lemma LinhaRepetidaComTudoVisivel(nome: string, q1: int, q2: int, e: int)
    requires nome != [] && Text.Trim(nome, Text.IsPySpace) == nome
    ensures ImportarLinhas(Vazia(), LinhasRepetidas(nome, q1, q2), e, true)
      == Ok(Importacao([Produto(1, nome, Some(nome))], [Estoque(1, q2, 1, e)], 2, 2, 1, 2))
  {
    var linhas := LinhasRepetidas(nome, q1, q2);
    LinhasRepetidasAcoes(nome, q1, q2);
    DuasLinhas(Vazia(), linhas[0], linhas[1], nome, q1, q2, e);
    PrimeiraVisivel(nome, q1, e);
    SegundaVisivel(nome, q1, q2, e);
    assert linhas == [linhas[0], linhas[1]];
  }

  /** The category total counts both stock rows. */
  lemma EstoqueDuplicadoSoma(nome: string, q1: int, q2: int, e: int)
    ensures Crud.CalcularEstoquePorCategoria([Estoque(1, q1, 1, e), Estoque(2, q2, 1, e)], [Produto(1, nome, Some(nome))], e, nome)
      == q1 + q2
  {
    var x := Produto(1, nome, Some(nome));
    var a, b := [Estoque(1, q1, 1, e)], [Estoque(2, q2, 1, e)];
    assert Crud.ILike(nome, nome);
    Crud.EstoqueConcat(a, b, [x], e, nome);
    assert a + b == [Estoque(1, q1, 1, e), Estoque(2, q2, 1, e)];
    assert IndexWhere([x], (p: Produto) => p.id == 1) == Some(0);
    assert Crud.CalcularEstoquePorCategoria(a, [x], e, nome) == q1 by {
      assert a[1..] == [];
    }
    assert Crud.CalcularEstoquePorCategoria(b, [x], e, nome) == q2 by {
      assert b[1..] == [];
    }
  }

  /** A name repeated in one sheet whose product is new: as written the second row
      does not see the first row's pending stock row and inserts another, so the
      entity ends with two stock rows for the product and
      `calcular_estoque_por_categoria` adds both quantities; with every row
      visible the second row updates the first and the product holds the last
      quantity. */
  lemma LinhaRepetidaDuplicaEstoque(nome: string, q1: int, q2: int, e: int)
    requires nome != [] && Text.Trim(nome, Text.IsPySpace) == nome
    ensures var x := Produto(1, nome, Some(nome));
      var duas := [Estoque(1, q1, 1, e), Estoque(2, q2, 1, e)];
      ImportarLinhasComoEscrito(Sessao(Vazia(), 0), LinhasRepetidas(nome, q1, q2), e, true)
        == Ok(Sessao(Importacao([x], duas, 2, 3, 1, 2), 0))
      && Crud.CalcularEstoquePorCategoria(duas, [x], e, nome) == q1 + q2
      && ImportarLinhas(Vazia(), LinhasRepetidas(nome, q1, q2), e, true)
        == Ok(Importacao([x], [Estoque(1, q2, 1, e)], 2, 2, 1, 2))
  {
    LinhaRepetidaComoEscrito(nome, q1, q2, e);
    EstoqueDuplicadoSoma(nome, q1, q2, e);
    LinhaRepetidaComTudoVisivel(nome, q1, q2, e);
  }

  // ------------------------------------------------------------ the route itself

  /** The body of the loop for a row that is not skipped. */
  method GravarNaSessao(s: Importacao, nome: string, quantidade: int, entidadeId: int, entidadeExiste: bool)
    returns (r: Result<Importacao, Falha>)
    ensures r == GravarLinha(s, nome, quantidade, entidadeId, entidadeExiste)
  {
    var produtos := s.produtos;
    var proximoProdutoId := s.proximoProdutoId;
    var produtosCriados := s.produtosCriados;
    var produto := ProdutoPorNome(produtos, nome);
    var produtoId: int;
    if produto.None? {
      produtoId := proximoProdutoId;
      produtos := produtos + [Produto(produtoId, nome, Some(nome))];
      proximoProdutoId := proximoProdutoId + 1;
      produtosCriados := produtosCriados + 1;
    } else {
      produtoId := produtos[produto.value].id;
    }
    var estoques := s.estoques;
    var proximoEstoqueId := s.proximoEstoqueId;
    var estoque := EstoqueDe(estoques, produtoId, entidadeId);
    if estoque.Some? {
      estoques := estoques[estoque.value := estoques[estoque.value].(quantidadeSistema := quantidade)];
    } else {
      if !entidadeExiste {
        return Err(EntidadeInexistente(entidadeId));
      }
      estoques := estoques + [Estoque(proximoEstoqueId, quantidade, produtoId, entidadeId)];
      proximoEstoqueId := proximoEstoqueId + 1;
    }
    r := Ok(Importacao(produtos, estoques, proximoProdutoId, proximoEstoqueId, produtosCriados, s.estoquesAtualizados + 1));
  }

  /** The rows loop, on the session's working copy. */
  method ImportarNaSessao(inicio: Importacao, linhas: seq<Linha>, entidadeId: int, entidadeExiste: bool)
    returns (r: Result<Importacao, Falha>)
    ensures r == ImportarLinhas(inicio, linhas, entidadeId, entidadeExiste)
  {
    var s := inicio;
    for i := 0 to |linhas|
      invariant ImportarLinhas(inicio, linhas[..i], entidadeId, entidadeExiste) == Ok(s)
    {
      ImportarPasso(inicio, linhas, entidadeId, entidadeExiste, i);
      var acao := AcaoDaLinha(linhas[i]);
      if acao.Rejeitar? {
        FalhaPersiste(inicio, linhas, entidadeId, entidadeExiste, i + 1);
        return Err(QuantidadeInvalida(acao.valor));
      } else if acao.Gravar? {
        var t := GravarNaSessao(s, acao.nome, acao.quantidade, entidadeId, entidadeExiste);
        if t.Err? {
          FalhaPersiste(inicio, linhas, entidadeId, entidadeExiste, i + 1);
          return t;
        }
        s := t.value;
      }
    }
    assert linhas[..|linhas|] == linhas;
    r := Ok(s);
  }

  /** Once a prefix fails, the whole sequence fails the same way. */
  lemma {:induction false} FalhaPersiste(s: Importacao, linhas: seq<Linha>, entidadeId: int, entidadeExiste: bool, n: nat)
    requires n <= |linhas| && ImportarLinhas(s, linhas[..n], entidadeId, entidadeExiste).Err?
    ensures ImportarLinhas(s, linhas, entidadeId, entidadeExiste) == ImportarLinhas(s, linhas[..n], entidadeId, entidadeExiste)
    decreases |linhas| - n
  {
    if n < |linhas| {
      assert linhas[..n + 1][..n] == linhas[..n];
      FalhaPersiste(s, linhas, entidadeId, entidadeExiste, n + 1);
    } else {
      assert linhas[..n] == linhas;
    }
  }

  /** Writes an import's product and stock tables into the database. */
  method GravarTabelas(db: Crud.Database, s: Importacao)
    requires db.Valid() && Consistente(s)
    modifies db
    ensures db.Valid()
    ensures db.produtos == s.produtos && db.estoques == s.estoques
    ensures db.proximoProdutoId == s.proximoProdutoId && db.proximoEstoqueId == s.proximoEstoqueId
    ensures db.entidades == old(db.entidades) && db.auditorias == old(db.auditorias) && db.escopos == old(db.escopos)
    ensures db.configuracao == old(db.configuracao)
    ensures db.proximoAuditoriaId == old(db.proximoAuditoriaId) && db.proximoEscopoId == old(db.proximoEscopoId)
  {
    db.produtos, db.estoques := s.produtos, s.estoques;
    db.proximoProdutoId, db.proximoEstoqueId := s.proximoProdutoId, s.proximoEstoqueId;
  }

  /** `importar_planilha_geral`: on success the tables, the last-update setting and
      the message; on any failure the database is left as it was. */
  method ImportarPlanilhaGeral(db: Crud.Database, planilha: Planilha, entidadeId: int, agora: Clock.DateTime)
    returns (r: Result<string, Falha>)
    requires db.Valid() && Clock.Valid(agora)
    modifies db
    ensures db.Valid()
    ensures var esperado := Importar(
        Importacao(old(db.produtos), old(db.estoques), old(db.proximoProdutoId), old(db.proximoEstoqueId), 0, 0),
        planilha, entidadeId, Crud.BuscarEntidade(old(db.entidades), entidadeId).Some?);
      if esperado.Err? then
        r == Err(esperado.error) && unchanged(db)
      else
        r == Ok(Mensagem(esperado.value.produtosCriados, esperado.value.estoquesAtualizados))
        && db.produtos == esperado.value.produtos && db.estoques == esperado.value.estoques
        && db.proximoProdutoId == esperado.value.proximoProdutoId && db.proximoEstoqueId == esperado.value.proximoEstoqueId
        && db.configuracao == old(db.configuracao)[Crud.ChaveUltimaAtualizacao := Crud.CarimboAtualizacao(agora)]
        && db.entidades == old(db.entidades) && db.auditorias == old(db.auditorias) && db.escopos == old(db.escopos)
        && db.proximoAuditoriaId == old(db.proximoAuditoriaId) && db.proximoEscopoId == old(db.proximoEscopoId)
  {
    if ColunaItem !in planilha.colunas || ColunaEstoque !in planilha.colunas {
      return Err(PlanilhaInvalida);
    }
    var entidadeExiste := Crud.BuscarEntidade(db.entidades, entidadeId).Some?;
    var inicio := Importacao(db.produtos, db.estoques, db.proximoProdutoId, db.proximoEstoqueId, 0, 0);
    var sessao := ImportarNaSessao(inicio, planilha.linhas, entidadeId, entidadeExiste);
    if sessao.Err? {
      return Err(sessao.error);
    }
    var s := sessao.value;
    ImportarPreserva(inicio, planilha.linhas, entidadeId, entidadeExiste);
    GravarTabelas(db, s);
    db.SetUltimaAtualizacaoEstoque(agora);
    r := Ok(Mensagem(s.produtosCriados, s.estoquesAtualizados));
  }
}
