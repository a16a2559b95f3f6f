/** crud.py: the audit database's queries and updates. The read-only queries are
    functions of the tables; the updates are methods of `Database`. */
module Crud {

  import opened Wrappers
  import opened Models
  import Text
  import Decimal
  import Clock
  import Normalize
  import Sorting

  // ---------------------------------------------------------------- categories

  /** `SELECT DISTINCT grupo FROM produtos WHERE grupo IS NOT NULL`, in order of
      first appearance. */
  function GruposDistintos(produtos: seq<Produto>): (r: seq<string>)
    ensures forall i, j :: 0 <= i < j < |r| ==> r[i] != r[j]
    ensures forall i :: 0 <= i < |produtos| && produtos[i].grupo.Some? ==> produtos[i].grupo.value in r
    ensures forall g :: g in r ==> Some(g) in GruposDe(produtos)
  {
    if produtos == [] then []
    else
      var prefix := produtos[..|produtos| - 1];
      var d := GruposDistintos(prefix);
      var g := produtos[|produtos| - 1].grupo;
      assert forall i :: 0 <= i < |prefix| ==> prefix[i] == produtos[i];
      assert GruposDe(produtos) == GruposDe(prefix) + [g];
      if g.Some? && g.value !in d then d + [g.value] else d
  }

  function GruposDe(produtos: seq<Produto>): (r: seq<Option<string>>)
    ensures |r| == |produtos| && forall i :: 0 <= i < |r| ==> r[i] == produtos[i].grupo
  {
    seq(|produtos|, i requires 0 <= i < |produtos| => produtos[i].grupo)
  }

  /** The keys of `valores` under `chave`, in order. */
  function Chaves(valores: seq<string>, chave: string -> string): (r: seq<string>)
    ensures |r| == |valores| && forall i :: 0 <= i < |r| ==> r[i] == chave(valores[i])
  {
    seq(|valores|, i requires 0 <= i < |valores| => chave(valores[i]))
  }

  lemma ChavesMaisUm(valores: seq<string>, v: string, chave: string -> string)
    ensures Chaves(valores + [v], chave) == Chaves(valores, chave) + [chave(v)]
  {
  }

  predicate ChavesDistintas(valores: seq<string>, chave: string -> string) {
    forall i, j :: 0 <= i < j < |valores| ==> chave(valores[i]) != chave(valores[j])
  }

  /** The values of the `grupos_unicos` dictionary in insertion order: for each key,
      the first non-empty group that has it. */
  function Representantes(grupos: seq<string>, chave: string -> string): (r: seq<string>)
    ensures ChavesDistintas(r, chave)
    ensures forall v :: v in r ==> v != "" && v in grupos
    ensures forall i :: 0 <= i < |grupos| && grupos[i] != "" ==> chave(grupos[i]) in Chaves(r, chave)
  {
    if grupos == [] then []
    else
      var prefix := grupos[..|grupos| - 1];
      var g := grupos[|grupos| - 1];
      var r := Representantes(prefix, chave);
      assert forall i :: 0 <= i < |prefix| ==> prefix[i] == grupos[i];
      if g != "" && chave(g) !in Chaves(r, chave) then
        assert Chaves(r + [g], chave) == Chaves(r, chave) + [chave(g)];
        r + [g]
      else r
  }

  /** One more group either joins the representatives or leaves them as they are. */
  lemma RepresentantesPasso(grupos: seq<string>, chave: string -> string, i: nat)
    requires i < |grupos|
    ensures var r := Representantes(grupos[..i], chave);
      Representantes(grupos[..i + 1], chave) ==
        if grupos[i] != "" && chave(grupos[i]) !in Chaves(r, chave) then r + [grupos[i]] else r
  {
    assert grupos[..i + 1][..i] == grupos[..i];
  }

  /** The loop of `obter_todas_categorias_importadas`: fills the `grupos_unicos`
      dictionary (key to first group seen) and returns its values in insertion order. */
  method GruposUnicos(consulta: seq<string>, chave: string -> string) returns (valores: seq<string>)
    ensures valores == Representantes(consulta, chave)
  {
    var gruposUnicos: map<string, string> := map[];
    var ordem: seq<string> := [];
    ghost var reps: seq<string> := [];
    for i := 0 to |consulta|
      invariant reps == Representantes(consulta[..i], chave)
      invariant ordem == Chaves(reps, chave)
      invariant forall k :: k in gruposUnicos <==> k in ordem
      invariant forall j :: 0 <= j < |ordem| ==> gruposUnicos[ordem[j]] == reps[j]
    {
      var grupo := consulta[i];
      RepresentantesPasso(consulta, chave, i);
      if grupo != "" {
        var grupoNormalizado := chave(grupo);
        if grupoNormalizado !in gruposUnicos {
          gruposUnicos := gruposUnicos[grupoNormalizado := grupo];
          ordem := ordem + [grupoNormalizado];
          ChavesMaisUm(reps, grupo, chave);
          reps := reps + [grupo];
        }
      }
    }
    assert consulta[..|consulta|] == consulta;
    valores := seq(|ordem|, j requires 0 <= j < |ordem| && ordem[j] in gruposUnicos => gruposUnicos[ordem[j]]);
  }

  /** `obter_todas_categorias_importadas`: the distinct non-null groups, one per
      normalised key, sorted. */
  method ObterTodasCategoriasImportadas(produtos: seq<Produto>) returns (categorias: seq<string>)
    ensures categorias == Sorting.SortStrings(Representantes(GruposDistintos(produtos), Normalize.NormalizeString))
  {
    var valores := GruposUnicos(GruposDistintos(produtos), Normalize.NormalizeString);
    categorias := Sorting.SortStrings(valores);
  }

  lemma PermutationMembers(a: seq<string>, b: seq<string>)
    requires multiset(a) == multiset(b)
    ensures forall c :: c in a <==> c in b
  {
    forall c ensures c in a <==> c in b {
      assert c in a <==> c in multiset(a);
      assert c in b <==> c in multiset(b);
    }
  }

  /** The category listing is sorted and no two of its entries share a key. */
  lemma CategoriasOrdenadasSemRepeticao(produtos: seq<Produto>, chave: string -> string)
    ensures Sorting.SortedStrings(Sorting.SortStrings(Representantes(GruposDistintos(produtos), chave)))
    ensures ChavesDistintas(Sorting.SortStrings(Representantes(GruposDistintos(produtos), chave)), chave)
  {
    var reps := Representantes(GruposDistintos(produtos), chave);
    var categorias := Sorting.SortStrings(reps);
    forall i, j | 0 <= i < j < |categorias|
      ensures chave(categorias[i]) != chave(categorias[j])
    {
      DistinctKeysPermutation(reps, categorias, chave, i, j);
    }
  }

  /** Every listed category is a non-empty group that some product has. */
  lemma CategoriasSaoGrupos(produtos: seq<Produto>, chave: string -> string)
    ensures forall c :: c in Sorting.SortStrings(Representantes(GruposDistintos(produtos), chave)) ==>
      c != "" && Some(c) in GruposDe(produtos)
  {
    var reps := Representantes(GruposDistintos(produtos), chave);
    PermutationMembers(reps, Sorting.SortStrings(reps));
  }

  /** Every non-empty group of every product is represented by a listed category
      with the same key. */
  lemma CategoriasCompletas(produtos: seq<Produto>, chave: string -> string)
    ensures forall i :: 0 <= i < |produtos| && produtos[i].grupo.Some? && produtos[i].grupo.value != "" ==>
      chave(produtos[i].grupo.value) in Chaves(Sorting.SortStrings(Representantes(GruposDistintos(produtos), chave)), chave)
  {
    forall i | 0 <= i < |produtos| && produtos[i].grupo.Some? && produtos[i].grupo.value != "" {
      CategoriaCompleta(produtos, chave, i);
    }
  }

  lemma {:induction false} CategoriaCompleta(produtos: seq<Produto>, chave: string -> string, i: int)
    requires 0 <= i < |produtos| && produtos[i].grupo.Some? && produtos[i].grupo.value != ""
    ensures chave(produtos[i].grupo.value) in Chaves(Sorting.SortStrings(Representantes(GruposDistintos(produtos), chave)), chave)
  {
    var gs := GruposDistintos(produtos);
    var reps := Representantes(gs, chave);
    var categorias := Sorting.SortStrings(reps);
    var g := produtos[i].grupo.value;
    assert g in gs;
    var k :| 0 <= k < |gs| && gs[k] == g;
    assert chave(gs[k]) in Chaves(reps, chave);
    ChaveDaPermutacao(reps, categorias, chave, chave(g));
  }

  /** A key of a list is a key of every permutation of it. */
  lemma ChaveDaPermutacao(a: seq<string>, b: seq<string>, chave: string -> string, x: string)
    requires multiset(a) == multiset(b) && x in Chaves(a, chave)
    ensures x in Chaves(b, chave)
  {
    var m :| 0 <= m < |a| && Chaves(a, chave)[m] == x;
    assert a[m] in multiset(b);
    var n :| 0 <= n < |b| && b[n] == a[m];
    assert Chaves(b, chave)[n] == x;
  }

  /** A permutation of a list with pairwise distinct keys has pairwise distinct keys. */
  lemma DistinctKeysPermutation(a: seq<string>, b: seq<string>, chave: string -> string, i: int, j: int)
    requires ChavesDistintas(a, chave)
    requires multiset(a) == multiset(b)
    requires 0 <= i < j < |b|
    ensures chave(b[i]) != chave(b[j])
  {
    if b[i] == b[j] {
      RepetidoContaDois(b, i, j);
      CountAtMostOne(a, b[i], chave);
    } else {
      assert b[i] in multiset(a) && b[j] in multiset(a);
      var x :| 0 <= x < |a| && a[x] == b[i];
      var y :| 0 <= y < |a| && a[y] == b[j];
      assert x != y;
      if x > y {
        assert chave(a[y]) != chave(a[x]);
      }
    }
  }

  lemma RepetidoContaDois(b: seq<string>, i: int, j: int)
    requires 0 <= i < j < |b| && b[i] == b[j]
    ensures multiset(b)[b[i]] >= 2
  {
    assert b == b[..j] + b[j..];
    assert b[i] in b[..j] && b[j] in b[j..];
    assert multiset(b) == multiset(b[..j]) + multiset(b[j..]);
  }

  lemma {:induction false} CountAtMostOne(a: seq<string>, v: string, chave: string -> string)
    requires ChavesDistintas(a, chave)
    ensures multiset(a)[v] <= 1
  {
    if a != [] {
      assert a == [a[0]] + a[1..];
      CountAtMostOne(a[1..], v, chave);
      if a[0] == v {
        assert v !in a[1..];
      }
    }
  }

  // ------------------------------------------------------------- stock totals

  /** SQL `ilike` without wildcards: equality up to ASCII letter case. */
  predicate ILike(valor: string, padrao: string)
    ensures ILike(valor, padrao) <==> |valor| == |padrao| && forall i :: 0 <= i < |valor| ==>
      (valor[i] == padrao[i] || (valor[i] as int - padrao[i] as int == 32 && 'a' <= valor[i] <= 'z')
       || (padrao[i] as int - valor[i] as int == 32 && 'a' <= padrao[i] <= 'z'))
  {
    Text.AsciiLower(valor) == Text.AsciiLower(padrao)
  }

  /** The stock row joins a product whose group matches `categoria` and belongs to
      the entity. */
  predicate EstoqueDaCategoria(produtos: seq<Produto>, e: Estoque, entidadeId: int, categoria: string) {
    var p := IndexWhere(produtos, (x: Produto) => x.id == e.produtoId);
    p.Some? && produtos[p.value].grupo.Some? && ILike(produtos[p.value].grupo.value, categoria)
    && e.entidadeId == entidadeId
  }

  /** `calcular_estoque_por_categoria`: the sum of `quantidade_sistema` over the
      entity's stock rows in the category, 0 when there are none. */
  function CalcularEstoquePorCategoria(estoques: seq<Estoque>, produtos: seq<Produto>, entidadeId: int, categoria: string): (r: int)
    ensures (forall i :: 0 <= i < |estoques| ==> !EstoqueDaCategoria(produtos, estoques[i], entidadeId, categoria)) ==> r == 0
    ensures (forall i :: 0 <= i < |estoques| ==> estoques[i].quantidadeSistema >= 0) ==> r >= 0
  {
    if estoques == [] then 0
    else
      (if EstoqueDaCategoria(produtos, estoques[0], entidadeId, categoria) then estoques[0].quantidadeSistema else 0)
      + CalcularEstoquePorCategoria(estoques[1..], produtos, entidadeId, categoria)
  }

  /** The total over two groups of rows is the sum of their totals. */
  lemma {:induction false} EstoqueConcat(a: seq<Estoque>, b: seq<Estoque>, produtos: seq<Produto>, entidadeId: int, categoria: string)
    ensures CalcularEstoquePorCategoria(a + b, produtos, entidadeId, categoria)
      == CalcularEstoquePorCategoria(a, produtos, entidadeId, categoria) + CalcularEstoquePorCategoria(b, produtos, entidadeId, categoria)
  {
    if a != [] {
      assert (a + b)[1..] == a[1..] + b;
      EstoqueConcat(a[1..], b, produtos, entidadeId, categoria);
    } else {
      assert a + b == b;
    }
  }

  /** Category names that differ only in ASCII letter case give the same total. */
  lemma {:induction false} EstoqueIgnoraCaixa(estoques: seq<Estoque>, produtos: seq<Produto>, entidadeId: int, c1: string, c2: string)
    requires Text.AsciiLower(c1) == Text.AsciiLower(c2)
    ensures CalcularEstoquePorCategoria(estoques, produtos, entidadeId, c1) == CalcularEstoquePorCategoria(estoques, produtos, entidadeId, c2)
  {
    if estoques != [] {
      EstoqueIgnoraCaixa(estoques[1..], produtos, entidadeId, c1, c2);
    }
  }

  // ------------------------------------------------------- listing and details

  /** A user sees every audit if admin, otherwise only their own entity's. */
  predicate Visivel(a: Auditoria, user: User) {
    IsAdmin(user) || a.entidadeId == user.entidadeId
  }

  /** `listar_auditorias`: the audits the user sees, newest id first. */
  function ListarAuditorias(auditorias: seq<Auditoria>, user: User): (r: seq<Auditoria>)
    requires AuditoriasOrdenadas(auditorias)
    ensures forall a :: a in r <==> a in auditorias && Visivel(a, user)
    ensures forall i, j :: 0 <= i < j < |r| ==> r[i].id > r[j].id
  {
    if auditorias == [] then []
    else
      var ultima := auditorias[|auditorias| - 1];
      var anteriores := auditorias[..|auditorias| - 1];
      assert forall i :: 0 <= i < |anteriores| ==> anteriores[i] == auditorias[i];
      assert auditorias == anteriores + [ultima];
      var resto := ListarAuditorias(anteriores, user);
      forall i | 0 <= i < |resto| ensures resto[i].id < ultima.id {
        assert resto[i] in anteriores;
        var j :| 0 <= j < |anteriores| && anteriores[j] == resto[i];
        assert auditorias[j].id < auditorias[|auditorias| - 1].id;
      }
      (if Visivel(ultima, user) then [ultima] else []) + resto
  }

  /** The scope rows of one audit, in table order. */
  function EscopoDa(escopos: seq<EscopoAuditoria>, auditoriaId: int): (r: seq<EscopoAuditoria>)
    ensures forall e :: e in r <==> e in escopos && e.auditoriaId == auditoriaId
  {
    if escopos == [] then []
    else
      assert escopos == [escopos[0]] + escopos[1..];
      (if escopos[0].auditoriaId == auditoriaId then [escopos[0]] else []) + EscopoDa(escopos[1..], auditoriaId)
  }

  /** Rows of other audits followed by rows of this one: the audit's scope is the
      latter, in order. */
  lemma {:induction false} EscopoDaNovos(antigos: seq<EscopoAuditoria>, novos: seq<EscopoAuditoria>, auditoriaId: int)
    requires forall i :: 0 <= i < |antigos| ==> antigos[i].auditoriaId != auditoriaId
    requires forall i :: 0 <= i < |novos| ==> novos[i].auditoriaId == auditoriaId
    ensures EscopoDa(antigos + novos, auditoriaId) == novos
  {
    if antigos != [] {
      assert (antigos + novos)[1..] == antigos[1..] + novos;
      EscopoDaNovos(antigos[1..], novos, auditoriaId);
    } else if novos != [] {
      assert antigos + novos == novos;
      EscopoDaNovos([], novos[1..], auditoriaId);
      assert [] + novos[1..] == novos[1..];
    }
  }

  /** `get_auditoria_detalhes`: the audit with that id if the user sees it, with its
      scope rows. */
  function GetAuditoriaDetalhes(auditorias: seq<Auditoria>, escopos: seq<EscopoAuditoria>, auditoriaId: int, user: User): (r: Option<AuditoriaDetalhe>)
    ensures r.Some? ==> r.value.auditoria in auditorias && r.value.auditoria.id == auditoriaId && Visivel(r.value.auditoria, user)
    ensures r.Some? ==> forall e :: e in r.value.escopo <==> e in escopos && e.auditoriaId == auditoriaId
    ensures r.None? <==> forall i :: 0 <= i < |auditorias| ==> !(auditorias[i].id == auditoriaId && Visivel(auditorias[i], user))
  {
    var k := IndexWhere(auditorias, (a: Auditoria) => a.id == auditoriaId && Visivel(a, user));
    if k.Some? then Some(AuditoriaDetalhe(auditorias[k.value], EscopoDa(escopos, auditoriaId))) else None
  }

  // ---------------------------------------------------------- audit creation

  const ErroAdminSemEntidade := "Admin deve selecionar uma entidade para criar a auditoria."

  /** The entity an audit is created for: the payload's for the admin, who must
      give a non-zero one, and the user's own entity for everyone else. */
  function EntidadeAlvo(dados: AuditoriaScopeCreate, user: User): (r: Result<int, string>)
    ensures !IsAdmin(user) ==> r == Ok(user.entidadeId)
    ensures IsAdmin(user) ==> (r.Err? <==> dados.entidadeId == 0)
    ensures IsAdmin(user) && r.Ok? ==> r.value == dados.entidadeId
  {
    if IsAdmin(user) then
      if dados.entidadeId == 0 then Err(ErroAdminSemEntidade) else Ok(dados.entidadeId)
    else Ok(user.entidadeId)
  }

  function BuscarEntidade(entidades: seq<Entidade>, id: int): (r: Option<Entidade>)
    ensures r.Some? ==> r.value in entidades && r.value.id == id
    ensures r.None? ==> forall i :: 0 <= i < |entidades| ==> entidades[i].id != id
  {
    var k := IndexWhere(entidades, (e: Entidade) => e.id == id);
    if k.Some? then Some(entidades[k.value]) else None
  }

  /** "Auditoria <entity> - dd/mm/yyyy HH:MM". */
  function NomeAuditoria(entidade: string, agora: Clock.DateTime): string
    requires Clock.Valid(agora)
  {
    "Auditoria " + entidade + " - " + Clock.Format(agora, " ")
  }

  /** The name holds the entity's name and then the creation time, whose fields
      read back. */
  lemma NomeAuditoriaPartes(entidade: string, agora: Clock.DateTime)
    requires Clock.Valid(agora)
    ensures var r, n := NomeAuditoria(entidade, agora), |entidade|;
      |r| == 29 + n && r[..10] == "Auditoria " && r[10..10 + n] == entidade && r[10 + n..13 + n] == " - "
      && r[23 + n] == ' ' && Clock.Campos(r[13 + n..], 1, agora)
  {
    var r, n := NomeAuditoria(entidade, agora), |entidade|;
    assert r[13 + n..] == Clock.Format(agora, " ");
    Clock.FormatLidoDeVolta(agora, " ");
  }

  /** The audit `criar_auditoria_com_escopo` stores: named after the entity and the
      time, coded "AUD-<year>-<id>", open (no `data_fim`). */
  function NovaAuditoria(id: int, entidade: Entidade, responsavel: string, agora: Clock.DateTime): (a: Auditoria)
    requires Clock.Valid(agora)
    ensures a.id == id && a.entidadeId == entidade.id && a.responsavel == responsavel
    ensures a.dataInicio == agora && a.dataFim.None?
    ensures a.nome == NomeAuditoria(entidade.nome, agora) && a.codigoReferencia == CodigoReferencia(agora.year, id)
  {
    Auditoria(id, NomeAuditoria(entidade.nome, agora), CodigoReferencia(agora.year, id), entidade.id,
              responsavel, agora, None)
  }

  /** "AUD-<year>-<id>". */
  function CodigoReferencia(ano: int, id: int): (r: string)
    ensures |r| >= 4 && r[..4] == "AUD-"
  {
    "AUD-" + Decimal.IntToString(ano) + "-" + Decimal.IntToString(id)
  }

  /** The reference code splits at '-' into its three parts and its last part reads
      back as the audit id. */
  lemma CodigoReferenciaPartes(ano: nat, id: nat)
    ensures Text.Split(CodigoReferencia(ano, id), "-") == ["AUD", Decimal.IntToString(ano), Decimal.IntToString(id)]
    ensures Decimal.ParseIntJs(Text.Split(CodigoReferencia(ano, id), "-")[2]) == Some(id)
  {
    var a := Decimal.IntToString(ano);
    var b := Decimal.IntToString(id);
    assert '-' !in a && '-' !in b by {
      assert forall i :: 0 <= i < |a| ==> Decimal.IsDigit(a[i]);
      assert forall i :: 0 <= i < |b| ==> Decimal.IsDigit(b[i]);
    }
    assert CodigoReferencia(ano, id) == "AUD" + "-" + a + "-" + b;
    Text.SplitThree("AUD", "-", a, b);
    Decimal.ParseIntRoundTrip(id);
  }

  /** Audits with different ids get different reference codes. */
  lemma CodigoReferenciaUnico(ano1: nat, id1: nat, ano2: nat, id2: nat)
    requires id1 != id2
    ensures CodigoReferencia(ano1, id1) != CodigoReferencia(ano2, id2)
  {
    CodigoReferenciaPartes(ano1, id1);
    CodigoReferenciaPartes(ano2, id2);
  }

  /** One scope row per requested category, numbered from `primeiroId`, holding the
      entity's stock total for that category and nothing counted yet. */
  function EscopoInicial(primeiroId: int, auditoriaId: int, entidadeId: int, categorias: seq<string>,
                         estoques: seq<Estoque>, produtos: seq<Produto>): (r: seq<EscopoAuditoria>)
    ensures |r| == |categorias|
    ensures forall i :: 0 <= i < |r| ==> r[i].id == primeiroId + i && r[i].auditoriaId == auditoriaId
    ensures forall i :: 0 <= i < |r| ==>
              && r[i].categoriaNome == categorias[i]
              && r[i].qtdSistema == CalcularEstoquePorCategoria(estoques, produtos, entidadeId, categorias[i])
              && r[i].qtdContada == 0 && r[i].diferenca == 0 && r[i].dataContagem.None?
  {
    seq(|categorias|, i requires 0 <= i < |categorias| =>
      EscopoAuditoria(primeiroId + i, categorias[i], auditoriaId,
                      CalcularEstoquePorCategoria(estoques, produtos, entidadeId, categorias[i]), 0, 0, None))
  }

  lemma EscopoInicialMaisUma(primeiroId: int, auditoriaId: int, entidadeId: int, categorias: seq<string>,
                             estoques: seq<Estoque>, produtos: seq<Produto>, i: nat)
    requires i < |categorias|
    ensures EscopoInicial(primeiroId, auditoriaId, entidadeId, categorias[..i + 1], estoques, produtos)
         == EscopoInicial(primeiroId, auditoriaId, entidadeId, categorias[..i], estoques, produtos)
            + [EscopoAuditoria(primeiroId + i, categorias[i], auditoriaId,
                               CalcularEstoquePorCategoria(estoques, produtos, entidadeId, categorias[i]), 0, 0, None)]
  {
  }

  /** The loop of `criar_auditoria_com_escopo` that builds one scope row per category. */
  method CriarEscopo(primeiroId: int, auditoriaId: int, entidadeId: int, categorias: seq<string>,
                     estoques: seq<Estoque>, produtos: seq<Produto>) returns (novos: seq<EscopoAuditoria>)
    ensures novos == EscopoInicial(primeiroId, auditoriaId, entidadeId, categorias, estoques, produtos)
  {
    novos := [];
    for i := 0 to |categorias|
      invariant novos == EscopoInicial(primeiroId, auditoriaId, entidadeId, categorias[..i], estoques, produtos)
    {
      EscopoInicialMaisUma(primeiroId, auditoriaId, entidadeId, categorias, estoques, produtos, i);
      var qtdSistema := CalcularEstoquePorCategoria(estoques, produtos, entidadeId, categorias[i]);
      novos := novos + [EscopoAuditoria(primeiroId + i, categorias[i], auditoriaId, qtdSistema, 0, 0, None)];
    }
    assert categorias[..|categorias|] == categorias;
  }

  lemma NovasChaves(antigas: seq<Auditoria>, nova: Auditoria, antigos: seq<EscopoAuditoria>, novos: seq<EscopoAuditoria>,
                    proximaAuditoria: int, proximoEscopo: int)
    requires AuditoriaIds(antigas, proximaAuditoria) && EscopoIds(antigos, proximoEscopo)
    requires nova.id == proximaAuditoria
    requires forall i :: 0 <= i < |novos| ==> novos[i].id == proximoEscopo + i && novos[i].auditoriaId == nova.id
    requires forall i :: 0 <= i < |antigos| ==> antigos[i].auditoriaId < proximaAuditoria
    ensures AuditoriaIds(antigas + [nova], proximaAuditoria + 1)
    ensures EscopoIds(antigos + novos, proximoEscopo + |novos|)
    ensures forall i :: 0 <= i < |antigos + novos| ==> (antigos + novos)[i].auditoriaId < proximaAuditoria + 1
  {
  }

  /** A newly appended audit, with a fresh id and its own new scope rows, is what
      `get_auditoria_detalhes` finds for that id. */
  lemma DetalheDaNova(antigas: seq<Auditoria>, nova: Auditoria, antigos: seq<EscopoAuditoria>, novos: seq<EscopoAuditoria>, user: User)
    requires forall i :: 0 <= i < |antigas| ==> antigas[i].id < nova.id
    requires forall i :: 0 <= i < |antigos| ==> antigos[i].auditoriaId < nova.id
    requires forall i :: 0 <= i < |novos| ==> novos[i].auditoriaId == nova.id
    requires Visivel(nova, user)
    ensures GetAuditoriaDetalhes(antigas + [nova], antigos + novos, nova.id, user) == Some(AuditoriaDetalhe(nova, novos))
  {
    EscopoDaNovos(antigos, novos, nova.id);
    var todas := antigas + [nova];
    assert forall i :: 0 <= i < |antigas| ==> todas[i].id != nova.id;
    assert todas[|antigas|] == nova;
  }

  // ------------------------------------------------------------ saving counts

  predicate LinhaDe(e: EscopoAuditoria, auditoriaId: int, nome: string) {
    e.auditoriaId == auditoriaId && e.categoriaNome == nome
  }

  /** The row `escopo_map` holds for `nome` after its first `n` rows: the last of
      the audit's rows with that name. */
  function UltimoEscopo(escopos: seq<EscopoAuditoria>, auditoriaId: int, nome: string, n: nat): (r: Option<nat>)
    requires n <= |escopos|
    ensures r.Some? ==> r.value < n && LinhaDe(escopos[r.value], auditoriaId, nome)
    ensures r.Some? ==> forall j :: r.value < j < n ==> !LinhaDe(escopos[j], auditoriaId, nome)
    ensures r.None? ==> forall j :: 0 <= j < n ==> !LinhaDe(escopos[j], auditoriaId, nome)
  {
    if n == 0 then None
    else if LinhaDe(escopos[n - 1], auditoriaId, nome) then Some(n - 1)
    else UltimoEscopo(escopos, auditoriaId, nome, n - 1)
  }

  /** Which row a name selects depends only on the rows' names and audits. */
  lemma {:induction false} UltimoEscopoMesmasLinhas(a: seq<EscopoAuditoria>, b: seq<EscopoAuditoria>, auditoriaId: int, nome: string, n: nat)
    requires n <= |a| == |b|
    requires forall k :: 0 <= k < |a| ==> a[k].auditoriaId == b[k].auditoriaId && a[k].categoriaNome == b[k].categoriaNome
    ensures UltimoEscopo(a, auditoriaId, nome, n) == UltimoEscopo(b, auditoriaId, nome, n)
  {
    if n > 0 {
      UltimoEscopoMesmasLinhas(a, b, auditoriaId, nome, n - 1);
    }
  }

  /** The count of the last input item with that name. */
  function UltimaContagem(contagens: seq<ContagemManualItem>, nome: string): (r: Option<int>)
    ensures r.None? <==> forall i :: 0 <= i < |contagens| ==> contagens[i].categoriaNome != nome
    ensures r.Some? ==> ContagemManualItem(nome, r.value) in contagens
  {
    if contagens == [] then None
    else
      var ultima := contagens[|contagens| - 1];
      var anteriores := contagens[..|contagens| - 1];
      assert forall i :: 0 <= i < |anteriores| ==> anteriores[i] == contagens[i];
      if ultima.categoriaNome == nome then Some(ultima.qtdContada)
      else UltimaContagem(anteriores, nome)
  }

  /** A scope row after a count: the counted quantity, its difference from the
      system quantity, and the time of counting. */
  function ContagemAplicada(e: EscopoAuditoria, qtd: int, agora: Clock.DateTime): (r: EscopoAuditoria)
    ensures r.diferenca == r.qtdContada - r.qtdSistema
  {
    e.(qtdContada := qtd, diferenca := qtd - e.qtdSistema, dataContagem := Some(agora))
  }

  /** Row `k` after the counts: the row `escopo_map` selects for its name takes the
      last count given for that name; every other row stays as it was. */
  function LinhaAposContagens(escopos: seq<EscopoAuditoria>, auditoriaId: int, contagens: seq<ContagemManualItem>, agora: Clock.DateTime, k: nat): EscopoAuditoria
    requires k < |escopos|
  {
    var q := UltimaContagem(contagens, escopos[k].categoriaNome);
    if UltimoEscopo(escopos, auditoriaId, escopos[k].categoriaNome, |escopos|) == Some(k) && q.Some?
    then ContagemAplicada(escopos[k], q.value, agora)
    else escopos[k]
  }

  /** The scope table after `salvar_contagens_manuais`. */
  function AplicarContagens(escopos: seq<EscopoAuditoria>, auditoriaId: int, contagens: seq<ContagemManualItem>, agora: Clock.DateTime): (r: seq<EscopoAuditoria>)
    ensures |r| == |escopos|
    ensures forall k :: 0 <= k < |r| ==>
      (r[k].id == escopos[k].id && r[k].auditoriaId == escopos[k].auditoriaId
       && r[k].categoriaNome == escopos[k].categoriaNome && r[k].qtdSistema == escopos[k].qtdSistema)
    ensures forall k :: 0 <= k < |r| && r[k] != escopos[k] ==>
      escopos[k].auditoriaId == auditoriaId && UltimaContagem(contagens, escopos[k].categoriaNome).Some?
    ensures forall k :: 0 <= k < |r| && r[k] != escopos[k] ==>
      r[k].diferenca == r[k].qtdContada - r[k].qtdSistema && r[k].dataContagem == Some(agora)
  {
    seq(|escopos|, k requires 0 <= k < |escopos| => LinhaAposContagens(escopos, auditoriaId, contagens, agora, k))
  }

  /** Every name in the input that some row of the audit has updates exactly that
      name's selected row, with the last count given for the name. */
  lemma ContagemAtualizaLinha(escopos: seq<EscopoAuditoria>, auditoriaId: int, contagens: seq<ContagemManualItem>, agora: Clock.DateTime, k: nat)
    requires k < |escopos| && escopos[k].auditoriaId == auditoriaId
    requires UltimaContagem(contagens, escopos[k].categoriaNome).Some?
    ensures var m := UltimoEscopo(escopos, auditoriaId, escopos[k].categoriaNome, |escopos|);
      m.Some? && k <= m.value
      && AplicarContagens(escopos, auditoriaId, contagens, agora)[m.value]
         == ContagemAplicada(escopos[m.value], UltimaContagem(contagens, escopos[k].categoriaNome).value, agora)
  {
  }

  /** Saving the same counts twice leaves the table as saving them once. */
  lemma AplicarContagensIdempotente(escopos: seq<EscopoAuditoria>, auditoriaId: int, contagens: seq<ContagemManualItem>, agora: Clock.DateTime)
    ensures AplicarContagens(AplicarContagens(escopos, auditoriaId, contagens, agora), auditoriaId, contagens, agora)
         == AplicarContagens(escopos, auditoriaId, contagens, agora)
  {
    var r := AplicarContagens(escopos, auditoriaId, contagens, agora);
    var rr := AplicarContagens(r, auditoriaId, contagens, agora);
    forall k | 0 <= k < |r| ensures rr[k] == r[k] {
      UltimoEscopoMesmasLinhas(r, escopos, auditoriaId, r[k].categoriaNome, |r|);
      assert rr[k] == LinhaAposContagens(r, auditoriaId, contagens, agora, k);
      assert r[k] == LinhaAposContagens(escopos, auditoriaId, contagens, agora, k);
    }
  }

  lemma UltimaContagemMaisUma(anteriores: seq<ContagemManualItem>, c: ContagemManualItem, nome: string)
    ensures UltimaContagem(anteriores + [c], nome)
         == if c.categoriaNome == nome then Some(c.qtdContada) else UltimaContagem(anteriores, nome)
  {
    var todas := anteriores + [c];
    assert todas[..|todas| - 1] == anteriores;
  }

  /** Taking one more input item: its name's selected row gets its count. */
  lemma AplicarMaisUma(escopos: seq<EscopoAuditoria>, auditoriaId: int, anteriores: seq<ContagemManualItem>, c: ContagemManualItem, agora: Clock.DateTime)
    ensures var antes := AplicarContagens(escopos, auditoriaId, anteriores, agora);
      var m := UltimoEscopo(escopos, auditoriaId, c.categoriaNome, |escopos|);
      AplicarContagens(escopos, auditoriaId, anteriores + [c], agora)
        == if m.Some? then antes[m.value := ContagemAplicada(antes[m.value], c.qtdContada, agora)] else antes
  {
    var antes := AplicarContagens(escopos, auditoriaId, anteriores, agora);
    var depois := AplicarContagens(escopos, auditoriaId, anteriores + [c], agora);
    var m := UltimoEscopo(escopos, auditoriaId, c.categoriaNome, |escopos|);
    var esperado := if m.Some? then antes[m.value := ContagemAplicada(antes[m.value], c.qtdContada, agora)] else antes;
    forall k | 0 <= k < |escopos| ensures depois[k] == esperado[k] {
      UltimaContagemMaisUma(anteriores, c, escopos[k].categoriaNome);
      assert depois[k] == LinhaAposContagens(escopos, auditoriaId, anteriores + [c], agora, k);
      assert antes[k] == LinhaAposContagens(escopos, auditoriaId, anteriores, agora, k);
    }
  }

  /** `escopo_map = {item.categoria_nome: item for item in escopo_db}`, as indices
      into the scope table: a later row with the same name replaces an earlier one. */
  method MontarEscopoMap(tabela: seq<EscopoAuditoria>, auditoriaId: int) returns (escopoMap: map<string, nat>)
    ensures forall nome :: nome in escopoMap <==> UltimoEscopo(tabela, auditoriaId, nome, |tabela|).Some?
    ensures forall nome :: nome in escopoMap ==> escopoMap[nome] == UltimoEscopo(tabela, auditoriaId, nome, |tabela|).value
  {
    escopoMap := map[];
    for k := 0 to |tabela|
      invariant forall nome :: nome in escopoMap <==> UltimoEscopo(tabela, auditoriaId, nome, k).Some?
      invariant forall nome :: nome in escopoMap ==> escopoMap[nome] == UltimoEscopo(tabela, auditoriaId, nome, k).value
    {
      if tabela[k].auditoriaId == auditoriaId {
        escopoMap := escopoMap[tabela[k].categoriaNome := k];
      }
    }
  }

  /** The loop over the counts: each item whose name the map knows overwrites that
      row's count, difference and counting time. */
  method AtualizarEscopo(tabela: seq<EscopoAuditoria>, auditoriaId: int, escopoMap: map<string, nat>,
                         contagens: seq<ContagemManualItem>, agora: Clock.DateTime) returns (atual: seq<EscopoAuditoria>)
    requires forall nome :: nome in escopoMap <==> UltimoEscopo(tabela, auditoriaId, nome, |tabela|).Some?
    requires forall nome :: nome in escopoMap ==> escopoMap[nome] == UltimoEscopo(tabela, auditoriaId, nome, |tabela|).value
    ensures atual == AplicarContagens(tabela, auditoriaId, contagens, agora)
  {
    atual := tabela;
    assert AplicarContagens(tabela, auditoriaId, [], agora) == tabela;
    for i := 0 to |contagens|
      invariant atual == AplicarContagens(tabela, auditoriaId, contagens[..i], agora)
    {
      var contagem := contagens[i];
      AplicarMaisUma(tabela, auditoriaId, contagens[..i], contagem, agora);
      assert contagens[..i + 1] == contagens[..i] + [contagem];
      var itemEscopo := if contagem.categoriaNome in escopoMap then Some(escopoMap[contagem.categoriaNome]) else None;
      if itemEscopo.Some? {
        var k := itemEscopo.value;
        atual := atual[k := ContagemAplicada(atual[k], contagem.qtdContada, agora)];
      }
    }
    assert contagens[..|contagens|] == contagens;
  }

  // -------------------------------------------------------------- finalising

  /** Row `k` is the audit `get_auditoria_detalhes` finds: the first with that id
      that the user sees. */
  predicate Encontrada(auditorias: seq<Auditoria>, k: int, auditoriaId: int, user: User) {
    0 <= k < |auditorias| && auditorias[k].id == auditoriaId && Visivel(auditorias[k], user)
    && forall j :: 0 <= j < k ==> !(auditorias[j].id == auditoriaId && Visivel(auditorias[j], user))
  }

  /** The audit table after `finalizar_auditoria`: the audit, if the user sees it,
      gets `data_fim` unless it already has one. */
  function Finalizada(auditorias: seq<Auditoria>, auditoriaId: int, user: User, agora: Clock.DateTime): (r: seq<Auditoria>)
    ensures |r| == |auditorias|
    ensures forall k :: Encontrada(auditorias, k, auditoriaId, user) && auditorias[k].dataFim.None? ==>
      r[k] == auditorias[k].(dataFim := Some(agora))
    ensures forall k :: 0 <= k < |r| && !(Encontrada(auditorias, k, auditoriaId, user) && auditorias[k].dataFim.None?) ==>
      r[k] == auditorias[k]
    ensures (forall i :: 0 <= i < |auditorias| ==> !(auditorias[i].id == auditoriaId && Visivel(auditorias[i], user))) ==>
      r == auditorias
  {
    var k := IndexWhere(auditorias, (a: Auditoria) => a.id == auditoriaId && Visivel(a, user));
    if k.Some? && auditorias[k.value].dataFim.None?
    then auditorias[k.value := auditorias[k.value].(dataFim := Some(agora))]
    else auditorias
  }

  /** Finalising again changes nothing: `data_fim` is set at most once. */
  lemma FinalizarIdempotente(auditorias: seq<Auditoria>, auditoriaId: int, user: User, t1: Clock.DateTime, t2: Clock.DateTime)
    ensures Finalizada(Finalizada(auditorias, auditoriaId, user, t1), auditoriaId, user, t2) == Finalizada(auditorias, auditoriaId, user, t1)
  {
    var p := (a: Auditoria) => a.id == auditoriaId && Visivel(a, user);
    var k := IndexWhere(auditorias, p);
    if k.Some? && auditorias[k.value].dataFim.None? {
      IndexWhereUpdate(auditorias, k.value, auditorias[k.value].(dataFim := Some(t1)), p);
    }
  }

  // ------------------------------------------------------------ configuration

  const ChaveUltimaAtualizacao := "ultima_atualizacao_estoque"
  const NuncaAtualizado := "Nunca atualizado"

  /** `get_ultima_atualizacao_estoque`. */
  function GetUltimaAtualizacaoEstoque(configuracao: map<string, string>): (r: string)
    ensures ChaveUltimaAtualizacao in configuracao ==> r == configuracao[ChaveUltimaAtualizacao]
    ensures ChaveUltimaAtualizacao !in configuracao ==> r == NuncaAtualizado
  {
    if ChaveUltimaAtualizacao in configuracao then configuracao[ChaveUltimaAtualizacao] else NuncaAtualizado
  }

  /** The stored timestamp, "dd/mm/yyyy às HH:MM". */
  function CarimboAtualizacao(agora: Clock.DateTime): (r: string)
    requires Clock.Valid(agora)
    ensures |r| == 19
  {
    Clock.Format(agora, " \U{E0}s ")
  }

  /** The stamp is date, " às " and time, and every field reads back as the moment. */
  lemma CarimboAtualizacaoPartes(agora: Clock.DateTime)
    requires Clock.Valid(agora)
    ensures var r := CarimboAtualizacao(agora);
      r[10..14] == " \U{E0}s " && Clock.Campos(r, 4, agora)
  {
    Clock.FormatLidoDeVolta(agora, " \U{E0}s ");
  }

  // ---------------------------------------------------------------- the database

  /** The database: one sequence of rows per table, in primary-key order, and the
      next value of each identity column. */
  class Database {
    var entidades: seq<Entidade>
    var produtos: seq<Produto>
    var estoques: seq<Estoque>
    var auditorias: seq<Auditoria>
    var escopos: seq<EscopoAuditoria>
    var configuracao: map<string, string>
    var proximoProdutoId: int
    var proximoEstoqueId: int
    var proximoAuditoriaId: int
    var proximoEscopoId: int

    /** Primary keys unique and ascending; every scope row belongs to an audit id
        already handed out; product names unique; every stock row refers to a
        product id already handed out. */
    ghost predicate Valid()
      reads this
    {
      ProdutoIds(produtos, proximoProdutoId) && EstoqueIds(estoques, proximoEstoqueId)
      && AuditoriaIds(auditorias, proximoAuditoriaId) && EscopoIds(escopos, proximoEscopoId)
      && (forall i :: 0 <= i < |escopos| ==> escopos[i].auditoriaId < proximoAuditoriaId)
      && NomesUnicos(produtos) && EstoquesReferenciam(estoques, proximoProdutoId)
    }

    /** A database holding only the given entities. */
    constructor (entidades: seq<Entidade>)
      ensures Valid()
      ensures this.entidades == entidades && produtos == [] && estoques == [] && auditorias == [] && escopos == []
      ensures configuracao == map[]
    {
      this.entidades := entidades;
      produtos := [];
      estoques := [];
      auditorias := [];
      escopos := [];
      configuracao := map[];
      proximoProdutoId := 1;
      proximoEstoqueId := 1;
      proximoAuditoriaId := 1;
      proximoEscopoId := 1;
    }

    /** `criar_auditoria_com_escopo`. */
    method CriarAuditoriaComEscopo(dados: AuditoriaScopeCreate, user: User, agora: Clock.DateTime)
      returns (r: Result<Option<Auditoria>, string>)
      requires Valid() && Clock.Valid(agora)
      modifies this
      ensures Valid()
      ensures entidades == old(entidades) && produtos == old(produtos) && estoques == old(estoques)
      ensures configuracao == old(configuracao)
      ensures proximoProdutoId == old(proximoProdutoId) && proximoEstoqueId == old(proximoEstoqueId)
      ensures EntidadeAlvo(dados, user).Err? ==> r == Err(ErroAdminSemEntidade)
      ensures r.Ok? && r.value.None? <==> EntidadeAlvo(dados, user).Ok? && BuscarEntidade(entidades, EntidadeAlvo(dados, user).value).None?
      ensures r.Ok? && r.value.Some? <==> EntidadeAlvo(dados, user).Ok? && BuscarEntidade(entidades, EntidadeAlvo(dados, user).value).Some?
      ensures r.Err? || r.value.None? ==>
        (auditorias == old(auditorias) && escopos == old(escopos)
         && proximoAuditoriaId == old(proximoAuditoriaId) && proximoEscopoId == old(proximoEscopoId))
      ensures r.Ok? && r.value.Some? ==>
        var entidade := BuscarEntidade(entidades, EntidadeAlvo(dados, user).value);
        var a := NovaAuditoria(old(proximoAuditoriaId), entidade.value, dados.responsavel, agora);
        var escopo := EscopoInicial(old(proximoEscopoId), a.id, a.entidadeId, dados.categoriasEscopo, estoques, produtos);
        entidade.Some? && r.value.value == a
        && auditorias == old(auditorias) + [a]
        && escopos == old(escopos) + escopo
    {
      var alvo := EntidadeAlvo(dados, user);
      if alvo.Err? {
        return Err(alvo.error);
      }
      var entidade := BuscarEntidade(entidades, alvo.value);
      if entidade.None? {
        return Ok(None);
      }
      var id := proximoAuditoriaId;
      var criada := NovaAuditoria(id, entidade.value, dados.responsavel, agora);
      var nova := criada.(codigoReferencia := "TEMP");
      // the commit gives the audit its id, and the code is built from it
      nova := nova.(codigoReferencia := CodigoReferencia(agora.year, id));
      assert nova == criada;
      var novos := CriarEscopo(proximoEscopoId, id, nova.entidadeId, dados.categoriasEscopo, estoques, produtos);
      Acrescentar(nova, novos);
      r := Ok(Some(nova));
    }

    /** Appends a new audit and its scope rows, each under the next free id. */
    method Acrescentar(nova: Auditoria, novos: seq<EscopoAuditoria>)
      requires Valid() && nova.id == proximoAuditoriaId
      requires forall i :: 0 <= i < |novos| ==> novos[i].id == proximoEscopoId + i && novos[i].auditoriaId == nova.id
      modifies this
      ensures Valid()
      ensures auditorias == old(auditorias) + [nova] && escopos == old(escopos) + novos
      ensures proximoAuditoriaId == old(proximoAuditoriaId) + 1 && proximoEscopoId == old(proximoEscopoId) + |novos|
      ensures entidades == old(entidades) && produtos == old(produtos) && estoques == old(estoques)
      ensures configuracao == old(configuracao)
      ensures proximoProdutoId == old(proximoProdutoId) && proximoEstoqueId == old(proximoEstoqueId)
    {
      NovasChaves(auditorias, nova, escopos, novos, proximoAuditoriaId, proximoEscopoId);
      auditorias, proximoAuditoriaId := auditorias + [nova], proximoAuditoriaId + 1;
      escopos, proximoEscopoId := escopos + novos, proximoEscopoId + |novos|;
    }

    /** `salvar_contagens_manuais`. */
    method SalvarContagensManuais(auditoriaId: int, contagens: seq<ContagemManualItem>, user: User, agora: Clock.DateTime)
      returns (r: Option<AuditoriaDetalhe>)
      requires Valid()
      modifies this
      ensures Valid()
      ensures entidades == old(entidades) && produtos == old(produtos) && estoques == old(estoques)
      ensures auditorias == old(auditorias) && configuracao == old(configuracao)
      ensures proximoProdutoId == old(proximoProdutoId) && proximoEstoqueId == old(proximoEstoqueId)
      ensures proximoAuditoriaId == old(proximoAuditoriaId) && proximoEscopoId == old(proximoEscopoId)
      ensures old(GetAuditoriaDetalhes(auditorias, escopos, auditoriaId, user)).None? ==> escopos == old(escopos)
      ensures old(GetAuditoriaDetalhes(auditorias, escopos, auditoriaId, user)).Some? ==>
        escopos == AplicarContagens(old(escopos), auditoriaId, contagens, agora)
      ensures r == GetAuditoriaDetalhes(auditorias, escopos, auditoriaId, user)
    {
      var auditoria := GetAuditoriaDetalhes(auditorias, escopos, auditoriaId, user);
      if auditoria.None? {
        return None;
      }
      var tabela := escopos;
      var escopoMap := MontarEscopoMap(tabela, auditoriaId);
      var atual := AtualizarEscopo(tabela, auditoriaId, escopoMap, contagens, agora);
      assert EscopoIds(atual, proximoEscopoId);
      SubstituirEscopos(atual);
      r := GetAuditoriaDetalhes(auditorias, escopos, auditoriaId, user);
    }

    /** Replaces the scope table by one with the same ids and audits. */
    method SubstituirEscopos(atual: seq<EscopoAuditoria>)
      requires Valid() && EscopoIds(atual, proximoEscopoId)
      requires |atual| == |escopos| && forall i :: 0 <= i < |atual| ==> atual[i].auditoriaId == escopos[i].auditoriaId
      modifies this
      ensures Valid() && escopos == atual
      ensures entidades == old(entidades) && produtos == old(produtos) && estoques == old(estoques)
      ensures auditorias == old(auditorias) && configuracao == old(configuracao)
      ensures proximoProdutoId == old(proximoProdutoId) && proximoEstoqueId == old(proximoEstoqueId)
      ensures proximoAuditoriaId == old(proximoAuditoriaId) && proximoEscopoId == old(proximoEscopoId)
    {
      escopos := atual;
    }

    /** `finalizar_auditoria`. */
    method FinalizarAuditoria(auditoriaId: int, user: User, agora: Clock.DateTime) returns (r: Option<AuditoriaDetalhe>)
      requires Valid()
      modifies this
      ensures Valid()
      ensures entidades == old(entidades) && produtos == old(produtos) && estoques == old(estoques)
      ensures escopos == old(escopos) && configuracao == old(configuracao)
      ensures proximoProdutoId == old(proximoProdutoId) && proximoEstoqueId == old(proximoEstoqueId)
      ensures proximoAuditoriaId == old(proximoAuditoriaId) && proximoEscopoId == old(proximoEscopoId)
      ensures auditorias == Finalizada(old(auditorias), auditoriaId, user, agora)
      ensures r.None? <==> old(GetAuditoriaDetalhes(auditorias, escopos, auditoriaId, user)).None?
      ensures r == GetAuditoriaDetalhes(auditorias, escopos, auditoriaId, user)
    {
      var k := IndexWhere(auditorias, (a: Auditoria) => a.id == auditoriaId && Visivel(a, user));
      if k.None? {
        return None;
      }
      if auditorias[k.value].dataFim.None? {
        SubstituirAuditoria(k.value, auditorias[k.value].(dataFim := Some(agora)));
      }
      r := GetAuditoriaDetalhes(auditorias, escopos, auditoriaId, user);
    }

    /** Replaces one audit row by one with the same id. */
    method SubstituirAuditoria(k: nat, a: Auditoria)
      requires Valid() && k < |auditorias| && a.id == auditorias[k].id
      modifies this
      ensures Valid() && auditorias == old(auditorias)[k := a]
      ensures entidades == old(entidades) && produtos == old(produtos) && estoques == old(estoques)
      ensures escopos == old(escopos) && configuracao == old(configuracao)
      ensures proximoProdutoId == old(proximoProdutoId) && proximoEstoqueId == old(proximoEstoqueId)
      ensures proximoAuditoriaId == old(proximoAuditoriaId) && proximoEscopoId == old(proximoEscopoId)
    {
      auditorias := auditorias[k := a];
    }

    /** `set_ultima_atualizacao_estoque`: stores the time under the one key, adding
        the key when it is missing. */
    method SetUltimaAtualizacaoEstoque(agora: Clock.DateTime)
      requires Valid() && Clock.Valid(agora)
      modifies this
      ensures Valid()
      ensures configuracao == old(configuracao)[ChaveUltimaAtualizacao := CarimboAtualizacao(agora)]
      ensures GetUltimaAtualizacaoEstoque(configuracao) == CarimboAtualizacao(agora)
      ensures entidades == old(entidades) && produtos == old(produtos) && estoques == old(estoques)
      ensures auditorias == old(auditorias) && escopos == old(escopos)
      ensures proximoProdutoId == old(proximoProdutoId) && proximoEstoqueId == old(proximoEstoqueId)
      ensures proximoAuditoriaId == old(proximoAuditoriaId) && proximoEscopoId == old(proximoEscopoId)
    {
      var valor := CarimboAtualizacao(agora);
      configuracao := configuracao[ChaveUltimaAtualizacao := valor];
    }
  }
}
