/** The rows of the audit database (models.py) and the request bodies the audit
    operations take (schemas.py). A table is the sequence of its rows in primary-key
    order. */
module Models {

  import opened Wrappers
  import Clock

  datatype Entidade = Entidade(id: int, nome: string)

  /** The user a request runs as; `admin` is the user whose username is "admin". */
  datatype User = User(username: string, entidadeId: int)

  predicate IsAdmin(u: User) {
    u.username == "admin"
  }

  datatype Produto = Produto(id: int, nomeItem: string, grupo: Option<string>)

  datatype Estoque = Estoque(id: int, quantidadeSistema: int, produtoId: int, entidadeId: int)

  datatype Auditoria = Auditoria(
    id: int,
    nome: string,
    codigoReferencia: string,
    entidadeId: int,
    responsavel: string,
    dataInicio: Clock.DateTime,
    dataFim: Option<Clock.DateTime>)

  datatype EscopoAuditoria = EscopoAuditoria(
    id: int,
    categoriaNome: string,
    auditoriaId: int,
    qtdSistema: int,
    qtdContada: int,
    diferenca: int,
    dataContagem: Option<Clock.DateTime>)

  /** Body of the audit-creation request; an `entidadeId` of 0 is Python-falsy. */
  datatype AuditoriaScopeCreate = AuditoriaScopeCreate(
    entidadeId: int,
    responsavel: string,
    categoriasEscopo: seq<string>)

  datatype ContagemManualItem = ContagemManualItem(categoriaNome: string, qtdContada: int)

  /** An audit loaded together with its scope rows. */
  datatype AuditoriaDetalhe = AuditoriaDetalhe(auditoria: Auditoria, escopo: seq<EscopoAuditoria>)

  /** The index of the first row satisfying `p` (`query.filter(p).first()`). */
  function IndexWhere<T>(rows: seq<T>, p: T -> bool): (r: Option<nat>)
    ensures r.Some? ==> r.value < |rows| && p(rows[r.value])
    ensures r.Some? ==> forall i :: 0 <= i < r.value ==> !p(rows[i])
    ensures r.None? ==> forall i :: 0 <= i < |rows| ==> !p(rows[i])
  {
    if rows == [] then None
    else if p(rows[0]) then Some(0)
    else
      var rest := IndexWhere(rows[1..], p);
      assert forall i :: 1 <= i < |rows| ==> rows[i] == rows[1..][i - 1];
      if rest.Some? then Some(rest.value + 1) else None
  }

  /** Replacing a row by one that the filter judges the same way does not move the
      first match. */
  lemma IndexWhereUpdate<T>(rows: seq<T>, k: nat, v: T, p: T -> bool)
    requires k < |rows| && p(v) == p(rows[k])
    ensures IndexWhere(rows[k := v], p) == IndexWhere(rows, p)
  {
    var a := IndexWhere(rows, p);
    var b := IndexWhere(rows[k := v], p);
    assert forall i :: 0 <= i < |rows| ==> p(rows[k := v][i]) == p(rows[i]);
  }

  // Primary keys: positive, strictly ascending along the table and below the
  // table's next identity value.

  predicate ProdutoIds(t: seq<Produto>, next: int) {
    1 <= next && (forall i :: 0 <= i < |t| ==> 1 <= t[i].id < next) &&
    (forall i, j :: 0 <= i < j < |t| ==> t[i].id < t[j].id)
  }

  predicate EstoqueIds(t: seq<Estoque>, next: int) {
    1 <= next && (forall i :: 0 <= i < |t| ==> 1 <= t[i].id < next) &&
    (forall i, j :: 0 <= i < j < |t| ==> t[i].id < t[j].id)
  }

  predicate AuditoriasOrdenadas(t: seq<Auditoria>) {
    forall i, j :: 0 <= i < j < |t| ==> t[i].id < t[j].id
  }

  predicate AuditoriaIds(t: seq<Auditoria>, next: int) {
    1 <= next && (forall i :: 0 <= i < |t| ==> 1 <= t[i].id < next) && AuditoriasOrdenadas(t)
  }

  predicate EscopoIds(t: seq<EscopoAuditoria>, next: int) {
    1 <= next && (forall i :: 0 <= i < |t| ==> 1 <= t[i].id < next) &&
    (forall i, j :: 0 <= i < j < |t| ==> t[i].id < t[j].id)
  }

  /** `nome_item` is a unique column. */
  predicate NomesUnicos(t: seq<Produto>) {
    forall i, j :: 0 <= i < j < |t| ==> t[i].nomeItem != t[j].nomeItem
  }

  /** Every stock row points at a product id already handed out (the
      `produto_id` foreign key). */
  predicate EstoquesReferenciam(t: seq<Estoque>, proximoProdutoId: int) {
    forall i :: 0 <= i < |t| ==> t[i].produtoId < proximoProdutoId
  }
}
