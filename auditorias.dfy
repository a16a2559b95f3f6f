/** The audit list page (frontend/auditorias.js): the table rows, the "new audit"
    dialog's guard and request body, the label of a chosen category, and the
    deletion dialog's guards. */
module Auditorias {

  import opened Wrappers
  import Text
  import Decimal

  const Admin := "admin"
  const Finalizada := "Finalizada"
  /** The shortest deletion reason accepted, in UTF-16 code units. */
  const MotivoMinimo := 10

  /** One entry of `/auditorias/` as the table uses it. */
  datatype Auditoria = Auditoria(id: int, codigoReferencia: string, status: string)

  /** One rendered row: the status badge's class, the details link, and whether
      the delete button is there. */
  datatype Linha = Linha(codigo: string, statusClasse: string, detalhes: string, excluir: bool)

  /** The `auditorias.map` callback; `papel` is the current user's role, `None`
      when there is no user. */
  function RenderLinha(a: Auditoria, papel: Option<string>): (l: Linha)
    ensures l.statusClasse == "bg-success" <==> a.status == Finalizada
    ensures l.excluir <==> papel == Some(Admin)
    ensures Text.StartsWith(l.detalhes, "/auditoria-detalhe.html?id=")
  {
    var detalhes := "/auditoria-detalhe.html?id=" + Decimal.IntToString(a.id);
    assert detalhes[..|"/auditoria-detalhe.html?id="|] == "/auditoria-detalhe.html?id=";
    Linha(a.codigoReferencia,
          if a.status == Finalizada then "bg-success" else "bg-warning text-dark",
          detalhes,
          papel.Some? && papel.value == Admin)
  }

  /** Each row's details link carries that audit's id. */
  lemma DetalhesLevaAoId(a: Auditoria, papel: Option<string>)
    ensures var l := RenderLinha(a, papel);
      Decimal.ParseIntJs(l.detalhes[|"/auditoria-detalhe.html?id="|..]) == Some(a.id)
  {
    var l := RenderLinha(a, papel);
    assert l.detalhes[|"/auditoria-detalhe.html?id="|..] == Decimal.IntToString(a.id);
    Decimal.ParseIntRoundTrip(a.id);
  }

  /** The "new audit" dialog: the responsible person as typed, the categories
      chosen, and the entity picked (only admins see that list). */
  datatype NovaAuditoria = NovaAuditoria(responsavel: string, categorias: seq<string>, entidadeSelecionada: string)

  /** The body of `POST /auditorias/nova_com_escopo/`; `entidade_id` is present only
      for an admin. */
  datatype Corpo = Corpo(responsavel: string, categoriasEscopo: seq<string>, entidadeId: Option<string>)

  datatype ValidacaoNova = FaltamDados | Criar(corpo: Corpo)

  /** `salvarNovaAuditoria`'s guard and request body. */
  function ValidarNova(f: NovaAuditoria, papel: string): (v: ValidacaoNova)
    ensures v.FaltamDados? <==> f.responsavel == [] || f.categorias == []
    ensures v.Criar? ==> v.corpo.responsavel == f.responsavel && v.corpo.categoriasEscopo == f.categorias
    ensures v.Criar? ==> (v.corpo.entidadeId.Some? <==> papel == Admin)
    ensures v.Criar? && papel == Admin ==> v.corpo.entidadeId == Some(f.entidadeSelecionada)
  {
    if f.responsavel == [] || |f.categorias| == 0 then FaltamDados
    else Criar(Corpo(f.responsavel, f.categorias, if papel == Admin then Some(f.entidadeSelecionada) else None))
  }

  /** Only the entity field depends on who submits: an admin's body and a store
      user's body differ in nothing else. */
  lemma EntidadeSoDoAdmin(f: NovaAuditoria, papel: string)
    requires ValidarNova(f, Admin).Criar?
    ensures ValidarNova(f, papel).Criar?
    ensures ValidarNova(f, papel).corpo == ValidarNova(f, Admin).corpo.(entidadeId := if papel == Admin then Some(f.entidadeSelecionada) else None)
  {
  }

  /** The option text of a category: its name and its stock total. */
  function Opcao(nome: string, estoqueTotal: int): string {
    nome + " (" + Decimal.IntToString(estoqueTotal) + " itens)"
  }

  /** The chip of a chosen category: the option text up to the first '(',
      trimmed. */
  function Chip(texto: string): string {
    Text.Trim(Text.Split(texto, "(")[0], Text.IsJsSpace)
  }

  /** A category whose name has no '(' shows as its trimmed name. */
  lemma {:induction false} ChipDaOpcao(nome: string, estoqueTotal: int)
    requires '(' !in nome
    ensures Chip(Opcao(nome, estoqueTotal)) == Text.Trim(nome, Text.IsJsSpace)
  {
    var resto := Decimal.IntToString(estoqueTotal) + " itens)";
    assert Opcao(nome, estoqueTotal) == (nome + " ") + "(" + resto;
    assert '(' !in nome + " ";
    PrimeiraParte(nome + " ", "(", resto);
    Text.TrimAppendSpace(nome, ' ', Text.IsJsSpace);
  }

  /** Splitting at a separator whose first character `a` lacks gives `a` first. */
  lemma PrimeiraParte(a: string, sep: string, b: string)
    requires |sep| > 0 && sep[0] !in a
    ensures Text.Split(a + sep + b, sep)[0] == a
  {
    Text.FindAfterSepFree(a, sep, b);
    assert (a + sep + b)[..|a|] == a;
  }

  datatype ValidacaoExclusao = SenhaObrigatoria | MotivoCurto | Excluir(motivo: string, password: string)

  /** The deletion dialog's guards: the password first, then the reason's
      length. */
  function ValidarExclusao(motivo: string, password: string): (v: ValidacaoExclusao)
    ensures v.SenhaObrigatoria? <==> password == []
    ensures v.MotivoCurto? <==> password != [] && Text.JsLength(motivo) < MotivoMinimo
    ensures v.Excluir? ==> v == Excluir(motivo, password)
  {
    if password == [] then SenhaObrigatoria
    else if Text.JsLength(motivo) < MotivoMinimo then MotivoCurto
    else Excluir(motivo, password)
  }

  /** A deletion request always carries a password and a reason of at least ten
      characters; a reason of ten or more characters with a password is always
      sent. */
  lemma ExclusaoEnviada(motivo: string, password: string)
    ensures ValidarExclusao(motivo, password).Excluir? <==> password != [] && Text.JsLength(motivo) >= MotivoMinimo
    ensures ValidarExclusao(motivo, password).Excluir? ==> |motivo| >= MotivoMinimo / 2
  {
  }
}
