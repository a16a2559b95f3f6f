/** The user-administration page (frontend/usuarios.js): who may see it, when the
    empty state replaces the table, how each user's row is rendered and patched in
    place, and the guards of the "new user" and "reset password" dialogs. */
module Usuarios {

  import opened Wrappers
  import Text
  import Decimal
  import Signup

  const TamanhoMinimo := 8
  const Admin := "admin"

  datatype Entidade = Entidade(id: int, nome: string)

  /** One entry of `/api/users`. */
  datatype Usuario = Usuario(id: int, username: string, role: string, isActive: bool, entidade: Option<Entidade>)

  /** What `apiFetch('/api/users')` gives: a list, `null` (a 204 or an empty body)
      or an exception. */
  datatype Lista = Usuarios(usuarios: seq<Usuario>) | Nulo | Falhou

  /** A coloured badge. */
  datatype Selo = Selo(classe: string, texto: string)

  /** The activate/deactivate button of a store user's row. */
  datatype Alternar = Alternar(classe: string, icone: string, titulo: string, ativo: bool)

  /** The action cell: "N/A" for admins; edit (with the entity id it carries),
      reset-password and toggle buttons otherwise. */
  datatype Acoes = SemAcoes | Botoes(entidadeId: string, alternar: Alternar)

  /** One rendered row of the table. */
  datatype Linha = Linha(id: int, classe: string, username: string, papel: Selo, entidade: string,
                         acoes: Acoes, status: Selo)

  /** What the page shows after loading. */
  datatype Tela = Redirecionar(destino: string) | EstadoVazio | Tabela(linhas: seq<Linha>) | ErroAoCarregar

  function SeloDeStatus(ativo: bool): Selo {
    if ativo then Selo("bg-success", "Ativo") else Selo("bg-danger", "Inativo")
  }

  function BotaoAlternar(ativo: bool): Alternar {
    if ativo then Alternar("btn-outline-danger", "bi-person-x-fill", "Desativar Usu\U{E1}rio", true)
    else Alternar("btn-outline-success", "bi-person-check-fill", "Ativar Usu\U{E1}rio", false)
  }

  function ClasseDaLinha(ativo: bool): string {
    if ativo then "" else "table-secondary text-muted"
  }

  /** The entity column: the entity's name upper-cased, otherwise "Todas" for an
      admin and "-" for anyone else. */
  function NomeDaEntidade(u: Usuario): string {
    if u.entidade.Some? then Text.Upper(u.entidade.value.nome)
    else if u.role == Admin then "Todas" else "-"
  }

  /** The `usuarios.map` callback. */
  function RenderLinha(u: Usuario): (l: Linha)
    ensures u.role == Admin <==> l.acoes.SemAcoes?
    ensures u.role == Admin ==> l.status == Selo("bg-primary", "Ativo")
    ensures u.role != Admin ==> l.status.texto == (if u.isActive then "Ativo" else "Inativo")
    ensures l.acoes.Botoes? ==> (l.acoes.alternar.titulo == "Desativar Usu\U{E1}rio" <==> u.isActive)
    ensures l.entidade == NomeDaEntidade(u)
  {
    var acoes := if u.role != Admin then
      Botoes(if u.entidade.Some? then Decimal.IntToString(u.entidade.value.id) else "", BotaoAlternar(u.isActive))
    else SemAcoes;
    var status := if u.role != Admin then SeloDeStatus(u.isActive) else Selo("bg-primary", "Ativo");
    var papel := if u.role == Admin then Selo("bg-primary", "Administrador") else Selo("bg-secondary", "Usu\U{E1}rio Loja");
    Linha(u.id, ClasseDaLinha(u.isActive), u.username, papel, NomeDaEntidade(u), acoes, status)
  }

  /** In a store user's row the badge, the toggle and the greyed-out row always
      tell the same state. */
  lemma LinhaCoerente(u: Usuario)
    requires u.role != Admin
    ensures var l := RenderLinha(u);
      l.acoes.Botoes?
      && (l.status.texto == "Ativo" <==> l.acoes.alternar.ativo)
      && (l.classe == "" <==> l.acoes.alternar.ativo)
  {
  }

  /** `executarToggleStatus` patching a row in place with the new `is_active`. */
  function AlternarNaLinha(l: Linha, ativo: bool): Linha {
    var acoes := match l.acoes
      case SemAcoes => SemAcoes
      case Botoes(e, _) => Botoes(e, BotaoAlternar(ativo));
    l.(classe := ClasseDaLinha(ativo), status := SeloDeStatus(ativo), acoes := acoes)
  }

  /** Patching a store user's row after a status change gives exactly the row a
      reload would render. */
  lemma AlternarComoRecarregar(u: Usuario, ativo: bool)
    requires u.role != Admin
    ensures AlternarNaLinha(RenderLinha(u), ativo) == RenderLinha(u.(isActive := ativo))
  {
  }

  /** `salvarEdicaoUsuario` patching a row in place with the entity the server
      returned. */
  function EditarNaLinha(l: Linha, e: Entidade): Linha {
    var acoes := match l.acoes
      case SemAcoes => SemAcoes
      case Botoes(_, t) => Botoes(Decimal.IntToString(e.id), t);
    l.(entidade := Text.Upper(e.nome), acoes := acoes)
  }

  /** Patching a store user's row after an entity change gives exactly the row a
      reload would render. */
  lemma EditarComoRecarregar(u: Usuario, e: Entidade)
    requires u.role != Admin
    ensures EditarNaLinha(RenderLinha(u), e) == RenderLinha(u.(entidade := Some(e)))
  {
  }

  function RenderTabela(us: seq<Usuario>): (ls: seq<Linha>)
    ensures |ls| == |us| && forall i :: 0 <= i < |us| ==> ls[i] == RenderLinha(us[i])
  {
    if us == [] then [] else [RenderLinha(us[0])] + RenderTabela(us[1..])
  }

  /** The number of entries with `role === 'user'`. */
  function UsuariosDeLoja(us: seq<Usuario>): (n: nat)
    ensures n <= |us|
    ensures n == 0 <==> forall i :: 0 <= i < |us| ==> us[i].role != "user"
  {
    if us == [] then 0
    else
      var n := (if us[0].role == "user" then 1 else 0) + UsuariosDeLoja(us[1..]);
      assert forall i :: 1 <= i < |us| ==> us[i] == us[1..][i - 1];
      n
  }

  /** `carregarUsuarios` as written: `usuarios.filter` runs before the null check,
      so a `null` list throws and ends in the error message. */
  function CarregarComoEscrito(papelDoVisitante: Option<string>, lista: Lista): (t: Tela)
    ensures papelDoVisitante != Some(Admin) <==> t == Redirecionar("/")
    ensures t == ErroAoCarregar <==> papelDoVisitante == Some(Admin) && (lista.Falhou? || lista.Nulo?)
    ensures t == EstadoVazio <==> (
      papelDoVisitante == Some(Admin) && lista.Usuarios?
      && (|lista.usuarios| <= 1 || forall i :: 0 <= i < |lista.usuarios| ==> lista.usuarios[i].role != "user"))
    ensures t.Tabela? ==> lista.Usuarios? && t.linhas == RenderTabela(lista.usuarios)
  {
    if papelDoVisitante.None? || papelDoVisitante.value != Admin then Redirecionar("/")
    else
      match lista
      case Falhou => ErroAoCarregar
      case Nulo => ErroAoCarregar
      case Usuarios(us) =>
        if |us| <= 1 || UsuariosDeLoja(us) == 0 then EstadoVazio else Tabela(RenderTabela(us))
  }

  /** `carregarUsuarios` with the null check taking effect: an empty answer shows
      the empty state. */
  function Carregar(papelDoVisitante: Option<string>, lista: Lista): (t: Tela)
    ensures papelDoVisitante != Some(Admin) <==> t == Redirecionar("/")
    ensures t == ErroAoCarregar <==> papelDoVisitante == Some(Admin) && lista.Falhou?
    ensures t == EstadoVazio <==> (
      papelDoVisitante == Some(Admin) &&
      (lista.Nulo? || (lista.Usuarios? && (|lista.usuarios| <= 1 || forall i :: 0 <= i < |lista.usuarios| ==> lista.usuarios[i].role != "user"))))
    ensures t.Tabela? ==> lista.Usuarios? && t.linhas == RenderTabela(lista.usuarios)
  {
    if papelDoVisitante.None? || papelDoVisitante.value != Admin then Redirecionar("/")
    else
      match lista
      case Falhou => ErroAoCarregar
      case Nulo => EstadoVazio
      case Usuarios(us) =>
        if |us| <= 1 || UsuariosDeLoja(us) == 0 then EstadoVazio else Tabela(RenderTabela(us))
  }

  /** The empty answer the null check was written for ends in the error message. */
  lemma ListaNulaComoEscrito()
    ensures CarregarComoEscrito(Some(Admin), Nulo) == ErroAoCarregar
    ensures Carregar(Some(Admin), Nulo) == EstadoVazio
  {
  }

  /** The correction changes nothing but the `null` case. */
  lemma CorrecaoSoNoNulo(papelDoVisitante: Option<string>, lista: Lista)
    requires !lista.Nulo?
    ensures Carregar(papelDoVisitante, lista) == CarregarComoEscrito(papelDoVisitante, lista)
  {
  }

  /** The "new user" dialog's inputs: e-mail, initial password, and the selected
      entity's option value ("" when none is selected). */
  datatype NovoUsuario = NovoUsuario(email: string, senha: string, entidadeId: string)

  /** The body of `POST /api/users`; `parseInt` giving NaN serialises as `null`. */
  datatype Criacao = Criacao(username: string, password: string, entidadeId: Option<int>)

  datatype ValidacaoNovo = CamposObrigatorios | SenhaInicialCurta | Criar(corpo: Criacao)

  /** `salvarNovoUsuario`'s guards, in order. */
  function ValidarNovo(f: NovoUsuario): (v: ValidacaoNovo)
    ensures v == CamposObrigatorios <==>
      Text.Trim(f.email, Text.IsJsSpace) == [] || f.senha == [] || f.entidadeId == []
    ensures v == SenhaInicialCurta <==> !v.CamposObrigatorios? && Text.JsLength(f.senha) < TamanhoMinimo
    ensures v.Criar? ==>
      v.corpo == Criacao(Text.Trim(f.email, Text.IsJsSpace), f.senha, Decimal.ParseIntJs(f.entidadeId))
  {
    var email := Text.Trim(f.email, Text.IsJsSpace);
    if email == [] || f.senha == [] || f.entidadeId == [] then CamposObrigatorios
    else if Text.JsLength(f.senha) < TamanhoMinimo then SenhaInicialCurta
    else Criar(Criacao(email, f.senha, Decimal.ParseIntJs(f.entidadeId)))
  }

  /** The entity chosen in the list is sent as that entity's id. */
  lemma EntidadeEnviada(email: string, senha: string, id: int)
    requires ValidarNovo(NovoUsuario(email, senha, Decimal.IntToString(id))).Criar?
    ensures ValidarNovo(NovoUsuario(email, senha, Decimal.IntToString(id))).corpo.entidadeId == Some(id)
  {
    Decimal.ParseIntRoundTrip(id);
  }

  datatype ValidacaoReset = Ignorado | SenhaCurta | Redefinir(userId: string, novaSenha: string)

  /** `executarResetPassword`'s guards: nothing without a chosen user, then the
      password's length. */
  function ValidarReset(userId: Option<string>, novaSenha: string): (v: ValidacaoReset)
    ensures v.Ignorado? <==> userId.None? || userId == Some("")
    ensures v.SenhaCurta? <==> !v.Ignorado? && (novaSenha == [] || Text.JsLength(novaSenha) < TamanhoMinimo)
    ensures v.Redefinir? ==> Some(v.userId) == userId && v.novaSenha == novaSenha
  {
    if userId.None? || userId.value == [] then Ignorado
    else if novaSenha == [] || Text.JsLength(novaSenha) < TamanhoMinimo then SenhaCurta
    else Redefinir(userId.value, novaSenha)
  }

  /** Sign-up, new user and password reset apply one password rule: a password one
      of them accepts, the others accept too. */
  lemma MesmaRegraDeSenha(f: NovoUsuario, userId: string, empresa: string)
    requires userId != [] && Text.Trim(f.email, Text.IsJsSpace) != [] && f.entidadeId != []
    requires Text.Trim(empresa, Text.IsJsSpace) != []
    ensures ValidarNovo(f).Criar? <==> ValidarReset(Some(userId), f.senha).Redefinir?
    ensures ValidarNovo(f).Criar? <==>
      Signup.Validar(Signup.Formulario(empresa, f.email, f.senha, f.senha)).Enviar?
  {
    Signup.EnviaSeValido(Signup.Formulario(empresa, f.email, f.senha, f.senha));
  }
}
