/** The company sign-up form (frontend/signup.js): three guards checked in order,
    the request body built from the fields, and the message the page shows once the
    server has answered. */
module Signup {

  import opened Wrappers
  import Text
  import Decimal

  /** The shortest password the form accepts, in UTF-16 code units. */
  const TamanhoMinimo := 8

  const SucessoMensagem := "Conta criada com sucesso! Redirecionando para o login..."

  /** The four inputs as typed. */
  datatype Formulario = Formulario(empresa: string, email: string, senha: string, confirmacao: string)

  /** The JSON body sent to `/signup`: `nome_empresa`, `admin_email`,
      `admin_password`. */
  datatype Cadastro = Cadastro(nomeEmpresa: string, adminEmail: string, adminPassword: string)

  /** Which guard stopped the submission, or the body to send. */
  datatype Validacao = CamposVazios | SenhaCurta | SenhasDiferentes | Enviar(corpo: Cadastro)

  /** Company and e-mail count once trimmed; the passwords as typed. */
  predicate Preenchido(f: Formulario) {
    Text.Trim(f.empresa, Text.IsJsSpace) != [] && Text.Trim(f.email, Text.IsJsSpace) != []
    && f.senha != [] && f.confirmacao != []
  }

  /** The submit handler's guards, in order. */
  function Validar(f: Formulario): (v: Validacao)
    ensures v == CamposVazios <==> !Preenchido(f)
    ensures v == SenhaCurta <==> Preenchido(f) && Text.JsLength(f.senha) < TamanhoMinimo
    ensures v == SenhasDiferentes <==>
      Preenchido(f) && Text.JsLength(f.senha) >= TamanhoMinimo && f.senha != f.confirmacao
    ensures v.Enviar? ==> v.corpo.adminPassword == f.senha == f.confirmacao
  {
    var empresa := Text.Trim(f.empresa, Text.IsJsSpace);
    var email := Text.Trim(f.email, Text.IsJsSpace);
    if empresa == [] || email == [] || f.senha == [] || f.confirmacao == [] then CamposVazios
    else if Text.JsLength(f.senha) < TamanhoMinimo then SenhaCurta
    else if f.senha != f.confirmacao then SenhasDiferentes
    else Enviar(Cadastro(empresa, email, f.senha))
  }

  /** A submission goes out exactly when every guard passes, and its body carries
      the trimmed company and e-mail with the password untouched. */
  lemma EnviaSeValido(f: Formulario)
    ensures Validar(f).Enviar? <==>
      Preenchido(f) && Text.JsLength(f.senha) >= TamanhoMinimo && f.senha == f.confirmacao
    ensures Validar(f).Enviar? ==>
      Validar(f).corpo == Cadastro(Text.Trim(f.empresa, Text.IsJsSpace), Text.Trim(f.email, Text.IsJsSpace), f.senha)
  {
  }

  /** Typing back the body that was sent gives the same body: the fields it
      carries are already trimmed. */
  lemma {:induction false} CorpoEstavel(f: Formulario)
    requires Validar(f).Enviar?
    ensures var c := Validar(f).corpo;
      Validar(Formulario(c.nomeEmpresa, c.adminEmail, c.adminPassword, c.adminPassword)) == Validar(f)
  {
    EnviaSeValido(f);
    var c := Validar(f).corpo;
    Text.TrimOfTrimmed(c.nomeEmpresa, Text.IsJsSpace);
    Text.TrimOfTrimmed(c.adminEmail, Text.IsJsSpace);
    var g := Formulario(c.nomeEmpresa, c.adminEmail, c.adminPassword, c.adminPassword);
    assert Text.Trim(g.empresa, Text.IsJsSpace) == c.nomeEmpresa && Text.Trim(g.email, Text.IsJsSpace) == c.adminEmail;
    assert Preenchido(g);
    EnviaSeValido(g);
  }

  /** What `fetch('/signup')` and `response.json()` give: a status with the body's
      `detail`, or an exception (network failure, a body that is not JSON). */
  datatype Resposta = Corpo(status: int, detail: Option<string>) | Excecao(mensagem: string)

  /** The alert under the form: green (and a redirect to the login page) on
      success, red otherwise, with the button enabled again. */
  datatype Aviso = Aviso(texto: string, sucesso: bool)

  /** `result.detail || \`Erro ${response.status}\``. */
  function Detalhe(status: int, detail: Option<string>): string {
    match detail
    case Some(d) => if d != [] then d else "Erro " + Decimal.IntToString(status)
    case None => "Erro " + Decimal.IntToString(status)
  }

  function Desfecho(r: Resposta): (a: Aviso)
    ensures a.sucesso <==> r.Corpo? && 200 <= r.status <= 299
    ensures a.sucesso ==> a.texto == SucessoMensagem
    ensures r.Excecao? ==> a.texto == r.mensagem
    ensures r.Corpo? && !a.sucesso ==> a.texto == Detalhe(r.status, r.detail)
  {
    match r
    case Excecao(m) => Aviso(m, false)
    case Corpo(status, detail) =>
      if 200 <= status <= 299 then Aviso(SucessoMensagem, true)
      else Aviso(Detalhe(status, detail), false)
  }

  /** The whole submit handler: either a guard's verdict, or the body sent with the
      server's answer. */
  datatype Submissao = Recusada(motivo: Validacao) | Enviada(corpo: Cadastro, aviso: Aviso)

  function Submeter(f: Formulario, resposta: Resposta): (s: Submissao)
    ensures s.Enviada? <==> Validar(f).Enviar?
    ensures s.Recusada? ==> s.motivo == Validar(f)
    ensures s.Enviada? ==> s.corpo == Validar(f).corpo && s.aviso == Desfecho(resposta)
  {
    match Validar(f)
    case Enviar(corpo) => Enviada(corpo, Desfecho(resposta))
    case v => Recusada(v)
  }

  /** The page only reports a created account for a form that passed every guard
      and a 2xx answer; a failed answer shows the server's `detail` when there is
      one. */
  lemma SucessoSoComFormularioValido(f: Formulario, resposta: Resposta)
    requires Submeter(f, resposta).Enviada? && Submeter(f, resposta).aviso.sucesso
    ensures Text.JsLength(f.senha) >= TamanhoMinimo && f.senha == f.confirmacao
    ensures resposta.Corpo? && 200 <= resposta.status <= 299
  {
  }

  /** An error answer with a non-empty `detail` shows exactly that text. */
  lemma ErroMostraDetalhe(f: Formulario, status: int, d: string)
    requires Validar(f).Enviar? && !(200 <= status <= 299) && d != []
    ensures Submeter(f, Corpo(status, Some(d))) == Enviada(Validar(f).corpo, Aviso(d, false))
  {
  }
}
