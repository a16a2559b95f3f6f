/** The navigation bar every page loads (frontend/nav.js): without a stored token
    the visitor is sent to the login page; otherwise the current user is fetched,
    the menu is rendered (with the administration links only for admins) and the
    link of the current page is marked active. */
module Nav {

  import opened Wrappers
  import Text

  const Login := "/login"
  const Inicio := "/"

  /** Links every user sees, before and after the admin-only ones. */
  const LinksIniciais := ["/", "/auditorias.html"]
  const LinksAdmin := ["/relatorio.html", "/produtos.html", "/usuarios.html", "/lojas.html"]
  const LinksFinais := ["/atualizar-estoque.html", "/comunicacoes.html", "/ajuda.html"]

  /** The user `/users/me` returns; `null` decodes to `None`. */
  datatype UsuarioAtual = UsuarioAtual(username: string, role: string)

  /** The outcome of `fetch('/users/me')`: a 401, another failure (a status that is
      not ok, a network error, a body that is not JSON), or the decoded body. */
  datatype RespostaMe = NaoAutorizado | Falhou | Recebido(usuario: Option<UsuarioAtual>)

  /** The hrefs of the menu's links, in order; the four administration links only
      for an admin. */
  function Links(isAdmin: bool): (r: seq<string>)
    ensures forall h :: h in LinksAdmin ==> (h in r <==> isAdmin)
    ensures forall h :: h in LinksIniciais || h in LinksFinais ==> h in r
    ensures |r| == if isAdmin then 9 else 5
  {
    LinksIniciais + (if isAdmin then LinksAdmin else []) + LinksFinais
  }

  /** A link is active on the home page when it is the home link, and elsewhere
      when the path starts with its href. */
  predicate Ativo(caminho: string, href: string) {
    ((caminho == "/" || caminho == "/index.html") && href == Inicio)
    || (href != Inicio && Text.StartsWith(caminho, href))
  }

  /** Two prefixes of the same path: the shorter is a prefix of the longer. */
  lemma PrefixosAninhados(caminho: string, a: string, b: string)
    requires Text.StartsWith(caminho, a) && Text.StartsWith(caminho, b) && |a| <= |b|
    ensures Text.StartsWith(b, a)
  {
    assert b[..|a|] == caminho[..|b|][..|a|];
  }

  /** The second and third characters of a link, which tell the links apart. */
  function Chave(h: string): int
    requires |h| >= 3
  {
    256 * (h[1] as int) + h[2] as int
  }

  /** The `Chave` of each link, in menu order ("/" has none). */
  function ChavesDosLinks(isAdmin: bool): seq<int> {
    if isAdmin then [0, 0x6175, 0x7265, 0x7072, 0x7573, 0x6c6f, 0x6174, 0x636f, 0x616a]
    else [0, 0x6175, 0x6174, 0x636f, 0x616a]
  }

  lemma ChaveDoLink(isAdmin: bool, i: int)
    requires 1 <= i < |Links(isAdmin)|
    ensures |Links(isAdmin)[i]| >= 3 && Links(isAdmin)[i] != Inicio
    ensures Chave(Links(isAdmin)[i]) == ChavesDosLinks(isAdmin)[i]
  {
    var l := Links(isAdmin);
    if isAdmin {
      assert l == ["/", "/auditorias.html", "/relatorio.html", "/produtos.html", "/usuarios.html",
                   "/lojas.html", "/atualizar-estoque.html", "/comunicacoes.html", "/ajuda.html"];
      assert i == 1 || i == 2 || i == 3 || i == 4 || i == 5 || i == 6 || i == 7 || i == 8;
    } else {
      assert l == ["/", "/auditorias.html", "/atualizar-estoque.html", "/comunicacoes.html", "/ajuda.html"];
      assert i == 1 || i == 2 || i == 3 || i == 4;
    }
  }

  /** A prefix of at least three characters carries the path's `Chave`. */
  lemma ChaveDoPrefixo(caminho: string, h: string)
    requires |h| >= 3 && Text.StartsWith(caminho, h)
    ensures |caminho| >= 3 && Chave(caminho) == Chave(h)
  {
    assert caminho[1] == caminho[..|h|][1] && caminho[2] == caminho[..|h|][2];
  }

  /** On any page at most one menu link is active. */
  lemma {:induction false} NoMaximoUmAtivo(isAdmin: bool, caminho: string, i: nat, j: nat)
    requires i < j < |Links(isAdmin)|
    ensures !(Ativo(caminho, Links(isAdmin)[i]) && Ativo(caminho, Links(isAdmin)[j]))
  {
    var l := Links(isAdmin);
    ChaveDoLink(isAdmin, j);
    if Ativo(caminho, l[i]) && Ativo(caminho, l[j]) {
      ChaveDoPrefixo(caminho, l[j]);
      if i == 0 {
        assert false;
      } else {
        ChaveDoLink(isAdmin, i);
        ChaveDoPrefixo(caminho, l[i]);
        assert false;
      }
    }
  }

  /** On each menu page that page's link is the one marked, and on the home page
      only the home link is. */
  lemma PaginaDoLinkAtiva(isAdmin: bool, i: nat)
    requires i < |Links(isAdmin)|
    ensures Ativo(Links(isAdmin)[i], Links(isAdmin)[i])
    ensures Ativo("/index.html", Links(isAdmin)[i]) <==> i == 0
    ensures Ativo("/", Links(isAdmin)[i]) <==> i == 0
  {
    var l := Links(isAdmin);
    assert Text.StartsWith(l[i], l[i]);
    if i > 0 {
      ChaveDoLink(isAdmin, i);
      if Text.StartsWith("/index.html", l[i]) {
        ChaveDoPrefixo("/index.html", l[i]);
        assert false;
      }
    }
  }

  /** The page's navigation state: the stored token, where the page was sent, and
      the rendered menu. */
  class Navegacao {
    /** `localStorage.accessToken` */
    var token: Option<string>
    /** The last assignment to `window.location.href`. */
    var destino: Option<string>
    /** The name in the greeting; `None` while the menu is not rendered. */
    var saudacao: Option<string>
    /** The menu's links and whether each carries the `active` class. */
    var links: seq<string>
    var ativos: seq<bool>

    constructor (token: Option<string>)
      ensures this.token == token && destino == None && saudacao == None
      ensures links == [] && ativos == []
    {
      this.token := token;
      destino := None;
      saudacao := None;
      links := [];
      ativos := [];
    }

    /** The `forEach` over the menu links. */
    method MarcarAtivos(caminho: string)
      modifies this
      ensures token == old(token) && destino == old(destino) && saudacao == old(saudacao) && links == old(links)
      ensures |ativos| == |links|
      ensures forall i :: 0 <= i < |links| ==> ativos[i] == Ativo(caminho, links[i])
    {
      var marcados: seq<bool> := [];
      for i := 0 to |links|
        invariant |marcados| == i
        invariant forall k :: 0 <= k < i ==> marcados[k] == Ativo(caminho, links[k])
      {
        var linkHref := links[i];
        if (caminho == "/" || caminho == "/index.html") && linkHref == Inicio {
          marcados := marcados + [true];
        } else if linkHref != Inicio && Text.StartsWith(caminho, linkHref) {
          marcados := marcados + [true];
        } else {
          marcados := marcados + [false];
        }
      }
      ativos := marcados;
    }

    /** The page-load handler, from the token check to the active link. */
    method Carregar(temPlaceholder: bool, caminho: string, resposta: RespostaMe)
      modifies this
      ensures !temPlaceholder ==>
        token == old(token) && destino == old(destino) && saudacao == old(saudacao)
        && links == old(links) && ativos == old(ativos)
      ensures temPlaceholder && (old(token) == None || old(token) == Some("")) ==>
        token == old(token) && saudacao == old(saudacao) && links == old(links) && ativos == old(ativos)
        && destino == if caminho != "/login.html" && caminho != Login then Some(Login) else old(destino)
      ensures temPlaceholder && old(token).Some? && old(token) != Some("") && !resposta.Recebido? ==>
        token == None && destino == Some(Login) && saudacao == old(saudacao)
        && links == old(links) && ativos == old(ativos)
      ensures temPlaceholder && old(token).Some? && old(token) != Some("") && resposta.Recebido? ==>
        var isAdmin := resposta.usuario.Some? && resposta.usuario.value.role == "admin";
        token == old(token) && destino == old(destino)
        && saudacao == Some(if resposta.usuario.Some? then resposta.usuario.value.username else "Utilizador")
        && links == Links(isAdmin)
        && |ativos| == |links| && forall i :: 0 <= i < |links| ==> ativos[i] == Ativo(caminho, links[i])
    {
      if !temPlaceholder {
        return;
      }
      if token == None || token == Some("") {
        if caminho != "/login.html" && caminho != Login {
          destino := Some(Login);
        }
        return;
      }
      match resposta {
        case NaoAutorizado =>
          token := None;
          destino := Some(Login);
          return;
        case Falhou =>
          token := None;
          destino := Some(Login);
          return;
        case Recebido(usuario) =>
          saudacao := Some(if usuario.Some? then usuario.value.username else "Utilizador");
          var isAdmin := usuario.Some? && usuario.value.role == "admin";
          links := Links(isAdmin);
          MarcarAtivos(caminho);
      }
    }

    /** The logout button. */
    method Sair()
      modifies this
      ensures token == None && destino == Some(Login)
      ensures saudacao == old(saudacao) && links == old(links) && ativos == old(ativos)
    {
      token := None;
      destino := Some(Login);
    }
  }
}
