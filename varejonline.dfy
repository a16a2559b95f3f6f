/** The product synchronisation client (services/varejonline_service.py,
    `obter_produtos`): the product list is fetched page by page, 300 products at a
    time, until the server answers with an empty page; any failure discards what
    was fetched. Each product is then reduced to its name and its group. The HTTP
    call is the parameter `servidor`, which maps a request to the server's answer. */
module Varejonline {

  import opened Wrappers

  const QuantidadePorPagina := 300
  const CaminhoProdutos := "/apps/api/produtos"
  const SemGrupo := "Sem Grupo"
  const NomeIndisponivel := "Nome Indispon\U{ED}vel"
  const SemResposta := "Sem resposta do servidor"
  const NivelGrupo := "GRUPO"

  /** A member of a JSON object: missing, `null`, or a value. */
  datatype Campo<T> = Ausente | Nulo | Valor(v: T)

  /** `obj.get(key, default)`: the default only for a missing member; `null` reads
      as `None`. */
  function Get<T>(c: Campo<T>, padrao: T): (r: Option<T>)
    ensures c.Ausente? ==> r == Some(padrao)
    ensures c.Nulo? ==> r == None
    ensures c.Valor? ==> r == Some(c.v)
  {
    match c
    case Ausente => Some(padrao)
    case Nulo => None
    case Valor(v) => Some(v)
  }

  /** `obj.get(key)`: `None` for a missing member and for `null`. */
  function GetOpcional<T>(c: Campo<T>): (r: Option<T>)
    ensures r.Some? <==> c.Valor?
    ensures c.Valor? ==> r == Some(c.v)
  {
    if c.Valor? then Some(c.v) else None
  }

  datatype Categoria = Categoria(nivel: Campo<string>, nome: Campo<string>)

  /** A product as the API lists it (only the members the client reads). */
  datatype ItemApi = ItemApi(descricao: Campo<string>, nomeGrupo: Campo<string>, categorias: Campo<seq<Categoria>>)

  /** What the client hands on: `{"nome_item": ..., "grupo": ...}`. */
  datatype ProdutoFormatado = ProdutoFormatado(nomeItem: Option<string>, grupo: Option<string>)

  /** The configured API root and access token. */
  datatype Servico = Servico(baseUrl: string, accessToken: string)

  /** One GET: the endpoint and its query parameters. */
  datatype Requisicao = Requisicao(url: string, token: string, inicio: nat, quantidade: nat, alteradoApos: Option<string>)

  /** A response body: a JSON list of products, or something `response.json()`
      refuses (with the exception's text). */
  datatype Corpo = Lista(itens: seq<ItemApi>) | Ilegivel(erro: string)

  /** The server's answer, or the exception raised before any answer arrived
      (time-out, refused connection). */
  datatype Resposta = Resposta(status: int, texto: string, corpo: Corpo) | SemConexao(erro: string)

  /** The request for the page starting at `inicio`; the change filter is sent only
      when it is given and not empty. */
  function Pedido(servico: Servico, inicio: nat, alteradoApos: Option<string>): (r: Requisicao)
    ensures r.inicio == inicio && r.quantidade == QuantidadePorPagina
    ensures r.alteradoApos.Some? <==> alteradoApos.Some? && alteradoApos.value != ""
  {
    Requisicao(servico.baseUrl + CaminhoProdutos, servico.accessToken, inicio, QuantidadePorPagina,
               if alteradoApos.Some? && alteradoApos.value != "" then alteradoApos else None)
  }

  /** `raise_for_status` raises for 4xx and 5xx statuses. */
  predicate StatusDeErro(status: int) {
    400 <= status < 600
  }

  /** What one answer means to the loop. */
  datatype Desfecho = Itens(itens: seq<ItemApi>) | Fim | Erro(mensagem: string)

  /** The text reported for an HTTP error: the response body. */
  function TextoDoErro(r: Resposta): (t: string)
    requires r.Resposta? && StatusDeErro(r.status)
    ensures t == r.texto
  {
    r.texto
  }

  /** The text reported for an HTTP error as the service computes it: the body when
      the response object is truthy. A `requests` response is truthy exactly when
      its status is below 400 or at least 600. */
  function TextoDoErroComoEscrito(r: Resposta): (t: string)
    requires r.Resposta?
    ensures StatusDeErro(r.status) ==> t == SemResposta
    ensures !StatusDeErro(r.status) ==> t == r.texto
  {
    if !StatusDeErro(r.status) then r.texto else SemResposta
  }

  /** No HTTP error ever reaches the message with the server's text: an error
      response is never truthy. */
  lemma TextoDoErroComoEscritoDescartaCorpo(r: Resposta)
    requires r.Resposta? && StatusDeErro(r.status)
    ensures TextoDoErroComoEscrito(r) == SemResposta
    ensures r.texto != SemResposta ==> TextoDoErroComoEscrito(r) != TextoDoErro(r)
  {
  }

  /** A concrete answer that shows it: a 404 with a body. */
  lemma TextoDoErroContraExemplo()
    ensures var r := Resposta(404, "Not Found", Ilegivel(""));
      TextoDoErroComoEscrito(r) == SemResposta && TextoDoErro(r) == "Not Found"
  {
  }

  /** The loop's reading of one answer: an HTTP error, a transport failure or an
      unreadable body stops with a message; an empty list ends the paging; a
      non-empty list is a page of products. */
  function DesfechoDe(r: Resposta): (d: Desfecho)
    ensures r.SemConexao? ==> d == Erro("Erro inesperado: " + r.erro)
    ensures r.Resposta? && StatusDeErro(r.status) ==> d == Erro("Erro na API: " + r.texto)
    ensures r.Resposta? && !StatusDeErro(r.status) && r.corpo.Ilegivel? ==> d == Erro("Erro inesperado: " + r.corpo.erro)
    ensures d.Fim? <==> r.Resposta? && !StatusDeErro(r.status) && r.corpo == Lista([])
    ensures d.Itens? ==> d.itens != [] && r.Resposta? && r.corpo == Lista(d.itens)
  {
    match r
    case SemConexao(e) => Erro("Erro inesperado: " + e)
    case Resposta(status, _, corpo) =>
      if StatusDeErro(status) then Erro("Erro na API: " + TextoDoErro(r))
      else
        match corpo
        case Ilegivel(e) => Erro("Erro inesperado: " + e)
        case Lista(itens) => if itens == [] then Fim else Itens(itens)
  }

  /** The products of the pages, in the order they were fetched. */
  function Juntar(servidor: Requisicao -> Resposta, pedidos: seq<Requisicao>): seq<ItemApi> {
    if pedidos == [] then []
    else
      var d := DesfechoDe(servidor(pedidos[|pedidos| - 1]));
      Juntar(servidor, pedidos[..|pedidos| - 1]) + (if d.Itens? then d.itens else [])
  }

  // ------------------------------------------------------------------ formatting

  /** The index of the first category at the `GRUPO` level. */
  function PrimeiroGrupo(cs: seq<Categoria>): (r: Option<nat>)
    ensures r.Some? ==> r.value < |cs| && cs[r.value].nivel == Valor(NivelGrupo)
    ensures r.Some? ==> forall j :: 0 <= j < r.value ==> cs[j].nivel != Valor(NivelGrupo)
    ensures r.None? ==> forall j :: 0 <= j < |cs| ==> cs[j].nivel != Valor(NivelGrupo)
  {
    if cs == [] then None
    else if cs[0].nivel == Valor(NivelGrupo) then Some(0)
    else
      var r := PrimeiroGrupo(cs[1..]);
      assert forall j :: 1 <= j < |cs| ==> cs[j] == cs[1..][j - 1];
      if r.Some? then Some(r.value + 1) else None
  }

  /** The product's group: the name of its first `GRUPO`-level category, otherwise
      `nome_grupo`, otherwise "Sem Grupo". */
  function Grupo(item: ItemApi): (r: Option<string>)
    ensures item.categorias.Valor? ==> forall i :: 0 <= i < |item.categorias.v| ==>
      item.categorias.v[i].nivel == Valor(NivelGrupo)
      && (forall j :: 0 <= j < i ==> item.categorias.v[j].nivel != Valor(NivelGrupo))
      ==> r == GetOpcional(item.categorias.v[i].nome)
    ensures (!item.categorias.Valor? || forall i :: 0 <= i < |item.categorias.v| ==> item.categorias.v[i].nivel != Valor(NivelGrupo))
      ==> r == Get(item.nomeGrupo, SemGrupo)
  {
    if item.categorias.Valor? && PrimeiroGrupo(item.categorias.v).Some? then
      GetOpcional(item.categorias.v[PrimeiroGrupo(item.categorias.v).value].nome)
    else Get(item.nomeGrupo, SemGrupo)
  }

  /** `{"nome_item": item.get('descricao', 'Nome Indisponível'), "grupo": the group}`:
      the fallback name only when `descricao` is missing, `None` when it is `null`. */
  function Formatar(item: ItemApi): (p: ProdutoFormatado)
    ensures item.descricao.Ausente? ==> p.nomeItem == Some(NomeIndisponivel)
    ensures item.descricao.Nulo? ==> p.nomeItem.None?
    ensures item.descricao.Valor? ==> p.nomeItem == Some(item.descricao.v)
    ensures p.grupo == Grupo(item)
  {
    ProdutoFormatado(Get(item.descricao, NomeIndisponivel), Grupo(item))
  }

  /** The inner loop: the categories are scanned until the first `GRUPO`. */
  method GrupoDoItem(item: ItemApi) returns (grupo: Option<string>)
    ensures grupo == Grupo(item)
  {
    grupo := Get(item.nomeGrupo, SemGrupo);
    if item.categorias.Valor? && item.categorias.v != [] {
      var cs := item.categorias.v;
      var i := 0;
      while i < |cs|
        invariant 0 <= i <= |cs|
        invariant forall j :: 0 <= j < i ==> cs[j].nivel != Valor(NivelGrupo)
        invariant grupo == Get(item.nomeGrupo, SemGrupo)
      {
        if cs[i].nivel == Valor(NivelGrupo) {
          grupo := GetOpcional(cs[i].nome);
          return;
        }
        i := i + 1;
      }
    }
  }

  /** The outer loop: one formatted product per fetched item, in order. */
  method FormatarProdutos(itens: seq<ItemApi>) returns (produtos: seq<ProdutoFormatado>)
    ensures |produtos| == |itens|
    ensures forall i :: 0 <= i < |itens| ==> produtos[i] == Formatar(itens[i])
  {
    produtos := [];
    for i := 0 to |itens|
      invariant |produtos| == i
      invariant forall k :: 0 <= k < i ==> produtos[k] == Formatar(itens[k])
    {
      var grupo := GrupoDoItem(itens[i]);
      var produto := ProdutoFormatado(Get(itens[i].descricao, NomeIndisponivel), grupo);
      assert produto == Formatar(itens[i]);
      produtos := produtos + [produto];
    }
  }

  // ---------------------------------------------------------------- the paging

  /** `obter_produtos`. Besides the products and the error, the requests sent, in
      order. `ultima` is the index of a page at which the server stops the paging
      (an empty page or a failure); without one the source loops for ever. */
  method ObterProdutos(servico: Servico, alteradoApos: Option<string>, servidor: Requisicao -> Resposta, ghost ultima: nat)
    returns (produtos: seq<ProdutoFormatado>, erro: Option<string>, pedidos: seq<Requisicao>)
    requires !DesfechoDe(servidor(Pedido(servico, QuantidadePorPagina * ultima, alteradoApos))).Itens?
    ensures 1 <= |pedidos|
    ensures forall k :: 0 <= k < |pedidos| ==> pedidos[k] == Pedido(servico, QuantidadePorPagina * k, alteradoApos)
    ensures forall k :: 0 <= k < |pedidos| - 1 ==> DesfechoDe(servidor(pedidos[k])).Itens?
    ensures !DesfechoDe(servidor(pedidos[|pedidos| - 1])).Itens?
    ensures DesfechoDe(servidor(pedidos[|pedidos| - 1])).Fim? ==>
      erro == None && |produtos| == |Juntar(servidor, pedidos)|
      && forall i :: 0 <= i < |produtos| ==> produtos[i] == Formatar(Juntar(servidor, pedidos)[i])
    ensures DesfechoDe(servidor(pedidos[|pedidos| - 1])).Erro? ==>
      produtos == [] && erro == Some(DesfechoDe(servidor(pedidos[|pedidos| - 1])).mensagem)
  {
    var todosProdutosApi: seq<ItemApi> := [];
    var inicio: nat := 0;
    pedidos := [];
    while true
      invariant inicio == QuantidadePorPagina * |pedidos| && |pedidos| <= ultima
      invariant forall k :: 0 <= k < |pedidos| ==> pedidos[k] == Pedido(servico, QuantidadePorPagina * k, alteradoApos)
      invariant forall k :: 0 <= k < |pedidos| ==> DesfechoDe(servidor(pedidos[k])).Itens?
      invariant todosProdutosApi == Juntar(servidor, pedidos)
      decreases ultima - |pedidos|
    {
      var pedido := Pedido(servico, inicio, alteradoApos);
      var resposta := servidor(pedido);
      assert (pedidos + [pedido])[..|pedidos|] == pedidos;
      pedidos := pedidos + [pedido];
      match resposta {
        case SemConexao(e) =>
          return [], Some("Erro inesperado: " + e), pedidos;
        case Resposta(status, _, corpo) =>
          if StatusDeErro(status) {
            var textoErro := TextoDoErro(resposta);
            return [], Some("Erro na API: " + textoErro), pedidos;
          }
          match corpo {
            case Ilegivel(e) =>
              return [], Some("Erro inesperado: " + e), pedidos;
            case Lista(dadosPaginaAtual) =>
              if dadosPaginaAtual == [] {
                break;
              }
              todosProdutosApi := todosProdutosApi + dadosPaginaAtual;
              inicio := inicio + QuantidadePorPagina;
          }
      }
    }
    produtos := FormatarProdutos(todosProdutosApi);
    erro := None;
  }

  /** The fetched items grow page by page: `k` full pages hold their items in order. */
  lemma {:induction false} JuntarPaginas(servidor: Requisicao -> Resposta, pedidos: seq<Requisicao>, n: nat)
    requires n <= |pedidos|
    ensures Juntar(servidor, pedidos[..n]) + Juntar(servidor, pedidos[n..]) == Juntar(servidor, pedidos)
    decreases |pedidos|
  {
    if n < |pedidos| {
      var anteriores := pedidos[..|pedidos| - 1];
      JuntarPaginas(servidor, anteriores, n);
      assert anteriores[..n] == pedidos[..n];
      assert pedidos[n..][..|pedidos[n..]| - 1] == anteriores[n..];
      assert pedidos[n..][|pedidos[n..]| - 1] == pedidos[|pedidos| - 1];
    } else {
      assert pedidos[..n] == pedidos;
    }
  }
}
