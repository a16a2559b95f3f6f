/** The audit detail page (frontend/auditoria-detalhe.js): the header and the count
    table built from `/auditorias/{id}`, the recount alert and the action buttons,
    the "confirm" button that copies the system quantity into a row's input, the
    counts sent by "save", and the keyword that finalises the audit. */
module AuditoriaDetalhe {

  import opened Wrappers
  import Text
  import Decimal
  import Models
  import Crud
  import Clock

  const SemId := "ID da auditoria n\U{E3}o encontrado."
  const ErroAoCarregar := "Erro ao carregar auditoria: "
  const PalavraChave := "FINALIZAR"
  const PrefixoDoId := "qtd-contada-"

  /** What `/auditorias/{id}` returns: the audit, its entity's name and its scope rows. */
  datatype Detalhe = Detalhe(auditoria: Models.Auditoria, entidadeNome: string, escopo: seq<Models.EscopoAuditoria>)

  /** The outcome of `apiFetch`: the decoded body, or the message of the error it threw. */
  datatype RespostaAuditoria = Recebida(detalhe: Detalhe) | Falhou(mensagem: string)

  /** `!!auditoria.data_fim` */
  predicate Finalizada(a: Models.Auditoria) {
    a.dataFim.Some?
  }

  /** The page header: reference code, status badge, entity and responsible person. */
  datatype Cabecalho = Cabecalho(codigo: string, seloClasse: string, seloTexto: string, entidade: string, responsavel: string)

  function RenderCabecalho(d: Detalhe): (c: Cabecalho)
    ensures c.seloTexto == "Finalizada" <==> Finalizada(d.auditoria)
    ensures c.seloClasse == "bg-success" <==> Finalizada(d.auditoria)
  {
    var fin := Finalizada(d.auditoria);
    Cabecalho(d.auditoria.codigoReferencia,
              if fin then "bg-success" else "bg-warning text-dark",
              if fin then "Finalizada" else "Em andamento",
              d.entidadeNome, d.auditoria.responsavel)
  }

  /** The count cell: an editable input with its confirm button (which carries the
      input's id and the system quantity), or a disabled input once the audit is
      finalised. */
  datatype Campo =
    | Editavel(id: string, categoria: string, valor: string, alvo: string, qtdSistema: string)
    | Desabilitado(valor: string)

  /** One row of the count table. `icone` is the colour of the warning icon, if any. */
  datatype Linha = Linha(classe: string, categoria: string, qtdSistema: int, campo: Campo,
                         icone: Option<string>, diferenca: int)

  function ClasseDaLinha(diferenca: int): string {
    if diferenca == 0 then "" else if diferenca < 0 then "diferenca-negativa" else "diferenca-positiva"
  }

  function Icone(diferenca: int): Option<string> {
    if diferenca == 0 then None else if diferenca < 0 then Some("danger") else Some("primary")
  }

  /** The row colour and the icon colour always tell the same sign. */
  lemma SinaisCoerentes(diferenca: int)
    ensures ClasseDaLinha(diferenca) == "" <==> Icone(diferenca).None?
    ensures ClasseDaLinha(diferenca) == "diferenca-negativa" <==> Icone(diferenca) == Some("danger")
    ensures ClasseDaLinha(diferenca) == "diferenca-positiva" <==> Icone(diferenca) == Some("primary")
  {
  }

  /** `valorContado`: empty while the row has not been counted. */
  function ValorContado(e: Models.EscopoAuditoria): string {
    if e.dataContagem.None? then "" else Decimal.IntToString(e.qtdContada)
  }

  /** `s.replace(/\s+/g, '-')`: every run of white space becomes one hyphen. */
  function Hifenizar(s: string): (r: string)
    ensures forall k :: 0 <= k < |r| ==> !Text.IsJsSpace(r[k])
    decreases |s|
  {
    if s == [] then []
    else if Text.IsJsSpace(s[0]) then "-" + Hifenizar(Text.TrimStart(s[1..], Text.IsJsSpace))
    else [s[0]] + Hifenizar(s[1..])
  }

  /** Text without white space is left as it is. */
  lemma {:induction false} HifenizarSemEspacos(s: string)
    requires forall k :: 0 <= k < |s| ==> !Text.IsJsSpace(s[k])
    ensures Hifenizar(s) == s
  {
    if s != [] {
      HifenizarSemEspacos(s[1..]);
    }
  }

  /** The input id as the page writes it: the category name with white space
      replaced. */
  function InputIdComoEscrito(categoria: string): string {
    PrefixoDoId + Hifenizar(categoria)
  }

  /** The input id of row `i`, one per row. */
  function InputId(i: nat): string {
    PrefixoDoId + Decimal.IntToString(i)
  }

  /** Different rows get different ids. */
  lemma InputIdInjetivo(i: nat, j: nat)
    requires InputId(i) == InputId(j)
    ensures i == j
  {
    assert InputId(i)[|PrefixoDoId|..] == Decimal.IntToString(i);
    assert InputId(j)[|PrefixoDoId|..] == Decimal.IntToString(j);
    Decimal.IntToStringInjective(i, j);
  }

  /** The `escopo.forEach` callback: the row of `e` whose input has id `id`. */
  function RenderLinha(e: Models.EscopoAuditoria, id: string, finalizada: bool): (l: Linha)
    ensures l.classe == "" <==> e.diferenca == 0
    ensures l.classe == "diferenca-negativa" <==> e.diferenca < 0
    ensures l.campo.Editavel? <==> !finalizada
    ensures l.campo.Editavel? ==>
      l.campo.id == id && l.campo.alvo == id && l.campo.categoria == e.categoriaNome
      && Decimal.ParseIntJs(l.campo.qtdSistema) == Some(e.qtdSistema)
    ensures l.campo.valor == "" <==> e.dataContagem.None?
    ensures e.dataContagem.Some? ==> Decimal.ParseIntJs(l.campo.valor) == Some(e.qtdContada)
  {
    Decimal.ParseIntRoundTrip(e.qtdSistema);
    Decimal.ParseIntRoundTrip(e.qtdContada);
    var valor := ValorContado(e);
    var campo := if finalizada then Desabilitado(valor)
                 else Editavel(id, e.categoriaNome, valor, id, Decimal.IntToString(e.qtdSistema));
    Linha(ClasseDaLinha(e.diferenca), e.categoriaNome, e.qtdSistema, campo, Icone(e.diferenca), e.diferenca)
  }

  /** The table, one row per scope row, row `i`'s input with id `InputId(i)`. */
  function RenderLinhas(escopo: seq<Models.EscopoAuditoria>, finalizada: bool): (r: seq<Linha>)
    ensures |r| == |escopo|
    ensures forall i :: 0 <= i < |r| ==>
      r[i].categoria == escopo[i].categoriaNome && r[i].qtdSistema == escopo[i].qtdSistema
      && r[i].diferenca == escopo[i].diferenca && (r[i].campo.Editavel? <==> !finalizada)
    ensures forall i :: 0 <= i < |r| && r[i].campo.Editavel? ==> r[i].campo.id == InputId(i) && r[i].campo.alvo == InputId(i)
  {
    seq(|escopo|, i requires 0 <= i < |escopo| => RenderLinha(escopo[i], InputId(i), finalizada))
  }

  /** The table as the page writes it, each input's id taken from its category. */
  function RenderLinhasComoEscrito(escopo: seq<Models.EscopoAuditoria>, finalizada: bool): (r: seq<Linha>)
    ensures |r| == |escopo|
    ensures forall i :: 0 <= i < |r| ==>
      r[i].categoria == escopo[i].categoriaNome && r[i].qtdSistema == escopo[i].qtdSistema
      && r[i].diferenca == escopo[i].diferenca && (r[i].campo.Editavel? <==> !finalizada)
    ensures forall i :: 0 <= i < |r| && r[i].campo.Editavel? ==>
      r[i].campo.id == InputIdComoEscrito(escopo[i].categoriaNome) && r[i].campo.alvo == r[i].campo.id
  {
    seq(|escopo|, i requires 0 <= i < |escopo| =>
      RenderLinha(escopo[i], InputIdComoEscrito(escopo[i].categoriaNome), finalizada))
  }

  /** Row `k` of the table. */
  lemma RenderLinhasEm(escopo: seq<Models.EscopoAuditoria>, k: nat, finalizada: bool)
    requires k < |escopo|
    ensures |RenderLinhas(escopo, finalizada)| == |escopo|
    ensures RenderLinhas(escopo, finalizada)[k] == RenderLinha(escopo[k], InputId(k), finalizada)
  {
  }

  /** The table of the first `i + 1` rows extends that of the first `i`. */
  lemma RenderLinhasMaisUma(escopo: seq<Models.EscopoAuditoria>, i: nat, finalizada: bool)
    requires i < |escopo|
    ensures RenderLinhas(escopo[..i + 1], finalizada)
         == RenderLinhas(escopo[..i], finalizada) + [RenderLinha(escopo[i], InputId(i), finalizada)]
  {
    var a := RenderLinhas(escopo[..i + 1], finalizada);
    var p := RenderLinhas(escopo[..i], finalizada);
    RenderLinhasEm(escopo[..i + 1], i, finalizada);
    forall k | 0 <= k < i
      ensures a[k] == p[k]
    {
      RenderLinhasEm(escopo[..i + 1], k, finalizada);
      RenderLinhasEm(escopo[..i], k, finalizada);
      assert escopo[..i + 1][k] == escopo[..i][k];
    }
    MaisUmNoFim(a, p, i);
  }

  /** A sequence of `i + 1` elements whose first `i` are those of `p` is `p` with
      its last element appended. */
  lemma MaisUmNoFim<T>(a: seq<T>, p: seq<T>, i: nat)
    requires |a| == i + 1 && |p| == i
    requires forall k :: 0 <= k < i ==> a[k] == p[k]
    ensures a == p + [a[i]]
  {
  }

  predicate TemDiferencas(escopo: seq<Models.EscopoAuditoria>) {
    exists i :: 0 <= i < |escopo| && escopo[i].diferenca != 0
  }

  lemma TemDiferencasMaisUma(escopo: seq<Models.EscopoAuditoria>, e: Models.EscopoAuditoria)
    ensures TemDiferencas(escopo + [e]) <==> TemDiferencas(escopo) || e.diferenca != 0
  {
    var s := escopo + [e];
    if TemDiferencas(escopo) {
      var i :| 0 <= i < |escopo| && escopo[i].diferenca != 0;
      assert s[i] == escopo[i];
    }
    if e.diferenca != 0 {
      assert s[|escopo|] == e;
    }
    if TemDiferencas(s) {
      var i :| 0 <= i < |s| && s[i].diferenca != 0;
      if i < |escopo| {
        assert s[i] == escopo[i];
      }
    }
  }

  /** An editable input with that id. */
  predicate TemId(l: Linha, id: string) {
    l.campo.Editavel? && l.campo.id == id
  }

  /** `document.getElementById` from row `k` on: the first such input. */
  function PrimeiroDesde(linhas: seq<Linha>, id: string, k: nat): (r: Option<nat>)
    requires k <= |linhas|
    ensures r.Some? ==> k <= r.value < |linhas| && TemId(linhas[r.value], id)
    ensures r.Some? ==> forall i :: k <= i < r.value ==> !TemId(linhas[i], id)
    ensures r.None? ==> forall i :: k <= i < |linhas| ==> !TemId(linhas[i], id)
    decreases |linhas| - k
  {
    if k == |linhas| then None
    else if TemId(linhas[k], id) then Some(k)
    else PrimeiroDesde(linhas, id, k + 1)
  }

  function PrimeiroComId(linhas: seq<Linha>, id: string): (r: Option<nat>)
    ensures r.Some? ==> r.value < |linhas| && TemId(linhas[r.value], id)
    ensures r.Some? ==> forall i :: 0 <= i < r.value ==> !TemId(linhas[i], id)
    ensures r.None? ==> forall i :: 0 <= i < |linhas| ==> !TemId(linhas[i], id)
  {
    PrimeiroDesde(linhas, id, 0)
  }

  /** Every confirm button targets its own row's input, and no two inputs share an id. */
  predicate IdsUnicos(linhas: seq<Linha>) {
    (forall i :: 0 <= i < |linhas| && linhas[i].campo.Editavel? ==> linhas[i].campo.alvo == linhas[i].campo.id)
    && (forall i, j :: 0 <= i < j < |linhas| && linhas[i].campo.Editavel? && linhas[j].campo.Editavel?
          ==> linhas[i].campo.id != linhas[j].campo.id)
  }

  /** The rendered table has unique ids. */
  lemma RenderIdsUnicos(escopo: seq<Models.EscopoAuditoria>, finalizada: bool)
    ensures IdsUnicos(RenderLinhas(escopo, finalizada))
  {
    var linhas := RenderLinhas(escopo, finalizada);
    forall i, j | 0 <= i < j < |linhas| && linhas[i].campo.Editavel? && linhas[j].campo.Editavel?
      ensures linhas[i].campo.id != linhas[j].campo.id
    {
      if linhas[i].campo.id == linhas[j].campo.id {
        InputIdInjetivo(i, j);
      }
    }
  }

  /** With unique ids, the button of row `j` finds row `j`'s input. */
  lemma {:induction false} BotaoDaPropriaLinha(linhas: seq<Linha>, j: nat)
    requires IdsUnicos(linhas) && j < |linhas| && linhas[j].campo.Editavel?
    ensures PrimeiroComId(linhas, linhas[j].campo.alvo) == Some(j)
  {
    var k := PrimeiroComId(linhas, linhas[j].campo.alvo);
    assert TemId(linhas[j], linhas[j].campo.alvo);
    assert k.Some? && k.value <= j;
  }

  /** Confirming a row in the rendered table fills that row's own input. */
  lemma BotaoPreencheSuaLinha(escopo: seq<Models.EscopoAuditoria>, j: nat)
    requires j < |escopo|
    ensures var linhas := RenderLinhas(escopo, false);
      PrimeiroComId(linhas, linhas[j].campo.alvo) == Some(j)
  {
    RenderIdsUnicos(escopo, false);
    BotaoDaPropriaLinha(RenderLinhas(escopo, false), j);
  }

  /** As written, the categories "A B" and "A-B" get the same input id, so the
      confirm button of the second fills the first one's input. */
  lemma IdsComoEscritoColidem(e1: Models.EscopoAuditoria, e2: Models.EscopoAuditoria)
    requires e1.categoriaNome == "A B" && e2.categoriaNome == "A-B"
    ensures InputIdComoEscrito(e1.categoriaNome) == InputIdComoEscrito(e2.categoriaNome)
    ensures var linhas := RenderLinhasComoEscrito([e1, e2], false);
      PrimeiroComId(linhas, linhas[1].campo.alvo) == Some(0)
  {
    HifenizarAB();
    var linhas := RenderLinhasComoEscrito([e1, e2], false);
    assert linhas[1].campo.alvo == InputIdComoEscrito("A-B");
    assert TemId(linhas[0], InputIdComoEscrito("A-B"));
  }

  lemma HifenizarAB()
    ensures Hifenizar("A B") == "A-B" && Hifenizar("A-B") == "A-B"
  {
    HifenizarEspacoB();
    assert "A B"[1..] == " B" && !Text.IsJsSpace("A B"[0]);
    assert Hifenizar("A B") == "A" + "-B";
    HifenizarSemEspacos("A-B");
  }

  lemma HifenizarEspacoB()
    ensures Hifenizar(" B") == "-B"
  {
    var b := "B";
    assert Text.TrimStart(b, Text.IsJsSpace) == b by {
      assert !Text.IsJsSpace(b[0]);
    }
    assert " B"[1..] == b;
    HifenizarSemEspacos(b);
    assert Hifenizar(" B") == "-" + b;
  }

  /** Two categories whose names have no white space and differ get different ids
      even as written. */
  lemma IdsComoEscritoSemEspacos(a: string, b: string)
    requires forall k :: 0 <= k < |a| ==> !Text.IsJsSpace(a[k])
    requires forall k :: 0 <= k < |b| ==> !Text.IsJsSpace(b[k])
    requires a != b
    ensures InputIdComoEscrito(a) != InputIdComoEscrito(b)
  {
    HifenizarSemEspacos(a);
    HifenizarSemEspacos(b);
    assert InputIdComoEscrito(a)[|PrefixoDoId|..] == a;
    assert InputIdComoEscrito(b)[|PrefixoDoId|..] == b;
  }

  /** The row with its input holding `valor`. */
  function ComValor(l: Linha, valor: string): Linha {
    match l.campo
    case Editavel(id, categoria, _, alvo, qtd) => l.(campo := Editavel(id, categoria, valor, alvo, qtd))
    case Desabilitado(_) => l
  }

  /** One entry of the saved counts; a disabled input has no `data-categoria`. */
  datatype Contagem = Contagem(categoria: Option<string>, qtdContada: int)

  /** `parseInt(value) || 0` */
  function Coagir(valor: string): (n: int)
    ensures Decimal.ParseIntJs(valor).Some? ==> n == Decimal.ParseIntJs(valor).value
    ensures Decimal.ParseIntJs(valor).None? ==> n == 0
  {
    Decimal.ParseIntJs(valor).GetOr(0)
  }

  /** An input holding no digit is saved as zero. */
  lemma CoagirSemDigitos(valor: string)
    requires forall k :: 0 <= k < |valor| ==> !Decimal.IsDigit(valor[k])
    ensures Coagir(valor) == 0
  {
    Decimal.ParseIntNoDigits(valor);
  }

  function ContagemDaLinha(l: Linha): Contagem {
    match l.campo
    case Editavel(_, categoria, valor, _, _) => Contagem(Some(categoria), Coagir(valor))
    case Desabilitado(valor) => Contagem(None, Coagir(valor))
  }

  /** The `contagens` body of `salvarContagens`, one entry per input in table order. */
  function Contagens(linhas: seq<Linha>): (r: seq<Contagem>)
    ensures |r| == |linhas|
    ensures forall i :: 0 <= i < |r| ==> r[i].qtdContada == Coagir(linhas[i].campo.valor)
    ensures forall i :: 0 <= i < |r| ==>
      (r[i].categoria.Some? <==> linhas[i].campo.Editavel?)
      && (linhas[i].campo.Editavel? ==> r[i].categoria == Some(linhas[i].campo.categoria))
  {
    seq(|linhas|, i requires 0 <= i < |linhas| => ContagemDaLinha(linhas[i]))
  }

  /** Saving an open audit's table untouched sends each category's counted
      quantity, and zero for a category not counted yet. */
  lemma SalvarSemEditar(escopo: seq<Models.EscopoAuditoria>, i: nat)
    requires i < |escopo|
    ensures Contagens(RenderLinhas(escopo, false))[i]
         == Contagem(Some(escopo[i].categoriaNome), if escopo[i].dataContagem.Some? then escopo[i].qtdContada else 0)
  {
    var l := RenderLinhas(escopo, false)[i];
    if escopo[i].dataContagem.None? {
      CoagirSemDigitos(l.campo.valor);
    }
  }

  /** Confirming a row and saving sends its system quantity, and the server then
      records a zero difference for it. */
  lemma ConfirmarZeraDiferenca(e: Models.EscopoAuditoria, id: string, agora: Clock.DateTime)
    ensures var l := RenderLinha(e, id, false);
      ContagemDaLinha(ComValor(l, l.campo.qtdSistema)) == Contagem(Some(e.categoriaNome), e.qtdSistema)
    ensures Crud.ContagemAplicada(e, e.qtdSistema, agora).diferenca == 0
  {
  }

  /** `value.toUpperCase() !== 'FINALIZAR'` rejects the keyword. */
  predicate PalavraAceita(v: string) {
    Text.Upper(v) == PalavraChave
  }

  lemma {:induction false} MaiusculasAscii(s: string, t: string)
    requires |s| == |t|
    requires forall i :: 0 <= i < |t| ==> 'A' <= t[i] <= 'Z' && (s[i] == t[i] || s[i] as int == t[i] as int + 32)
    ensures Text.Upper(s) == t
  {
    if s != [] {
      MaiusculasAscii(s[1..], t[1..]);
      assert Text.UpperChar(s[0]) == [t[0]];
    }
  }

  /** The keyword is accepted in any mix of upper and lower case, and nothing
      longer than nine characters is. */
  lemma PalavraSemCaixa(v: string)
    requires |v| == |PalavraChave|
    requires forall i :: 0 <= i < |v| ==> v[i] == PalavraChave[i] || v[i] as int == PalavraChave[i] as int + 32
    ensures PalavraAceita(v)
  {
    MaiusculasAscii(v, PalavraChave);
  }

  lemma PalavraAceitaCurta(v: string)
    requires PalavraAceita(v)
    ensures |v| <= |PalavraChave|
  {
  }

  /** The `escopo.forEach` loop: the rows it appends to the table and whether it
      met a row with a difference. */
  method MontarLinhas(escopo: seq<Models.EscopoAuditoria>, finalizada: bool) returns (linhas: seq<Linha>, temDiferencas: bool)
    ensures linhas == RenderLinhas(escopo, finalizada)
    ensures temDiferencas <==> TemDiferencas(escopo)
  {
    temDiferencas := false;
    linhas := [];
    for i := 0 to |escopo|
      invariant linhas == RenderLinhas(escopo[..i], finalizada)
      invariant temDiferencas <==> TemDiferencas(escopo[..i])
    {
      var item := escopo[i];
      assert escopo[..i + 1] == escopo[..i] + [item];
      TemDiferencasMaisUma(escopo[..i], item);
      RenderLinhasMaisUma(escopo, i, finalizada);
      if item.diferenca != 0 {
        temDiferencas := true;
      }
      linhas := linhas + [RenderLinha(item, InputId(i), finalizada)];
    }
    assert escopo[..|escopo|] == escopo;
  }

  /** The buttons under the table. */
  datatype Acoes = SemAcoes | Exportar | SalvarOuFinalizar

  /** The page: the audit id from the query string and what the page shows. */
  class Pagina {
    const auditoriaId: Option<string>
    /** The message that replaced the page's main content, if any. */
    var erro: Option<string>
    var cabecalho: Option<Cabecalho>
    var linhas: seq<Linha>
    var alerta: bool
    var acoes: Acoes
    /** The finalisation dialog: open or not, its error line, its keyword input. */
    var modalAberto: bool
    var erroPalavra: bool
    var palavraChave: string

    constructor (auditoriaId: Option<string>)
      ensures this.auditoriaId == auditoriaId && erro == None && cabecalho == None
      ensures linhas == [] && !alerta && acoes == SemAcoes
      ensures !modalAberto && !erroPalavra && palavraChave == ""
    {
      this.auditoriaId := auditoriaId;
      erro := None;
      cabecalho := None;
      linhas := [];
      alerta := false;
      acoes := SemAcoes;
      modalAberto := false;
      erroPalavra := false;
      palavraChave := "";
    }

    /** What a loaded audit shows. */
    predicate Exibe(d: Detalhe)
      reads this
    {
      var fin := Finalizada(d.auditoria);
      cabecalho == Some(RenderCabecalho(d))
      && linhas == RenderLinhas(d.escopo, fin)
      && (alerta <==> !fin && TemDiferencas(d.escopo))
      && acoes == (if fin then Exportar else SalvarOuFinalizar)
    }

    /** `carregarDetalhesAuditoria` */
    method Carregar(resposta: RespostaAuditoria)
      modifies this
      ensures modalAberto == old(modalAberto) && erroPalavra == old(erroPalavra) && palavraChave == old(palavraChave)
      ensures (auditoriaId.None? || auditoriaId == Some("")) ==>
        erro == Some(SemId)
        && cabecalho == old(cabecalho) && linhas == old(linhas) && alerta == old(alerta) && acoes == old(acoes)
      ensures auditoriaId.Some? && auditoriaId != Some("") && resposta.Falhou? ==>
        erro == Some(ErroAoCarregar + resposta.mensagem)
        && cabecalho == old(cabecalho) && linhas == old(linhas) && alerta == old(alerta) && acoes == old(acoes)
      ensures auditoriaId.Some? && auditoriaId != Some("") && resposta.Recebida? ==>
        erro == old(erro) && Exibe(resposta.detalhe)
    {
      if auditoriaId.None? || auditoriaId.value == "" {
        erro := Some(SemId);
        return;
      }
      match resposta {
        case Falhou(mensagem) =>
          erro := Some(ErroAoCarregar + mensagem);
        case Recebida(d) =>
          var fin := d.auditoria.dataFim.Some?;
          cabecalho := Some(RenderCabecalho(d));
          var novas, temDiferencas := MontarLinhas(d.escopo, fin);
          linhas := novas;
          alerta := !fin && temDiferencas;
          acoes := if fin then Exportar else SalvarOuFinalizar;
      }
    }

    /** The user typing `valor` into row `i`'s input (a disabled input takes nothing). */
    method Preencher(i: int, valor: string)
      modifies this
      ensures 0 <= i < |old(linhas)| ==> linhas == old(linhas)[i := ComValor(old(linhas)[i], valor)]
      ensures !(0 <= i < |old(linhas)|) ==> linhas == old(linhas)
      ensures erro == old(erro) && cabecalho == old(cabecalho) && alerta == old(alerta) && acoes == old(acoes)
      ensures modalAberto == old(modalAberto) && erroPalavra == old(erroPalavra) && palavraChave == old(palavraChave)
    {
      if 0 <= i < |linhas| {
        linhas := linhas[i := ComValor(linhas[i], valor)];
      }
    }

    /** `confirmarContagem`: a click on row `j`'s confirm button writes the system
        quantity into the input `getElementById` finds for the button's target. */
    method ConfirmarContagem(j: int)
      modifies this
      ensures !(0 <= j < |old(linhas)| && old(linhas)[j].campo.Editavel?) ==> linhas == old(linhas)
      ensures 0 <= j < |old(linhas)| && old(linhas)[j].campo.Editavel? && IdsUnicos(old(linhas)) ==>
        linhas == old(linhas)[j := ComValor(old(linhas)[j], old(linhas)[j].campo.qtdSistema)]
      ensures 0 <= j < |old(linhas)| && old(linhas)[j].campo.Editavel? ==>
        var k := PrimeiroComId(old(linhas), old(linhas)[j].campo.alvo);
        k.None? ==> linhas == old(linhas)
      ensures 0 <= j < |old(linhas)| && old(linhas)[j].campo.Editavel? ==>
        var k := PrimeiroComId(old(linhas), old(linhas)[j].campo.alvo);
        k.Some? ==> linhas == old(linhas)[k.value := ComValor(old(linhas)[k.value], old(linhas)[j].campo.qtdSistema)]
      ensures erro == old(erro) && cabecalho == old(cabecalho) && alerta == old(alerta) && acoes == old(acoes)
      ensures modalAberto == old(modalAberto) && erroPalavra == old(erroPalavra) && palavraChave == old(palavraChave)
    {
      if !(0 <= j < |linhas|) || !linhas[j].campo.Editavel? {
        return;
      }
      var alvo := linhas[j].campo.alvo;
      var qtdSistema := linhas[j].campo.qtdSistema;
      var k := PrimeiroComId(linhas, alvo);
      if IdsUnicos(linhas) {
        BotaoDaPropriaLinha(linhas, j);
      }
      if k.Some? {
        linhas := linhas[k.value := ComValor(linhas[k.value], qtdSistema)];
      }
    }

    /** `salvarContagens`: the counts of every input are posted; `aceito` is whether
        the server accepted them, after which the page reloads with `recarga`. */
    method Salvar(aceito: bool, recarga: RespostaAuditoria) returns (sucesso: bool, corpo: seq<Contagem>)
      modifies this
      ensures corpo == Contagens(old(linhas)) && sucesso == aceito
      ensures modalAberto == old(modalAberto) && erroPalavra == old(erroPalavra) && palavraChave == old(palavraChave)
      ensures !aceito ==>
        erro == old(erro) && cabecalho == old(cabecalho) && linhas == old(linhas) && alerta == old(alerta) && acoes == old(acoes)
      ensures aceito && auditoriaId.Some? && auditoriaId != Some("") && recarga.Recebida? ==>
        erro == old(erro) && Exibe(recarga.detalhe)
    {
      corpo := Contagens(linhas);
      sucesso := aceito;
      if aceito {
        Carregar(recarga);
      }
    }

    /** `handleFinalizarClick`: the dialog opens only after a successful save. */
    method ClicarFinalizar(aceito: bool, recarga: RespostaAuditoria) returns (corpo: seq<Contagem>)
      modifies this
      ensures corpo == Contagens(old(linhas))
      ensures modalAberto <==> aceito || old(modalAberto)
      ensures erroPalavra == old(erroPalavra) && palavraChave == old(palavraChave)
    {
      var sucesso;
      sucesso, corpo := Salvar(aceito, recarga);
      if sucesso {
        modalAberto := true;
      }
    }

    /** The user typing into the keyword input. */
    method DigitarPalavra(v: string)
      modifies this
      ensures palavraChave == v
      ensures erro == old(erro) && cabecalho == old(cabecalho) && linhas == old(linhas) && alerta == old(alerta) && acoes == old(acoes)
      ensures modalAberto == old(modalAberto) && erroPalavra == old(erroPalavra)
    {
      palavraChave := v;
    }

    /** The dialog's confirm button: a wrong keyword shows the error and sends
        nothing; otherwise `POST /finalizar` is sent, and on success the dialog
        closes and the page reloads, on failure the keyword is cleared. */
    method ConfirmarFinalizacao(aceito: bool, recarga: RespostaAuditoria) returns (enviado: bool)
      modifies this
      ensures enviado <==> PalavraAceita(old(palavraChave))
      ensures erroPalavra <==> !enviado
      ensures !enviado ==> modalAberto == old(modalAberto) && palavraChave == old(palavraChave)
      ensures enviado && aceito ==> !modalAberto && palavraChave == old(palavraChave)
      ensures enviado && !aceito ==> modalAberto == old(modalAberto) && palavraChave == ""
      ensures !(enviado && aceito) ==>
        erro == old(erro) && cabecalho == old(cabecalho) && linhas == old(linhas) && alerta == old(alerta) && acoes == old(acoes)
      ensures enviado && aceito && auditoriaId.Some? && auditoriaId != Some("") && recarga.Recebida? ==>
        erro == old(erro) && Exibe(recarga.detalhe)
    {
      if !PalavraAceita(palavraChave) {
        erroPalavra := true;
        enviado := false;
        return;
      }
      erroPalavra := false;
      enviado := true;
      if aceito {
        modalAberto := false;
        Carregar(recarga);
      } else {
        palavraChave := "";
      }
    }
  }
}
