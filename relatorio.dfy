/** The consolidated report page (frontend/relatorio.js): JSON values coerced with
    `Number(x) || 0`, the per-category sums behind the chart, the chart's visibility,
    orientation, colours and labels, the sign classes of the table and the summary,
    the query string of the filters, and when the entity filter is offered. */
module Relatorio {

  import opened Wrappers
  import Text
  import Decimal

  /** A JSON value as the page receives it (integers only). */
  datatype Valor = Numero(n: int) | Texto(s: string) | Booleano(b: bool) | Nulo | Indefinido

  /** `Number(s)` for decimal integer text; `None` is `NaN`. Blank text is 0. */
  function NumeroDeTexto(s: string): Option<int> {
    var t := Text.Trim(s, Text.IsJsSpace);
    if t == [] then Some(0)
    else
      var digits := if t[0] == '-' || t[0] == '+' then t[1..] else t;
      if digits == [] || !Decimal.AllDigits(digits) then None
      else
        var m: int := Decimal.DigitsValue(digits);
        Some(if t[0] == '-' then -m else m)
  }

  /** `Number(v)`; `None` is `NaN`. */
  function NumeroJs(v: Valor): Option<int> {
    match v
    case Numero(n) => Some(n)
    case Texto(s) => NumeroDeTexto(s)
    case Booleano(b) => Some(if b then 1 else 0)
    case Nulo => Some(0)
    case Indefinido => None
  }

  /** `Number(v) || 0`: `NaN` becomes 0. */
  function Coagir(v: Valor): (n: int)
    ensures NumeroJs(v).None? ==> n == 0
    ensures NumeroJs(v).Some? ==> n == NumeroJs(v).value
  {
    match NumeroJs(v)
    case Some(n) => n
    case None => 0
  }

  /** A number sent as text counts as that number. */
  lemma CoagirTextoDeNumero(n: int)
    ensures Coagir(Texto(Decimal.IntToString(n))) == n
  {
    var s := Decimal.IntToString(n);
    var m: nat := if n < 0 then -n else n;
    var digits := Decimal.NatToString(m);
    Decimal.JsTrimIntToString(n);
    Decimal.NatToStringRoundTrip(m);
    if n < 0 {
      assert s == "-" + digits && s[1..] == digits;
    } else {
      assert s == digits && Decimal.IsDigit(s[0]);
    }
  }

  /** One row of `diferencas`. */
  datatype Item = Item(codigoAuditoria: Option<string>, entidadeNome: Option<string>, categoria: string,
                       qtdSistema: Valor, qtdContada: Valor, diferenca: Valor, impacto: Valor)

  /** The category names in order of first appearance (the keys of the `reduce`
      accumulator). */
  function Categorias(dados: seq<Item>): (cs: seq<string>)
    ensures forall c :: c in cs <==> exists k :: 0 <= k < |dados| && dados[k].categoria == c
  {
    if dados == [] then []
    else
      var p := dados[..|dados| - 1];
      var x := dados[|dados| - 1];
      var cs := Categorias(p);
      assert forall k :: 0 <= k < |p| ==> p[k] == dados[k];
      if x.categoria in cs then cs else cs + [x.categoria]
  }

  /** The sum of the coerced differences of the rows of category `c`. */
  function SomaDe(dados: seq<Item>, c: string): int {
    if dados == [] then 0
    else
      var x := dados[|dados| - 1];
      SomaDe(dados[..|dados| - 1], c) + (if x.categoria == c then Coagir(x.diferenca) else 0)
  }

  /** The sum of every row's coerced difference. */
  function Total(dados: seq<Item>): int {
    if dados == [] then 0 else Total(dados[..|dados| - 1]) + Coagir(dados[|dados| - 1].diferenca)
  }

  /** The sums of the given categories, in their order (`Object.values`). */
  function SomasDe(cs: seq<string>, dados: seq<Item>): (vs: seq<int>)
    ensures |vs| == |cs| && forall k :: 0 <= k < |cs| ==> vs[k] == SomaDe(dados, cs[k])
  {
    if cs == [] then [] else [SomaDe(dados, cs[0])] + SomasDe(cs[1..], dados)
  }

  function SomaLista(vs: seq<int>): int {
    if vs == [] then 0 else vs[0] + SomaLista(vs[1..])
  }

  predicate Distintas(cs: seq<string>) {
    forall i, j :: 0 <= i < j < |cs| ==> cs[i] != cs[j]
  }

  /** No category appears twice among the chart's labels. */
  lemma {:induction false} CategoriasDistintas(dados: seq<Item>)
    ensures Distintas(Categorias(dados))
  {
    if dados != [] {
      CategoriasDistintas(dados[..|dados| - 1]);
    }
  }

  /** A category with no row adds nothing. */
  lemma {:induction false} SomaSemLinhas(dados: seq<Item>, c: string)
    requires c !in Categorias(dados)
    ensures SomaDe(dados, c) == 0
  {
    if dados != [] {
      var p := dados[..|dados| - 1];
      assert c !in Categorias(p);
      SomaSemLinhas(p, c);
    }
  }

  lemma {:induction false} SomasComMaisUm(cs: seq<string>, p: seq<Item>, x: Item)
    requires Distintas(cs)
    ensures SomaLista(SomasDe(cs, p + [x])) ==
      SomaLista(SomasDe(cs, p)) + (if x.categoria in cs then Coagir(x.diferenca) else 0)
  {
    if cs != [] {
      var d := p + [x];
      assert d[..|d| - 1] == p;
      assert x.categoria == cs[0] ==> x.categoria !in cs[1..];
      assert x.categoria in cs <==> x.categoria == cs[0] || x.categoria in cs[1..];
      SomasComMaisUm(cs[1..], p, x);
    }
  }

  lemma {:induction false} SomasComMaisUmaCategoria(cs: seq<string>, c: string, dados: seq<Item>)
    ensures SomaLista(SomasDe(cs + [c], dados)) == SomaLista(SomasDe(cs, dados)) + SomaDe(dados, c)
  {
    if cs != [] {
      assert (cs + [c])[1..] == cs[1..] + [c];
      SomasComMaisUmaCategoria(cs[1..], c, dados);
    } else {
      assert SomasDe([c], dados) == [SomaDe(dados, c)];
    }
  }

  /** The chart neither loses nor invents any difference: its values add up to the
      sum of every row's coerced difference. */
  lemma {:induction false} GraficoConservaTotal(dados: seq<Item>)
    ensures SomaLista(SomasDe(Categorias(dados), dados)) == Total(dados)
  {
    if dados != [] {
      var p := dados[..|dados| - 1];
      var x := dados[|dados| - 1];
      assert dados == p + [x];
      var cs := Categorias(p);
      GraficoConservaTotal(p);
      CategoriasDistintas(p);
      SomasComMaisUm(cs, p, x);
      if x.categoria !in cs {
        SomasComMaisUmaCategoria(cs, x.categoria, dados);
        SomaSemLinhas(p, x.categoria);
      }
    }
  }

  /** The `reduce` in `renderizarGrafico`, then `Object.keys` and `Object.values`. */
  method AgruparPorCategoria(dados: seq<Item>) returns (labels: seq<string>, valores: seq<int>)
    ensures labels == Categorias(dados)
    ensures valores == SomasDe(labels, dados)
  {
    var acc: map<string, int> := map[];
    labels := [];
    for i := 0 to |dados|
      invariant labels == Categorias(dados[..i])
      invariant forall c :: c in acc <==> c in labels
      invariant forall c :: c in acc ==> acc[c] == SomaDe(dados[..i], c)
    {
      var item := dados[i];
      assert dados[..i + 1][..i] == dados[..i];
      var anterior := if item.categoria in acc then acc[item.categoria] else 0;
      acc := acc[item.categoria := anterior + Coagir(item.diferenca)];
      if item.categoria !in labels {
        labels := labels + [item.categoria];
        SomaSemLinhas(dados[..i], item.categoria);
      }
    }
    assert dados[..|dados|] == dados;
    valores := seq(|labels|, k requires 0 <= k < |labels| => acc[labels[k]]);
  }

  datatype Cor = Azul | Vermelho

  /** One bar: its label, value, colour, the data label shown on it (none for 0)
      and its tooltip. */
  datatype Barra = Barra(rotulo: string, valor: int, cor: Cor, etiqueta: Option<string>, dica: string)

  datatype Grafico = Oculto | Barras(barras: seq<Barra>, horizontal: bool)

  /** `(value > 0 ? '+' : '') + value` */
  function ComSinal(v: int): (s: string)
    ensures |s| >= 1
    ensures s[0] == '+' <==> v > 0
    ensures s[0] == '-' <==> v < 0
  {
    (if v > 0 then "+" else "") + Decimal.IntToString(v)
  }

  /** A signed label reads back, with `parseInt`, as the value it shows. */
  lemma ComSinalLidoDeVolta(v: int)
    ensures Decimal.ParseIntJs(ComSinal(v)) == Some(v)
  {
    var s := ComSinal(v);
    if v > 0 {
      assert s == "+" + Decimal.IntToString(v);
      Decimal.ParsePlusRoundTrip(v);
    } else {
      assert s == Decimal.IntToString(v);
      Decimal.ParseIntRoundTrip(v);
    }
  }

  function CorDaBarra(v: int): Cor {
    if v >= 0 then Azul else Vermelho
  }

  function RenderBarra(rotulo: string, v: int): Barra {
    Barra(rotulo, v, CorDaBarra(v), if v != 0 then Some(ComSinal(v)) else None,
          "Diferen\U{E7}a (Quantidade): " + ComSinal(v))
  }

  /** Every value is 0. */
  predicate TodosZero(vs: seq<int>) {
    forall k :: 0 <= k < |vs| ==> vs[k] == 0
  }

  /** The `every` test. */
  function AlgumNaoZero(vs: seq<int>): (b: bool)
    ensures b <==> !TodosZero(vs)
  {
    if vs == [] then false
    else
      assert forall k :: 1 <= k < |vs| ==> vs[k] == vs[1..][k - 1];
      vs[0] != 0 || AlgumNaoZero(vs[1..])
  }

  function RenderBarras(labels: seq<string>, valores: seq<int>): (bs: seq<Barra>)
    requires |labels| == |valores|
    ensures |bs| == |labels| && forall k :: 0 <= k < |labels| ==> bs[k] == RenderBarra(labels[k], valores[k])
  {
    if labels == [] then []
    else
      var resto := RenderBarras(labels[1..], valores[1..]);
      assert forall k :: 1 <= k < |labels| ==> labels[1..][k - 1] == labels[k] && valores[1..][k - 1] == valores[k];
      [RenderBarra(labels[0], valores[0])] + resto
  }

  /** `renderizarGrafico` once the sums are known. */
  function RenderGrafico(labels: seq<string>, valores: seq<int>): (g: Grafico)
    requires |labels| == |valores|
    ensures g.Oculto? <==> labels == [] || TodosZero(valores)
    ensures g.Barras? ==> (g.horizontal <==> |labels| > 10)
    ensures g.Barras? ==> |g.barras| == |labels| && forall k :: 0 <= k < |labels| ==>
      g.barras[k].rotulo == labels[k] && g.barras[k].valor == valores[k]
      && (g.barras[k].cor == Vermelho <==> valores[k] < 0)
      && (g.barras[k].etiqueta.Some? <==> valores[k] != 0)
  {
    if |labels| == 0 || !AlgumNaoZero(valores) then Oculto
    else Barras(RenderBarras(labels, valores), |labels| > 10)
  }

  /** The chart of a set of rows: shown exactly when some category's sum is not
      zero, and then with one bar per category. */
  lemma GraficoDosDados(dados: seq<Item>)
    ensures var cs := Categorias(dados);
      var g := RenderGrafico(cs, SomasDe(cs, dados));
      (g.Barras? <==> exists k :: 0 <= k < |cs| && SomaDe(dados, cs[k]) != 0)
      && (g.Barras? ==> |g.barras| == |cs| && (g.horizontal <==> |cs| > 10))
  {
  }

  /** The colour class of a table row's difference. */
  function ClasseCor(v: int): string {
    if v > 0 then "text-primary" else if v < 0 then "text-danger" else ""
  }

  /** The summary's impact card. */
  function ImpactoClasse(v: int): string {
    if v < 0 then "card-falta" else if v > 0 then "card-sobra" else "card-neutro"
  }

  function ImpactoIcone(v: int): string {
    if v < 0 then "bi-graph-down-arrow" else "bi-graph-up-arrow"
  }

  /** Table, chart and summary agree on the sign of a value: red text, a red bar, a
      shortage card and a minus sign go together; blue text, a surplus card and a
      plus sign go together. */
  lemma SinaisCoerentes(v: int)
    ensures ClasseCor(v) == "text-danger" <==> CorDaBarra(v) == Vermelho
    ensures ClasseCor(v) == "text-danger" <==> ImpactoClasse(v) == "card-falta"
    ensures ClasseCor(v) == "text-danger" <==> ComSinal(v)[0] == '-'
    ensures ClasseCor(v) == "text-primary" <==> ImpactoClasse(v) == "card-sobra"
    ensures ClasseCor(v) == "text-primary" <==> ComSinal(v)[0] == '+'
    ensures ClasseCor(v) == "" <==> ImpactoClasse(v) == "card-neutro"
  {
  }

  /** One rendered table row. */
  datatype LinhaTabela = LinhaTabela(codigo: string, entidade: string, categoria: string,
                                     qtdSistema: int, qtdContada: int, diferenca: string, classe: string, impacto: int)

  /** `x || 'N/A'` */
  function OuNA(s: Option<string>): string {
    if s.Some? && s.value != [] then s.value else "N/A"
  }

  function RenderLinha(item: Item): (l: LinhaTabela)
    ensures l.classe == ClasseCor(Coagir(item.diferenca))
    ensures Decimal.ParseIntJs(l.diferenca) == Some(Coagir(item.diferenca))
  {
    var d := Coagir(item.diferenca);
    ComSinalLidoDeVolta(d);
    LinhaTabela(OuNA(item.codigoAuditoria),
                Text.Upper(if item.entidadeNome.Some? then item.entidadeNome.value else ""),
                if item.categoria != [] then item.categoria else "N/A",
                Coagir(item.qtdSistema), Coagir(item.qtdContada), ComSinal(d), ClasseCor(d), Coagir(item.impacto))
  }

  datatype Tabela = SemDiferencas | Linhas(linhas: seq<LinhaTabela>)

  function RenderLinhas(dados: seq<Item>): (ls: seq<LinhaTabela>)
    ensures |ls| == |dados| && forall k :: 0 <= k < |dados| ==> ls[k] == RenderLinha(dados[k])
  {
    if dados == [] then [] else [RenderLinha(dados[0])] + RenderLinhas(dados[1..])
  }

  function RenderTabela(dados: seq<Item>): (t: Tabela)
    ensures t.SemDiferencas? <==> dados == []
  {
    if dados == [] then SemDiferencas else Linhas(RenderLinhas(dados))
  }

  /** The summary figures from `kpis`. */
  datatype Kpis = Kpis(impactoFinanceiro: Valor, auditoriasNoPeriodo: Valor, totalItensDivergentes: Valor)

  datatype Sumario = Sumario(auditorias: int, impacto: int, impactoClasse: string, impactoIcone: string, divergentes: int)

  /** The three cards: each figure coerced to a number (0 for what does not read
      as one); the impact card shows a shortage for a loss, a surplus for a gain. */
  function RenderSumario(k: Kpis): (s: Sumario)
    ensures s.auditorias == Coagir(k.auditoriasNoPeriodo) && s.divergentes == Coagir(k.totalItensDivergentes)
    ensures s.impacto == Coagir(k.impactoFinanceiro)
    ensures s.impactoClasse == "card-falta" <==> s.impacto < 0
    ensures s.impactoClasse == "card-sobra" <==> s.impacto > 0
    ensures s.impactoIcone == "bi-graph-down-arrow" <==> s.impacto < 0
  {
    var impacto := Coagir(k.impactoFinanceiro);
    Sumario(Coagir(k.auditoriasNoPeriodo), impacto, ImpactoClasse(impacto), ImpactoIcone(impacto),
            Coagir(k.totalItensDivergentes))
  }

  /** The report as `/relatorios/diferencas_consolidadas` returns it. */
  datatype Dados = Dados(kpis: Option<Kpis>, diferencas: Option<seq<Item>>)

  /** What `apiFetch` gives: the data, `null`, or an exception with its message. */
  datatype RespostaRelatorio = Recebido(dados: Dados) | Vazio | Falhou(mensagem: string)

  datatype Pagina = Erro(mensagem: string) | Exibido(sumario: Sumario, grafico: Grafico, tabela: Tabela)

  const Incompletos := "Dados do relat\U{F3}rio n\U{E3}o puderam ser carregados ou est\U{E3}o incompletos."

  /** `carregarRelatorio` from the answer on. */
  function CarregarRelatorio(r: RespostaRelatorio): (p: Pagina)
    ensures p.Exibido? <==> r.Recebido? && r.dados.kpis.Some?
    ensures p.Exibido? ==> p.sumario == RenderSumario(r.dados.kpis.value)
    ensures p.Exibido? ==> var dados := if r.dados.diferencas.Some? then r.dados.diferencas.value else [];
      p.tabela == RenderTabela(dados)
      && p.grafico == RenderGrafico(Categorias(dados), SomasDe(Categorias(dados), dados))
  {
    var prefixo := "N\U{E3}o foi poss\U{ED}vel carregar o relat\U{F3}rio. Motivo: ";
    match r
    case Falhou(m) => Erro(prefixo + (if m != [] then m else "Erro desconhecido"))
    case Vazio => Erro(prefixo + Incompletos)
    case Recebido(d) =>
      if d.kpis.None? then Erro(prefixo + Incompletos)
      else
        var dados := if d.diferencas.Some? then d.diferencas.value else [];
        var cs := Categorias(dados);
        Exibido(RenderSumario(d.kpis.value), RenderGrafico(cs, SomasDe(cs, dados)), RenderTabela(dados))
  }

  /** A character `URLSearchParams` writes as it is. */
  predicate NaoReservado(c: char) {
    'a' <= c <= 'z' || 'A' <= c <= 'Z' || '0' <= c <= '9' || c == '*' || c == '-' || c == '.' || c == '_'
  }

  function DigitoHex(d: nat): char
    requires d < 16
  {
    if d < 10 then ('0' as int + d) as char else ('A' as int + d - 10) as char
  }

  /** The UTF-8 bytes of a character. */
  function Utf8(c: char): (bs: seq<nat>)
    ensures forall k :: 0 <= k < |bs| ==> bs[k] < 256
  {
    var n := c as int;
    if n < 0x80 then [n]
    else if n < 0x800 then [0xC0 + n / 64, 0x80 + n % 64]
    else if n < 0x10000 then [0xE0 + n / 4096, 0x80 + (n / 64) % 64, 0x80 + n % 64]
    else [0xF0 + n / 262144, 0x80 + (n / 4096) % 64, 0x80 + (n / 64) % 64, 0x80 + n % 64]
  }

  function PorCento(bs: seq<nat>): (s: string)
    requires forall k :: 0 <= k < |bs| ==> bs[k] < 256
    ensures forall k :: 0 <= k < |s| ==> s[k] == '%' || ('0' <= s[k] <= '9') || ('A' <= s[k] <= 'F')
  {
    if bs == [] then [] else ['%', DigitoHex(bs[0] / 16), DigitoHex(bs[0] % 16)] + PorCento(bs[1..])
  }

  /** The application/x-www-form-urlencoded serialisation of one name or value. */
  function Codificar(s: string): (r: string)
    ensures '&' !in r && '=' !in r
    ensures (forall k :: 0 <= k < |s| ==> NaoReservado(s[k])) ==> r == s
  {
    if s == [] then []
    else
      var c := s[0];
      var primeiro := if NaoReservado(c) then [c] else if c == ' ' then "+" else PorCento(Utf8(c));
      assert forall k :: 1 <= k < |s| ==> s[k] == s[1..][k - 1];
      primeiro + Codificar(s[1..])
  }

  /** The filters' `name=value` pairs, each only when its value is not empty. */
  function Parametros(dataInicio: string, dataFim: string, entidadeId: string): (ps: seq<string>)
    ensures |ps| <= 3
  {
    (if dataInicio != [] then ["data_inicio=" + Codificar(dataInicio)] else [])
    + (if dataFim != [] then ["data_fim=" + Codificar(dataFim)] else [])
    + (if entidadeId != [] then ["entidade_id=" + Codificar(entidadeId)] else [])
  }

  /** `getQueryString` */
  function Consulta(dataInicio: string, dataFim: string, entidadeId: string): (q: string)
    ensures q == [] <==> dataInicio == [] && dataFim == [] && entidadeId == []
  {
    Text.Join(Parametros(dataInicio, dataFim, entidadeId), "&")
  }

  /** The query string falls apart at '&' into exactly the filled filters, in the
      order start date, end date, entity. */
  lemma ConsultaSeparavel(dataInicio: string, dataFim: string, entidadeId: string)
    requires dataInicio != [] || dataFim != [] || entidadeId != []
    ensures Text.Split(Consulta(dataInicio, dataFim, entidadeId), "&") == Parametros(dataInicio, dataFim, entidadeId)
    ensures |Parametros(dataInicio, dataFim, entidadeId)| ==
      (if dataInicio != [] then 1 else 0) + (if dataFim != [] then 1 else 0) + (if entidadeId != [] then 1 else 0)
  {
    var ps := Parametros(dataInicio, dataFim, entidadeId);
    forall k | 0 <= k < |ps| ensures '&' !in ps[k] {
      assert '&' !in "data_inicio=" && '&' !in "data_fim=" && '&' !in "entidade_id=";
    }
    Text.SplitJoin(ps, "&");
  }

  /** Dates from the date inputs and numeric entity ids go out unchanged. */
  lemma ConsultaDeDatas(dataInicio: string, dataFim: string, entidadeId: int)
    requires dataInicio != [] && dataFim != [] && entidadeId >= 0
    requires forall k :: 0 <= k < |dataInicio| ==> dataInicio[k] == '-' || Decimal.IsDigit(dataInicio[k])
    requires forall k :: 0 <= k < |dataFim| ==> dataFim[k] == '-' || Decimal.IsDigit(dataFim[k])
    ensures Consulta(dataInicio, dataFim, Decimal.IntToString(entidadeId)) ==
      ("data_inicio=" + dataInicio) + "&" + ("data_fim=" + dataFim) + "&" + ("entidade_id=" + Decimal.IntToString(entidadeId))
  {
    var e := Decimal.IntToString(entidadeId);
    var x, y, z := "data_inicio=" + dataInicio, "data_fim=" + dataFim, "entidade_id=" + e;
    assert Parametros(dataInicio, dataFim, e) == [x, y, z] by {
      assert forall k :: 0 <= k < |e| ==> NaoReservado(e[k]);
      assert forall k :: 0 <= k < |dataInicio| ==> NaoReservado(dataInicio[k]);
      assert forall k :: 0 <= k < |dataFim| ==> NaoReservado(dataFim[k]);
    }
    assert Text.Join([x, y, z], "&") == x + "&" + (y + "&" + z) by {
      assert [x, y, z][1..] == [y, z];
      assert Text.Join([y, z], "&") == y + "&" + z;
    }
    assert x + "&" + (y + "&" + z) == x + "&" + y + "&" + z;
  }

  datatype Entidade = Entidade(id: int, nome: string)

  /** What `apiFetch('/entidades/')` gives. */
  datatype RespostaEntidades = Lista(entidades: seq<Entidade>) | Nula | Indisponivel

  /** An option of the entity filter: its value and its text. */
  datatype Opcao = Opcao(valor: string, texto: string)

  function OpcoesDe(es: seq<Entidade>): (os: seq<Opcao>)
    ensures |os| == |es| && forall k :: 0 <= k < |es| ==> os[k] == Opcao(Decimal.IntToString(es[k].id), Text.Upper(es[k].nome))
  {
    if es == [] then [] else [Opcao(Decimal.IntToString(es[0].id), Text.Upper(es[0].nome))] + OpcoesDe(es[1..])
  }

  /** `setupFiltros`: the entity filter, `None` when it stays hidden. */
  function FiltroDeEntidades(r: RespostaEntidades): (f: Option<seq<Opcao>>)
    ensures f.Some? <==> r.Lista? && |r.entidades| > 1
    ensures f.Some? ==> |f.value| == |r.entidades| + 1 && f.value[0] == Opcao("", "Todas as Entidades")
  {
    if r.Lista? && |r.entidades| > 1 then Some([Opcao("", "Todas as Entidades")] + OpcoesDe(r.entidades)) else None
  }

  /** Picking an entity in the filter sends that entity's id. */
  lemma FiltroEnviaId(es: seq<Entidade>, k: nat)
    requires |es| > 1 && k < |es|
    ensures var o := FiltroDeEntidades(Lista(es)).value[k + 1];
      Decimal.ParseIntJs(o.valor) == Some(es[k].id)
  {
    assert FiltroDeEntidades(Lista(es)).value[k + 1] == OpcoesDe(es)[k];
    Decimal.ParseIntRoundTrip(es[k].id);
  }
}
