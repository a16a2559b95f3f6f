/** crud.py's `get_diferencas_consolidadas`: the differences of all finalised audits,
    summed per category, without the categories that balance out, largest absolute
    difference first. */
module Report {

  import opened Wrappers
  import opened Models
  import Sorting

  datatype DiferencaCategoria = DiferencaCategoria(
    categoriaNome: string,
    totalSistema: int,
    totalContada: int,
    diferencaTotal: int)

  /** The audit a scope row joins (`EscopoAuditoria.auditoria_id == Auditoria.id`). */
  function AuditoriaDe(auditorias: seq<Auditoria>, id: int): (r: Option<Auditoria>)
    ensures r.Some? ==> r.value in auditorias && r.value.id == id
    ensures r.None? ==> forall i :: 0 <= i < |auditorias| ==> auditorias[i].id != id
  {
    if auditorias == [] then None
    else if auditorias[0].id == id then Some(auditorias[0])
    else
      var r := AuditoriaDe(auditorias[1..], id);
      assert forall i :: 1 <= i < |auditorias| ==> auditorias[i] == auditorias[1..][i - 1];
      r
  }

  /** `if entidade_id:` -- neither None nor 0. */
  predicate FiltraEntidade(entidadeId: Option<int>) {
    entidadeId.Some? && entidadeId.value != 0
  }

  /** The row joins an audit that has `data_fim` and, when filtering, the entity. */
  predicate Consolidada(auditorias: seq<Auditoria>, e: EscopoAuditoria, entidadeId: Option<int>) {
    var a := AuditoriaDe(auditorias, e.auditoriaId);
    a.Some? && a.value.dataFim.Some? && (FiltraEntidade(entidadeId) ==> a.value.entidadeId == entidadeId.value)
  }

  /** The scope rows the query aggregates, in table order. */
  function LinhasConsolidadas(auditorias: seq<Auditoria>, escopos: seq<EscopoAuditoria>, entidadeId: Option<int>): (r: seq<EscopoAuditoria>)
    ensures forall e :: e in r <==> e in escopos && Consolidada(auditorias, e, entidadeId)
  {
    if escopos == [] then []
    else
      assert escopos == [escopos[0]] + escopos[1..];
      (if Consolidada(auditorias, escopos[0], entidadeId) then [escopos[0]] else [])
      + LinhasConsolidadas(auditorias, escopos[1..], entidadeId)
  }

  /** `GROUP BY categoria_nome`: the names, each once, in order of first appearance. */
  function Categorias(linhas: seq<EscopoAuditoria>): (r: seq<string>)
    ensures forall i, j :: 0 <= i < j < |r| ==> r[i] != r[j]
    ensures forall nome :: nome in r <==> exists k :: 0 <= k < |linhas| && linhas[k].categoriaNome == nome
  {
    if linhas == [] then []
    else
      var anteriores := linhas[..|linhas| - 1];
      var nome := linhas[|linhas| - 1].categoriaNome;
      var r := Categorias(anteriores);
      assert forall k :: 0 <= k < |anteriores| ==> anteriores[k] == linhas[k];
      if nome in r then r else r + [nome]
  }

  /** `sum(qtd_sistema)` over the group. */
  function SomaSistema(linhas: seq<EscopoAuditoria>, nome: string): int {
    if linhas == [] then 0
    else (if linhas[0].categoriaNome == nome then linhas[0].qtdSistema else 0) + SomaSistema(linhas[1..], nome)
  }

  /** `sum(qtd_contada)` over the group. */
  function SomaContada(linhas: seq<EscopoAuditoria>, nome: string): int {
    if linhas == [] then 0
    else (if linhas[0].categoriaNome == nome then linhas[0].qtdContada else 0) + SomaContada(linhas[1..], nome)
  }

  /** The sum of `qtd_contada - qtd_sistema` over the group's rows. */
  function SomaDiferencas(linhas: seq<EscopoAuditoria>, nome: string): int {
    if linhas == [] then 0
    else
      var d := if linhas[0].categoriaNome == nome then linhas[0].qtdContada - linhas[0].qtdSistema else 0;
      d + SomaDiferencas(linhas[1..], nome)
  }

  /** The summed difference of a group is the sum of its rows' differences. */
  lemma {:induction false} SomaDasDiferencas(linhas: seq<EscopoAuditoria>, nome: string)
    ensures SomaContada(linhas, nome) - SomaSistema(linhas, nome) == SomaDiferencas(linhas, nome)
  {
    if linhas != [] {
      SomaDasDiferencas(linhas[1..], nome);
    }
  }

  function Grupo(linhas: seq<EscopoAuditoria>, nome: string): DiferencaCategoria {
    var sistema := SomaSistema(linhas, nome);
    var contada := SomaContada(linhas, nome);
    DiferencaCategoria(nome, sistema, contada, contada - sistema)
  }

  /** The rows the SQL query returns: one per category. */
  function Agrupadas(linhas: seq<EscopoAuditoria>): (r: seq<DiferencaCategoria>)
    ensures |r| == |Categorias(linhas)|
    ensures forall i :: 0 <= i < |r| ==> r[i] == Grupo(linhas, Categorias(linhas)[i])
  {
    var nomes := Categorias(linhas);
    seq(|nomes|, i requires 0 <= i < |nomes| => Grupo(linhas, nomes[i]))
  }

  /** The groups whose difference is not zero, in order. */
  function NaoNulas(grupos: seq<DiferencaCategoria>): (r: seq<DiferencaCategoria>)
    ensures forall d :: d in r <==> d in grupos && d.diferencaTotal != 0
  {
    if grupos == [] then []
    else
      var anteriores := grupos[..|grupos| - 1];
      var ultimo := grupos[|grupos| - 1];
      assert grupos == anteriores + [ultimo];
      NaoNulas(anteriores) + (if ultimo.diferencaTotal != 0 then [ultimo] else [])
  }

  function AbsDiferenca(d: DiferencaCategoria): int {
    if d.diferencaTotal < 0 then -d.diferencaTotal else d.diferencaTotal
  }

  /** `get_diferencas_consolidadas`: the loop keeps the non-zero groups, then the list
      is sorted by absolute difference, largest first, ties in query order. */
  method GetDiferencasConsolidadas(auditorias: seq<Auditoria>, escopos: seq<EscopoAuditoria>, entidadeId: Option<int>)
    returns (diferencas: seq<DiferencaCategoria>)
    ensures diferencas == Sorting.SortByKeyDesc(NaoNulas(Agrupadas(LinhasConsolidadas(auditorias, escopos, entidadeId))), AbsDiferenca)
  {
    var resultados := Agrupadas(LinhasConsolidadas(auditorias, escopos, entidadeId));
    var formatadas: seq<DiferencaCategoria> := [];
    for i := 0 to |resultados|
      invariant formatadas == NaoNulas(resultados[..i])
    {
      var grupo := resultados[i];
      var diferenca := grupo.totalContada - grupo.totalSistema;
      assert resultados[..i + 1][..i] == resultados[..i];
      if diferenca != 0 {
        formatadas := formatadas + [DiferencaCategoria(grupo.categoriaNome, grupo.totalSistema, grupo.totalContada, diferenca)];
      }
    }
    assert resultados[..|resultados|] == resultados;
    diferencas := Sorting.SortByKeyDesc(formatadas, AbsDiferenca);
  }

  lemma Membros(a: seq<DiferencaCategoria>, b: seq<DiferencaCategoria>)
    requires multiset(a) == multiset(b)
    ensures forall d :: d in a <==> d in b
  {
    forall d ensures d in a <==> d in b {
      assert d in a <==> d in multiset(a);
      assert d in b <==> d in multiset(b);
    }
  }

  /** Each entry of the report is the non-zero total of a category over the rows of
      finalised audits (and of the entity, when one is given). */
  lemma ConsolidadoCorreto(auditorias: seq<Auditoria>, escopos: seq<EscopoAuditoria>, entidadeId: Option<int>)
    ensures var linhas := LinhasConsolidadas(auditorias, escopos, entidadeId);
      var r := Sorting.SortByKeyDesc(NaoNulas(Agrupadas(linhas)), AbsDiferenca);
      forall d :: d in r ==>
        d.diferencaTotal != 0 && d.diferencaTotal == d.totalContada - d.totalSistema
        && d.totalSistema == SomaSistema(linhas, d.categoriaNome) && d.totalContada == SomaContada(linhas, d.categoriaNome)
        && d.categoriaNome in Categorias(linhas)
  {
    var linhas := LinhasConsolidadas(auditorias, escopos, entidadeId);
    var grupos := Agrupadas(linhas);
    Membros(NaoNulas(grupos), Sorting.SortByKeyDesc(NaoNulas(grupos), AbsDiferenca));
  }

  /** Every category of the aggregated rows whose difference is not zero is in the
      report. */
  lemma ConsolidadoCompleto(auditorias: seq<Auditoria>, escopos: seq<EscopoAuditoria>, entidadeId: Option<int>, nome: string)
    requires var linhas := LinhasConsolidadas(auditorias, escopos, entidadeId);
      nome in Categorias(linhas) && SomaContada(linhas, nome) != SomaSistema(linhas, nome)
    ensures var linhas := LinhasConsolidadas(auditorias, escopos, entidadeId);
      Grupo(linhas, nome) in Sorting.SortByKeyDesc(NaoNulas(Agrupadas(linhas)), AbsDiferenca)
  {
    var linhas := LinhasConsolidadas(auditorias, escopos, entidadeId);
    var grupos := Agrupadas(linhas);
    var nomes := Categorias(linhas);
    var i :| 0 <= i < |nomes| && nomes[i] == nome;
    assert grupos[i] == Grupo(linhas, nome);
    Membros(NaoNulas(grupos), Sorting.SortByKeyDesc(NaoNulas(grupos), AbsDiferenca));
  }

  /** The report is ordered by absolute difference, largest first, names no category
      twice, and entries with equal absolute difference keep the query's order. */
  lemma ConsolidadoOrdenado(auditorias: seq<Auditoria>, escopos: seq<EscopoAuditoria>, entidadeId: Option<int>)
    ensures var linhas := LinhasConsolidadas(auditorias, escopos, entidadeId);
      var r := Sorting.SortByKeyDesc(NaoNulas(Agrupadas(linhas)), AbsDiferenca);
      Sorting.DescendingBy(r, AbsDiferenca)
      && (forall i, j :: 0 <= i < j < |r| ==> r[i].categoriaNome != r[j].categoriaNome)
      && (forall k :: Sorting.WithKey(r, AbsDiferenca, k) == Sorting.WithKey(NaoNulas(Agrupadas(linhas)), AbsDiferenca, k))
  {
    var linhas := LinhasConsolidadas(auditorias, escopos, entidadeId);
    var nn := NaoNulas(Agrupadas(linhas));
    var r := Sorting.SortByKeyDesc(nn, AbsDiferenca);
    NomesDistintos(linhas);
    forall i, j | 0 <= i < j < |r| ensures r[i].categoriaNome != r[j].categoriaNome {
      PermutacaoNomesDistintos(nn, r, i, j);
    }
  }

  /** Distinct categories give entries with distinct names, and dropping the zero
      entries keeps them distinct. */
  lemma NomesDistintos(linhas: seq<EscopoAuditoria>)
    ensures forall i, j :: 0 <= i < j < |NaoNulas(Agrupadas(linhas))| ==>
      NaoNulas(Agrupadas(linhas))[i].categoriaNome != NaoNulas(Agrupadas(linhas))[j].categoriaNome
  {
    var g := Agrupadas(linhas);
    assert forall i, j :: 0 <= i < j < |g| ==> g[i].categoriaNome != g[j].categoriaNome;
    NaoNulasDistintos(g);
  }

  lemma {:induction false} NaoNulasDistintos(g: seq<DiferencaCategoria>)
    requires forall i, j :: 0 <= i < j < |g| ==> g[i].categoriaNome != g[j].categoriaNome
    ensures forall i, j :: 0 <= i < j < |NaoNulas(g)| ==> NaoNulas(g)[i].categoriaNome != NaoNulas(g)[j].categoriaNome
  {
    if g != [] {
      var anteriores := g[..|g| - 1];
      var ultimo := g[|g| - 1];
      assert forall k :: 0 <= k < |anteriores| ==> anteriores[k] == g[k];
      NaoNulasDistintos(anteriores);
      var n := NaoNulas(anteriores);
      forall k | 0 <= k < |n| ensures n[k].categoriaNome != ultimo.categoriaNome {
        assert n[k] in anteriores;
      }
    }
  }

  lemma PermutacaoNomesDistintos(a: seq<DiferencaCategoria>, b: seq<DiferencaCategoria>, i: int, j: int)
    requires forall x, y :: 0 <= x < y < |a| ==> a[x].categoriaNome != a[y].categoriaNome
    requires multiset(a) == multiset(b)
    requires 0 <= i < j < |b|
    ensures b[i].categoriaNome != b[j].categoriaNome
  {
    if b[i] == b[j] {
      assert multiset(b)[b[i]] >= 2 by {
        assert b == b[..i] + [b[i]] + b[i + 1..j] + [b[j]] + b[j + 1..];
      }
      NoMaximoUma(a, b[i]);
    } else {
      assert b[i] in multiset(a) && b[j] in multiset(a);
      var x :| 0 <= x < |a| && a[x] == b[i];
      var y :| 0 <= y < |a| && a[y] == b[j];
      if x > y {
        assert a[y].categoriaNome != a[x].categoriaNome;
      }
    }
  }

  lemma {:induction false} NoMaximoUma(a: seq<DiferencaCategoria>, v: DiferencaCategoria)
    requires forall x, y :: 0 <= x < y < |a| ==> a[x].categoriaNome != a[y].categoriaNome
    ensures multiset(a)[v] <= 1
  {
    if a != [] {
      assert a == [a[0]] + a[1..];
      NoMaximoUma(a[1..], v);
      if a[0] == v {
        assert v !in a[1..];
      }
    }
  }
}
