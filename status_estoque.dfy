/** The stock-freshness panel of the home page (frontend/script.js,
    `verificarStatusEstoque`): the last stock update, as the backend stores it
    ("dd/mm/yyyy às HH:MM"), is read back as a local date and time, and the stock
    counts as up to date when that moment is at most 30 minutes ago and on the
    same day of the month. */
module StatusEstoque {

  import opened Wrappers
  import Text
  import Decimal
  import Clock
  import Crud

  const Separador := " \U{E0}s "
  /** The value the page treats as "never updated". */
  const Nunca := "Nunca"
  /** Thirty minutes, in milliseconds. */
  const Limite := 30 * 60000

  /** What `apiFetch` gives the page: `null`, the stored text, or an exception. */
  datatype Resposta = Nulo | Texto(valor: string) | Falhou

  /** What the panel ends up showing. */
  datatype Painel = Inalterado | EstoqueAtualizado(data: string) | EstoqueDesatualizado(data: string) | ErroDeConexao

  /** A local date and time with its seconds (what `new Date(...)` holds). */
  datatype Instante = Instante(t: Clock.DateTime, segundo: nat)

  /** `new Date()`: the reading, and the milliseconds into its minute. */
  datatype Agora = Agora(t: Clock.DateTime, ms: nat)

  /** A template literal turns a missing destructured part into "undefined". */
  function Parte(partes: seq<string>, i: nat): string {
    if i < |partes| then partes[i] else "undefined"
  }

  /** `new Date(s)` for the one form the page builds, "YYYY-MM-DDTHH:mm:ss" read as
      local time; `None` is the invalid date. */
  function IsoLocal(s: string): (r: Option<Instante>)
    ensures r.Some? ==> 1 <= r.value.t.month <= 12 && 1 <= r.value.t.day <= 31
  {
    if |s| == 19 && s[4] == '-' && s[7] == '-' && s[10] == 'T' && s[13] == ':' && s[16] == ':' then
      var ano := Decimal.ParseFixed(s[0..4], 4);
      var mes := Decimal.ParseFixed(s[5..7], 2);
      var dia := Decimal.ParseFixed(s[8..10], 2);
      var hora := Decimal.ParseFixed(s[11..13], 2);
      var minuto := Decimal.ParseFixed(s[14..16], 2);
      var segundo := Decimal.ParseFixed(s[17..19], 2);
      if ano.Some? && mes.Some? && dia.Some? && hora.Some? && minuto.Some? && segundo.Some?
         && 1 <= mes.value <= 12 && 1 <= dia.value <= Clock.DaysInMonth(ano.value, mes.value)
         && hora.value < 24 && minuto.value < 60 && segundo.value < 60
      then Some(Instante(Clock.DateTime(ano.value, mes.value, dia.value, hora.value, minuto.value), segundo.value))
      else None
    else None
  }

  /** `\`${ano}-${mes}-${dia}T${hora}:${minuto}:00\`` from the stored text. */
  function Reconstruido(dataParte: string, horaParte: string): string {
    var d := Text.Split(dataParte, "/");
    var h := Text.Split(horaParte, ":");
    Parte(d, 2) + "-" + Parte(d, 1) + "-" + Parte(d, 0) + "T" + Parte(h, 0) + ":" + Parte(h, 1) + ":00"
  }

  /** At most 30 minutes have passed (or the moment lies ahead), and the day of the
      month is the same. */
  function Fresco(agora: Agora, ultima: Instante): (b: bool)
    requires 1 <= agora.t.month <= 12 && 1 <= ultima.t.month <= 12
    ensures b ==> agora.t.day == ultima.t.day
    ensures agora.t == ultima.t && agora.ms <= Limite ==> b
    ensures ultima.segundo < 60 && Clock.EpochMinutes(agora.t) > Clock.EpochMinutes(ultima.t) + 30 ==> !b
  {
    var decorrido := (Clock.EpochMinutes(agora.t) - Clock.EpochMinutes(ultima.t)) * 60000 + agora.ms - 1000 * ultima.segundo;
    decorrido <= Limite && agora.t.day == ultima.t.day
  }

  /** The decision once the "never" value is ruled out: text without " às " is a
      parsing failure, and every other text is shown, fresh or outdated. */
  function PainelDaData(data: string, agora: Agora): (p: Painel)
    requires 1 <= agora.t.month <= 12
    ensures p.ErroDeConexao? <==> |Text.Split(data, Separador)| < 2
    ensures !p.ErroDeConexao? ==> p == EstoqueAtualizado(data) || p == EstoqueDesatualizado(data)
  {
    var partes := Text.Split(data, Separador);
    if |partes| < 2 then ErroDeConexao
    else
      match IsoLocal(Reconstruido(partes[0], partes[1]))
      case None => EstoqueDesatualizado(data)
      case Some(u) => if Fresco(agora, u) then EstoqueAtualizado(data) else EstoqueDesatualizado(data)
  }

  /** `verificarStatusEstoque` as written: only the literal "Nunca" is taken for
      "never updated". */
  function VerificarStatusEstoqueComoEscrito(resposta: Resposta, agora: Agora): (p: Painel)
    requires 1 <= agora.t.month <= 12
    ensures resposta.Nulo? <==> p.Inalterado?
    ensures resposta.Falhou? ==> p.ErroDeConexao?
    ensures resposta == Texto(Nunca) ==> p == EstoqueDesatualizado(Nunca)
    ensures p.EstoqueAtualizado? ==> resposta == Texto(p.data)
  {
    match resposta
    case Nulo => Inalterado
    case Falhou => ErroDeConexao
    case Texto(data) => if data == Nunca then EstoqueDesatualizado(data) else PainelDaData(data, agora)
  }

  /** `verificarStatusEstoque` with the backend's own "never updated" value
      recognised beside the page's "Nunca". */
  function VerificarStatusEstoque(resposta: Resposta, agora: Agora): (p: Painel)
    requires 1 <= agora.t.month <= 12
    ensures resposta.Nulo? <==> p.Inalterado?
    ensures resposta.Falhou? ==> p.ErroDeConexao?
    ensures resposta == Texto(Nunca) ==> p == EstoqueDesatualizado(Nunca)
    ensures resposta == Texto(Crud.NuncaAtualizado) ==> p == EstoqueDesatualizado(Crud.NuncaAtualizado)
    ensures p.EstoqueAtualizado? ==> resposta == Texto(p.data)
  {
    match resposta
    case Nulo => Inalterado
    case Falhou => ErroDeConexao
    case Texto(data) =>
      if data == Nunca || data == Crud.NuncaAtualizado then EstoqueDesatualizado(data) else PainelDaData(data, agora)
  }

  /** The correction changes the panel only for the backend's "Nunca atualizado". */
  lemma CorrecaoSoNoNuncaAtualizado(resposta: Resposta, agora: Agora)
    requires 1 <= agora.t.month <= 12 && resposta != Texto(Crud.NuncaAtualizado)
    ensures VerificarStatusEstoque(resposta, agora) == VerificarStatusEstoqueComoEscrito(resposta, agora)
  {
  }

  /** "Nunca atualizado" does not contain " às ". */
  lemma SemSeparadorNoNunca()
    ensures Text.Split(Crud.NuncaAtualizado, Separador) == [Crud.NuncaAtualizado]
  {
    assert '\U{E0}' !in Crud.NuncaAtualizado;
    Text.FindNoneSecond(Crud.NuncaAtualizado, Separador);
  }

  /** The stored "never updated" value lands in the connection-error panel. */
  lemma NuncaAtualizadoComoEscrito(agora: Agora)
    requires 1 <= agora.t.month <= 12
    ensures VerificarStatusEstoqueComoEscrito(Texto(Crud.NuncaAtualizado), agora) == ErroDeConexao
  {
    SemSeparadorNoNunca();
  }

  /** The date half of the stored text, "dd/mm/yyyy". */
  function DataDe(t: Clock.DateTime): string
    requires Clock.Valid(t)
  {
    Decimal.Pad(t.day, 2) + "/" + Decimal.Pad(t.month, 2) + "/" + Decimal.Pad(t.year, 4)
  }

  /** The time half of the stored text, "HH:MM". */
  function HoraDe(t: Clock.DateTime): string
    requires Clock.Valid(t)
  {
    Decimal.Pad(t.hour, 2) + ":" + Decimal.Pad(t.minute, 2)
  }

  lemma SepararCarimbo(t: Clock.DateTime)
    requires Clock.Valid(t)
    ensures Text.Split(Crud.CarimboAtualizacao(t), Separador) == [DataDe(t), HoraDe(t)]
  {
    assert Crud.CarimboAtualizacao(t) == DataDe(t) + Separador + HoraDe(t);
    Decimal.DigitsLack(Decimal.Pad(t.day, 2), ' ');
    Decimal.DigitsLack(Decimal.Pad(t.month, 2), ' ');
    Decimal.DigitsLack(Decimal.Pad(t.year, 4), ' ');
    Decimal.DigitsLack(Decimal.Pad(t.hour, 2), ' ');
    Decimal.DigitsLack(Decimal.Pad(t.minute, 2), ' ');
    Text.SplitTwo(DataDe(t), Separador, HoraDe(t));
  }

  lemma ReconstruirCarimbo(t: Clock.DateTime)
    requires Clock.Valid(t)
    ensures Reconstruido(DataDe(t), HoraDe(t)) ==
      Decimal.Pad(t.year, 4) + "-" + Decimal.Pad(t.month, 2) + "-" + Decimal.Pad(t.day, 2) + "T"
      + Decimal.Pad(t.hour, 2) + ":" + Decimal.Pad(t.minute, 2) + ":00"
  {
    Decimal.DigitsLack(Decimal.Pad(t.day, 2), '/');
    Decimal.DigitsLack(Decimal.Pad(t.month, 2), '/');
    Decimal.DigitsLack(Decimal.Pad(t.year, 4), '/');
    Text.SplitThree(Decimal.Pad(t.day, 2), "/", Decimal.Pad(t.month, 2), Decimal.Pad(t.year, 4));
    Decimal.DigitsLack(Decimal.Pad(t.hour, 2), ':');
    Decimal.DigitsLack(Decimal.Pad(t.minute, 2), ':');
    Text.SplitTwo(Decimal.Pad(t.hour, 2), ":", Decimal.Pad(t.minute, 2));
  }

  /** The fields of "YYYY-MM-DDTHH:mm:00" sit at fixed positions. */
  lemma CamposIso(yyyy: string, mm: string, dd: string, hh: string, mi: string)
    requires |yyyy| == 4 && |mm| == 2 && |dd| == 2 && |hh| == 2 && |mi| == 2
    ensures var iso := yyyy + "-" + mm + "-" + dd + "T" + hh + ":" + mi + ":00";
      |iso| == 19 && iso[4] == '-' && iso[7] == '-' && iso[10] == 'T' && iso[13] == ':' && iso[16] == ':'
      && iso[0..4] == yyyy && iso[5..7] == mm && iso[8..10] == dd && iso[11..13] == hh && iso[14..16] == mi
      && iso[17..19] == "00"
  {
    var iso := yyyy + "-" + mm + "-" + dd + "T" + hh + ":" + mi + ":00";
    assert iso[0..4] == yyyy;
    assert iso[5] == mm[0] && iso[6] == mm[1];
    assert iso[5..7] == mm;
    assert iso[8] == dd[0] && iso[9] == dd[1];
    assert iso[8..10] == dd;
    assert iso[11] == hh[0] && iso[12] == hh[1];
    assert iso[11..13] == hh;
    assert iso[14] == mi[0] && iso[15] == mi[1];
    assert iso[14..16] == mi;
    assert iso[17..19] == "00";
  }

  /** The seconds field the page writes, "00", reads as 0. */
  lemma SegundosZero()
    ensures Decimal.ParseFixed("00", 2) == Some(0)
  {
    assert Decimal.AllDigits("00");
    assert "00"[..1] == "0" && "0"[..0] == [];
  }

  lemma LerIso(t: Clock.DateTime)
    requires Clock.Valid(t)
    ensures IsoLocal(Decimal.Pad(t.year, 4) + "-" + Decimal.Pad(t.month, 2) + "-" + Decimal.Pad(t.day, 2) + "T"
      + Decimal.Pad(t.hour, 2) + ":" + Decimal.Pad(t.minute, 2) + ":00") == Some(Instante(t, 0))
  {
    Decimal.Pad2Width(t.day);
    Decimal.Pad2Width(t.month);
    Decimal.Pad4Width(t.year);
    Decimal.Pad2Width(t.hour);
    Decimal.Pad2Width(t.minute);
    var yyyy, mm, dd := Decimal.Pad(t.year, 4), Decimal.Pad(t.month, 2), Decimal.Pad(t.day, 2);
    var hh, mi := Decimal.Pad(t.hour, 2), Decimal.Pad(t.minute, 2);
    CamposIso(yyyy, mm, dd, hh, mi);
    Decimal.PadParsesBack(t.year, 4);
    Decimal.PadParsesBack(t.month, 2);
    Decimal.PadParsesBack(t.day, 2);
    Decimal.PadParsesBack(t.hour, 2);
    Decimal.PadParsesBack(t.minute, 2);
    SegundosZero();
  }

  /** What the backend stores is read back as the same moment, at second 0. */
  lemma CarimboLidoDeVolta(t: Clock.DateTime)
    requires Clock.Valid(t)
    ensures var partes := Text.Split(Crud.CarimboAtualizacao(t), Separador);
      |partes| == 2 && IsoLocal(Reconstruido(partes[0], partes[1])) == Some(Instante(t, 0))
  {
    SepararCarimbo(t);
    ReconstruirCarimbo(t);
    LerIso(t);
  }

  /** For every value the backend stores, the panel follows the freshness rule on
      exactly the stored moment. */
  lemma PainelDoCarimbo(t: Clock.DateTime, agora: Agora)
    requires Clock.Valid(t) && 1 <= agora.t.month <= 12
    ensures var c := Crud.CarimboAtualizacao(t);
      VerificarStatusEstoque(Texto(c), agora) == if Fresco(agora, Instante(t, 0)) then EstoqueAtualizado(c) else EstoqueDesatualizado(c)
  {
    CarimboLidoDeVolta(t);
    assert |Crud.CarimboAtualizacao(t)| == 19;
  }

  /** Text without the separator, other than the "never" value, is a parsing
      failure. */
  lemma SemSeparadorFalha(data: string, agora: Agora)
    requires 1 <= agora.t.month <= 12 && data != Crud.NuncaAtualizado && data != Nunca
    requires Text.Find(data, Separador).None?
    ensures VerificarStatusEstoque(Texto(data), agora) == ErroDeConexao
  {
  }
}
