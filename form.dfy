/**
 * The form controller: the working record, the bounded most-recent-first
 * history of generated records, and the handlers that change them. Each
 * handler's new state is given by a pure updater; the class assigns it.
 */
module Form {
  import opened Types
  import Pdf

  /** How many generated records the history keeps. */
  const HistoryLimit: nat := 10

  function Min(a: int, b: int): int {
    if a <= b then a else b
  }

  // ---------------------------------------------------------------------
  // Field-wise updates
  // ---------------------------------------------------------------------

  datatype ServidorField = Nome | Matricula | Cargo | Setor | Cpf | Banco | Agencia | Conta

  function ServidorFieldValue(s: Servidor, f: ServidorField): string {
    match f
    case Nome => s.nome
    case Matricula => s.matricula
    case Cargo => s.cargo
    case Setor => s.setor
    case Cpf => s.cpf
    case Banco => s.banco
    case Agencia => s.agencia
    case Conta => s.conta
  }

  /** Two servants with the same value in every field are the same servant. */
  lemma ServidorExtensional(s: Servidor, t: Servidor)
    requires forall f :: ServidorFieldValue(s, f) == ServidorFieldValue(t, f)
    ensures s == t
  {
    assert ServidorFieldValue(s, Nome) == ServidorFieldValue(t, Nome);
    assert ServidorFieldValue(s, Matricula) == ServidorFieldValue(t, Matricula);
    assert ServidorFieldValue(s, Cargo) == ServidorFieldValue(t, Cargo);
    assert ServidorFieldValue(s, Setor) == ServidorFieldValue(t, Setor);
    assert ServidorFieldValue(s, Cpf) == ServidorFieldValue(t, Cpf);
    assert ServidorFieldValue(s, Banco) == ServidorFieldValue(t, Banco);
    assert ServidorFieldValue(s, Agencia) == ServidorFieldValue(t, Agencia);
    assert ServidorFieldValue(s, Conta) == ServidorFieldValue(t, Conta);
  }

  /** Sets one servant field; every other field keeps its value. */
  function WithServidorField(s: Servidor, f: ServidorField, v: string): (r: Servidor)
    ensures ServidorFieldValue(r, f) == v
    ensures forall g :: g != f ==> ServidorFieldValue(r, g) == ServidorFieldValue(s, g)
  {
    match f
    case Nome => s.(nome := v)
    case Matricula => s.(matricula := v)
    case Cargo => s.(cargo := v)
    case Setor => s.(setor := v)
    case Cpf => s.(cpf := v)
    case Banco => s.(banco := v)
    case Agencia => s.(agencia := v)
    case Conta => s.(conta := v)
  }

  /** The text fields of a trip; the zone is set through its own edit. */
  datatype ViagemField =
    Origem | Destino | DataSaida | HoraSaida | DataRetorno | HoraRetorno | Objetivo | Veiculo | Placa

  /** One trip edit: a text field with a string, or the zone with a zone value. */
  datatype ViagemEdit = SetText(field: ViagemField, text: string) | SetZona(zona: ZoneType)

  function ViagemFieldValue(v: Viagem, f: ViagemField): string {
    match f
    case Origem => v.origem
    case Destino => v.destino
    case DataSaida => v.dataSaida
    case HoraSaida => v.horaSaida
    case DataRetorno => v.dataRetorno
    case HoraRetorno => v.horaRetorno
    case Objetivo => v.objetivo
    case Veiculo => v.veiculo
    case Placa => v.placa
  }

  /** Applies one trip edit; every field it does not name keeps its value. */
  function ApplyViagemEdit(v: Viagem, e: ViagemEdit): (r: Viagem)
    ensures e.SetText? ==> ViagemFieldValue(r, e.field) == e.text && r.zona == v.zona
    ensures e.SetZona? ==> r.zona == e.zona
    ensures forall g :: (e.SetText? ==> g != e.field) ==> ViagemFieldValue(r, g) == ViagemFieldValue(v, g)
  {
    match e
    case SetZona(z) => v.(zona := z)
    case SetText(f, t) =>
      match f
      case Origem => v.(origem := t)
      case Destino => v.(destino := t)
      case DataSaida => v.(dataSaida := t)
      case HoraSaida => v.(horaSaida := t)
      case DataRetorno => v.(dataRetorno := t)
      case HoraRetorno => v.(horaRetorno := t)
      case Objetivo => v.(objetivo := t)
      case Veiculo => v.(veiculo := t)
      case Placa => v.(placa := t)
  }

  datatype FinanceiroField = ValorUnitario | Quantidade | Total

  /**
   * Sets one financial field and then recomputes the total from the unit
   * value and the quantity, so a value written to the total itself is
   * overwritten.
   */
  function WithFinanceiroField(fin: Financeiro, f: FinanceiroField, v: real): (r: Financeiro)
    ensures TotalConsistent(r)
    ensures r.valorUnitario == if f == ValorUnitario then v else fin.valorUnitario
    ensures r.quantidade == if f == Quantidade then v else fin.quantidade
  {
    var n := match f
      case ValorUnitario => fin.(valorUnitario := v)
      case Quantidade => fin.(quantidade := v)
      case Total => fin.(total := v);
    n.(total := n.valorUnitario * n.quantidade)
  }

  /** Setting the unit value and the quantity gives the same record in either order. */
  lemma FinanceiroOrderIrrelevant(fin: Financeiro, u: real, q: real)
    ensures var a := WithFinanceiroField(WithFinanceiroField(fin, ValorUnitario, u), Quantidade, q);
            var b := WithFinanceiroField(WithFinanceiroField(fin, Quantidade, q), ValorUnitario, u);
            a == b && a.total == u * q
  {
  }

  /** The total is derived: writing it to a consistent record changes nothing. */
  lemma FinanceiroTotalDerived(fin: Financeiro, v: real)
    requires TotalConsistent(fin)
    ensures WithFinanceiroField(fin, Total, v) == fin
  {
  }

  // ---------------------------------------------------------------------
  // Report improvement
  // ---------------------------------------------------------------------

  /** The improvement may only run when both the notes and the objective are filled. */
  predicate CanImprove(d: DiariaData) {
    d.relatorio != "" && d.viagem.objetivo != ""
  }

  /** The record after an improvement whose collaborator answered `improved`. */
  function WithImprovedReport(d: DiariaData, improved: string): (r: DiariaData)
    ensures r.servidor == d.servidor && r.viagem == d.viagem && r.financeiro == d.financeiro
    ensures r.relatorio == if CanImprove(d) then improved else d.relatorio
    ensures !CanImprove(d) ==> r == d
  {
    if CanImprove(d) then d.(relatorio := improved) else d
  }

  // ---------------------------------------------------------------------
  // History
  // ---------------------------------------------------------------------

  /** Only a record with a servant name and a departure date enters the history. */
  predicate ShouldRecord(d: DiariaData) {
    d.servidor.nome != "" && d.viagem.dataSaida != ""
  }

  lemma InitialDataNotRecorded()
    ensures !ShouldRecord(InitialData)
  {
  }

  /** Puts `d` in front and keeps the first `HistoryLimit` entries. */
  function PushHistory(h: seq<DiariaData>, d: DiariaData): (r: seq<DiariaData>)
    ensures |r| == Min(|h| + 1, HistoryLimit)
    ensures r[0] == d
    ensures forall i :: 0 <= i < |r| - 1 ==> r[i + 1] == h[i]
  {
    ([d] + h)[..Min(|h| + 1, HistoryLimit)]
  }

  /** The history after one generated document. */
  function Recorded(h: seq<DiariaData>, d: DiariaData): (r: seq<DiariaData>)
    ensures !ShouldRecord(d) ==> r == h
    ensures ShouldRecord(d) ==> r == PushHistory(h, d)
    ensures |h| <= HistoryLimit ==> |r| <= HistoryLimit
  {
    if ShouldRecord(d) then PushHistory(h, d) else h
  }

  /** The history after generating documents for `ds`, oldest first. */
  function RecordAll(h: seq<DiariaData>, ds: seq<DiariaData>): seq<DiariaData>
    decreases |ds|
  {
    if ds == [] then h else RecordAll(Recorded(h, ds[0]), ds[1..])
  }

  function Reversed(s: seq<DiariaData>): (r: seq<DiariaData>)
    ensures |r| == |s|
  {
    if s == [] then [] else Reversed(s[1..]) + [s[0]]
  }

  /** The first `HistoryLimit` entries of `s`. */
  function Window(s: seq<DiariaData>): seq<DiariaData> {
    s[..Min(|s|, HistoryLimit)]
  }

  /** Truncating before or after prepending gives the same window. */
  lemma WindowPrepend(a: seq<DiariaData>, b: seq<DiariaData>)
    ensures Window(a + Window(b)) == Window(a + b)
  {
    var l := Window(a + Window(b));
    var r := Window(a + b);
    assert |l| == |r|;
    forall i | 0 <= i < |l| ensures l[i] == r[i] {
      if i >= |a| {
        assert (a + Window(b))[i] == Window(b)[i - |a|];
      }
    }
  }

  /** Never more than `HistoryLimit` records, whatever is generated. */
  lemma {:induction false} RecordAllBounded(h: seq<DiariaData>, ds: seq<DiariaData>)
    requires |h| <= HistoryLimit
    ensures |RecordAll(h, ds)| <= HistoryLimit
    decreases |ds|
  {
    if ds != [] {
      RecordAllBounded(Recorded(h, ds[0]), ds[1..]);
    }
  }

  /** Records that fail the guard leave the history alone. */
  lemma {:induction false} RecordAllSkips(h: seq<DiariaData>, ds: seq<DiariaData>)
    requires forall i :: 0 <= i < |ds| ==> !ShouldRecord(ds[i])
    ensures RecordAll(h, ds) == h
    decreases |ds|
  {
    if ds != [] {
      RecordAllSkips(h, ds[1..]);
    }
  }

  /** The records of `ds` that pass the history guard, in order. */
  function Guarded(ds: seq<DiariaData>): (r: seq<DiariaData>)
    ensures |r| <= |ds|
    ensures forall i :: 0 <= i < |r| ==> ShouldRecord(r[i]) && r[i] in ds
    ensures forall i :: 0 <= i < |ds| && ShouldRecord(ds[i]) ==> ds[i] in r
  {
    if ds == [] then []
    else if ShouldRecord(ds[0]) then [ds[0]] + Guarded(ds[1..])
    else Guarded(ds[1..])
  }

  /** When every record passes the guard, none is filtered out. */
  lemma {:induction false} GuardedAll(ds: seq<DiariaData>)
    requires forall i :: 0 <= i < |ds| ==> ShouldRecord(ds[i])
    ensures Guarded(ds) == ds
    decreases |ds|
  {
    if ds != [] {
      GuardedAll(ds[1..]);
    }
  }

  /**
   * After generating documents for `ds`, oldest first, the history holds
   * the records that passed the guard, newest first, then the old history,
   * cut to the limit.
   */
  lemma RecordAllWindow(h: seq<DiariaData>, ds: seq<DiariaData>)
    requires |h| <= HistoryLimit
    ensures RecordAll(h, ds) == Window(Reversed(Guarded(ds)) + h)
    ensures |RecordAll(h, ds)| == Min(|Guarded(ds)| + |h|, HistoryLimit)
    ensures Guarded(ds) != [] ==> RecordAll(h, ds)[0] == Guarded(ds)[|Guarded(ds)| - 1]
  {
    RecordAllIsWindow(h, ds);
    var g := Guarded(ds);
    if g != [] {
      ReversedFirst(g);
      assert (Reversed(g) + h)[0] == Reversed(g)[0];
    }
  }

  lemma {:induction false} RecordAllIsWindow(h: seq<DiariaData>, ds: seq<DiariaData>)
    requires |h| <= HistoryLimit
    ensures RecordAll(h, ds) == Window(Reversed(Guarded(ds)) + h)
    decreases |ds|
  {
    if ds == [] {
      assert Reversed(Guarded(ds)) + h == h;
    } else if !ShouldRecord(ds[0]) {
      RecordAllIsWindow(h, ds[1..]);
    } else {
      PushIsWindow(h, ds[0]);
      RecordAllIsWindow(PushHistory(h, ds[0]), ds[1..]);
      WindowPrepend(Reversed(Guarded(ds[1..])), [ds[0]] + h);
      GuardedCons(ds, h);
    }
  }

  /** A record that passes the guard goes behind the later ones that pass. */
  lemma GuardedCons(ds: seq<DiariaData>, h: seq<DiariaData>)
    requires ds != [] && ShouldRecord(ds[0])
    ensures Reversed(Guarded(ds[1..])) + ([ds[0]] + h) == Reversed(Guarded(ds)) + h
  {
    var g := Guarded(ds);
    assert g[0] == ds[0] && g[1..] == Guarded(ds[1..]);
    ReversedCons(g, h);
  }

  /** The special case where every record passes: all of them are recorded. */
  lemma AllRecorded(h: seq<DiariaData>, ds: seq<DiariaData>)
    requires |h| <= HistoryLimit
    requires forall i :: 0 <= i < |ds| ==> ShouldRecord(ds[i])
    ensures RecordAll(h, ds) == Window(Reversed(ds) + h)
    ensures |RecordAll(h, ds)| == Min(|ds| + |h|, HistoryLimit)
  {
    GuardedAll(ds);
    RecordAllWindow(h, ds);
  }

  lemma PushIsWindow(h: seq<DiariaData>, d: DiariaData)
    ensures PushHistory(h, d) == Window([d] + h)
  {
  }

  lemma ReversedCons(ds: seq<DiariaData>, h: seq<DiariaData>)
    requires ds != []
    ensures Reversed(ds[1..]) + ([ds[0]] + h) == Reversed(ds) + h
  {
    var r := Reversed(ds[1..]);
    assert Reversed(ds) == r + [ds[0]];
    SeqAssoc(r, [ds[0]], h);
  }

  lemma {:induction false} ReversedFirst(s: seq<DiariaData>)
    requires s != []
    ensures Reversed(s)[0] == s[|s| - 1]
    decreases |s|
  {
    if |s| > 1 {
      ReversedFirst(s[1..]);
    }
  }

  // ---------------------------------------------------------------------
  // The form
  // ---------------------------------------------------------------------

  /** Every stored total agrees with its factors. */
  predicate AllTotalsConsistent(d: DiariaData, h: seq<DiariaData>) {
    TotalConsistent(d.financeiro) &&
    forall i :: 0 <= i < |h| ==> TotalConsistent(h[i].financeiro)
  }

  /** The form's two state cells. */
  class DiariaForm {
    var data: DiariaData
    var history: seq<DiariaData>

    /** The invariant the handlers keep once it holds. */
    ghost predicate Valid()
      reads this
    {
      |history| <= HistoryLimit && AllTotalsConsistent(data, history)
    }

    /** Starts from what was stored, or from the defaults when nothing was. */
    constructor (savedData: Option<DiariaData>, savedHistory: Option<seq<DiariaData>>)
      ensures data == if savedData.Some? then savedData.value else InitialData
      ensures history == if savedHistory.Some? then savedHistory.value else []
      ensures savedData.None? && savedHistory.None? ==> Valid()
    {
      data := if savedData.Some? then savedData.value else InitialData;
      history := if savedHistory.Some? then savedHistory.value else [];
    }

    method UpdateServidor(f: ServidorField, v: string)
      modifies this
      ensures data == old(data).(servidor := WithServidorField(old(data).servidor, f, v))
      ensures history == old(history)
      ensures old(Valid()) ==> Valid()
    {
      data := data.(servidor := WithServidorField(data.servidor, f, v));
    }

    method UpdateViagem(e: ViagemEdit)
      modifies this
      ensures data == old(data).(viagem := ApplyViagemEdit(old(data).viagem, e))
      ensures history == old(history)
      ensures old(Valid()) ==> Valid()
    {
      data := data.(viagem := ApplyViagemEdit(data.viagem, e));
    }

    method UpdateFinanceiro(f: FinanceiroField, v: real)
      modifies this
      ensures data == old(data).(financeiro := WithFinanceiroField(old(data).financeiro, f, v))
      ensures TotalConsistent(data.financeiro)
      ensures history == old(history)
      ensures old(Valid()) ==> Valid()
    {
      data := data.(financeiro := WithFinanceiroField(data.financeiro, f, v));
    }

    /** Typing into the report box. */
    method UpdateRelatorio(text: string)
      modifies this
      ensures data == old(data).(relatorio := text)
      ensures history == old(history)
      ensures old(Valid()) ==> Valid()
    {
      data := data.(relatorio := text);
    }

    /**
     * Asks for an improved report; `improved` is the collaborator's answer.
     * Without notes or objective the user is alerted and nothing changes.
     */
    method HandleImproveReport(improved: string) returns (alerted: bool)
      modifies this
      ensures alerted <==> !CanImprove(old(data))
      ensures data == WithImprovedReport(old(data), improved)
      ensures history == old(history)
      ensures old(Valid()) ==> Valid()
    {
      if !CanImprove(data) {
        alerted := true;
        return;
      }
      alerted := false;
      data := data.(relatorio := improved);
    }

    /** Generates the document, then records the data when it is named and dated. */
    method HandleDownloadPdf(m: Pdf.Metrics) returns (doc: Pdf.Document)
      modifies this
      ensures doc.servidorTable == Pdf.ServidorRows(data.servidor)
      ensures doc.viagemTable == Pdf.ViagemRows(data.viagem)
      ensures doc.positions == Pdf.Layout(m)
      ensures doc.signature == Pdf.SignatureRules()
      ensures doc.fileName == Pdf.FileName(data.servidor.nome, data.viagem.dataSaida)
      ensures data == old(data)
      ensures history == Recorded(old(history), old(data))
      ensures |history| <= HistoryLimit || history == old(history)
      ensures old(Valid()) ==> Valid()
    {
      doc := Pdf.GenerateDiariaPdf(data, m);
      if ShouldRecord(data) {
        history := PushHistory(history, data);
      }
    }

    /** Resets every field when the user confirms. */
    method HandleClear(confirmed: bool)
      modifies this
      ensures data == if confirmed then InitialData else old(data)
      ensures history == old(history)
      ensures old(Valid()) ==> Valid()
    {
      if confirmed {
        data := InitialData;
      }
    }

    method LoadFromHistory(item: DiariaData)
      modifies this
      ensures data == item
      ensures history == old(history)
      ensures old(Valid()) && item in old(history) ==> Valid()
    {
      data := item;
    }
  }
}
