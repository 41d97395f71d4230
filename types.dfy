/**
 * The allowance-request record ("diária") and its reset value.
 * Every text field is an opaque display string; the three financial
 * figures are JavaScript numbers, modelled here as exact reals.
 */
module Types {

  /** Optional value, used for absent stored state and for partial decoders. */
  datatype Option<T> = None | Some(value: T)

  /** Concatenation is associative; used to regroup appended strings and histories. */
  lemma SeqAssoc<T>(x: seq<T>, y: seq<T>, z: seq<T>)
    ensures x + y + z == x + (y + z)
  {
  }

  /** Travel zone; each value is shown by its display string. */
  datatype ZoneType = Urbana | Rural {
    function Display(): (s: string)
      ensures s == "Urbana" || s == "Rural"
      ensures |s| > 0
    {
      match this
      case Urbana => "Urbana"
      case Rural => "Rural"
    }
  }

  /** Reads a display string back as a zone, as the zone selector does. */
  function ZoneFromDisplay(s: string): (r: Option<ZoneType>)
    ensures r.Some? ==> r.value.Display() == s
    ensures r.None? ==> s != "Urbana" && s != "Rural"
  {
    if s == "Urbana" then Some(Urbana)
    else if s == "Rural" then Some(Rural)
    else None
  }

  /** The two zones are distinct, and the display string identifies the zone. */
  lemma ZoneDisplayRoundTrip(z: ZoneType)
    ensures ZoneFromDisplay(z.Display()) == Some(z)
    ensures z == Urbana || z == Rural
    ensures Urbana.Display() != Rural.Display()
  {
  }

  /** Identification of the public servant. */
  datatype Servidor = Servidor(
    nome: string,
    matricula: string,
    cargo: string,
    setor: string,
    cpf: string,
    banco: string,
    agencia: string,
    conta: string)

  /** Trip details; dates and times are display strings, never parsed. */
  datatype Viagem = Viagem(
    origem: string,
    destino: string,
    zona: ZoneType,
    dataSaida: string,
    horaSaida: string,
    dataRetorno: string,
    horaRetorno: string,
    objetivo: string,
    veiculo: string,
    placa: string)

  /** Financial terms; `total` is meant to be derived from the other two. */
  datatype Financeiro = Financeiro(valorUnitario: real, quantidade: real, total: real)

  /** One complete request. */
  datatype DiariaData = DiariaData(
    servidor: Servidor,
    viagem: Viagem,
    financeiro: Financeiro,
    relatorio: string)

  /** The derived-total invariant of the financial group. */
  predicate TotalConsistent(f: Financeiro) {
    f.total == f.valorUnitario * f.quantidade
  }

  const EmptyServidor: Servidor := Servidor("", "", "", "", "", "", "", "")

  /** The value a fresh or cleared form holds. */
  const InitialData: DiariaData := DiariaData(
    EmptyServidor,
    Viagem("", "", Urbana, "", "08:00", "", "18:00", "", "Oficial", ""),
    Financeiro(0.0, 1.0, 0.0),
    "")

  lemma InitialServidorEmpty()
    ensures var s := InitialData.servidor;
      s.nome == "" && s.matricula == "" && s.cargo == "" && s.setor == "" &&
      s.cpf == "" && s.banco == "" && s.agencia == "" && s.conta == ""
  {
  }

  lemma InitialViagemDefaults()
    ensures var v := InitialData.viagem;
      v.zona == Urbana && v.horaSaida == "08:00" && v.horaRetorno == "18:00" &&
      v.veiculo == "Oficial" &&
      v.origem == "" && v.destino == "" && v.dataSaida == "" && v.dataRetorno == "" &&
      v.objetivo == "" && v.placa == ""
  {
  }

  lemma InitialFinanceiroConsistent()
    ensures InitialData.financeiro.valorUnitario == 0.0
    ensures InitialData.financeiro.quantidade == 1.0
    ensures InitialData.financeiro.total == 0.0
    ensures TotalConsistent(InitialData.financeiro)
    ensures InitialData.relatorio == ""
  {
  }
}
