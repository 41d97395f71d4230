/**
 * The data side of the document renderer: the output filename, the rows of
 * the two tables, and the running vertical cursor that places each section.
 * The drawing calls themselves belong to the PDF library and are not modelled;
 * the two quantities the library computes (table heights, wrapped line counts)
 * are inputs.
 */
module Pdf {
  import opened Types

  // ---------------------------------------------------------------------
  // Filename
  // ---------------------------------------------------------------------

  /**
   * The characters a regular-expression `\s` matches: the ECMAScript
   * WhiteSpace code points (tab, vertical tab, form feed, space, no-break
   * space, byte order mark and the other space separators) and the
   * LineTerminator code points (line feed, carriage return, line and
   * paragraph separators).
   */
  predicate IsWhitespace(c: char) {
    c == '\t' || c == '\n' || c == '\U{B}' || c == '\U{C}' || c == '\r' || c == ' ' ||
    c == '\U{A0}' || c == '\U{1680}' || ('\U{2000}' <= c <= '\U{200A}') ||
    c == '\U{2028}' || c == '\U{2029}' || c == '\U{202F}' || c == '\U{205F}' ||
    c == '\U{3000}' || c == '\U{FEFF}'
  }

  predicate NoWhitespace(s: string) {
    forall i :: 0 <= i < |s| ==> !IsWhitespace(s[i])
  }

  predicate AllWhitespace(s: string) {
    forall i :: 0 <= i < |s| ==> IsWhitespace(s[i])
  }

  /** Drops the leading run of whitespace. */
  function DropWhitespace(s: string): (r: string)
    ensures |r| <= |s|
  {
    if s != [] && IsWhitespace(s[0]) then DropWhitespace(s[1..]) else s
  }

  /**
   * What `DropWhitespace` drops is all whitespace, and what it keeps is a
   * suffix that does not start with whitespace.
   */
  lemma {:induction false} DropWhitespaceSuffix(s: string)
    ensures var r := DropWhitespace(s);
      && r == s[|s| - |r|..]
      && AllWhitespace(s[..|s| - |r|])
      && (r == [] || !IsWhitespace(r[0]))
  {
    if s != [] && IsWhitespace(s[0]) {
      DropWhitespaceSuffix(s[1..]);
      var r := DropWhitespace(s);
      var k := |s| - |r|;
      assert s[1..][k - 1..] == s[k..];
      assert AllWhitespace(s[..k]) by {
        forall i | 0 <= i < k ensures IsWhitespace(s[..k][i]) {
          if i > 0 {
            assert s[..k][i] == s[1..][..k - 1][i - 1];
          }
        }
      }
    }
  }

  /**
   * The name part of the filename: every maximal run of whitespace becomes
   * a single underscore, everything else is kept.
   */
  function SanitizeName(s: string): (r: string)
    ensures NoWhitespace(r)
    decreases |s|
  {
    if s == [] then []
    else if IsWhitespace(s[0]) then "_" + SanitizeName(DropWhitespace(s[1..]))
    else [s[0]] + SanitizeName(s[1..])
  }

  /** The date part of the filename: every slash becomes a hyphen. */
  function SanitizeDate(s: string): (r: string)
    ensures |r| == |s|
    ensures forall i :: 0 <= i < |s| ==> r[i] == if s[i] == '/' then '-' else s[i]
  {
    if s == [] then [] else [if s[0] == '/' then '-' else s[0]] + SanitizeDate(s[1..])
  }

  /** The name under which the document is saved. */
  function FileName(nome: string, dataSaida: string): (r: string)
    ensures |r| >= 12 && r[..7] == "Diaria_" && r[|r| - 4..] == ".pdf"
    ensures '/' !in nome ==> '/' !in r
  {
    var name := SanitizeName(nome);
    SanitizeNameChars(nome, '/');
    var date := SanitizeDate(dataSaida);
    var r := "Diaria_" + name + "_" + date + ".pdf";
    assert r[7 + |name| + 1..|r| - 4] == date;
    r
  }

  /** Apart from underscores, the sanitised name only holds characters of the name. */
  lemma {:induction false} SanitizeNameChars(s: string, c: char)
    requires c != '_'
    ensures c in SanitizeName(s) ==> c in s
    decreases |s|
  {
    if s != [] {
      if IsWhitespace(s[0]) {
        var d := DropWhitespace(s[1..]);
        DropWhitespaceSuffix(s[1..]);
        assert c in d ==> c in s by {
          assert d == s[1..][|s[1..]| - |d|..];
        }
        SanitizeNameChars(d, c);
      } else {
        SanitizeNameChars(s[1..], c);
      }
    }
  }

  lemma TailOfAppend(x: string, y: string)
    requires x != []
    ensures (x + y)[0] == x[0] && (x + y)[1..] == x[1..] + y
  {
  }

  lemma {:induction false} DropAllWhitespace(w: string, b: string)
    requires AllWhitespace(w)
    requires b == [] || !IsWhitespace(b[0])
    ensures DropWhitespace(w + b) == b
  {
    if w != [] {
      assert (w + b)[1..] == w[1..] + b;
      DropAllWhitespace(w[1..], b);
    }
  }

  lemma {:induction false} DropWhitespaceAppend(x: string, y: string)
    requires !AllWhitespace(x)
    ensures DropWhitespace(x + y) == DropWhitespace(x) + y
  {
    assert x != [];
    if IsWhitespace(x[0]) {
      assert (x + y)[1..] == x[1..] + y;
      assert !AllWhitespace(x[1..]) by {
        var k :| 0 <= k < |x| && !IsWhitespace(x[k]);
        assert k > 0 && !IsWhitespace(x[1..][k - 1]);
      }
      DropWhitespaceAppend(x[1..], y);
    }
  }

  /**
   * One maximal whitespace run between two parts becomes exactly one
   * underscore: `a` does not end and `b` does not begin with whitespace.
   */
  lemma {:induction false} SanitizeNameRun(a: string, w: string, b: string)
    requires a == [] || !IsWhitespace(a[|a| - 1])
    requires |w| > 0 && AllWhitespace(w)
    requires b == [] || !IsWhitespace(b[0])
    ensures SanitizeName(a + w + b) == SanitizeName(a) + "_" + SanitizeName(b)
    decreases |a|, 1
  {
    if a == [] {
      RunAtStart(a, w, b);
    } else if IsWhitespace(a[0]) {
      RunAfterLeadingRun(a, w, b);
    } else {
      RunAfterKeptChar(a, w, b);
    }
  }

  lemma {:induction false} RunAfterLeadingRun(a: string, w: string, b: string)
    requires a != [] && IsWhitespace(a[0]) && !IsWhitespace(a[|a| - 1])
    requires |w| > 0 && AllWhitespace(w)
    requires b == [] || !IsWhitespace(b[0])
    ensures SanitizeName(a + w + b) == SanitizeName(a) + "_" + SanitizeName(b)
    decreases |a|, 0
  {
    var a' := RunInsidePrefix(a, w + b);
    SanitizeNameRun(a', w, b);
    var x, y := SanitizeName(a'), SanitizeName(b);
    calc {
      SanitizeName(a + w + b);
      { SeqAssoc(a, w, b); }
      SanitizeName(a + (w + b));
      "_" + SanitizeName(a' + (w + b));
      { SeqAssoc(a', w, b); }
      "_" + (x + "_" + y);
      { SeqAssoc("_", x + "_", y); SeqAssoc("_", x, "_"); }
      "_" + x + "_" + y;
    }
  }

  lemma {:induction false} RunAfterKeptChar(a: string, w: string, b: string)
    requires a != [] && !IsWhitespace(a[0]) && !IsWhitespace(a[|a| - 1])
    requires |w| > 0 && AllWhitespace(w)
    requires b == [] || !IsWhitespace(b[0])
    ensures SanitizeName(a + w + b) == SanitizeName(a) + "_" + SanitizeName(b)
    decreases |a|, 0
  {
    var rest := a[1..];
    KeptHead(a, w + b);
    assert rest == [] || rest[|rest| - 1] == a[|a| - 1];
    SanitizeNameRun(rest, w, b);
    var x, y := SanitizeName(rest), SanitizeName(b);
    calc {
      SanitizeName(a + w + b);
      { SeqAssoc(a, w, b); }
      SanitizeName(a + (w + b));
      [a[0]] + SanitizeName(rest + (w + b));
      { SeqAssoc(rest, w, b); }
      [a[0]] + (x + "_" + y);
      { SeqAssoc([a[0]], x + "_", y); SeqAssoc([a[0]], x, "_"); }
      [a[0]] + x + "_" + y;
    }
  }

  lemma RunAtStart(a: string, w: string, b: string)
    requires a == []
    requires |w| > 0 && AllWhitespace(w)
    requires b == [] || !IsWhitespace(b[0])
    ensures SanitizeName(a + w + b) == SanitizeName(a) + "_" + SanitizeName(b)
  {
    assert a + w + b == w + b;
    TailOfAppend(w, b);
    DropAllWhitespace(w[1..], b);
  }

  lemma KeptHead(a: string, t: string)
    requires a != [] && !IsWhitespace(a[0])
    ensures SanitizeName(a) == [a[0]] + SanitizeName(a[1..])
    ensures SanitizeName(a + t) == [a[0]] + SanitizeName(a[1..] + t)
  {
    TailOfAppend(a, t);
  }

  /** A leading run inside `a` is collapsed before `a` ends. */
  lemma RunInsidePrefix(a: string, t: string) returns (a': string)
    requires a != [] && IsWhitespace(a[0]) && !IsWhitespace(a[|a| - 1])
    ensures a' != [] && |a'| < |a| && a'[|a'| - 1] == a[|a| - 1]
    ensures SanitizeName(a) == "_" + SanitizeName(a')
    ensures SanitizeName(a + t) == "_" + SanitizeName(a' + t)
  {
    var rest := a[1..];
    assert rest != [] && !IsWhitespace(rest[|rest| - 1]);
    a' := DropWhitespace(rest);
    DropWhitespaceSuffix(rest);
    DropWhitespaceAppend(rest, t);
    TailOfAppend(a, t);
  }

  /** A name without whitespace is kept as it is. */
  lemma {:induction false} SanitizeNameKeeps(s: string)
    requires NoWhitespace(s)
    ensures SanitizeName(s) == s
  {
    if s != [] {
      SanitizeNameKeeps(s[1..]);
    }
  }

  lemma SanitizeIdempotent(nome: string, date: string)
    ensures SanitizeName(SanitizeName(nome)) == SanitizeName(nome)
    ensures SanitizeDate(SanitizeDate(date)) == SanitizeDate(date)
    ensures '/' !in SanitizeDate(date)
  {
    SanitizeNameKeeps(SanitizeName(nome));
  }

  /** The filename of a two-word name: the words joined by one underscore. */
  lemma FileNameTwoWords(first: string, gap: string, last: string, date: string)
    requires |first| > 0 && |last| > 0 && NoWhitespace(first) && NoWhitespace(last)
    requires |gap| > 0 && AllWhitespace(gap)
    ensures FileName(first + gap + last, date) == "Diaria_" + first + "_" + last + "_" + SanitizeDate(date) + ".pdf"
  {
    SanitizeNameExample(first, gap, last);
  }

  lemma FileNameExample(nome: string, date: string)
    requires nome == "João Silva" && date == "01/05/2024"
    ensures FileName(nome, date) == "Diaria_João_Silva_01-05-2024.pdf"
  {
    assert nome == "João" + " " + "Silva";
    FileNameTwoWords("João", " ", "Silva", date);
    DateExample(date);
    assert FileName(nome, date) == "Diaria_" + "João" + "_" + "Silva" + "_" + "01-05-2024" + ".pdf";
    ExampleLiteral();
  }

  /** The example filename written as one literal; kept apart so the solver joins the pieces in a small context. */
  lemma ExampleLiteral()
    ensures "Diaria_" + "João" + "_" + "Silva" + "_" + "01-05-2024" + ".pdf" == "Diaria_João_Silva_01-05-2024.pdf"
  {
  }

  lemma DateExample(date: string)
    requires date == "01/05/2024"
    ensures SanitizeDate(date) == "01-05-2024"
  {
    var d := SanitizeDate(date);
    assert |d| == 10;
    forall i | 0 <= i < 10 ensures d[i] == "01-05-2024"[i] {}
  }

  lemma SanitizeNameExample(a: string, w: string, b: string)
    requires |a| > 0 && |b| > 0 && NoWhitespace(a) && NoWhitespace(b)
    requires |w| > 0 && AllWhitespace(w)
    ensures SanitizeName(a + w + b) == a + "_" + b
  {
    SanitizeNameRun(a, w, b);
    SanitizeNameKeeps(a);
    SanitizeNameKeeps(b);
  }

  // ---------------------------------------------------------------------
  // Table rows
  // ---------------------------------------------------------------------

  /** The text after `prefix`, when `cell` starts with it. */
  function Unlabel(prefix: string, cell: string): (r: Option<string>)
    ensures r.Some? <==> prefix <= cell
    ensures r.Some? ==> cell == prefix + r.value
  {
    if prefix <= cell then Some(cell[|prefix|..]) else None
  }

  lemma UnlabelLabelled(prefix: string, v: string)
    ensures Unlabel(prefix, prefix + v) == Some(v)
  {
    assert prefix <= prefix + v;
    assert (prefix + v)[|prefix|..] == v;
  }

  function BankingCell(s: Servidor): string {
    "Banco: " + s.banco + " / Ag: " + s.agencia + " / CC: " + s.conta
  }

  /** The borderless key-value grid of the servant section. */
  function ServidorRows(s: Servidor): (rows: seq<seq<string>>)
    ensures |rows| == 3 && forall i :: 0 <= i < 3 ==> |rows[i]| == 2
    ensures rows[2][1] == BankingCell(s)
  {
    [
      ["Nome: " + s.nome, "Matrícula: " + s.matricula],
      ["Cargo: " + s.cargo, "Setor: " + s.setor],
      ["CPF: " + s.cpf, BankingCell(s)]
    ]
  }

  /** Every servant field can be read back from its labelled cell. */
  lemma ServidorRowsReadBack(s: Servidor)
    ensures var rows := ServidorRows(s);
      Unlabel("Nome: ", rows[0][0]) == Some(s.nome) &&
      Unlabel("Matrícula: ", rows[0][1]) == Some(s.matricula) &&
      Unlabel("Cargo: ", rows[1][0]) == Some(s.cargo) &&
      Unlabel("Setor: ", rows[1][1]) == Some(s.setor) &&
      Unlabel("CPF: ", rows[2][0]) == Some(s.cpf) &&
      Unlabel("Banco: ", rows[2][1]) == Some(s.banco + " / Ag: " + s.agencia + " / CC: " + s.conta)
  {
    UnlabelLabelled("Nome: ", s.nome);
    UnlabelLabelled("Matrícula: ", s.matricula);
    UnlabelLabelled("Cargo: ", s.cargo);
    UnlabelLabelled("Setor: ", s.setor);
    UnlabelLabelled("CPF: ", s.cpf);
    assert BankingCell(s) == "Banco: " + (s.banco + " / Ag: " + s.agencia + " / CC: " + s.conta);
    UnlabelLabelled("Banco: ", s.banco + " / Ag: " + s.agencia + " / CC: " + s.conta);
  }

  /** The plate cell: an empty plate is shown as "N/A". */
  function PlacaCell(placa: string): (r: string)
    ensures r != ""
    ensures placa != "" ==> r == placa
    ensures r == "N/A" <==> placa == "" || placa == "N/A"
  {
    if placa == "" then "N/A" else placa
  }

  function DateTimeCell(date: string, time: string): string {
    date + " às " + time
  }

  function DestinoCell(v: Viagem): string {
    v.destino + " (" + v.zona.Display() + ")"
  }

  /** The labels of columns 0 and 2 of the trip table. */
  const ViagemLabels: seq<(string, string)> :=
    [("Origem:", "Destino:"), ("Saída:", "Retorno:"), ("Veículo:", "Placa:")]

  /** The bordered trip table. */
  function ViagemRows(v: Viagem): (rows: seq<seq<string>>)
    ensures |rows| == 3 && forall i :: 0 <= i < 3 ==> |rows[i]| == 4
    ensures forall i :: 0 <= i < 3 ==> rows[i][0] == ViagemLabels[i].0 && rows[i][2] == ViagemLabels[i].1
    ensures rows[0][1] == v.origem && rows[0][3] == DestinoCell(v)
    ensures rows[1][1] == DateTimeCell(v.dataSaida, v.horaSaida)
    ensures rows[1][3] == DateTimeCell(v.dataRetorno, v.horaRetorno)
    ensures rows[2][1] == v.veiculo && rows[2][3] == PlacaCell(v.placa)
  {
    [
      ["Origem:", v.origem, "Destino:", DestinoCell(v)],
      ["Saída:", DateTimeCell(v.dataSaida, v.horaSaida), "Retorno:", DateTimeCell(v.dataRetorno, v.horaRetorno)],
      ["Veículo:", v.veiculo, "Placa:", PlacaCell(v.placa)]
    ]
  }

  /** The label columns do not depend on the trip at all. */
  lemma ViagemLabelsFixed(v: Viagem, w: Viagem)
    ensures forall i :: 0 <= i < 3 ==>
      ViagemRows(v)[i][0] == ViagemRows(w)[i][0] && ViagemRows(v)[i][2] == ViagemRows(w)[i][2]
  {
  }

  /** The zone shown in the destination cell is the one the trip names. */
  lemma DestinoCellZone(v: Viagem)
    ensures var c := DestinoCell(v);
      c[..|v.destino|] == v.destino &&
      ZoneFromDisplay(c[|v.destino| + 2..|c| - 1]) == Some(v.zona)
  {
    var c := DestinoCell(v);
    assert c[|v.destino| + 2..|c| - 1] == v.zona.Display();
  }

  // ---------------------------------------------------------------------
  // Vertical layout
  // ---------------------------------------------------------------------

  const Margin: int := 20
  const LineHeight: int := 5

  /** What the PDF library reports back for one document. */
  datatype Metrics = Metrics(
    servidorTableHeight: nat,  // finalY - startY of the servant table
    viagemTableHeight: nat,    // finalY - startY of the trip table
    objetivoLines: nat,        // wrapped lines of the objective
    relatorioLines: nat)       // wrapped lines of the report

  /** The vertical position of every element the renderer places. */
  datatype Positions = Positions(
    title: int, subtitle: int,
    servidorHeading: int, servidorRule: int, servidorTable: int,
    viagemHeading: int, viagemRule: int, viagemTable: int,
    objetivoHeading: int, objetivoText: int,
    relatorioHeading: int, relatorioText: int,
    financeiroHeading: int, financeiroRule: int, financeiroLine: int,
    signatureLine: int, signatureCaption: int)

  /** Top-to-bottom order of the positions. */
  function Order(p: Positions): seq<int> {
    [p.title, p.subtitle,
     p.servidorHeading, p.servidorRule, p.servidorTable,
     p.viagemHeading, p.viagemRule, p.viagemTable,
     p.objetivoHeading, p.objetivoText,
     p.relatorioHeading, p.relatorioText,
     p.financeiroHeading, p.financeiroRule, p.financeiroLine,
     p.signatureLine, p.signatureCaption]
  }

  predicate StrictlyIncreasing(s: seq<int>) {
    forall i, j :: 0 <= i < j < |s| ==> s[i] < s[j]
  }

  /** Horizontal placement of the two signature rules and their captions. */
  datatype SignatureBlock = SignatureBlock(
    leftFrom: int, leftTo: int, leftCaption: int,
    rightFrom: int, rightTo: int, rightCaption: int)

  /** Everything the renderer derives from a record, short of drawing it. */
  datatype Document = Document(
    servidorTable: seq<seq<string>>,
    viagemTable: seq<seq<string>>,
    positions: Positions,
    signature: SignatureBlock,
    fileName: string)

  /**
   * The closed form of the vertical layout: where each element lands for
   * the given table heights and wrapped line counts. The ensures restate it
   * as the renderer's own steps: each heading, rule, table and line sits a
   * fixed distance below the previous element.
   */
  function Layout(m: Metrics): (p: Positions)
    ensures StrictlyIncreasing(Order(p))
    ensures p.title == 20 && p.subtitle == p.title + 10 && p.servidorHeading == p.subtitle + 15
    ensures p.servidorRule == p.servidorHeading + 5 && p.servidorTable == p.servidorRule + 7
    ensures p.viagemHeading == p.servidorTable + m.servidorTableHeight + 10
    ensures p.viagemRule == p.viagemHeading + 5 && p.viagemTable == p.viagemRule + 7
    ensures p.objetivoHeading == p.viagemTable + m.viagemTableHeight + 10
    ensures p.objetivoText == p.objetivoHeading + 10
    ensures p.relatorioHeading == p.objetivoHeading + 5 + (LineHeight * m.objetivoLines + 10)
    ensures p.relatorioText == p.relatorioHeading + 10
    ensures p.financeiroHeading == p.relatorioHeading + 5 + (LineHeight * m.relatorioLines + 15)
    ensures p.financeiroRule == p.financeiroHeading + 5 && p.financeiroLine == p.financeiroRule + 7
    ensures p.signatureLine == p.financeiroLine + 40 && p.signatureCaption == p.signatureLine + 5
    ensures p.signatureLine == 176 + m.servidorTableHeight + m.viagemTableHeight
                               + LineHeight * (m.objetivoLines + m.relatorioLines)
  {
    var hs := m.servidorTableHeight;
    var hv := hs + m.viagemTableHeight;
    var lo := hv + LineHeight * m.objetivoLines;
    var lr := lo + LineHeight * m.relatorioLines;
    Positions(
      20, 30,
      45, 50, 57,
      67 + hs, 72 + hs, 79 + hs,
      89 + hv, 99 + hv,
      104 + lo, 114 + lo,
      124 + lr, 129 + lr, 136 + lr,
      176 + lr, 181 + lr)
  }

  /** The two signature rules: 70 units each, captions centred, inside the margins. */
  function SignatureRules(): (b: SignatureBlock)
    ensures b.leftTo - b.leftFrom == b.rightTo - b.rightFrom == 70
    ensures 2 * b.leftCaption == b.leftFrom + b.leftTo
    ensures 2 * b.rightCaption == b.rightFrom + b.rightTo
    ensures Margin == b.leftFrom < b.leftTo < b.rightFrom < b.rightTo == 210 - Margin
  {
    SignatureBlock(Margin, Margin + 70, Margin + 35, 120, 190, 155)
  }

  /**
   * Lays out a record: advances the cursor `y` section by section, builds
   * both tables and names the file. The cursor lands exactly where the
   * closed form `Layout` puts each element.
   */
  method GenerateDiariaPdf(data: DiariaData, m: Metrics) returns (doc: Document)
    ensures doc.servidorTable == ServidorRows(data.servidor)
    ensures doc.viagemTable == ViagemRows(data.viagem)
    ensures doc.positions == Layout(m)
    ensures doc.signature == SignatureRules()
    ensures doc.fileName == FileName(data.servidor.nome, data.viagem.dataSaida)
  {
    var y := 20;
    var title := y;
    y := y + 10;
    var subtitle := y;
    y := y + 15;
    var servidorHeading := y;
    y := y + 5;
    var servidorRule := y;
    y := y + 7;
    var servidorTable := y;
    var servidorRows := ServidorRows(data.servidor);
    y := servidorTable + m.servidorTableHeight + 10;

    var viagemHeading := y;
    y := y + 5;
    var viagemRule := y;
    y := y + 7;
    var viagemTable := y;
    var viagemRows := ViagemRows(data.viagem);
    y := viagemTable + m.viagemTableHeight + 10;

    var objetivoHeading := y;
    y := y + 5;
    var objetivoText := y + 5;
    y := y + m.objetivoLines * LineHeight + 10;

    var relatorioHeading := y;
    y := y + 5;
    var relatorioText := y + 5;
    y := y + m.relatorioLines * LineHeight + 15;

    var financeiroHeading := y;
    y := y + 5;
    var financeiroRule := y;
    y := y + 7;
    var financeiroLine := y;

    y := y + 40;
    var signatureLine := y;
    y := y + 5;
    var signatureCaption := y;

    var positions := Positions(
      title, subtitle,
      servidorHeading, servidorRule, servidorTable,
      viagemHeading, viagemRule, viagemTable,
      objetivoHeading, objetivoText,
      relatorioHeading, relatorioText,
      financeiroHeading, financeiroRule, financeiroLine,
      signatureLine, signatureCaption);
    var signature := SignatureRules();
    doc := Document(servidorRows, viagemRows, positions, signature,
                    FileName(data.servidor.nome, data.viagem.dataSaida));
  }
}
