/**
  `EmailService`: the HTML bodies of the individual and of the batch e-mail,
  the builder loop of the batch body and the two send operations. The mail
  transport is a log of the messages handed to it; the two number formats
  of `EmailService` (`%.2f` in the individual body, `DecimalFormat("#.##")`
  in the batch body) are functions given to the service and not interpreted
  further.

  The fixed markup of both bodies is gathered in one `Marcacao` value. The
  bodies and everything proved about their structure are stated for any
  markup that is well formed; `MarcacaoFonte` is the markup the Java
  service writes, piece by piece, and `MarcacaoFonteBemFormada` shows it qualifies.
 */
module Email {
  import opened Domain
  import opened TagCount
  import opened Markup

  /**
    The fixed text of both bodies: what the batch body holds before and after
    its data rows and around each data cell, and what the individual body
    holds before its first row, before each row and after its last row.
   */
  datatype Marcacao = Marcacao(
    cabecalhoLote: string,
    abreCelulaLote: string,
    fechaCelulaLote: string,
    rodapeLote: string,
    aberturaSimulacao: string,
    recuo: string,
    fimSimulacao: string)

  // ----- the batch body -----

  /** The data row of one result: its id and its three amounts, each formatted, in four cells. */
  function LinhaLote(m: Marcacao, formato: real -> string, s: ResponseSimulacao): string
  {
    Linha4(m.abreCelulaLote, m.fechaCelulaLote, s.id, formato(s.valorTotal), formato(s.valorParcelaMensal), formato(s.totalJuros))
  }

  /** The data rows of a list of results, one after the other in list order. */
  function LinhasLote(m: Marcacao, formato: real -> string, resultados: seq<ResponseSimulacao>): string
  {
    if resultados == [] then "" else LinhaLote(m, formato, resultados[0]) + LinhasLote(m, formato, resultados[1..])
  }

  /** The body `montarCorpoEmailLote` builds: it opens with the header and closes with the footer, the rows in between. */
  function CorpoEmailLote(m: Marcacao, formato: real -> string, resultados: seq<ResponseSimulacao>): (corpo: string)
    ensures |m.cabecalhoLote| + |m.rodapeLote| <= |corpo|
    ensures corpo[..|m.cabecalhoLote|] == m.cabecalhoLote
    ensures corpo[|corpo| - |m.rodapeLote|..] == m.rodapeLote
  {
    m.cabecalhoLote + LinhasLote(m, formato, resultados) + m.rodapeLote
  }

  /** The rows of two lists one after the other are the rows of the joined list. */
  lemma {:induction false} LinhasConcat(m: Marcacao, formato: real -> string, xs: seq<ResponseSimulacao>, ys: seq<ResponseSimulacao>)
    ensures LinhasLote(m, formato, xs + ys) == LinhasLote(m, formato, xs) + LinhasLote(m, formato, ys)
  {
    if xs == [] {
      assert xs + ys == ys;
    } else {
      assert (xs + ys)[1..] == xs[1..] + ys;
      LinhasConcat(m, formato, xs[1..], ys);
      Assoc3(LinhaLote(m, formato, xs[0]), LinhasLote(m, formato, xs[1..]), LinhasLote(m, formato, ys));
    }
  }

  /** The rows of a one-element list are that element's row. */
  lemma LinhasUnitaria(m: Marcacao, formato: real -> string, x: ResponseSimulacao)
    ensures LinhasLote(m, formato, [x]) == LinhaLote(m, formato, x)
  {
    assert [x][1..] == [];
    assert LinhaLote(m, formato, x) + "" == LinhaLote(m, formato, x);
  }

  /** An empty list gives the header followed directly by the footer. */
  lemma CorpoLoteVazio(m: Marcacao, formato: real -> string)
    ensures CorpoEmailLote(m, formato, []) == m.cabecalhoLote + m.rodapeLote
  {
    assert m.cabecalhoLote + "" == m.cabecalhoLote;
  }

  /**
    The builder only appends: the body for `xs + [x]` keeps the body for `xs`
    up to its footer, puts the row of `x` there and ends with the footer.
   */
  lemma CorpoLoteAppend(m: Marcacao, formato: real -> string, xs: seq<ResponseSimulacao>, x: ResponseSimulacao)
    ensures var antes := CorpoEmailLote(m, formato, xs);
            var depois := CorpoEmailLote(m, formato, xs + [x]);
            && |antes| >= |m.rodapeLote|
            && depois == antes[..|antes| - |m.rodapeLote|] + LinhaLote(m, formato, x) + m.rodapeLote
  {
    LinhasConcat(m, formato, xs, [x]);
    LinhasUnitaria(m, formato, x);
    InsertBeforeSuffix(m.cabecalhoLote, LinhasLote(m, formato, xs), LinhaLote(m, formato, x), m.rodapeLote);
  }

  /** Text inserted before a suffix: `h + (m + b) + c` is `h + m + c` with its suffix `c` cut off, then `b`, then `c`. */
  lemma InsertBeforeSuffix(h: string, m: string, b: string, c: string)
    ensures |h + m + c| >= |c|
    ensures h + (m + b) + c == (h + m + c)[..|h + m + c| - |c|] + b + c
  {
    assert (h + m + c)[..|h + m + c| - |c|] == h + m;
    assert h + (m + b) == h + m + b;
  }

  /** Where the row of the `i`-th result starts in the body: after the header and the rows before it. */
  function InicioLinha(m: Marcacao, formato: real -> string, resultados: seq<ResponseSimulacao>, i: nat): nat
    requires i <= |resultados|
  {
    |m.cabecalhoLote| + |LinhasLote(m, formato, resultados[..i])|
  }

  /** The rows of a list split around its `i`-th element: the rows before it, which end where its row starts, its row, the rows after it. */
  lemma {:induction false} LinhasEmTorno(m: Marcacao, formato: real -> string, resultados: seq<ResponseSimulacao>, i: nat)
    returns (antes: string, depois: string)
    requires i < |resultados|
    ensures LinhasLote(m, formato, resultados) == antes + (LinhaLote(m, formato, resultados[i]) + depois)
    ensures |m.cabecalhoLote| + |antes| == InicioLinha(m, formato, resultados, i)
  {
    var xs, ys := resultados[..i], resultados[i + 1..];
    assert resultados == xs + ([resultados[i]] + ys);
    LinhasConcat(m, formato, xs, [resultados[i]] + ys);
    assert ([resultados[i]] + ys)[1..] == ys;
    antes, depois := LinhasLote(m, formato, xs), LinhasLote(m, formato, ys);
  }

  /** The rows appear one per result, in list order: the `i`-th result's row sits right after the rows of the results before it. */
  lemma {:induction false} CorpoLoteLinhaEm(m: Marcacao, formato: real -> string, resultados: seq<ResponseSimulacao>, i: nat)
    requires i < |resultados|
    ensures var corpo := CorpoEmailLote(m, formato, resultados);
            var inicio := InicioLinha(m, formato, resultados, i);
            var linha := LinhaLote(m, formato, resultados[i]);
            && inicio + |linha| <= |corpo|
            && corpo[inicio..inicio + |linha|] == linha
  {
    var antes, depois := LinhasEmTorno(m, formato, resultados, i);
    SliceOfMiddle(CorpoEmailLote(m, formato, resultados), InicioLinha(m, formato, resultados, i),
                  m.cabecalhoLote, LinhasLote(m, formato, resultados), m.rodapeLote, antes, LinhaLote(m, formato, resultados[i]), depois);
  }

  /** In `corpo`, which is `h + meio + f` with `meio` being `m + (b + t)`, the part `b` is found right after `h` and `m`. */
  lemma SliceOfMiddle(corpo: string, inicio: int, h: string, meio: string, f: string, m: string, b: string, t: string)
    requires corpo == h + meio + f && meio == m + (b + t) && inicio == |h| + |m|
    ensures 0 <= inicio && inicio + |b| <= |corpo|
    ensures corpo[inicio..inicio + |b|] == b
  {
    assert corpo == (h + m) + (b + (t + f));
    assert corpo[|h + m|..] == b + (t + f);
  }

  /** The builder's starting point: the header and the rows of no result. */
  lemma MontagemInicial(m: Marcacao, formato: real -> string, resultados: seq<ResponseSimulacao>)
    ensures m.cabecalhoLote == m.cabecalhoLote + LinhasLote(m, formato, resultados[..0])
  {
    assert resultados[..0] == [];
    assert m.cabecalhoLote + "" == m.cabecalhoLote;
  }

  /** One step of the builder: appending the `i`-th row extends the rows of the first `i` results to the first `i + 1`. */
  lemma MontagemPasso(m: Marcacao, formato: real -> string, resultados: seq<ResponseSimulacao>, i: nat)
    requires i < |resultados|
    ensures m.cabecalhoLote + LinhasLote(m, formato, resultados[..i]) + LinhaLote(m, formato, resultados[i])
            == m.cabecalhoLote + LinhasLote(m, formato, resultados[..i + 1])
  {
    var xs, x := resultados[..i], resultados[i];
    assert resultados[..i + 1] == xs + [x];
    LinhasConcat(m, formato, xs, [x]);
    LinhasUnitaria(m, formato, x);
    Assoc3(m.cabecalhoLote, LinhasLote(m, formato, xs), LinhaLote(m, formato, x));
  }

  /** Joining three texts does not depend on the grouping. */
  lemma Assoc3(a: string, b: string, c: string)
    ensures a + b + c == a + (b + c)
  {
  }

  // ----- the individual body -----

  /** The four labels of both tables, in order. */
  const RotuloId := "ID"
  const RotuloValorTotal := "Valor Total"
  const RotuloParcela := "Parcela Mensal"
  const RotuloJuros := "Total Juros"

  lemma RotulosSemMarcacao()
    ensures '<' !in RotuloId && '<' !in RotuloValorTotal && '<' !in RotuloParcela && '<' !in RotuloJuros
  {
  }

  /** The labelled fields of the individual body, in table order: each label with the value it shows. */
  function Campos(formato: real -> string, sim: Simulacao): seq<(string, string)>
  {
    [(RotuloId, sim.id), (RotuloValorTotal, formato(sim.valorTotal)),
     (RotuloParcela, formato(sim.valorParcelaMensal)), (RotuloJuros, formato(sim.totalJuros))]
  }

  /** One labelled row per field, in order, each on its own indented line. */
  function LinhasRotuladas(recuo: string, campos: seq<(string, string)>): string
  {
    if campos == [] then "" else recuo + LinhaRotulada(campos[0].0, campos[0].1) + LinhasRotuladas(recuo, campos[1..])
  }

  /**
    The body `montarCorpoEmail` formats: the opening text, then one labelled
    row per field of `Campos` (ID, Valor Total, Parcela Mensal, Total Juros,
    holding the id and the three amounts in the fixed format), then the
    closing text. It starts with the opening and the ID row and ends with the
    closing.
   */
  function CorpoEmail(m: Marcacao, formato: real -> string, sim: Simulacao): (corpo: string)
    ensures var inicio := m.aberturaSimulacao + m.recuo + LinhaRotulada(RotuloId, sim.id);
            |inicio| + |m.fimSimulacao| <= |corpo| && corpo[..|inicio|] == inicio
    ensures corpo[|corpo| - |m.fimSimulacao|..] == m.fimSimulacao
  {
    m.aberturaSimulacao + LinhasRotuladas(m.recuo, Campos(formato, sim)) + m.fimSimulacao
  }

  // ----- counting the rows of both bodies -----

  /**
    Markup whose fixed text cannot disturb the row count: the batch header
    holds the one heading row and ends with a tag, the cell tags and the
    footer hold no row, the individual body's opening ends with a tag and holds
    no row, the indentation holds no markup and the closing text no row.
   */
  predicate BemFormada(m: Marcacao)
  {
    && CountRowTags(m.cabecalhoLote) == 1 && Fecha(m.cabecalhoLote)
    && SemLinha(m.abreCelulaLote) && SemLinha(m.fechaCelulaLote)
    && CountRowTags(m.rodapeLote) == 0 && Abre(m.rodapeLote)
    && CountRowTags(m.aberturaSimulacao) == 0 && Fecha(m.aberturaSimulacao)
    && '<' !in m.recuo
    && CountRowTags(m.fimSimulacao) == 0
  }

  /** The id and the formatted amounts of a result hold no markup. */
  predicate SemMarcacao(formato: real -> string, s: ResponseSimulacao)
  {
    && '<' !in s.id
    && '<' !in formato(s.valorTotal)
    && '<' !in formato(s.valorParcelaMensal)
    && '<' !in formato(s.totalJuros)
  }

  /** A row whose values hold no markup holds exactly one `<tr>`. */
  lemma LinhaHasOneRowTag(m: Marcacao, formato: real -> string, s: ResponseSimulacao)
    requires BemFormada(m) && SemMarcacao(formato, s)
    ensures var l := LinhaLote(m, formato, s); CountRowTags(l) == 1 && Abre(l) && Fecha(l)
  {
    Linha4TemUmaLinha(m.abreCelulaLote, m.fechaCelulaLote, s.id, formato(s.valorTotal), formato(s.valorParcelaMensal), formato(s.totalJuros));
  }

  lemma {:induction false} LinhasCountRows(m: Marcacao, formato: real -> string, resultados: seq<ResponseSimulacao>)
    requires BemFormada(m)
    requires forall i | 0 <= i < |resultados| :: SemMarcacao(formato, resultados[i])
    ensures var l := LinhasLote(m, formato, resultados);
            CountRowTags(l) == |resultados| && (l == [] || (Abre(l) && Fecha(l)))
  {
    if resultados != [] {
      LinhaHasOneRowTag(m, formato, resultados[0]);
      LinhasCountRows(m, formato, resultados[1..]);
      CountAcrossSeam(LinhaLote(m, formato, resultados[0]), LinhasLote(m, formato, resultados[1..]));
    }
  }

  /**
    When no id and no formatted amount holds markup, the batch body holds
    exactly one `<tr>` per result plus the one of the heading row.
   */
  lemma CorpoLoteCountsRows(m: Marcacao, formato: real -> string, resultados: seq<ResponseSimulacao>)
    requires BemFormada(m)
    requires forall i | 0 <= i < |resultados| :: SemMarcacao(formato, resultados[i])
    ensures CountRowTags(CorpoEmailLote(m, formato, resultados)) == |resultados| + 1
  {
    LinhasCountRows(m, formato, resultados);
    var linhas := LinhasLote(m, formato, resultados);
    CountAcrossSeam(m.cabecalhoLote, linhas);
    CountAcrossSeam(m.cabecalhoLote + linhas, m.rodapeLote);
  }

  /** Labelled rows whose labels and values hold no markup, after an indentation without markup: one `<tr>` per field. */
  lemma {:induction false} LinhasRotuladasCountRows(recuo: string, campos: seq<(string, string)>)
    requires '<' !in recuo
    requires forall i | 0 <= i < |campos| :: '<' !in campos[i].0 && '<' !in campos[i].1
    ensures var l := LinhasRotuladas(recuo, campos);
            CountRowTags(l) == |campos| && (campos == [] ==> l == "") && (campos != [] ==> Fecha(l))
  {
    if campos != [] {
      var linha := LinhaRotulada(campos[0].0, campos[0].1);
      LinhaRotuladaTemUmaLinha(campos[0].0, campos[0].1);
      NoOpeningBracket(recuo);
      CountAcrossSeam(recuo, linha);
      LinhasRotuladasCountRows(recuo, campos[1..]);
      CountAcrossSeam(recuo + linha, LinhasRotuladas(recuo, campos[1..]));
      if campos[1..] == [] {
        assert recuo + linha + "" == recuo + linha;
      }
    }
  }

  /** When the id and the formatted amounts hold no markup, the individual body holds exactly its four labelled rows. */
  lemma CorpoEmailCountsRows(m: Marcacao, formato: real -> string, sim: Simulacao)
    requires BemFormada(m)
    requires '<' !in sim.id && '<' !in formato(sim.valorTotal)
    requires '<' !in formato(sim.valorParcelaMensal) && '<' !in formato(sim.totalJuros)
    ensures CountRowTags(CorpoEmail(m, formato, sim)) == 4
  {
    var campos := Campos(formato, sim);
    RotulosSemMarcacao();
    LinhasRotuladasCountRows(m.recuo, campos);
    var linhas := LinhasRotuladas(m.recuo, campos);
    CountAcrossSeam(m.aberturaSimulacao, linhas);
    CountAcrossSeam(m.aberturaSimulacao + linhas, m.fimSimulacao);
  }

  // ----- the markup EmailService writes -----

  /** The style of every heading and data cell of the batch table. */
  const EstiloCelula := "border: 1px solid #ddd; padding: 8px;"

  /** The style of both tables. */
  const EstiloTabela := "border-collapse: collapse; width: 100%;"

  const AbreTdEstilo := AbreComEstilo("td", EstiloCelula)
  const AbreThEstilo := AbreComEstilo("th", EstiloCelula)

  const AbreTabela := AbreComEstilo("table", EstiloTabela)
  const FechaTabela := FechaTag("table")
  const AbreThead := AbreTag("thead")
  const FechaThead := FechaTag("thead")
  const AbreTbody := AbreTag("tbody")
  const FechaTbody := FechaTag("tbody")

  const Atenciosamente := Elemento("p", "Atenciosamente,")
  const Assinatura := Elemento("p", "Equipe de Simulação")

  const TituloLote := Elemento("h1", "Resultado das Simulações")
  /**
    The introduction sentence, which the Java service appends as one string.
    It is written here in two halves because the verifier cannot see, in one
    literal this long, that it holds no `<`; the two halves it can.
   */
  const TextoIntroducao := "Segue abaixo o detalhamento" + " das simulações realizadas:"
  const IntroducaoLote := Elemento("p", TextoIntroducao)

  /** The row of column headings. */
  const ColunasLote := Linha4(AbreThEstilo, FechaTh, RotuloId, RotuloValorTotal, RotuloParcela, RotuloJuros)

  /** Title, introduction and the table's opening tag. */
  const AberturaLote := TituloLote + IntroducaoLote + AbreTabela

  /** The table's heading section. */
  const CabecalhoTabela := AbreThead + ColunasLote + FechaThead

  /** Everything the batch body holds before the first data row. */
  const CabecalhoLote := AberturaLote + CabecalhoTabela + AbreTbody

  /** Everything the batch body holds after the last data row. */
  const RodapeLote := FechaTbody + FechaTabela + Atenciosamente + Assinatura

  const TituloSimulacao := Elemento("h1", "Resultado da Simulação")
  const AbreTabelaSimulacao := AbreComBorda("table", EstiloTabela)

  /** A line break of the text block. */
  const Quebra := "\n"

  /** The heading and the table's opening tag, each on its own line. */
  const AberturaSimulacao := TituloSimulacao + Quebra + AbreTabelaSimulacao

  /** The line break and the indentation that precede each row of the text block. */
  const Recuo := Quebra + "    "

  /** Everything after the last row: the table's end and the two closing paragraphs, one per line. */
  const FimSimulacao := Quebra + FechaTabela + Quebra + Atenciosamente + Quebra + Assinatura + Quebra

  /** The markup of `montarCorpoEmail` and `montarCorpoEmailLote`. */
  const MarcacaoFonte := Marcacao(CabecalhoLote, AbreTdEstilo, FechaTd, RodapeLote, AberturaSimulacao, Recuo, FimSimulacao)

  lemma EstiloCelulaSemMarcacao()
    ensures '<' !in EstiloCelula
  {
  }

  lemma EstiloTabelaSemMarcacao()
    ensures '<' !in EstiloTabela
  {
  }

  lemma AbreTdEstiloSemLinha()
    ensures SemLinha(AbreTdEstilo)
  {
    EstiloCelulaSemMarcacao();
    AbreComEstiloSemLinha("td", EstiloCelula);
  }

  lemma AbreThEstiloSemLinha()
    ensures SemLinha(AbreThEstilo)
  {
    EstiloCelulaSemMarcacao();
    AbreComEstiloSemLinha("th", EstiloCelula);
  }

  lemma AbreTabelaSemLinha()
    ensures SemLinha(AbreTabela)
  {
    EstiloTabelaSemMarcacao();
    AbreComEstiloSemLinha("table", EstiloTabela);
  }

  lemma FechaTabelaSemLinha()
    ensures SemLinha(FechaTabela)
  {
    FechaTagSemLinha("table");
  }

  lemma AbreTheadSemLinha()
    ensures SemLinha(AbreThead)
  {
    AbreTagSemLinha("thead");
  }

  lemma FechaTheadSemLinha()
    ensures SemLinha(FechaThead)
  {
    FechaTagSemLinha("thead");
  }

  lemma AbreTbodySemLinha()
    ensures SemLinha(AbreTbody)
  {
    AbreTagSemLinha("tbody");
  }

  lemma FechaTbodySemLinha()
    ensures SemLinha(FechaTbody)
  {
    FechaTagSemLinha("tbody");
  }

  lemma TituloLoteSemLinha()
    ensures SemLinha(TituloLote)
  {
    ElementoSemLinha("h1", "Resultado das Simulações");
  }

  lemma IntroducaoLoteSemLinha()
    ensures SemLinha(IntroducaoLote)
  {
    ElementoSemLinha("p", TextoIntroducao);
  }

  lemma AtenciosamenteSemLinha()
    ensures SemLinha(Atenciosamente)
  {
    ElementoSemLinha("p", "Atenciosamente,");
  }

  lemma AssinaturaSemLinha()
    ensures SemLinha(Assinatura)
  {
    ElementoSemLinha("p", "Equipe de Simulação");
  }

  lemma TituloSimulacaoSemLinha()
    ensures SemLinha(TituloSimulacao)
  {
    ElementoSemLinha("h1", "Resultado da Simulação");
  }

  lemma AbreTabelaSimulacaoSemLinha()
    ensures SemLinha(AbreTabelaSimulacao)
  {
    EstiloTabelaSemMarcacao();
    AbreComBordaSemLinha("table", EstiloTabela);
  }

  lemma SeparadoresSemMarcacao()
    ensures '<' !in Quebra && '<' !in Recuo
  {
  }

  lemma ColunasTemUmaLinha()
    ensures CountRowTags(ColunasLote) == 1 && Abre(ColunasLote) && Fecha(ColunasLote)
  {
    AbreThEstiloSemLinha();
    FechaThSemLinha();
    RotulosSemMarcacao();
    Linha4TemUmaLinha(AbreThEstilo, FechaTh, RotuloId, RotuloValorTotal, RotuloParcela, RotuloJuros);
  }

  lemma AberturaLoteSemLinha()
    ensures SemLinha(AberturaLote)
  {
    TituloLoteSemLinha();
    IntroducaoLoteSemLinha();
    AbreTabelaSemLinha();
    JuntaTres(TituloLote, IntroducaoLote, AbreTabela);
  }

  /** The header holds one `<tr>`, the row of column headings, and ends with a tag. */
  lemma CabecalhoHasOneRowTag()
    ensures CountRowTags(CabecalhoLote) == 1 && Fecha(CabecalhoLote)
  {
    AberturaLoteSemLinha();
    CabecalhoTabelaTemUmaLinha();
    AbreTbodySemLinha();
    JuntaTres(AberturaLote, CabecalhoTabela, AbreTbody);
  }

  lemma CabecalhoTabelaTemUmaLinha()
    ensures CountRowTags(CabecalhoTabela) == 1 && Abre(CabecalhoTabela) && Fecha(CabecalhoTabela)
  {
    AbreTheadSemLinha();
    ColunasTemUmaLinha();
    FechaTheadSemLinha();
    JuntaTres(AbreThead, ColunasLote, FechaThead);
  }

  /** The footer holds no `<tr>` and starts with a tag. */
  lemma RodapeHasNoRowTag()
    ensures CountRowTags(RodapeLote) == 0 && Abre(RodapeLote)
  {
    FechaTbodySemLinha();
    FechaTabelaSemLinha();
    AtenciosamenteSemLinha();
    AssinaturaSemLinha();
    JuntaTres(FechaTbody, FechaTabela, Atenciosamente);
    CountAcrossSeam(FechaTbody + FechaTabela + Atenciosamente, Assinatura);
  }

  lemma AberturaSimulacaoSemLinha()
    ensures CountRowTags(AberturaSimulacao) == 0 && Fecha(AberturaSimulacao)
  {
    TituloSimulacaoSemLinha();
    AbreTabelaSimulacaoSemLinha();
    SeparadoresSemMarcacao();
    JuntaSeparado(TituloSimulacao, Quebra, AbreTabelaSimulacao);
  }

  lemma FimSimulacaoSemLinha()
    ensures CountRowTags(FimSimulacao) == 0
  {
    SeparadoresSemMarcacao();
    FechaTabelaSemLinha();
    AtenciosamenteSemLinha();
    AssinaturaSemLinha();
    NoOpeningBracket(Quebra);
    CountAcrossSeam(Quebra, FechaTabela);
    JuntaSeparado(Quebra + FechaTabela, Quebra, Atenciosamente);
    JuntaSeparado(Quebra + FechaTabela + Quebra + Atenciosamente, Quebra, Assinatura);
    CountAcrossSeam(Quebra + FechaTabela + Quebra + Atenciosamente + Quebra + Assinatura, Quebra);
  }

  /** The markup of `EmailService` is well formed, so the row counts above hold for the bodies it sends. */
  lemma MarcacaoFonteBemFormada()
    ensures BemFormada(MarcacaoFonte)
  {
    CabecalhoHasOneRowTag();
    AbreTdEstiloSemLinha();
    FechaTdSemLinha();
    RodapeHasNoRowTag();
    AberturaSimulacaoSemLinha();
    SeparadoresSemMarcacao();
    FimSimulacaoSemLinha();
  }

  // ----- the service -----

  const AssuntoSimulacao := "Sua simulação foi realizada"
  const AssuntoLote := "Resumo das Simulações - Lote"

  /** One message handed to the mail sender: sender, recipient, subject and HTML body. */
  datatype Mail = Mail(de: string, para: string, assunto: string, corpoHtml: string)

  /**
    `EmailService`. Sender and recipient are the configured addresses; the
    sender `send` calls are recorded, in order, in `enviados`.
   */
  class EmailService {
    const remetentePadrao: string
    const destinatario: string
    /** The fixed markup of both bodies. */
    const marcacao: Marcacao
    /** The `%.2f` rendering of an amount. */
    const formatoFixo: real -> string
    /** The `DecimalFormat("#.##")` rendering of an amount. */
    const formatoDecimal: real -> string
    ghost var enviados: seq<Mail>

    /** Both addresses are injected from the same property, `app.mail.destinatario`. */
    constructor (endereco: string, formatoFixo: real -> string, formatoDecimal: real -> string)
      ensures remetentePadrao == endereco && destinatario == endereco
      ensures marcacao == MarcacaoFonte
      ensures this.formatoFixo == formatoFixo && this.formatoDecimal == formatoDecimal
      ensures enviados == []
    {
      remetentePadrao := endereco;
      destinatario := endereco;
      marcacao := MarcacaoFonte;
      this.formatoFixo := formatoFixo;
      this.formatoDecimal := formatoDecimal;
      enviados := [];
    }

    /** The message `configurarMailSender` hands to the sender for `simulacao`. */
    function MensagemSimulacao(simulacao: Simulacao): Mail
    {
      Mail(remetentePadrao, destinatario, AssuntoSimulacao, CorpoEmail(marcacao, formatoFixo, simulacao))
    }

    /** The message `enviarEmailLote` hands to the sender for a batch body. */
    function MensagemLote(corpoEmail: string): Mail
    {
      Mail(remetentePadrao, destinatario, AssuntoLote, corpoEmail)
    }

    /** `configurarMailSender`: sends exactly one message, carrying the individual body of `simulacao`. */
    method ConfigurarMailSender(simulacao: Simulacao)
      modifies this
      ensures enviados == old(enviados) + [MensagemSimulacao(simulacao)]
    {
      var mensagem := MensagemSimulacao(simulacao);
      enviados := enviados + [mensagem];
    }

    /** `enviarEmailLote`: sends exactly one message, carrying the given body. */
    method EnviarEmailLote(corpoEmail: string)
      modifies this
      ensures enviados == old(enviados) + [MensagemLote(corpoEmail)]
    {
      var mensagem := MensagemLote(corpoEmail);
      enviados := enviados + [mensagem];
    }

    /** `montarCorpoEmailLote`: the header, one appended row per result in list order, then the footer. */
    method MontarCorpoEmailLote(resultados: seq<ResponseSimulacao>) returns (corpo: string)
      ensures corpo == CorpoEmailLote(marcacao, formatoDecimal, resultados)
    {
      var sb := marcacao.cabecalhoLote;
      var i := 0;
      MontagemInicial(marcacao, formatoDecimal, resultados);
      while i < |resultados|
        invariant 0 <= i <= |resultados|
        invariant sb == marcacao.cabecalhoLote + LinhasLote(marcacao, formatoDecimal, resultados[..i])
      {
        MontagemPasso(marcacao, formatoDecimal, resultados, i);
        sb := sb + LinhaLote(marcacao, formatoDecimal, resultados[i]);
        i := i + 1;
      }
      assert resultados[..i] == resultados;
      corpo := sb + marcacao.rodapeLote;
    }
  }
}
