/**
  The HTML building blocks both e-mail bodies are made of (tags, elements,
  styled opening tags, table rows) and what each contributes to the row
  count of `TagCount`. Every lemma here is stated over arbitrary texts, so
  the fixed markup of the bodies only has to be plugged in.
 */
module Markup {
  import opened TagCount

  /** `<t>` */
  function AbreTag(tag: string): string
  {
    "<" + tag + ">"
  }

  /** `</t>` */
  function FechaTag(tag: string): string
  {
    "</" + tag + ">"
  }

  /** An element with plain text inside. */
  function Elemento(tag: string, texto: string): string
  {
    AbreTag(tag) + texto + FechaTag(tag)
  }

  /** An opening tag with an inline style attribute in single quotes. */
  function AbreComEstilo(tag: string, estilo: string): string
  {
    "<" + tag + " style='" + estilo + "'>"
  }

  /** An opening tag with a border of one and an inline style attribute, both in double quotes. */
  function AbreComBorda(tag: string, estilo: string): string
  {
    "<" + tag + " border=\"1\" style=\"" + estilo + "\">"
  }

  /** A cell: its opening tag, its text, its closing tag. */
  function Celula(abre: string, texto: string, fecha: string): string
  {
    abre + texto + fecha
  }

  const AbreTr := AbreTag("tr")
  const FechaTr := FechaTag("tr")
  const AbreTh := AbreTag("th")
  const FechaTh := FechaTag("th")
  const AbreTd := AbreTag("td")
  const FechaTd := FechaTag("td")

  /** A table row of four cells that share their opening and closing tags. */
  function Linha4(abre: string, fecha: string, v1: string, v2: string, v3: string, v4: string): string
  {
    AbreTr + Celula(abre, v1, fecha) + Celula(abre, v2, fecha) + Celula(abre, v3, fecha)
    + Celula(abre, v4, fecha) + FechaTr
  }

  /** A table row holding a heading cell with a label and a data cell with a value. */
  function LinhaRotulada(rotulo: string, valor: string): string
  {
    AbreTr + Celula(AbreTh, rotulo, FechaTh) + Celula(AbreTd, valor, FechaTd) + FechaTr
  }

  /** A tag name that is not `tr` and holds no markup. */
  predicate NomeComum(tag: string)
  {
    '<' !in tag && |tag| >= 1 && (|tag| < 2 || tag[0] != 't' || tag[1] != 'r')
  }

  /** A text that starts and ends with a tag and holds no row tag. */
  predicate SemLinha(s: string)
  {
    Abre(s) && Fecha(s) && CountRowTags(s) == 0
  }

  lemma AbreTagSemLinha(tag: string)
    requires NomeComum(tag)
    ensures SemLinha(AbreTag(tag))
  {
    SingleTag(tag);
  }

  lemma FechaTagSemLinha(tag: string)
    requires '<' !in tag
    ensures SemLinha(FechaTag(tag))
  {
    assert FechaTag(tag) == "<" + ("/" + tag) + ">";
    SingleTag("/" + tag);
  }

  lemma ElementoSemLinha(tag: string, texto: string)
    requires NomeComum(tag) && '<' !in texto
    ensures SemLinha(Elemento(tag, texto))
  {
    AbreTagSemLinha(tag);
    NoOpeningBracket(texto);
    CountAcrossSeam(AbreTag(tag), texto);
    FechaTagSemLinha(tag);
    CountAcrossSeam(AbreTag(tag) + texto, FechaTag(tag));
  }

  lemma AbreComEstiloSemLinha(tag: string, estilo: string)
    requires NomeComum(tag) && '<' !in estilo
    ensures SemLinha(AbreComEstilo(tag, estilo))
  {
    var resto := tag + " style='" + estilo + "'>";
    assert AbreComEstilo(tag, estilo) == "<" + resto;
    assert resto[0] == tag[0];
    assert resto[1] == if |tag| < 2 then ' ' else tag[1];
    OtherTag(resto);
  }

  lemma AbreComBordaSemLinha(tag: string, estilo: string)
    requires NomeComum(tag) && '<' !in estilo
    ensures SemLinha(AbreComBorda(tag, estilo))
  {
    var resto := tag + " border=\"1\" style=\"" + estilo + "\">";
    assert AbreComBorda(tag, estilo) == "<" + resto;
    assert resto[0] == tag[0];
    assert resto[1] == if |tag| < 2 then ' ' else tag[1];
    OtherTag(resto);
  }

  lemma CelulaSemLinha(abre: string, texto: string, fecha: string)
    requires SemLinha(abre) && SemLinha(fecha) && '<' !in texto
    ensures SemLinha(Celula(abre, texto, fecha))
  {
    NoOpeningBracket(texto);
    CountAcrossSeam(abre, texto);
    CountAcrossSeam(abre + texto, fecha);
  }

  /** Three texts that each start and end with a tag: the counts add up and the join starts and ends with a tag. */
  lemma JuntaTres(a: string, b: string, c: string)
    requires Abre(a) && Fecha(a) && Abre(b) && Fecha(b) && Abre(c) && Fecha(c)
    ensures CountRowTags(a + b + c) == CountRowTags(a) + CountRowTags(b) + CountRowTags(c)
    ensures Abre(a + b + c) && Fecha(a + b + c)
  {
    CountAcrossSeam(a, b);
    CountAcrossSeam(a + b, c);
  }

  /** Two tagged texts with plain text between them: the counts add up. */
  lemma JuntaSeparado(a: string, sep: string, b: string)
    requires Fecha(a) && Abre(b) && Fecha(b) && '<' !in sep
    ensures CountRowTags(a + sep + b) == CountRowTags(a) + CountRowTags(b)
    ensures Abre(a) ==> Abre(a + sep + b)
    ensures Fecha(a + sep + b)
  {
    NoOpeningBracket(sep);
    CountAcrossSeam(a, sep);
    CountAcrossSeam(a + sep, b);
  }

  lemma AbreTrTemUmaLinha()
    ensures CountRowTags(AbreTr) == 1 && Abre(AbreTr) && Fecha(AbreTr)
  {
    RowTagCountsOne();
  }

  lemma FechaTrSemLinha()
    ensures SemLinha(FechaTr)
  {
    FechaTagSemLinha("tr");
  }

  lemma AbreThSemLinha()
    ensures SemLinha(AbreTh)
  {
    AbreTagSemLinha("th");
  }

  lemma FechaThSemLinha()
    ensures SemLinha(FechaTh)
  {
    FechaTagSemLinha("th");
  }

  lemma AbreTdSemLinha()
    ensures SemLinha(AbreTd)
  {
    AbreTagSemLinha("td");
  }

  lemma FechaTdSemLinha()
    ensures SemLinha(FechaTd)
  {
    FechaTagSemLinha("td");
  }

  /** A row of four cells whose tags and texts hold no row tag holds exactly one `<tr>`. */
  lemma Linha4TemUmaLinha(abre: string, fecha: string, v1: string, v2: string, v3: string, v4: string)
    requires SemLinha(abre) && SemLinha(fecha)
    requires '<' !in v1 && '<' !in v2 && '<' !in v3 && '<' !in v4
    ensures var l := Linha4(abre, fecha, v1, v2, v3, v4); CountRowTags(l) == 1 && Abre(l) && Fecha(l)
  {
    var c1, c2, c3, c4 := Celula(abre, v1, fecha), Celula(abre, v2, fecha), Celula(abre, v3, fecha), Celula(abre, v4, fecha);
    CelulaSemLinha(abre, v1, fecha);
    CelulaSemLinha(abre, v2, fecha);
    CelulaSemLinha(abre, v3, fecha);
    CelulaSemLinha(abre, v4, fecha);
    AbreTrTemUmaLinha();
    FechaTrSemLinha();
    JuntaTres(AbreTr, c1, c2);
    JuntaTres(AbreTr + c1 + c2, c3, c4);
    CountAcrossSeam(AbreTr + c1 + c2 + c3 + c4, FechaTr);
  }

  /** A labelled row whose label and value hold no markup holds exactly one `<tr>`. */
  lemma LinhaRotuladaTemUmaLinha(rotulo: string, valor: string)
    requires '<' !in rotulo && '<' !in valor
    ensures var l := LinhaRotulada(rotulo, valor); CountRowTags(l) == 1 && Abre(l) && Fecha(l)
  {
    var c1, c2 := Celula(AbreTh, rotulo, FechaTh), Celula(AbreTd, valor, FechaTd);
    AbreThSemLinha();
    FechaThSemLinha();
    AbreTdSemLinha();
    FechaTdSemLinha();
    CelulaSemLinha(AbreTh, rotulo, FechaTh);
    CelulaSemLinha(AbreTd, valor, FechaTd);
    AbreTrTemUmaLinha();
    FechaTrSemLinha();
    JuntaTres(AbreTr, c1, c2);
    CountAcrossSeam(AbreTr + c1 + c2, FechaTr);
  }
}
