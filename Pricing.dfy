/**
  The arithmetic of `SimulacaoService`: validation of a request, the
  age-banded annual rate, the rate-type premium, the monthly rate, the fixed
  installment (PMT) and the construction of the persisted record and of the
  response. Money and rates are reals standing for Java `double`s; the
  identifier that `SimulacaoService` draws from `UUID.randomUUID()` and the
  current date that it reads from `LocalDate.now()` are parameters.
 */
module Pricing {
  import opened Calendar
  import opened Domain

  const MensagemValorInvalido := "Valor do empréstimo e prazo devem ser positivos."
  const MensagemDataInvalida := "Data de nascimento inválida."

  /** `calcularTaxaAnual`: the annual base rate, in percent, by age band; the first band that fits wins. */
  function CalcularTaxaAnual(idade: int): (taxa: real)
    ensures 2.0 <= taxa <= 5.0
  {
    if idade <= 25 then 5.0
    else if idade <= 40 then 3.0
    else if idade <= 60 then 2.0
    else 4.0
  }

  /** `validaTipoTaxa`: `FIXA` keeps the base rate, every other rate type pays one point more. */
  function ValidaTipoTaxa(solicitacao: RequestSimulacao, taxaAnualBase: real): (taxaAnual: real)
    ensures taxaAnual - taxaAnualBase == (if solicitacao.tipoTaxa == FIXA then 0.0 else 1.0)
  {
    if solicitacao.tipoTaxa == FIXA then taxaAnualBase else taxaAnualBase + 1.0
  }

  /**
    The annual rate in percent `calculaPmt` works with: the rate of the first
    band of the table that holds the age, plus the premium of the rate type.
   */
  function TaxaAnual(solicitacao: RequestSimulacao, idade: int): (taxaAnual: real)
    ensures taxaAnual == PrimeiraFaixa(Faixas, idade, TaxaAcimaDasFaixas) + (if solicitacao.tipoTaxa == FIXA then 0.0 else 1.0)
  {
    TaxaAnualIsFirstMatch(idade);
    ValidaTipoTaxa(solicitacao, CalcularTaxaAnual(idade))
  }

  /** Monthly rate as a fraction: the annual percentage divided by 12 and by 100. */
  function TaxaMensal(taxaAnual: real): (taxa: real)
    ensures taxa * 1200.0 == taxaAnual
  {
    taxaAnual / 12.0 / 100.0
  }

  function Power(x: real, n: nat): real
  {
    if n == 0 then 1.0 else x * Power(x, n - 1)
  }

  lemma {:induction false} PowerAboveOne(x: real, n: nat)
    requires x > 1.0 && n >= 1
    ensures Power(x, n) > 1.0
  {
    if n > 1 {
      PowerAboveOne(x, n - 1);
      assert x * Power(x, n - 1) > Power(x, n - 1);
    }
  }

  /**
    The installment of `calculaPmt` at a given monthly rate: the principal
    split evenly when the rate is zero, and otherwise
    principal * rate / (1 - (1 + rate)^(-prazo)), with the negative power
    written as the reciprocal of a natural power.
   */
  function ParcelaNaTaxa(principal: real, taxaMensal: real, prazo: nat): (pmt: real)
    requires taxaMensal >= 0.0 && prazo >= 1
    ensures taxaMensal == 0.0 ==> pmt * (prazo as real) == principal
    ensures pmt > 0.0 <==> principal > 0.0
  {
    if taxaMensal == 0.0 then
      principal / (prazo as real)
    else
      PowerAboveOne(1.0 + taxaMensal, prazo);
      DenominadorPositivo(Power(1.0 + taxaMensal, prazo));
      SinalDoQuociente(principal, taxaMensal, 1.0 - 1.0 / Power(1.0 + taxaMensal, prazo));
      (principal * taxaMensal) / (1.0 - 1.0 / Power(1.0 + taxaMensal, prazo))
  }

  lemma DenominadorPositivo(p: real)
    requires p > 1.0
    ensures 1.0 - 1.0 / p > 0.0
  {
  }

  /** A principal scaled by a positive rate over a positive denominator keeps its sign. */
  lemma SinalDoQuociente(principal: real, taxa: real, d: real)
    requires taxa > 0.0 && d > 0.0
    ensures (principal * taxa) / d > 0.0 <==> principal > 0.0
  {
    if principal > 0.0 {
      assert principal * taxa > 0.0;
    } else {
      assert principal * taxa <= 0.0;
    }
  }

  /**
    `calculaPmt`: the installment for a request whose term is positive, at the
    monthly rate its age and type give. The installment is positive exactly
    when the amount is.
   */
  function CalculaPmt(solicitacao: RequestSimulacao, idade: int): (pmt: real)
    requires solicitacao.prazoMeses > 0
    ensures pmt > 0.0 <==> solicitacao.valorEmprestimo > 0.0
  {
    TaxaMensalPositive(solicitacao, idade);
    ParcelaNaTaxa(solicitacao.valorEmprestimo, TaxaMensal(TaxaAnual(solicitacao, idade)), solicitacao.prazoMeses as nat)
  }

  /** `contruirSimulacao`: the persisted record, with `id` standing for the freshly generated UUID. */
  function ContruirSimulacao(solicitacao: RequestSimulacao, id: string, valorTotal: real, pmt: real, totalJuros: real): (sim: Simulacao)
    ensures sim.id == id
    ensures sim.valorEmprestimo == solicitacao.valorEmprestimo
    ensures sim.dataNascimento == solicitacao.dataNascimento
    ensures sim.prazoMeses == solicitacao.prazoMeses
    ensures (sim.valorTotal, sim.valorParcelaMensal, sim.totalJuros) == (valorTotal, pmt, totalJuros)
  {
    Simulacao(id, solicitacao.valorEmprestimo, solicitacao.dataNascimento, solicitacao.prazoMeses, valorTotal, pmt, totalJuros)
  }

  /** `getResponseSimulacao`: the response carries every field of the record. */
  function GetResponseSimulacao(sim: Simulacao): (resposta: ResponseSimulacao)
    ensures FromResponse(resposta) == sim
  {
    ResponseSimulacao(sim.id, sim.valorTotal, sim.valorParcelaMensal, sim.totalJuros,
                      sim.valorEmprestimo, sim.dataNascimento, sim.prazoMeses)
  }

  /** Reads a record back from a response; `GetResponseSimulacao` and this are inverse to each other. */
  function FromResponse(resposta: ResponseSimulacao): Simulacao
  {
    Simulacao(resposta.id, resposta.valorEmprestimo, resposta.dataNascimento, resposta.prazoMeses,
              resposta.valorTotal, resposta.valorParcelaMensal, resposta.totalJuros)
  }

  lemma ResponseRoundTrip(resposta: ResponseSimulacao)
    ensures GetResponseSimulacao(FromResponse(resposta)) == resposta
  {
  }

  /** The invariant of a persisted record: total = installment * term and interest = total - principal. */
  predicate Consistent(sim: Simulacao)
  {
    && sim.valorTotal == sim.valorParcelaMensal * (sim.prazoMeses as real)
    && sim.totalJuros == sim.valorTotal - sim.valorEmprestimo
  }

  /**
    What `simular` computes before it touches the repository or the mail
    sender: the amount and the term are checked first, then the age; a
    request that passes both becomes a consistent record that copies the
    request and carries the given identifier and the installment at the
    request's rate.
   */
  function Simular(solicitacao: RequestSimulacao, hoje: Date, id: string): (r: Result<Simulacao>)
    ensures solicitacao.valorEmprestimo <= 0.0 || solicitacao.prazoMeses <= 0 ==> r == Err(MensagemValorInvalido)
    ensures solicitacao.valorEmprestimo > 0.0 && solicitacao.prazoMeses > 0 && WholeYearsBetween(solicitacao.dataNascimento, hoje) <= 0
            ==> r == Err(MensagemDataInvalida)
    ensures r.Ok? ==>
              && r.value.id == id
              && r.value.valorEmprestimo == solicitacao.valorEmprestimo
              && r.value.dataNascimento == solicitacao.dataNascimento
              && r.value.prazoMeses == solicitacao.prazoMeses
              && r.value.valorParcelaMensal == CalculaPmt(solicitacao, WholeYearsBetween(solicitacao.dataNascimento, hoje))
              && Consistent(r.value)
  {
    if solicitacao.valorEmprestimo <= 0.0 || solicitacao.prazoMeses <= 0 then
      Err(MensagemValorInvalido)
    else
      var idade := WholeYearsBetween(solicitacao.dataNascimento, hoje);
      if idade <= 0 then
        Err(MensagemDataInvalida)
      else
        var prazoMeses := solicitacao.prazoMeses as real;
        var pmt := CalculaPmt(solicitacao, idade);
        var valorTotal := pmt * prazoMeses;
        var totalJuros := valorTotal - solicitacao.valorEmprestimo;
        Ok(ContruirSimulacao(solicitacao, id, valorTotal, pmt, totalJuros))
  }

  /** A request is accepted exactly when amount and term are positive and the borrower has had a first birthday. */
  lemma SimularOkIff(solicitacao: RequestSimulacao, hoje: Date, id: string)
    ensures Simular(solicitacao, hoje, id).Ok?
            <==> solicitacao.valorEmprestimo > 0.0 && solicitacao.prazoMeses > 0
                 && AnniversaryReached(solicitacao.dataNascimento, 1, hoje)
  {
    AgePositiveIff(solicitacao.dataNascimento, hoje);
  }

  /** Two runs on the same request differ only in the identifier. */
  lemma SimularDeterministic(solicitacao: RequestSimulacao, hoje: Date, id1: string, id2: string)
    requires Simular(solicitacao, hoje, id1).Ok?
    ensures Simular(solicitacao, hoje, id2).Ok?
    ensures Simular(solicitacao, hoje, id2).value == Simular(solicitacao, hoje, id1).value.(id := id2)
  {
  }

  // ----- the rate table -----

  /** One row of the age table: ages up to `ateIdade` pay `taxa` percent a year. */
  datatype Faixa = Faixa(ateIdade: int, taxa: real)

  /** The bands of `calcularTaxaAnual` in the order they are tried, and the rate above the last band. */
  const Faixas: seq<Faixa> := [Faixa(25, 5.0), Faixa(40, 3.0), Faixa(60, 2.0)]
  const TaxaAcimaDasFaixas: real := 4.0

  /** First-match lookup in an ordered band table. */
  function PrimeiraFaixa(faixas: seq<Faixa>, idade: int, senao: real): real
  {
    if faixas == [] then senao
    else if idade <= faixas[0].ateIdade then faixas[0].taxa
    else PrimeiraFaixa(faixas[1..], idade, senao)
  }

  /** `calcularTaxaAnual` is the first-match lookup in its table. */
  lemma TaxaAnualIsFirstMatch(idade: int)
    ensures CalcularTaxaAnual(idade) == PrimeiraFaixa(Faixas, idade, TaxaAcimaDasFaixas)
  {
    var t1 := [Faixa(40, 3.0), Faixa(60, 2.0)];
    var t2 := [Faixa(60, 2.0)];
    assert Faixas[1..] == t1 && t1[1..] == t2 && t2[1..] == [];
    assert PrimeiraFaixa([], idade, TaxaAcimaDasFaixas) == 4.0;
    assert PrimeiraFaixa(t2, idade, TaxaAcimaDasFaixas) == if idade <= 60 then 2.0 else 4.0;
    assert PrimeiraFaixa(t1, idade, TaxaAcimaDasFaixas) == if idade <= 40 then 3.0 else PrimeiraFaixa(t2, idade, TaxaAcimaDasFaixas);
  }

  /** The values at both sides of each boundary of the table. */
  lemma TaxaAnualBoundaries()
    ensures CalcularTaxaAnual(25) == 5.0 && CalcularTaxaAnual(26) == 3.0
    ensures CalcularTaxaAnual(40) == 3.0 && CalcularTaxaAnual(41) == 2.0
    ensures CalcularTaxaAnual(60) == 2.0 && CalcularTaxaAnual(61) == 4.0
  {
  }

  /** The rate-type premium is exactly one point, and the final annual rate lies in [2, 6]. */
  lemma TaxaAnualRange(solicitacao: RequestSimulacao, idade: int)
    ensures 2.0 <= TaxaAnual(solicitacao, idade) <= 6.0
    ensures TaxaAnual(solicitacao.(tipoTaxa := Other), idade) == TaxaAnual(solicitacao.(tipoTaxa := FIXA), idade) + 1.0
  {
  }

  /** No band yields a zero rate, so the zero-rate branch of `calculaPmt` is never taken. */
  lemma TaxaMensalPositive(solicitacao: RequestSimulacao, idade: int)
    ensures TaxaMensal(TaxaAnual(solicitacao, idade)) > 0.0
  {
    TaxaAnualRange(solicitacao, idade);
  }

  /** The example of a 34-year-old borrower on a fixed rate: 3% a year, 0.25% a month. */
  lemma ExampleAge34Fixed(solicitacao: RequestSimulacao)
    requires solicitacao.tipoTaxa == FIXA
    ensures TaxaAnual(solicitacao, 34) == 3.0
    ensures TaxaMensal(TaxaAnual(solicitacao, 34)) == 0.0025
  {
  }
}
