/**
  What the installment formula of `calculaPmt` promises, stated against an
  independent definition: the outstanding balance of a loan that accrues the
  monthly rate on what is still owed and is reduced by one installment each
  month. The installment is the one that brings the balance to zero after
  exactly the term; being above the even split, it always costs interest.
 */
module Amortization {
  import opened Calendar
  import opened Domain
  import opened Pricing

  /** Balance after `k` months: the previous balance grown by the rate, minus one installment. */
  function Balance(principal: real, taxa: real, parcela: real, k: nat): real
  {
    if k == 0 then principal else Balance(principal, taxa, parcela, k - 1) * (1.0 + taxa) - parcela
  }

  /** Closed form of the balance, multiplied by the rate to stay free of division. */
  lemma {:induction false} BalanceClosedForm(principal: real, taxa: real, parcela: real, k: nat)
    ensures Balance(principal, taxa, parcela, k) * taxa
            == principal * taxa * Power(1.0 + taxa, k) - parcela * (Power(1.0 + taxa, k) - 1.0)
  {
    if k > 0 {
      var b, p := Balance(principal, taxa, parcela, k - 1), Power(1.0 + taxa, k - 1);
      var b2, p2 := Balance(principal, taxa, parcela, k), Power(1.0 + taxa, k);
      assert b2 == b * (1.0 + taxa) - parcela;
      assert p2 == (1.0 + taxa) * p;
      BalanceClosedForm(principal, taxa, parcela, k - 1);
      ClosedFormStep(principal, taxa, parcela, b, p, b2, p2);
    }
  }

  /**
    The real-number step of `BalanceClosedForm`, with the balance and the power
    before (`b`, `p`) and after (`b2`, `p2`) one more month as plain unknowns.
   */
  lemma ClosedFormStep(principal: real, taxa: real, parcela: real, b: real, p: real, b2: real, p2: real)
    requires b * taxa == principal * taxa * p - parcela * (p - 1.0)
    requires b2 == b * (1.0 + taxa) - parcela && p2 == (1.0 + taxa) * p
    ensures b2 * taxa == principal * taxa * p2 - parcela * (p2 - 1.0)
  {
    var q := 1.0 + taxa;
    calc {
      b2 * taxa;
      (b * q - parcela) * taxa;
      q * (b * taxa) - parcela * taxa;
      q * (principal * taxa * p - parcela * (p - 1.0)) - parcela * taxa;
      principal * taxa * (q * p) - parcela * (q * p) + parcela * (q - taxa);
      principal * taxa * (q * p) - parcela * (q * p - 1.0);
      principal * taxa * p2 - parcela * (p2 - 1.0);
    }
  }

  /** At rate zero the balance falls by one installment a month. */
  lemma {:induction false} BalanceAtZeroRate(principal: real, parcela: real, k: nat)
    ensures Balance(principal, 0.0, parcela, k) == principal - (k as real) * parcela
  {
    if k > 0 {
      BalanceAtZeroRate(principal, parcela, k - 1);
    }
  }

  /** The installment repays the principal exactly over the term, at any non-negative monthly rate. */
  lemma ParcelaAmortizes(principal: real, taxa: real, prazo: nat)
    requires taxa >= 0.0 && prazo >= 1
    ensures Balance(principal, taxa, ParcelaNaTaxa(principal, taxa, prazo), prazo) == 0.0
  {
    var pmt := ParcelaNaTaxa(principal, taxa, prazo);
    if taxa == 0.0 {
      BalanceAtZeroRate(principal, pmt, prazo);
    } else {
      var q := Power(1.0 + taxa, prazo);
      PowerAboveOne(1.0 + taxa, prazo);
      var d := 1.0 - 1.0 / q;
      assert d * q == q - 1.0;
      assert pmt * d == principal * taxa;
      assert pmt * (q - 1.0) == principal * taxa * q by {
        calc {
          pmt * (q - 1.0);
          pmt * (d * q);
          (pmt * d) * q;
          principal * taxa * q;
        }
      }
      BalanceClosedForm(principal, taxa, pmt, prazo);
      assert Balance(principal, taxa, pmt, prazo) * taxa == 0.0;
    }
  }

  /** (1 + r)^n - 1 < n * r * (1 + r)^n for r > 0 and n >= 1: compounding grows slower than n full periods of interest on the final value. */
  lemma {:induction false} CompoundBelowSimple(taxa: real, n: nat)
    requires taxa > 0.0 && n >= 1
    ensures Power(1.0 + taxa, n) - 1.0 < (n as real) * taxa * Power(1.0 + taxa, n)
  {
    var q := 1.0 + taxa;
    if n > 1 {
      CompoundBelowSimple(taxa, n - 1);
      var p := Power(q, n - 1);
      PowerAboveOne(q, n);
      assert q * (p - 1.0) < q * ((n - 1) as real) * taxa * p;
      calc {
        Power(q, n) - 1.0;
        q * (p - 1.0) + taxa;
      <
        q * ((n - 1) as real) * taxa * p + taxa;
        ((n - 1) as real) * taxa * (q * p) + taxa;
      <
        ((n - 1) as real) * taxa * (q * p) + taxa * (q * p);
        (n as real) * taxa * Power(q, n);
      }
    }
  }

  /** The defining equation of the installment at a positive rate: pmt * (1 - (1 + r)^(-n)) = principal * r. */
  lemma ParcelaEquation(principal: real, taxa: real, prazo: nat)
    requires taxa > 0.0 && prazo >= 1
    ensures Power(1.0 + taxa, prazo) > 1.0
    ensures ParcelaNaTaxa(principal, taxa, prazo) * (1.0 - 1.0 / Power(1.0 + taxa, prazo)) == principal * taxa
  {
    PowerAboveOne(1.0 + taxa, prazo);
  }

  /** With a positive rate the installment exceeds the even split, so the total paid exceeds the principal. */
  lemma ParcelaAboveEvenSplit(principal: real, taxa: real, prazo: nat)
    requires principal > 0.0 && taxa > 0.0 && prazo >= 1
    ensures ParcelaNaTaxa(principal, taxa, prazo) * (prazo as real) > principal
  {
    var pmt := ParcelaNaTaxa(principal, taxa, prazo);
    var q := Power(1.0 + taxa, prazo);
    ParcelaEquation(principal, taxa, prazo);
    CompoundBelowSimple(taxa, prazo);
    EvenSplitArithmetic(principal, taxa, prazo as real, q, pmt);
  }

  /** The real-number step of `ParcelaAboveEvenSplit`, with the installment and the power as plain unknowns. */
  lemma EvenSplitArithmetic(principal: real, taxa: real, n: real, q: real, pmt: real)
    requires principal > 0.0 && taxa > 0.0 && n > 0.0 && q > 1.0
    requires q - 1.0 < n * taxa * q
    requires pmt * (1.0 - 1.0 / q) == principal * taxa
    ensures pmt * n > principal
  {
    var d := 1.0 - 1.0 / q;
    assert d * q == q - 1.0;
    assert 0.0 < d by {
      assert 1.0 / q < 1.0;
    }
    assert d < n * taxa by {
      assert d * q < (n * taxa) * q;
    }
    assert principal * d < principal * (n * taxa);
    assert (pmt * n) * d == principal * taxa * n by {
      assert (pmt * n) * d == (pmt * d) * n;
    }
    assert principal * d < (pmt * n) * d;
  }

  /** Every accepted request is repaid exactly by its installments at its own monthly rate. */
  lemma SimularAmortizes(solicitacao: RequestSimulacao, hoje: Date, id: string)
    requires Simular(solicitacao, hoje, id).Ok?
    ensures var sim := Simular(solicitacao, hoje, id).value;
            var idade := WholeYearsBetween(solicitacao.dataNascimento, hoje);
            Balance(sim.valorEmprestimo, TaxaMensal(TaxaAnual(solicitacao, idade)), sim.valorParcelaMensal, sim.prazoMeses as nat) == 0.0
  {
    var idade := WholeYearsBetween(solicitacao.dataNascimento, hoje);
    TaxaMensalPositive(solicitacao, idade);
    ParcelaAmortizes(solicitacao.valorEmprestimo, TaxaMensal(TaxaAnual(solicitacao, idade)), solicitacao.prazoMeses as nat);
  }

  /** Every accepted request costs interest: the total exceeds the principal and the interest is positive. */
  lemma SimularChargesInterest(solicitacao: RequestSimulacao, hoje: Date, id: string)
    requires Simular(solicitacao, hoje, id).Ok?
    ensures Simular(solicitacao, hoje, id).value.valorTotal > solicitacao.valorEmprestimo
    ensures Simular(solicitacao, hoje, id).value.totalJuros > 0.0
  {
    var idade := WholeYearsBetween(solicitacao.dataNascimento, hoje);
    TaxaMensalPositive(solicitacao, idade);
    ParcelaAboveEvenSplit(solicitacao.valorEmprestimo, TaxaMensal(TaxaAnual(solicitacao, idade)), solicitacao.prazoMeses as nat);
  }
}
