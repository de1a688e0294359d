/**
  `SimulacaoService` as an object: the repository is a map from id to
  record, the UUID generator is a fixed injective sequence of identifiers of
  which the service has drawn the first `gerados`, and the mail sender is the
  `EmailService` log. `simular` validates, computes, saves and optionally
  mails; `simularEmLote` runs `simular` without mail over a list, stops at the
  first failure and otherwise mails one summary; `buscarSimulacaoPorId` reads
  the repository.
 */
module Service {
  import opened Calendar
  import opened Domain
  import opened Pricing
  import opened Email

  const MensagemNaoEncontrada := "Simulação não encontrada para o ID: "

  /** No identifier is produced twice. */
  ghost predicate Injective(uuid: nat -> string)
  {
    forall i: nat, j: nat :: uuid(i) == uuid(j) ==> i == j
  }

  /** The condition `simular` checks before it computes anything: positive amount and term, and an age of at least one year. */
  predicate Aceita(solicitacao: RequestSimulacao, hoje: Date)
  {
    solicitacao.valorEmprestimo > 0.0 && solicitacao.prazoMeses > 0 && WholeYearsBetween(solicitacao.dataNascimento, hoje) > 0
  }

  /** `simular` succeeds exactly on the requests it accepts, whatever identifier it is given. */
  lemma AceitaIff(solicitacao: RequestSimulacao, hoje: Date, id: string)
    ensures Pricing.Simular(solicitacao, hoje, id).Ok? <==> Aceita(solicitacao, hoje)
  {
  }

  // ----- the batch, as a value -----

  /** What a batch run leaves behind: the records saved, in order, and how the run ended. */
  datatype ExecucaoLote = ExecucaoLote(salvos: seq<Simulacao>, resultado: Outcome)

  /**
    The batch run sequentially, the `i`-th accepted request drawing the
    identifier `uuid(de + i)`. The first failure ends the run with its message;
    the records saved before it stay saved. A run passes exactly when every
    request produced a record.
   */
  function Lote(solicitacoes: seq<RequestSimulacao>, hoje: Date, uuid: nat -> string, de: nat): ExecucaoLote
    decreases |solicitacoes|
  {
    if solicitacoes == [] then ExecucaoLote([], Pass)
    else
      match Pricing.Simular(solicitacoes[0], hoje, uuid(de))
      case Err(mensagem) => ExecucaoLote([], Fail(mensagem))
      case Ok(simulacao) =>
        var resto := Lote(solicitacoes[1..], hoje, uuid, de + 1);
        ExecucaoLote([simulacao] + resto.salvos, resto.resultado)
  }

  /** The `i`-th saved record is what `simular` makes of the `i`-th request with the `i`-th identifier. */
  lemma {:induction false} LoteSalvos(solicitacoes: seq<RequestSimulacao>, hoje: Date, uuid: nat -> string, de: nat)
    ensures var r := Lote(solicitacoes, hoje, uuid, de);
            && |r.salvos| <= |solicitacoes|
            && (forall i | 0 <= i < |r.salvos| :: Pricing.Simular(solicitacoes[i], hoje, uuid(de + i)) == Ok(r.salvos[i]))
    decreases |solicitacoes|
  {
    if solicitacoes != [] && Pricing.Simular(solicitacoes[0], hoje, uuid(de)).Ok? {
      var resto := solicitacoes[1..];
      LoteSalvos(resto, hoje, uuid, de + 1);
      var r := Lote(solicitacoes, hoje, uuid, de);
      var s := Lote(resto, hoje, uuid, de + 1);
      assert r.salvos == [r.salvos[0]] + s.salvos;
      forall i | 1 <= i < |r.salvos|
        ensures Pricing.Simular(solicitacoes[i], hoje, uuid(de + i)) == Ok(r.salvos[i])
      {
        assert r.salvos[i] == s.salvos[i - 1] && resto[i - 1] == solicitacoes[i] && de + 1 + (i - 1) == de + i;
      }
    }
  }

  /** The run passes exactly when every request produced a record, and otherwise fails with the message of the request after the saved ones. */
  lemma {:induction false} LoteTermino(solicitacoes: seq<RequestSimulacao>, hoje: Date, uuid: nat -> string, de: nat)
    ensures var r := Lote(solicitacoes, hoje, uuid, de);
            && |r.salvos| <= |solicitacoes|
            && (r.resultado == Pass <==> |r.salvos| == |solicitacoes|)
            && (r.resultado.Fail? ==> Pricing.Simular(solicitacoes[|r.salvos|], hoje, uuid(de + |r.salvos|)) == Err(r.resultado.message))
    decreases |solicitacoes|
  {
    if solicitacoes != [] && Pricing.Simular(solicitacoes[0], hoje, uuid(de)).Ok? {
      var resto := solicitacoes[1..];
      LoteTermino(resto, hoje, uuid, de + 1);
      var s := Lote(resto, hoje, uuid, de + 1);
      if s.resultado.Fail? {
        assert resto[|s.salvos|] == solicitacoes[|s.salvos| + 1];
      }
    }
  }

  /** A batch passes exactly when every request in it is accepted. */
  lemma LotePassaIff(solicitacoes: seq<RequestSimulacao>, hoje: Date, uuid: nat -> string, de: nat)
    ensures Lote(solicitacoes, hoje, uuid, de).resultado == Pass
            <==> forall i | 0 <= i < |solicitacoes| :: Aceita(solicitacoes[i], hoje)
  {
    LoteSalvos(solicitacoes, hoje, uuid, de);
    LoteTermino(solicitacoes, hoje, uuid, de);
    var r := Lote(solicitacoes, hoje, uuid, de);
    if r.resultado == Pass {
      forall i | 0 <= i < |solicitacoes|
        ensures Aceita(solicitacoes[i], hoje)
      {
        AceitaIff(solicitacoes[i], hoje, uuid(de + i));
      }
    } else {
      AceitaIff(solicitacoes[|r.salvos|], hoje, uuid(de + |r.salvos|));
    }
  }

  /**
    A failing batch fails with the message of its first rejected request:
    every request before it is accepted and saved.
   */
  lemma LoteFalhaNoPrimeiro(solicitacoes: seq<RequestSimulacao>, hoje: Date, uuid: nat -> string, de: nat)
    requires Lote(solicitacoes, hoje, uuid, de).resultado.Fail?
    ensures var r := Lote(solicitacoes, hoje, uuid, de);
            var k := |r.salvos|;
            && k < |solicitacoes|
            && (forall i | 0 <= i < k :: Aceita(solicitacoes[i], hoje))
            && !Aceita(solicitacoes[k], hoje)
            && Pricing.Simular(solicitacoes[k], hoje, uuid(de + k)) == Err(r.resultado.message)
  {
    LoteSalvos(solicitacoes, hoje, uuid, de);
    LoteTermino(solicitacoes, hoje, uuid, de);
    var r := Lote(solicitacoes, hoje, uuid, de);
    var k := |r.salvos|;
    forall i | 0 <= i < k
      ensures Aceita(solicitacoes[i], hoje)
    {
      AceitaIff(solicitacoes[i], hoje, uuid(de + i));
    }
    AceitaIff(solicitacoes[k], hoje, uuid(de + k));
  }

  /** With an injective generator the records of a batch carry pairwise distinct identifiers. */
  lemma LoteIdsDistintos(solicitacoes: seq<RequestSimulacao>, hoje: Date, uuid: nat -> string, de: nat)
    requires Injective(uuid)
    ensures var s := Lote(solicitacoes, hoje, uuid, de).salvos;
            forall i, j | 0 <= i < j < |s| :: s[i].id != s[j].id
  {
    LoteSalvos(solicitacoes, hoje, uuid, de);
    LoteTermino(solicitacoes, hoje, uuid, de);
    var s := Lote(solicitacoes, hoje, uuid, de).salvos;
    forall i, j | 0 <= i < j < |s|
      ensures s[i].id != s[j].id
    {
      assert s[i].id == uuid(de + i) && s[j].id == uuid(de + j);
    }
  }

  /** The responses of a list of records, in the same order. */
  function Respostas(salvos: seq<Simulacao>): (respostas: seq<ResponseSimulacao>)
    ensures |respostas| == |salvos|
    ensures forall i | 0 <= i < |salvos| :: FromResponse(respostas[i]) == salvos[i]
  {
    if salvos == [] then [] else [GetResponseSimulacao(salvos[0])] + Respostas(salvos[1..])
  }

  // ----- saving records -----

  /** The repository after saving the records one after the other; a later save under the same id replaces the earlier one. */
  function Guarda(repositorio: map<string, Simulacao>, salvos: seq<Simulacao>): map<string, Simulacao>
    decreases |salvos|
  {
    if salvos == [] then repositorio else Guarda(repositorio[salvos[0].id := salvos[0]], salvos[1..])
  }

  lemma {:induction false} GuardaAppend(repositorio: map<string, Simulacao>, salvos: seq<Simulacao>, s: Simulacao)
    ensures Guarda(repositorio, salvos + [s]) == Guarda(repositorio, salvos)[s.id := s]
    decreases |salvos|
  {
    if salvos == [] {
      assert [s][1..] == [];
    } else {
      assert (salvos + [s])[1..] == salvos[1..] + [s];
      GuardaAppend(repositorio[salvos[0].id := salvos[0]], salvos[1..], s);
    }
  }

  /** The identifiers of a list of records. */
  function Ids(salvos: seq<Simulacao>): set<string>
  {
    set i | 0 <= i < |salvos| :: salvos[i].id
  }

  /** Saving records adds their ids to the keys and no other key. */
  lemma {:induction false} GuardaChaves(repositorio: map<string, Simulacao>, salvos: seq<Simulacao>)
    ensures Guarda(repositorio, salvos).Keys == repositorio.Keys + Ids(salvos)
    decreases |salvos|
  {
    if salvos != [] {
      GuardaChaves(repositorio[salvos[0].id := salvos[0]], salvos[1..]);
      assert Ids(salvos) == {salvos[0].id} + Ids(salvos[1..]) by {
        forall x | x in Ids(salvos)
          ensures x in {salvos[0].id} + Ids(salvos[1..])
        {
          var i :| 0 <= i < |salvos| && salvos[i].id == x;
          if i > 0 {
            assert salvos[1..][i - 1] == salvos[i];
          }
        }
        forall x | x in Ids(salvos[1..])
          ensures x in Ids(salvos)
        {
          var i :| 0 <= i < |salvos[1..]| && salvos[1..][i].id == x;
          assert salvos[i + 1] == salvos[1..][i];
        }
      }
    }
  }

  /** An entry whose key no saved record carries is left as it was. */
  lemma {:induction false} GuardaPreserva(repositorio: map<string, Simulacao>, salvos: seq<Simulacao>, id: string)
    requires forall i | 0 <= i < |salvos| :: salvos[i].id != id
    requires id in repositorio
    ensures id in Guarda(repositorio, salvos) && Guarda(repositorio, salvos)[id] == repositorio[id]
    decreases |salvos|
  {
    if salvos != [] {
      assert forall i | 0 <= i < |salvos[1..]| :: salvos[1..][i] == salvos[i + 1];
      GuardaPreserva(repositorio[salvos[0].id := salvos[0]], salvos[1..], id);
    }
  }

  /** With distinct ids every saved record ends up stored under its id. */
  lemma {:induction false} GuardaGrava(repositorio: map<string, Simulacao>, salvos: seq<Simulacao>, i: nat)
    requires forall a, b | 0 <= a < b < |salvos| :: salvos[a].id != salvos[b].id
    requires i < |salvos|
    ensures salvos[i].id in Guarda(repositorio, salvos) && Guarda(repositorio, salvos)[salvos[i].id] == salvos[i]
    decreases |salvos|
  {
    var resto := salvos[1..];
    assert forall a | 0 <= a < |resto| :: resto[a] == salvos[a + 1];
    if i == 0 {
      GuardaPreserva(repositorio[salvos[0].id := salvos[0]], resto, salvos[0].id);
    } else {
      GuardaGrava(repositorio[salvos[0].id := salvos[0]], resto, i - 1);
    }
  }

  // ----- the service -----

  /**
    `SimulacaoService`. The repository holds no record under an identifier the
    generator has yet to produce, so every record saved gets a fresh key.
   */
  class SimulacaoService {
    var repositorio: map<string, Simulacao>
    /** How many identifiers `UUID.randomUUID()` has produced so far. */
    var gerados: nat
    const uuid: nat -> string
    const emailService: EmailService

    ghost predicate Valid()
      reads this
    {
      && Injective(uuid)
      && forall j: nat | j >= gerados :: uuid(j) !in repositorio
    }

    constructor (repositorio: map<string, Simulacao>, emailService: EmailService, uuid: nat -> string)
      requires Injective(uuid)
      requires forall j: nat :: uuid(j) !in repositorio
      ensures Valid()
      ensures this.repositorio == repositorio && gerados == 0
      ensures this.emailService == emailService && this.uuid == uuid
    {
      this.repositorio := repositorio;
      gerados := 0;
      this.emailService := emailService;
      this.uuid := uuid;
    }

    /** `UUID.randomUUID().toString()`: the next identifier of the generator. */
    method NovoId() returns (id: string)
      requires Valid()
      modifies this
      ensures id == uuid(old(gerados)) && gerados == old(gerados) + 1
      ensures repositorio == old(repositorio)
      ensures id !in repositorio
    {
      id := uuid(gerados);
      gerados := gerados + 1;
    }

    /** `enviarEmailSeNecessario`: exactly one individual message when the flag is set, none otherwise. */
    method EnviarEmailSeNecessario(enviarEmail: bool, simulacao: Simulacao)
      modifies emailService
      ensures emailService.enviados
              == old(emailService.enviados) + (if enviarEmail then [emailService.MensagemSimulacao(simulacao)] else [])
    {
      if enviarEmail {
        emailService.ConfigurarMailSender(simulacao);
      }
    }

    /**
      `simular`. A rejected request changes nothing and fails with the message
      of the first check it fails. An accepted request draws the next
      identifier, is saved under it, is mailed when `enviarEmail` is set, and
      yields the response of the record `Pricing.Simular` describes.

      The body mirrors `Pricing.Simular` step by step, as the Java method
      computes its values one statement at a time, and then draws the
      identifier, saves and mails; the postcondition ties the two together.
     */
    method Simular(solicitacao: RequestSimulacao, enviarEmail: bool, hoje: Date) returns (r: Result<ResponseSimulacao>)
      requires Valid()
      modifies this, emailService
      ensures Valid()
      ensures var s := Pricing.Simular(solicitacao, hoje, uuid(old(gerados)));
              s.Err? ==>
                && r == Err(s.message)
                && repositorio == old(repositorio) && gerados == old(gerados)
                && emailService.enviados == old(emailService.enviados)
      ensures var s := Pricing.Simular(solicitacao, hoje, uuid(old(gerados)));
              s.Ok? ==>
                && r == Ok(GetResponseSimulacao(s.value))
                && s.value.id !in old(repositorio)
                && repositorio == old(repositorio)[s.value.id := s.value]
                && gerados == old(gerados) + 1
                && emailService.enviados
                   == old(emailService.enviados) + (if enviarEmail then [emailService.MensagemSimulacao(s.value)] else [])
    {
      if solicitacao.valorEmprestimo <= 0.0 || solicitacao.prazoMeses <= 0 {
        return Err(MensagemValorInvalido);
      }
      var idade := WholeYearsBetween(solicitacao.dataNascimento, hoje);
      if idade <= 0 {
        return Err(MensagemDataInvalida);
      }
      var prazoMeses := solicitacao.prazoMeses as real;
      var pmt := CalculaPmt(solicitacao, idade);
      var valorTotal := pmt * prazoMeses;
      var totalJuros := valorTotal - solicitacao.valorEmprestimo;
      var id := NovoId();
      var simulacao := ContruirSimulacao(solicitacao, id, valorTotal, pmt, totalJuros);
      assert idade == WholeYearsBetween(solicitacao.dataNascimento, hoje);
      assert Aceita(solicitacao, hoje);
      assert Pricing.Simular(solicitacao, hoje, id).Ok?;
      assert Pricing.Simular(solicitacao, hoje, id).value.valorParcelaMensal == pmt;
      assert Pricing.Simular(solicitacao, hoje, id).value.valorTotal == valorTotal;
      assert Pricing.Simular(solicitacao, hoje, id).value.id == id;
      assert Pricing.Simular(solicitacao, hoje, id) == Ok(simulacao);
      repositorio := repositorio[simulacao.id := simulacao];
      EnviarEmailSeNecessario(enviarEmail, simulacao);
      r := Ok(GetResponseSimulacao(simulacao));
    }

    /**
      The `flatMap(simular(…, false))` and `collectList` stages of
      `simularEmLote`, run in order: every request is simulated without mail
      until the first failure, which ends the run. The repository and the
      generator end as `Lote` says; no message is sent.
     */
    method SimularTodos(solicitacoes: seq<RequestSimulacao>, hoje: Date) returns (r: Outcome, respostas: seq<ResponseSimulacao>)
      requires Valid()
      modifies this, emailService
      ensures Valid()
      ensures var lote := Lote(solicitacoes, hoje, uuid, old(gerados));
              && r == lote.resultado
              && respostas == Respostas(lote.salvos)
              && gerados == old(gerados) + |lote.salvos|
              && repositorio == Guarda(old(repositorio), lote.salvos)
      ensures emailService.enviados == old(emailService.enviados)
    {
      ghost var de := gerados;
      ghost var repositorio0 := repositorio;
      ghost var salvos: seq<Simulacao> := [];
      respostas := [];
      var i := 0;
      JuntaVazio(Lote(solicitacoes, hoje, uuid, de));
      while i < |solicitacoes|
        invariant 0 <= i <= |solicitacoes|
        invariant Valid()
        invariant |salvos| == i && gerados == de + i
        invariant Lote(solicitacoes, hoje, uuid, de) == Junta(salvos, Lote(solicitacoes[i..], hoje, uuid, de + i))
        invariant respostas == Respostas(salvos)
        invariant repositorio == Guarda(repositorio0, salvos)
        invariant emailService.enviados == old(emailService.enviados)
      {
        var resultado := Simular(solicitacoes[i], false, hoje);
        if resultado.Err? {
          LoteInterrompe(solicitacoes, hoje, uuid, de, salvos, i, resultado.message);
          return Fail(resultado.message), respostas;
        }
        ghost var simulacao := Pricing.Simular(solicitacoes[i], hoje, uuid(de + i)).value;
        LoteAvanca(solicitacoes, hoje, uuid, de, salvos, i, simulacao);
        RespostasAppend(salvos, simulacao);
        GuardaAppend(repositorio0, salvos, simulacao);
        salvos := salvos + [simulacao];
        respostas := respostas + [resultado.value];
        i := i + 1;
      }
      assert solicitacoes[i..] == [];
      JuntaFim(salvos, Lote(solicitacoes[i..], hoje, uuid, de + i));
      r := Pass;
    }

    /**
      `simularEmLote`. The repository ends as `Lote` says, with the records of
      the requests before the first failure saved. When every request is
      accepted exactly one summary is sent, listing the responses of the saved
      records (in some order); when one is rejected no message is sent at all.
     */
    method SimularEmLote(solicitacoes: seq<RequestSimulacao>, hoje: Date) returns (r: Outcome, ghost resultados: seq<ResponseSimulacao>)
      requires Valid()
      modifies this, emailService
      ensures Valid()
      ensures var lote := Lote(solicitacoes, hoje, uuid, old(gerados));
              && r == lote.resultado
              && gerados == old(gerados) + |lote.salvos|
              && repositorio == Guarda(old(repositorio), lote.salvos)
              && (r == Pass ==>
                    && multiset(resultados) == multiset(Respostas(lote.salvos))
                    && emailService.enviados == old(emailService.enviados)
                       + [emailService.MensagemLote(CorpoEmailLote(emailService.marcacao, emailService.formatoDecimal, resultados))])
              && (r.Fail? ==> emailService.enviados == old(emailService.enviados))
    {
      var respostas;
      r, respostas := SimularTodos(solicitacoes, hoje);
      resultados := respostas;
      if r == Pass {
        var corpoEmail := emailService.MontarCorpoEmailLote(respostas);
        emailService.EnviarEmailLote(corpoEmail);
      }
    }

    /** `buscarSimulacaoPorId`: the stored record, or the not-found error naming the id. */
    method BuscarSimulacaoPorId(id: string) returns (r: Result<Simulacao>)
      ensures id in repositorio ==> r == Ok(repositorio[id])
      ensures id !in repositorio ==> r == Err(MensagemNaoEncontrada + id)
    {
      if id !in repositorio {
        return Err(MensagemNaoEncontrada + id);
      }
      r := Ok(repositorio[id]);
    }
  }

  /** One step of the batch: the run from the `i`-th request on is that request's outcome followed by the run from the next. */
  lemma LoteSegue(solicitacoes: seq<RequestSimulacao>, hoje: Date, uuid: nat -> string, de: nat, i: nat)
    requires i < |solicitacoes|
    ensures var resto := Lote(solicitacoes[i..], hoje, uuid, de + i);
            match Pricing.Simular(solicitacoes[i], hoje, uuid(de + i))
            case Err(mensagem) => resto == ExecucaoLote([], Fail(mensagem))
            case Ok(simulacao) =>
              var seguinte := Lote(solicitacoes[i + 1..], hoje, uuid, de + i + 1);
              resto == ExecucaoLote([simulacao] + seguinte.salvos, seguinte.resultado)
  {
    assert solicitacoes[i..][0] == solicitacoes[i];
    assert solicitacoes[i..][1..] == solicitacoes[i + 1..];
  }

  /** The loop of `SimularTodos` one request further: an accepted request moves its record to the saved part. */
  lemma LoteAvanca(solicitacoes: seq<RequestSimulacao>, hoje: Date, uuid: nat -> string, de: nat, salvos: seq<Simulacao>, i: nat, simulacao: Simulacao)
    requires i < |solicitacoes|
    requires Lote(solicitacoes, hoje, uuid, de) == Junta(salvos, Lote(solicitacoes[i..], hoje, uuid, de + i))
    requires Pricing.Simular(solicitacoes[i], hoje, uuid(de + i)) == Ok(simulacao)
    ensures Lote(solicitacoes, hoje, uuid, de) == Junta(salvos + [simulacao], Lote(solicitacoes[i + 1..], hoje, uuid, de + i + 1))
  {
    LoteSegue(solicitacoes, hoje, uuid, de, i);
    JuntaPasso(salvos, simulacao, Lote(solicitacoes[i + 1..], hoje, uuid, de + i + 1));
  }

  /** The loop of `SimularTodos` stopped by a rejected request: the whole run fails with its message. */
  lemma LoteInterrompe(solicitacoes: seq<RequestSimulacao>, hoje: Date, uuid: nat -> string, de: nat, salvos: seq<Simulacao>, i: nat, mensagem: string)
    requires i < |solicitacoes|
    requires Lote(solicitacoes, hoje, uuid, de) == Junta(salvos, Lote(solicitacoes[i..], hoje, uuid, de + i))
    requires Pricing.Simular(solicitacoes[i], hoje, uuid(de + i)) == Err(mensagem)
    ensures Lote(solicitacoes, hoje, uuid, de) == ExecucaoLote(salvos, Fail(mensagem))
  {
    LoteSegue(solicitacoes, hoje, uuid, de, i);
    JuntaFalha(salvos, mensagem);
  }

  /** The run of a whole batch seen from inside it: the records saved so far, then the run of the requests still to come. */
  function Junta(salvos: seq<Simulacao>, resto: ExecucaoLote): ExecucaoLote
  {
    ExecucaoLote(salvos + resto.salvos, resto.resultado)
  }

  lemma JuntaVazio(e: ExecucaoLote)
    ensures e == Junta([], e)
  {
    assert [] + e.salvos == e.salvos;
  }

  lemma JuntaPasso(salvos: seq<Simulacao>, s: Simulacao, resto: ExecucaoLote)
    ensures Junta(salvos, ExecucaoLote([s] + resto.salvos, resto.resultado)) == Junta(salvos + [s], resto)
  {
    assert salvos + ([s] + resto.salvos) == salvos + [s] + resto.salvos;
  }

  lemma JuntaFalha(salvos: seq<Simulacao>, mensagem: string)
    ensures Junta(salvos, ExecucaoLote([], Fail(mensagem))) == ExecucaoLote(salvos, Fail(mensagem))
  {
    assert salvos + [] == salvos;
  }

  lemma JuntaFim(salvos: seq<Simulacao>, resto: ExecucaoLote)
    requires resto.resultado == Pass && resto.salvos == []
    ensures Junta(salvos, resto) == ExecucaoLote(salvos, Pass)
  {
    assert salvos + [] == salvos;
  }

  lemma RespostasAppend(salvos: seq<Simulacao>, s: Simulacao)
    ensures Respostas(salvos + [s]) == Respostas(salvos) + [GetResponseSimulacao(s)]
    decreases |salvos|
  {
    if salvos == [] {
      assert [s][1..] == [];
    } else {
      assert (salvos + [s])[1..] == salvos[1..] + [s];
      RespostasAppend(salvos[1..], s);
    }
  }
}
