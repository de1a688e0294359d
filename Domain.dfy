/**
  The records exchanged by the simulation service: the request, the
  persisted simulation and the response returned to callers, together with
  the result type that stands for a `Mono` that either emits a value or
  fails with an exception message.
 */
module Domain {
  import opened Calendar

  /** Values of a Java `int`. */
  type Int32 = x: int | -0x8000_0000 <= x < 0x8000_0000

  /** The rate type selector. `SimulacaoService` distinguishes only `FIXA`; every other constant behaves alike. */
  datatype TipoTaxa = FIXA | Other

  /** `RequestSimulacao`: amount (a `double`, here a real), birth date, term in months and rate type. */
  datatype RequestSimulacao = RequestSimulacao(
    valorEmprestimo: real,
    dataNascimento: Date,
    prazoMeses: Int32,
    tipoTaxa: TipoTaxa)

  /** `Simulacao`: the persisted record, keyed by `id`. */
  datatype Simulacao = Simulacao(
    id: string,
    valorEmprestimo: real,
    dataNascimento: Date,
    prazoMeses: Int32,
    valorTotal: real,
    valorParcelaMensal: real,
    totalJuros: real)

  /** `ResponseSimulacao`: the record handed back to callers (the same seven values, amounts first). */
  datatype ResponseSimulacao = ResponseSimulacao(
    id: string,
    valorTotal: real,
    valorParcelaMensal: real,
    totalJuros: real,
    valorEmprestimo: real,
    dataNascimento: Date,
    prazoMeses: Int32)

  /** A computation that yields a value or fails with the message of the exception it raises. */
  datatype Result<T> = Ok(value: T) | Err(message: string)

  /** A computation without a value (`Mono<Void>`): it completes or fails with a message. */
  datatype Outcome = Pass | Fail(message: string)
}
