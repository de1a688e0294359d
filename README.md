# testeCreditas credit simulation, modelled in Dafny

This project models the core of the `testeCreditas` credit-simulation
service, `SimulacaoService` and `EmailService`, and proves its properties.

## `SimulacaoService.simular`

A request (loan amount, birth date, term in months, rate type) is checked in
two steps:

- the amount and the term must be positive;
- the borrower's whole-year age must be positive.

A request that fails a check gets the message of the first check it fails.

An accepted request is then priced:

1. The age selects an annual rate from an ordered band table.
2. Any rate type other than `FIXA` pays one point more.
3. The annual rate becomes a monthly rate.
4. The fixed installment (PMT) gives the total and the interest.
5. The resulting record is saved under a fresh UUID.
6. When the flag is set, a message is sent to the configured address, which is also the sender.

## `SimulacaoService.simularEmLote`

`simularEmLote` runs `simular` without e-mail over a list of requests. Any
rejected request makes the whole batch fail, and then no summary is sent.
Otherwise exactly one summary e-mail is sent, listing the responses.

## `SimulacaoService.buscarSimulacaoPorId`

`buscarSimulacaoPorId` returns the stored record. A missing id gives an error
that names the id.

## `EmailService`

`EmailService` builds two HTML bodies:

- the individual body, a fixed template;
- the batch body, built append-only with a `StringBuilder`.

Its two send operations each hand exactly one message to the mail sender.

## Modules

| module | contents |
|---|---|
| `Calendar` | dates and `Period.between(…).getYears()`, with Java's truncating division |
| `Domain` | the request, record and response records; `Result` and `Outcome` |
| `Pricing` | the pure part of `simular`: validation, rate table, rate type, monthly rate, PMT, record and response |
| `Amortization` | an independent definition of the outstanding balance, against which the PMT formula is proved to repay the loan exactly |
| `TagCount` and `Markup` | counting `<tr>` in HTML text, and the tags, cells and rows both bodies are made of |
| `Email` | both bodies, the builder loop, and the `EmailService` class with its log of sent messages |
| `Service` | the batch as a value (`Lote`), saving into the repository (`Guarda`), and the `SimulacaoService` class |

## How the model stands in for the Java service

- Money and rates are `real`s in place of `double`s. `Math.pow(1 + r, -n)` is `1 / Power(1 + r, n)` over a natural exponent.
- The current date is a parameter `hoje`.
- `UUID.randomUUID()` is a fixed injective sequence `uuid` of identifiers. The service has drawn the first `gerados` of them, and no stored record uses one it has yet to draw.
- The repository is a `map<string, Simulacao>`.
- The mail sender is a ghost log `enviados` of the messages it was handed.
- The number formats `%.2f` and `DecimalFormat("#.##")` are uninterpreted functions `real -> string`.
- The fixed text of both bodies is one `Marcacao` value. The bodies and their structure are proved for any well-formed markup. `MarcacaoFonte` is the markup `EmailService` writes, and `MarcacaoFonteBemFormada` shows that it is well formed.
- The batch is run sequentially. The e-mailed list is stated only up to permutation, because `flatMap` does not keep order.

## Model

| member | source | states |
|---|---|---|
| Calendar.WholeYearsBetween | src/main/java/com/example/testecreditas/application/service/SimulacaoService.java:44 | defines `Period.between(…).getYears()` as java.time computes it: the months between the two proleptic month numbers, moved one month toward zero when the difference of the days of month points the other way, divided by 12 truncating toward zero |
| Calendar.YearsFromCalendar | src/main/java/com/example/testecreditas/application/service/SimulacaoService.java:44 | the age `Period.between(…).getYears()` gives: for a birth date on or before today, the difference of the years, one less while today is earlier in its year than the birthday; for a later birth date, the negative difference of the years, one more while the birth date is earlier in its year than today |
| Calendar.JavaQuotient | src/main/java/com/example/testecreditas/application/service/SimulacaoService.java:44 | the year count of the age truncates toward zero: it is the floor for non-negative months and the ceiling for negative ones |
| Calendar.AtLeastYearsIff | src/main/java/com/example/testecreditas/application/service/SimulacaoService.java:44 | for every k >= 1, the age is at least k exactly when the k-th anniversary of the birth date has been reached |
| Calendar.AgePositiveIff | src/main/java/com/example/testecreditas/application/service/SimulacaoService.java:44-48 | the age check passes exactly when the first birthday is behind the borrower |
| Calendar.FutureBirthDateHasNoAge | src/main/java/com/example/testecreditas/application/service/SimulacaoService.java:44-47 | a birth date after today always fails the age check |
| Pricing.CalcularTaxaAnual | src/main/java/com/example/testecreditas/application/service/SimulacaoService.java:138-143 | the annual base rate lies between 2 and 5 percent |
| Pricing.TaxaAnualIsFirstMatch | src/main/java/com/example/testecreditas/application/service/SimulacaoService.java:138-143 | `calcularTaxaAnual` is the first-match lookup in the table 25→5, 40→3, 60→2, with 4 above the last band |
| Pricing.TaxaAnualBoundaries | src/main/java/com/example/testecreditas/application/service/SimulacaoService.java:139-142 | 25/26 give 5/3, 40/41 give 3/2 and 60/61 give 2/4 |
| Pricing.ValidaTipoTaxa | src/main/java/com/example/testecreditas/application/service/SimulacaoService.java:113-121 | `FIXA` adds nothing to the base rate and every other type adds exactly 1 |
| Pricing.TaxaAnual | src/main/java/com/example/testecreditas/application/service/SimulacaoService.java:101-102 | the annual rate of a request is the rate of the first band of the table 25→5, 40→3, 60→2 (4 above) that holds the age, plus 0 for `FIXA` and 1 for every other type |
| Pricing.TaxaAnualRange | src/main/java/com/example/testecreditas/application/service/SimulacaoService.java:101-102 | the final annual rate lies in [2, 6], and a non-`FIXA` request pays exactly one point more than the same request on `FIXA` |
| Pricing.TaxaMensal | src/main/java/com/example/testecreditas/application/service/SimulacaoService.java:104 | the monthly rate times 1200 is the annual percentage |
| Pricing.TaxaMensalPositive | src/main/java/com/example/testecreditas/application/service/SimulacaoService.java:104-107 | the monthly rate is always positive, so the zero-rate branch of `calculaPmt` is unreachable |
| Pricing.ExampleAge34Fixed | src/main/java/com/example/testecreditas/application/service/SimulacaoService.java:101-104 | a worked example, beside the general band lemmas: a 34-year-old on `FIXA` pays 3% a year, 0.25% a month |
| Pricing.PowerAboveOne | src/main/java/com/example/testecreditas/application/service/SimulacaoService.java:109 | (1 + r)^n > 1 for r > 0 and n >= 1, so the PMT denominator 1 - (1 + r)^-n is positive |
| Pricing.ParcelaNaTaxa | src/main/java/com/example/testecreditas/application/service/SimulacaoService.java:106-109 | at rate zero the installments add up to the principal; at any non-negative rate the installment is positive exactly when the principal is |
| Pricing.CalculaPmt | src/main/java/com/example/testecreditas/application/service/SimulacaoService.java:100-111 | the installment is positive exactly when the amount is |
| Pricing.ContruirSimulacao | src/main/java/com/example/testecreditas/application/service/SimulacaoService.java:88-98 | the record copies the amount, birth date and term of the request, and carries the given id, total, installment and interest |
| Pricing.GetResponseSimulacao | src/main/java/com/example/testecreditas/application/service/SimulacaoService.java:76-86 | the response loses nothing: reading it back gives the record |
| Pricing.ResponseRoundTrip | src/main/java/com/example/testecreditas/application/service/SimulacaoService.java:76-86 | the response of a record read back from a response is that response |
| Pricing.Simular | src/main/java/com/example/testecreditas/application/service/SimulacaoService.java:40-56 | a non-positive amount or term gives the amount message before the age is looked at; otherwise a non-positive age gives the birth-date message; a success copies the request, carries the id and the installment at the request's rate, and is consistent (total = installment × term, interest = total − amount) |
| Pricing.SimularOkIff | src/main/java/com/example/testecreditas/application/service/SimulacaoService.java:40-48 | a request succeeds exactly when the amount and the term are positive and the first birthday has passed |
| Pricing.SimularDeterministic | src/main/java/com/example/testecreditas/application/service/SimulacaoService.java:50-56 | two simulations of the same request differ only in their identifier |
| Amortization.BalanceAtZeroRate | src/main/java/com/example/testecreditas/application/service/SimulacaoService.java:106-107 | at rate zero the balance falls by one installment a month |
| Amortization.BalanceClosedForm | src/main/java/com/example/testecreditas/application/service/SimulacaoService.java:108-109 | closed form of the outstanding balance after k months at a fixed rate and installment |
| Amortization.ParcelaAmortizes | src/main/java/com/example/testecreditas/application/service/SimulacaoService.java:106-109 | at any non-negative monthly rate, the installment brings the balance to exactly zero at the end of the term |
| Amortization.ParcelaEquation | src/main/java/com/example/testecreditas/application/service/SimulacaoService.java:108-109 | at a positive rate the installment solves pmt × (1 − (1 + r)^−n) = principal × r |
| Amortization.CompoundBelowSimple | src/main/java/com/example/testecreditas/application/service/SimulacaoService.java:109 | (1 + r)^n − 1 < n × r × (1 + r)^n for r > 0 and n >= 1 |
| Amortization.ParcelaAboveEvenSplit | src/main/java/com/example/testecreditas/application/service/SimulacaoService.java:106-109 | at a positive rate the installments add up to more than the principal |
| Amortization.SimularAmortizes | src/main/java/com/example/testecreditas/application/service/SimulacaoService.java:50-56 | every accepted simulation is repaid exactly by its installments at its own monthly rate |
| Amortization.SimularChargesInterest | src/main/java/com/example/testecreditas/application/service/SimulacaoService.java:53-54 | every accepted simulation has a total above the amount and positive interest |
| Service.AceitaIff | src/main/java/com/example/testecreditas/application/service/SimulacaoService.java:40-48 | `simular` succeeds exactly on the requests that pass both checks, whatever id it is given |
| Service.Lote | src/main/java/com/example/testecreditas/application/service/SimulacaoService.java:128-130 | defines the batch run in order: each accepted request saves its record under the next identifier, and the first rejected one ends the run with its message; `LoteSalvos` and `LoteTermino` state what it yields |
| Service.LoteSalvos | src/main/java/com/example/testecreditas/application/service/SimulacaoService.java:128-129 | the i-th saved record of a batch is the simulation of the i-th request with the i-th fresh identifier |
| Service.LoteTermino | src/main/java/com/example/testecreditas/application/service/SimulacaoService.java:128-130 | a batch passes exactly when every request produced a record; otherwise it fails with the message of the request right after the saved ones |
| Service.LotePassaIff | src/main/java/com/example/testecreditas/application/service/SimulacaoService.java:128-130 | a batch passes exactly when every request in it passes both checks |
| Service.LoteFalhaNoPrimeiro | src/main/java/com/example/testecreditas/application/service/SimulacaoService.java:128-130 | a failing batch fails with the message of its first rejected request, and every request before it is accepted |
| Service.LoteIdsDistintos | src/main/java/com/example/testecreditas/application/service/SimulacaoService.java:88-90 | the records of one batch carry pairwise distinct identifiers |
| Service.Respostas | src/main/java/com/example/testecreditas/application/service/SimulacaoService.java:58-59 | one response per saved record, in order, and each reads back as its record |
| Service.Guarda | src/main/java/com/example/testecreditas/application/service/SimulacaoService.java:58 | defines the repository after the records are saved one after the other, a later save under an id replacing an earlier one; the `Guarda…` lemmas state what it holds |
| Service.GuardaAppend | src/main/java/com/example/testecreditas/application/service/SimulacaoService.java:58 | saving one more record updates the repository under that record's id |
| Service.GuardaChaves | src/main/java/com/example/testecreditas/application/service/SimulacaoService.java:58 | after saving a list, the keys are the old keys plus the ids of the list |
| Service.GuardaPreserva | src/main/java/com/example/testecreditas/application/service/SimulacaoService.java:58 | a stored record whose id no saved record uses is kept unchanged |
| Service.GuardaGrava | src/main/java/com/example/testecreditas/application/service/SimulacaoService.java:58 | with distinct ids, every saved record can be found under its id |
| Service.SimulacaoService.constructor | src/main/java/com/example/testecreditas/application/service/SimulacaoService.java:32-35 | the service holds the given repository and mail service, and has drawn no identifier yet |
| Service.SimulacaoService.NovoId | src/main/java/com/example/testecreditas/application/service/SimulacaoService.java:90 | the next identifier of the generator, not used by any stored record; the repository is unchanged |
| Service.SimulacaoService.EnviarEmailSeNecessario | src/main/java/com/example/testecreditas/application/service/SimulacaoService.java:68-74 | exactly one individual message when the flag is set, and none otherwise |
| Service.SimulacaoService.Simular | src/main/java/com/example/testecreditas/application/service/SimulacaoService.java:38-66 | on rejection: the first failing check's message, nothing saved, no identifier drawn, no mail; on acceptance: the record is saved under a fresh id not present before, the response is that record's, and one mail is sent exactly when the flag is set |
| Service.SimulacaoService.SimularTodos | src/main/java/com/example/testecreditas/application/service/SimulacaoService.java:128-130 | the sequential `flatMap(simular(…, false))` and `collectList`: the outcome, the collected responses, the identifiers drawn and the repository are those of `Lote`, and no message is sent |
| Service.SimulacaoService.SimularEmLote | src/main/java/com/example/testecreditas/application/service/SimulacaoService.java:127-136 | the outcome and the repository are those of `Lote`; on success exactly one summary is sent, whose rows are a permutation of the responses of the saved records; on failure no message at all |
| Service.SimulacaoService.BuscarSimulacaoPorId | src/main/java/com/example/testecreditas/application/service/SimulacaoService.java:145-151 | a stored id gives exactly the stored record; a missing one gives "Simulação não encontrada para o ID: " followed by the id |
| Email.LinhaLote | src/main/java/com/example/testecreditas/application/service/EmailService.java:107-112 | defines the data row of one result: a `<tr>` with four cells holding the id and the three formatted amounts, in that order |
| Email.LinhasLote | src/main/java/com/example/testecreditas/application/service/EmailService.java:106-113 | defines the data rows of a list: the row of each result, in list order |
| Email.CorpoEmailLote | src/main/java/com/example/testecreditas/application/service/EmailService.java:93-119 | the batch body opens with the header and closes with the footer, its data rows in between |
| Email.LinhasConcat | src/main/java/com/example/testecreditas/application/service/EmailService.java:106-113 | the rows of two lists one after the other are the rows of the joined list |
| Email.CorpoLoteVazio | src/main/java/com/example/testecreditas/application/service/EmailService.java:93-119 | an empty list gives exactly the header followed by the footer |
| Email.CorpoLoteAppend | src/main/java/com/example/testecreditas/application/service/EmailService.java:93-119 | the body for xs + [x] is the body for xs with the row of x inserted right before the footer, and all earlier text unchanged |
| Email.CorpoLoteLinhaEm | src/main/java/com/example/testecreditas/application/service/EmailService.java:106-113 | the row of the i-th result appears in the body right after the header and the rows of the results before it |
| Email.MontagemInicial | src/main/java/com/example/testecreditas/application/service/EmailService.java:93-105 | the builder starts with the header and the rows of no result |
| Email.MontagemPasso | src/main/java/com/example/testecreditas/application/service/EmailService.java:107-112 | appending the i-th row extends the body built for the first i results to the body for the first i + 1 |
| Email.LinhaHasOneRowTag | src/main/java/com/example/testecreditas/application/service/EmailService.java:107-112 | a data row whose values hold no markup holds exactly one `<tr>` |
| Email.LinhasCountRows | src/main/java/com/example/testecreditas/application/service/EmailService.java:106-113 | the data rows of a list hold exactly one `<tr>` per result |
| Email.CorpoLoteCountsRows | src/main/java/com/example/testecreditas/application/service/EmailService.java:93-119 | the batch body holds the heading row plus exactly one `<tr>` per result |
| Email.CorpoEmail | src/main/java/com/example/testecreditas/application/service/EmailService.java:70-88 | the individual body opens with the fixed opening and the ID row and closes with the fixed closing; by definition the rows ID, Valor Total, Parcela Mensal and Total Juros come in that order |
| Email.LinhasRotuladasCountRows | src/main/java/com/example/testecreditas/application/service/EmailService.java:75-78 | labelled rows whose labels and values hold no markup hold exactly one `<tr>` per field, and end with a tag |
| Email.CorpoEmailCountsRows | src/main/java/com/example/testecreditas/application/service/EmailService.java:70-88 | the individual body, the fixed opening, the rows ID, Valor Total, Parcela Mensal and Total Juros holding the id and the three formatted amounts, and the fixed closing, holds exactly those four `<tr>` rows |
| Email.CabecalhoHasOneRowTag | src/main/java/com/example/testecreditas/application/service/EmailService.java:94-105 | the batch header `EmailService` writes holds one `<tr>`, the column headings, and ends with a tag |
| Email.RodapeHasNoRowTag | src/main/java/com/example/testecreditas/application/service/EmailService.java:114-117 | the batch footer `EmailService` writes holds no `<tr>` and starts with a tag |
| Email.MarcacaoFonteBemFormada | src/main/java/com/example/testecreditas/application/service/EmailService.java:72-117 | the markup `EmailService` writes is well formed, so the row counts above hold for the bodies it sends |
| Email.EmailService.constructor | src/main/java/com/example/testecreditas/application/service/EmailService.java:23-27 | sender and recipient are the same configured address; the markup `EmailService` writes; nothing sent yet |
| Email.EmailService.MensagemSimulacao | src/main/java/com/example/testecreditas/application/service/EmailService.java:36-45 | defines the individual message: the configured sender and recipient, the subject "Sua simulação foi realizada", and the individual body of the record |
| Email.EmailService.MensagemLote | src/main/java/com/example/testecreditas/application/service/EmailService.java:54-62 | defines the batch message: the configured sender and recipient, the subject "Resumo das Simulações - Lote", and the given body |
| Email.EmailService.ConfigurarMailSender | src/main/java/com/example/testecreditas/application/service/EmailService.java:34-50 | exactly one message is handed to the sender: the configured sender and recipient, the individual subject, and the individual body of the record |
| Email.EmailService.EnviarEmailLote | src/main/java/com/example/testecreditas/application/service/EmailService.java:52-67 | exactly one message is handed to the sender: the batch subject and the given body |
| Email.EmailService.MontarCorpoEmailLote | src/main/java/com/example/testecreditas/application/service/EmailService.java:90-120 | the `StringBuilder` loop returns the header, one row per result in list order, and the footer |
| Markup.Linha4TemUmaLinha | src/main/java/com/example/testecreditas/application/service/EmailService.java:98-103 | a row of four cells whose tags and texts hold no row tag holds exactly one `<tr>` |
| Markup.LinhaRotuladaTemUmaLinha | src/main/java/com/example/testecreditas/application/service/EmailService.java:75-78 | a labelled row of the individual body holds exactly one `<tr>` |

## Left out

- `buscarTodas` (`repositorio.findAll()`) only forwards the whole repository. The repository map is the model's view of it.
- Both `SimulacaoController` classes and `TestecreditasApplication`: HTTP routing and process startup.
- `RepositorioSimulacao`: persistence mechanics are not modelled. A save is a map update and a lookup is a map read.
- Mail transport:
  - `JavaMailSender`, `MimeMessage` and `MimeMessageHelper` are left out.
  - A send is an append to the message log.
  - The model has no failing send. Only `enviarEmailLote` catches every exception of a send and logs it. `configurarMailSender` catches only `MessagingException`, so the unchecked `MailException` of a failed send reaches `simular`.
- Floating point. Amounts and rates are exact reals, so `double` rounding and the precision of `Math.pow` are not captured. Nothing is stated about numeric approximations of the results.
- The number formats `%.2f` and `DecimalFormat("#.##")` are uninterpreted. The row counts hold when the formatted amounts and the ids hold no `<`.
- Logging.
- `Service.SimulacaoService.Simular`: with the flag set, a failed individual send throws out of `simular` before it returns the lazy save, so the caller gets an exception and no record is stored. The model always sends successfully.
- `Service.SimulacaoService.Simular`: a request without a birth date makes `Period.between` throw `NullPointerException` instead of failing with "Data de nascimento inválida.". `Calendar.Date` always holds a date, so the model cannot express a missing one.
- `Service.SimulacaoService.Simular`: `repositorio.save` is lazy in `SimulacaoService` and runs only when the returned `Mono` is subscribed, while the e-mail is sent at once. The model saves first and then mails, and does not capture a mail sent for a save that never runs.
- `Service.SimulacaoService.SimularEmLote`: the batch is sequential.
  - Reactor scheduling, the concurrency of `flatMap` and the cancelling of saves already in flight when an item fails are not modelled.
  - The records before the first rejected request stay saved.
  - The order of the e-mailed list is stated only up to permutation.
- `UUID.randomUUID()` is an injective sequence of identifiers. That no UUID is ever produced twice is a precondition of the service.
- `LocalDate.now()` is the parameter `hoje`.
- Calendar validity beyond the ranges of month and day (for example 31 February) is not checked. `Period.between` is modelled on the year, month and day fields as they are.
- `Pricing.ParcelaNaTaxa` requires a non-negative monthly rate. This model does not state the formula for negative rates, which the band table never produces.
- The `TipoTaxa` enumeration is not part of this model. Only `FIXA` is distinguished, and every other value is `Other`.
- `SimulacaoServiceTest` uses a constructor and a request shape the current code no longer has. Only the error messages it asserts are reflected here.
