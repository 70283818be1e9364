# VibeCheck practice sessions, in Dafny

VibeCheck is a classroom back end. A professor issues short-lived evaluation codes for a class, one
code for check-in and one for check-out. A student submits an emotion (a `RegistroEmocional`) with
such a code. A check-in opens a practice session (`Pratica`) for the pair (student, class), and a
check-out closes it. The session then carries its duration and is rendered as `HH:MM:SS`.
Sessions are listed through a registry of five listing strategies, which return summary DTOs.

This project models the following parts:

- the `Pratica` entity, as a class with `abrir` and `fechar`, and its persisted row;
- the session service, as a class over a sequence of session objects, with `abrirPratica`,
  `fecharPratica` and the listing facades;
- the session repository's derived queries, as filter and sort functions over the rows;
- the strategy registry and its five strategies;
- the two DTO projections of a session;
- the evaluation-code repository;
- the submission, code and class services, over a shared in-memory database (`Banco.BancoDeDados`).

Time is an integer number of seconds, and each service method takes the current time as a
parameter `agora`. A failing call, which throws in the original, returns an `Err`/`Fail` value
naming the exception.

Modules, by program structure:

| module | file |
|---|---|
| `Base` | `base.dfy` |
| `Entidades` | `entidades.dfy` |
| `Sequencias` | `sequencias.dfy` |
| `PraticaModelo` | `pratica.dfy` |
| `PraticaRepositorio` | `pratica_repositorio.dfy` |
| `PraticaResumo` | `praticaresumo.dfy` |
| `PraticaDetalhe` | `praticadetalhe.dfy` |
| `ListagemInterface` | `listagem_interface.dfy` |
| `Estrategia*` | `estrategia_*.dfy` |
| `ListagemContexto` | `listagem_contexto.dfy` |
| `PraticaServico` | `pratica_servico.dfy` |
| `Repositorios` | `repositorios.dfy` |
| `CodigoRepositorio` | `codigo_repositorio.dfy` |
| `Banco` | `banco.dfy` |
| `RegistroServico` | `registro_servico.dfy` |
| `CodigoServico` | `codigo_servico.dfy` |
| `TurmaServico` | `turma_servico.dfy` |

Where the code and the system's documented design differ, the model follows the code:

- The auto-close in `abrirPratica` stamps the end with the current clock, not with the check-in's
  timestamp (`PraticaService.java:47`).
- `fechar` accepts a check-out earlier than the start, and stores a negative duration
  (`Pratica.java:101`). Such a duration is rendered with Java's truncating `/` and `%`.
- `registrarEmocao` never opens or closes a session.
- Only the queries that say `OrderBy…Desc` are ordered. The `…InicioBetween` queries keep store order.
- The "all sessions" strategy lists the sessions of class id 1 (`TodasPraticasStrategy.java:53`).
- The virtual check-out is never saved, so it has no id. The detailed DTO of a session closed that
  way shows a null `checkoutRegistroId`, although the session is `FECHADA`.
- `gerarCodigo` may create the class first and then fail on the save of the code. The created class
  stays saved: there is no transaction.

## Model

| member | source | states |
|---|---|---|
| PraticaModelo.Pratica.Abrir | src/main/java/com/vibecheck/VibeCheck_Backend/models/Pratica.java:85-91 | check-in, start, initial emotion, student and class are taken from the check-in record; id, check-out, end, final emotion and duration keep their values |
| PraticaModelo.Pratica.Fechar | src/main/java/com/vibecheck/VibeCheck_Backend/models/Pratica.java:97-102 | check-out, end and final emotion come from the record; the duration is end minus start, negative allowed; student, class, check-in, start and initial emotion are unchanged; a persisted entity's row becomes that row closed with the record |
| PraticaModelo.Pratica.Linha | src/main/java/com/vibecheck/VibeCheck_Backend/models/Pratica.java:108-126 | the entity's `isAberta` and `getDuracaoFormatada` are its row's: open exactly while it has no check-out, and the text of its own duration |
| PraticaModelo.PraticaLinha.IsAberta | src/main/java/com/vibecheck/VibeCheck_Backend/models/Pratica.java:108-110 | open means no check-out; a coherent row is open exactly when it has no end, no final emotion and no duration |
| PraticaModelo.PraticaLinha.DuracaoFormatada | src/main/java/com/vibecheck/VibeCheck_Backend/models/Pratica.java:116-126 | a coherent row shows "Em andamento" exactly while it is open |
| PraticaModelo.PraticaLinha.Fechada | src/main/java/com/vibecheck/VibeCheck_Backend/models/Pratica.java:97-110 | a closed row is not open; its closing columns are all set, its duration is the check-out time minus the start, and every other column is kept |
| PraticaModelo.AbertaDe | src/main/java/com/vibecheck/VibeCheck_Backend/models/Pratica.java:85-91 | the row saved for a freshly opened session is open, coherent, and copies the check-in's record, time, emotion, student and class, with no end, final emotion or duration |
| PraticaModelo.Quociente | src/main/java/com/vibecheck/VibeCheck_Backend/models/Pratica.java:121-122 | Java's long division, which truncates toward zero, on either sign |
| PraticaModelo.Resto | src/main/java/com/vibecheck/VibeCheck_Backend/models/Pratica.java:122-123 | Java's remainder: the dividend is quotient times divisor plus remainder, and the remainder takes the dividend's sign |
| PraticaModelo.DoisDigitos | src/main/java/com/vibecheck/VibeCheck_Backend/models/Pratica.java:125 | `%02d` gives at least two characters; exactly two digits for 0..99; a minus sign first for a negative value |
| PraticaModelo.FormatarDuracao | src/main/java/com/vibecheck/VibeCheck_Backend/models/Pratica.java:116-126 | a null duration renders as "Em andamento"; a non-negative one as `HH:MM:SS`, digit fields with two digits for minutes and seconds |
| PraticaModelo.CamposDoRelogio | src/main/java/com/vibecheck/VibeCheck_Backend/models/Pratica.java:121-125 | for a non-negative duration, the three `%02d` fields joined by colons have the `HH:MM:SS` shape |
| PraticaModelo.EmAndamentoSeESoSeNula | src/main/java/com/vibecheck/VibeCheck_Backend/models/Pratica.java:116-119 | the duration text is "Em andamento" exactly when the duration is null |
| PraticaModelo.DecomposicaoDuracao | src/main/java/com/vibecheck/VibeCheck_Backend/models/Pratica.java:121-123 | for a non-negative duration the fields are d/3600, (d%3600)/60 and d%60; minutes and seconds are below 60, and h*3600+m*60+s = d |
| PraticaModelo.LerFormatarDuracao | src/main/java/com/vibecheck/VibeCheck_Backend/models/Pratica.java:116-126 | reading the rendered text back gives the duration again, for null and for every non-negative duration |
| PraticaModelo.FormatoDeExemplo | src/main/java/com/vibecheck/VibeCheck_Backend/models/Pratica.java:121-125 | 3725 seconds render as "01:02:05" |
| PraticaModelo.FormatoDeDuracaoNegativa | src/main/java/com/vibecheck/VibeCheck_Backend/models/Pratica.java:101-125 | the unchecked duration -3725 renders as "-1:-2:-5" |
| PraticaModelo.FormatoDeMinutoNegativo | src/main/java/com/vibecheck/VibeCheck_Backend/models/Pratica.java:121-125 | -60 seconds render as "00:-1:00": only the minutes field is negative |
| PraticaRepositorio.FindFirstByAlunoAndTurmaAndCheckoutIsNullOrderByInicioDesc | src/main/java/com/vibecheck/VibeCheck_Backend/repositories/PraticaRepository.java:24-32 | the position found holds an open session of the student and class, with a start no earlier than that of any other; none is found exactly when no such session exists |
| PraticaRepositorio.FindByAlunoOrderByInicioDesc | src/main/java/com/vibecheck/VibeCheck_Backend/repositories/PraticaRepository.java:40 | exactly the student's sessions, each as often as in the store, latest start first |
| PraticaRepositorio.FindByTurmaOrderByInicioDesc | src/main/java/com/vibecheck/VibeCheck_Backend/repositories/PraticaRepository.java:48 | exactly the class's sessions, each as often as in the store, latest start first |
| PraticaRepositorio.FindByAlunoAndInicioBetween | src/main/java/com/vibecheck/VibeCheck_Backend/repositories/PraticaRepository.java:58 | exactly the student's sessions whose start lies in the closed period, each as often as in the store |
| PraticaRepositorio.FindByTurmaAndInicioBetween | src/main/java/com/vibecheck/VibeCheck_Backend/repositories/PraticaRepository.java:68 | exactly the class's sessions whose start lies in the closed period, each as often as in the store |
| PraticaRepositorio.FindByTurmaAndCheckoutIsNullOrderByInicioDesc | src/main/java/com/vibecheck/VibeCheck_Backend/repositories/PraticaRepository.java:76 | exactly the class's open sessions, each as often as in the store, latest start first |
| PraticaRepositorio.FindByAlunoAndCheckoutIsNullOrderByInicioDesc | src/main/java/com/vibecheck/VibeCheck_Backend/repositories/PraticaRepository.java:84 | exactly the student's open sessions, each as often as in the store, latest start first |
| PraticaRepositorio.FindByAlunoWithDetails | src/main/java/com/vibecheck/VibeCheck_Backend/repositories/PraticaRepository.java:92-97 | exactly the sessions whose student has the id, each as often as in the store, latest start first |
| PraticaRepositorio.FindByTurmaWithDetails | src/main/java/com/vibecheck/VibeCheck_Backend/repositories/PraticaRepository.java:105-110 | exactly the sessions whose class has the id, each as often as in the store, latest start first |
| PraticaRepositorio.FindById | src/main/java/com/vibecheck/VibeCheck_Backend/services/PraticaService.java:82-84 | the position found holds a session with the id; none is found exactly when no session has it |
| PraticaRepositorio.PrimeiraAbertaEstaNaLista | src/main/java/com/vibecheck/VibeCheck_Backend/repositories/PraticaRepository.java:24-32 | the single open session the lifecycle picks is listed by the student's open-sessions query, and no listed session of that class starts later |
| PraticaServico.CheckoutVirtual | src/main/java/com/vibecheck/VibeCheck_Backend/services/PraticaService.java:44-49 | the virtual check-out has no id and no code, is a CHECKOUT at the current time, and carries the check-in's emotion, student and class |
| PraticaServico.AbrirSemAberta | src/main/java/com/vibecheck/VibeCheck_Backend/services/PraticaService.java:34-38 | with no open session of the pair, a check-in only appends the session it opens |
| PraticaServico.AbrirComAberta | src/main/java/com/vibecheck/VibeCheck_Backend/services/PraticaService.java:40-58 | with an open session of the pair, the one with the latest start is closed at the current clock with the check-in's emotion, all other sessions are kept, and the new open session is appended |
| PraticaServico.AbrirPreservaOutrosPares | src/main/java/com/vibecheck/VibeCheck_Backend/services/PraticaService.java:32-58 | a check-in adds exactly one session and changes no session of another (student, class) pair |
| PraticaServico.AbrirMantemUmaAberta | src/main/java/com/vibecheck/VibeCheck_Backend/services/PraticaService.java:32-58 | if at most one session per pair was open, the same holds afterwards, and the new session is the only open one of its pair |
| PraticaServico.FecharSemAberta | src/main/java/com/vibecheck/VibeCheck_Backend/services/PraticaService.java:75-77 | with no open session of the pair, a check-out changes nothing |
| PraticaServico.FecharComAberta | src/main/java/com/vibecheck/VibeCheck_Backend/services/PraticaService.java:63-73 | with an open session of the pair, the one with the latest start is closed by the check-out; the count and every other session are kept |
| PraticaServico.FecharMantemUmaAberta | src/main/java/com/vibecheck/VibeCheck_Backend/services/PraticaService.java:61-78 | a check-out changes no session of another pair; with at most one open session per pair, none of the pair stays open and the property is kept |
| PraticaServico.PraticaService.AbrirPratica | src/main/java/com/vibecheck/VibeCheck_Backend/services/PraticaService.java:31-59 | the store's rows become the check-in transition of the old rows; the returned session is fresh, appended, open from the check-in, with the next id; the invariant is kept |
| PraticaServico.PraticaService.FecharPratica | src/main/java/com/vibecheck/VibeCheck_Backend/services/PraticaService.java:61-78 | the rows become the check-out transition of the old rows; the result is null exactly when the pair had no open session, and otherwise is that stored session, closed |
| PraticaServico.PraticaService.FecharESalvar | src/main/java/com/vibecheck/VibeCheck_Backend/services/PraticaService.java:69-72 | closing one stored session changes only its row, which becomes its old row closed with the record |
| PraticaServico.PraticaService.SalvarNova | src/main/java/com/vibecheck/VibeCheck_Backend/services/PraticaService.java:58 | saving a new session gives it the next id, appends it, keeps its other fields and keeps the invariant |
| PraticaServico.PraticaService.NovaAberta | src/main/java/com/vibecheck/VibeCheck_Backend/services/PraticaService.java:56-57 | a new entity after `abrir` is fresh, holds the check-in's values, and has no id and no closing fields |
| PraticaServico.PraticaService.BuscarPorId | src/main/java/com/vibecheck/VibeCheck_Backend/services/PraticaService.java:82-84 | a found session is stored and has the id; none is found exactly when no stored session has it |
| PraticaServico.PraticaService.BuscarPraticasPorAlunoEPeriodo | src/main/java/com/vibecheck/VibeCheck_Backend/services/PraticaService.java:86-88 | exactly the stored rows of the student whose start lies in the closed period, each as often as it is stored |
| PraticaServico.PraticaService.ListarPraticas | src/main/java/com/vibecheck/VibeCheck_Backend/services/PraticaService.java:92-100 | fails with "strategy not found" exactly when the kind is not registered, and otherwise only with an invalid-argument error |
| PraticaServico.PraticaService.ListarTodasPraticas | src/main/java/com/vibecheck/VibeCheck_Backend/services/PraticaService.java:102-104 | with the injected strategies, listing all sessions never fails and gives the summaries of class 1 |
| PraticaServico.PraticaService.ListarPraticasPorTurma | src/main/java/com/vibecheck/VibeCheck_Backend/services/PraticaService.java:106-108 | with the injected strategies, the by-class listing fails without an id and otherwise gives the summaries of that class |
| PraticaServico.PraticaService.ListarPraticasAbertasPorTurma | src/main/java/com/vibecheck/VibeCheck_Backend/services/PraticaService.java:110-112 | with the injected strategies, the open-by-class listing fails without the class object and otherwise is the open-by-class strategy's result on the class alone, whatever id is passed |
| PraticaServico.PraticaService.ListarMinhasPraticasAbertas | src/main/java/com/vibecheck/VibeCheck_Backend/services/PraticaService.java:114-116 | with the injected strategies, the student's listing fails without the student and otherwise is the strategy's result on the student alone, whatever token is passed |
| PraticaServico.PraticaService.ListarPraticasPorTurmaEPeriodo | src/main/java/com/vibecheck/VibeCheck_Backend/services/PraticaService.java:118-120 | with the injected strategies, the period listing succeeds exactly when the class and both ends are given and the start is not after the end, and is the period strategy's result on those three, whatever id is passed |
| ListagemContexto.Estrategia.GetTipo | src/main/java/com/vibecheck/VibeCheck_Backend/strategies/impl/PorTurmaStrategy.java:67-70 | each of the five strategies answers its own kind, and no two answer the same kind |
| ListagemContexto.Estrategia.Executar | src/main/java/com/vibecheck/VibeCheck_Backend/strategies/PraticaListagemContext.java:61 | a strategy only ever fails with an invalid-argument error |
| ListagemContexto.Registrar | src/main/java/com/vibecheck/VibeCheck_Backend/strategies/PraticaListagemContext.java:26-33 | every registered strategy is one of the supplied list, filed under its own kind |
| ListagemContexto.PraticaListagemContext.constructor | src/main/java/com/vibecheck/VibeCheck_Backend/strategies/PraticaListagemContext.java:26-33 | the loop of `put`s builds exactly the registry `Registrar` describes for the supplied list |
| ListagemContexto.ChavesRegistradas | src/main/java/com/vibecheck/VibeCheck_Backend/strategies/PraticaListagemContext.java:26-33 | the registry's keys are exactly the kinds of the supplied strategies |
| ListagemContexto.UltimaRegistradaVence | src/main/java/com/vibecheck/VibeCheck_Backend/strategies/PraticaListagemContext.java:30-32 | for every registered kind, the registered strategy is the last one of that kind in the list |
| ListagemContexto.RegistroPadrao | src/main/java/com/vibecheck/VibeCheck_Backend/strategies/PraticaListagemContext.java:26-33 | with the five injected strategies every kind is registered, to the strategy of that kind |
| ListagemContexto.PraticaListagemContext.ExecutarEstrategia | src/main/java/com/vibecheck/VibeCheck_Backend/strategies/PraticaListagemContext.java:48-62 | an unregistered kind fails with "strategy not found"; a registered one returns that strategy's result on the same arguments |
| ListagemContexto.PraticaListagemContext.GetEstrategiasDisponiveis | src/main/java/com/vibecheck/VibeCheck_Backend/strategies/PraticaListagemContext.java:79-81 | the copy has the registry's keys and, for each, the registered strategy |
| ListagemContexto.PraticaListagemContext.DisponivelSeEncontrada | src/main/java/com/vibecheck/VibeCheck_Backend/strategies/PraticaListagemContext.java:55-72 | `isEstrategiaDisponivel` holds exactly when executing the kind does not fail with "strategy not found" |
| EstrategiaPorTurmaPeriodo.ValidarParametros | src/main/java/com/vibecheck/VibeCheck_Backend/strategies/impl/PorTurmaPeriodoStrategy.java:52-62 | a null class, then a null start or a null end, then a start after the end are rejected, each with its own message; validation passes exactly when none applies, so equal ends pass |
| EstrategiaPorTurmaPeriodo.Executar | src/main/java/com/vibecheck/VibeCheck_Backend/strategies/impl/PorTurmaPeriodoStrategy.java:32-42 | fails exactly when validation fails, with its error, whatever the store holds; otherwise one summary per session of the class in the period, in query order |
| EstrategiaPorTurmaPeriodo.GetTipo | src/main/java/com/vibecheck/VibeCheck_Backend/strategies/impl/PorTurmaPeriodoStrategy.java:77-80 | the kind is POR_TURMA_PERIODO |
| EstrategiaPorTurmaPeriodo.ConteudoDoPeriodo | src/main/java/com/vibecheck/VibeCheck_Backend/strategies/impl/PorTurmaPeriodoStrategy.java:37-41 | each summary comes from a session of the class whose start lies in the closed period, and each such session has its summary |
| EstrategiaPorTurmaPeriodo.IgnoraOutrosParametros | src/main/java/com/vibecheck/VibeCheck_Backend/strategies/impl/PorTurmaPeriodoStrategy.java:32-35 | the student, the class id and the token do not affect the result |
| EstrategiaAbertasPorTurma.ValidarParametros | src/main/java/com/vibecheck/VibeCheck_Backend/strategies/impl/AbertasPorTurmaStrategy.java:50-54 | fails exactly when the class object is null |
| EstrategiaAbertasPorTurma.ListarAbertasDaTurma | src/main/java/com/vibecheck/VibeCheck_Backend/strategies/impl/AbertasPorTurmaStrategy.java:37-41 | one summary per open session of the class, all with status ABERTA, latest start first |
| EstrategiaAbertasPorTurma.Executar | src/main/java/com/vibecheck/VibeCheck_Backend/strategies/impl/AbertasPorTurmaStrategy.java:32-42 | fails exactly when the class is null; otherwise the class's open sessions |
| EstrategiaAbertasPorTurma.GetTipo | src/main/java/com/vibecheck/VibeCheck_Backend/strategies/impl/AbertasPorTurmaStrategy.java:67-70 | the kind is ABERTAS_POR_TURMA |
| EstrategiaAbertasPorTurma.ConteudoDasAbertas | src/main/java/com/vibecheck/VibeCheck_Backend/strategies/impl/AbertasPorTurmaStrategy.java:37-41 | the summaries are exactly those of the class's open sessions |
| EstrategiaAbertasPorTurma.IgnoraOutrosParametros | src/main/java/com/vibecheck/VibeCheck_Backend/strategies/impl/AbertasPorTurmaStrategy.java:32-35 | the class id, the student, the dates and the token do not affect the result |
| EstrategiaMinhasAbertas.ValidarParametros | src/main/java/com/vibecheck/VibeCheck_Backend/strategies/impl/MinhasAbertasStrategy.java:50-54 | fails exactly when the student is null |
| EstrategiaMinhasAbertas.ListarAbertasDoAluno | src/main/java/com/vibecheck/VibeCheck_Backend/strategies/impl/MinhasAbertasStrategy.java:37-41 | one summary per open session of the student, in any class, all ABERTA, latest start first |
| EstrategiaMinhasAbertas.Executar | src/main/java/com/vibecheck/VibeCheck_Backend/strategies/impl/MinhasAbertasStrategy.java:32-42 | fails exactly when the student is null; otherwise the student's open sessions |
| EstrategiaMinhasAbertas.GetTipo | src/main/java/com/vibecheck/VibeCheck_Backend/strategies/impl/MinhasAbertasStrategy.java:67-70 | the kind is MINHAS_ABERTAS |
| EstrategiaMinhasAbertas.ConteudoDasAbertas | src/main/java/com/vibecheck/VibeCheck_Backend/strategies/impl/MinhasAbertasStrategy.java:63-65 | the summaries are exactly those of the student's open sessions |
| EstrategiaMinhasAbertas.IgnoraOutrosParametros | src/main/java/com/vibecheck/VibeCheck_Backend/strategies/impl/MinhasAbertasStrategy.java:32-35 | the class parameters, the dates and the token do not affect the result |
| EstrategiaPorTurma.ValidarParametros | src/main/java/com/vibecheck/VibeCheck_Backend/strategies/impl/PorTurmaStrategy.java:50-54 | fails exactly when the class id is null |
| EstrategiaPorTurma.ListarDaTurma | src/main/java/com/vibecheck/VibeCheck_Backend/strategies/impl/PorTurmaStrategy.java:37-41 | one summary per session of the class id, open or closed, latest start first |
| EstrategiaPorTurma.ConteudoDaTurma | src/main/java/com/vibecheck/VibeCheck_Backend/strategies/impl/PorTurmaStrategy.java:63-65 | the summaries are exactly those of the class's sessions |
| EstrategiaPorTurma.Executar | src/main/java/com/vibecheck/VibeCheck_Backend/strategies/impl/PorTurmaStrategy.java:32-42 | fails exactly when the class id is null; otherwise the class's sessions |
| EstrategiaPorTurma.GetTipo | src/main/java/com/vibecheck/VibeCheck_Backend/strategies/impl/PorTurmaStrategy.java:67-70 | the kind is POR_TURMA |
| EstrategiaPorTurma.IgnoraOutrosParametros | src/main/java/com/vibecheck/VibeCheck_Backend/strategies/impl/PorTurmaStrategy.java:32-35 | the class object, the student, the dates and the token do not affect the result |
| EstrategiaTodasPraticas.Executar | src/main/java/com/vibecheck/VibeCheck_Backend/strategies/impl/TodasPraticasStrategy.java:33-54 | never fails, and gives the by-class summaries of class id 1 |
| EstrategiaTodasPraticas.GetTipo | src/main/java/com/vibecheck/VibeCheck_Backend/strategies/impl/TodasPraticasStrategy.java:56-59 | the kind is TODAS_PRATICAS |
| EstrategiaTodasPraticas.EhPorTurmaUm | src/main/java/com/vibecheck/VibeCheck_Backend/strategies/impl/TodasPraticasStrategy.java:50-54 | the result does not depend on the arguments, and equals the by-class strategy's result for class id 1 |
| PraticaResumo.NomeProfessor | src/main/java/com/vibecheck/VibeCheck_Backend/dtos/PraticaResumoDTO.java:54-55 | "N/A" for a class without a professor, otherwise the professor's name |
| PraticaResumo.DePratica | src/main/java/com/vibecheck/VibeCheck_Backend/dtos/PraticaResumoDTO.java:47-65 | status ABERTA exactly when open, otherwise FECHADA; names, times, emotions and id are copied; the duration text is the session's, and is "Em andamento" exactly when the duration is null |
| PraticaResumo.Resumir | src/main/java/com/vibecheck/VibeCheck_Backend/strategies/impl/PorTurmaStrategy.java:39-41 | one summary per row, in the same order, so open rows give ABERTA summaries and an order by start is kept |
| PraticaResumo.ResumirElementos | src/main/java/com/vibecheck/VibeCheck_Backend/strategies/impl/PorTurmaStrategy.java:39-41 | every summary comes from a listed row, and every listed row has its summary |
| PraticaResumo.ResumoDeAberta | src/main/java/com/vibecheck/VibeCheck_Backend/dtos/PraticaResumoDTO.java:49-64 | a session just opened is summarised as ABERTA, "Em andamento", with no end and no final emotion |
| PraticaResumo.ResumoDeFechada | src/main/java/com/vibecheck/VibeCheck_Backend/dtos/PraticaResumoDTO.java:49-64 | a closed session is summarised as FECHADA, ending at the check-out's time, and for a non-negative duration its text reads back as that duration |
| PraticaDetalhe.IdDoRegistro | src/main/java/com/vibecheck/VibeCheck_Backend/dtos/PraticaDTO.java:87-88 | null for a null record, otherwise the record's id |
| PraticaDetalhe.DePratica | src/main/java/com/vibecheck/VibeCheck_Backend/dtos/PraticaDTO.java:63-93 | status from `isAberta`; student and class ids and names, times, emotions, duration and its text copied; record ids null exactly for null records; "N/A" without a professor |
| PraticaDetalhe.ConcordaComResumo | src/main/java/com/vibecheck/VibeCheck_Backend/dtos/PraticaDTO.java:63-93 | the detailed and the summary projections agree on every field they share |
| PraticaDetalhe.DetalheDeAberta | src/main/java/com/vibecheck/VibeCheck_Backend/dtos/PraticaDTO.java:78-88 | a session only opened has no check-out id, no end, no final emotion and no duration |
| PraticaDetalhe.DetalheDeFechada | src/main/java/com/vibecheck/VibeCheck_Backend/dtos/PraticaDTO.java:78-88 | a session closed with a record shows that record's id, which is null for the never-saved virtual check-out, and its status is FECHADA |
| CodigoRepositorio.FindByCodigo | src/main/java/com/vibecheck/VibeCheck_Backend/repositories/CodigoAvaliacaoRepository.java:22 | a found code has the value; none is found exactly when no code has it |
| CodigoRepositorio.FindByCodigoAndAtivoTrueAndDataExpiracaoAfter | src/main/java/com/vibecheck/VibeCheck_Backend/repositories/CodigoAvaliacaoRepository.java:24-32 | a found code has the value, is active and expires strictly after now; none is found exactly when no such code exists |
| CodigoRepositorio.FindByProfessorIdAndAtivoTrue | src/main/java/com/vibecheck/VibeCheck_Backend/repositories/CodigoAvaliacaoRepository.java:34-41 | exactly the active codes of the professor id, each as often as in the store |
| CodigoRepositorio.ExistsByCodigo | src/main/java/com/vibecheck/VibeCheck_Backend/repositories/CodigoAvaliacaoRepository.java:43-51 | holds exactly when some stored code has the value |
| CodigoRepositorio.ExisteSeEncontrado | src/main/java/com/vibecheck/VibeCheck_Backend/repositories/CodigoAvaliacaoRepository.java:22-51 | the existence query holds exactly when the lookup by value finds a code |
| CodigoRepositorio.CodigoUnico | src/main/java/com/vibecheck/VibeCheck_Backend/models/CodigoAvaliacao.java:28 | with the unique column, any code with the value is the one the lookup finds |
| CodigoRepositorio.ValidoSeEncontradoEValido | src/main/java/com/vibecheck/VibeCheck_Backend/repositories/CodigoAvaliacaoRepository.java:22-32 | with unique values, the validity query finds a code exactly when the lookup by value finds a valid one, and then finds the same code |
| Repositorios.FindProfessorByGoogleId | src/main/java/com/vibecheck/VibeCheck_Backend/repositories/ProfessorRepository.java:27 | a found professor is stored and has the Google id; none is found exactly when nobody has it |
| Repositorios.FindAlunoByGoogleId | src/main/java/com/vibecheck/VibeCheck_Backend/repositories/AlunoRepository.java:41 | a found student is stored and has the Google id; none is found exactly when nobody has it |
| Repositorios.FindTurmaByNomeAndProfessor | src/main/java/com/vibecheck/VibeCheck_Backend/repositories/TurmaRepository.java:25 | the position found holds the professor's class with the name; none is found exactly when there is none |
| Repositorios.FindTurmasByProfessor | src/main/java/com/vibecheck/VibeCheck_Backend/repositories/TurmaRepository.java:32 | exactly the professor's classes, each as often as in the store |
| Repositorios.FindTurmaById | src/main/java/com/vibecheck/VibeCheck_Backend/services/TurmaService.java:72-73 | the position found holds the class with the id; none is found exactly when no class has it |
| Repositorios.FindAllRegistrosByOrderByTimestampDesc | src/main/java/com/vibecheck/VibeCheck_Backend/repositories/RegistroEmocionalRepository.java:49 | a rearrangement of all submissions, latest first |
| Banco.CodigosDaTurma | src/main/java/com/vibecheck/VibeCheck_Backend/models/Turma.java:56-57 | exactly the stored codes of the class id |
| Banco.RegistrosDoCodigo | src/main/java/com/vibecheck/VibeCheck_Backend/models/CodigoAvaliacao.java:73-74 | exactly the stored submissions made with the code |
| Banco.TurmaComRegistrosSeUsada | src/main/java/com/vibecheck/VibeCheck_Backend/services/TurmaService.java:92 | a class has submissions exactly when some stored submission was made with a stored code of that class |
| Banco.SemPosicaoMantemTurmasValidas | src/main/java/com/vibecheck/VibeCheck_Backend/models/Turma.java:19-24 | deleting a class keeps the class table's unique key, unique ids and id bound |
| Banco.SemCodigosDaTurma | src/main/java/com/vibecheck/VibeCheck_Backend/models/Turma.java:56 | the codes left once the class is deleted: exactly those of other classes, each as often as before |
| Banco.SemCodigosMantemCodigosValidos | src/main/java/com/vibecheck/VibeCheck_Backend/models/CodigoAvaliacao.java:28 | deleting a class's codes keeps the code values unique and the ids bounded |
| Banco.BancoDeDados.InserirTurma | src/main/java/com/vibecheck/VibeCheck_Backend/models/Turma.java:19-24 | a class colliding on (name, professor) is refused; otherwise it is appended with the next id; the invariant and the other tables are kept |
| Banco.BancoDeDados.InserirCodigo | src/main/java/com/vibecheck/VibeCheck_Backend/models/CodigoAvaliacao.java:28 | a code whose value is taken is refused; otherwise it is appended with the next id; the invariant and the other tables are kept |
| Banco.BancoDeDados.InserirRegistro | src/main/java/com/vibecheck/VibeCheck_Backend/services/RegistroEmocionalService.java:72 | the submission is appended with the next id, which is returned with it |
| Banco.BancoDeDados.RenomearTurma | src/main/java/com/vibecheck/VibeCheck_Backend/services/TurmaService.java:76-78 | a new name colliding with another class of the professor is refused; otherwise only that class's name changes |
| Banco.BancoDeDados.RemoverTurma | src/main/java/com/vibecheck/VibeCheck_Backend/services/TurmaService.java:99 | the class leaves the table and its codes leave theirs, by cascade; the invariant and the other tables are kept |
| RegistroServico.NovoRegistro | src/main/java/com/vibecheck/VibeCheck_Backend/services/RegistroEmocionalService.java:47-69 | an invalid code fails first, then an unknown student; otherwise the record has the code's kind and class, the code itself, the student, the emotion and the current time |
| RegistroServico.RegistroCoerenteComCodigo | src/main/java/com/vibecheck/VibeCheck_Backend/services/RegistroEmocionalService.java:50-69 | a recorded submission's code is stored, was valid at the submission's own time, and gives it its kind and its class |
| RegistroServico.NomeDaTurma | src/main/java/com/vibecheck/VibeCheck_Backend/services/RegistroEmocionalService.java:101 | the name of the stored class with that id, or the submission's own copy when the class is gone |
| RegistroServico.RegistroEmocionalService.RegistrarEmocao | src/main/java/com/vibecheck/VibeCheck_Backend/services/RegistroEmocionalService.java:47-73 | on a failure nothing is saved; otherwise the built record is saved with the next id and returned; no other table changes |
| RegistroServico.RegistroEmocionalService.VerificarCodigoValido | src/main/java/com/vibecheck/VibeCheck_Backend/services/RegistroEmocionalService.java:79-82 | holds exactly when a stored code with the value is active and expires strictly after now |
| RegistroServico.RegistroEmocionalService.ValidoSeAceitoPorRegistrar | src/main/java/com/vibecheck/VibeCheck_Backend/services/RegistroEmocionalService.java:47-82 | a code passes the check exactly when a submission with it at the same time gets past the code check |
| RegistroServico.RegistroEmocionalService.GetDashboardRegistros | src/main/java/com/vibecheck/VibeCheck_Backend/services/RegistroEmocionalService.java:88-104 | one entry per stored submission, in the order of the timestamp query, with its formatted date, emotion, kind name and class name |
| RegistroServico.RegistroEmocionalService.DashboardOrdenado | src/main/java/com/vibecheck/VibeCheck_Backend/services/RegistroEmocionalService.java:88-104 | the entries are those of a rearrangement of all submissions whose timestamps never increase |
| CodigoServico.EmitidoValidoPorTrintaMinutos | src/main/java/com/vibecheck/VibeCheck_Backend/services/CodigoAvaliacaoService.java:70-72 | an issued code is valid at every time before 30 minutes after its creation, and at none from then on |
| CodigoServico.TurmaObtida | src/main/java/com/vibecheck/VibeCheck_Backend/services/CodigoAvaliacaoService.java:59-65 | the class used has the name and the professor; the existing one when there is one, otherwise a new class with the next id |
| CodigoServico.CodigoAvaliacaoService.GerarCodigo | src/main/java/com/vibecheck/VibeCheck_Backend/services/CodigoAvaliacaoService.java:53-79 | an unknown professor fails and saves nothing; otherwise the class is taken or created, then an active code of the kind, class and professor, expiring 30 minutes later, is appended with a value no stored code has; the save fails, keeping the class, only when a six-character value of the alphabet was already stored |
| CodigoServico.CodigoAvaliacaoService.SemCodigosSempreEmite | src/main/java/com/vibecheck/VibeCheck_Backend/services/CodigoAvaliacaoService.java:53-79 | with an empty code table a known professor always gets a code, which becomes the table's only row |
| CodigoServico.CodigoAvaliacaoService.GerarCodigoCheckin | src/main/java/com/vibecheck/VibeCheck_Backend/services/CodigoAvaliacaoService.java:42-45 | the code issuance with kind CHECKIN |
| CodigoServico.CodigoAvaliacaoService.GerarCodigoCheckout | src/main/java/com/vibecheck/VibeCheck_Backend/services/CodigoAvaliacaoService.java:48-50 | the code issuance with kind CHECKOUT |
| CodigoServico.CodigoAvaliacaoService.GerarCodigoAleatorio | src/main/java/com/vibecheck/VibeCheck_Backend/services/CodigoAvaliacaoService.java:82-90 | the string has the requested length (none for a negative one) and every character is one of A-Z0-9 |
| CodigoServico.CodigoAvaliacaoService.ListarNomesPorProfessor | src/main/java/com/vibecheck/VibeCheck_Backend/services/CodigoAvaliacaoService.java:93-100 | an unknown professor fails; otherwise the names of the professor's classes, in store order |
| TurmaServico.TurmaService.ListarTurmasComIdPorProfessor | src/main/java/com/vibecheck/VibeCheck_Backend/services/TurmaService.java:37-49 | an unknown professor fails; otherwise one (id, name) pair per class of the professor, in store order |
| TurmaServico.TurmaService.ListarNomesPorProfessor | src/main/java/com/vibecheck/VibeCheck_Backend/services/TurmaService.java:55-63 | an unknown professor fails; otherwise the names of the professor's classes, in store order |
| TurmaServico.TurmaService.ListagensConcordam | src/main/java/com/vibecheck/VibeCheck_Backend/services/TurmaService.java:37-63 | the two listings fail together, the names are those of the listed pairs in order, and every pair is a stored class of the professor |
| TurmaServico.TurmaService.AtualizarNomeTurma | src/main/java/com/vibecheck/VibeCheck_Backend/services/TurmaService.java:70-79 | an unknown id fails; a name another class of the professor has fails; otherwise only that class's name changes |
| TurmaServico.TurmaService.ExcluirTurma | src/main/java/com/vibecheck/VibeCheck_Backend/services/TurmaService.java:86-100 | an unknown id fails; a class one of whose codes has a submission fails and is kept; otherwise the class and its codes are deleted, and no class with the id or code of it remains |

## Left out

- The HTTP controllers, the security and CORS configuration, the OAuth2 user service and user type.
  They route requests or wrap library code that is not part of this model.
- `AbrirPraticaCommand` and `FecharPraticaCommand`: one-line delegations to the session service,
  whose calls are modelled directly.
- `@Transactional`, database isolation and concurrent requests. Each service method is one atomic
  step.
- JPA lazy loading and database-generated ids. The session store has its own id counter. The other
  tables share a single counter in `Banco.BancoDeDados`, which gives distinct, increasing ids as an
  identity column does.
- Entity references. A `Turma`, `Aluno` or `Professor` inside another entity is a value copy. So a
  rename is not seen through a session's or a code's copy of the class. The dashboard resolves the
  class name by id (`RegistroServico.NomeDaTurma`), as reading through the reference would.
- The clock. `LocalDateTime.now()` is the `agora` parameter, read once per method.
  `registrarEmocao` and `gerarCodigo` call it twice and may see two different instants; the model
  uses one.
- Nanoseconds. `Duration.getSeconds()` on whole seconds is the difference of the two times.
- The dashboard's `dd/MM/yyyy HH:mm` formatter, which is a function parameter.
- `java.util.Random`. Each character is an arbitrary index below 36, chosen with `:|`.
- `PraticaServico.PraticaService.AbrirPratica` allocates the new entity before closing the previous
  session, where the source allocates it after. The entity is not stored until the final save, so
  no caller can see the difference.
- Saving a session closed by the virtual check-out, whose record was never saved and which has no
  cascade on `checkout`. A JPA provider may refuse that flush. `abrirPratica` is `@Transactional`
  (`PraticaService.java:31`), so a refusal when the changes are written on commit would roll back
  the whole call, the new session included. The model treats the save as succeeding, so
  `PraticaServico.AbrirComAberta` describes only the path on which that save goes through.
- The unique columns `checkin_registro_id` and `checkout_registro_id` of the session table, and the
  unique Google ids and e-mails of students and professors. They are not enforced.
  - Professors and students are only read, never written.
  - A lookup by Google id returns the first match.
- A tie on `inicio` (or on `timestamp`). The database leaves the order open. The model takes the
  earliest stored session for `findFirst…`, and keeps store order among equal keys in the sorted
  listings.
- Null arguments to `buscarPraticasPorAlunoEPeriodo` and to the repository queries. Dates and
  entities are plain values there.
- The repository queries of the session and submission tables that no modelled service calls, such
  as `findByAluno` and `findByTipoSubmissaoAndTimestampBetween`.
- PraticaServico.PraticaService.ListarTodasPraticas: like the other four listing facades, its
  result is stated only for the registry built from the five injected strategies. For any other
  registry it gives whatever `ExecutarEstrategia` gives, and only `ListarPraticas`'s contract
  applies.
- PraticaModelo.Pratica.Fechar: requires a start. `Duration.between` throws a
  `NullPointerException` on a null start, and every caller passes a stored session, whose start
  column is NOT NULL and so never null.
