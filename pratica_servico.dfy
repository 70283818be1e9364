/** The session service: opening and closing sessions over the session store, and the listings. */
module PraticaServico {
  import opened Base
  import opened Entidades
  import opened PraticaModelo
  import opened PraticaRepositorio
  import opened ListagemInterface
  import opened ListagemContexto
  import EstrategiaPorTurma
  import EstrategiaPorTurmaPeriodo
  import EstrategiaAbertasPorTurma
  import EstrategiaMinhasAbertas

  // ---------------------------------------------------------------------------------------------
  // The transitions of the store

  /** The check-out `abrirPratica` builds to close a session left open: never saved (no id), without
      a code, at the current time, with the check-in's emotion, student and class. */
  function CheckoutVirtual(entrada: RegistroEmocional, agora: int): (r: RegistroEmocional)
    ensures r.id.None? && r.codigoAvaliacaoUsado.None? && r.tipoSubmissao == CHECKOUT
    ensures r.timestamp == agora && r.emocao == entrada.emocao
    ensures r.aluno == entrada.aluno && r.turma == entrada.turma
  {
    RegistroEmocional(None, entrada.emocao, agora, CHECKOUT, entrada.aluno, None, entrada.turma)
  }

  /** The stored rows after `fecharPratica(out)`. */
  function AposFechar(store: seq<PraticaLinha>, out: RegistroEmocional): seq<PraticaLinha> {
    var aberta := FindFirstByAlunoAndTurmaAndCheckoutIsNullOrderByInicioDesc(store, out.aluno, out.turma);
    if aberta.Some? then store[aberta.value := store[aberta.value].Fechada(out)] else store
  }

  /** The stored rows after `abrirPratica(entrada)` at time `agora`, the new session getting id
      `novoId`: the check-in's pair is first closed as `fecharPratica` would close it with the virtual
      check-out, whose student and class are the check-in's. */
  function AposAbrir(store: seq<PraticaLinha>, entrada: RegistroEmocional, agora: int, novoId: int)
    : seq<PraticaLinha>
  {
    AposFechar(store, CheckoutVirtual(entrada, agora)) + [AbertaDe(entrada, novoId)]
  }

  /** No two open sessions share a student and a class. */
  ghost predicate UmaAbertaPorPar(store: seq<PraticaLinha>) {
    forall i, j :: 0 <= i < |store| && 0 <= j < |store| && store[i].IsAberta() && store[j].IsAberta()
                   && store[i].aluno.id == store[j].aluno.id && store[i].turma.id == store[j].turma.id
                   ==> i == j
  }

  /** Without an open session of the pair, `abrirPratica` only appends the session opened from the
      check-in. */
  lemma AbrirSemAberta(store: seq<PraticaLinha>, entrada: RegistroEmocional, agora: int, novoId: int)
    requires FindFirstByAlunoAndTurmaAndCheckoutIsNullOrderByInicioDesc(store, entrada.aluno, entrada.turma).None?
    ensures AposAbrir(store, entrada, agora, novoId) == store + [AbertaDe(entrada, novoId)]
  {
  }

  /** With an open session of the pair, the one with the latest start is closed by the virtual
      check-out, so it ends at `agora` with the check-in's emotion; then the new session is appended. */
  lemma AbrirComAberta(store: seq<PraticaLinha>, entrada: RegistroEmocional, agora: int, novoId: int)
    requires FindFirstByAlunoAndTurmaAndCheckoutIsNullOrderByInicioDesc(store, entrada.aluno, entrada.turma).Some?
    ensures var i := FindFirstByAlunoAndTurmaAndCheckoutIsNullOrderByInicioDesc(store, entrada.aluno, entrada.turma).value;
      var r := AposAbrir(store, entrada, agora, novoId);
      |r| == |store| + 1 && r[|store|] == AbertaDe(entrada, novoId)
      && AbertaDoPar(store[i], entrada.aluno, entrada.turma)
      && (forall j :: 0 <= j < |store| && AbertaDoPar(store[j], entrada.aluno, entrada.turma)
                      ==> store[j].inicio <= store[i].inicio)
      && !r[i].IsAberta() && r[i].fim == Some(agora) && r[i].emocaoFinal == Some(entrada.emocao)
      && r[i].duracaoSegundos == Some(agora - store[i].inicio)
      && r[i].checkin == store[i].checkin && r[i].inicio == store[i].inicio && r[i].id == store[i].id
      && forall j :: 0 <= j < |store| && j != i ==> r[j] == store[j]
  {
  }

  /** `abrirPratica` adds exactly one session, and only sessions of the check-in's pair change. */
  lemma AbrirPreservaOutrosPares(store: seq<PraticaLinha>, entrada: RegistroEmocional, agora: int, novoId: int)
    ensures var r := AposAbrir(store, entrada, agora, novoId);
      |r| == |store| + 1 && r[|store|] == AbertaDe(entrada, novoId)
      && forall j :: 0 <= j < |store| && (store[j].aluno.id != entrada.aluno.id || store[j].turma.id != entrada.turma.id)
                     ==> r[j] == store[j]
  {
  }

  /** If at most one session per pair is open before a check-in, the same holds after it, and the
      session just opened is the only open one of its pair. */
  lemma AbrirMantemUmaAberta(store: seq<PraticaLinha>, entrada: RegistroEmocional, agora: int, novoId: int)
    requires UmaAbertaPorPar(store)
    ensures var r := AposAbrir(store, entrada, agora, novoId);
      UmaAbertaPorPar(r) && AbertaDoPar(r[|r| - 1], entrada.aluno, entrada.turma)
      && forall j :: 0 <= j < |r| - 1 ==> !AbertaDoPar(r[j], entrada.aluno, entrada.turma)
  {
    var aberta := FindFirstByAlunoAndTurmaAndCheckoutIsNullOrderByInicioDesc(store, entrada.aluno, entrada.turma);
    var r := AposAbrir(store, entrada, agora, novoId);
    var n := |store|;
    assert r[n] == AbertaDe(entrada, novoId);
    forall j | 0 <= j < n ensures !AbertaDoPar(r[j], entrada.aluno, entrada.turma) {
      if aberta.Some? && j != aberta.value {
        assert r[j] == store[j];
        if AbertaDoPar(store[j], entrada.aluno, entrada.turma) {
          assert AbertaDoPar(store[aberta.value], entrada.aluno, entrada.turma);
        }
      }
    }
    forall i, j | 0 <= i < |r| && 0 <= j < |r| && r[i].IsAberta() && r[j].IsAberta()
                  && r[i].aluno.id == r[j].aluno.id && r[i].turma.id == r[j].turma.id
      ensures i == j
    {
      if i < n && j < n {
        assert r[i] == store[i] && r[j] == store[j] by {
          if aberta.Some? {
            assert i != aberta.value && j != aberta.value;
          }
        }
      }
    }
  }

  /** Without an open session of the pair, `fecharPratica` changes nothing. */
  lemma FecharSemAberta(store: seq<PraticaLinha>, out: RegistroEmocional)
    requires FindFirstByAlunoAndTurmaAndCheckoutIsNullOrderByInicioDesc(store, out.aluno, out.turma).None?
    ensures AposFechar(store, out) == store
  {
  }

  /** With an open session of the pair, the one with the latest start is closed by `out`; the number
      of sessions and every other session stay as they were. */
  lemma FecharComAberta(store: seq<PraticaLinha>, out: RegistroEmocional)
    requires FindFirstByAlunoAndTurmaAndCheckoutIsNullOrderByInicioDesc(store, out.aluno, out.turma).Some?
    ensures var i := FindFirstByAlunoAndTurmaAndCheckoutIsNullOrderByInicioDesc(store, out.aluno, out.turma).value;
      var r := AposFechar(store, out);
      |r| == |store| && store[i].IsAberta()
      && (forall j :: 0 <= j < |store| && AbertaDoPar(store[j], out.aluno, out.turma) ==> store[j].inicio <= store[i].inicio)
      && !r[i].IsAberta() && r[i].checkout == Some(out) && r[i].fim == Some(out.timestamp)
      && r[i].duracaoSegundos == Some(out.timestamp - store[i].inicio)
      && forall j :: 0 <= j < |store| && j != i ==> r[j] == store[j]
  {
  }

  /** `fecharPratica` changes only sessions of the check-out's pair, and afterwards, if at most one
      session per pair was open, none of that pair is open and the property still holds. */
  lemma FecharMantemUmaAberta(store: seq<PraticaLinha>, out: RegistroEmocional)
    ensures var r := AposFechar(store, out);
      |r| == |store|
      && forall j :: 0 <= j < |store| && (store[j].aluno.id != out.aluno.id || store[j].turma.id != out.turma.id)
                     ==> r[j] == store[j]
    ensures UmaAbertaPorPar(store) ==>
      var r := AposFechar(store, out);
      UmaAbertaPorPar(r) && forall j :: 0 <= j < |r| ==> !AbertaDoPar(r[j], out.aluno, out.turma)
  {
    var aberta := FindFirstByAlunoAndTurmaAndCheckoutIsNullOrderByInicioDesc(store, out.aluno, out.turma);
    var r := AposFechar(store, out);
    if UmaAbertaPorPar(store) {
      forall j | 0 <= j < |r| ensures !AbertaDoPar(r[j], out.aluno, out.turma) {
        if aberta.Some? && j != aberta.value {
          assert r[j] == store[j];
        }
      }
      forall i, j | 0 <= i < |r| && 0 <= j < |r| && r[i].IsAberta() && r[j].IsAberta()
                    && r[i].aluno.id == r[j].aluno.id && r[i].turma.id == r[j].turma.id
        ensures i == j
      {
        if aberta.Some? {
          assert i != aberta.value && j != aberta.value;
        }
      }
    }
  }

  // ---------------------------------------------------------------------------------------------
  // The service object

  /** No parameters: the null of every argument a facade does not take. */
  const NENHUM: Parametros := Parametros(None, None, None, None, None, None)

  class PraticaService {
    /** The session store, in insertion order. */
    var praticas: seq<Pratica>
    /** The id the store gives the next session it inserts. */
    var proximoId: int
    const contexto: PraticaListagemContext

    constructor (contexto: PraticaListagemContext)
      ensures praticas == [] && proximoId == 1 && this.contexto == contexto
      ensures Valid()
    {
      praticas := [];
      proximoId := 1;
      this.contexto := contexto;
    }

    /** Every stored session has its NOT NULL columns and an id below the counter, and no session
        object or id is stored twice. */
    ghost predicate Valid()
      reads this, praticas
    {
      && (forall i :: 0 <= i < |praticas| ==> praticas[i].Persistivel() && praticas[i].id.value < proximoId)
      && (forall i, j :: 0 <= i < j < |praticas| ==> praticas[i] != praticas[j])
      && (forall i, j :: 0 <= i < j < |praticas| ==> praticas[i].id != praticas[j].id)
    }

    /** The rows of the store. */
    function Linhas(): (r: seq<PraticaLinha>)
      reads this, praticas
      requires Valid()
      ensures |r| == |praticas| && forall i :: 0 <= i < |r| ==> r[i] == praticas[i].Linha()
    {
      var ps := praticas;
      seq(|ps|, i reads ps requires 0 <= i < |ps| && ps[i].Persistivel() => ps[i].Linha())
    }

    /** `abrirPratica(checkinRegistro)` at time `agora`: closes the latest open session of the pair
        with a virtual check-out, then saves a new session opened from the check-in and returns it.
        The lookup, `fechar` and `save` of the first step are those of `fecharPratica`. The new
        entity is allocated before that step; it is not stored until the last step, so nothing
        observes the order. */
    method AbrirPratica(checkinRegistro: RegistroEmocional, agora: int) returns (nova: Pratica)
      requires Valid()
      modifies this, praticas
      ensures Valid()
      ensures Linhas() == AposAbrir(old(Linhas()), checkinRegistro, agora, old(proximoId))
      ensures fresh(nova) && praticas == old(praticas) + [nova] && nova.Persistivel()
      ensures nova.Linha() == AbertaDe(checkinRegistro, old(proximoId))
      ensures proximoId == old(proximoId) + 1
    {
      ghost var antes, id := Linhas(), proximoId;
      nova := NovaAberta(checkinRegistro);
      var fechada := FecharPratica(CheckoutVirtual(checkinRegistro, agora));
      ghost var fechadas := Linhas();
      assert fechadas == AposFechar(antes, CheckoutVirtual(checkinRegistro, agora));
      SalvarNova(nova);
      assert nova.Linha() == AbertaDe(checkinRegistro, id);
      assert Linhas() == fechadas + [AbertaDe(checkinRegistro, id)];
    }

    /** `new Pratica()` followed by `abrir(entrada)`: a fresh open session, not saved yet. */
    method NovaAberta(entrada: RegistroEmocional) returns (nova: Pratica)
      ensures fresh(nova)
      ensures nova.checkin == Some(entrada) && nova.inicio == Some(entrada.timestamp)
      ensures nova.emocaoInicial == Some(entrada.emocao) && nova.aluno == Some(entrada.aluno) && nova.turma == Some(entrada.turma)
      ensures nova.id.None? && nova.checkout.None? && nova.fim.None? && nova.emocaoFinal.None? && nova.duracaoSegundos.None?
    {
      nova := new Pratica();
      nova.Abrir(entrada);
    }

    /** `fecharPratica(checkoutRegistro)`: closes the latest open session of the pair and returns it,
        or returns null and changes nothing when the pair has no open session. */
    method FecharPratica(checkoutRegistro: RegistroEmocional) returns (fechada: Pratica?)
      requires Valid()
      modifies praticas
      ensures Valid() && praticas == old(praticas) && proximoId == old(proximoId)
      ensures Linhas() == AposFechar(old(Linhas()), checkoutRegistro)
      ensures var aberta := FindFirstByAlunoAndTurmaAndCheckoutIsNullOrderByInicioDesc(
                old(Linhas()), checkoutRegistro.aluno, checkoutRegistro.turma);
        (fechada == null <==> aberta.None?)
        && (fechada != null ==> fechada == praticas[aberta.value]
                                && fechada.Linha() == old(Linhas())[aberta.value].Fechada(checkoutRegistro))
    {
      var aberta := FindFirstByAlunoAndTurmaAndCheckoutIsNullOrderByInicioDesc(
        Linhas(), checkoutRegistro.aluno, checkoutRegistro.turma);
      if aberta.Some? {
        fechada := praticas[aberta.value];
        FecharESalvar(aberta.value, checkoutRegistro);
      } else {
        fechada := null;
      }
    }

    /** `fechar(out)` on the stored session at position `i`, then `save`: only that row changes. */
    method FecharESalvar(i: nat, out: RegistroEmocional)
      requires Valid() && i < |praticas|
      modifies praticas[i]
      ensures Valid() && praticas == old(praticas) && proximoId == old(proximoId)
      ensures Linhas() == old(Linhas())[i := old(Linhas())[i].Fechada(out)]
    {
      ghost var antes := Linhas();
      var existente := praticas[i];
      existente.Fechar(out);
      assert Valid() by {
        assert forall k :: 0 <= k < |praticas| && k != i ==> praticas[k] != existente;
      }
      assert Linhas() == antes[i := antes[i].Fechada(out)] by {
        forall k | 0 <= k < |praticas| ensures Linhas()[k] == antes[i := antes[i].Fechada(out)][k] {
          if k != i {
            assert praticas[k] != existente;
          }
        }
      }
    }

    /** `save` of a session not stored yet: it receives the next id and is appended to the store. */
    method SalvarNova(nova: Pratica)
      requires Valid() && nova !in praticas
      requires nova.aluno.Some? && nova.turma.Some? && nova.checkin.Some? && nova.inicio.Some?
      modifies this, nova
      ensures Valid() && praticas == old(praticas) + [nova] && proximoId == old(proximoId) + 1
      ensures nova.id == Some(old(proximoId)) && nova.aluno == old(nova.aluno) && nova.turma == old(nova.turma)
      ensures nova.checkin == old(nova.checkin) && nova.checkout == old(nova.checkout)
      ensures nova.inicio == old(nova.inicio) && nova.fim == old(nova.fim)
      ensures nova.duracaoSegundos == old(nova.duracaoSegundos)
      ensures nova.emocaoInicial == old(nova.emocaoInicial) && nova.emocaoFinal == old(nova.emocaoFinal)
      ensures Linhas() == old(Linhas()) + [nova.Linha()]
    {
      ghost var antes := Linhas();
      nova.id := Some(proximoId);
      proximoId := proximoId + 1;
      praticas := praticas + [nova];
      assert Valid() by {
        assert forall k :: 0 <= k < |praticas| - 1 ==> praticas[k] != nova;
      }
      assert Linhas() == antes + [nova.Linha()] by {
        forall k | 0 <= k < |praticas| - 1 ensures Linhas()[k] == antes[k] {
          assert praticas[k] != nova;
        }
      }
    }

    /** `buscarPorId`. */
    function BuscarPorId(id: int): (r: Option<Pratica>)
      reads this, praticas
      requires Valid()
      ensures r.Some? ==> r.value in praticas && r.value.id == Some(id)
      ensures r.None? <==> forall k :: 0 <= k < |praticas| ==> praticas[k].id != Some(id)
    {
      var i := FindById(Linhas(), id);
      if i.Some? then Some(praticas[i.value]) else None
    }

    /** `buscarPraticasPorAlunoEPeriodo`: the student's sessions started within the closed period. */
    function BuscarPraticasPorAlunoEPeriodo(aluno: Aluno, inicio: int, fim: int): (r: seq<PraticaLinha>)
      reads this, praticas
      requires Valid()
      ensures forall x :: x in r <==> x in Linhas() && x.aluno.id == aluno.id && inicio <= x.inicio <= fim
      ensures forall x :: multiset(r)[x]
                          == if x.aluno.id == aluno.id && inicio <= x.inicio <= fim then multiset(Linhas())[x] else 0
    {
      FindByAlunoAndInicioBetween(Linhas(), aluno, inicio, fim)
    }

    /** `listarPraticas`: the registry's result for this kind over the current store. It fails for
        want of a strategy exactly when the kind is not registered, and otherwise only for invalid
        arguments. */
    function ListarPraticas(tipo: TipoEstrategia, p: Parametros): (r: Listagem)
      reads this, praticas
      requires Valid()
      ensures r == Err(EstrategiaNaoEncontrada) <==> !contexto.IsEstrategiaDisponivel(tipo)
      ensures r.Err? ==> r.erro == EstrategiaNaoEncontrada || r.erro.ArgumentoInvalido?
    {
      contexto.DisponivelSeEncontrada(tipo, Linhas(), p);
      contexto.ExecutarEstrategia(tipo, Linhas(), p)
    }

    /** `listarTodasPraticas`: `listarPraticas` with its own kind and every argument null. With the
        five injected strategies it never fails and lists the sessions of class 1. */
    function ListarTodasPraticas(): (r: Listagem)
      reads this, praticas
      requires Valid()
      ensures contexto.estrategias == Registrar(TODAS) ==> r == Ok(EstrategiaPorTurma.ListarDaTurma(Linhas(), 1))
    {
      RegistroPadrao(TODAS_PRATICAS);
      ListarPraticas(TODAS_PRATICAS, NENHUM)
    }

    /** `listarPraticasPorTurma`: `listarPraticas` with its own kind and the class id, every other
        argument null. With the five injected strategies it needs the id. */
    function ListarPraticasPorTurma(turmaId: Option<int>): (r: Listagem)
      reads this, praticas
      requires Valid()
      ensures contexto.estrategias == Registrar(TODAS) && turmaId.None? ==> r == Err(ArgumentoInvalido(TurmaIdObrigatorio))
      ensures contexto.estrategias == Registrar(TODAS) && turmaId.Some?
              ==> r == Ok(EstrategiaPorTurma.ListarDaTurma(Linhas(), turmaId.value))
    {
      RegistroPadrao(POR_TURMA);
      ListarPraticas(POR_TURMA, NENHUM.(turmaId := turmaId))
    }

    /** `listarPraticasAbertasPorTurma`: `listarPraticas` with its own kind, the class id and the
        class, every other argument null. With the five injected strategies it needs the class
        object: the id plays no part. */
    function ListarPraticasAbertasPorTurma(turmaId: Option<int>, turma: Option<Turma>): (r: Listagem)
      reads this, praticas
      requires Valid()
      ensures contexto.estrategias == Registrar(TODAS) && turma.None? ==> r == Err(ArgumentoInvalido(TurmaObrigatoria))
      ensures contexto.estrategias == Registrar(TODAS)
              ==> r == EstrategiaAbertasPorTurma.Executar(Linhas(), NENHUM.(turma := turma))
    {
      RegistroPadrao(ABERTAS_POR_TURMA);
      EstrategiaAbertasPorTurma.IgnoraOutrosParametros(
        Linhas(), NENHUM.(turmaId := turmaId, turma := turma), NENHUM.(turma := turma));
      ListarPraticas(ABERTAS_POR_TURMA, NENHUM.(turmaId := turmaId, turma := turma))
    }

    /** `listarMinhasPraticasAbertas`: `listarPraticas` with its own kind, the student and the token,
        every other argument null. With the five injected strategies it needs the student: the token
        plays no part. */
    function ListarMinhasPraticasAbertas(aluno: Option<Aluno>, autenticacao: Option<string>): (r: Listagem)
      reads this, praticas
      requires Valid()
      ensures contexto.estrategias == Registrar(TODAS) && aluno.None? ==> r == Err(ArgumentoInvalido(AlunoObrigatorio))
      ensures contexto.estrategias == Registrar(TODAS)
              ==> r == EstrategiaMinhasAbertas.Executar(Linhas(), NENHUM.(aluno := aluno))
    {
      RegistroPadrao(MINHAS_ABERTAS);
      EstrategiaMinhasAbertas.IgnoraOutrosParametros(
        Linhas(), NENHUM.(aluno := aluno, autenticacao := autenticacao), NENHUM.(aluno := aluno));
      ListarPraticas(MINHAS_ABERTAS, NENHUM.(aluno := aluno, autenticacao := autenticacao))
    }

    /** `listarPraticasPorTurmaEPeriodo`: `listarPraticas` with its own kind, the class id, the class
        and both ends, every other argument null. With the five injected strategies it succeeds
        exactly when the class object and both ends are given and the period does not start after it
        ends, and then lists the class's sessions in the period; the id plays no part. */
    function ListarPraticasPorTurmaEPeriodo(turmaId: Option<int>, turma: Option<Turma>, inicio: Option<int>,
                                            fim: Option<int>): (r: Listagem)
      reads this, praticas
      requires Valid()
      ensures contexto.estrategias == Registrar(TODAS)
              ==> (r.Ok? <==> turma.Some? && inicio.Some? && fim.Some? && inicio.value <= fim.value)
      ensures contexto.estrategias == Registrar(TODAS)
              ==> r == EstrategiaPorTurmaPeriodo.Executar(Linhas(), NENHUM.(turma := turma, inicio := inicio, fim := fim))
    {
      RegistroPadrao(POR_TURMA_PERIODO);
      EstrategiaPorTurmaPeriodo.IgnoraOutrosParametros(Linhas(),
        NENHUM.(turmaId := turmaId, turma := turma, inicio := inicio, fim := fim),
        NENHUM.(turma := turma, inicio := inicio, fim := fim));
      ListarPraticas(POR_TURMA_PERIODO, NENHUM.(turmaId := turmaId, turma := turma, inicio := inicio, fim := fim))
    }
  }
}
