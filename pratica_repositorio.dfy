/** The derived queries of the session repository, over the stored rows. An entity parameter is
    matched on its id, as the generated SQL compares foreign keys. */
module PraticaRepositorio {
  import opened Base
  import opened Entidades
  import opened Sequencias
  import opened PraticaModelo

  /** The sort key of every `OrderByInicioDesc`. */
  function Inicio(p: PraticaLinha): int { p.inicio }

  /** The rows satisfying `p`, latest start first. */
  function OrdenadasPorInicio(store: seq<PraticaLinha>, p: PraticaLinha -> bool): (r: seq<PraticaLinha>)
    ensures |r| <= |store|
    ensures forall x :: x in r <==> x in store && p(x)
    ensures forall x :: multiset(r)[x] == if p(x) then multiset(store)[x] else 0
    ensures forall i :: 0 <= i < |r| ==> p(r[i])
    ensures forall i, j :: 0 <= i < j < |r| ==> r[i].inicio >= r[j].inicio
  {
    var filtradas := Filtrar(store, p);
    var ordenadas := OrdenarDesc(filtradas, Inicio);
    OrdenarDescOrdena(filtradas, Inicio);
    MesmosElementos(ordenadas, filtradas);
    assert forall i :: 0 <= i < |ordenadas| ==> p(ordenadas[i]) by {
      forall i | 0 <= i < |ordenadas| ensures p(ordenadas[i]) {
        assert ordenadas[i] in filtradas;
      }
    }
    ordenadas
  }

  /** The session is open and belongs to this student and this class. */
  predicate AbertaDoPar(p: PraticaLinha, aluno: Aluno, turma: Turma) {
    p.aluno.id == aluno.id && p.turma.id == turma.id && p.IsAberta()
  }

  /** `findFirstByAlunoAndTurmaAndCheckoutIsNullOrderByInicioDesc`: the position of an open session of
      the pair with the latest start (the first such position on a tie), or none if there is none. */
  function FindFirstByAlunoAndTurmaAndCheckoutIsNullOrderByInicioDesc(
    store: seq<PraticaLinha>, aluno: Aluno, turma: Turma): (r: Option<nat>)
    ensures r.Some? ==> r.value < |store| && AbertaDoPar(store[r.value], aluno, turma)
    ensures r.Some? ==> forall j :: 0 <= j < |store| && AbertaDoPar(store[j], aluno, turma)
                                    ==> store[j].inicio <= store[r.value].inicio
    ensures r.None? <==> forall j :: 0 <= j < |store| ==> !AbertaDoPar(store[j], aluno, turma)
  {
    if store == [] then None
    else
      var ultima := |store| - 1;
      var antes := FindFirstByAlunoAndTurmaAndCheckoutIsNullOrderByInicioDesc(store[..ultima], aluno, turma);
      if AbertaDoPar(store[ultima], aluno, turma)
         && (antes.None? || store[antes.value].inicio < store[ultima].inicio)
      then Some(ultima)
      else antes
  }

  /** `findByAlunoOrderByInicioDesc`. */
  function FindByAlunoOrderByInicioDesc(store: seq<PraticaLinha>, aluno: Aluno): (r: seq<PraticaLinha>)
    ensures forall x :: x in r <==> x in store && x.aluno.id == aluno.id
    ensures forall x :: multiset(r)[x] == if x.aluno.id == aluno.id then multiset(store)[x] else 0
    ensures forall i, j :: 0 <= i < j < |r| ==> r[i].inicio >= r[j].inicio
  {
    OrdenadasPorInicio(store, (x: PraticaLinha) => x.aluno.id == aluno.id)
  }

  /** `findByTurmaOrderByInicioDesc`. */
  function FindByTurmaOrderByInicioDesc(store: seq<PraticaLinha>, turma: Turma): (r: seq<PraticaLinha>)
    ensures forall x :: x in r <==> x in store && x.turma.id == turma.id
    ensures forall x :: multiset(r)[x] == if x.turma.id == turma.id then multiset(store)[x] else 0
    ensures forall i, j :: 0 <= i < j < |r| ==> r[i].inicio >= r[j].inicio
  {
    OrdenadasPorInicio(store, (x: PraticaLinha) => x.turma.id == turma.id)
  }

  /** `findByAlunoAndInicioBetween`: both ends inclusive; no order is requested, so store order. */
  function FindByAlunoAndInicioBetween(store: seq<PraticaLinha>, aluno: Aluno, inicio: int, fim: int)
    : (r: seq<PraticaLinha>)
    ensures forall x :: x in r <==> x in store && x.aluno.id == aluno.id && inicio <= x.inicio <= fim
    ensures forall x :: multiset(r)[x]
                        == if x.aluno.id == aluno.id && inicio <= x.inicio <= fim then multiset(store)[x] else 0
  {
    Filtrar(store, (x: PraticaLinha) => x.aluno.id == aluno.id && inicio <= x.inicio <= fim)
  }

  /** `findByTurmaAndInicioBetween`: both ends inclusive; no order is requested, so store order. */
  function FindByTurmaAndInicioBetween(store: seq<PraticaLinha>, turma: Turma, inicio: int, fim: int)
    : (r: seq<PraticaLinha>)
    ensures forall x :: x in r <==> x in store && x.turma.id == turma.id && inicio <= x.inicio <= fim
    ensures forall x :: multiset(r)[x]
                        == if x.turma.id == turma.id && inicio <= x.inicio <= fim then multiset(store)[x] else 0
  {
    Filtrar(store, (x: PraticaLinha) => x.turma.id == turma.id && inicio <= x.inicio <= fim)
  }

  /** `findByTurmaAndCheckoutIsNullOrderByInicioDesc`. */
  function FindByTurmaAndCheckoutIsNullOrderByInicioDesc(store: seq<PraticaLinha>, turma: Turma)
    : (r: seq<PraticaLinha>)
    ensures forall x :: x in r <==> x in store && x.turma.id == turma.id && x.IsAberta()
    ensures forall i :: 0 <= i < |r| ==> r[i].IsAberta()
    ensures forall x :: multiset(r)[x] == if x.turma.id == turma.id && x.IsAberta() then multiset(store)[x] else 0
    ensures forall i, j :: 0 <= i < j < |r| ==> r[i].inicio >= r[j].inicio
  {
    OrdenadasPorInicio(store, (x: PraticaLinha) => x.turma.id == turma.id && x.IsAberta())
  }

  /** `findByAlunoAndCheckoutIsNullOrderByInicioDesc`. */
  function FindByAlunoAndCheckoutIsNullOrderByInicioDesc(store: seq<PraticaLinha>, aluno: Aluno)
    : (r: seq<PraticaLinha>)
    ensures forall x :: x in r <==> x in store && x.aluno.id == aluno.id && x.IsAberta()
    ensures forall i :: 0 <= i < |r| ==> r[i].IsAberta()
    ensures forall x :: multiset(r)[x] == if x.aluno.id == aluno.id && x.IsAberta() then multiset(store)[x] else 0
    ensures forall i, j :: 0 <= i < j < |r| ==> r[i].inicio >= r[j].inicio
  {
    OrdenadasPorInicio(store, (x: PraticaLinha) => x.aluno.id == aluno.id && x.IsAberta())
  }

  /** `findByAlunoWithDetails`: the sessions whose student has this id, latest start first. */
  function FindByAlunoWithDetails(store: seq<PraticaLinha>, alunoId: int): (r: seq<PraticaLinha>)
    ensures forall x :: x in r <==> x in store && x.aluno.id == alunoId
    ensures forall x :: multiset(r)[x] == if x.aluno.id == alunoId then multiset(store)[x] else 0
    ensures forall i, j :: 0 <= i < j < |r| ==> r[i].inicio >= r[j].inicio
  {
    OrdenadasPorInicio(store, (x: PraticaLinha) => x.aluno.id == alunoId)
  }

  /** `findByTurmaWithDetails`: the sessions whose class has this id, latest start first. */
  function FindByTurmaWithDetails(store: seq<PraticaLinha>, turmaId: int): (r: seq<PraticaLinha>)
    ensures forall x :: x in r <==> x in store && x.turma.id == turmaId
    ensures forall x :: multiset(r)[x] == if x.turma.id == turmaId then multiset(store)[x] else 0
    ensures forall i, j :: 0 <= i < j < |r| ==> r[i].inicio >= r[j].inicio
  {
    OrdenadasPorInicio(store, (x: PraticaLinha) => x.turma.id == turmaId)
  }

  /** `findById`: the position of a session with this id, or none if no session has it. */
  function FindById(store: seq<PraticaLinha>, id: int): (r: Option<nat>)
    ensures r.Some? ==> r.value < |store| && store[r.value].id == id
    ensures r.None? <==> forall j :: 0 <= j < |store| ==> store[j].id != id
  {
    if store == [] then None
    else if store[|store| - 1].id == id then Some(|store| - 1)
    else FindById(store[..|store| - 1], id)
  }

  /** The single-session lookup picks a session that the open-sessions-of-the-student query lists,
      and no session of the pair in that list starts later. */
  lemma PrimeiraAbertaEstaNaLista(store: seq<PraticaLinha>, aluno: Aluno, turma: Turma)
    requires FindFirstByAlunoAndTurmaAndCheckoutIsNullOrderByInicioDesc(store, aluno, turma).Some?
    ensures var i := FindFirstByAlunoAndTurmaAndCheckoutIsNullOrderByInicioDesc(store, aluno, turma).value;
      var lista := FindByAlunoAndCheckoutIsNullOrderByInicioDesc(store, aluno);
      store[i] in lista
      && forall x :: x in lista && x.turma.id == turma.id ==> x.inicio <= store[i].inicio
  {
    var i := FindFirstByAlunoAndTurmaAndCheckoutIsNullOrderByInicioDesc(store, aluno, turma).value;
    var lista := FindByAlunoAndCheckoutIsNullOrderByInicioDesc(store, aluno);
    forall x | x in lista && x.turma.id == turma.id ensures x.inicio <= store[i].inicio {
      var j :| 0 <= j < |store| && store[j] == x;
      assert AbertaDoPar(store[j], aluno, turma);
    }
  }
}
