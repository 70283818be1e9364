/** The lookups of the professor, student, class and submission repositories that the services use,
    as functions over the stored rows. An entity parameter is matched on its id. */
module Repositorios {
  import opened Base
  import opened Entidades
  import opened Sequencias

  /** `ProfessorRepository.findByGoogleId`. */
  function FindProfessorByGoogleId(store: seq<Professor>, googleId: string): (r: Option<Professor>)
    ensures r.Some? ==> r.value in store && r.value.googleId == googleId
    ensures r.None? <==> forall i :: 0 <= i < |store| ==> store[i].googleId != googleId
  {
    var i := Primeira(store, (p: Professor) => p.googleId == googleId);
    if i.Some? then Some(store[i.value]) else None
  }

  /** `AlunoRepository.findByGoogleId`. */
  function FindAlunoByGoogleId(store: seq<Aluno>, googleId: string): (r: Option<Aluno>)
    ensures r.Some? ==> r.value in store && r.value.googleId == googleId
    ensures r.None? <==> forall i :: 0 <= i < |store| ==> store[i].googleId != googleId
  {
    var i := Primeira(store, (a: Aluno) => a.googleId == googleId);
    if i.Some? then Some(store[i.value]) else None
  }

  /** The class belongs to this professor (its professor column holds the professor's id). */
  predicate DoProfessor(t: Turma, professor: Professor) {
    t.professor.Some? && t.professor.value.id == professor.id
  }

  /** The two classes collide on the unique key (nome, professor_id) of the class table; a null
      professor collides with nothing, as nulls do in an SQL unique constraint. */
  predicate MesmaChave(t: Turma, u: Turma) {
    t.nome == u.nome && t.professor.Some? && u.professor.Some? && t.professor.value.id == u.professor.value.id
  }

  /** `TurmaRepository.findByNomeAndProfessor`: the position of the professor's class with this name. */
  function FindTurmaByNomeAndProfessor(store: seq<Turma>, nome: string, professor: Professor): (r: Option<nat>)
    ensures r.Some? ==> r.value < |store| && store[r.value].nome == nome && DoProfessor(store[r.value], professor)
    ensures r.None? <==> forall i :: 0 <= i < |store| ==> !(store[i].nome == nome && DoProfessor(store[i], professor))
  {
    Primeira(store, (t: Turma) => t.nome == nome && DoProfessor(t, professor))
  }

  /** `TurmaRepository.findByProfessor`: the professor's classes, in store order. */
  function FindTurmasByProfessor(store: seq<Turma>, professor: Professor): (r: seq<Turma>)
    ensures forall i :: 0 <= i < |r| ==> DoProfessor(r[i], professor)
    ensures forall t :: t in r <==> t in store && DoProfessor(t, professor)
    ensures forall t :: multiset(r)[t] == if DoProfessor(t, professor) then multiset(store)[t] else 0
  {
    Filtrar(store, (t: Turma) => DoProfessor(t, professor))
  }

  /** `TurmaRepository.findById`: the position of the class with this id. */
  function FindTurmaById(store: seq<Turma>, id: int): (r: Option<nat>)
    ensures r.Some? ==> r.value < |store| && store[r.value].id == id
    ensures r.None? <==> forall i :: 0 <= i < |store| ==> store[i].id != id
  {
    Primeira(store, (t: Turma) => t.id == id)
  }

  /** The sort key of `findAllByOrderByTimestampDesc`. */
  function Timestamp(r: RegistroEmocional): int { r.timestamp }

  /** `RegistroEmocionalRepository.findAllByOrderByTimestampDesc`: every submission, latest first. */
  function FindAllRegistrosByOrderByTimestampDesc(store: seq<RegistroEmocional>): (r: seq<RegistroEmocional>)
    ensures |r| == |store| && multiset(r) == multiset(store)
    ensures forall i, j :: 0 <= i < j < |r| ==> r[i].timestamp >= r[j].timestamp
  {
    OrdenarDescOrdena(store, Timestamp);
    OrdenarDesc(store, Timestamp)
  }
}
