/** The class service: listing a professor's classes, renaming a class and deleting a class that
    has no submissions. */
module TurmaServico {
  import opened Base
  import opened Entidades
  import opened Sequencias
  import opened Repositorios
  import opened Banco

  /** A class as listed to its professor: its id and its name. */
  datatype TurmaDTO = TurmaDTO(id: int, nome: string)

  class TurmaService {
    const banco: BancoDeDados

    constructor (banco: BancoDeDados)
      ensures this.banco == banco
    {
      this.banco := banco;
    }

    /** `listarTurmasComIdPorProfessor(googleId)`: one (id, nome) pair per class of the professor, in
        store order. */
    function ListarTurmasComIdPorProfessor(googleId: string): (r: Result<seq<TurmaDTO>>)
      reads banco
      ensures var professor := FindProfessorByGoogleId(banco.professores, googleId);
        (r.Err? <==> professor.None?) && (r.Err? ==> r.erro == ProfessorNaoEncontrado)
        && (r.Ok? ==> var turmas := FindTurmasByProfessor(banco.turmas, professor.value);
                      |r.value| == |turmas|
                      && forall i :: 0 <= i < |turmas| ==> r.value[i] == TurmaDTO(turmas[i].id, turmas[i].nome))
    {
      var professor := FindProfessorByGoogleId(banco.professores, googleId);
      if professor.None? then Err(ProfessorNaoEncontrado)
      else Ok(Mapear(FindTurmasByProfessor(banco.turmas, professor.value), (t: Turma) => TurmaDTO(t.id, t.nome)))
    }

    /** `listarNomesPorProfessor(googleId)`: the names of the professor's classes, in store order. */
    function ListarNomesPorProfessor(googleId: string): (r: Result<seq<string>>)
      reads banco
      ensures var professor := FindProfessorByGoogleId(banco.professores, googleId);
        (r.Err? <==> professor.None?) && (r.Err? ==> r.erro == ProfessorNaoEncontrado)
        && (r.Ok? ==> var turmas := FindTurmasByProfessor(banco.turmas, professor.value);
                      |r.value| == |turmas| && forall i :: 0 <= i < |turmas| ==> r.value[i] == turmas[i].nome)
    {
      var professor := FindProfessorByGoogleId(banco.professores, googleId);
      if professor.None? then Err(ProfessorNaoEncontrado)
      else Ok(Mapear(FindTurmasByProfessor(banco.turmas, professor.value), (t: Turma) => t.nome))
    }

    /** The two listings fail together, and the names are those of the listed pairs, in order; every
        listed pair is a stored class of the professor. */
    lemma ListagensConcordam(googleId: string)
      ensures var comId := ListarTurmasComIdPorProfessor(googleId);
        var nomes := ListarNomesPorProfessor(googleId);
        (comId.Ok? <==> nomes.Ok?)
        && (comId.Ok? ==> |comId.value| == |nomes.value|
                          && (forall i :: 0 <= i < |nomes.value| ==> nomes.value[i] == comId.value[i].nome)
                          && forall i :: 0 <= i < |comId.value| ==>
                               exists t :: t in banco.turmas && TurmaDTO(t.id, t.nome) == comId.value[i]
                                           && DoProfessor(t, FindProfessorByGoogleId(banco.professores, googleId).value))
    {
      var comId := ListarTurmasComIdPorProfessor(googleId);
      if comId.Ok? {
        var turmas := FindTurmasByProfessor(banco.turmas, FindProfessorByGoogleId(banco.professores, googleId).value);
        forall i | 0 <= i < |comId.value|
          ensures exists t :: t in banco.turmas && TurmaDTO(t.id, t.nome) == comId.value[i]
                              && DoProfessor(t, FindProfessorByGoogleId(banco.professores, googleId).value)
        {
          assert turmas[i] in turmas;
        }
      }
    }

    /** `atualizarNomeTurma(id, novoNome)`: renames the class with this id and changes nothing else;
        an unknown id fails, and so does a name another class of the same professor has. */
    method AtualizarNomeTurma(id: int, novoNome: string) returns (r: Outcome)
      requires banco.Valid()
      modifies banco
      ensures banco.Valid()
      ensures var i := FindTurmaById(old(banco.turmas), id);
        if i.None? then r == Fail(TurmaNaoEncontrada) && banco.turmas == old(banco.turmas)
        else
          var renomeada := old(banco.turmas)[i.value].(nome := novoNome);
          if ColideCom(SemPosicao(old(banco.turmas), i.value), renomeada)
          then r == Fail(ViolacaoDeUnicidade) && banco.turmas == old(banco.turmas)
          else r == Pass && banco.turmas == old(banco.turmas)[i.value := renomeada]
      ensures banco.professores == old(banco.professores) && banco.alunos == old(banco.alunos)
      ensures banco.codigos == old(banco.codigos) && banco.registros == old(banco.registros)
      ensures banco.proximoId == old(banco.proximoId)
    {
      var i := FindTurmaById(banco.turmas, id);
      if i.None? {
        return Fail(TurmaNaoEncontrada);
      }
      r := banco.RenomearTurma(i.value, novoNome);
    }

    /** `excluirTurma(id)`: deletes the class with this id, and its codes with it; an unknown id
        fails, and so does a class one of whose codes has a submission. */
    method ExcluirTurma(id: int) returns (r: Outcome)
      requires banco.Valid()
      modifies banco
      ensures banco.Valid()
      ensures var i := FindTurmaById(old(banco.turmas), id);
        if i.None? then r == Fail(TurmaNaoEncontrada) && banco.turmas == old(banco.turmas) && banco.codigos == old(banco.codigos)
        else if PossuiRegistros(old(banco.codigos), old(banco.registros), id)
        then r == Fail(TurmaComRegistros) && banco.turmas == old(banco.turmas) && banco.codigos == old(banco.codigos)
        else r == Pass && banco.turmas == SemPosicao(old(banco.turmas), i.value)
             && banco.codigos == SemCodigosDaTurma(old(banco.codigos), id)
      ensures r == Pass ==> FindTurmaById(banco.turmas, id).None? && CodigosDaTurma(banco.codigos, id) == []
      ensures banco.professores == old(banco.professores) && banco.alunos == old(banco.alunos)
      ensures banco.registros == old(banco.registros) && banco.proximoId == old(banco.proximoId)
    {
      var i := FindTurmaById(banco.turmas, id);
      if i.None? {
        return Fail(TurmaNaoEncontrada);
      }
      if PossuiRegistros(banco.codigos, banco.registros, id) {
        return Fail(TurmaComRegistros);
      }
      ghost var antes := banco.turmas;
      banco.RemoverTurma(i.value);
      r := Pass;
      assert FindTurmaById(banco.turmas, id).None? by {
        forall k | 0 <= k < |banco.turmas| ensures banco.turmas[k].id != id {
          var k' := if k < i.value then k else k + 1;
          assert banco.turmas[k] == antes[k'] && k' != i.value;
        }
      }
    }
  }
}
