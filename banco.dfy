/** The database the code, submission and class services share: one table per entity, the
    relations between them read through ids, the unique constraints, and the saves and the delete
    the services issue. */
module Banco {
  import opened Base
  import opened Entidades
  import opened Sequencias
  import opened Repositorios
  import opened CodigoRepositorio

  /** Some class of `store` collides with `t` on the unique key (nome, professor_id). */
  predicate ColideCom(store: seq<Turma>, t: Turma) {
    exists i :: 0 <= i < |store| && MesmaChave(store[i], t)
  }

  /** The codes of the class with this id (`turma.getCodigos()`). */
  function CodigosDaTurma(codigos: seq<CodigoAvaliacao>, turmaId: int): (r: seq<CodigoAvaliacao>)
    ensures forall c :: c in r <==> c in codigos && c.turma.id == turmaId
  {
    Filtrar(codigos, (c: CodigoAvaliacao) => c.turma.id == turmaId)
  }

  /** The submissions made with this code (`codigo.getRegistros()`). */
  function RegistrosDoCodigo(registros: seq<RegistroEmocional>, c: CodigoAvaliacao): (r: seq<RegistroEmocional>)
    ensures forall x :: x in r <==> x in registros && x.codigoAvaliacaoUsado.Some? && x.codigoAvaliacaoUsado.value.id == c.id
  {
    Filtrar(registros, (x: RegistroEmocional) => x.codigoAvaliacaoUsado.Some? && x.codigoAvaliacaoUsado.value.id == c.id)
  }

  /** Some code of the class has a submission (the `anyMatch` of `excluirTurma`). */
  predicate PossuiRegistros(codigos: seq<CodigoAvaliacao>, registros: seq<RegistroEmocional>, turmaId: int) {
    exists c :: c in CodigosDaTurma(codigos, turmaId) && RegistrosDoCodigo(registros, c) != []
  }

  /** The class has submissions exactly when some stored submission was made with a stored code of
      that class. */
  lemma TurmaComRegistrosSeUsada(codigos: seq<CodigoAvaliacao>, registros: seq<RegistroEmocional>, turmaId: int)
    ensures PossuiRegistros(codigos, registros, turmaId)
        <==> exists k, j :: 0 <= k < |codigos| && 0 <= j < |registros| && codigos[k].turma.id == turmaId
                            && registros[j].codigoAvaliacaoUsado.Some?
                            && registros[j].codigoAvaliacaoUsado.value.id == codigos[k].id
  {
    if PossuiRegistros(codigos, registros, turmaId) {
      var c :| c in CodigosDaTurma(codigos, turmaId) && RegistrosDoCodigo(registros, c) != [];
      var x := RegistrosDoCodigo(registros, c)[0];
      assert x in RegistrosDoCodigo(registros, c);
      var k :| 0 <= k < |codigos| && codigos[k] == c;
      var j :| 0 <= j < |registros| && registros[j] == x;
      assert codigos[k].turma.id == turmaId && registros[j].codigoAvaliacaoUsado.value.id == codigos[k].id;
    }
    if exists k, j :: 0 <= k < |codigos| && 0 <= j < |registros| && codigos[k].turma.id == turmaId
                      && registros[j].codigoAvaliacaoUsado.Some?
                      && registros[j].codigoAvaliacaoUsado.value.id == codigos[k].id {
      var k, j :| 0 <= k < |codigos| && 0 <= j < |registros| && codigos[k].turma.id == turmaId
                  && registros[j].codigoAvaliacaoUsado.Some?
                  && registros[j].codigoAvaliacaoUsado.value.id == codigos[k].id;
      assert codigos[k] in CodigosDaTurma(codigos, turmaId);
      assert registros[j] in RegistrosDoCodigo(registros, codigos[k]);
    }
  }

  /** No two classes share the unique key or an id, and every id is below `limite`. */
  ghost predicate TurmasValidas(turmas: seq<Turma>, limite: int) {
    && (forall i, j :: 0 <= i < j < |turmas| ==> !MesmaChave(turmas[i], turmas[j]))
    && (forall i, j :: 0 <= i < j < |turmas| ==> turmas[i].id != turmas[j].id)
    && (forall i :: 0 <= i < |turmas| ==> turmas[i].id < limite)
  }

  /** No two codes share a value, and every id is below `limite`. */
  ghost predicate CodigosValidos(codigos: seq<CodigoAvaliacao>, limite: int) {
    CodigosUnicos(codigos) && forall i :: 0 <= i < |codigos| ==> codigos[i].id < limite
  }

  /** Deleting a class keeps the constraints of the class table. */
  lemma SemPosicaoMantemTurmasValidas(turmas: seq<Turma>, i: nat, limite: int)
    requires i < |turmas| && TurmasValidas(turmas, limite)
    ensures TurmasValidas(SemPosicao(turmas, i), limite)
  {
    var r := SemPosicao(turmas, i);
    forall a, b | 0 <= a < b < |r| ensures !MesmaChave(r[a], r[b]) && r[a].id != r[b].id {
      var a', b' := if a < i then a else a + 1, if b < i then b else b + 1;
      assert r[a] == turmas[a'] && r[b] == turmas[b'] && a' < b';
    }
  }

  /** The codes that remain once the class with this id is deleted with its codes. */
  function SemCodigosDaTurma(codigos: seq<CodigoAvaliacao>, turmaId: int): (r: seq<CodigoAvaliacao>)
    ensures forall c :: c in r <==> c in codigos && c.turma.id != turmaId
    ensures forall c :: multiset(r)[c] == if c.turma.id != turmaId then multiset(codigos)[c] else 0
  {
    Filtrar(codigos, (c: CodigoAvaliacao) => c.turma.id != turmaId)
  }

  /** Deleting the codes of a class keeps the constraints of the code table. */
  lemma SemCodigosMantemCodigosValidos(codigos: seq<CodigoAvaliacao>, turmaId: int, limite: int)
    requires CodigosValidos(codigos, limite)
    ensures CodigosValidos(SemCodigosDaTurma(codigos, turmaId), limite)
  {
    var r := SemCodigosDaTurma(codigos, turmaId);
    FiltrarPreservaDistintos(codigos, (c: CodigoAvaliacao) => c.turma.id != turmaId, (c: CodigoAvaliacao) => c.codigo);
    forall k | 0 <= k < |r| ensures r[k].id < limite {
      assert r[k] in codigos;
    }
  }

  class BancoDeDados {
    var professores: seq<Professor>
    var alunos: seq<Aluno>
    var turmas: seq<Turma>
    var codigos: seq<CodigoAvaliacao>
    var registros: seq<RegistroEmocional>
    /** The id the database gives the next row it inserts, whatever the table. */
    var proximoId: int

    /** A database whose users were created by the sign-in flow and that has no class, code or
        submission yet. */
    constructor (professores: seq<Professor>, alunos: seq<Aluno>)
      ensures this.professores == professores && this.alunos == alunos
      ensures turmas == [] && codigos == [] && registros == [] && proximoId == 1
      ensures Valid()
    {
      this.professores := professores;
      this.alunos := alunos;
      turmas := [];
      codigos := [];
      registros := [];
      proximoId := 1;
    }

    /** The unique constraints hold, and every id was given out before. */
    ghost predicate Valid()
      reads this
    {
      && TurmasValidas(turmas, proximoId)
      && CodigosValidos(codigos, proximoId)
      && (forall i :: 0 <= i < |registros| ==> registros[i].id.Some? && registros[i].id.value < proximoId)
    }

    /** `turmaRepository.save` of a new class of `professor`: it gets the next id, unless the unique
        key (nome, professor_id) is taken. */
    method InserirTurma(nome: string, professor: Professor) returns (r: Result<Turma>)
      requires Valid()
      modifies this
      ensures Valid()
      ensures var nova := Turma(old(proximoId), nome, Some(professor));
        if ColideCom(old(turmas), nova)
        then r == Err(ViolacaoDeUnicidade) && turmas == old(turmas) && proximoId == old(proximoId)
        else r == Ok(nova) && turmas == old(turmas) + [nova] && proximoId == old(proximoId) + 1
      ensures professores == old(professores) && alunos == old(alunos)
      ensures codigos == old(codigos) && registros == old(registros)
    {
      var nova := Turma(proximoId, nome, Some(professor));
      if ColideCom(turmas, nova) {
        r := Err(ViolacaoDeUnicidade);
      } else {
        turmas := turmas + [nova];
        proximoId := proximoId + 1;
        r := Ok(nova);
      }
    }

    /** `codigoRepository.save` of a new code: it gets the next id, unless its value is taken. */
    method InserirCodigo(c: CodigoAvaliacao) returns (r: Result<CodigoAvaliacao>)
      requires Valid()
      modifies this
      ensures Valid()
      ensures if ExistsByCodigo(old(codigos), c.codigo)
        then r == Err(ViolacaoDeUnicidade) && codigos == old(codigos) && proximoId == old(proximoId)
        else r == Ok(c.(id := old(proximoId))) && codigos == old(codigos) + [r.value]
             && proximoId == old(proximoId) + 1
      ensures professores == old(professores) && alunos == old(alunos)
      ensures turmas == old(turmas) && registros == old(registros)
    {
      if ExistsByCodigo(codigos, c.codigo) {
        r := Err(ViolacaoDeUnicidade);
      } else {
        var novo := c.(id := proximoId);
        codigos := codigos + [novo];
        proximoId := proximoId + 1;
        r := Ok(novo);
      }
    }

    /** `registroRepository.save` of a new submission: it gets the next id. */
    method InserirRegistro(x: RegistroEmocional) returns (salvo: RegistroEmocional)
      requires Valid()
      modifies this
      ensures Valid()
      ensures salvo == x.(id := Some(old(proximoId)))
      ensures registros == old(registros) + [salvo] && proximoId == old(proximoId) + 1
      ensures professores == old(professores) && alunos == old(alunos)
      ensures turmas == old(turmas) && codigos == old(codigos)
    {
      salvo := x.(id := Some(proximoId));
      registros := registros + [salvo];
      proximoId := proximoId + 1;
    }

    /** `turmaRepository.save` of the stored class at position `i` under a new name (an UPDATE):
        rejected when another class of the same professor has that name. */
    method RenomearTurma(i: nat, nome: string) returns (r: Outcome)
      requires Valid() && i < |turmas|
      modifies this
      ensures Valid()
      ensures var renomeada := old(turmas)[i].(nome := nome);
        if ColideCom(SemPosicao(old(turmas), i), renomeada)
        then r == Fail(ViolacaoDeUnicidade) && turmas == old(turmas)
        else r == Pass && turmas == old(turmas)[i := renomeada]
      ensures professores == old(professores) && alunos == old(alunos) && proximoId == old(proximoId)
      ensures codigos == old(codigos) && registros == old(registros)
    {
      var renomeada := turmas[i].(nome := nome);
      var outras := SemPosicao(turmas, i);
      if ColideCom(outras, renomeada) {
        r := Fail(ViolacaoDeUnicidade);
      } else {
        ghost var antes := turmas;
        turmas := turmas[i := renomeada];
        r := Pass;
        forall a, b | 0 <= a < b < |turmas| ensures !MesmaChave(turmas[a], turmas[b]) {
          if a == i {
            assert turmas[b] == outras[b - 1];
          } else if b == i {
            assert turmas[a] == outras[a];
          } else {
            assert turmas[a] == antes[a] && turmas[b] == antes[b];
          }
        }
      }
    }

    /** `turmaRepository.delete` of the stored class at position `i`; the cascade deletes its codes. */
    method RemoverTurma(i: nat)
      requires Valid() && i < |turmas|
      modifies this
      ensures Valid()
      ensures turmas == SemPosicao(old(turmas), i)
      ensures codigos == SemCodigosDaTurma(old(codigos), old(turmas)[i].id)
      ensures professores == old(professores) && alunos == old(alunos) && proximoId == old(proximoId)
      ensures registros == old(registros)
    {
      var id := turmas[i].id;
      var novasTurmas, novosCodigos := SemPosicao(turmas, i), SemCodigosDaTurma(codigos, id);
      assert TurmasValidas(novasTurmas, proximoId) && CodigosValidos(novosCodigos, proximoId) by {
        SemPosicaoMantemTurmasValidas(turmas, i, proximoId);
        SemCodigosMantemCodigosValidos(codigos, id, proximoId);
      }
      turmas, codigos := novasTurmas, novosCodigos;
    }
  }
}
