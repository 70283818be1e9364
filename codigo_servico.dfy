/** The evaluation-code service: a professor issues a check-in or check-out code for a class,
    creating the class on first use. */
module CodigoServico {
  import opened Base
  import opened Entidades
  import opened Sequencias
  import opened Repositorios
  import opened CodigoRepositorio
  import opened Banco

  /** The alphabet of the random codes: the 26 capital letters, then the 10 digits. */
  const CARACTERES: string := "ABCDEFGHIJKLMNOPQRSTUVWXYZ0123456789"
  /** The length of an issued code. */
  const TAMANHO_CODIGO: int := 6
  /** How long an issued code stays valid: 30 minutes, in seconds. */
  const VALIDADE: int := 30 * 60

  /** A value `gerarCodigoAleatorio(TAMANHO_CODIGO)` can draw: six characters of the alphabet. */
  predicate Sorteavel(v: string) {
    |v| == TAMANHO_CODIGO && forall k :: 0 <= k < |v| ==> v[k] in CARACTERES
  }

  /** A code issued at `agora` with this kind, professor and class: active, expiring `VALIDADE`
      later, its value one that can be drawn. */
  predicate Emitido(c: CodigoAvaliacao, tipo: TipoAvaliacao, agora: int, professor: Professor, turma: Turma) {
    && c.ativo && c.tipo == tipo && c.dataCriacao == agora && c.dataExpiracao == agora + VALIDADE
    && c.professor == professor && c.turma == turma && Sorteavel(c.codigo)
  }

  /** An issued code can be used until just before it expires, and not from then on. */
  lemma EmitidoValidoPorTrintaMinutos(c: CodigoAvaliacao, tipo: TipoAvaliacao, agora: int, professor: Professor,
                                      turma: Turma, t: int)
    requires Emitido(c, tipo, agora, professor, turma)
    ensures Valido(c, t) <==> t < agora + 1800
  {
  }

  /** The class `gerarCodigo` uses: the professor's class with this name if there is one, otherwise
      the class it creates, which gets the id `novoId`. */
  function TurmaObtida(turmas: seq<Turma>, nomeTurma: string, professor: Professor, novoId: int): (r: Turma)
    ensures r.nome == nomeTurma && DoProfessor(r, professor)
    ensures FindTurmaByNomeAndProfessor(turmas, nomeTurma, professor).None? ==> r == Turma(novoId, nomeTurma, Some(professor))
    ensures FindTurmaByNomeAndProfessor(turmas, nomeTurma, professor).Some? ==> r in turmas
  {
    var existente := FindTurmaByNomeAndProfessor(turmas, nomeTurma, professor);
    if existente.Some? then turmas[existente.value] else Turma(novoId, nomeTurma, Some(professor))
  }

  class CodigoAvaliacaoService {
    const banco: BancoDeDados

    constructor (banco: BancoDeDados)
      ensures this.banco == banco
    {
      this.banco := banco;
    }

    /** What `gerarCodigo(googleId, nomeTurma, tipo)` at time `agora` did, returning `r`:
        - an unknown professor fails and saves nothing;
        - otherwise the class is taken or created first, and stays created whatever follows;
        - a code is then issued for it and appended, unless its random value is taken, in which case
          the unique code column makes the save fail: so a failure means that some value that can be
          drawn was already stored, and with no stored code the issuance never fails. */
    twostate predicate Gerou(googleId: string, nomeTurma: string, tipo: TipoAvaliacao, agora: int,
                             new r: Result<CodigoAvaliacao>)
      reads banco
    {
      var professor := FindProfessorByGoogleId(old(banco.professores), googleId);
      && banco.professores == old(banco.professores) && banco.alunos == old(banco.alunos)
      && banco.registros == old(banco.registros)
      && if professor.None? then
           r == Err(ProfessorNaoEncontrado) && banco.turmas == old(banco.turmas)
           && banco.codigos == old(banco.codigos) && banco.proximoId == old(banco.proximoId)
         else
           var criada := FindTurmaByNomeAndProfessor(old(banco.turmas), nomeTurma, professor.value).None?;
           var turma := TurmaObtida(old(banco.turmas), nomeTurma, professor.value, old(banco.proximoId));
           && banco.turmas == (if criada then old(banco.turmas) + [turma] else old(banco.turmas))
           && (r.Ok? ==> Emitido(r.value, tipo, agora, professor.value, turma)
                         && !ExistsByCodigo(old(banco.codigos), r.value.codigo)
                         && banco.codigos == old(banco.codigos) + [r.value])
           && (r.Err? ==> r.erro == ViolacaoDeUnicidade && banco.codigos == old(banco.codigos)
                          && exists v :: Sorteavel(v) && ExistsByCodigo(old(banco.codigos), v))
    }

    /** With an empty code table a known professor always gets a code. */
    twostate lemma SemCodigosSempreEmite(googleId: string, nomeTurma: string, tipo: TipoAvaliacao, agora: int,
                                         new r: Result<CodigoAvaliacao>)
      requires Gerou(googleId, nomeTurma, tipo, agora, r)
      requires old(banco.codigos) == [] && FindProfessorByGoogleId(old(banco.professores), googleId).Some?
      ensures r.Ok? && banco.codigos == [r.value]
    {
    }

    /** `gerarCodigoCheckin`. */
    method GerarCodigoCheckin(googleId: string, nomeTurma: string, agora: int) returns (r: Result<CodigoAvaliacao>)
      requires banco.Valid()
      modifies banco
      ensures banco.Valid() && Gerou(googleId, nomeTurma, CHECKIN, agora, r)
    {
      r := GerarCodigo(googleId, nomeTurma, CHECKIN, agora);
    }

    /** `gerarCodigoCheckout`. */
    method GerarCodigoCheckout(googleId: string, nomeTurma: string, agora: int) returns (r: Result<CodigoAvaliacao>)
      requires banco.Valid()
      modifies banco
      ensures banco.Valid() && Gerou(googleId, nomeTurma, CHECKOUT, agora, r)
    {
      r := GerarCodigo(googleId, nomeTurma, CHECKOUT, agora);
    }

    /** `gerarCodigo(googleId, nomeTurma, tipo)` at time `agora`. */
    method GerarCodigo(googleId: string, nomeTurma: string, tipo: TipoAvaliacao, agora: int)
      returns (r: Result<CodigoAvaliacao>)
      requires banco.Valid()
      modifies banco
      ensures banco.Valid() && Gerou(googleId, nomeTurma, tipo, agora, r)
    {
      var p := FindProfessorByGoogleId(banco.professores, googleId);
      if p.None? {
        return Err(ProfessorNaoEncontrado);
      }
      var professor := p.value;
      var existente := FindTurmaByNomeAndProfessor(banco.turmas, nomeTurma, professor);
      var turma: Turma;
      if existente.Some? {
        turma := banco.turmas[existente.value];
      } else {
        assert !ColideCom(banco.turmas, Turma(banco.proximoId, nomeTurma, Some(professor)));
        var salva := banco.InserirTurma(nomeTurma, professor);
        turma := salva.value;
      }
      var valor := GerarCodigoAleatorio(TAMANHO_CODIGO);
      var codigo := CodigoAvaliacao(0, valor, tipo, agora, agora + VALIDADE, true, professor, turma);
      r := banco.InserirCodigo(codigo);
      assert Sorteavel(valor);
    }

    /** `gerarCodigoAleatorio(tamanho)`: each character is drawn from the alphabet; the draw of
        `Random.nextInt(36)` is left open. */
    method GerarCodigoAleatorio(tamanho: int) returns (codigo: string)
      ensures |codigo| == if tamanho < 0 then 0 else tamanho
      ensures forall k :: 0 <= k < |codigo| ==> codigo[k] in CARACTERES
    {
      codigo := "";
      var i := 0;
      while i < tamanho
        invariant 0 <= i <= (if tamanho < 0 then 0 else tamanho) && |codigo| == i
        invariant forall k :: 0 <= k < |codigo| ==> codigo[k] in CARACTERES
      {
        var sorteado :| 0 <= sorteado < |CARACTERES|;
        codigo := codigo + [CARACTERES[sorteado]];
        i := i + 1;
      }
    }

    /** `listarNomesPorProfessor(googleId)`: the names of the professor's classes, in store order. */
    function ListarNomesPorProfessor(googleId: string): (r: Result<seq<string>>)
      reads banco
      ensures var professor := FindProfessorByGoogleId(banco.professores, googleId);
        (r.Err? <==> professor.None?) && (r.Err? ==> r.erro == ProfessorNaoEncontrado)
        && (r.Ok? ==> var turmas := FindTurmasByProfessor(banco.turmas, professor.value);
                      |r.value| == |turmas| && forall i :: 0 <= i < |turmas| ==> r.value[i] == turmas[i].nome)
    {
      var professor := FindProfessorByGoogleId(banco.professores, googleId);
      if professor.None? then Err(ProfessorNaoEncontrado)
      else Ok(Mapear(FindTurmasByProfessor(banco.turmas, professor.value), (t: Turma) => t.nome))
    }
  }
}
