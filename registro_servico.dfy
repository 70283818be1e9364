/** The emotional-submission service: recording a submission made with an evaluation code, the
    validity check of a code, and the dashboard listing. */
module RegistroServico {
  import opened Base
  import opened Entidades
  import opened Repositorios
  import opened CodigoRepositorio
  import opened Banco

  /** One dashboard entry: the formatted date, the emotion, the kind's name and the class name. */
  datatype DashboardRegistroDTO = DashboardRegistroDTO(data: string, emocao: int, tipo: string, turma: string)

  /** The submission `registrarEmocao` builds at time `agora`, before the save gives it an id, or
      the exception it throws: the code is checked first, the student second. */
  function NovoRegistro(codigos: seq<CodigoAvaliacao>, alunos: seq<Aluno>, googleId: string, codigo: string,
                        emocao: int, agora: int): (r: Result<RegistroEmocional>)
    ensures FindByCodigoAndAtivoTrueAndDataExpiracaoAfter(codigos, codigo, agora).None?
            <==> r == Err(CodigoInvalidoOuExpirado)
    ensures (FindByCodigoAndAtivoTrueAndDataExpiracaoAfter(codigos, codigo, agora).Some?
             && FindAlunoByGoogleId(alunos, googleId).None?) <==> r == Err(AlunoNaoEncontrado)
    ensures r.Ok? ==>
      var c := codigos[FindByCodigoAndAtivoTrueAndDataExpiracaoAfter(codigos, codigo, agora).value];
      && r.value.codigoAvaliacaoUsado == Some(c) && c.codigo == codigo && Valido(c, agora)
      && r.value.tipoSubmissao == c.tipo && r.value.turma == c.turma
      && Some(r.value.aluno) == FindAlunoByGoogleId(alunos, googleId) && r.value.aluno.googleId == googleId
      && r.value.emocao == emocao && r.value.timestamp == agora && r.value.id.None?
  {
    var v := FindByCodigoAndAtivoTrueAndDataExpiracaoAfter(codigos, codigo, agora);
    if v.None? then Err(CodigoInvalidoOuExpirado)
    else
      var aluno := FindAlunoByGoogleId(alunos, googleId);
      if aluno.None? then Err(AlunoNaoEncontrado)
      else
        var c := codigos[v.value];
        Ok(RegistroEmocional(None, emocao, agora, c.tipo, aluno.value, Some(c), c.turma))
  }

  /** A recorded submission was made with a code that was valid at the submission's own time, and
      takes its kind and its class from that code. */
  lemma RegistroCoerenteComCodigo(codigos: seq<CodigoAvaliacao>, alunos: seq<Aluno>, googleId: string,
                                  codigo: string, emocao: int, agora: int)
    requires NovoRegistro(codigos, alunos, googleId, codigo, emocao, agora).Ok?
    ensures var x := NovoRegistro(codigos, alunos, googleId, codigo, emocao, agora).value;
      x.codigoAvaliacaoUsado.Some? && x.codigoAvaliacaoUsado.value in codigos
      && Valido(x.codigoAvaliacaoUsado.value, x.timestamp)
      && x.tipoSubmissao == x.codigoAvaliacaoUsado.value.tipo && x.turma == x.codigoAvaliacaoUsado.value.turma
  {
    var v := FindByCodigoAndAtivoTrueAndDataExpiracaoAfter(codigos, codigo, agora);
    assert codigos[v.value] in codigos;
  }

  /** The name shown for a submission's class: that of the stored class with its id, since the
      entity is read through its reference; the submission's own copy when the class is gone. */
  function NomeDaTurma(turmas: seq<Turma>, t: Turma): (r: string)
    ensures FindTurmaById(turmas, t.id).Some? ==> r == turmas[FindTurmaById(turmas, t.id).value].nome
    ensures FindTurmaById(turmas, t.id).None? ==> r == t.nome
  {
    var i := FindTurmaById(turmas, t.id);
    if i.Some? then turmas[i.value].nome else t.nome
  }

  class RegistroEmocionalService {
    const banco: BancoDeDados

    constructor (banco: BancoDeDados)
      ensures this.banco == banco
    {
      this.banco := banco;
    }

    /** `registrarEmocao(googleId, codigo, emocao)` at time `agora`: saves the submission built by
        `NovoRegistro` and returns it; on an exception nothing is saved. Sessions are not touched:
        this service has no access to the session store. */
    method RegistrarEmocao(googleId: string, codigo: string, emocao: int, agora: int)
      returns (r: Result<RegistroEmocional>)
      requires banco.Valid()
      modifies banco
      ensures banco.Valid()
      ensures var n := NovoRegistro(old(banco.codigos), old(banco.alunos), googleId, codigo, emocao, agora);
        if n.Err?
        then r == n && banco.registros == old(banco.registros) && banco.proximoId == old(banco.proximoId)
        else r == Ok(n.value.(id := Some(old(banco.proximoId))))
             && banco.registros == old(banco.registros) + [r.value] && banco.proximoId == old(banco.proximoId) + 1
      ensures banco.professores == old(banco.professores) && banco.alunos == old(banco.alunos)
      ensures banco.turmas == old(banco.turmas) && banco.codigos == old(banco.codigos)
    {
      var v := FindByCodigoAndAtivoTrueAndDataExpiracaoAfter(banco.codigos, codigo, agora);
      if v.None? {
        return Err(CodigoInvalidoOuExpirado);
      }
      var codigoAvaliacao := banco.codigos[v.value];
      var tipo := codigoAvaliacao.tipo;
      var aluno := FindAlunoByGoogleId(banco.alunos, googleId);
      if aluno.None? {
        return Err(AlunoNaoEncontrado);
      }
      var registro := RegistroEmocional(None, emocao, agora, tipo, aluno.value, Some(codigoAvaliacao),
                                        codigoAvaliacao.turma);
      var salvo := banco.InserirRegistro(registro);
      r := Ok(salvo);
    }

    /** `verificarCodigoValido(codigo)` at time `agora`. */
    function VerificarCodigoValido(codigo: string, agora: int): (r: bool)
      reads banco
      ensures r <==> exists i :: 0 <= i < |banco.codigos| && banco.codigos[i].codigo == codigo
                                 && Valido(banco.codigos[i], agora)
    {
      FindByCodigoAndAtivoTrueAndDataExpiracaoAfter(banco.codigos, codigo, agora).Some?
    }

    /** A code passes the check exactly when `registrarEmocao` at the same time gets past the code
        check, whoever submits. */
    lemma ValidoSeAceitoPorRegistrar(googleId: string, codigo: string, emocao: int, agora: int)
      ensures VerificarCodigoValido(codigo, agora)
              <==> NovoRegistro(banco.codigos, banco.alunos, googleId, codigo, emocao, agora) != Err(CodigoInvalidoOuExpirado)
    {
    }

    /** `getDashboardRegistros()`, with the date pattern `dd/MM/yyyy HH:mm` given as `formatar`: one
        entry per stored submission, latest first. */
    function GetDashboardRegistros(formatar: int -> string): (r: seq<DashboardRegistroDTO>)
      reads banco
      ensures var ordenados := FindAllRegistrosByOrderByTimestampDesc(banco.registros);
        |r| == |banco.registros|
        && forall i :: 0 <= i < |r| ==>
             r[i].data == formatar(ordenados[i].timestamp) && r[i].emocao == ordenados[i].emocao
             && r[i].tipo == ordenados[i].tipoSubmissao.Nome() && r[i].turma == NomeDaTurma(banco.turmas, ordenados[i].turma)
    {
      var ordenados := FindAllRegistrosByOrderByTimestampDesc(banco.registros);
      var turmas := banco.turmas;
      seq(|ordenados|, i requires 0 <= i < |ordenados| =>
        DashboardRegistroDTO(formatar(ordenados[i].timestamp), ordenados[i].emocao,
                             ordenados[i].tipoSubmissao.Nome(), NomeDaTurma(turmas, ordenados[i].turma)))
    }

    /** The dashboard lists every stored submission exactly once, latest first: its i-th entry shows
        the i-th of a rearrangement of the store whose timestamps never increase. */
    lemma DashboardOrdenado(formatar: int -> string)
      ensures var r := GetDashboardRegistros(formatar);
        exists ordenados: seq<RegistroEmocional> ::
          && multiset(ordenados) == multiset(banco.registros)
          && (forall i, j :: 0 <= i < j < |ordenados| ==> ordenados[i].timestamp >= ordenados[j].timestamp)
          && |r| == |ordenados|
          && forall i :: 0 <= i < |r| ==> r[i].emocao == ordenados[i].emocao && r[i].data == formatar(ordenados[i].timestamp)
    {
      var ordenados := FindAllRegistrosByOrderByTimestampDesc(banco.registros);
      assert multiset(ordenados) == multiset(banco.registros);
    }
  }
}
