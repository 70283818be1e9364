/** The listing of every session of the class with a given id. */
module EstrategiaPorTurma {
  import opened Base
  import opened Sequencias
  import opened PraticaModelo
  import opened PraticaRepositorio
  import opened ListagemInterface
  import PraticaResumo

  /** `validarParametros`: the class id is required. */
  function ValidarParametros(p: Parametros): (r: Outcome)
    ensures r == Fail(ArgumentoInvalido(TurmaIdObrigatorio)) <==> p.turmaId.None?
    ensures r.Pass? <==> p.turmaId.Some?
  {
    if p.turmaId.None? then Fail(ArgumentoInvalido(TurmaIdObrigatorio)) else Pass
  }

  /** The summaries of the sessions of the class `turmaId`, open or closed, latest start first. */
  function ListarDaTurma(store: seq<PraticaLinha>, turmaId: int): (r: seq<PraticaResumo.PraticaResumoDTO>)
    ensures var linhas := FindByTurmaWithDetails(store, turmaId);
      |r| == |linhas| && forall i :: 0 <= i < |linhas| ==> r[i] == PraticaResumo.DePratica(linhas[i])
    ensures forall i, j :: 0 <= i < j < |r| ==> r[i].inicio >= r[j].inicio
  {
    var linhas := FindByTurmaWithDetails(store, turmaId);
    PraticaResumo.Resumir(linhas)
  }

  /** The summaries are exactly those of the sessions of the class, open or closed. */
  lemma ConteudoDaTurma(store: seq<PraticaLinha>, turmaId: int)
    ensures var r := ListarDaTurma(store, turmaId);
      (forall d :: d in r ==> exists x :: x in store && x.turma.id == turmaId && d == PraticaResumo.DePratica(x))
      && (forall x :: x in store && x.turma.id == turmaId ==> PraticaResumo.DePratica(x) in r)
  {
    PraticaResumo.ResumirElementos(FindByTurmaWithDetails(store, turmaId));
  }

  /** `executar`: validation, then the sessions of the class with that id. */
  function Executar(store: seq<PraticaLinha>, p: Parametros): (r: Listagem)
    ensures r.Err? <==> p.turmaId.None?
    ensures r.Err? ==> r.erro == ArgumentoInvalido(TurmaIdObrigatorio)
    ensures r.Ok? ==> r.value == ListarDaTurma(store, p.turmaId.value)
  {
    var v := ValidarParametros(p);
    if v.Fail? then Err(v.erro) else Ok(ListarDaTurma(store, p.turmaId.value))
  }

  function GetTipo(): (t: TipoEstrategia)
    ensures t == POR_TURMA
  {
    POR_TURMA
  }

  /** The class object, the student, the dates and the authentication token play no part. */
  lemma IgnoraOutrosParametros(store: seq<PraticaLinha>, p: Parametros, q: Parametros)
    requires p.turmaId == q.turmaId
    ensures Executar(store, p) == Executar(store, q)
  {
  }
}
