/** The listing of one class's open sessions. */
module EstrategiaAbertasPorTurma {
  import opened Base
  import opened Entidades
  import opened Sequencias
  import opened PraticaModelo
  import opened PraticaRepositorio
  import opened ListagemInterface
  import PraticaResumo

  /** `validarParametros`: the class object is required. */
  function ValidarParametros(p: Parametros): (r: Outcome)
    ensures r == Fail(ArgumentoInvalido(TurmaObrigatoria)) <==> p.turma.None?
    ensures r.Pass? <==> p.turma.Some?
  {
    if p.turma.None? then Fail(ArgumentoInvalido(TurmaObrigatoria)) else Pass
  }

  /** The summaries of the open sessions of the class, latest start first. */
  function ListarAbertasDaTurma(store: seq<PraticaLinha>, turma: Turma): (r: seq<PraticaResumo.PraticaResumoDTO>)
    ensures var linhas := FindByTurmaAndCheckoutIsNullOrderByInicioDesc(store, turma);
      |r| == |linhas| && forall i :: 0 <= i < |linhas| ==> r[i] == PraticaResumo.DePratica(linhas[i])
    ensures forall i :: 0 <= i < |r| ==> r[i].status == PraticaResumo.ABERTA
    ensures forall i, j :: 0 <= i < j < |r| ==> r[i].inicio >= r[j].inicio
  {
    var linhas := FindByTurmaAndCheckoutIsNullOrderByInicioDesc(store, turma);
    PraticaResumo.Resumir(linhas)
  }

  /** `executar`: validation, then the open sessions of the class. */
  function Executar(store: seq<PraticaLinha>, p: Parametros): (r: Listagem)
    ensures r.Err? <==> p.turma.None?
    ensures r.Err? ==> r.erro == ArgumentoInvalido(TurmaObrigatoria)
    ensures r.Ok? ==> r.value == ListarAbertasDaTurma(store, p.turma.value)
  {
    var v := ValidarParametros(p);
    if v.Fail? then Err(v.erro) else Ok(ListarAbertasDaTurma(store, p.turma.value))
  }

  function GetTipo(): (t: TipoEstrategia)
    ensures t == ABERTAS_POR_TURMA
  {
    ABERTAS_POR_TURMA
  }

  /** On success the summaries are exactly those of the open sessions of the class. */
  lemma ConteudoDasAbertas(store: seq<PraticaLinha>, p: Parametros)
    requires Executar(store, p).Ok?
    ensures var r, t := Executar(store, p).value, p.turma.value;
      (forall d :: d in r ==> exists x :: x in store && x.turma.id == t.id && x.IsAberta()
                                          && d == PraticaResumo.DePratica(x))
      && (forall x :: x in store && x.turma.id == t.id && x.IsAberta() ==> PraticaResumo.DePratica(x) in r)
  {
    PraticaResumo.ResumirElementos(FindByTurmaAndCheckoutIsNullOrderByInicioDesc(store, p.turma.value));
  }

  /** The class id, the student, the dates and the authentication token play no part. */
  lemma IgnoraOutrosParametros(store: seq<PraticaLinha>, p: Parametros, q: Parametros)
    requires p.turma == q.turma
    ensures Executar(store, p) == Executar(store, q)
  {
  }
}
