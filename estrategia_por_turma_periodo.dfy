/** The listing of one class's sessions that started within a period. */
module EstrategiaPorTurmaPeriodo {
  import opened Base
  import opened Sequencias
  import opened PraticaModelo
  import opened PraticaRepositorio
  import opened ListagemInterface
  import PraticaResumo

  /** `validarParametros`: the class and both ends are required, and the period may not start after
      it ends; a period of a single instant is accepted. */
  function ValidarParametros(p: Parametros): (r: Outcome)
    ensures p.turma.None? ==> r == Fail(ArgumentoInvalido(TurmaObrigatoria))
    ensures p.turma.Some? && (p.inicio.None? || p.fim.None?) ==> r == Fail(ArgumentoInvalido(DatasObrigatorias))
    ensures p.turma.Some? && p.inicio.Some? && p.fim.Some? && p.inicio.value > p.fim.value
            ==> r == Fail(ArgumentoInvalido(InicioAposFim))
    ensures r.Pass? <==> p.turma.Some? && p.inicio.Some? && p.fim.Some? && p.inicio.value <= p.fim.value
  {
    if p.turma.None? then Fail(ArgumentoInvalido(TurmaObrigatoria))
    else if p.inicio.None? || p.fim.None? then Fail(ArgumentoInvalido(DatasObrigatorias))
    else if p.inicio.value > p.fim.value then Fail(ArgumentoInvalido(InicioAposFim))
    else Pass
  }

  /** `executar`: validation first, then one summary per session of the class in the period, in the
      order the query yields them. */
  function Executar(store: seq<PraticaLinha>, p: Parametros): (r: Listagem)
    ensures ValidarParametros(p).Fail? ==> r == Err(ValidarParametros(p).erro)
    ensures r.Ok? <==> ValidarParametros(p).Pass?
    ensures r.Ok? ==>
      var linhas := FindByTurmaAndInicioBetween(store, p.turma.value, p.inicio.value, p.fim.value);
      |r.value| == |linhas| && forall i :: 0 <= i < |linhas| ==> r.value[i] == PraticaResumo.DePratica(linhas[i])
  {
    var v := ValidarParametros(p);
    if v.Fail? then Err(v.erro)
    else Ok(PraticaResumo.Resumir(FindByTurmaAndInicioBetween(store, p.turma.value, p.inicio.value, p.fim.value)))
  }

  function GetTipo(): (t: TipoEstrategia)
    ensures t == POR_TURMA_PERIODO
  {
    POR_TURMA_PERIODO
  }

  /** On success each summary comes from a session of the class whose start lies in the closed
      period, and each such session has its summary in the result. */
  lemma ConteudoDoPeriodo(store: seq<PraticaLinha>, p: Parametros)
    requires Executar(store, p).Ok?
    ensures var r, t, a, b := Executar(store, p).value, p.turma.value, p.inicio.value, p.fim.value;
      (forall d :: d in r ==> exists x :: x in store && x.turma.id == t.id && a <= x.inicio <= b
                                          && d == PraticaResumo.DePratica(x))
      && (forall x :: x in store && x.turma.id == t.id && a <= x.inicio <= b ==> PraticaResumo.DePratica(x) in r)
  {
    PraticaResumo.ResumirElementos(FindByTurmaAndInicioBetween(store, p.turma.value, p.inicio.value, p.fim.value));
  }

  /** The student, the class id and the authentication token play no part. */
  lemma IgnoraOutrosParametros(store: seq<PraticaLinha>, p: Parametros, q: Parametros)
    requires p.turma == q.turma && p.inicio == q.inicio && p.fim == q.fim
    ensures Executar(store, p) == Executar(store, q)
  {
  }
}
