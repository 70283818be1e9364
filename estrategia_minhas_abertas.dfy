/** The listing of one student's open sessions, across all classes. */
module EstrategiaMinhasAbertas {
  import opened Base
  import opened Entidades
  import opened Sequencias
  import opened PraticaModelo
  import opened PraticaRepositorio
  import opened ListagemInterface
  import PraticaResumo

  /** `validarParametros`: the student object is required. */
  function ValidarParametros(p: Parametros): (r: Outcome)
    ensures r == Fail(ArgumentoInvalido(AlunoObrigatorio)) <==> p.aluno.None?
    ensures r.Pass? <==> p.aluno.Some?
  {
    if p.aluno.None? then Fail(ArgumentoInvalido(AlunoObrigatorio)) else Pass
  }

  /** The summaries of the open sessions of the student, latest start first. */
  function ListarAbertasDoAluno(store: seq<PraticaLinha>, aluno: Aluno): (r: seq<PraticaResumo.PraticaResumoDTO>)
    ensures var linhas := FindByAlunoAndCheckoutIsNullOrderByInicioDesc(store, aluno);
      |r| == |linhas| && forall i :: 0 <= i < |linhas| ==> r[i] == PraticaResumo.DePratica(linhas[i])
    ensures forall i :: 0 <= i < |r| ==> r[i].status == PraticaResumo.ABERTA
    ensures forall i, j :: 0 <= i < j < |r| ==> r[i].inicio >= r[j].inicio
  {
    var linhas := FindByAlunoAndCheckoutIsNullOrderByInicioDesc(store, aluno);
    PraticaResumo.Resumir(linhas)
  }

  /** `executar`: validation, then the open sessions of the student. */
  function Executar(store: seq<PraticaLinha>, p: Parametros): (r: Listagem)
    ensures r.Err? <==> p.aluno.None?
    ensures r.Err? ==> r.erro == ArgumentoInvalido(AlunoObrigatorio)
    ensures r.Ok? ==> r.value == ListarAbertasDoAluno(store, p.aluno.value)
  {
    var v := ValidarParametros(p);
    if v.Fail? then Err(v.erro) else Ok(ListarAbertasDoAluno(store, p.aluno.value))
  }

  function GetTipo(): (t: TipoEstrategia)
    ensures t == MINHAS_ABERTAS
  {
    MINHAS_ABERTAS
  }

  /** On success the summaries are exactly those of the student's open sessions, in any class. */
  lemma ConteudoDasAbertas(store: seq<PraticaLinha>, p: Parametros)
    requires Executar(store, p).Ok?
    ensures var r, a := Executar(store, p).value, p.aluno.value;
      (forall d :: d in r ==> exists x :: x in store && x.aluno.id == a.id && x.IsAberta()
                                          && d == PraticaResumo.DePratica(x))
      && (forall x :: x in store && x.aluno.id == a.id && x.IsAberta() ==> PraticaResumo.DePratica(x) in r)
  {
    PraticaResumo.ResumirElementos(FindByAlunoAndCheckoutIsNullOrderByInicioDesc(store, p.aluno.value));
  }

  /** The class parameters, the dates and the authentication token play no part. */
  lemma IgnoraOutrosParametros(store: seq<PraticaLinha>, p: Parametros, q: Parametros)
    requires p.aluno == q.aluno
    ensures Executar(store, p) == Executar(store, q)
  {
  }
}
