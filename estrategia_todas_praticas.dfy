/** The listing that stands for "all sessions"; it is wired to the class with id 1. */
module EstrategiaTodasPraticas {
  import opened Base
  import opened PraticaModelo
  import opened ListagemInterface
  import EstrategiaPorTurma

  /** The class id `buscarTodasPraticas` queries. */
  const TURMA_PADRAO: int := 1

  /** `executar`: no validation; the sessions of class 1, latest start first, whatever the arguments. */
  function Executar(store: seq<PraticaLinha>, p: Parametros): (r: Listagem)
    ensures r.Ok?
    ensures r.value == EstrategiaPorTurma.ListarDaTurma(store, TURMA_PADRAO)
  {
    Ok(EstrategiaPorTurma.ListarDaTurma(store, TURMA_PADRAO))
  }

  function GetTipo(): (t: TipoEstrategia)
    ensures t == TODAS_PRATICAS
  {
    TODAS_PRATICAS
  }

  /** The result is the one the by-class listing gives for class id 1, and does not depend on any
      argument. */
  lemma EhPorTurmaUm(store: seq<PraticaLinha>, p: Parametros, q: Parametros)
    ensures Executar(store, p) == Executar(store, q)
    ensures Executar(store, p) == EstrategiaPorTurma.Executar(store, q.(turmaId := Some(TURMA_PADRAO)))
  {
  }
}
