/** What every listing strategy receives and returns. */
module ListagemInterface {
  import opened Base
  import opened Entidades
  import PraticaResumo

  /** The kinds of listing. */
  datatype TipoEstrategia = TODAS_PRATICAS | POR_TURMA | ABERTAS_POR_TURMA | MINHAS_ABERTAS | POR_TURMA_PERIODO

  /** The arguments of `executar`; each may be null. The authentication token is opaque here. */
  datatype Parametros = Parametros(
    turmaId: Option<int>,
    turma: Option<Turma>,
    aluno: Option<Aluno>,
    inicio: Option<int>,
    fim: Option<int>,
    autenticacao: Option<string>)

  /** What `executar` returns, or the exception it throws. */
  type Listagem = Result<seq<PraticaResumo.PraticaResumoDTO>>
}
