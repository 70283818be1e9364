/** Failure-compatible wrappers and the error kinds the services raise. */
module Base {

  /** A Java reference that may be null, or an `Optional`. */
  datatype Option<+T> = None | Some(value: T) {
    function GetOr(default: T): T {
      match this
      case Some(v) => v
      case None => default
    }
  }

  /** Why a strategy rejected its parameters (each is an `IllegalArgumentException`). */
  datatype Motivo =
    | TurmaObrigatoria     // the class object is required
    | AlunoObrigatorio     // the student object is required
    | TurmaIdObrigatorio   // the class id is required
    | DatasObrigatorias    // both period ends are required
    | InicioAposFim        // the period starts after it ends

  /** The exceptions thrown by the modelled operations. */
  datatype Erro =
    | CodigoInvalidoOuExpirado
    | AlunoNaoEncontrado
    | ProfessorNaoEncontrado
    | TurmaNaoEncontrada
    | TurmaComRegistros
    | EstrategiaNaoEncontrada
    | ArgumentoInvalido(motivo: Motivo)
    | ViolacaoDeUnicidade   // a unique constraint of the database rejects a save

  /** The value of an operation that either returns or throws. */
  datatype Result<+T> = Ok(value: T) | Err(erro: Erro) {
    predicate IsFailure() { Err? }
    function PropagateFailure<U>(): Result<U> requires Err? { Err(erro) }
    function Extract(): T requires Ok? { value }
  }

  /** The outcome of an operation that returns nothing (`void`) or throws. */
  datatype Outcome = Pass | Fail(erro: Erro)
}
