/** The persistent entities that the sessions and services refer to. They are plain field holders. */
module Entidades {
  import opened Base

  /** The kind of an evaluation code, and of the submission made with it. */
  datatype TipoAvaliacao = CHECKIN | CHECKOUT {
    /** Java's `Enum.name()`. */
    function Nome(): (r: string)
      ensures r == "CHECKIN" <==> this == CHECKIN
    {
      match this
      case CHECKIN => "CHECKIN"
      case CHECKOUT => "CHECKOUT"
    }
  }

  datatype Professor = Professor(id: int, googleId: string, email: string, nome: string)

  datatype Aluno = Aluno(id: int, googleId: string, email: string, nome: string)

  /** A class. The professor column is declared NOT NULL, but the projections still test it for null. */
  datatype Turma = Turma(id: int, nome: string, professor: Option<Professor>)

  /** A six-character evaluation code issued by a professor for one class. Times are in seconds. */
  datatype CodigoAvaliacao = CodigoAvaliacao(
    id: int,
    codigo: string,
    tipo: TipoAvaliacao,
    dataCriacao: int,
    dataExpiracao: int,
    ativo: bool,
    professor: Professor,
    turma: Turma)

  /** One emotional submission. A record that was never saved has no id, and may have no code. */
  datatype RegistroEmocional = RegistroEmocional(
    id: Option<int>,
    emocao: int,
    timestamp: int,
    tipoSubmissao: TipoAvaliacao,
    aluno: Aluno,
    codigoAvaliacaoUsado: Option<CodigoAvaliacao>,
    turma: Turma)
}
