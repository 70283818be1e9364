/** The detailed projection of a session, which also carries the ids of its records. */
module PraticaDetalhe {
  import opened Base
  import opened Entidades
  import opened PraticaModelo
  import PraticaResumo

  datatype PraticaDTO = PraticaDTO(
    id: int,
    status: string,
    alunoId: int,
    nomeAluno: string,
    emailAluno: string,
    turmaId: int,
    nomeTurma: string,
    inicio: int,
    fim: Option<int>,
    duracaoFormatada: string,
    duracaoSegundos: Option<int>,
    emocaoInicial: Option<int>,
    emocaoFinal: Option<int>,
    checkinRegistroId: Option<int>,
    checkoutRegistroId: Option<int>,
    nomeProfessor: string)

  /** The id of a record, null for a null record (and for a record never saved). */
  function IdDoRegistro(r: Option<RegistroEmocional>): (id: Option<int>)
    ensures r.None? ==> id.None?
    ensures r.Some? ==> id == r.value.id
  {
    if r.Some? then r.value.id else None
  }

  /** The mapping constructor `PraticaDTO(Pratica)`. */
  function DePratica(p: PraticaLinha): (d: PraticaDTO)
    ensures d.status == PraticaResumo.ABERTA <==> p.IsAberta()
    ensures d.status == PraticaResumo.FECHADA <==> !p.IsAberta()
    ensures d.alunoId == p.aluno.id && d.nomeAluno == p.aluno.nome && d.emailAluno == p.aluno.email
    ensures d.turmaId == p.turma.id && d.nomeTurma == p.turma.nome
    ensures d.duracaoSegundos == p.duracaoSegundos && d.duracaoFormatada == p.DuracaoFormatada()
    ensures d.id == p.id && d.inicio == p.inicio && d.fim == p.fim
    ensures d.emocaoInicial == p.emocaoInicial && d.emocaoFinal == p.emocaoFinal
    ensures d.checkinRegistroId == p.checkin.id
    ensures d.checkoutRegistroId == IdDoRegistro(p.checkout)
    ensures d.nomeProfessor == PraticaResumo.NomeProfessor(p.turma)
  {
    PraticaDTO(
      p.id,
      if p.IsAberta() then PraticaResumo.ABERTA else PraticaResumo.FECHADA,
      p.aluno.id, p.aluno.nome, p.aluno.email,
      p.turma.id, p.turma.nome,
      p.inicio, p.fim, p.DuracaoFormatada(), p.duracaoSegundos,
      p.emocaoInicial, p.emocaoFinal,
      IdDoRegistro(Some(p.checkin)), IdDoRegistro(p.checkout),
      PraticaResumo.NomeProfessor(p.turma))
  }

  /** The detailed and the summary projection agree on every field they share. */
  lemma ConcordaComResumo(p: PraticaLinha)
    ensures var d, r := DePratica(p), PraticaResumo.DePratica(p);
      d.id == r.id && d.status == r.status && d.nomeAluno == r.nomeAluno && d.nomeTurma == r.nomeTurma
      && d.nomeProfessor == r.nomeProfessor && d.inicio == r.inicio && d.fim == r.fim
      && d.duracaoFormatada == r.duracaoFormatada
      && d.emocaoInicial == r.emocaoInicial && d.emocaoFinal == r.emocaoFinal
  {
  }

  /** A session only opened has no check-out id, no end, no final emotion and no duration. */
  lemma DetalheDeAberta(entrada: RegistroEmocional, id: int)
    ensures var d := DePratica(AbertaDe(entrada, id));
      d.status == PraticaResumo.ABERTA && d.checkoutRegistroId.None? && d.fim.None?
      && d.emocaoFinal.None? && d.duracaoSegundos.None? && d.checkinRegistroId == entrada.id
  {
  }

  /** A session closed with a saved record shows that record's id; closed with a record that was never
      saved, it shows no check-out id even though its status is closed. */
  lemma DetalheDeFechada(p: PraticaLinha, out: RegistroEmocional)
    ensures var d := DePratica(p.Fechada(out));
      d.status == PraticaResumo.FECHADA && d.checkoutRegistroId == out.id
      && (out.id.None? ==> d.checkoutRegistroId.None?)
  {
  }
}
