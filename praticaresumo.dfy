/** The summary projection of a session that the listing strategies return. */
module PraticaResumo {
  import opened Base
  import opened Entidades
  import opened PraticaModelo

  const ABERTA: string := "ABERTA"
  const FECHADA: string := "FECHADA"
  const SEM_PROFESSOR: string := "N/A"

  datatype PraticaResumoDTO = PraticaResumoDTO(
    id: int,
    status: string,
    nomeAluno: string,
    nomeTurma: string,
    nomeProfessor: string,
    inicio: int,
    fim: Option<int>,
    duracaoFormatada: string,
    emocaoInicial: Option<int>,
    emocaoFinal: Option<int>)

  /** The professor's name, or "N/A" for a class without one. */
  function NomeProfessor(t: Turma): (r: string)
    ensures t.professor.None? ==> r == SEM_PROFESSOR
    ensures t.professor.Some? ==> r == t.professor.value.nome
  {
    if t.professor.Some? then t.professor.value.nome else SEM_PROFESSOR
  }

  /** The mapping constructor `PraticaResumoDTO(Pratica)`. */
  function DePratica(p: PraticaLinha): (d: PraticaResumoDTO)
    ensures d.status == ABERTA <==> p.IsAberta()
    ensures d.status == FECHADA <==> !p.IsAberta()
    ensures d.nomeAluno == p.aluno.nome && d.nomeTurma == p.turma.nome
    ensures d.nomeProfessor == NomeProfessor(p.turma)
    ensures d.duracaoFormatada == p.DuracaoFormatada()
    ensures d.duracaoFormatada == EM_ANDAMENTO <==> p.duracaoSegundos.None?
    ensures d.id == p.id && d.inicio == p.inicio && d.fim == p.fim
    ensures d.emocaoInicial == p.emocaoInicial && d.emocaoFinal == p.emocaoFinal
  {
    EmAndamentoSeESoSeNula(p.duracaoSegundos);
    PraticaResumoDTO(
      p.id,
      if p.IsAberta() then ABERTA else FECHADA,
      p.aluno.nome,
      p.turma.nome,
      NomeProfessor(p.turma),
      p.inicio,
      p.fim,
      p.DuracaoFormatada(),
      p.emocaoInicial,
      p.emocaoFinal)
  }

  /** `stream().map(PraticaResumoDTO::new)`: one summary per row, in the same order, so an order by
      start and the openness of the rows carry over to the summaries. */
  function Resumir(linhas: seq<PraticaLinha>): (r: seq<PraticaResumoDTO>)
    ensures |r| == |linhas| && forall i :: 0 <= i < |linhas| ==> r[i] == DePratica(linhas[i])
    ensures (forall i :: 0 <= i < |linhas| ==> linhas[i].IsAberta())
            ==> forall i :: 0 <= i < |r| ==> r[i].status == ABERTA
    ensures (forall i, j :: 0 <= i < j < |linhas| ==> linhas[i].inicio >= linhas[j].inicio)
            ==> forall i, j :: 0 <= i < j < |r| ==> r[i].inicio >= r[j].inicio
  {
    seq(|linhas|, i requires 0 <= i < |linhas| => DePratica(linhas[i]))
  }

  /** The summaries of `linhas` are those of its elements. */
  lemma ResumirElementos(linhas: seq<PraticaLinha>)
    ensures forall d :: d in Resumir(linhas) ==> exists x :: x in linhas && d == DePratica(x)
    ensures forall x :: x in linhas ==> DePratica(x) in Resumir(linhas)
  {
    var r := Resumir(linhas);
    forall d | d in r ensures exists x :: x in linhas && d == DePratica(x) {
      var i :| 0 <= i < |r| && r[i] == d;
      assert linhas[i] in linhas;
    }
    forall x | x in linhas ensures DePratica(x) in r {
      var i :| 0 <= i < |linhas| && linhas[i] == x;
      assert r[i] == DePratica(x);
    }
  }

  /** A session just opened is summarised as open and in progress, without an end. */
  lemma ResumoDeAberta(entrada: RegistroEmocional, id: int)
    ensures var d := DePratica(AbertaDe(entrada, id));
      d.status == ABERTA && d.duracaoFormatada == EM_ANDAMENTO && d.fim.None? && d.emocaoFinal.None?
      && d.inicio == entrada.timestamp && d.emocaoInicial == Some(entrada.emocao) && d.id == id
  {
  }

  /** A session closed with `out` is summarised as closed, ending at the check-out's time, and for a
      non-negative duration its rendered duration reads back as `out.timestamp - inicio`. */
  lemma {:induction false} ResumoDeFechada(p: PraticaLinha, out: RegistroEmocional)
    ensures var d := DePratica(p.Fechada(out));
      d.status == FECHADA && d.fim == Some(out.timestamp) && d.emocaoFinal == Some(out.emocao)
      && d.duracaoFormatada != EM_ANDAMENTO
      && (out.timestamp >= p.inicio ==> LerDuracao(d.duracaoFormatada) == Some(out.timestamp - p.inicio))
  {
    var f := p.Fechada(out);
    if out.timestamp >= p.inicio {
      LerFormatarDuracao(f.duracaoSegundos);
    }
  }
}
