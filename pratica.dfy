/** A practice session (`Pratica`): the object the lifecycle opens and closes, its persisted row,
    and the formatting of its duration. */
module PraticaModelo {
  import opened Base
  import opened Entidades

  // ---------------------------------------------------------------------------------------------
  // Java `long` arithmetic and `String.format("%02d")`

  /** Java's `/`, which truncates toward zero. */
  function Quociente(a: int, b: int): (q: int)
    requires b > 0
    ensures a >= 0 ==> q == a / b
    ensures a < 0 ==> q == -((-a) / b)
  {
    if a >= 0 then a / b else -((-a) / b)
  }

  /** Java's `%`, whose result takes the sign of the dividend. */
  function Resto(a: int, b: int): (r: int)
    requires b > 0
    ensures a == Quociente(a, b) * b + r
    ensures a >= 0 ==> 0 <= r < b
    ensures a < 0 ==> -b < r <= 0
  {
    a - Quociente(a, b) * b
  }

  predicate EhDigito(c: char) { '0' <= c <= '9' }

  function Digito(n: nat): (c: char)
    requires n < 10
    ensures EhDigito(c)
  {
    (48 + n) as char
  }

  /** The decimal digits of `n`, without leading zeros (`Long.toString`). */
  function Digitos(n: nat): (s: string)
    ensures |s| >= 1
    ensures forall i :: 0 <= i < |s| ==> EhDigito(s[i])
    ensures n < 10 <==> |s| == 1
  {
    if n < 10 then [Digito(n)] else Digitos(n / 10) + [Digito(n % 10)]
  }

  /** `String.format("%02d", n)`: at least two characters; zeros go after the sign of a negative. */
  function DoisDigitos(n: int): (s: string)
    ensures |s| >= 2
    ensures 0 <= n < 100 ==> |s| == 2
    ensures n >= 0 ==> forall i :: 0 <= i < |s| ==> EhDigito(s[i])
    ensures n < 0 ==> s[0] == '-'
  {
    if n < 0 then "-" + Digitos(-n)
    else if n < 10 then "0" + Digitos(n)
    else Digitos(n)
  }

  const EM_ANDAMENTO: string := "Em andamento"

  /** `getDuracaoFormatada()` of a session whose duration is `duracao` (null while open): the
      in-progress text, or a non-negative duration as a clock reading `HH:MM:SS`. */
  function FormatarDuracao(duracao: Option<int>): (r: string)
    ensures duracao.None? ==> r == EM_ANDAMENTO
    ensures duracao.Some? && duracao.value >= 0 ==> FormatoRelogio(r)
  {
    match duracao
    case None => EM_ANDAMENTO
    case Some(d) =>
      var horas := Quociente(d, 3600);
      var minutos := Quociente(Resto(d, 3600), 60);
      var segundos := Resto(d, 60);
      CamposDoRelogio(d);
      DoisDigitos(horas) + ":" + DoisDigitos(minutos) + ":" + DoisDigitos(segundos)
  }

  /** `HH:MM:SS`: fields of digits, two or more for the hours and two each for minutes and seconds. */
  predicate FormatoRelogio(s: string) {
    && |s| >= 8 && s[|s| - 6] == ':' && s[|s| - 3] == ':'
    && SoDigitos(s[..|s| - 6]) && SoDigitos(s[|s| - 5..|s| - 3]) && SoDigitos(s[|s| - 2..])
  }

  /** The three fields of a non-negative duration are digits, and minutes and seconds take two each. */
  lemma CamposDoRelogio(d: int)
    ensures d >= 0 ==> FormatoRelogio(DoisDigitos(Quociente(d, 3600)) + ":" + DoisDigitos(Quociente(Resto(d, 3600), 60))
                                      + ":" + DoisDigitos(Resto(d, 60)))
  {
    if d >= 0 {
      DecomposicaoDuracao(d);
      Fatias(DoisDigitos(Quociente(d, 3600)), DoisDigitos(Quociente(Resto(d, 3600), 60)), DoisDigitos(Resto(d, 60)));
    }
  }

  /** The value of a string of decimal digits. */
  function ValorDecimal(s: string): nat
    requires forall i :: 0 <= i < |s| ==> EhDigito(s[i])
  {
    if s == [] then 0 else 10 * ValorDecimal(s[..|s| - 1]) + ValorDigito(s[|s| - 1])
  }

  function ValorDigito(c: char): (v: nat)
    requires EhDigito(c)
    ensures v < 10
  {
    c as int - 48
  }

  predicate SoDigitos(s: string) { forall i :: 0 <= i < |s| ==> EhDigito(s[i]) }

  /** Reads the three numeric fields of a rendered duration. */
  function LerCampos(h: string, m: string, s: string): Option<int> {
    if SoDigitos(h) && SoDigitos(m) && SoDigitos(s)
    then Some(ValorDecimal(h) * 3600 + ValorDecimal(m) * 60 + ValorDecimal(s))
    else None
  }

  /** Reads back a duration rendered as `HH:MM:SS` (hours with two or more digits); anything else,
      `"Em andamento"` included, reads as null. */
  function LerDuracao(s: string): Option<int> {
    if |s| >= 8 && s[|s| - 6] == ':' && s[|s| - 3] == ':'
    then LerCampos(s[..|s| - 6], s[|s| - 5..|s| - 3], s[|s| - 2..])
    else None
  }

  lemma {:induction false} ValorDosDigitos(n: nat)
    ensures ValorDecimal(Digitos(n)) == n
  {
    if n >= 10 {
      var s := Digitos(n);
      assert s[..|s| - 1] == Digitos(n / 10);
      ValorDosDigitos(n / 10);
    }
  }

  lemma ValorDeDoisDigitos(n: nat)
    ensures SoDigitos(DoisDigitos(n)) && ValorDecimal(DoisDigitos(n)) == n
  {
    if n < 10 {
      var s := DoisDigitos(n);
      assert s == ['0', Digito(n)];
      assert s[..1] == "0" && s[..1][..0] == [];
      assert ValorDecimal(s[..1]) == 0;
      assert ValorDigito(s[1]) == n;
    } else {
      ValorDosDigitos(n);
    }
  }

  /** In `a:b:c`, with `b` and `c` two characters long, the separators sit where `LerDuracao` looks
      for them and the slices it reads are `a`, `b` and `c`. */
  lemma Fatias(a: string, b: string, c: string)
    requires |a| >= 2 && |b| == 2 && |c| == 2
    ensures var s := a + ":" + b + ":" + c;
      |s| >= 8 && s[|s| - 6] == ':' && s[|s| - 3] == ':'
      && s[..|s| - 6] == a && s[|s| - 5..|s| - 3] == b && s[|s| - 2..] == c
  {
    var cauda := [':'] + b + [':'] + c;
    var s := a + cauda;
    assert s == a + ":" + b + ":" + c;
    assert s[..|a|] == a;
    assert cauda[1..3] == b;
    assert cauda[4..] == c;
  }

  /** `LerDuracao` on `a:b:c` reads the fields `a`, `b` and `c`. */
  lemma LerTresCampos(a: string, b: string, c: string)
    requires |a| >= 2 && |b| == 2 && |c| == 2
    ensures LerDuracao(a + ":" + b + ":" + c) == LerCampos(a, b, c)
  {
    Fatias(a, b, c);
  }

  /** Division by 60 with a remainder in `[0, 60)` has one answer. */
  lemma DivisaoPor60(a: int, q: int, r: int)
    requires 0 <= r < 60 && a == q * 60 + r
    ensures a / 60 == q && a % 60 == r
  {
  }

  /** For a non-negative duration the three fields are `d / 3600`, `(d % 3600) / 60` and `d % 60`;
      minutes and seconds stay below 60 and the fields add back up to `d`. */
  lemma {:induction false} DecomposicaoDuracao(d: int)
    requires d >= 0
    ensures var h, m, s := Quociente(d, 3600), Quociente(Resto(d, 3600), 60), Resto(d, 60);
      && h == d / 3600 && m == (d % 3600) / 60 && s == d % 60
      && 0 <= m < 60 && 0 <= s < 60 && h * 3600 + m * 60 + s == d
  {
    var h, r := d / 3600, d % 3600;
    var m, s := r / 60, r % 60;
    assert r == m * 60 + s;
    assert d == (h * 60 + m) * 60 + s;
    DivisaoPor60(d, h * 60 + m, s);
  }

  /** `getDuracaoFormatada()` is `"Em andamento"` exactly when the duration is null. */
  lemma EmAndamentoSeESoSeNula(duracao: Option<int>)
    ensures FormatarDuracao(duracao) == EM_ANDAMENTO <==> duracao.None?
  {
    if duracao.Some? {
      var d := duracao.value;
      var h := DoisDigitos(Quociente(d, 3600));
      assert FormatarDuracao(duracao)[0] == h[0];
      assert EM_ANDAMENTO[0] == 'E';
    }
  }

  /** The rendering of a non-negative duration reads back as that duration, and the in-progress
      text reads back as null. */
  lemma {:induction false} LerFormatarDuracao(duracao: Option<int>)
    requires duracao.Some? ==> duracao.value >= 0
    ensures LerDuracao(FormatarDuracao(duracao)) == duracao
  {
    match duracao
    case None =>
      assert EM_ANDAMENTO[|EM_ANDAMENTO| - 3] == 'n';
    case Some(d) =>
      DecomposicaoDuracao(d);
      var h, m, seg := Quociente(d, 3600), Quociente(Resto(d, 3600), 60), Resto(d, 60);
      var a, b, c := DoisDigitos(h), DoisDigitos(m), DoisDigitos(seg);
      assert a + ":" + b + ":" + c == FormatarDuracao(duracao);
      ValorDeDoisDigitos(h);
      ValorDeDoisDigitos(m);
      ValorDeDoisDigitos(seg);
      LerTresCampos(a, b, c);
  }

  /** 3725 seconds render as one hour, two minutes and five seconds. */
  lemma FormatoDeExemplo()
    ensures FormatarDuracao(Some(3725)) == "01:02:05"
  {
    assert Quociente(3725, 3600) == 1 && Resto(3725, 3600) == 125;
    assert Quociente(125, 60) == 2 && Resto(3725, 60) == 5;
    assert DoisDigitos(1) == "01" && DoisDigitos(2) == "02" && DoisDigitos(5) == "05";
  }

  /** A negative duration is rendered with Java's truncating `/` and `%` and a signed `%02d`. */
  lemma FormatoDeDuracaoNegativa()
    ensures FormatarDuracao(Some(-3725)) == "-1:-2:-5"
  {
    assert Quociente(-3725, 3600) == -1 && Resto(-3725, 3600) == -125;
    assert Quociente(-125, 60) == -2 && Resto(-3725, 60) == -5;
    assert DoisDigitos(-1) == "-1" && DoisDigitos(-2) == "-2" && DoisDigitos(-5) == "-5";
  }

  /** Minus one minute: only the minutes field carries the sign. */
  lemma FormatoDeMinutoNegativo()
    ensures FormatarDuracao(Some(-60)) == "00:-1:00"
  {
    assert Quociente(-60, 3600) == 0 && Resto(-60, 3600) == -60;
    assert Quociente(-60, 60) == -1 && Resto(-60, 60) == 0;
    assert DoisDigitos(0) == "00" && DoisDigitos(-1) == "-1";
  }

  // ---------------------------------------------------------------------------------------------
  // The persisted row of a session

  /** A session as stored: the NOT NULL columns (student, class, check-in, start) are present. */
  datatype PraticaLinha = PraticaLinha(
    id: int,
    aluno: Aluno,
    turma: Turma,
    checkin: RegistroEmocional,
    checkout: Option<RegistroEmocional>,
    inicio: int,
    fim: Option<int>,
    duracaoSegundos: Option<int>,
    emocaoInicial: Option<int>,
    emocaoFinal: Option<int>)
  {
    /** `isAberta()`: no check-out yet; for a coherent row, neither an end, a final emotion nor a
        duration. */
    predicate IsAberta()
      ensures Coerente() ==> (IsAberta() <==> fim.None? && emocaoFinal.None? && duracaoSegundos.None?)
    {
      checkout.None?
    }

    /** `getDuracaoFormatada()`: a coherent row shows the in-progress text exactly while it is open. */
    function DuracaoFormatada(): (r: string)
      ensures Coerente() ==> (r == EM_ANDAMENTO <==> IsAberta())
    {
      EmAndamentoSeESoSeNula(duracaoSegundos);
      FormatarDuracao(duracaoSegundos)
    }

    /** The closing columns are all set or all null, and a stored duration is `fim - inicio`. */
    ghost predicate Coerente() {
      && (checkout.Some? <==> fim.Some?)
      && (checkout.Some? <==> emocaoFinal.Some?)
      && (checkout.Some? <==> duracaoSegundos.Some?)
      && (checkout.Some? ==> fim == Some(checkout.value.timestamp))
      && (checkout.Some? ==> emocaoFinal == Some(checkout.value.emocao))
      && (duracaoSegundos.Some? && fim.Some? ==> duracaoSegundos.value == fim.value - inicio)
    }

    /** The row after `fechar(out)`. */
    function Fechada(out: RegistroEmocional): (r: PraticaLinha)
      ensures !r.IsAberta() && r.Coerente()
      ensures r.checkout == Some(out) && r.fim == Some(out.timestamp) && r.emocaoFinal == Some(out.emocao)
      ensures r.duracaoSegundos == Some(out.timestamp - inicio)
      ensures r.id == id && r.aluno == aluno && r.turma == turma && r.checkin == checkin
      ensures r.inicio == inicio && r.emocaoInicial == emocaoInicial
    {
      this.(checkout := Some(out), fim := Some(out.timestamp), emocaoFinal := Some(out.emocao),
            duracaoSegundos := Some(out.timestamp - inicio))
    }
  }

  /** The row saved, with id `id`, for `new Pratica()` followed by `abrir(entrada)`. */
  function AbertaDe(entrada: RegistroEmocional, id: int): (r: PraticaLinha)
    ensures r.IsAberta() && r.Coerente()
    ensures r.checkin == entrada && r.inicio == entrada.timestamp && r.emocaoInicial == Some(entrada.emocao)
    ensures r.aluno == entrada.aluno && r.turma == entrada.turma && r.id == id
    ensures r.fim.None? && r.duracaoSegundos.None? && r.emocaoFinal.None?
  {
    PraticaLinha(id, entrada.aluno, entrada.turma, entrada, None, entrada.timestamp, None, None, Some(entrada.emocao), None)
  }

  // ---------------------------------------------------------------------------------------------
  // The entity object

  /** The JPA entity. Every field is null after the no-argument constructor. */
  class Pratica {
    var id: Option<int>
    var aluno: Option<Aluno>
    var turma: Option<Turma>
    var checkin: Option<RegistroEmocional>
    var checkout: Option<RegistroEmocional>
    var inicio: Option<int>
    var fim: Option<int>
    var duracaoSegundos: Option<int>
    var emocaoInicial: Option<int>
    var emocaoFinal: Option<int>

    constructor ()
      ensures id.None? && aluno.None? && turma.None? && checkin.None? && checkout.None?
      ensures inicio.None? && fim.None? && duracaoSegundos.None?
      ensures emocaoInicial.None? && emocaoFinal.None?
    {
      id, aluno, turma, checkin, checkout := None, None, None, None, None;
      inicio, fim, duracaoSegundos, emocaoInicial, emocaoFinal := None, None, None, None, None;
    }

    /** `abrir(entrada)`: copies the check-in's record, time, emotion, student and class. */
    method Abrir(entrada: RegistroEmocional)
      modifies this
      ensures checkin == Some(entrada) && inicio == Some(entrada.timestamp) && emocaoInicial == Some(entrada.emocao)
      ensures aluno == Some(entrada.aluno) && turma == Some(entrada.turma)
      ensures id == old(id) && checkout == old(checkout) && fim == old(fim)
      ensures emocaoFinal == old(emocaoFinal) && duracaoSegundos == old(duracaoSegundos)
    {
      checkin := Some(entrada);
      inicio := Some(entrada.timestamp);
      emocaoInicial := Some(entrada.emocao);
      aluno := Some(entrada.aluno);
      turma := Some(entrada.turma);
    }

    /** `fechar(out)`: stores the check-out and the duration `fim - inicio`, negative or not.
        A null `inicio` makes `Duration.between` throw, so it is required. */
    method Fechar(out: RegistroEmocional)
      requires inicio.Some?
      modifies this
      ensures checkout == Some(out) && fim == Some(out.timestamp) && emocaoFinal == Some(out.emocao)
      ensures duracaoSegundos == Some(out.timestamp - old(inicio).value)
      ensures id == old(id) && aluno == old(aluno) && turma == old(turma)
      ensures checkin == old(checkin) && inicio == old(inicio) && emocaoInicial == old(emocaoInicial)
      ensures Persistivel() == old(Persistivel())
      ensures old(Persistivel()) ==> Linha() == old(Linha()).Fechada(out)
    {
      checkout := Some(out);
      fim := Some(out.timestamp);
      emocaoFinal := Some(out.emocao);
      duracaoSegundos := Some(fim.value - inicio.value);
    }

    /** The NOT NULL columns are set and the entity has an id, so it can be a row. */
    predicate Persistivel()
      reads this
    {
      id.Some? && aluno.Some? && turma.Some? && checkin.Some? && inicio.Some?
    }

    /** The row this entity is stored as. `isAberta()` and `getDuracaoFormatada()` of the entity are
        those of its row: open exactly while the entity has no check-out, and the text of its own
        duration. */
    function Linha(): (r: PraticaLinha)
      reads this
      requires Persistivel()
      ensures r.IsAberta() <==> checkout.None?
      ensures r.DuracaoFormatada() == FormatarDuracao(duracaoSegundos)
    {
      PraticaLinha(id.value, aluno.value, turma.value, checkin.value, checkout, inicio.value, fim,
                   duracaoSegundos, emocaoInicial, emocaoFinal)
    }
  }
}
