/** The derived queries of the evaluation-code repository, over the stored codes. */
module CodigoRepositorio {
  import opened Base
  import opened Entidades
  import opened Sequencias

  /** The code can be used at time `agora`: it is active and expires strictly after `agora`. */
  predicate Valido(c: CodigoAvaliacao, agora: int) {
    c.ativo && c.dataExpiracao > agora
  }

  /** No two stored codes share a value (the code column is unique). */
  ghost predicate CodigosUnicos(store: seq<CodigoAvaliacao>) {
    forall i, j :: 0 <= i < j < |store| ==> store[i].codigo != store[j].codigo
  }

  /** `findByCodigo`. */
  function FindByCodigo(store: seq<CodigoAvaliacao>, codigo: string): (r: Option<nat>)
    ensures r.Some? ==> r.value < |store| && store[r.value].codigo == codigo
    ensures r.None? <==> forall i :: 0 <= i < |store| ==> store[i].codigo != codigo
  {
    Primeira(store, (c: CodigoAvaliacao) => c.codigo == codigo)
  }

  /** `findByCodigoAndAtivoTrueAndDataExpiracaoAfter`: a code with this value, active and expiring
      strictly after `agora`. */
  function FindByCodigoAndAtivoTrueAndDataExpiracaoAfter(store: seq<CodigoAvaliacao>, codigo: string, agora: int)
    : (r: Option<nat>)
    ensures r.Some? ==> r.value < |store| && store[r.value].codigo == codigo && Valido(store[r.value], agora)
    ensures r.None? <==> forall i :: 0 <= i < |store| ==> !(store[i].codigo == codigo && Valido(store[i], agora))
  {
    Primeira(store, (c: CodigoAvaliacao) => c.codigo == codigo && Valido(c, agora))
  }

  /** `findByProfessor_IdAndAtivoTrue`: the professor's active codes, in store order. */
  function FindByProfessorIdAndAtivoTrue(store: seq<CodigoAvaliacao>, professorId: int): (r: seq<CodigoAvaliacao>)
    ensures forall i :: 0 <= i < |r| ==> r[i].professor.id == professorId && r[i].ativo
    ensures forall c :: c in r <==> c in store && c.professor.id == professorId && c.ativo
    ensures forall c :: multiset(r)[c] == if c.professor.id == professorId && c.ativo then multiset(store)[c] else 0
  {
    Filtrar(store, (c: CodigoAvaliacao) => c.professor.id == professorId && c.ativo)
  }

  /** `existsByCodigo`. */
  function ExistsByCodigo(store: seq<CodigoAvaliacao>, codigo: string): (r: bool)
    ensures r <==> exists i :: 0 <= i < |store| && store[i].codigo == codigo
  {
    exists i :: 0 <= i < |store| && store[i].codigo == codigo
  }

  /** The existence query holds exactly when the lookup by value finds a code. */
  lemma ExisteSeEncontrado(store: seq<CodigoAvaliacao>, codigo: string)
    ensures ExistsByCodigo(store, codigo) <==> FindByCodigo(store, codigo).Some?
  {
  }

  /** With unique values, a code with the value is the one the lookup finds. */
  lemma {:induction false} CodigoUnico(store: seq<CodigoAvaliacao>, codigo: string, i: nat)
    requires CodigosUnicos(store)
    requires i < |store| && store[i].codigo == codigo
    ensures FindByCodigo(store, codigo) == Some(i)
  {
    var r := FindByCodigo(store, codigo);
    assert r.Some?;
  }

  /** With unique values, the validity query finds a code exactly when the lookup by value finds one
      that is active and not expired, and then it is the same code. */
  lemma ValidoSeEncontradoEValido(store: seq<CodigoAvaliacao>, codigo: string, agora: int)
    requires CodigosUnicos(store)
    ensures var v := FindByCodigoAndAtivoTrueAndDataExpiracaoAfter(store, codigo, agora);
      var c := FindByCodigo(store, codigo);
      (v.Some? <==> c.Some? && Valido(store[c.value], agora)) && (v.Some? ==> v == c)
  {
    var v := FindByCodigoAndAtivoTrueAndDataExpiracaoAfter(store, codigo, agora);
    if v.Some? {
      CodigoUnico(store, codigo, v.value);
    } else {
      var c := FindByCodigo(store, codigo);
      if c.Some? {
        assert !(store[c.value].codigo == codigo && Valido(store[c.value], agora));
      }
    }
  }
}
