/** The registry that dispatches a listing request to the strategy registered for its kind. */
module ListagemContexto {
  import opened Base
  import opened PraticaModelo
  import opened ListagemInterface
  import EstrategiaTodasPraticas
  import EstrategiaPorTurma
  import EstrategiaAbertasPorTurma
  import EstrategiaMinhasAbertas
  import EstrategiaPorTurmaPeriodo

  /** The five strategy components. */
  datatype Estrategia = TodasPraticas | PorTurma | AbertasPorTurma | MinhasAbertas | PorTurmaPeriodo {
    /** `getTipo()`: each strategy answers its own kind. */
    function GetTipo(): (t: TipoEstrategia)
      ensures t == TODAS_PRATICAS <==> this == TodasPraticas
      ensures t == POR_TURMA <==> this == PorTurma
      ensures t == ABERTAS_POR_TURMA <==> this == AbertasPorTurma
      ensures t == MINHAS_ABERTAS <==> this == MinhasAbertas
      ensures t == POR_TURMA_PERIODO <==> this == PorTurmaPeriodo
    {
      match this
      case TodasPraticas => EstrategiaTodasPraticas.GetTipo()
      case PorTurma => EstrategiaPorTurma.GetTipo()
      case AbertasPorTurma => EstrategiaAbertasPorTurma.GetTipo()
      case MinhasAbertas => EstrategiaMinhasAbertas.GetTipo()
      case PorTurmaPeriodo => EstrategiaPorTurmaPeriodo.GetTipo()
    }

    /** `executar(...)`: a strategy only ever throws for invalid arguments. */
    function Executar(store: seq<PraticaLinha>, p: Parametros): (r: Listagem)
      ensures r.Err? ==> r.erro.ArgumentoInvalido?
    {
      match this
      case TodasPraticas => EstrategiaTodasPraticas.Executar(store, p)
      case PorTurma => EstrategiaPorTurma.Executar(store, p)
      case AbertasPorTurma => EstrategiaAbertasPorTurma.Executar(store, p)
      case MinhasAbertas => EstrategiaMinhasAbertas.Executar(store, p)
      case PorTurmaPeriodo => EstrategiaPorTurmaPeriodo.Executar(store, p)
    }
  }

  /** The registry after `put(getTipo(), s)` for each `s` of `lista` in turn: every registered
      strategy is one of the list, filed under its own kind. */
  function Registrar(lista: seq<Estrategia>): (r: map<TipoEstrategia, Estrategia>)
    ensures forall t :: t in r ==> r[t] in lista && r[t].GetTipo() == t
  {
    if lista == [] then map[]
    else
      var ultima := lista[|lista| - 1];
      Registrar(lista[..|lista| - 1])[ultima.GetTipo() := ultima]
  }

  /** The registered kinds are exactly the kinds of the listed strategies. */
  lemma {:induction false} ChavesRegistradas(lista: seq<Estrategia>)
    ensures Registrar(lista).Keys == set e | e in lista :: e.GetTipo()
  {
    if lista != [] {
      var antes := lista[..|lista| - 1];
      ChavesRegistradas(antes);
      assert lista == antes + [lista[|lista| - 1]];
      assert (set e | e in lista :: e.GetTipo())
          == (set e | e in antes :: e.GetTipo()) + {lista[|lista| - 1].GetTipo()};
    }
  }

  /** For every registered kind, the registered strategy is the last one of that kind in the list. */
  lemma {:induction false} UltimaRegistradaVence(lista: seq<Estrategia>, t: TipoEstrategia)
    requires t in Registrar(lista)
    ensures exists k :: 0 <= k < |lista| && lista[k].GetTipo() == t && Registrar(lista)[t] == lista[k]
                        && forall j :: k < j < |lista| ==> lista[j].GetTipo() != t
  {
    var n := |lista| - 1;
    if lista[n].GetTipo() != t {
      var antes := lista[..n];
      UltimaRegistradaVence(antes, t);
      var k :| 0 <= k < |antes| && antes[k].GetTipo() == t && Registrar(antes)[t] == antes[k]
               && forall j :: k < j < |antes| ==> antes[j].GetTipo() != t;
      assert lista[k] == antes[k];
      assert forall j :: k < j < |lista| ==> lista[j].GetTipo() != t by {
        forall j | k < j < |lista| ensures lista[j].GetTipo() != t {
          if j < n { assert lista[j] == antes[j]; }
        }
      }
    }
  }

  /** The strategy components Spring injects: one of each kind. */
  const TODAS: seq<Estrategia> := [TodasPraticas, PorTurma, AbertasPorTurma, MinhasAbertas, PorTurmaPeriodo]

  /** With the injected components every kind is registered, to the strategy of that kind. */
  lemma RegistroPadrao(t: TipoEstrategia)
    ensures t in Registrar(TODAS) && Registrar(TODAS)[t].GetTipo() == t
  {
    ChavesRegistradas(TODAS);
    var e := match t
      case TODAS_PRATICAS => TodasPraticas
      case POR_TURMA => PorTurma
      case ABERTAS_POR_TURMA => AbertasPorTurma
      case MINHAS_ABERTAS => MinhasAbertas
      case POR_TURMA_PERIODO => PorTurmaPeriodo;
    assert e in TODAS && e.GetTipo() == t;
    UltimaRegistradaVence(TODAS, t);
  }

  class PraticaListagemContext {
    /** Written only by the constructor. */
    const estrategias: map<TipoEstrategia, Estrategia>

    /** Puts every strategy of the list under its kind, in list order. */
    constructor (strategyList: seq<Estrategia>)
      ensures estrategias == Registrar(strategyList)
    {
      var m: map<TipoEstrategia, Estrategia> := map[];
      var i := 0;
      while i < |strategyList|
        invariant 0 <= i <= |strategyList|
        invariant m == Registrar(strategyList[..i])
      {
        assert strategyList[..i + 1][..i] == strategyList[..i];
        m := m[strategyList[i].GetTipo() := strategyList[i]];
        i := i + 1;
      }
      assert strategyList[..i] == strategyList;
      estrategias := m;
    }

    /** `executarEstrategia`: an unregistered kind is an error; otherwise the registered strategy's
        own result, with the same arguments. */
    function ExecutarEstrategia(tipo: TipoEstrategia, store: seq<PraticaLinha>, p: Parametros): (r: Listagem)
      ensures tipo !in estrategias ==> r == Err(EstrategiaNaoEncontrada)
      ensures tipo in estrategias ==> r == estrategias[tipo].Executar(store, p)
    {
      if tipo !in estrategias then Err(EstrategiaNaoEncontrada)
      else estrategias[tipo].Executar(store, p)
    }

    /** `isEstrategiaDisponivel`. */
    predicate IsEstrategiaDisponivel(tipo: TipoEstrategia) {
      tipo in estrategias
    }

    /** `getEstrategiasDisponiveis`: a copy of the registry (a map value cannot alias it). */
    function GetEstrategiasDisponiveis(): (m: map<TipoEstrategia, Estrategia>)
      ensures m.Keys == estrategias.Keys && forall t :: t in m ==> m[t] == estrategias[t]
    {
      estrategias
    }

    /** A kind is available exactly when executing it does not fail for want of a strategy. */
    lemma DisponivelSeEncontrada(tipo: TipoEstrategia, store: seq<PraticaLinha>, p: Parametros)
      ensures IsEstrategiaDisponivel(tipo) <==> ExecutarEstrategia(tipo, store, p) != Err(EstrategiaNaoEncontrada)
    {
      if tipo in estrategias {
        var r := estrategias[tipo].Executar(store, p);
        assert r.Err? ==> r.erro.ArgumentoInvalido?;
      }
    }
  }
}
