/** Stream-like operations on sequences: filter, map and a sort by a key, descending. */
module Sequencias {
  import opened Base

  /** `stream().filter(p)`: the elements satisfying `p`, in their original order. */
  function Filtrar<T(!new)>(s: seq<T>, p: T -> bool): (r: seq<T>)
    ensures |r| <= |s|
    ensures forall i :: 0 <= i < |r| ==> p(r[i])
    ensures forall x :: x in r <==> x in s && p(x)
    ensures forall x :: multiset(r)[x] == if p(x) then multiset(s)[x] else 0
  {
    if s == [] then []
    else
      var resto := Filtrar(s[1..], p);
      assert s == [s[0]] + s[1..];
      assert multiset(s) == multiset{s[0]} + multiset(s[1..]);
      if p(s[0]) then [s[0]] + resto else resto
  }

  /** The position of the first element satisfying `p`, or none if no element does. */
  function Primeira<T>(s: seq<T>, p: T -> bool): (r: Option<nat>)
    ensures r.Some? ==> r.value < |s| && p(s[r.value]) && forall j :: 0 <= j < r.value ==> !p(s[j])
    ensures r.None? <==> forall j :: 0 <= j < |s| ==> !p(s[j])
  {
    if s == [] then None
    else if p(s[0]) then Some(0)
    else
      var resto := Primeira(s[1..], p);
      if resto.Some? then Some(resto.value + 1) else None
  }

  /** The sequence without the element at position `i`. */
  function SemPosicao<T>(s: seq<T>, i: nat): (r: seq<T>)
    requires i < |s|
    ensures |r| == |s| - 1
    ensures forall k :: 0 <= k < |r| ==> r[k] == if k < i then s[k] else s[k + 1]
  {
    s[..i] + s[i + 1..]
  }

  /** No two elements of `s` share a key. */
  ghost predicate Distintos<T, K>(s: seq<T>, chave: T -> K) {
    forall i, j :: 0 <= i < j < |s| ==> chave(s[i]) != chave(s[j])
  }

  /** A key that no element of `s` has can be put in front of `s`. */
  lemma DistintosComCabeca<T, K>(x: T, s: seq<T>, chave: T -> K)
    requires Distintos(s, chave) && forall j :: 0 <= j < |s| ==> chave(x) != chave(s[j])
    ensures Distintos([x] + s, chave)
  {
    var r := [x] + s;
    forall i, j | 0 <= i < j < |r| ensures chave(r[i]) != chave(r[j]) {
      assert r[j] == s[j - 1];
      if i > 0 {
        assert r[i] == s[i - 1];
      }
    }
  }

  /** Filtering keeps distinct keys distinct. */
  lemma {:induction false} FiltrarPreservaDistintos<T(!new), K>(s: seq<T>, p: T -> bool, chave: T -> K)
    requires Distintos(s, chave)
    ensures Distintos(Filtrar(s, p), chave)
  {
    if s != [] {
      var resto := Filtrar(s[1..], p);
      assert Distintos(s[1..], chave) by {
        forall i, j | 0 <= i < j < |s| - 1 ensures chave(s[1..][i]) != chave(s[1..][j]) {
          assert s[1..][i] == s[i + 1] && s[1..][j] == s[j + 1];
        }
      }
      FiltrarPreservaDistintos(s[1..], p, chave);
      if p(s[0]) {
        forall j | 0 <= j < |resto| ensures chave(s[0]) != chave(resto[j]) {
          assert resto[j] in s[1..];
          var k :| 0 <= k < |s| - 1 && s[1..][k] == resto[j];
          assert s[k + 1] == resto[j];
        }
        DistintosComCabeca(s[0], resto, chave);
        assert Filtrar(s, p) == [s[0]] + resto;
      } else {
        assert Filtrar(s, p) == resto;
      }
    }
  }

  /** `stream().map(f)`. */
  function Mapear<T, U>(s: seq<T>, f: T -> U): (r: seq<U>)
    ensures |r| == |s|
    ensures forall i :: 0 <= i < |s| ==> r[i] == f(s[i])
  {
    seq(|s|, i requires 0 <= i < |s| => f(s[i]))
  }

  /** The keys never increase along `s`. */
  ghost predicate OrdenadaDesc<T>(s: seq<T>, chave: T -> int) {
    forall i, j :: 0 <= i < j < |s| ==> chave(s[i]) >= chave(s[j])
  }

  /** Inserts `x` into a sequence sorted by `chave`, before the first element whose key is not larger. */
  function InserirDesc<T>(x: T, s: seq<T>, chave: T -> int): (r: seq<T>)
    ensures multiset(r) == multiset(s) + multiset{x}
    ensures |r| == |s| + 1
  {
    if s == [] then [x]
    else if chave(x) >= chave(s[0]) then [x] + s
    else
      assert s == [s[0]] + s[1..];
      [s[0]] + InserirDesc(x, s[1..], chave)
  }

  /** Inserting into a sorted sequence keeps it sorted. */
  lemma {:induction false} InserirDescOrdena<T>(x: T, s: seq<T>, chave: T -> int)
    requires OrdenadaDesc(s, chave)
    ensures OrdenadaDesc(InserirDesc(x, s, chave), chave)
  {
    if s != [] && chave(x) < chave(s[0]) {
      var resto := InserirDesc(x, s[1..], chave);
      InserirDescOrdena(x, s[1..], chave);
      forall j | 0 <= j < |resto| ensures chave(s[0]) >= chave(resto[j]) {
        assert resto[j] in multiset(resto);
        if resto[j] != x {
          assert resto[j] in multiset(s[1..]);
          var k :| 0 <= k < |s[1..]| && s[1..][k] == resto[j];
          assert s[k + 1] == resto[j];
        }
      }
      assert InserirDesc(x, s, chave) == [s[0]] + resto;
    }
  }

  /** `ORDER BY chave DESC`: an insertion sort; the elements with equal keys keep their order. */
  function OrdenarDesc<T>(s: seq<T>, chave: T -> int): (r: seq<T>)
    ensures multiset(r) == multiset(s)
    ensures |r| == |s|
  {
    if s == [] then []
    else
      assert s == [s[0]] + s[1..];
      InserirDesc(s[0], OrdenarDesc(s[1..], chave), chave)
  }

  /** The sort yields a sequence whose keys never increase. */
  lemma {:induction false} OrdenarDescOrdena<T>(s: seq<T>, chave: T -> int)
    ensures OrdenadaDesc(OrdenarDesc(s, chave), chave)
  {
    if s != [] {
      OrdenarDescOrdena(s[1..], chave);
      InserirDescOrdena(s[0], OrdenarDesc(s[1..], chave), chave);
    }
  }

  /** The elements of a sequence are exactly those of its multiset. */
  lemma MesmosElementos<T>(a: seq<T>, b: seq<T>)
    requires multiset(a) == multiset(b)
    ensures forall x :: x in a <==> x in b
  {
    forall x ensures x in a <==> x in b {
      assert x in a <==> x in multiset(a);
      assert x in b <==> x in multiset(b);
    }
  }
}
