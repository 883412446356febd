/** The LINQ and List<T> operations the repositories and services are built
    from (Where, FirstOrDefault/FindIndex, Remove, Max, Take, a stable
    OrderBy, string Contains), as functions on sequences with their
    properties proved once. */
module Sequencias {
  import opened Wrappers

  // ---------------------------------------------------------------------
  // Where

  /** Every position moved one place to the right. */
  function Deslocar(x: seq<nat>): (r: seq<nat>)
    ensures |r| == |x| && forall j :: 0 <= j < |x| ==> r[j] == x[j] + 1
  {
    seq(|x|, j requires 0 <= j < |x| => x[j] + 1)
  }

  /** The positions of `s` holding an element that satisfies `p`, each
      once and in increasing order. */
  ghost function PosicoesQue<T>(s: seq<T>, p: T -> bool): (r: seq<nat>)
    ensures forall j, k :: 0 <= j < k < |r| ==> r[j] < r[k]
    ensures forall j :: 0 <= j < |r| ==> r[j] < |s| && p(s[r[j]])
    ensures forall i :: 0 <= i < |s| && p(s[i]) ==> i in r
  {
    if |s| == 0 then []
    else
      var resto := PosicoesQue(s[1..], p);
      var r := (if p(s[0]) then [0] else []) + Deslocar(resto);
      PosicoesPasso(s, p, resto, r);
      r
  }

  /** One step of `PosicoesQue` keeps the positions increasing. */
  lemma PosicoesPassoCrescentes(c: seq<nat>, d: seq<nat>)
    requires forall j :: 0 <= j < |c| ==> c[j] == 0
    requires |c| <= 1 && forall j :: 0 <= j < |d| ==> d[j] >= 1
    requires forall j, k :: 0 <= j < k < |d| ==> d[j] < d[k]
    ensures forall j, k :: 0 <= j < k < |c + d| ==> (c + d)[j] < (c + d)[k]
  {
    var r := c + d;
    forall j, k | 0 <= j < k < |r| ensures r[j] < r[k] {
      if j < |c| {
        assert r[j] == 0 && r[k] == d[k - |c|];
      } else {
        assert r[j] == d[j - |c|] && r[k] == d[k - |c|];
      }
    }
  }

  /** One step of `PosicoesQue`: the shifted positions of the tail hold
      elements of `s` that satisfy `p`. */
  lemma PosicoesPassoValidas<T>(s: seq<T>, p: T -> bool, resto: seq<nat>, c: seq<nat>)
    requires |s| > 0 && |c| <= 1 && (|c| == 1 ==> c[0] == 0 && p(s[0]))
    requires forall j :: 0 <= j < |resto| ==> resto[j] < |s| - 1 && p(s[1..][resto[j]])
    ensures forall j :: 0 <= j < |c + Deslocar(resto)| ==>
      (c + Deslocar(resto))[j] < |s| && p(s[(c + Deslocar(resto))[j]])
  {
    var d := Deslocar(resto);
    var r := c + d;
    forall j | 0 <= j < |r| ensures r[j] < |s| && p(s[r[j]]) {
      if j >= |c| {
        assert r[j] == d[j - |c|] == resto[j - |c|] + 1;
        assert s[1..][resto[j - |c|]] == s[r[j]];
      }
    }
  }

  /** One step of `PosicoesQue`: no position whose element satisfies `p`
      is missed. */
  lemma PosicoesPassoCompletas<T>(s: seq<T>, p: T -> bool, resto: seq<nat>, c: seq<nat>)
    requires |s| > 0 && c == (if p(s[0]) then [0] else [])
    requires forall i :: 0 <= i < |s| - 1 && p(s[1..][i]) ==> i in resto
    ensures forall i :: 0 <= i < |s| && p(s[i]) ==> i in c + Deslocar(resto)
  {
    var d := Deslocar(resto);
    var r := c + d;
    forall i | 0 <= i < |s| && p(s[i]) ensures i in r {
      if i == 0 {
        assert r[0] == 0;
      } else {
        assert s[1..][i - 1] == s[i];
        var j :| 0 <= j < |resto| && resto[j] == i - 1;
        assert r[|c| + j] == d[j];
      }
    }
  }

  /** One step of `PosicoesQue`: the head's position, then the tail's
      positions shifted past it. */
  lemma PosicoesPasso<T>(s: seq<T>, p: T -> bool, resto: seq<nat>, r: seq<nat>)
    requires |s| > 0
    requires forall j, k :: 0 <= j < k < |resto| ==> resto[j] < resto[k]
    requires forall j :: 0 <= j < |resto| ==> resto[j] < |s| - 1 && p(s[1..][resto[j]])
    requires forall i :: 0 <= i < |s| - 1 && p(s[1..][i]) ==> i in resto
    requires r == (if p(s[0]) then [0] else []) + Deslocar(resto)
    ensures forall j, k :: 0 <= j < k < |r| ==> r[j] < r[k]
    ensures forall j :: 0 <= j < |r| ==> r[j] < |s| && p(s[r[j]])
    ensures forall i :: 0 <= i < |s| && p(s[i]) ==> i in r
  {
    var c: seq<nat> := if p(s[0]) then [0] else [];
    PosicoesPassoCrescentes(c, Deslocar(resto));
    PosicoesPassoValidas(s, p, resto, c);
    PosicoesPassoCompletas(s, p, resto, c);
  }

  /** `Where`: the elements of `s` that satisfy `p`, in the order they have
      in `s`; `FiltrarPosicoes` states the order and the multiplicity. */
  function Filtrar<T>(s: seq<T>, p: T -> bool): (r: seq<T>)
    ensures |r| <= |s|
    ensures forall i :: 0 <= i < |r| ==> r[i] in s && p(r[i])
    ensures forall i :: 0 <= i < |s| && p(s[i]) ==> s[i] in r
  {
    if |s| == 0 then [] else (if p(s[0]) then [s[0]] else []) + Filtrar(s[1..], p)
  }

  /** The filter is the subsequence of `s` at exactly the positions whose
      element satisfies `p`, taken in increasing order: every such element
      is kept, as often as it occurs and where it occurs. */
  lemma {:induction false} FiltrarPosicoes<T>(s: seq<T>, p: T -> bool)
    ensures |Filtrar(s, p)| == |PosicoesQue(s, p)|
    ensures forall j :: 0 <= j < |Filtrar(s, p)| ==> Filtrar(s, p)[j] == s[PosicoesQue(s, p)[j]]
  {
    if |s| > 0 {
      FiltrarPosicoes(s[1..], p);
      FiltrarPosicoesPasso(s, p, Filtrar(s[1..], p), PosicoesQue(s[1..], p));
    }
  }

  /** The inductive step of `FiltrarPosicoes`. */
  lemma FiltrarPosicoesPasso<T>(s: seq<T>, p: T -> bool, resto: seq<T>, ps: seq<nat>)
    requires |s| > 0 && resto == Filtrar(s[1..], p) && ps == PosicoesQue(s[1..], p)
    requires |resto| == |ps| && forall j :: 0 <= j < |resto| ==> resto[j] == s[1..][ps[j]]
    ensures |Filtrar(s, p)| == |PosicoesQue(s, p)|
    ensures forall j :: 0 <= j < |Filtrar(s, p)| ==> Filtrar(s, p)[j] == s[PosicoesQue(s, p)[j]]
  {
    var d := Deslocar(ps);
    forall j | 0 <= j < |resto| ensures resto[j] == s[d[j]] {
      assert s[1..][ps[j]] == s[d[j]];
    }
    if p(s[0]) {
      var r, q := [s[0]] + resto, [0] + d;
      assert PosicoesQue(s, p) == q;
      assert Filtrar(s, p) == r;
      forall j | 0 <= j < |r| ensures r[j] == s[q[j]] {
        if j > 0 {
          assert r[j] == resto[j - 1] && q[j] == d[j - 1];
        }
      }
    } else {
      assert PosicoesQue(s, p) == d;
      assert Filtrar(s, p) == resto;
    }
  }

  /** The same element added to two multisets leaves equal sums only
      when the multisets were equal. */
  lemma MultisetCancelar<T>(a: multiset<T>, b: multiset<T>, x: T)
    requires multiset{x} + a == b + multiset{x}
    ensures a == b
  {
    assert a == multiset{x} + a - multiset{x};
  }

  /** Filtering a concatenation filters each part and keeps them in order. */
  lemma {:induction false} FiltrarConcat<T>(a: seq<T>, b: seq<T>, p: T -> bool)
    ensures Filtrar(a + b, p) == Filtrar(a, p) + Filtrar(b, p)
  {
    if |a| == 0 {
      assert a + b == b;
    } else {
      assert (a + b)[0] == a[0];
      assert (a + b)[1..] == a[1..] + b;
      FiltrarConcat(a[1..], b, p);
    }
  }

  /** A filter that every element passes is the identity. */
  lemma {:induction false} FiltrarTodos<T>(s: seq<T>, p: T -> bool)
    requires forall i :: 0 <= i < |s| ==> p(s[i])
    ensures Filtrar(s, p) == s
  {
    if |s| > 0 {
      FiltrarTodos(s[1..], p);
    }
  }

  /** Filtering by two predicates that agree on the elements gives the same
      result. */
  lemma {:induction false} FiltrarMesmoPredicado<T>(s: seq<T>, p: T -> bool, q: T -> bool)
    requires forall i :: 0 <= i < |s| ==> p(s[i]) == q(s[i])
    ensures Filtrar(s, p) == Filtrar(s, q)
  {
    if |s| > 0 {
      FiltrarMesmoPredicado(s[1..], p, q);
    }
  }

  // ---------------------------------------------------------------------
  // FirstOrDefault / FindIndex

  /** The index of the first element of `s` that satisfies `p`, if any. */
  function PrimeiroIndice<T>(s: seq<T>, p: T -> bool): (r: Option<nat>)
    ensures r.None? <==> forall i :: 0 <= i < |s| ==> !p(s[i])
    ensures r.Some? ==> r.value < |s| && p(s[r.value])
    ensures r.Some? ==> forall j :: 0 <= j < r.value ==> !p(s[j])
  {
    if |s| == 0 then None
    else if p(s[0]) then Some(0)
    else match PrimeiroIndice(s[1..], p)
      case None => None
      case Some(k) => Some(k + 1)
  }

  // ---------------------------------------------------------------------
  // List.Remove of the element at a known index

  /** `s` without its element at index `k`, the others kept in order. */
  function RemoverEm<T>(s: seq<T>, k: nat): (r: seq<T>)
    requires k < |s|
    ensures |r| == |s| - 1
    ensures forall i :: 0 <= i < k ==> r[i] == s[i]
    ensures forall i :: k <= i < |r| ==> r[i] == s[i + 1]
    ensures multiset(r) + multiset{s[k]} == multiset(s)
  {
    assert s == s[..k] + [s[k]] + s[k + 1..];
    s[..k] + s[k + 1..]
  }

  // ---------------------------------------------------------------------
  // Max and the "max + 1, or 1" id generator

  /** The largest element of a non-empty sequence. */
  function Maximo(s: seq<int>): (m: int)
    requires |s| > 0
    ensures m in s
    ensures forall i :: 0 <= i < |s| ==> s[i] <= m
  {
    if |s| == 1 then s[0]
    else
      var resto := Maximo(s[1..]);
      if s[0] >= resto then s[0] else resto
  }

  /** `entidades.Any() ? entidades.Max(e => e.Id) + 1 : 1` over the stored
      ids, with the addition unchecked as C# `int` addition is. */
  function ProximoId(ids: seq<Int32>): (r: Int32)
    ensures |ids| == 0 ==> r == 1
    ensures (forall i :: 0 <= i < |ids| ==> ids[i] < INT32_MAX) ==>
              (forall i :: 0 <= i < |ids| ==> ids[i] < r)
    ensures (forall i :: 0 <= i < |ids| ==> ids[i] < INT32_MAX) && |ids| > 0 ==>
              r - 1 in ids
    ensures INT32_MAX in ids ==> r == INT32_MIN
  {
    if |ids| == 0 then 1 else Envolver32(Maximo(ids) + 1)
  }

  // ---------------------------------------------------------------------
  // Take

  /** LINQ `Take(n)`: the first `n` elements, all of them when there are
      fewer, none when `n` is not positive. */
  function Tomar<T>(s: seq<T>, n: int): (r: seq<T>)
    ensures |r| == if n <= 0 then 0 else if n < |s| then n else |s|
    ensures r == s[..|r|]
  {
    if n <= 0 then [] else if n < |s| then s[..n] else s
  }

  // ---------------------------------------------------------------------
  // Substring search (String.Contains with an ordinal comparison)

  /** `sub` occurs in `s` starting at index `i`. */
  ghost predicate OcorreEm<T>(s: seq<T>, sub: seq<T>, i: int)
  {
    0 <= i && i + |sub| <= |s| && s[i..i + |sub|] == sub
  }

  /** Whether `sub` occurs in `s` as a contiguous block. */
  function Contem<T(==)>(s: seq<T>, sub: seq<T>): (r: bool)
    ensures r <==> exists i :: OcorreEm(s, sub, i)
  {
    if sub <= s then
      assert OcorreEm(s, sub, 0);
      true
    else if |s| == 0 then
      assert forall i :: !OcorreEm(s, sub, i);
      false
    else
      var r := Contem(s[1..], sub);
      ContemCauda(s, sub);
      r
  }

  /** When `sub` is not a prefix of a non-empty `s`, its occurrences in `s`
      are those in `s[1..]`, shifted by one. */
  lemma ContemCauda<T>(s: seq<T>, sub: seq<T>)
    requires |s| > 0 && !(sub <= s)
    ensures (exists i :: OcorreEm(s, sub, i)) <==> (exists i :: OcorreEm(s[1..], sub, i))
  {
    if exists i :: OcorreEm(s[1..], sub, i) {
      var i :| OcorreEm(s[1..], sub, i);
      assert s[i + 1..i + 1 + |sub|] == s[1..][i..i + |sub|];
      assert OcorreEm(s, sub, i + 1);
    }
    if exists i :: OcorreEm(s, sub, i) {
      var i :| OcorreEm(s, sub, i);
      assert i == 0 ==> sub <= s;
      assert s[1..][i - 1..i - 1 + |sub|] == s[i..i + |sub|];
      assert OcorreEm(s[1..], sub, i - 1);
    }
  }

  /** The middle of a three-part concatenation occurs in it. */
  lemma ContemMeio<T>(a: seq<T>, b: seq<T>, c: seq<T>)
    ensures Contem(a + b + c, b)
  {
    assert (a + b + c)[|a|..|a| + |b|] == b;
    assert OcorreEm(a + b + c, b, |a|);
  }

  /** An occurrence in `a` is still one after anything is appended. */
  lemma ContemAntes<T>(a: seq<T>, b: seq<T>, sub: seq<T>)
    requires Contem(a, sub)
    ensures Contem(a + b, sub)
  {
    var i :| OcorreEm(a, sub, i);
    assert (a + b)[i..i + |sub|] == a[i..i + |sub|];
    assert OcorreEm(a + b, sub, i);
  }

  /** An occurrence in `b` is still one after anything is prepended. */
  lemma ContemDepois<T>(a: seq<T>, b: seq<T>, sub: seq<T>)
    requires Contem(b, sub)
    ensures Contem(a + b, sub)
  {
    var i :| OcorreEm(b, sub, i);
    assert (a + b)[|a| + i..|a| + i + |sub|] == b[i..i + |sub|];
    assert OcorreEm(a + b, sub, |a| + i);
  }

  // ---------------------------------------------------------------------
  // Stable OrderBy / OrderByDescending

  /** `le` is total and transitive: a key order such as `<=` on prices,
      `>=` for a descending sort, or an order on names. */
  ghost predicate PreOrdemTotal<K(!new)>(le: (K, K) -> bool)
  {
    && (forall a, b :: le(a, b) || le(b, a))
    && (forall a, b, c :: le(a, b) && le(b, c) ==> le(a, c))
  }

  /** Every element's key is `le` every later element's key. */
  ghost predicate Ordenada<T, K(!new)>(s: seq<T>, chave: T -> K, le: (K, K) -> bool)
  {
    forall i, j :: 0 <= i < j < |s| ==> le(chave(s[i]), chave(s[j]))
  }

  /** In a sorted sequence, an element before position `n` is `le` any
      element from position `n` on. */
  lemma OrdenadaPrefixoAntes<T, K(!new)>(s: seq<T>, chave: T -> K, le: (K, K) -> bool, n: nat, x: T, y: T)
    requires Ordenada(s, chave, le) && n <= |s|
    requires x in s[..n] && y in s[n..]
    ensures le(chave(x), chave(y))
  {
    var i :| 0 <= i < n && s[..n][i] == x;
    var j :| 0 <= j < |s| - n && s[n..][j] == y;
    assert s[i] == x && s[n + j] == y;
  }

  /** Taking away a prefix's elements leaves the suffix's. */
  lemma MultisetResto<T>(a: seq<T>, b: seq<T>)
    ensures multiset(a + b) - multiset(a) == multiset(b)
  {
    assert multiset(a + b) == multiset(a) + multiset(b);
  }

  /** The elements whose key is equivalent to `k` under `le`. */
  function MesmaChave<T, K(!new)>(chave: T -> K, le: (K, K) -> bool, k: K): T -> bool
  {
    x => le(chave(x), k) && le(k, chave(x))
  }

  /** Insert `x` before the first element whose key is not below its own. */
  function Inserir<T, K(!new)>(x: T, t: seq<T>, chave: T -> K, le: (K, K) -> bool): (r: seq<T>)
    ensures multiset(r) == multiset{x} + multiset(t)
  {
    if |t| == 0 then [x]
    else if le(chave(x), chave(t[0])) then [x] + t
    else
      assert t == [t[0]] + t[1..];
      [t[0]] + Inserir(x, t[1..], chave, le)
  }

  /** A stable sort by key: insertion sort from the back. */
  function OrdenarPor<T, K(!new)>(s: seq<T>, chave: T -> K, le: (K, K) -> bool): (r: seq<T>)
    requires PreOrdemTotal(le)
    ensures Ordenada(r, chave, le)
    ensures multiset(r) == multiset(s)
  {
    if |s| == 0 then []
    else
      var resto := OrdenarPor(s[1..], chave, le);
      InserirOrdenada(s[0], resto, chave, le);
      assert s == [s[0]] + s[1..];
      Inserir(s[0], resto, chave, le)
  }

  lemma {:induction false} InserirOrdenada<T, K(!new)>(x: T, t: seq<T>, chave: T -> K, le: (K, K) -> bool)
    requires PreOrdemTotal(le)
    requires Ordenada(t, chave, le)
    ensures Ordenada(Inserir(x, t, chave, le), chave, le)
  {
    if |t| > 0 && !le(chave(x), chave(t[0])) {
      var r' := Inserir(x, t[1..], chave, le);
      InserirOrdenada(x, t[1..], chave, le);
      assert le(chave(t[0]), chave(x));
      InserirCotaInferior(x, t[1..], chave, le, chave(t[0]));
      var r := [t[0]] + r';
      forall i, j | 0 <= i < j < |r| ensures le(chave(r[i]), chave(r[j])) {
        if i == 0 {
          assert r[j] == r'[j - 1];
        } else {
          assert r[i] == r'[i - 1] && r[j] == r'[j - 1];
        }
      }
    }
  }

  /** A lower bound of `x` and of every element of `t` bounds every
      element of the insertion. */
  lemma InserirCotaInferior<T, K(!new)>(x: T, t: seq<T>, chave: T -> K, le: (K, K) -> bool, b: K)
    requires le(b, chave(x))
    requires forall i :: 0 <= i < |t| ==> le(b, chave(t[i]))
    ensures forall i :: 0 <= i < |Inserir(x, t, chave, le)| ==> le(b, chave(Inserir(x, t, chave, le)[i]))
  {
    var r := Inserir(x, t, chave, le);
    forall i | 0 <= i < |r| ensures le(b, chave(r[i])) {
      assert r[i] in multiset(r);
      if r[i] != x {
        assert r[i] in multiset(t);
        var j :| 0 <= j < |t| && t[j] == r[i];
      }
    }
  }

  /** Inserting `x` puts it ahead of every element that `p` selects when
      `p` selects only elements whose keys are all `le` one another. */
  lemma {:induction false} InserirEstavel<T, K(!new)>(x: T, t: seq<T>, chave: T -> K, le: (K, K) -> bool, p: T -> bool)
    requires forall a, b :: p(a) && p(b) ==> le(chave(a), chave(b))
    ensures Filtrar(Inserir(x, t, chave, le), p) == (if p(x) then [x] else []) + Filtrar(t, p)
  {
    if |t| == 0 {
      FiltrarCabeca(x, [], p);
    } else if le(chave(x), chave(t[0])) {
      FiltrarCabeca(x, t, p);
    } else {
      var r' := Inserir(x, t[1..], chave, le);
      InserirEstavel(x, t[1..], chave, le, p);
      FiltrarTroca(x, t[0], r', t[1..], p);
      assert [t[0]] + t[1..] == t;
      assert Inserir(x, t, chave, le) == [t[0]] + r';
    }
  }

  /** Moving `x` past `y` does not change the filtered sequence when `p`
      does not select both. */
  lemma FiltrarTroca<T>(x: T, y: T, u: seq<T>, v: seq<T>, p: T -> bool)
    requires !(p(x) && p(y))
    requires Filtrar(u, p) == (if p(x) then [x] else []) + Filtrar(v, p)
    ensures Filtrar([y] + u, p) == (if p(x) then [x] else []) + Filtrar([y] + v, p)
  {
    FiltrarCabeca(y, u, p);
    FiltrarCabeca(y, v, p);
    var fu, fv := Filtrar(u, p), Filtrar(v, p);
    if p(x) {
      assert Filtrar([y] + u, p) == fu == [x] + fv;
      assert Filtrar([y] + v, p) == fv;
    } else if p(y) {
      assert fu == fv;
      assert Filtrar([y] + u, p) == [y] + fu;
      assert Filtrar([y] + v, p) == [y] + fv;
    } else {
      assert fu == fv;
      assert Filtrar([y] + u, p) == fu;
      assert Filtrar([y] + v, p) == fv;
    }
  }

  /** One unfolding of Filtrar. */
  lemma FiltrarCabeca<T>(x: T, t: seq<T>, p: T -> bool)
    ensures Filtrar([x] + t, p) == (if p(x) then [x] else []) + Filtrar(t, p)
  {
    assert ([x] + t)[0] == x && ([x] + t)[1..] == t;
  }

  /** Under a total preorder, two keys equivalent to `k` are `le` each
      other. */
  lemma MesmaChaveComparaveis<T, K(!new)>(chave: T -> K, le: (K, K) -> bool, k: K)
    requires PreOrdemTotal(le)
    ensures forall a, b :: MesmaChave(chave, le, k)(a) && MesmaChave(chave, le, k)(b) ==> le(chave(a), chave(b))
  {
  }

  /** OrderBy is stable: for every key, the elements with that key keep
      their relative order. */
  lemma {:induction false} OrdenarPorEstavel<T, K(!new)>(s: seq<T>, chave: T -> K, le: (K, K) -> bool, k: K)
    requires PreOrdemTotal(le)
    ensures Filtrar(OrdenarPor(s, chave, le), MesmaChave(chave, le, k)) == Filtrar(s, MesmaChave(chave, le, k))
  {
    if |s| > 0 {
      OrdenarPorEstavel(s[1..], chave, le, k);
      MesmaChaveComparaveis(chave, le, k);
      InserirEstavel(s[0], OrdenarPor(s[1..], chave, le), chave, le, MesmaChave(chave, le, k));
    }
  }

  /** An already sorted sequence is left as it is. */
  lemma {:induction false} OrdenarPorOrdenada<T, K(!new)>(s: seq<T>, chave: T -> K, le: (K, K) -> bool)
    requires PreOrdemTotal(le)
    requires Ordenada(s, chave, le)
    ensures OrdenarPor(s, chave, le) == s
  {
    if |s| > 0 {
      assert Ordenada(s[1..], chave, le);
      OrdenarPorOrdenada(s[1..], chave, le);
      if |s| > 1 {
        assert le(chave(s[0]), chave(s[1]));
      }
      assert s == [s[0]] + s[1..];
    }
  }
}
