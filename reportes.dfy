/**
 * The per-state tally of the PDF and Excel reports: a dictionary from state
 * name to the number of equipos in that state, filled in one pass over the
 * equipos. A Python dictionary keeps its keys in insertion order, so the
 * tally is an association list whose keys appear in the order the states
 * are first met.
 */
module Reportes {
  import opened Models

  /** The tally: (state name, count) pairs in insertion order. */
  type Tally = seq<(string, nat)>

  /** `d.get(k, 0)`. */
  function Get(t: Tally, k: string): nat {
    if t == [] then 0
    else if t[0].0 == k then t[0].1
    else Get(t[1..], k)
  }

  /** The keys of a tally, in order. */
  function Claves(t: Tally): (ks: seq<string>)
    ensures |ks| == |t| && forall i :: 0 <= i < |t| ==> ks[i] == t[i].0
  {
    if t == [] then [] else [t[0].0] + Claves(t[1..])
  }

  /** `d[k] = d.get(k, 0) + 1`: the entry for `k` is bumped in place, or added at the end. */
  function Incrementar(t: Tally, k: string): Tally {
    if t == [] then [(k, 1)]
    else if t[0].0 == k then [(k, t[0].1 + 1)] + t[1..]
    else [t[0]] + Incrementar(t[1..], k)
  }

  /** The dictionary after tallying `nombres` in order, starting empty. */
  function Contar(nombres: seq<string>): Tally {
    if nombres == [] then []
    else Incrementar(Contar(nombres[..|nombres| - 1]), nombres[|nombres| - 1])
  }

  /** How many times `k` occurs in `s`. */
  function Ocurrencias(s: seq<string>, k: string): nat {
    if s == [] then 0
    else Ocurrencias(s[..|s| - 1], k) + (if s[|s| - 1] == k then 1 else 0)
  }

  /** The distinct elements of `s`, each where it first occurs. */
  function Primeras(s: seq<string>): seq<string> {
    if s == [] then []
    else if s[|s| - 1] in Primeras(s[..|s| - 1]) then Primeras(s[..|s| - 1])
    else Primeras(s[..|s| - 1]) + [s[|s| - 1]]
  }

  /** The sum of the counts. */
  function Total(t: Tally): nat {
    if t == [] then 0 else t[0].1 + Total(t[1..])
  }

  /** The state name of each equipo, through its foreign key. */
  function NombresDeEstado(equipos: seq<Fila>, estados: seq<string>): (r: seq<string>)
    requires forall i :: 0 <= i < |equipos| ==> 1 <= equipos[i].datos.estado <= |estados|
    ensures |r| == |equipos| && forall i :: 0 <= i < |r| ==> r[i] == estados[equipos[i].datos.estado - 1]
  {
    if equipos == [] then []
    else NombresDeEstado(equipos[..|equipos| - 1], estados) + [estados[equipos[|equipos| - 1].datos.estado - 1]]
  }

  /**
   * The tally loop of the PDF report (and, identically, of the Excel
   * report): one increment per equipo, under its state's name.
   */
  method ContarEstados(equipos: seq<Fila>, estados: seq<string>) returns (cuentas: Tally)
    requires forall i :: 0 <= i < |equipos| ==> 1 <= equipos[i].datos.estado <= |estados|
    ensures cuentas == Contar(NombresDeEstado(equipos, estados))
  {
    ghost var nombres := NombresDeEstado(equipos, estados);
    cuentas := [];
    for i := 0 to |equipos|
      invariant cuentas == Contar(nombres[..i])
    {
      assert nombres[..i + 1][..i] == nombres[..i];
      var estado := estados[equipos[i].datos.estado - 1];
      cuentas := Incrementar(cuentas, estado);
    }
    assert nombres[..|equipos|] == nombres;
  }

  // ---------------------------------------------------------------------------
  // Properties of one increment
  // ---------------------------------------------------------------------------

  lemma {:induction false} IncrementarGet(t: Tally, k: string, x: string)
    ensures Get(Incrementar(t, k), x) == Get(t, x) + (if x == k then 1 else 0)
  {
    if t != [] && t[0].0 != k {
      IncrementarGet(t[1..], k, x);
      assert Incrementar(t, k)[1..] == Incrementar(t[1..], k);
    }
  }

  lemma {:induction false} IncrementarTotal(t: Tally, k: string)
    ensures Total(Incrementar(t, k)) == Total(t) + 1
  {
    if t != [] && t[0].0 != k {
      IncrementarTotal(t[1..], k);
      assert Incrementar(t, k)[1..] == Incrementar(t[1..], k);
    } else if t != [] {
      assert Incrementar(t, k)[1..] == t[1..];
    }
  }

  lemma {:induction false} IncrementarClaves(t: Tally, k: string)
    ensures Claves(Incrementar(t, k)) == if k in Claves(t) then Claves(t) else Claves(t) + [k]
  {
    if t != [] && t[0].0 != k {
      IncrementarClaves(t[1..], k);
      assert Incrementar(t, k)[1..] == Incrementar(t[1..], k);
      assert Claves(t) == [t[0].0] + Claves(t[1..]);
      assert k in Claves(t) <==> k in Claves(t[1..]);
    } else if t != [] {
      assert Incrementar(t, k)[1..] == t[1..];
    }
  }

  lemma {:induction false} IncrementarPositivas(t: Tally, k: string)
    requires forall i :: 0 <= i < |t| ==> t[i].1 >= 1
    ensures forall i :: 0 <= i < |Incrementar(t, k)| ==> Incrementar(t, k)[i].1 >= 1
  {
    if t != [] && t[0].0 != k {
      IncrementarPositivas(t[1..], k);
      assert Incrementar(t, k) == [t[0]] + Incrementar(t[1..], k);
    }
  }

  // ---------------------------------------------------------------------------
  // Properties of the tally
  // ---------------------------------------------------------------------------

  /** Each state's count is the number of equipos in that state; a state no equipo has counts 0. */
  lemma {:induction false} ContarCuenta(nombres: seq<string>, x: string)
    ensures Get(Contar(nombres), x) == Ocurrencias(nombres, x)
  {
    if nombres != [] {
      ContarCuenta(nombres[..|nombres| - 1], x);
      IncrementarGet(Contar(nombres[..|nombres| - 1]), nombres[|nombres| - 1], x);
    }
  }

  /** The counts sum to the number of equipos. */
  lemma {:induction false} ContarTotal(nombres: seq<string>)
    ensures Total(Contar(nombres)) == |nombres|
  {
    if nombres != [] {
      ContarTotal(nombres[..|nombres| - 1]);
      IncrementarTotal(Contar(nombres[..|nombres| - 1]), nombres[|nombres| - 1]);
    }
  }

  /** The keys are the state names met, each once, in the order first met. */
  lemma {:induction false} ContarClaves(nombres: seq<string>)
    ensures Claves(Contar(nombres)) == Primeras(nombres)
  {
    if nombres != [] {
      ContarClaves(nombres[..|nombres| - 1]);
      IncrementarClaves(Contar(nombres[..|nombres| - 1]), nombres[|nombres| - 1]);
    }
  }

  /** Every listed state has at least one equipo. */
  lemma {:induction false} ContarPositivas(nombres: seq<string>)
    ensures forall i :: 0 <= i < |Contar(nombres)| ==> Contar(nombres)[i].1 >= 1
  {
    if nombres != [] {
      ContarPositivas(nombres[..|nombres| - 1]);
      IncrementarPositivas(Contar(nombres[..|nombres| - 1]), nombres[|nombres| - 1]);
    }
  }

  /** `Primeras` lists each name at most once, and exactly the names of the input. */
  lemma {:induction false} PrimerasSpec(s: seq<string>)
    ensures forall i, j :: 0 <= i < j < |Primeras(s)| ==> Primeras(s)[i] != Primeras(s)[j]
    ensures forall x :: x in Primeras(s) <==> x in s
  {
    if s != [] {
      var front := s[..|s| - 1];
      PrimerasSpec(front);
      assert s == front + [s[|s| - 1]];
    }
  }
}
