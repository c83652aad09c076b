/**
 * The few Python string built-ins the core relies on: `str.split` with a
 * one-character separator, `int(s)` on a decimal string and `str(n)` on an
 * integer.
 */
module Texto {
  import opened Wrappers

  predicate EsDigito(c: char) {
    '0' <= c <= '9'
  }

  function ValorDigito(c: char): (d: nat)
    requires EsDigito(c)
    ensures d < 10
  {
    c as int - '0' as int
  }

  function CaracterDigito(d: nat): (c: char)
    requires d < 10
    ensures EsDigito(c) && ValorDigito(c) == d
  {
    ('0' as int + d) as char
  }

  /** Number of occurrences of `c` in `s`. */
  function Ocurrencias(s: string, c: char): nat {
    if s == [] then 0 else (if s[0] == c then 1 else 0) + Ocurrencias(s[1..], c)
  }

  /**
   * `s.split(sep)`: the maximal pieces of `s` between separators, empty
   * pieces included, so there is always one piece more than separators.
   */
  function Dividir(s: string, sep: char): (partes: seq<string>)
    ensures |partes| == Ocurrencias(s, sep) + 1
    ensures forall i :: 0 <= i < |partes| ==> sep !in partes[i]
  {
    if s == [] then [""]
    else if s[0] == sep then [""] + Dividir(s[1..], sep)
    else
      var resto := Dividir(s[1..], sep);
      [[s[0]] + resto[0]] + resto[1..]
  }

  /** `sep.join(partes)`, the inverse of `Dividir`. */
  function Unir(partes: seq<string>, sep: char): string
    requires |partes| >= 1
  {
    if |partes| == 1 then partes[0] else partes[0] + [sep] + Unir(partes[1..], sep)
  }

  lemma {:induction false} UnirDividir(s: string, sep: char)
    ensures Unir(Dividir(s, sep), sep) == s
  {
    if s == [] {
    } else if s[0] == sep {
      UnirDividir(s[1..], sep);
      assert Dividir(s, sep)[1..] == Dividir(s[1..], sep);
    } else {
      var resto := Dividir(s[1..], sep);
      UnirDividir(s[1..], sep);
      var partes := Dividir(s, sep);
      assert partes[1..] == resto[1..];
      if |resto| == 1 {
      } else {
        assert Unir(resto, sep) == resto[0] + [sep] + Unir(resto[1..], sep);
      }
    }
  }

  lemma {:induction false} DividirUnir(partes: seq<string>, sep: char)
    requires |partes| >= 1
    requires forall i :: 0 <= i < |partes| ==> sep !in partes[i]
    ensures Dividir(Unir(partes, sep), sep) == partes
  {
    if |partes| == 1 {
      DividirSinSeparador(partes[0], sep);
    } else {
      DividirUnir(partes[1..], sep);
      DividirPrefijo(partes[0], Unir(partes[1..], sep), sep);
    }
  }

  lemma {:induction false} DividirSinSeparador(s: string, sep: char)
    requires sep !in s
    ensures Dividir(s, sep) == [s]
  {
    if s != [] {
      DividirSinSeparador(s[1..], sep);
      assert [s[0]] + s[1..] == s;
    }
  }

  /** Splitting `p + [sep] + r` where `p` holds no separator yields `p` followed by the pieces of `r`. */
  lemma {:induction false} DividirPrefijo(p: string, r: string, sep: char)
    requires sep !in p
    ensures Dividir(p + [sep] + r, sep) == [p] + Dividir(r, sep)
  {
    if p == [] {
      assert p + [sep] + r == [sep] + r;
      assert ([sep] + r)[1..] == r;
    } else {
      DividirPrefijo(p[1..], r, sep);
      assert (p + [sep] + r)[1..] == p[1..] + [sep] + r;
      assert [p[0]] + p[1..] == p;
    }
  }

  /** Value of a non-empty string of decimal digits, leading zeros allowed. */
  function ValorDigitos(s: string): (n: nat)
    requires forall i :: 0 <= i < |s| ==> EsDigito(s[i])
  {
    if s == [] then 0 else 10 * ValorDigitos(s[..|s| - 1]) + ValorDigito(s[|s| - 1])
  }

  predicate SoloDigitos(s: string) {
    |s| > 0 && forall i :: 0 <= i < |s| ==> EsDigito(s[i])
  }

  /**
   * `int(s)` on a string: an optional sign followed by decimal digits;
   * anything else raises `ValueError`, here `None`.
   */
  function AEntero(s: string): (r: Option<int>)
    ensures r.Some? <==> SoloDigitos(s) || (|s| > 1 && s[0] in "+-" && SoloDigitos(s[1..]))
  {
    if SoloDigitos(s) then Some(ValorDigitos(s))
    else if |s| > 1 && s[0] == '-' && SoloDigitos(s[1..]) then Some(0 - ValorDigitos(s[1..]) as int)
    else if |s| > 1 && s[0] == '+' && SoloDigitos(s[1..]) then Some(ValorDigitos(s[1..]))
    else None
  }

  /** `str(n)` for a natural number: its decimal digits without leading zeros. */
  function DigitosDe(n: nat): (s: string)
    ensures SoloDigitos(s)
    ensures s[0] == '0' ==> n == 0
  {
    if n < 10 then [CaracterDigito(n)] else DigitosDe(n / 10) + [CaracterDigito(n % 10)]
  }

  /** `str(n)` for any integer. */
  function Texto(n: int): (s: string)
    ensures |s| > 0
  {
    if n < 0 then "-" + DigitosDe(-n) else DigitosDe(n)
  }

  lemma {:induction false} ValorDigitosDe(n: nat)
    ensures ValorDigitos(DigitosDe(n)) == n
  {
    if n >= 10 {
      ValorDigitosDe(n / 10);
      var s := DigitosDe(n);
      assert s[..|s| - 1] == DigitosDe(n / 10);
    }
  }

  /** `int(str(n)) == n`. */
  lemma AEnteroTexto(n: int)
    ensures AEntero(Texto(n)) == Some(n)
  {
    if n < 0 {
      ValorDigitosDe(-n);
      assert Texto(n)[1..] == DigitosDe(-n);
    } else {
      ValorDigitosDe(n);
    }
  }

  /** Distinct integers have distinct texts, so `str` can serve as a unique key. */
  lemma TextoInyectivo(m: int, n: int)
    requires Texto(m) == Texto(n)
    ensures m == n
  {
    AEnteroTexto(m);
    AEnteroTexto(n);
  }
}
