/** The .NET string facilities the core relies on: `char.IsWhiteSpace`,
    `string.IsNullOrWhiteSpace`, `char.IsDigit`, case-insensitive comparison,
    decimal rendering of an `int`, and the order `OrderBy` uses on names. */
module Texto {
  import opened Wrappers
  import opened Sequencias

  /** `char.IsWhiteSpace`: the Unicode separators plus the control
      characters TAB, LF, VT, FF, CR and NEL. */
  predicate EspacoBranco(c: char)
  {
    || '\U{0009}' <= c <= '\U{000D}'
    || c == ' ' || c == '\U{0085}' || c == '\U{00A0}' || c == '\U{1680}'
    || '\U{2000}' <= c <= '\U{200A}'
    || c == '\U{2028}' || c == '\U{2029}' || c == '\U{202F}' || c == '\U{205F}' || c == '\U{3000}'
  }

  /** `string.IsNullOrWhiteSpace` for a non-null string: empty, or nothing
      but white space. */
  predicate EmBranco(s: string)
  {
    forall i :: 0 <= i < |s| ==> EspacoBranco(s[i])
  }

  /** `char.IsDigit`, restricted to the ASCII digits. */
  predicate EDigito(c: char)
  {
    '0' <= c <= '9'
  }

  /** `new string(s.Where(char.IsDigit).ToArray())`: every digit of `s`,
      in order, and nothing else. */
  function ApenasDigitos(s: string): (r: string)
    ensures forall i :: 0 <= i < |r| ==> EDigito(r[i])
    ensures |r| <= |s|
    ensures |r| == |PosicoesQue(s, EDigito)|
    ensures forall j :: 0 <= j < |r| ==> r[j] == s[PosicoesQue(s, EDigito)[j]]
  {
    FiltrarPosicoes(s, EDigito);
    Filtrar(s, EDigito)
  }

  /** A string that is all digits is its own digit filter. */
  lemma ApenasDigitosIdempotente(s: string)
    requires forall i :: 0 <= i < |s| ==> EDigito(s[i])
    ensures ApenasDigitos(s) == s
  {
    FiltrarTodos(s, EDigito);
  }

  // ---------------------------------------------------------------------
  // Case folding

  /** Lower-case one character: the ASCII and Latin-1 capitals. */
  function Minuscula(c: char): (r: char)
    ensures 'A' <= c <= 'Z' ==> r != c
    ensures !('A' <= c <= 'Z') && !('\U{00C0}' <= c <= '\U{00DE}') ==> r == c
  {
    if 'A' <= c <= 'Z' || ('\U{00C0}' <= c <= '\U{00DE}' && c != '\U{00D7}') then (c as int + 32) as char
    else c
  }

  /** `ToLower()`, one character at a time. */
  function ParaMinusculas(s: string): (r: string)
    ensures |r| == |s|
    ensures forall i :: 0 <= i < |s| ==> r[i] == Minuscula(s[i])
  {
    seq(|s|, i requires 0 <= i < |s| => Minuscula(s[i]))
  }

  /** Lower-casing distributes over concatenation. */
  lemma ParaMinusculasConcat(a: string, b: string)
    ensures ParaMinusculas(a + b) == ParaMinusculas(a) + ParaMinusculas(b)
  {
  }

  /** `a.Equals(b, StringComparison.OrdinalIgnoreCase)`. */
  predicate IgualSemCaso(a: string, b: string)
  {
    ParaMinusculas(a) == ParaMinusculas(b)
  }

  /** `s.Contains(sub, StringComparison.OrdinalIgnoreCase)`. */
  predicate ContemSemCaso(s: string, sub: string)
  {
    Contem(ParaMinusculas(s), ParaMinusculas(sub))
  }

  /** Every string contains the empty string, whatever its case. */
  lemma ContemVazio(s: string)
    ensures ContemSemCaso(s, "")
  {
    assert OcorreEm(ParaMinusculas(s), ParaMinusculas(""), 0);
  }

  // ---------------------------------------------------------------------
  // Decimal rendering of an int, as string interpolation does it

  function Algarismo(d: nat): (c: char)
    requires d < 10
    ensures EDigito(c) && c as int - '0' as int == d
  {
    ('0' as int + d) as char
  }

  /** The decimal digits of `n`, most significant first, without leading
      zeros. */
  function NatParaTexto(n: nat): (r: string)
    ensures |r| > 0
    ensures forall i :: 0 <= i < |r| ==> EDigito(r[i])
  {
    if n < 10 then [Algarismo(n)] else NatParaTexto(n / 10) + [Algarismo(n % 10)]
  }

  /** `$"{i}"` for an int: a minus sign for negative numbers. */
  function IntParaTexto(i: int): (r: string)
    ensures |r| > 0
    ensures i >= 0 ==> forall k :: 0 <= k < |r| ==> EDigito(r[k])
    ensures i < 0 ==> |r| >= 2 && r[0] == '-' && forall k :: 1 <= k < |r| ==> EDigito(r[k])
  {
    if i < 0 then "-" + NatParaTexto(-i) else NatParaTexto(i)
  }

  /** The form `IntParaTexto` produces: digits, with an optional leading
      minus sign. */
  predicate TextoInteiro(s: string)
  {
    |s| > 0 && (s[0] == '-' || EDigito(s[0])) && forall k :: 1 <= k < |s| ==> EDigito(s[k])
  }

  /** The value of an optionally signed decimal text. */
  function LerInteiro(s: string): int
    requires TextoInteiro(s)
  {
    if s[0] == '-' then -(LerNatural(s[1..]) as int) else LerNatural(s)
  }

  function ValorAlgarismo(c: char): nat
    requires EDigito(c)
  {
    c as int - '0' as int
  }

  /** The value of a string of decimal digits. */
  function LerNatural(s: string): nat
    requires forall i :: 0 <= i < |s| ==> EDigito(s[i])
  {
    if |s| == 0 then 0
    else LerNatural(s[..|s| - 1]) * 10 + ValorAlgarismo(s[|s| - 1])
  }

  /** The rendering is faithful: reading the digits back gives the number. */
  lemma {:induction false} LerNatParaTexto(n: nat)
    ensures LerNatural(NatParaTexto(n)) == n
  {
    if n >= 10 {
      var r := NatParaTexto(n);
      assert r[..|r| - 1] == NatParaTexto(n / 10);
      LerNatParaTexto(n / 10);
    }
  }

  /** Reading back the text of any int, negative ones included, gives the
      number. */
  lemma LerIntParaTexto(i: int)
    ensures TextoInteiro(IntParaTexto(i))
    ensures LerInteiro(IntParaTexto(i)) == i
  {
    if i < 0 {
      assert IntParaTexto(i)[1..] == NatParaTexto(-i);
      LerNatParaTexto(-i);
    } else {
      LerNatParaTexto(i);
    }
  }

  // ---------------------------------------------------------------------
  // UTF-16: .NET strings are sequences of 16-bit code units

  /** The UTF-16 encoding of one character: the character itself inside the
      Basic Multilingual Plane, a high and a low surrogate outside it. */
  function Utf16(c: char): (u: seq<int>)
    ensures |u| == 1 <==> c as int < 0x10000
    ensures |u| == 1 || |u| == 2
    ensures |u| == 1 ==> u[0] == c as int && !(0xD800 <= u[0] < 0xE000)
    ensures |u| == 2 ==> 0xD800 <= u[0] < 0xDC00 && 0xDC00 <= u[1] < 0xE000
    ensures |u| == 2 ==> (u[0] - 0xD800) * 0x400 + (u[1] - 0xDC00) + 0x10000 == c as int
  {
    var v := c as int;
    if v < 0x10000 then [v]
    else [0xD800 + (v - 0x10000) / 0x400, 0xDC00 + (v - 0x10000) % 0x400]
  }

  /** The UTF-16 code units of a whole string. */
  function CodificarUtf16(s: string): seq<int>
  {
    if |s| == 0 then [] else Utf16(s[0]) + CodificarUtf16(s[1..])
  }

  /** `string.Length`: the number of UTF-16 code units, one or two per
      character. */
  function ComprimentoUtf16(s: string): nat
  {
    |CodificarUtf16(s)|
  }

  /** A string has between one and two code units per character, and
      exactly one each when it stays inside the Basic Multilingual Plane. */
  lemma {:induction false} ComprimentoUtf16Limites(s: string)
    ensures |s| <= ComprimentoUtf16(s) <= 2 * |s|
    ensures (forall i :: 0 <= i < |s| ==> s[i] as int < 0x10000) ==> ComprimentoUtf16(s) == |s|
  {
    if |s| > 0 {
      ComprimentoUtf16Limites(s[1..]);
      assert forall i :: 1 <= i < |s| ==> s[1..][i - 1] == s[i];
    }
  }

  /** Lexicographic order on code units: `u` is not after `v`. */
  predicate UnidadesMenorIgual(u: seq<int>, v: seq<int>)
  {
    if |u| == 0 then true
    else if |v| == 0 then false
    else if u[0] != v[0] then u[0] < v[0]
    else UnidadesMenorIgual(u[1..], v[1..])
  }

  // ---------------------------------------------------------------------
  // The order OrderBy(c => c.Nome) uses

  /** Where a character falls in UTF-16 code-unit order: below the
      surrogates it keeps its value, characters outside the Basic
      Multilingual Plane (whose first unit is a surrogate) come next, and
      U+E000..U+FFFF come last. */
  function ChaveOrdinal(c: char): (k: int)
    ensures c as int < 0xD800 ==> k == c as int
    ensures c as int >= 0x10000 ==> 0xD800 <= k < 0x10E000
    ensures 0xE000 <= c as int < 0x10000 ==> k >= 0x10E000
  {
    var v := c as int;
    if v < 0xD800 then v
    else if v >= 0x10000 then 0xD800 + (v - 0x10000)
    else v + 0x100000
  }

  /** Different characters have different keys. */
  lemma ChaveOrdinalInjetiva(c: char, d: char)
    requires c != d
    ensures ChaveOrdinal(c) != ChaveOrdinal(d)
  {
    assert c as int != d as int;
  }

  /** A common prefix does not decide a code-unit comparison. */
  lemma {:induction false} UnidadesPrefixoComum(p: seq<int>, x: seq<int>, y: seq<int>)
    ensures UnidadesMenorIgual(p + x, p + y) == UnidadesMenorIgual(x, y)
  {
    if |p| > 0 {
      assert (p + x)[1..] == p[1..] + x && (p + y)[1..] == p[1..] + y;
      UnidadesPrefixoComum(p[1..], x, y);
    } else {
      assert p + x == x && p + y == y;
    }
  }

  /** Two different characters compare by key exactly as their UTF-16
      encodings compare, whatever follows them. */
  lemma ChaveOrdinalUtf16(c: char, d: char, x: seq<int>, y: seq<int>)
    requires c != d
    ensures UnidadesMenorIgual(Utf16(c) + x, Utf16(d) + y) == (ChaveOrdinal(c) < ChaveOrdinal(d))
  {
    var u, v := Utf16(c), Utf16(d);
    var cu, dv := u + x, v + y;
    assert cu[0] == u[0] && dv[0] == v[0];
    if u[0] == v[0] {
      assert |u| == 2 && |v| == 2;
      assert u[1] != v[1];
      assert cu[1..][0] == u[1] && dv[1..][0] == v[1];
      assert UnidadesMenorIgual(cu, dv) == UnidadesMenorIgual(cu[1..], dv[1..]);
    } else if |u| == 2 && |v| == 2 {
      assert u[0] < v[0] ==> c as int < d as int;
      assert v[0] < u[0] ==> d as int < c as int;
    }
  }

  /** Ordinal order on names: `a` is not after `b` when, at the first
      character where they differ, `a`'s comes first in UTF-16 order, or
      when `a` is a prefix of `b`. */
  predicate OrdinalMenorIgual(a: string, b: string)
  {
    if |a| == 0 then true
    else if |b| == 0 then false
    else if a[0] != b[0] then ChaveOrdinal(a[0]) < ChaveOrdinal(b[0])
    else OrdinalMenorIgual(a[1..], b[1..])
  }

  /** `string.CompareOrdinal`: the order on names is the lexicographic
      order of their UTF-16 code units. */
  lemma {:induction false} OrdinalUtf16(a: string, b: string)
    ensures OrdinalMenorIgual(a, b) == UnidadesMenorIgual(CodificarUtf16(a), CodificarUtf16(b))
  {
    if |a| > 0 && |b| > 0 {
      var x, y := CodificarUtf16(a[1..]), CodificarUtf16(b[1..]);
      assert CodificarUtf16(a) == Utf16(a[0]) + x && CodificarUtf16(b) == Utf16(b[0]) + y;
      if a[0] == b[0] {
        UnidadesPrefixoComum(Utf16(a[0]), x, y);
        OrdinalUtf16(a[1..], b[1..]);
      } else {
        ChaveOrdinalUtf16(a[0], b[0], x, y);
      }
    }
  }

  lemma {:induction false} OrdinalTotal(a: string, b: string)
    ensures OrdinalMenorIgual(a, b) || OrdinalMenorIgual(b, a)
  {
    if |a| > 0 && |b| > 0 && a[0] == b[0] {
      OrdinalTotal(a[1..], b[1..]);
    }
  }

  lemma {:induction false} OrdinalTransitiva(a: string, b: string, c: string)
    requires OrdinalMenorIgual(a, b) && OrdinalMenorIgual(b, c)
    ensures OrdinalMenorIgual(a, c)
  {
    if |a| > 0 && |b| > 0 && |c| > 0 && a[0] == b[0] && b[0] == c[0] {
      OrdinalTransitiva(a[1..], b[1..], c[1..]);
    }
  }

  /** Two names that are each `OrdinalMenorIgual` the other are equal, so
      sorting by name leaves no ties between different names. */
  lemma {:induction false} OrdinalAntissimetrica(a: string, b: string)
    requires OrdinalMenorIgual(a, b) && OrdinalMenorIgual(b, a)
    ensures a == b
  {
    if |a| > 0 && |b| > 0 {
      OrdinalAntissimetrica(a[1..], b[1..]);
      assert a == [a[0]] + a[1..] && b == [b[0]] + b[1..];
    }
  }

  /** The name order is one `OrdenarPor` can sort by. */
  lemma OrdinalPreOrdemTotal()
    ensures PreOrdemTotal(OrdinalMenorIgual)
  {
    forall a, b ensures OrdinalMenorIgual(a, b) || OrdinalMenorIgual(b, a) {
      OrdinalTotal(a, b);
    }
    forall a, b, c | OrdinalMenorIgual(a, b) && OrdinalMenorIgual(b, c)
      ensures OrdinalMenorIgual(a, c)
    {
      OrdinalTransitiva(a, b, c);
    }
  }
}
