/** Small value helpers shared by both engines: JavaScript's `slice(-n)`,
    `Math.min(1.0, x)`, `substring(0, n)`, decimal rendering of naturals and
    `Number.prototype.toFixed(3)`. */
module Comun {

  datatype Option<T> = None | Some(value: T)

  /** The last `n` elements of `s`, or all of `s` when it is not longer than `n`
      (the source writes `if (s.length > n) s = s.slice(-n)`). */
  function Ultimos<T>(s: seq<T>, n: nat): (r: seq<T>)
    ensures |r| == if |s| <= n then |s| else n
    ensures |s| <= n ==> r == s
    ensures |s| > n ==> r == s[|s| - n..]
  {
    if |s| <= n then s else s[|s| - n..]
  }

  /** What `slice(-n)` keeps was in the sequence. */
  lemma {:induction false} UltimosEn<T>(s: seq<T>, n: nat)
    ensures forall x :: x in Ultimos(s, n) ==> x in s
  {
    var r := Ultimos(s, n);
    forall x | x in r ensures x in s {
      var k :| 0 <= k < |r| && r[k] == x;
      assert r[k] == s[|s| - |r| + k];
    }
  }

  /** `Math.min(1.0, x)`. */
  function Min1(x: real): (r: real)
    ensures r <= 1.0 && r <= x
    ensures r == x || r == 1.0
  {
    if x < 1.0 then x else 1.0
  }

  /** `s.substring(0, n)` (counted in characters). */
  function Prefijo(s: string, n: nat): (r: string)
    ensures |r| <= n && |r| <= |s|
    ensures |s| <= n ==> r == s
    ensures r <= s
  {
    if |s| <= n then s else s[..n]
  }

  function Digito(d: nat): (c: char)
    requires d < 10
    ensures '0' <= c <= '9'
  {
    ('0' as int + d) as char
  }

  /** Decimal rendering of a natural number, as template literals print it. */
  function NatToString(n: nat): (r: string)
    ensures |r| >= 1 && Digitos(r)
    ensures n > 0 ==> r[0] != '0'
  {
    if n < 10 then [Digito(n)] else NatToString(n / 10) + [Digito(n % 10)]
  }

  /** A string made only of decimal digits. */
  predicate Digitos(s: string) {
    forall i :: 0 <= i < |s| ==> '0' <= s[i] <= '9'
  }

  /** The numeric value of a string of decimal digits. */
  function ValorDecimal(s: string): nat
    requires Digitos(s)
  {
    if s == [] then 0 else 10 * ValorDecimal(s[..|s| - 1]) + (s[|s| - 1] as int - '0' as int)
  }

  /** Rendering is faithful: reading the digits back gives the number. */
  lemma {:induction false} NatToStringValor(n: nat)
    ensures ValorDecimal(NatToString(n)) == n
  {
    if n >= 10 {
      var r := NatToString(n);
      assert r[..|r| - 1] == NatToString(n / 10);
      NatToStringValor(n / 10);
    }
  }

  /** Integer rendering, with a leading '-' for negatives. */
  function IntToString(n: int): (r: string)
    ensures |r| >= 1
    ensures (r[0] == '-') <==> n < 0
  {
    if n < 0 then "-" + NatToString(-n) else NatToString(n)
  }

  /** Three decimal places of a natural number of thousandths, zero-padded. */
  function Milesimas(f: nat): (r: string)
    requires f < 1000
    ensures |r| == 3 && Digitos(r)
  {
    [Digito(f / 10 / 10), Digito(f / 10 % 10), Digito(f % 10)]
  }

  /** The three places read back give the thousandths. */
  lemma MilesimasValor(f: nat)
    requires f < 1000
    ensures ValorDecimal(Milesimas(f)) == f
  {
    var r := Milesimas(f);
    var q := f / 10;
    assert r[..2][..1] == [r[0]] && r[..2][1] == r[1];
    assert ValorDecimal([r[0]]) == q / 10;
    assert ValorDecimal(r[..2]) == 10 * (q / 10) + q % 10 == q;
  }

  /** A natural number of thousandths written as units, '.', and three
      decimals. */
  function Milesimo(n: nat): string {
    NatToString(n / 1000) + "." + Milesimas(n % 1000)
  }

  /** Read back, `Milesimo(n)` is integer digits without a leading zero, the
      point and three decimals, worth `n` thousandths. */
  lemma MilesimoValor(n: nat)
    ensures var r := Milesimo(n);
            var entero := r[..|r| - 4];
            var decimales := r[|r| - 3..];
            && |r| >= 5 && r[|r| - 4] == '.'
            && |entero| >= 1 && Digitos(entero) && Digitos(decimales)
            && (entero[0] == '0' ==> entero == "0")
            && ValorDecimal(entero) * 1000 + ValorDecimal(decimales) == n
  {
    var entero := NatToString(n / 1000);
    var decimales := Milesimas(n % 1000);
    NatToStringValor(n / 1000);
    MilesimasValor(n % 1000);
    var r := Milesimo(n);
    assert r[..|r| - 4] == entero && r[|r| - 3..] == decimales;
  }

  /** The thousandths `toFixed(3)` renders: the magnitude rounded to the
      nearest, halves away from zero. */
  function Redondeo(x: real): nat {
    var m := if x < 0.0 then -x else x;
    var n := (m * 1000.0 + 0.5).Floor;
    assert n >= 0;
    n
  }

  /** `x.toFixed(3)`: the magnitude rounded to the nearest thousandth, halves
      rounded away from zero, with the sign kept in front. */
  function Fijo3(x: real): (r: string)
    ensures |r| >= 5 && r[|r| - 4] == '.'
    ensures (r[0] == '-') <==> x < 0.0
  {
    if x < 0.0 then "-" + Milesimo(Redondeo(x)) else Milesimo(Redondeo(x))
  }

  /** What `toFixed(3)` renders, read back: after a '-' exactly for negatives
      come integer digits without a leading zero and three decimals, and the
      integer digits times 1000 plus the decimals are the magnitude in
      thousandths, rounded to the nearest with halves away from zero. */
  lemma Fijo3Valor(x: real)
    ensures var r := Fijo3(x);
            var cuerpo := if x < 0.0 then r[1..] else r;
            var entero := cuerpo[..|cuerpo| - 4];
            var decimales := cuerpo[|cuerpo| - 3..];
            && |entero| >= 1 && Digitos(entero) && Digitos(decimales)
            && (entero[0] == '0' ==> entero == "0")
            && ValorDecimal(entero) * 1000 + ValorDecimal(decimales) ==
               ((if x < 0.0 then -x else x) * 1000.0 + 0.5).Floor
  {
    MilesimoValor(Redondeo(x));
    if x < 0.0 {
      assert ("-" + Milesimo(Redondeo(x)))[1..] == Milesimo(Redondeo(x));
    }
  }
}
