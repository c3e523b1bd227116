/** Tokenisation shared by learning and reply lookup:
    `mensaje.toLowerCase().split(/\W+/).filter(p => p.length > 2)`.
    `\W` is every character outside `[A-Za-z0-9_]`; empty pieces produced by
    `split` at the ends of the string are dropped by the length filter, so a
    token is a maximal run of word characters longer than two. */
module Tokens {

  predicate EsCaracterPalabra(c: char) {
    ('a' <= c <= 'z') || ('A' <= c <= 'Z') || ('0' <= c <= '9') || c == '_'
  }

  /** A non-empty string made only of word characters. */
  predicate EsPalabra(s: string) {
    |s| > 0 && forall i :: 0 <= i < |s| ==> EsCaracterPalabra(s[i])
  }

  /** A word whose letters are all lower case. */
  predicate EsPalabraMinuscula(s: string) {
    EsPalabra(s) && forall i :: 0 <= i < |s| ==> !('A' <= s[i] <= 'Z')
  }

  /** KELVIN SIGN, which `toLowerCase` turns into the letter 'k'. */
  const KELVIN: char := '\U{212A}'

  /** LATIN CAPITAL LETTER I WITH DOT ABOVE, which `toLowerCase` turns into
      'i' followed by COMBINING DOT ABOVE (U+0307). */
  const I_CON_PUNTO: char := '\U{0130}'

  /** `toLowerCase` of one character, as far as `\W` can tell: ASCII capitals
      are lowered, and the only two non-ASCII characters whose lower case
      holds an ASCII letter are mapped as the Unicode tables map them. Every
      other character is kept: a non-ASCII character lowers to non-ASCII
      characters, which `\W` treats as separators either way. */
  function Minuscula(c: char): (r: string)
    ensures |r| >= 1
    ensures forall i :: 0 <= i < |r| ==> !('A' <= r[i] <= 'Z')
    ensures EsCaracterPalabra(c) ==> |r| == 1 && EsCaracterPalabra(r[0])
    ensures !('A' <= c <= 'Z') && c != KELVIN && c != I_CON_PUNTO ==> r == [c]
    ensures c == KELVIN ==> r == "k"
    ensures c == I_CON_PUNTO ==> r[0] == 'i' && forall i :: 1 <= i < |r| ==> !EsCaracterPalabra(r[i])
  {
    if 'A' <= c <= 'Z' then [(c as int + 32) as char]
    else if c == KELVIN then "k"
    else if c == I_CON_PUNTO then ['i', '\U{0307}']
    else [c]
  }

  /** `s.toLowerCase()`, character by character. */
  function Minusculas(s: string): (r: string)
    ensures |r| >= |s|
    ensures forall i :: 0 <= i < |r| ==> !('A' <= r[i] <= 'Z')
  {
    if s == [] then [] else Minusculas(s[..|s| - 1]) + Minuscula(s[|s| - 1])
  }

  /** A string without ASCII capitals, KELVIN SIGN or I WITH DOT ABOVE is
      its own lower case. */
  lemma {:induction false} MinusculasFija(s: string)
    requires forall i :: 0 <= i < |s| ==> !('A' <= s[i] <= 'Z') && s[i] != KELVIN && s[i] != I_CON_PUNTO
    ensures Minusculas(s) == s
  {
    if s != [] {
      MinusculasFija(s[..|s| - 1]);
      assert s[..|s| - 1] + [s[|s| - 1]] == s;
    }
  }

  /** KELVIN SIGN lowers to a word character: "\U{212A}ey" is the token "key". */
  lemma TokenKelvin()
    ensures Tokenizar([KELVIN, 'e', 'y']) == ["key"]
  {
    MinusculasKelvin();
    TrozosKey();
  }

  lemma MinusculasKelvin()
    ensures Minusculas([KELVIN, 'e', 'y']) == "key"
  {
    var s := [KELVIN, 'e', 'y'];
    assert s[..2][..1] == [KELVIN] && s[..2] == [KELVIN, 'e'];
    assert Minusculas([KELVIN]) == Minusculas([]) + "k";
    assert Minusculas([KELVIN, 'e']) == "k" + "e";
    assert Minusculas(s) == "ke" + "y";
  }

  lemma TrozosKey()
    ensures Largos(Trozos("key", [])) == ["key"]
  {
    var k := "key";
    assert k[1..] == "ey" && k[1..][1..] == "y" && k[1..][1..][1..] == [];
    assert [] + ['k'] == "k" && "k" + ['e'] == "ke" && "ke" + ['y'] == k;
    assert Trozos(k, []) == Trozos("ey", "k") == Trozos("y", "ke") == Trozos([], "key") == [k];
    assert Largos([k]) == [k] + Largos([]);
  }

  /** The current run `actual`, as a list of zero or one piece. */
  function Cerrar(actual: string): seq<string> {
    if actual == [] then [] else [actual]
  }

  /** The maximal runs of word characters of `actual + s`, where `actual` is
      the run already being read. */
  function Trozos(s: string, actual: string): seq<string>
    decreases |s|
  {
    if s == [] then Cerrar(actual)
    else if EsCaracterPalabra(s[0]) then Trozos(s[1..], actual + [s[0]])
    else Cerrar(actual) + Trozos(s[1..], [])
  }

  /** The pieces longer than two characters. */
  function Largos(ps: seq<string>): seq<string> {
    if ps == [] then [] else (if |ps[0]| > 2 then [ps[0]] else []) + Largos(ps[1..])
  }

  /** The tokens of a message, in message order. */
  function Tokenizar(mensaje: string): (r: seq<string>)
    ensures forall k :: 0 <= k < |r| ==> |r[k]| > 2 && EsPalabraMinuscula(r[k])
  {
    var ts := Trozos(Minusculas(mensaje), []);
    TrozosSonPalabras(Minusculas(mensaje), []);
    LargosDe(ts);
    Largos(ts)
  }

  lemma {:induction false} TrozosSonPalabras(s: string, actual: string)
    requires forall i :: 0 <= i < |s| ==> !('A' <= s[i] <= 'Z')
    requires actual == [] || EsPalabraMinuscula(actual)
    ensures forall k :: 0 <= k < |Trozos(s, actual)| ==> EsPalabraMinuscula(Trozos(s, actual)[k])
    decreases |s|
  {
    if s != [] {
      if EsCaracterPalabra(s[0]) {
        TrozosSonPalabras(s[1..], actual + [s[0]]);
      } else {
        TrozosSonPalabras(s[1..], []);
      }
    }
  }

  lemma {:induction false} LargosDe(ps: seq<string>)
    requires forall k :: 0 <= k < |ps| ==> EsPalabraMinuscula(ps[k])
    ensures forall k :: 0 <= k < |Largos(ps)| ==> |Largos(ps)[k]| > 2 && EsPalabraMinuscula(Largos(ps)[k])
  {
    if ps != [] {
      LargosDe(ps[1..]);
    }
  }

  /** Words separated by single spaces. */
  function Unir(ws: seq<string>): string {
    if ws == [] then "" else if |ws| == 1 then ws[0] else ws[0] + " " + Unir(ws[1..])
  }

  /** Reading a word extends the current run. */
  lemma {:induction false} TrozosPalabra(w: string, s: string, actual: string)
    requires forall i :: 0 <= i < |w| ==> EsCaracterPalabra(w[i])
    ensures Trozos(w + s, actual) == Trozos(s, actual + w)
    decreases |w|
  {
    if w == [] {
      assert w + s == s && actual + w == actual;
    } else {
      assert (w + s)[0] == w[0];
      assert (w + s)[1..] == w[1..] + s;
      TrozosPalabra(w[1..], s, actual + [w[0]]);
      assert actual + [w[0]] + w[1..] == actual + w;
    }
  }

  /** Splitting undoes joining: the runs of space-joined words are the words. */
  lemma {:induction false} TrozosUnir(ws: seq<string>)
    requires forall k :: 0 <= k < |ws| ==> EsPalabra(ws[k])
    ensures Trozos(Unir(ws), []) == ws
  {
    if |ws| == 1 {
      TrozosPalabra(ws[0], "", []);
      assert ws[0] + "" == ws[0] && [] + ws[0] == ws[0];
    } else if |ws| > 1 {
      var resto := Unir(ws[1..]);
      assert Unir(ws) == ws[0] + (" " + resto);
      TrozosPalabra(ws[0], " " + resto, []);
      assert ([] + ws[0]) == ws[0];
      assert (" " + resto)[1..] == resto;
      TrozosUnir(ws[1..]);
    }
  }

  lemma {:induction false} MinusculasUnir(ws: seq<string>)
    requires forall k :: 0 <= k < |ws| ==> EsPalabraMinuscula(ws[k])
    ensures Minusculas(Unir(ws)) == Unir(ws)
  {
    UnirSinMayusculas(ws);
    MinusculasFija(Unir(ws));
  }

  lemma {:induction false} UnirSinMayusculas(ws: seq<string>)
    requires forall k :: 0 <= k < |ws| ==> EsPalabraMinuscula(ws[k])
    ensures forall i :: 0 <= i < |Unir(ws)| ==>
              !('A' <= Unir(ws)[i] <= 'Z') && (EsCaracterPalabra(Unir(ws)[i]) || Unir(ws)[i] == ' ')
  {
    if |ws| > 1 {
      UnirSinMayusculas(ws[1..]);
      var u := Unir(ws);
      assert u == ws[0] + " " + Unir(ws[1..]);
      forall i | 0 <= i < |u| ensures !('A' <= u[i] <= 'Z') && (EsCaracterPalabra(u[i]) || u[i] == ' ') {
        if i < |ws[0]| {
          assert u[i] == ws[0][i];
        } else if i > |ws[0]| {
          assert u[i] == Unir(ws[1..])[i - |ws[0]| - 1];
        }
      }
    }
  }

  /** Round trip: tokenising lower-case words joined by spaces gives back, in
      order, exactly those words longer than two characters. */
  lemma TokenizarUnir(ws: seq<string>)
    requires forall k :: 0 <= k < |ws| ==> EsPalabraMinuscula(ws[k])
    ensures Tokenizar(Unir(ws)) == Largos(ws)
  {
    MinusculasUnir(ws);
    TrozosUnir(ws);
  }
}
