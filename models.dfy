/**
 * The `Equipo` model: the three-letter prefix derived from the free-text type,
 * the `PFX-nnnnn` serial number assigned on first save, and the warranty and
 * maintenance flags computed against the current date.
 */
module Models {
  import opened Wrappers
  import opened Text

  /** A calendar date as a day number; the current date is always a parameter. */
  type Date = int

  function Min(a: int, b: int): int { if a <= b then a else b }

  // ---------------------------------------------------------------------------
  // Prefix of the serial number (Equipo._generar_prefijo)
  // ---------------------------------------------------------------------------

  /** The characters kept by `re.sub(r'[^a-zA-Z\s]', '', tipo)`. */
  predicate KeptByCleaning(c: char) {
    IsAsciiLetter(c) || IsSpace(c)
  }

  function Clean(tipo: string): (r: string)
    ensures forall c :: c in r ==> c in tipo && KeptByCleaning(c)
  {
    if tipo == [] then []
    else (if KeptByCleaning(tipo[0]) then [tipo[0]] else []) + Clean(tipo[1..])
  }

  lemma {:induction false} CleanKeepsAll(s: string)
    requires forall i :: 0 <= i < |s| ==> KeptByCleaning(s[i])
    ensures Clean(s) == s
  {
    if s != [] { CleanKeepsAll(s[1..]); }
  }

  lemma {:induction false} CleanDropsAll(s: string)
    requires forall i :: 0 <= i < |s| ==> !KeptByCleaning(s[i])
    ensures Clean(s) == []
  {
    if s != [] { CleanDropsAll(s[1..]); }
  }

  lemma {:induction false} CleanConcat(a: string, b: string)
    ensures Clean(a + b) == Clean(a) + Clean(b)
  {
    if a == [] {
      assert a + b == b;
    } else {
      assert (a + b)[0] == a[0] && (a + b)[1..] == a[1..] + b;
      CleanConcat(a[1..], b);
      var h := if KeptByCleaning(a[0]) then [a[0]] else [];
      assert h + (Clean(a[1..]) + Clean(b)) == (h + Clean(a[1..])) + Clean(b);
    }
  }

  /** Every word of a cleaned type is made of ASCII letters only. */
  lemma {:induction false} WordsOfCleanAreLetters(tipo: string)
    ensures forall k, i :: 0 <= k < |Words(Clean(tipo))| && 0 <= i < |Words(Clean(tipo))[k]| ==>
              IsAsciiLetter(Words(Clean(tipo))[k][i])
  {
    var ws := Words(Clean(tipo));
    forall k, i | 0 <= k < |ws| && 0 <= i < |ws[k]| ensures IsAsciiLetter(ws[k][i]) {
      WordCharsIn(Clean(tipo), k, i);
    }
  }

  lemma {:induction false} WordCharsIn(s: string, k: nat, i: nat)
    requires k < |Words(s)| && i < |Words(s)[k]|
    ensures Words(s)[k][i] in s
    decreases |s|
  {
    if IsSpace(s[0]) {
      WordCharsIn(s[1..], k, i);
    } else {
      var n := WordLength(s);
      if k > 0 {
        WordCharsIn(s[n..], k - 1, i);
      }
    }
  }

  /** Upper-cased first letters of the given words. */
  function Initials(palabras: seq<string>): (r: string)
    requires forall k :: 0 <= k < |palabras| ==> palabras[k] != []
    ensures |r| == |palabras|
    ensures forall k :: 0 <= k < |palabras| ==> r[k] == UpperChar(palabras[k][0])
  {
    seq(|palabras|, k requires 0 <= k < |palabras| => UpperChar(palabras[k][0]))
  }

  /** `p.ljust(3, 'X')[:3]`. */
  function Pad3(p: string): (r: string)
    ensures |r| == 3
    ensures forall i :: 0 <= i < 3 ==> r[i] == if i < |p| then p[i] else 'X'
  {
    if |p| >= 3 then p[..3] else p + seq(3 - |p|, _ => 'X')
  }

  /**
   * The choice made at models.py lines 68-79 once the words are known:
   * initials of up to three words, the first three letters of a single long
   * word, or else the first three characters of `respaldo` followed by X's.
   */
  function PrefijoDe(palabras: seq<string>, respaldo: string): (p: string)
    requires forall k :: 0 <= k < |palabras| ==> palabras[k] != []
    ensures |p| == 3
  {
    var prefijo :=
      if |palabras| >= 2 then Initials(palabras[..Min(3, |palabras|)])
      else if |palabras| == 1 && |palabras[0]| >= 3 then Upper(palabras[0][..3])
      else Upper((respaldo + "XXX")[..3]);
    Pad3(prefijo)
  }

  /**
   * The prefix exactly as `_generar_prefijo` computes it: its fallback takes
   * the first three characters of the cleaned text, whitespace included.
   */
  function PrefijoAsWritten(tipo: string): (p: string)
    ensures |p| == 3
    ensures forall i :: 0 <= i < 3 ==> IsAsciiUpper(p[i]) || IsSpace(p[i])
  {
    var limpio := Clean(tipo);
    WordsOfCleanAreLetters(tipo);
    var respaldo := limpio[..Min(3, |limpio|)];
    assert forall i :: 0 <= i < |respaldo| ==> KeptByCleaning(respaldo[i]) by {
      forall i | 0 <= i < |respaldo| ensures KeptByCleaning(respaldo[i]) {
        assert respaldo[i] == limpio[i] && limpio[i] in limpio;
      }
    }
    PrefijoDeChars(Words(limpio), respaldo);
    PrefijoDe(Words(limpio), respaldo)
  }

  /** Letter words and a fallback of letters and whitespace give a prefix of capitals and whitespace. */
  lemma PrefijoDeChars(palabras: seq<string>, respaldo: string)
    requires forall k :: 0 <= k < |palabras| ==> palabras[k] != []
    requires forall k, i :: 0 <= k < |palabras| && 0 <= i < |palabras[k]| ==> IsAsciiLetter(palabras[k][i])
    requires forall i :: 0 <= i < |respaldo| ==> KeptByCleaning(respaldo[i])
    ensures forall i :: 0 <= i < 3 ==> IsAsciiUpper(PrefijoDe(palabras, respaldo)[i]) || IsSpace(PrefijoDe(palabras, respaldo)[i])
  {
    var prefijo :=
      if |palabras| >= 2 then Initials(palabras[..Min(3, |palabras|)])
      else if |palabras| == 1 && |palabras[0]| >= 3 then Upper(palabras[0][..3])
      else Upper((respaldo + "XXX")[..3]);
    assert forall i :: 0 <= i < |prefijo| ==> IsAsciiUpper(prefijo[i]) || IsSpace(prefijo[i]) by {
      if |palabras| >= 2 {
        var ws := palabras[..Min(3, |palabras|)];
        forall i | 0 <= i < |prefijo| ensures IsAsciiUpper(prefijo[i]) {
          assert prefijo[i] == UpperChar(ws[i][0]) && IsAsciiLetter(ws[i][0]);
        }
      } else if |palabras| == 1 && |palabras[0]| >= 3 {
        forall i | 0 <= i < 3 ensures IsAsciiUpper(prefijo[i]) {
          assert prefijo[i] == UpperChar(palabras[0][i]) && IsAsciiLetter(palabras[0][i]);
        }
      } else {
        var t := (respaldo + "XXX")[..3];
        forall i | 0 <= i < 3 ensures IsAsciiUpper(prefijo[i]) || IsSpace(prefijo[i]) {
          assert prefijo[i] == UpperChar(t[i]);
          if i < |respaldo| { assert t[i] == respaldo[i]; } else { assert t[i] == 'X'; }
        }
      }
    }
    assert PrefijoDe(palabras, respaldo) == Pad3(prefijo);
  }

  /**
   * The prefix with the fallback taking its characters from the single short
   * word (or from nothing), so that the prefix is always three letters.
   */
  function Prefijo(tipo: string): (p: string)
    ensures |p| == 3
    ensures forall i :: 0 <= i < 3 ==> IsAsciiUpper(p[i])
  {
    var palabras := Words(Clean(tipo));
    WordsOfCleanAreLetters(tipo);
    PrefijoDe(palabras, if |palabras| == 1 then palabras[0] else "")
  }

  /** Two or more words: the initials of the first three (at most), then X's. */
  lemma {:induction false} PrefijoVariasPalabras(tipo: string)
    requires |Words(Clean(tipo))| >= 2
    ensures var ws := Words(Clean(tipo));
      && (forall k :: 0 <= k < Min(3, |ws|) ==> Prefijo(tipo)[k] == UpperChar(ws[k][0]))
      && (|ws| == 2 ==> Prefijo(tipo)[2] == 'X')
      && PrefijoAsWritten(tipo) == Prefijo(tipo)
  {
  }

  /** One word of three letters or more: its first three letters, upper-cased. */
  lemma {:induction false} PrefijoPalabraLarga(tipo: string)
    requires |Words(Clean(tipo))| == 1 && |Words(Clean(tipo))[0]| >= 3
    ensures Prefijo(tipo) == Upper(Words(Clean(tipo))[0][..3])
    ensures PrefijoAsWritten(tipo) == Prefijo(tipo)
  {
  }

  /** No word, or one short word: that word upper-cased and padded with X's. */
  lemma {:induction false} PrefijoRespaldo(tipo: string)
    requires |Words(Clean(tipo))| == 0 || (|Words(Clean(tipo))| == 1 && |Words(Clean(tipo))[0]| < 3)
    ensures var ws := Words(Clean(tipo));
      Prefijo(tipo) == Pad3(if ws == [] then "" else Upper(ws[0]))
  {
    var ws := Words(Clean(tipo));
    WordsOfCleanAreLetters(tipo);
    var r := if ws == [] then "" else ws[0];
    var t := (r + "XXX")[..3];
    assert Prefijo(tipo) == Pad3(Upper(t));
    UpperFallback(r);
    assert Pad3(Upper(t)) == Upper(t);
  }

  /** Padding a short fallback with `"XXX"` before upper-casing is `Pad3` after it. */
  lemma UpperFallback(r: string)
    requires |r| < 3
    ensures Upper((r + "XXX")[..3]) == Pad3(Upper(r))
  {
    var t, u := (r + "XXX")[..3], Pad3(Upper(r));
    forall i | 0 <= i < 3 ensures Upper(t)[i] == u[i] {
      if i < |r| { assert t[i] == r[i]; } else { assert t[i] == 'X'; }
    }
  }

  /**
   * The two prefix rules differ only in the fallback, and only when the
   * cleaned text holds whitespace: without it they always agree.
   */
  lemma {:induction false} PrefijoAgreesWithoutWhitespace(tipo: string)
    requires NoSpace(Clean(tipo))
    ensures PrefijoAsWritten(tipo) == Prefijo(tipo)
  {
    var limpio := Clean(tipo);
    if limpio != [] {
      WordsOfWord(limpio, "");
      assert limpio + "" == limpio;
    }
  }

  predicate AllLetters(w: string) {
    forall i :: 0 <= i < |w| ==> IsAsciiLetter(w[i])
  }

  /** A type made only of letters is its own single word. */
  lemma {:induction false} WordsOfLetters(tipo: string)
    requires tipo != [] && AllLetters(tipo)
    ensures Clean(tipo) == tipo && Words(Clean(tipo)) == [tipo]
  {
    CleanKeepsAll(tipo);
    WordsOfWord(tipo, "");
    assert tipo + "" == tipo;
  }

  /** Two words of letters separated by a space are kept by cleaning and split apart. */
  lemma {:induction false} WordsOfTwoWords(a: string, b: string)
    requires a != [] && b != [] && AllLetters(a) && AllLetters(b)
    ensures Clean(a + " " + b) == a + " " + b
    ensures Words(Clean(a + " " + b)) == [a, b]
  {
    var t := a + (" " + b);
    assert t == a + " " + b;
    assert forall i :: 0 <= i < |t| ==> KeptByCleaning(t[i]);
    CleanKeepsAll(t);
    WordsOfWord(a, " " + b);
    assert (" " + b)[1..] == b;
    assert Words(" " + b) == Words(b);
    WordsOfLetters(b);
  }

  lemma {:induction false} PrefijoOfTwoWords(tipo: string, a: string, b: string)
    requires a != [] && b != []
    requires Words(Clean(tipo)) == [a, b]
    ensures Prefijo(tipo) == [UpperChar(a[0]), UpperChar(b[0]), 'X']
  {
    var ws := Words(Clean(tipo));
    assert ws[..Min(3, |ws|)] == ws;
    assert Initials(ws) == [UpperChar(a[0]), UpperChar(b[0])];
  }

  /** `"12 TV"` cleans to `" TV"`, and the source's fallback keeps the leading space: `" TV"`. */
  lemma {:induction false} PrefijoFallbackKeepsWhitespace(tipo: string)
    requires tipo == "12 TV"
    ensures PrefijoAsWritten(tipo) == " TV"
  {
    DoceTV(tipo);
    PrefijoAsWrittenRespaldo(tipo);
    assert Upper((" TV"[..3] + "XXX")[..3]) == " TV" by {
      assert (" TV"[..3] + "XXX")[..3] == " TV";
    }
  }

  /** The corrected rule gives `"12 TV"` the letters of its one short word: `"TVX"`. */
  lemma {:induction false} PrefijoFallbackCorrected(tipo: string)
    requires tipo == "12 TV"
    ensures Prefijo(tipo) == "TVX"
  {
    DoceTV(tipo);
    PrefijoRespaldo(tipo);
    PadTV("TV");
  }

  lemma PadTV(w: string)
    requires w == "TV"
    ensures Pad3(Upper(w)) == "TVX"
  {
    assert Upper(w) == "TV";
  }

  /** The cleaning and the words of `"12 TV"`. */
  lemma DoceTV(tipo: string)
    requires |tipo| == 5 && tipo[0] == '1' && tipo[1] == '2' && tipo[2] == ' ' && tipo[3] == 'T' && tipo[4] == 'V'
    ensures Clean(tipo) == " TV" && Words(Clean(tipo)) == ["TV"]
  {
    var mid, rest := tipo[..2], tipo[2..];
    assert tipo == [] + mid + rest;
    assert forall i :: 0 <= i < |mid| ==> !KeptByCleaning(mid[i]);
    assert forall i :: 0 <= i < |rest| ==> KeptByCleaning(rest[i]);
    CleanDrops([], mid, rest);
    EspacioTV(rest);
  }

  /** " TV" is the one word "TV". */
  lemma EspacioTV(rest: string)
    requires |rest| == 3 && rest[0] == ' ' && rest[1] == 'T' && rest[2] == 'V'
    ensures rest == " TV" && Words(rest) == ["TV"]
  {
    var word := rest[1..];
    assert word == "TV";
    WordsOfLetters(word);
  }

  /** Without a usable word, the prefix as written is the cleaned text's first three characters, upper-cased and padded. */
  lemma PrefijoAsWrittenRespaldo(tipo: string)
    requires |Words(Clean(tipo))| == 0 || (|Words(Clean(tipo))| == 1 && |Words(Clean(tipo))[0]| < 3)
    ensures var l := Clean(tipo);
      PrefijoAsWritten(tipo) == Upper((l[..Min(3, |l|)] + "XXX")[..3])
  {
    var l := Clean(tipo);
    var t := (l[..Min(3, |l|)] + "XXX")[..3];
    assert PrefijoAsWritten(tipo) == Pad3(Upper(t));
    assert Pad3(Upper(t)) == Upper(t);
  }

  /** Cleaning removes a run of dropped characters between two kept runs. */
  lemma {:induction false} CleanDrops(a: string, mid: string, b: string)
    requires forall i :: 0 <= i < |a| ==> KeptByCleaning(a[i])
    requires forall i :: 0 <= i < |mid| ==> !KeptByCleaning(mid[i])
    requires forall i :: 0 <= i < |b| ==> KeptByCleaning(b[i])
    ensures Clean(a + mid + b) == a + b
  {
    CleanConcat(a, mid + b);
    assert a + mid + b == a + (mid + b);
    CleanConcat(mid, b);
    CleanKeepsAll(a);
    CleanKeepsAll(b);
    CleanDropsAll(mid);
    assert Clean(mid + b) == b;
  }

  /** "Aire Acondicionado" gives "AAX". */
  lemma {:induction false} PrefijoEjemploDosPalabras(tipo: string)
    requires tipo == "Aire Acondicionado"
    ensures Prefijo(tipo) == "AAX"
  {
    var a, b := tipo[..4], tipo[5..];
    assert AllLetters(a) && AllLetters(b);
    assert tipo == a + " " + b;
    WordsOfTwoWords(a, b);
    PrefijoOfTwoWords(tipo, a, b);
    assert a[0] == 'A' && b[0] == 'A';
  }

  /** One word of three letters or more gives its first three letters upper-cased. */
  lemma {:induction false} PrefijoOfLongWord(tipo: string)
    requires |tipo| >= 3 && AllLetters(tipo)
    ensures Prefijo(tipo) == Upper(tipo[..3])
  {
    WordsOfLetters(tipo);
  }

  /** A type that cleans to one word of three letters or more gives that word's first three. */
  lemma {:induction false} PrefijoOfCleanWord(tipo: string, w: string)
    requires Clean(tipo) == w && |w| >= 3 && AllLetters(w)
    ensures Prefijo(tipo) == Upper(w[..3])
  {
    WordsOfLetters(w);
  }

  /** One word of fewer than three letters is padded with X's. */
  lemma {:induction false} PrefijoOfShortWord(tipo: string)
    requires |tipo| < 3 && AllLetters(tipo)
    ensures Prefijo(tipo) == Upper(tipo) + seq(3 - |tipo|, _ => 'X')
  {
    if tipo != [] {
      WordsOfLetters(tipo);
    }
    assert (tipo + "XXX")[..3] == tipo + seq(3 - |tipo|, _ => 'X');
  }

  /** "Servidor" gives "SER". */
  lemma {:induction false} PrefijoEjemploServidor(tipo: string)
    requires tipo == "Servidor"
    ensures Prefijo(tipo) == "SER"
  {
    assert |tipo| >= 3 && AllLetters(tipo);
    PrefijoOfLongWord(tipo);
    assert Upper(tipo[..3]) == "SER";
  }

  /** "TV" gives "TVX" and the empty type gives "XXX". */
  lemma {:induction false} PrefijoEjemplosCortos(tv: string, vacio: string)
    requires tv == "TV" && vacio == ""
    ensures Prefijo(tv) == "TVX" && Prefijo(vacio) == "XXX"
  {
    assert |tv| < 3 && AllLetters(tv);
    PrefijoOfShortWord(tv);
    assert Upper(tv) + seq(1, _ => 'X') == "TVX";
    PrefijoOfShortWord(vacio);
    assert Upper(vacio) + seq(3, _ => 'X') == "XXX";
  }

  /** Cleaning "Cámara" drops the accented "á". */
  lemma {:induction false} CleanDropsAccent(tipo: string)
    requires tipo == "C\U{E1}mara"
    ensures Clean(tipo) == "C" + "mara"
  {
    var a, o, n := "C", "\U{E1}", "mara";
    assert KeptByCleaning(a[0]) && !KeptByCleaning(o[0]);
    assert forall i :: 0 <= i < |n| ==> KeptByCleaning(n[i]);
    assert tipo == a + o + n;
    CleanDrops(a, o, n);
  }

  /**
   * "Cámara" gives "CMA": the accented letter is dropped before the first
   * three letters are taken.
   */
  lemma {:induction false} PrefijoEjemploAcento(tipo: string)
    requires tipo == "C\U{E1}mara"
    ensures Prefijo(tipo) == "CMA"
  {
    var w := "C" + "mara";
    CleanDropsAccent(tipo);
    assert AllLetters(w) && |w| >= 3;
    PrefijoOfCleanWord(tipo, w);
    assert w[..3] == "Cma";
    assert Upper("Cma") == "CMA";
  }

  // ---------------------------------------------------------------------------
  // Decimal digits, `int(...)` and `f"{num:05d}"`
  // ---------------------------------------------------------------------------

  predicate AllDigits(s: string) {
    forall i :: 0 <= i < |s| ==> IsDigit(s[i])
  }

  function DigitValue(c: char): nat
    requires IsDigit(c)
  {
    c as int - '0' as int
  }

  function DigitChar(d: nat): (c: char)
    requires d < 10
    ensures IsDigit(c) && DigitValue(c) == d
  {
    ('0' as int + d) as char
  }

  function Pow10(k: nat): (p: nat)
    ensures p >= 1
  {
    if k == 0 then 1 else 10 * Pow10(k - 1)
  }

  /** The value of a string of decimal digits; leading zeros are allowed. */
  function DigitsValue(s: string): nat
    requires AllDigits(s)
  {
    if s == [] then 0 else DigitsValue(s[..|s| - 1]) * 10 + DigitValue(s[|s| - 1])
  }

  /** The decimal digits of `n`, without leading zeros: they read back as `n`. */
  function Digits(n: nat): (s: string)
    ensures s != [] && AllDigits(s)
    ensures DigitsValue(s) == n
  {
    if n < 10 then [DigitChar(n)]
    else
      var high := Digits(n / 10);
      var s := high + [DigitChar(n % 10)];
      assert s[..|s| - 1] == high;
      s
  }

  function Zeros(k: nat): (z: string)
    ensures |z| == k && AllDigits(z)
  {
    seq(k, _ => '0')
  }

  /** `f"{num:05d}"` for a natural number: its digits, left-padded with zeros to width 5. */
  function ZeroPad5(n: nat): (s: string)
    ensures |s| >= 5 && AllDigits(s)
    ensures DigitsValue(s) == n
  {
    var d := Digits(n);
    if |d| >= 5 then d
    else
      DigitsValueConcat(Zeros(5 - |d|), d);
      ZerosValue(5 - |d|);
      Zeros(5 - |d|) + d
  }

  lemma {:induction false} ZerosValue(k: nat)
    ensures DigitsValue(Zeros(k)) == 0
  {
    if k > 0 {
      assert Zeros(k)[..k - 1] == Zeros(k - 1);
      ZerosValue(k - 1);
    }
  }

  lemma {:induction false} DigitsValueConcat(a: string, b: string)
    requires AllDigits(a) && AllDigits(b)
    ensures AllDigits(a + b)
    ensures DigitsValue(a + b) == DigitsValue(a) * Pow10(|b|) + DigitsValue(b)
    decreases |b|
  {
    if b == [] {
      assert a + b == a;
    } else {
      var b' := b[..|b| - 1];
      assert (a + b)[..|a + b| - 1] == a + b';
      DigitsValueConcat(a, b');
      ShiftDigit(DigitsValue(a), Pow10(|b'|), DigitsValue(b'), DigitValue(b[|b| - 1]));
    }
  }

  lemma ShiftDigit(va: nat, p: nat, vb: nat, d: nat)
    ensures (va * p + vb) * 10 + d == va * (10 * p) + (vb * 10 + d)
  {
  }

  lemma {:induction false} DigitsValueBound(s: string)
    requires AllDigits(s)
    ensures DigitsValue(s) < Pow10(|s|)
  {
    if s != [] {
      DigitsValueBound(s[..|s| - 1]);
    }
  }

  /** Reading a digit string from the front: the leading digit weighs `10^(|s|-1)`. */
  lemma {:induction false} DigitsValueFront(s: string)
    requires AllDigits(s) && s != []
    ensures DigitsValue(s) == DigitValue(s[0]) * Pow10(|s| - 1) + DigitsValue(s[1..])
  {
    assert s == s[..1] + s[1..];
    DigitsValueConcat(s[..1], s[1..]);
    assert DigitsValue(s[..1]) == DigitValue(s[0]) by {
      assert s[..1][..0] == [];
    }
  }

  /** Decimal digits with single underscores between them, as `int()` reads them: `1_000`. */
  predicate DecimalLiteral(t: string) {
    && t != [] && IsDigit(t[0]) && IsDigit(t[|t| - 1])
    && (forall i :: 0 <= i < |t| ==> IsDigit(t[i]) || t[i] == '_')
    && (forall i :: 0 <= i < |t| - 1 && t[i] == '_' ==> t[i + 1] != '_')
  }

  /** The digits of a literal, underscores dropped. */
  function LiteralDigits(t: string): (d: string)
    requires DecimalLiteral(t)
    ensures d != [] && AllDigits(d)
    ensures AllDigits(t) ==> d == t
  {
    var d := Remove(t, '_');
    RemoveFrom(t, '_');
    assert t[0] in multiset(t);
    assert t[0] in multiset(d);
    assert AllDigits(d) by {
      forall i | 0 <= i < |d| ensures IsDigit(d[i]) {
        assert d[i] in t;
        var j :| 0 <= j < |t| && t[j] == d[i];
      }
    }
    d
  }

  /**
   * Python's `int(s)` on ASCII text: optional surrounding whitespace, an
   * optional sign, then decimal digits that single underscores may separate.
   */
  function ParseInt(s: string): (r: Option<int>)
    ensures '-' !in s && r.Some? ==> r.value >= 0
    ensures r.Some? ==> Strip(s) != [] && (DecimalLiteral(Strip(s)) || DecimalLiteral(Strip(s)[1..]))
  {
    var t := Strip(s);
    if |t| >= 2 && (t[0] == '+' || t[0] == '-') && DecimalLiteral(t[1..]) then
      var v: int := DigitsValue(LiteralDigits(t[1..]));
      Some(if t[0] == '-' then -v else v)
    else if DecimalLiteral(t) then
      Some(DigitsValue(LiteralDigits(t)))
    else
      None
  }

  /** A non-empty run of digits parses as its own value. */
  lemma {:induction false} ParseIntOfDigits(s: string)
    requires s != [] && AllDigits(s)
    ensures ParseInt(s) == Some(DigitsValue(s))
  {
    assert !IsSpace(s[0]) && !IsSpace(s[|s| - 1]);
    assert StripStart(s) == s;
    assert StripEnd(s) == s;
    assert !IsDigit('+') && !IsDigit('-');
  }

  /** `int("1_000")` is 1000: the underscores only separate digits. */
  lemma ParseIntUnderscore(s: string)
    requires |s| == 5 && s[0] == '1' && s[1] == '_' && s[2] == '0' && s[3] == '0' && s[4] == '0'
    ensures ParseInt(s) == Some(1000)
  {
    assert DecimalLiteral(s);
    assert !IsSpace(s[0]) && !IsSpace(s[4]);
    ParseIntOfLiteral(s);
    SinSeparador(s);
    MilDigitos(s);
    MilValue("1000");
  }

  /** Unsigned text without surrounding whitespace parses as the value of its digits. */
  lemma ParseIntOfLiteral(t: string)
    requires DecimalLiteral(t) && !IsSpace(t[0]) && !IsSpace(t[|t| - 1])
    ensures ParseInt(t) == Some(DigitsValue(LiteralDigits(t)))
  {
    assert StripStart(t) == t;
    assert StripEnd(t) == t;
    assert !IsDigit('+') && !IsDigit('-');
  }

  lemma MilDigitos(s: string)
    requires |s| == 5 && s[0] == '1' && s[2] == '0' && s[3] == '0' && s[4] == '0'
    ensures [s[0]] + s[2..] == "1000"
  {
  }

  /** Dropping the one underscore of `1_000`. */
  lemma SinSeparador(s: string)
    requires |s| == 5 && s[0] == '1' && s[1] == '_' && s[2] == '0' && s[3] == '0' && s[4] == '0'
    ensures Remove(s, '_') == [s[0]] + s[2..]
  {
    var t, b := s[1..], s[2..];
    assert t[0] == '_' && t[1..] == b;
    SinGuionBajo(b);
    RemoveCons(t, '_');
    assert Remove(t, '_') == b;
    RemoveCons(s, '_');
  }

  lemma SinGuionBajo(b: string)
    requires |b| == 3 && b[0] == '0' && b[1] == '0' && b[2] == '0'
    ensures Remove(b, '_') == b
  {
    assert '_' !in b;
  }

  lemma RemoveCons(s: string, c: char)
    requires s != []
    ensures Remove(s, c) == (if s[0] == c then [] else [s[0]]) + Remove(s[1..], c)
  {
  }

  lemma MilValue(m: string)
    requires m == "1000"
    ensures AllDigits(m) && DigitsValue(m) == 1000
  {
    var a, b, c := m[..3], m[..2], m[..1];
    assert c[..0] == [] && DigitsValue(c) == 1;
    assert b[..1] == c && DigitsValue(b) == 10;
    assert a[..2] == b && DigitsValue(a) == 100;
  }

  /** The text up to (not including) the first '-'. */
  function UntilDash(s: string): (r: string)
    ensures '-' !in r
    ensures |r| <= |s| && r == s[..|r|]
  {
    if s == [] || s[0] == '-' then [] else [s[0]] + UntilDash(s[1..])
  }

  /** `s.split('-')[1]`: the text between the first and the second '-'; None (IndexError) without a '-'. */
  function DashField(s: string): (r: Option<string>)
    ensures r.Some? ==> '-' !in r.value
    ensures r.Some? <==> '-' in s
  {
    if s == [] then None
    else if s[0] == '-' then Some(UntilDash(s[1..]))
    else DashField(s[1..])
  }

  /** `int(s.split('-')[1])`, or None where Python raises IndexError or ValueError. */
  function FieldNumber(s: string): (r: Option<nat>)
    ensures r.Some? ==> '-' in s
  {
    match DashField(s)
    case None => None
    case Some(f) =>
      match ParseInt(f)
      case None => None
      case Some(n) => Some(n)
  }

  lemma {:induction false} UntilDashOfDigits(s: string)
    requires AllDigits(s)
    ensures UntilDash(s) == s
  {
    if s != [] {
      UntilDashOfDigits(s[1..]);
    }
  }

  lemma {:induction false} DashFieldAfter(p: string, rest: string)
    requires '-' !in p
    ensures DashField(p + "-" + rest) == Some(UntilDash(rest))
  {
    if p == [] {
      assert p + "-" + rest == "-" + rest;
      assert ("-" + rest)[1..] == rest;
    } else {
      assert (p + "-" + rest)[1..] == p[1..] + "-" + rest;
      DashFieldAfter(p[1..], rest);
    }
  }

  /** A serial `prefijo-digits` yields the value of its digits. */
  lemma {:induction false} FieldNumberOfDigits(prefijo: string, digits: string)
    requires '-' !in prefijo
    requires digits != [] && AllDigits(digits)
    ensures FieldNumber(prefijo + "-" + digits) == Some(DigitsValue(digits))
  {
    DashFieldAfter(prefijo, digits);
    UntilDashOfDigits(digits);
    ParseIntOfDigits(digits);
  }

  // ---------------------------------------------------------------------------
  // Serial numbers (Equipo.save)
  // ---------------------------------------------------------------------------

  /** `f"{prefijo}-{num:05d}"`. */
  function FormatSerial(prefijo: string, num: nat): string {
    prefijo + "-" + ZeroPad5(num)
  }

  /** Round trip: the number written into a serial is the number read back from it. */
  lemma {:induction false} FormatSerialRoundTrip(prefijo: string, num: nat)
    requires '-' !in prefijo
    ensures IsPrefix(prefijo + "-", FormatSerial(prefijo, num))
    ensures FieldNumber(FormatSerial(prefijo, num)) == Some(num)
  {
    FieldNumberOfDigits(prefijo, ZeroPad5(num));
  }

  /** `Equipo.objects.filter(numero_serie__startswith=prefijo + '-')`, in store order. */
  function Candidates(serials: seq<string>, prefijo: string): (c: seq<string>)
    ensures forall s :: s in c <==> s in serials && IsPrefix(prefijo + "-", s)
  {
    if serials == [] then []
    else (if IsPrefix(prefijo + "-", serials[0]) then [serials[0]] else []) + Candidates(serials[1..], prefijo)
  }

  lemma {:induction false} LexLeRefl(a: string)
    ensures LexLe(a, a)
    decreases |a|
  {
    if a != [] { LexLeRefl(a[1..]); }
  }

  lemma {:induction false} LexLeTotal(a: string, b: string)
    ensures LexLe(a, b) || LexLe(b, a)
    decreases |a|
  {
    if a != [] && b != [] && a[0] == b[0] { LexLeTotal(a[1..], b[1..]); }
  }

  lemma {:induction false} LexLeTrans(a: string, b: string, c: string)
    requires LexLe(a, b) && LexLe(b, c)
    ensures LexLe(a, c)
    decreases |a|
  {
    if a != [] && b != [] && c != [] && a[0] == b[0] == c[0] { LexLeTrans(a[1..], b[1..], c[1..]); }
  }

  lemma MaxLexStep(x: string, m: string, rest: seq<string>)
    requires forall y :: y in rest ==> LexLe(y, m)
    requires !LexLe(x, m)
    ensures forall y :: y in [x] + rest ==> LexLe(y, x)
  {
    LexLeTotal(x, m);
    LexLeRefl(x);
    forall y | y in rest ensures LexLe(y, x) { LexLeTrans(y, m, x); }
  }

  /** `Max('numero_serie')`: the lexicographically greatest string. */
  function MaxLex(xs: seq<string>): (m: string)
    requires xs != []
    ensures m in xs
    ensures forall x :: x in xs ==> LexLe(x, m)
  {
    if |xs| == 1 then LexLeRefl(xs[0]); xs[0]
    else
      var m := MaxLex(xs[1..]);
      assert xs == [xs[0]] + xs[1..];
      if LexLe(xs[0], m) then m
      else MaxLexStep(xs[0], m, xs[1..]); xs[0]
  }

  /**
   * The number `save` gives the next serial of a prefix, as written: one more
   * than the number in the lexicographically greatest serial `prefijo-...`,
   * and 1 when there is none or its number does not parse.
   */
  function NextNumberAsWritten(serials: seq<string>, prefijo: string): (n: nat)
    ensures n >= 1
  {
    var c := Candidates(serials, prefijo);
    if c == [] then 1
    else
      match FieldNumber(MaxLex(c))
      case None => 1
      case Some(k) => k + 1
  }

  /** The greatest number among the serials that parse; 0 when none does. */
  function MaxFieldNumber(c: seq<string>): (m: nat)
    ensures forall s :: s in c && FieldNumber(s).Some? ==> FieldNumber(s).value <= m
    ensures m == 0 || exists s :: s in c && FieldNumber(s) == Some(m)
  {
    if c == [] then 0
    else
      var rest := MaxFieldNumber(c[1..]);
      assert c == [c[0]] + c[1..];
      match FieldNumber(c[0])
      case None => rest
      case Some(k) => if k > rest then k else rest
  }

  /**
   * The number of the next serial with the greatest number taken numerically:
   * one more than every number already used under this prefix, and exactly
   * one more than one of them (or 1 when none is used).
   */
  function NextNumber(serials: seq<string>, prefijo: string): (n: nat)
    ensures n >= 1
    ensures forall s :: s in serials && IsPrefix(prefijo + "-", s) && FieldNumber(s).Some? ==>
              FieldNumber(s).value < n
    ensures n == 1 || exists s :: s in serials && IsPrefix(prefijo + "-", s) && FieldNumber(s).Some? && FieldNumber(s).value == n - 1
  {
    var n := MaxFieldNumber(Candidates(serials, prefijo)) + 1;
    MaxCandidateUsed(serials, prefijo, n);
    n
  }

  /** The greatest number among the candidates is the number of a stored serial of the prefix. */
  lemma MaxCandidateUsed(serials: seq<string>, prefijo: string, n: nat)
    requires n == MaxFieldNumber(Candidates(serials, prefijo)) + 1
    ensures n == 1 || exists s :: s in serials && IsPrefix(prefijo + "-", s) && FieldNumber(s).Some? && FieldNumber(s).value == n - 1
  {
    var c := Candidates(serials, prefijo);
    var m := MaxFieldNumber(c);
    if m != 0 {
      var s :| s in c && FieldNumber(s) == Some(m);
      assert s in serials && IsPrefix(prefijo + "-", s) && FieldNumber(s).value == n - 1;
    }
  }

  /**
   * The corrected serial for an equipo of type `tipo` whose serial is empty:
   * `PFX-nnnnn` with the corrected prefix and the numeric maximum, never one
   * already stored.
   */
  function NextSerial(serials: seq<string>, tipo: string): (s: string)
    ensures |s| >= 9 && s[..3] == Prefijo(tipo) && s[3] == '-' && AllDigits(s[4..])
    ensures FieldNumber(s) == Some(NextNumber(serials, Prefijo(tipo)))
    ensures s !in serials
  {
    var prefijo := Prefijo(tipo);
    assert '-' !in prefijo by {
      assert forall i :: 0 <= i < |prefijo| ==> prefijo[i] != '-';
    }
    var n := NextNumber(serials, prefijo);
    FormatSerialShape(prefijo, n);
    FormatSerial(prefijo, n)
  }

  /** A serial of a three-character prefix: `PFX-` and at least five digits that read back as the number. */
  lemma FormatSerialShape(prefijo: string, n: nat)
    requires |prefijo| == 3 && '-' !in prefijo
    ensures var s := FormatSerial(prefijo, n);
            |s| >= 9 && s[..3] == prefijo && s[3] == '-' && AllDigits(s[4..]) &&
            IsPrefix(prefijo + "-", s) && FieldNumber(s) == Some(n)
  {
    FormatSerialRoundTrip(prefijo, n);
    FormatSerialLayout(prefijo, ZeroPad5(n));
  }

  /** The positions of a three-character prefix, the dash and the digits in `prefijo + "-" + z`. */
  lemma FormatSerialLayout(prefijo: string, z: string)
    requires |prefijo| == 3 && |z| >= 5
    ensures var s := prefijo + "-" + z;
            |s| >= 9 && s[..3] == prefijo && s[3] == '-' && s[4..] == z
  {
    var s := prefijo + "-" + z;
    assert s[..3] == prefijo;
    assert s[4..] == z;
  }

  /**
   * The serial `save` assigns as written: the prefix of `_generar_prefijo`,
   * whose fallback may keep whitespace, and one more than the number of the
   * lexicographically greatest serial of that prefix. Unlike `NextSerial` it
   * can already be stored (`SerialAsWrittenHeld`); the two agree while the
   * cleaned type has no whitespace and every serial of the prefix has five
   * digits (`SerialAsWrittenIsNextSerial`).
   */
  function SerialAsWritten(serials: seq<string>, tipo: string): (s: string)
    ensures |s| >= 9 && s[..3] == PrefijoAsWritten(tipo) && s[3] == '-' && AllDigits(s[4..])
    ensures FieldNumber(s) == Some(NextNumberAsWritten(serials, PrefijoAsWritten(tipo)))
  {
    var prefijo := PrefijoAsWritten(tipo);
    assert '-' !in prefijo by {
      assert forall i :: 0 <= i < |prefijo| ==> prefijo[i] != '-';
    }
    var n := NextNumberAsWritten(serials, prefijo);
    FormatSerialShape(prefijo, n);
    FormatSerial(prefijo, n)
  }

  /**
   * While the cleaned type has no whitespace and every stored serial of its
   * prefix is five digits long, the serial of the code is the corrected one,
   * so it is free.
   */
  lemma SerialAsWrittenIsNextSerial(serials: seq<string>, tipo: string)
    requires NoSpace(Clean(tipo)) && FiveDigitSerials(serials, Prefijo(tipo))
    ensures SerialAsWritten(serials, tipo) == NextSerial(serials, tipo)
    ensures SerialAsWritten(serials, tipo) !in serials
  {
    PrefijoAgreesWithoutWhitespace(tipo);
    var p := Prefijo(tipo);
    assert '-' !in p by {
      assert forall i :: 0 <= i < |p| ==> p[i] != '-';
    }
    NextNumberAgreesOnFiveDigits(serials, p);
  }

  /**
   * After `ABC-99999` and `ABC-100000`, the code gives an equipo of type
   * `"Abc"` the serial `ABC-100000` again, which the unique column refuses.
   */
  lemma SerialAsWrittenHeld(serials: seq<string>, tipo: string)
    requires serials == ["ABC-99999", "ABC-100000"]
    requires |tipo| == 3 && tipo[0] == 'A' && tipo[1] == 'b' && tipo[2] == 'c'
    ensures SerialAsWritten(serials, tipo) == serials[1]
    ensures SerialAsWritten(serials, tipo) in serials && NextSerial(serials, tipo) !in serials
  {
    PrefijoAbc(tipo);
    NextNumberAsWrittenRepeats(serials);
    assert SerialAsWritten(serials, tipo) == FormatSerial("ABC", NextNumberAsWritten(serials, "ABC"));
  }

  /** Both prefix rules give `"Abc"` the prefix `ABC`. */
  lemma PrefijoAbc(tipo: string)
    requires |tipo| == 3 && tipo[0] == 'A' && tipo[1] == 'b' && tipo[2] == 'c'
    ensures PrefijoAsWritten(tipo) == "ABC"
  {
    LetrasAbc(tipo);
    PrefijoAgreesWithoutWhitespace(tipo);
    PrefijoOfLongWord(tipo);
    UpperAbc(tipo);
  }

  lemma LetrasAbc(tipo: string)
    requires |tipo| == 3 && tipo[0] == 'A' && tipo[1] == 'b' && tipo[2] == 'c'
    ensures |tipo| >= 3 && AllLetters(tipo) && NoSpace(Clean(tipo))
  {
    assert forall i :: 0 <= i < |tipo| ==> IsAsciiLetter(tipo[i]) && !IsSpace(tipo[i]);
    CleanKeepsAll(tipo);
  }

  lemma UpperAbc(tipo: string)
    requires |tipo| == 3 && tipo[0] == 'A' && tipo[1] == 'b' && tipo[2] == 'c'
    ensures Upper(tipo[..3]) == "ABC"
  {
    var u := Upper(tipo[..3]);
    assert u[0] == 'A' && u[1] == 'B' && u[2] == 'C';
  }

  /** Digits and DigitsValue are inverse on strings without a leading zero. */
  lemma {:induction false} DigitsOfValue(s: string)
    requires s != [] && AllDigits(s) && (s[0] != '0' || |s| == 1)
    ensures Digits(DigitsValue(s)) == s
  {
    if |s| == 1 {
      SingleDigit(s);
    } else {
      var init := s[..|s| - 1];
      assert init[0] == s[0];
      LeadingDigitPositive(init);
      DigitsOfValue(init);
      LastDigit(s);
      assert s == init + [s[|s| - 1]];
    }
  }

  lemma SingleDigit(s: string)
    requires |s| == 1 && AllDigits(s)
    ensures Digits(DigitsValue(s)) == s
  {
    assert s[..0] == [];
    assert DigitChar(DigitValue(s[0])) == s[0];
  }

  /** A digit string that does not start with '0' has a positive value. */
  lemma {:induction false} LeadingDigitPositive(s: string)
    requires s != [] && AllDigits(s) && s[0] != '0'
    ensures DigitsValue(s) >= 1
  {
    var init := s[..|s| - 1];
    if init == [] {
      assert s[|s| - 1] == s[0];
    } else {
      assert init[0] == s[0];
      LeadingDigitPositive(init);
    }
  }

  /** The digits of a string of positive prefix value are those of the prefix and the last digit. */
  lemma LastDigit(s: string)
    requires |s| >= 2 && AllDigits(s) && DigitsValue(s[..|s| - 1]) >= 1
    ensures Digits(DigitsValue(s)) == Digits(DigitsValue(s[..|s| - 1])) + [s[|s| - 1]]
  {
    var d := DigitValue(s[|s| - 1]);
    assert DigitChar(d) == s[|s| - 1];
    DigitsStep(DigitsValue(s[..|s| - 1]), d);
  }

  /** Appending a digit to a positive number appends its character to the digits. */
  lemma DigitsStep(q: nat, d: nat)
    requires q >= 1 && d < 10
    ensures Digits(q * 10 + d) == Digits(q) + [DigitChar(d)]
  {
    assert (q * 10 + d) / 10 == q && (q * 10 + d) % 10 == d;
  }

  lemma DigitWeight(x: nat, y: nat, p: nat)
    requires x < y
    ensures x * p + p <= y * p
  {
    assert y * p == (x + 1) * p + (y - x - 1) * p;
  }

  /** On digit strings of equal length, lexicographic order is numeric order. */
  lemma {:induction false} LexLeDigits(a: string, b: string)
    requires AllDigits(a) && AllDigits(b) && |a| == |b|
    ensures LexLe(a, b) <==> DigitsValue(a) <= DigitsValue(b)
    decreases |a|
  {
    if a != [] {
      DigitsValueFront(a);
      DigitsValueFront(b);
      DigitsValueBound(a[1..]);
      DigitsValueBound(b[1..]);
      var p := Pow10(|a| - 1);
      if a[0] < b[0] {
        DigitWeight(DigitValue(a[0]), DigitValue(b[0]), p);
      } else if b[0] < a[0] {
        DigitWeight(DigitValue(b[0]), DigitValue(a[0]), p);
      } else {
        LexLeDigits(a[1..], b[1..]);
      }
    }
  }

  lemma {:induction false} LexLeCommonPrefix(p: string, a: string, b: string)
    ensures LexLe(p + a, p + b) <==> LexLe(a, b)
  {
    if p == [] {
      assert p + a == a && p + b == b;
    } else {
      assert (p + a)[1..] == p[1..] + a;
      assert (p + b)[1..] == p[1..] + b;
      LexLeCommonPrefix(p[1..], a, b);
    }
  }

  /** Every stored serial of the prefix is `prefijo-` followed by exactly five digits. */
  predicate FiveDigitSerials(serials: seq<string>, prefijo: string) {
    forall s :: s in serials && IsPrefix(prefijo + "-", s) ==>
      |s| == |prefijo| + 6 && AllDigits(s[|prefijo| + 1..])
  }

  /**
   * While every number of the prefix still has five digits, the lexicographic
   * maximum is the numeric maximum, so the two rules pick the same next number.
   */
  lemma NextNumberAgreesOnFiveDigits(serials: seq<string>, prefijo: string)
    requires '-' !in prefijo
    requires FiveDigitSerials(serials, prefijo)
    ensures NextNumberAsWritten(serials, prefijo) == NextNumber(serials, prefijo)
  {
    var c := Candidates(serials, prefijo);
    if c != [] {
      var m := MaxLex(c);
      var k := |prefijo| + 1;
      FiveDigitCandidate(serials, prefijo, m, m);
      var v, mf := DigitsValue(m[k..]), MaxFieldNumber(c);
      assert v <= mf;
      if mf != 0 {
        var s :| s in c && FieldNumber(s) == Some(mf);
        FiveDigitCandidate(serials, prefijo, s, m);
      }
      assert NextNumberAsWritten(serials, prefijo) == v + 1;
    }
  }

  /** A five-digit candidate's number is its digits' value, and lexicographic order bounds it. */
  lemma FiveDigitCandidate(serials: seq<string>, prefijo: string, s: string, m: string)
    requires '-' !in prefijo
    requires FiveDigitSerials(serials, prefijo)
    requires s in Candidates(serials, prefijo) && m in Candidates(serials, prefijo) && LexLe(s, m)
    ensures AllDigits(s[|prefijo| + 1..]) && AllDigits(m[|prefijo| + 1..])
    ensures FieldNumber(s) == Some(DigitsValue(s[|prefijo| + 1..]))
    ensures DigitsValue(s[|prefijo| + 1..]) <= DigitsValue(m[|prefijo| + 1..])
  {
    var k, dash := |prefijo| + 1, prefijo + "-";
    assert s == dash + s[k..] && m == dash + m[k..];
    FieldNumberOfDigits(prefijo, s[k..]);
    LexLeCommonPrefix(dash, s[k..], m[k..]);
    LexLeDigits(s[k..], m[k..]);
  }

  lemma CandidatesOfTwo(prefijo: string, a: string, b: string)
    requires IsPrefix(prefijo + "-", a) && IsPrefix(prefijo + "-", b)
    ensures Candidates([a, b], prefijo) == [a, b]
  {
    assert [a, b][1..] == [b];
    assert [b][1..] == [];
    assert Candidates([b], prefijo) == [b] + Candidates([], prefijo);
  }

  lemma MaxLexOfTwo(a: string, b: string)
    ensures MaxLex([a, b]) == if LexLe(a, b) then b else a
  {
    assert [a, b][1..] == [b];
  }

  lemma MaxFieldNumberOfTwo(a: string, b: string, x: nat, y: nat)
    requires FieldNumber(a) == Some(x) && FieldNumber(b) == Some(y)
    ensures MaxFieldNumber([a, b]) == if x > y then x else y
  {
    var c := [a, b];
    assert c[1..] == [b] && [b][1..] == [];
    var rest := MaxFieldNumber([b]);
    assert rest == y by {
      MaxFieldNumberCons([b], y, 0);
    }
    MaxFieldNumberCons(c, x, rest);
  }

  /** One more serial, whose number is `k`, over a list whose maximum is `rest`. */
  lemma MaxFieldNumberCons(c: seq<string>, k: nat, rest: nat)
    requires c != [] && FieldNumber(c[0]) == Some(k) && MaxFieldNumber(c[1..]) == rest
    ensures MaxFieldNumber(c) == if k > rest then k else rest
  {
  }

  lemma NinesValue(na: string)
    requires na == "99999"
    ensures AllDigits(na) && DigitsValue(na) == 99999
  {
    assert Digits(99999) == na;
  }

  lemma RolloverValue(nb: string)
    requires nb == "100000"
    ensures AllDigits(nb) && DigitsValue(nb) == 100000
    ensures ZeroPad5(100000) == nb
  {
    var one, z := nb[..1], nb[1..];
    assert one == "1" && z == Zeros(5);
    assert nb == one + z;
    DigitsValueConcat(one, z);
    ZerosValue(5);
    assert DigitsValue(one) == 1 by { assert one[..0] == []; }
    assert Pow10(5) == 100000;
    DigitsOfValue(nb);
  }

  /** The two rules on a store holding two serials of one prefix. */
  lemma NextNumbersOfTwo(prefijo: string, na: string, nb: string)
    requires '-' !in prefijo
    requires na != [] && AllDigits(na) && nb != [] && AllDigits(nb)
    requires !LexLe(na, nb)
    ensures NextNumberAsWritten([prefijo + "-" + na, prefijo + "-" + nb], prefijo) == DigitsValue(na) + 1
    ensures NextNumber([prefijo + "-" + na, prefijo + "-" + nb], prefijo) ==
              (if DigitsValue(na) > DigitsValue(nb) then DigitsValue(na) else DigitsValue(nb)) + 1
  {
    var dash := prefijo + "-";
    var a, b := prefijo + "-" + na, prefijo + "-" + nb;
    assert a == dash + na && b == dash + nb;
    assert a[..|dash|] == dash && b[..|dash|] == dash;
    CandidatesOfTwo(prefijo, a, b);
    assert !LexLe(a, b) by {
      LexLeCommonPrefix(dash, na, nb);
    }
    MaxLexOfTwo(a, b);
    FieldNumberOfDigits(prefijo, na);
    FieldNumberOfDigits(prefijo, nb);
    MaxFieldNumberOfTwo(a, b, DigitsValue(na), DigitsValue(nb));
  }

  /**
   * Past 99999 the as-written rule repeats a serial: after `ABC-99999` and
   * `ABC-100000` the lexicographic maximum is `ABC-99999`, so it proposes
   * `ABC-100000` again; the numeric rule proposes `ABC-100001`.
   */
  lemma NextNumberAsWrittenRepeats(serials: seq<string>)
    requires serials == ["ABC-99999", "ABC-100000"]
    ensures NextNumberAsWritten(serials, "ABC") == 100000
    ensures FormatSerial("ABC", NextNumberAsWritten(serials, "ABC")) == serials[1]
    ensures NextNumber(serials, "ABC") == 100001
  {
    var na, nb := serials[0][4..], serials[1][4..];
    NinesValue(na);
    RolloverValue(nb);
    var head := "ABC" + "-";
    assert serials[0][..4] == head && serials[1][..4] == head;
    assert serials[0] == head + na by { assert serials[0] == serials[0][..4] + serials[0][4..]; }
    assert serials[1] == head + nb by { assert serials[1] == serials[1][..4] + serials[1][4..]; }
    assert na[0] == '9' && nb[0] == '1';
    NextNumbersOfTwo("ABC", na, nb);
  }

  // ---------------------------------------------------------------------------
  // The store: Area, Estado and Equipo tables
  // ---------------------------------------------------------------------------

  /**
   * The stored columns of an equipo. `area` and `estado` are primary keys of
   * the Area and Estado tables, which number their rows from 1.
   */
  datatype Datos = Datos(
    nombre: string,
    tipo: string,
    numeroSerie: string,
    observacion: string,
    marca: string,
    modelo: string,
    precio: Option<real>,
    proveedor: string,
    fechaCompra: Option<Date>,
    garantiaHasta: Option<Date>,
    fechaMantenimiento: Option<Date>,
    area: nat,
    estado: nat)

  /** A stored equipo row with its primary key. */
  datatype Fila = Fila(id: nat, datos: Datos)

  function SerialsOf(filas: seq<Fila>): (s: seq<string>)
    ensures |s| == |filas|
    ensures forall i :: 0 <= i < |filas| ==> s[i] == filas[i].datos.numeroSerie
  {
    seq(|filas|, i requires 0 <= i < |filas| => filas[i].datos.numeroSerie)
  }

  /** The position of the row with primary key `id`, if any. */
  function IndexOfId(filas: seq<Fila>, id: nat): (r: Option<nat>)
    ensures r.Some? ==> r.value < |filas| && filas[r.value].id == id
    ensures r.None? ==> forall i :: 0 <= i < |filas| ==> filas[i].id != id
  {
    if filas == [] then None
    else if filas[0].id == id then Some(0)
    else match IndexOfId(filas[1..], id)
      case None => None
      case Some(i) => Some(i + 1)
  }

  /**
   * Whether the database accepts `d` as the row with key `id` (None: a new row):
   * both foreign keys exist and no other row has the same serial.
   */
  predicate Admissible(filas: seq<Fila>, id: Option<nat>, d: Datos, nAreas: nat, nEstados: nat) {
    1 <= d.area <= nAreas && 1 <= d.estado <= nEstados &&
    forall i :: 0 <= i < |filas| && (id.None? || filas[i].id != id.value) ==>
      filas[i].datos.numeroSerie != d.numeroSerie
  }

  /** The table after writing `f`: an UPDATE of the row with its key, or an INSERT when there is none. */
  function Stored(filas: seq<Fila>, f: Fila): (r: seq<Fila>)
    ensures f in r
    ensures forall g :: g in r ==> g == f || g in filas
    ensures |filas| <= |r| && forall j :: 0 <= j < |filas| && filas[j].id != f.id ==> r[j] == filas[j]
  {
    match IndexOfId(filas, f.id)
    case Some(i) =>
      var r := filas[i := f];
      assert r[i] == f;
      r
    case None => filas + [f]
  }

  class Database {
    var areas: seq<string>
    var estados: seq<string>
    var equipos: seq<Fila>
    var nextId: nat

    /** Keys are unique and below the next key, foreign keys exist, serials are unique. */
    ghost predicate Valid()
      reads this
    {
      ValidTable(equipos, nextId, |areas|, |estados|)
    }

    constructor()
      ensures Valid()
      ensures areas == [] && estados == [] && equipos == []
    {
      areas, estados, equipos, nextId := [], [], [], 1;
    }

    function Serials(): (s: seq<string>)
      reads this
      ensures |s| == |equipos|
    {
      SerialsOf(equipos)
    }

    /**
     * The INSERT or UPDATE behind `Model.save` for an admissible row: a new
     * row takes the next key; a row with a key replaces the stored row with
     * that key, or is inserted under it when there is none.
     */
    method Write(f: Fila, id: Option<nat>)
      requires Valid()
      requires Admissible(equipos, id, f.datos, |areas|, |estados|)
      requires f.id == if id.Some? then id.value else nextId
      modifies this
      ensures Valid()
      ensures equipos == Stored(old(equipos), f)
      ensures areas == old(areas) && estados == old(estados)
    {
      StoredKeepsValid(equipos, f, nextId, |areas|, |estados|, id);
      equipos := Stored(equipos, f);
      nextId := if f.id < nextId then nextId else f.id + 1;
    }

    /** `Area.objects.create(nombre=...)`: the area with key `id` is `areas[id - 1]`. */
    method CreateArea(nombre: string) returns (id: nat)
      requires Valid()
      modifies this
      ensures Valid()
      ensures areas == old(areas) + [nombre] && id == |areas|
      ensures estados == old(estados) && equipos == old(equipos) && nextId == old(nextId)
    {
      areas := areas + [nombre];
      id := |areas|;
    }

    /** `Estado.objects.create(nombre=...)`. */
    method CreateEstado(nombre: string) returns (id: nat)
      requires Valid()
      modifies this
      ensures Valid()
      ensures estados == old(estados) + [nombre] && id == |estados|
      ensures areas == old(areas) && equipos == old(equipos) && nextId == old(nextId)
    {
      estados := estados + [nombre];
      id := |estados|;
    }
  }

  // ---------------------------------------------------------------------------
  // Equipo
  // ---------------------------------------------------------------------------

  class Equipo {
    var id: Option<nat>
    var nombre: string
    var tipo: string
    var numeroSerie: string
    var observacion: string
    var marca: string
    var modelo: string
    var precio: Option<real>
    var proveedor: string
    var fechaCompra: Option<Date>
    var garantiaHasta: Option<Date>
    var fechaMantenimiento: Option<Date>
    var area: nat
    var estado: nat

    function Snapshot(): Datos
      reads this
    {
      Datos(nombre, tipo, numeroSerie, observacion, marca, modelo, precio, proveedor,
            fechaCompra, garantiaHasta, fechaMantenimiento, area, estado)
    }

    /** `Equipo(**datos)`: an unsaved instance. */
    constructor(d: Datos)
      ensures id == None && Snapshot() == d
    {
      id := None;
      nombre, tipo, numeroSerie, observacion := d.nombre, d.tipo, d.numeroSerie, d.observacion;
      marca, modelo, precio, proveedor := d.marca, d.modelo, d.precio, d.proveedor;
      fechaCompra, garantiaHasta, fechaMantenimiento := d.fechaCompra, d.garantiaHasta, d.fechaMantenimiento;
      area, estado := d.area, d.estado;
    }

    /** The instance `Equipo.objects.get` builds from a stored row. */
    constructor Cargar(f: Fila)
      ensures id == Some(f.id) && Snapshot() == f.datos
    {
      id := Some(f.id);
      var d := f.datos;
      nombre, tipo, numeroSerie, observacion := d.nombre, d.tipo, d.numeroSerie, d.observacion;
      marca, modelo, precio, proveedor := d.marca, d.modelo, d.precio, d.proveedor;
      fechaCompra, garantiaHasta, fechaMantenimiento := d.fechaCompra, d.garantiaHasta, d.fechaMantenimiento;
      area, estado := d.area, d.estado;
    }

    /**
     * The field-by-field assignments of an edit form: every column but the
     * serial and the maintenance date, which the form does not carry.
     */
    method Asignar(d: Datos)
      modifies this
      ensures id == old(id)
      ensures Snapshot() == d.(numeroSerie := old(numeroSerie), fechaMantenimiento := old(fechaMantenimiento))
    {
      AsignarTextos(d);
      AsignarValores(d);
    }

    /** The text columns of `Asignar`. */
    method AsignarTextos(d: Datos)
      modifies this`nombre, this`tipo, this`marca, this`modelo, this`proveedor, this`observacion
      ensures nombre == d.nombre && tipo == d.tipo && marca == d.marca && modelo == d.modelo
      ensures proveedor == d.proveedor && observacion == d.observacion
    {
      nombre, tipo, marca, modelo, proveedor, observacion := d.nombre, d.tipo, d.marca, d.modelo, d.proveedor, d.observacion;
    }

    /** The price, date and foreign-key columns of `Asignar`. */
    method AsignarValores(d: Datos)
      modifies this`precio, this`fechaCompra, this`garantiaHasta, this`area, this`estado
      ensures precio == d.precio && fechaCompra == d.fechaCompra && garantiaHasta == d.garantiaHasta
      ensures area == d.area && estado == d.estado
    {
      precio, fechaCompra, garantiaHasta, area, estado := d.precio, d.fechaCompra, d.garantiaHasta, d.area, d.estado;
    }

    /** `garantia_vigente`: a warranty end date is set and today has not passed it. */
    predicate GarantiaVigente(today: Date): (b: bool)
      reads this
      ensures b ==> garantiaHasta.Some? && today <= garantiaHasta.value
    {
      garantiaHasta.Some? && garantiaHasta.value >= today
    }

    /** `mantenimiento_proximo`: maintenance is due within the next 30 days, today included. */
    predicate MantenimientoProximo(today: Date): (b: bool)
      reads this
      ensures b ==> fechaMantenimiento.Some? && today <= fechaMantenimiento.value
    {
      fechaMantenimiento.Some? && 0 <= fechaMantenimiento.value - today <= 30
    }

    /** `mantenimiento_vencido`: the maintenance date is already past. */
    predicate MantenimientoVencido(today: Date): (b: bool)
      reads this
      ensures b ==> fechaMantenimiento.Some? && !MantenimientoProximo(today)
    {
      fechaMantenimiento.Some? && fechaMantenimiento.value < today
    }

    /**
     * `save` with the corrected serial rule: an empty serial is replaced by
     * `NextSerial` of the equipo's type (before the write, so it stays even
     * when the write is refused); then the row is inserted, or updated when
     * the instance already has a key. The write is refused exactly when a
     * foreign key is missing or another row holds the serial; under this rule
     * an assigned serial is never the cause. The code assigns
     * `SerialAsWritten`, which equals `NextSerial` under the conditions of
     * `SerialAsWrittenIsNextSerial` and otherwise may be held already
     * (`SerialAsWrittenHeld`), making the code's write fail.
     */
    method Save(db: Database) returns (saved: bool)
      requires db.Valid()
      modifies this, db
      ensures db.Valid()
      ensures numeroSerie == if old(numeroSerie) == "" then NextSerial(old(db.Serials()), tipo) else old(numeroSerie)
      ensures Snapshot() == old(Snapshot()).(numeroSerie := numeroSerie)
      ensures saved <==> Admissible(old(db.equipos), old(id), Snapshot(), |db.areas|, |db.estados|)
      ensures old(numeroSerie) == "" && 1 <= area <= |db.areas| && 1 <= estado <= |db.estados| ==> saved
      ensures saved ==> id == if old(id).Some? then old(id) else Some(old(db.nextId))
      ensures saved ==> db.equipos == Stored(old(db.equipos), Fila(id.value, Snapshot()))
      ensures !saved ==> id == old(id) && db.equipos == old(db.equipos)
      ensures db.areas == old(db.areas) && db.estados == old(db.estados)
    {
      AsignarSerie(db);
      saved := Escribir(db);
    }

    /** The serial step of `save`, corrected rule: an empty serial becomes `NextSerial` of the type, which is free. */
    method AsignarSerie(db: Database)
      modifies this`numeroSerie
      ensures numeroSerie == if old(numeroSerie) == "" then NextSerial(db.Serials(), tipo) else old(numeroSerie)
      ensures old(numeroSerie) == "" && 1 <= area <= |db.areas| && 1 <= estado <= |db.estados| ==>
                Admissible(db.equipos, id, Snapshot(), |db.areas|, |db.estados|)
    {
      if numeroSerie == "" {
        numeroSerie := NextSerial(db.Serials(), tipo);
        FreshSerialAdmissible(db.equipos, Snapshot(), id, |db.areas|, |db.estados|);
      }
    }

    /** The write step of `save`: the row goes to the table when it is admissible, under its key or the next one. */
    method Escribir(db: Database) returns (saved: bool)
      requires db.Valid()
      modifies this`id, db
      ensures db.Valid()
      ensures saved <==> Admissible(old(db.equipos), old(id), Snapshot(), |db.areas|, |db.estados|)
      ensures saved ==> id == if old(id).Some? then old(id) else Some(old(db.nextId))
      ensures saved ==> db.equipos == Stored(old(db.equipos), Fila(id.value, Snapshot()))
      ensures !saved ==> id == old(id) && db.equipos == old(db.equipos)
      ensures db.areas == old(db.areas) && db.estados == old(db.estados)
    {
      var d := Snapshot();
      if !Admissible(db.equipos, id, d, |db.areas|, |db.estados|) {
        return false;
      }
      var key := if id.Some? then id.value else db.nextId;
      db.Write(Fila(key, d), id);
      id := Some(key);
      saved := true;
    }
  }

  /** A row written under the next key is appended at the end of the table. */
  lemma StoredAppends(filas: seq<Fila>, f: Fila, nextId: nat, nAreas: nat, nEstados: nat)
    requires ValidTable(filas, nextId, nAreas, nEstados) && f.id == nextId
    ensures Stored(filas, f) == filas + [f]
  {
    assert IndexOfId(filas, f.id).None?;
  }

  /** The table invariant of `Database.Valid`, on values. */
  ghost predicate ValidTable(filas: seq<Fila>, nextId: nat, nAreas: nat, nEstados: nat) {
    (forall i :: 0 <= i < |filas| ==>
      filas[i].id < nextId && 1 <= filas[i].datos.area <= nAreas && 1 <= filas[i].datos.estado <= nEstados) &&
    (forall i, j :: 0 <= i < j < |filas| ==>
      filas[i].id != filas[j].id && filas[i].datos.numeroSerie != filas[j].datos.numeroSerie)
  }

  /** Writing an admissible row keeps keys and serials unique. */
  lemma StoredKeepsValid(filas: seq<Fila>, f: Fila, nextId: nat, nAreas: nat, nEstados: nat, id: Option<nat>)
    requires ValidTable(filas, nextId, nAreas, nEstados)
    requires Admissible(filas, id, f.datos, nAreas, nEstados)
    requires id.Some? ==> f.id == id.value
    requires id.None? ==> f.id == nextId
    ensures ValidTable(Stored(filas, f), if f.id < nextId then nextId else f.id + 1, nAreas, nEstados)
  {
    var r := Stored(filas, f);
    var n := if f.id < nextId then nextId else f.id + 1;
    match IndexOfId(filas, f.id)
    case Some(k) =>
      assert r == filas[k := f];
      forall i, j | 0 <= i < j < |r|
        ensures r[i].id != r[j].id && r[i].datos.numeroSerie != r[j].datos.numeroSerie
      {
        if i == k || j == k {
          var o := if i == k then j else i;
          assert r[o] == filas[o];
          assert filas[o].id != filas[k].id;
        }
      }
    case None =>
      assert r == filas + [f];
      forall i, j | 0 <= i < j < |r|
        ensures r[i].id != r[j].id && r[i].datos.numeroSerie != r[j].datos.numeroSerie
      {
        if j == |filas| {
          assert r[i] == filas[i];
        }
      }
  }

  /** A serial given by the corrected rule clashes with no stored row. */
  lemma AssignedSerialIsFree(filas: seq<Fila>, tipo: string)
    ensures forall i :: 0 <= i < |filas| ==> filas[i].datos.numeroSerie != NextSerial(SerialsOf(filas), tipo)
  {
    var serials := SerialsOf(filas);
    forall i | 0 <= i < |filas|
      ensures filas[i].datos.numeroSerie != NextSerial(serials, tipo)
    {
      assert serials[i] == filas[i].datos.numeroSerie;
    }
  }

  /** A row carrying the serial of the corrected rule is admissible as soon as its keys exist. */
  lemma FreshSerialAdmissible(filas: seq<Fila>, d: Datos, id: Option<nat>, nAreas: nat, nEstados: nat)
    requires d.numeroSerie == NextSerial(SerialsOf(filas), d.tipo)
    ensures 1 <= d.area <= nAreas && 1 <= d.estado <= nEstados ==> Admissible(filas, id, d, nAreas, nEstados)
  {
    AssignedSerialIsFree(filas, d.tipo);
  }

  // ---------------------------------------------------------------------------
  // Date flags
  // ---------------------------------------------------------------------------

  /** Without dates no flag is raised. */
  lemma FlagsWithoutDates(e: Equipo, today: Date)
    ensures e.garantiaHasta.None? ==> !e.GarantiaVigente(today)
    ensures e.fechaMantenimiento.None? ==> !e.MantenimientoProximo(today) && !e.MantenimientoVencido(today)
  {
  }

  /** Maintenance is never both due soon and overdue. */
  lemma MantenimientoFlagsExclusive(e: Equipo, today: Date)
    ensures !(e.MantenimientoProximo(today) && e.MantenimientoVencido(today))
  {
  }

  /**
   * A maintenance date falls in exactly one of three bands: overdue, due in
   * the next 30 days, or later than that.
   */
  lemma MantenimientoBands(e: Equipo, today: Date)
    requires e.fechaMantenimiento.Some?
    ensures e.MantenimientoVencido(today) <==> e.fechaMantenimiento.value < today
    ensures e.MantenimientoProximo(today) <==> today <= e.fechaMantenimiento.value <= today + 30
    ensures !e.MantenimientoVencido(today) && !e.MantenimientoProximo(today) <==> e.fechaMantenimiento.value > today + 30
  {
  }

  /** The warranty is in force exactly when its end date is set and today has not passed it. */
  lemma GarantiaBand(e: Equipo, today: Date)
    ensures e.GarantiaVigente(today) <==> e.garantiaHasta.Some? && today <= e.garantiaHasta.value
  {
  }

  /** A warranty in force stays in force on earlier days; its last day is the end date. */
  lemma GarantiaLastDay(e: Equipo, today: Date, earlier: Date)
    requires e.GarantiaVigente(today) && earlier <= today
    ensures e.GarantiaVigente(earlier)
    ensures e.GarantiaVigente(e.garantiaHasta.value) && !e.GarantiaVigente(e.garantiaHasta.value + 1)
  {
  }
}
