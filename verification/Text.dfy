/** The few string operations of Go's standard library that the service relies on. */
module Text {

  /** The white space of Go's unicode.IsSpace. */
  predicate IsSpace(c: char) {
    || '\t' <= c <= '\r' || c == ' ' || c == '\U{0085}' || c == '\U{00A0}' || c == '\U{1680}'
    || c == '\U{2028}' || c == '\U{2029}' || c == '\U{202F}' || c == '\U{205F}' || c == '\U{3000}'
    || '\U{2000}' <= c <= '\U{200A}'
  }

  /** One by one, the Unicode characters with property White_Space. */
  const WHITE_SPACE: string :=
    "\t\n\U{000B}\U{000C}\r \U{0085}\U{00A0}\U{1680}\U{2000}\U{2001}\U{2002}\U{2003}\U{2004}\U{2005}\U{2006}" +
    "\U{2007}\U{2008}\U{2009}\U{200A}\U{2028}\U{2029}\U{202F}\U{205F}\U{3000}"

  lemma SpacesListed(c: char)
    ensures IsSpace(c) <==> c in WHITE_SPACE
  {}

  function TrimLeft(drop: char -> bool, s: string): string {
    if s == "" || !drop(s[0]) then s else TrimLeft(drop, s[1..])
  }

  function TrimRight(drop: char -> bool, s: string): string {
    if s == "" || !drop(s[|s| - 1]) then s else TrimRight(drop, s[..|s| - 1])
  }

  /** strings.Trim with a cut set, and strings.TrimSpace when the cut set is white space. */
  function Trim(drop: char -> bool, s: string): string {
    TrimRight(drop, TrimLeft(drop, s))
  }

  function TrimSpace(s: string): string {
    Trim(IsSpace, s)
  }

  /** Nothing to cut at either end. */
  predicate Tight(drop: char -> bool, s: string) {
    s != "" ==> !drop(s[0]) && !drop(s[|s| - 1])
  }

  lemma TrimFixesTight(drop: char -> bool, s: string)
    requires Tight(drop, s)
    ensures Trim(drop, s) == s
  {}

  /** Padding by characters that are cut changes nothing: Trim finds the tight core. */
  lemma TrimUnpads(drop: char -> bool, a: string, s: string, b: string)
    requires Tight(drop, s)
    requires forall c :: c in a ==> drop(c)
    requires forall c :: c in b ==> drop(c)
    ensures Trim(drop, a + s + b) == s
  {
    if a != "" {
      assert (a + s + b)[1..] == a[1..] + s + b;
      TrimUnpads(drop, a[1..], s, b);
    } else if s == "" {
      assert a + s + b == b;
      AllDropped(drop, b);
    } else {
      assert a + s + b == s + b;
      assert TrimLeft(drop, s + b) == s + b;
      TrimRightUnpads(drop, s, b);
    }
  }

  predicate AllDrop(drop: char -> bool, s: string) {
    forall i :: 0 <= i < |s| ==> drop(s[i])
  }

  lemma {:induction false} TrimLeftSplits(drop: char -> bool, s: string) returns (a: string)
    ensures s == a + TrimLeft(drop, s) && AllDrop(drop, a)
  {
    if s == "" || !drop(s[0]) {
      a := "";
    } else {
      var rest := TrimLeftSplits(drop, s[1..]);
      a := [s[0]] + rest;
    }
  }

  lemma {:induction false} TrimRightSplits(drop: char -> bool, s: string) returns (b: string)
    ensures s == TrimRight(drop, s) + b && AllDrop(drop, b)
  {
    if s == "" || !drop(s[|s| - 1]) {
      b := "";
    } else {
      var rest := TrimRightSplits(drop, s[..|s| - 1]);
      b := rest + [s[|s| - 1]];
    }
  }

  lemma {:induction false} TrimRightEnds(drop: char -> bool, s: string)
    ensures TrimRight(drop, s) <= s
    ensures TrimRight(drop, s) != "" ==> !drop(TrimRight(drop, s)[|TrimRight(drop, s)| - 1])
    ensures s != "" && !drop(s[0]) ==> TrimRight(drop, s) != ""
  {
    if s != "" && drop(s[|s| - 1]) {
      TrimRightEnds(drop, s[..|s| - 1]);
    }
  }

  /** What Trim cuts off: dropped characters only. */
  lemma TrimSplits(drop: char -> bool, s: string) returns (a: string, b: string)
    ensures s == a + (Trim(drop, s) + b)
    ensures AllDrop(drop, a) && AllDrop(drop, b)
  {
    a := TrimLeftSplits(drop, s);
    b := TrimRightSplits(drop, TrimLeft(drop, s));
  }

  lemma TrimIsTight(drop: char -> bool, s: string)
    ensures Tight(drop, Trim(drop, s))
  {
    TrimLeftEnds(drop, s);
    TrimRightEnds(drop, TrimLeft(drop, s));
  }

  lemma {:induction false} TrimLeftEnds(drop: char -> bool, s: string)
    ensures TrimLeft(drop, s) != "" ==> !drop(TrimLeft(drop, s)[0])
  {
    if s != "" && drop(s[0]) {
      TrimLeftEnds(drop, s[1..]);
    }
  }

  lemma AllDropped(drop: char -> bool, s: string)
    requires forall c :: c in s ==> drop(c)
    ensures Trim(drop, s) == ""
  {
    if s != "" {
      AllDropped(drop, s[1..]);
    }
  }

  lemma TrimRightUnpads(drop: char -> bool, s: string, b: string)
    requires Tight(drop, s) && s != ""
    requires forall c :: c in b ==> drop(c)
    ensures TrimRight(drop, s + b) == s
  {
    if b == "" {
      assert s + b == s;
    } else {
      assert (s + b)[..|s + b| - 1] == s + b[..|b| - 1];
      assert (s + b)[|s + b| - 1] == b[|b| - 1];
      TrimRightUnpads(drop, s, b[..|b| - 1]);
    }
  }

  /** Decimal digits of a natural number, most significant first (strconv, fmt's %d). */
  function Digits(n: nat): (r: string)
    ensures r != ""
    ensures forall c :: c in r ==> '0' <= c <= '9'
  {
    if n < 10 then [('0' as int + n) as char]
    else Digits(n / 10) + [('0' as int + n % 10) as char]
  }

  function Decimal(n: int): (r: string)
    ensures forall c :: c in r ==> c == '-' || '0' <= c <= '9'
  {
    if n < 0 then "-" + Digits(-n) else Digits(n)
  }

  predicate IsDigit(c: char) {
    '0' <= c <= '9'
  }

  /** What a string of digits denotes, read from the left: each further digit multiplies by ten. */
  function Denotes(s: string): int
    requires forall c :: c in s ==> IsDigit(c)
  {
    if s == "" then 0 else 10 * Denotes(s[..|s| - 1]) + (s[|s| - 1] as int - '0' as int)
  }

  /** s is n in decimal notation, without leading zeros. */
  predicate IsNumeral(s: string, n: int) {
    s != "" && (forall c :: c in s ==> IsDigit(c)) && (|s| > 1 ==> s[0] != '0') && Denotes(s) == n
  }

  lemma {:induction false} DecimalIsNumeral(n: nat)
    ensures IsNumeral(Decimal(n), n)
    ensures n > 0 ==> Decimal(n)[0] != '0'
  {
    var s := Decimal(n);
    if n < 10 {
      assert s[..|s| - 1] == "";
    } else {
      DecimalIsNumeral(n / 10);
      assert s[..|s| - 1] == Decimal(n / 10);
    }
  }

  lemma {:induction false} DigitsInjective(m: nat, n: nat)
    requires Digits(m) == Digits(n)
    ensures m == n
    decreases m
  {
    var a, b := Digits(m), Digits(n);
    if m >= 10 && n >= 10 {
      assert a[..|a| - 1] == Digits(m / 10) && b[..|b| - 1] == Digits(n / 10);
      assert a[|a| - 1] == b[|b| - 1];
      DigitsInjective(m / 10, n / 10);
    }
  }

  lemma DecimalInjective(m: int, n: int)
    requires Decimal(m) == Decimal(n)
    ensures m == n
  {
    assert (m < 0 <==> '-' in Decimal(m)) && (n < 0 <==> '-' in Decimal(n)) by {
      assert m < 0 ==> Decimal(m)[0] == '-';
      assert n < 0 ==> Decimal(n)[0] == '-';
    }
    if m < 0 {
      assert Decimal(m)[1..] == Digits(-m) && Decimal(n)[1..] == Digits(-n);
      DigitsInjective(-m, -n);
    } else {
      DigitsInjective(m, n);
    }
  }
}
