/**
 * The small part of java.lang that the bulk loader's code leans on: references
 * that may be null, String.trim, String.split(","), String.toLowerCase,
 * String.equalsIgnoreCase, and the 32-bit truncation of Long.intValue() and
 * of int arithmetic.
 */
module JavaLang {

  /** A Java reference that may be null. */
  datatype Option<+T> = None | Some(value: T)

  const INT_MIN: int := -0x8000_0000
  const INT_MAX: int := 0x7FFF_FFFF

  predicate IsInt32(x: int) { INT_MIN <= x <= INT_MAX }

  /** Two's-complement truncation to 32 bits: Long.intValue(), int overflow. */
  function Wrap32(x: int): (r: int)
    ensures IsInt32(r)
    ensures (x - r) % 0x1_0000_0000 == 0
    ensures IsInt32(x) ==> r == x
  {
    (x - INT_MIN) % 0x1_0000_0000 + INT_MIN
  }

  const LONG_MIN: int := -0x8000_0000_0000_0000
  const LONG_MAX: int := 0x7FFF_FFFF_FFFF_FFFF

  predicate IsInt64(x: int) { LONG_MIN <= x <= LONG_MAX }

  /** Two's-complement truncation to 64 bits: long overflow. */
  function Wrap64(x: int): (r: int)
    ensures IsInt64(r)
    ensures (x - r) % 0x1_0000_0000_0000_0000 == 0
    ensures IsInt64(x) ==> r == x
  {
    (x - LONG_MIN) % 0x1_0000_0000_0000_0000 + LONG_MIN
  }

  /** `x++` on a Java int. */
  function Int32Inc(x: int): (r: int)
    ensures IsInt32(x) && x < INT_MAX ==> r == x + 1
    ensures x == INT_MAX ==> r == INT_MIN
  {
    Wrap32(x + 1)
  }

  /** How String.valueOf / "%s" renders a possibly-null string. */
  function Show(s: Option<string>): string
  {
    match s
    case None => "null"
    case Some(v) => v
  }

  // ---------------------------------------------------------------------------
  // String.trim(): removes every leading and trailing character <= ' '.

  predicate IsBlank(c: char) { c <= ' ' }

  /** Number of leading characters that trim() removes. */
  function Leading(s: string): (n: nat)
    ensures n <= |s|
    ensures forall k :: 0 <= k < n ==> IsBlank(s[k])
    ensures n < |s| ==> !IsBlank(s[n])
  {
    if s != [] && IsBlank(s[0]) then 1 + Leading(s[1..]) else 0
  }

  /** Number of trailing characters that trim() removes. */
  function Trailing(s: string): (n: nat)
    ensures n <= |s|
    ensures forall k :: |s| - n <= k < |s| ==> IsBlank(s[k])
    ensures n < |s| ==> !IsBlank(s[|s| - 1 - n])
  {
    if s != [] && IsBlank(s[|s| - 1]) then 1 + Trailing(s[..|s| - 1]) else 0
  }

  function Trim(s: string): (r: string)
    ensures |r| <= |s|
    ensures r == [] || (!IsBlank(r[0]) && !IsBlank(r[|r| - 1]))
    ensures r == [] <==> forall k :: 0 <= k < |s| ==> IsBlank(s[k])
    ensures r != [] ==> r == s[Leading(s)..|s| - Trailing(s)]
  {
    var a := Leading(s);
    if a == |s| then [] else
      var b := Trailing(s);
      assert !IsBlank(s[|s| - 1 - b]);
      assert !IsBlank(s[a]);
      s[a..|s| - b]
  }

  lemma TrimIdempotent(s: string)
    ensures Trim(Trim(s)) == Trim(s)
  {
    var t := Trim(s);
    if t != [] {
      assert Leading(t) == 0;
      assert Trailing(t) == 0;
    }
  }

  // ---------------------------------------------------------------------------
  // Case mapping: Character.toUpperCase/toLowerCase, String.toLowerCase() and
  // String.equalsIgnoreCase().  Besides the ASCII letters, four characters
  // have a case mapping that reaches an ASCII letter; they are mapped here as
  // Unicode maps them.  Every other character is left as it is.

  const DOTLESS_I: char := '\U{0131}'          // upper case 'I'
  const LONG_S: char := '\U{017F}'             // upper case 'S'
  const DOTTED_CAPITAL_I: char := '\U{0130}'   // lower case 'i'
  const KELVIN_SIGN: char := '\U{212A}'        // lower case 'k'
  const COMBINING_DOT_ABOVE: char := '\U{0307}'

  /** The characters outside ASCII whose case mapping is an ASCII letter. */
  predicate FoldsToAscii(c: char)
  {
    c == DOTLESS_I || c == LONG_S || c == DOTTED_CAPITAL_I || c == KELVIN_SIGN
  }

  /** Character.toUpperCase. */
  function UpperChar(c: char): char
  {
    if 'a' <= c <= 'z' then (c as int - 32) as char
    else if c == DOTLESS_I then 'I'
    else if c == LONG_S then 'S'
    else c
  }

  /** Character.toLowerCase. */
  function LowerChar(c: char): char
  {
    if 'A' <= c <= 'Z' then (c as int + 32) as char
    else if c == DOTTED_CAPITAL_I then 'i'
    else if c == KELVIN_SIGN then 'k'
    else c
  }

  /** String.toLowerCase() of one character: 'İ' becomes 'i' and a combining dot. */
  function LowerText(c: char): string
  {
    if c == DOTTED_CAPITAL_I then ['i', COMBINING_DOT_ABOVE] else [LowerChar(c)]
  }

  /**
   * String.toLowerCase(): no upper-case ASCII letter is left, nothing gets
   * shorter, and text without 'İ' keeps its length and is lowered character
   * by character.
   */
  function ToLower(s: string): (r: string)
    ensures |r| >= |s|
    ensures r == [] <==> s == []
    ensures forall k :: 0 <= k < |r| ==> !('A' <= r[k] <= 'Z')
    ensures (forall k :: 0 <= k < |s| ==> s[k] != DOTTED_CAPITAL_I) ==>
      |r| == |s| && forall k :: 0 <= k < |s| ==> r[k] == LowerChar(s[k])
  {
    if s == [] then [] else LowerText(s[0]) + ToLower(s[1..])
  }

  /** regionMatches(ignoreCase): equal, equal in upper case, or equal once the upper case is lowered. */
  predicate CharsMatch(c1: char, c2: char)
  {
    c1 == c2 || UpperChar(c1) == UpperChar(c2) || LowerChar(UpperChar(c1)) == LowerChar(UpperChar(c2))
  }

  predicate EqualsIgnoreCase(a: string, b: string)
  {
    |a| == |b| && forall k :: 0 <= k < |a| ==> CharsMatch(a[k], b[k])
  }

  /**
   * Against a lower-case ASCII letter, the characters that match ignoring
   * case are the letter, its capital, and the Unicode letters that fold onto
   * it: 'ı' and 'İ' onto 'i', 'ſ' onto 's', the Kelvin sign onto 'k'.
   */
  lemma MatchesLowerLetter(c: char, e: char)
    requires 'a' <= e <= 'z'
    ensures CharsMatch(c, e) <==>
      || c == e || c as int == e as int - 32
      || (e == 'i' && (c == DOTLESS_I || c == DOTTED_CAPITAL_I))
      || (e == 's' && c == LONG_S)
      || (e == 'k' && c == KELVIN_SIGN)
  {
  }

  /** One character that does not fold onto ASCII matches a lower-case letter exactly when it lowers to it. */
  lemma PlainCharMatch(c: char, e: char)
    requires !FoldsToAscii(c) && 'a' <= e <= 'z'
    ensures CharsMatch(c, e) <==> LowerChar(c) == e
  {
    MatchesLowerLetter(c, e);
  }

  /**
   * For text without the four folding characters, equalsIgnoreCase against
   * lower-case ASCII letters is equality after toLowerCase().
   */
  lemma EqualsIgnoreCaseLower(a: string, b: string)
    requires forall k :: 0 <= k < |a| ==> !FoldsToAscii(a[k])
    requires forall k :: 0 <= k < |b| ==> 'a' <= b[k] <= 'z'
    ensures EqualsIgnoreCase(a, b) <==> ToLower(a) == b
  {
    var r := ToLower(a);
    assert |r| == |a| && forall k :: 0 <= k < |a| ==> r[k] == LowerChar(a[k]);
    if |a| == |b| {
      forall k | 0 <= k < |a| ensures CharsMatch(a[k], b[k]) <==> r[k] == b[k] {
        PlainCharMatch(a[k], b[k]);
      }
    }
  }

  /** A dotless i matches 'i' ignoring case, though lowering leaves it as it is. */
  lemma DotlessIMatches()
    ensures EqualsIgnoreCase([DOTLESS_I], "i") && ToLower([DOTLESS_I]) != "i"
  {
    assert CharsMatch(DOTLESS_I, 'i');
    assert ToLower([DOTLESS_I]) == [DOTLESS_I];
  }

  // ---------------------------------------------------------------------------
  // String.split(",") and joining.

  /** All the `sep`-separated pieces of `s`, empty ones included. */
  function Pieces(s: string, sep: char): (ps: seq<string>)
    ensures |ps| >= 1
    ensures forall i, k :: 0 <= i < |ps| && 0 <= k < |ps[i]| ==> ps[i][k] != sep
    ensures sep !in s ==> ps == [s]
  {
    if s == [] then [[]]
    else
      var rest := Pieces(s[1..], sep);
      if s[0] == sep then [[]] + rest
      else
        assert sep !in s ==> sep !in s[1..] && [s[0]] + s[1..] == s;
        [[s[0]] + rest[0]] + rest[1..]
  }

  function Join(ps: seq<string>, sep: string): string
  {
    if ps == [] then []
    else if |ps| == 1 then ps[0]
    else ps[0] + sep + Join(ps[1..], sep)
  }

  /** The pieces up to and including the last non-empty one. */
  function DropTrailingEmpty(ps: seq<string>): (r: seq<string>)
    ensures |r| <= |ps| && r == ps[..|r|]
    ensures r == [] || r[|r| - 1] != []
    ensures forall i :: |r| <= i < |ps| ==> ps[i] == []
  {
    if ps == [] then []
    else if ps[|ps| - 1] == [] then DropTrailingEmpty(ps[..|ps| - 1])
    else ps
  }

  /**
   * Java's s.split(","): with no ',' at all the whole string is the only
   * element (so "" gives [""]); otherwise the pieces with the trailing empty
   * ones removed (so ",," gives []).
   */
  function SplitComma(s: string): (r: seq<string>)
    ensures forall i, k :: 0 <= i < |r| && 0 <= k < |r[i]| ==> r[i][k] != ','
    ensures ',' !in s ==> r == [s]
    ensures ',' in s ==> r == [] || r[|r| - 1] != []
  {
    if ',' !in s then [s] else DropTrailingEmpty(Pieces(s, ','))
  }

  lemma {:induction false} JoinCons(p: string, ps: seq<string>, sep: string)
    requires ps != []
    ensures Join([p] + ps, sep) == p + sep + Join(ps, sep)
  {
    assert ([p] + ps)[1..] == ps;
  }

  /** Extending the first piece extends the join by the same prefix. */
  lemma ExtendHead(c: string, ps: seq<string>, sep: string)
    requires ps != []
    ensures Join([c + ps[0]] + ps[1..], sep) == c + Join(ps, sep)
  {
    if |ps| == 1 {
      assert [c + ps[0]] + ps[1..] == [c + ps[0]];
    } else {
      JoinCons(c + ps[0], ps[1..], sep);
      assert [ps[0]] + ps[1..] == ps;
      JoinCons(ps[0], ps[1..], sep);
    }
  }

  /** Splitting at every `sep` and joining with `sep` gives the string back. */
  lemma {:induction false} JoinPieces(s: string, sep: char)
    ensures Join(Pieces(s, sep), [sep]) == s
  {
    if s != [] {
      var rest := Pieces(s[1..], sep);
      JoinPieces(s[1..], sep);
      if s[0] == sep {
        JoinCons([], rest, [sep]);
      } else {
        ExtendHead([s[0]], rest, [sep]);
      }
    }
  }

  /** A `sep`-free prefix only extends the first piece. */
  lemma {:induction false} PiecesPrefix(p: string, t: string, sep: char)
    requires sep !in p
    ensures Pieces(p + t, sep) == [p + Pieces(t, sep)[0]] + Pieces(t, sep)[1..]
  {
    if p == [] {
      var r := Pieces(t, sep);
      assert p + t == t;
      assert p + r[0] == r[0];
      assert [r[0]] + r[1..] == r;
    } else {
      var q, r := p + t, Pieces(t, sep);
      assert q[0] == p[0] && q[1..] == p[1..] + t;
      PiecesPrefix(p[1..], t, sep);
      var rest := Pieces(q[1..], sep);
      assert rest[0] == p[1..] + r[0] && rest[1..] == r[1..];
      assert Pieces(q, sep) == [[q[0]] + rest[0]] + rest[1..];
      assert [p[0]] + (p[1..] + r[0]) == p + r[0];
    }
  }

  /** Joining pieces that hold no `sep` and splitting again gives the pieces back. */
  lemma {:induction false} PiecesJoin(ps: seq<string>, sep: char)
    requires ps != []
    requires forall i, k :: 0 <= i < |ps| && 0 <= k < |ps[i]| ==> ps[i][k] != sep
    ensures Pieces(Join(ps, [sep]), sep) == ps
  {
    assert sep !in ps[0] by {
      forall k | 0 <= k < |ps[0]| ensures ps[0][k] != sep {
        assert ps[0][k] != sep;
      }
    }
    if |ps| > 1 {
      var tl := ps[1..];
      assert forall i, k :: 0 <= i < |tl| && 0 <= k < |tl[i]| ==> tl[i][k] != sep by {
        forall i, k | 0 <= i < |tl| && 0 <= k < |tl[i]| ensures tl[i][k] != sep {
          assert tl[i] == ps[i + 1];
        }
      }
      var tail := Join(tl, [sep]);
      PiecesJoin(tl, sep);
      var u := [sep] + tail;
      assert u[0] == sep && u[1..] == tail;
      var r := Pieces(u, sep);
      assert r == [[]] + tl;
      assert Join(ps, [sep]) == ps[0] + u;
      PiecesPrefix(ps[0], u, sep);
      assert ps[0] + r[0] == ps[0];
      assert r[1..] == tl;
      assert [ps[0]] + tl == ps;
    }
  }

  function Commas(n: nat): (r: string)
    ensures |r| == n && forall k :: 0 <= k < n ==> r[k] == ','
  {
    if n == 0 then [] else Commas(n - 1) + [',']
  }

  lemma {:induction false} JoinEmptyTail(ps: seq<string>, n: nat)
    requires ps != []
    ensures Join(ps + seq(n, _ => []), ",") == Join(ps, ",") + Commas(n)
    decreases |ps|, n
  {
    var es := seq(n, _ => []);
    if n > 0 {
      var es' := seq(n - 1, _ => []);
      assert ps + es == (ps + es') + [[]];
      JoinEmptyTail(ps, n - 1);
      JoinSnoc(ps + es', [], ",");
    } else {
      assert ps + es == ps;
    }
  }

  lemma {:induction false} JoinSnoc(ps: seq<string>, p: string, sep: string)
    requires ps != []
    ensures Join(ps + [p], sep) == Join(ps, sep) + sep + p
    decreases |ps|
  {
    if |ps| == 1 {
      assert ps + [p] == [ps[0]] + [p];
      JoinCons(ps[0], [p], sep);
    } else {
      assert ps + [p] == [ps[0]] + (ps[1..] + [p]);
      JoinCons(ps[0], ps[1..] + [p], sep);
      JoinSnoc(ps[1..], p, sep);
      JoinCons(ps[0], ps[1..], sep);
      assert [ps[0]] + ps[1..] == ps;
    }
  }

  /**
   * What split(",") drops is only commas at the end: the input is the join of
   * the result followed by nothing but ','.
   */
  lemma SplitCommaRoundTrip(s: string)
    ensures var j := Join(SplitComma(s), ",");
      |j| <= |s| && s == j + Commas(|s| - |j|)
  {
    if ',' in s {
      var ps := Pieces(s, ',');
      var r := DropTrailingEmpty(ps);
      var n := |ps| - |r|;
      assert ps == r + seq(n, _ => []);
      JoinPieces(s, ',');
      if r != [] {
        JoinEmptyTail(r, n);
      } else {
        JoinAllEmpty(n);
      }
    }
  }

  /** Splitting a join of comma-free, non-empty-ended pieces gives them back. */
  lemma SplitCommaJoin(ps: seq<string>)
    requires |ps| >= 2 && ps[|ps| - 1] != []
    requires forall i, k :: 0 <= i < |ps| && 0 <= k < |ps[i]| ==> ps[i][k] != ','
    ensures SplitComma(Join(ps, ",")) == ps
  {
    PiecesJoin(ps, ',');
    var j := Join(ps, ",");
    JoinCons(ps[0], ps[1..], ",");
    assert j[|ps[0]|] == ',';
  }

  lemma {:induction false} JoinAllEmpty(n: nat)
    requires n >= 1
    ensures Join(seq(n, _ => []), ",") == Commas(n - 1)
  {
    if n > 1 {
      JoinEmptyTail([""], n - 1);
      assert [""] + seq(n - 1, _ => "") == seq(n, _ => "");
    }
  }

  /**
   * The StringBuilder loop the source uses to join: append each part, and the
   * separator after every part but the last.
   */
  method AppendJoined(head: string, parts: seq<string>, sep: string) returns (text: string)
    ensures text == head + Join(parts, sep)
  {
    text := head;
    for i := 0 to |parts|
      invariant text == head + Join(parts[..i], sep) + (if 0 < i < |parts| then sep else "")
    {
      assert parts[..i + 1] == parts[..i] + [parts[i]];
      if i > 0 {
        JoinSnoc(parts[..i], parts[i], sep);
      }
      text := text + parts[i];
      if i < |parts| - 1 {
        text := text + sep;
      }
    }
    assert parts[..|parts|] == parts;
  }

  // ---------------------------------------------------------------------------
  // Decimal rendering of integers (String.valueOf(long), "%d").

  function DigitChar(d: int): char
    requires 0 <= d <= 9
  {
    ['0', '1', '2', '3', '4', '5', '6', '7', '8', '9'][d]
  }

  function Digits(n: nat): string
    decreases n
  {
    if n < 10 then [DigitChar(n)] else Digits(n / 10) + [DigitChar(n % 10)]
  }

  function ShowInt(n: int): string
  {
    if n < 0 then "-" + Digits(-n) else Digits(n)
  }
}
