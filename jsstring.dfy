/** The JavaScript string primitives the tutor relies on, over Dafny strings
    (sequences of Unicode scalar values): `split` on a literal separator and on a
    character-class run (`/\s+/`, `/[.!?]+/`), `indexOf`, `includes`, `startsWith`,
    `trim`, ASCII `toLowerCase`, `.length` in UTF-16 code units, integer printing
    and `padStart`. */
module JsString {

  /** JavaScript's WhiteSpace and LineTerminator code points: what `\s` matches
      and what `trim()` strips. */
  predicate IsSpace(c: char) {
    || c == '\t' || c == '\n' || c == '\U{B}' || c == '\U{C}' || c == '\r' || c == ' '
    || c == '\U{A0}' || c == '\U{1680}' || ('\U{2000}' <= c <= '\U{200A}')
    || c == '\U{2028}' || c == '\U{2029}' || c == '\U{202F}' || c == '\U{205F}'
    || c == '\U{3000}' || c == '\U{FEFF}'
  }

  /** The class `[.!?]`. */
  predicate IsSentenceEnd(c: char) {
    c == '.' || c == '!' || c == '?'
  }

  /** The class `\w` (no `u` flag): ASCII letters, digits and underscore. */
  predicate IsWordChar(c: char) {
    ('a' <= c <= 'z') || ('A' <= c <= 'Z') || ('0' <= c <= '9') || c == '_'
  }

  predicate IsAsciiUpper(c: char) {
    'A' <= c <= 'Z'
  }

  /** The two character classes whose runs the tutor splits on. */
  datatype CharClass = Whitespace | SentenceEnd

  predicate InClass(c: char, k: CharClass) {
    match k
    case Whitespace => IsSpace(c)
    case SentenceEnd => IsSentenceEnd(c)
  }

  // ---------------------------------------------------------------- case

  function LowerChar(c: char): char {
    if IsAsciiUpper(c) then (c as int + 32) as char else c
  }

  /** `s.toLowerCase()` restricted to the ASCII letters. */
  function Lower(s: string): string {
    seq(|s|, i requires 0 <= i < |s| => LowerChar(s[i]))
  }

  lemma LowerConcat(a: string, b: string)
    ensures Lower(a + b) == Lower(a) + Lower(b)
  {
  }

  lemma LowerSlice(s: string, i: nat, j: nat)
    requires i <= j <= |s|
    ensures Lower(s)[i..j] == Lower(s[i..j])
  {
  }

  /** A string with no ASCII capital is its own lower case. */
  lemma LowerOfLower(s: string)
    requires forall i :: 0 <= i < |s| ==> !IsAsciiUpper(s[i])
    ensures Lower(s) == s
  {
  }

  // ---------------------------------------------------------------- length

  /** `s.length`: the number of UTF-16 code units, two for a code point above U+FFFF. */
  function Utf16Length(s: string): (n: nat)
    ensures |s| <= n <= 2 * |s|
  {
    if s == [] then 0 else (if s[0] as int > 0xFFFF then 2 else 1) + Utf16Length(s[1..])
  }

  // ---------------------------------------------------------------- search

  /** `t` occurs in `s` starting at position `k`. */
  predicate OccursAt(s: string, t: string, k: nat) {
    k + |t| <= |s| && s[k..k + |t|] == t
  }

  /** `s.indexOf(t, from)` for a start position inside the string: the first
      occurrence at or after `from`, or -1. */
  function IndexOf(s: string, t: string, from: nat): (r: int)
    requires from <= |s|
    ensures r == -1 || (from <= r && OccursAt(s, t, r))
    ensures forall k: nat :: from <= k && (r == -1 || k < r) ==> !OccursAt(s, t, k)
    decreases |s| - from
  {
    if from + |t| > |s| then -1
    else if s[from..from + |t|] == t then from
    else IndexOf(s, t, from + 1)
  }

  /** `s.includes(t)`. */
  predicate Includes(s: string, t: string)
  {
    IndexOf(s, t, 0) >= 0
  }

  lemma IncludesIff(s: string, t: string)
    ensures Includes(s, t) <==> exists k: nat :: OccursAt(s, t, k)
  {
  }

  lemma IncludesAt(s: string, t: string, k: nat)
    requires OccursAt(s, t, k)
    ensures Includes(s, t)
  {
  }

  /** Whatever occurs in `s` around `b` makes `b` occur in `s`. */
  lemma IncludesPart(s: string, a: string, b: string, c: string)
    requires Includes(s, a + b + c)
    ensures Includes(s, b)
  {
    IncludesInConcat(a, b, c, b) by { IncludesSelf(b); }
    IncludesTrans(s, a + b + c, b);
  }

  /** The window of `s` at `k` differs from `t` at offset `d1` or `d2`. */
  predicate DiffersAt(s: string, t: string, k: nat, d1: nat, d2: nat)
    requires d1 < |t| && d2 < |t| && k + |t| <= |s|
  {
    s[k + d1] != t[d1] || s[k + d2] != t[d2]
  }

  /** `t` does not occur in `s` when every window of `s` differs from `t` at one
      of two fixed offsets. */
  lemma NotIncludedBy(s: string, t: string, d1: nat, d2: nat)
    requires d1 < |t| && d2 < |t|
    requires forall k: nat :: k + |t| <= |s| ==> DiffersAt(s, t, k, d1, d2)
    ensures !Includes(s, t)
  {
    forall k: nat | k + |t| <= |s| ensures !OccursAt(s, t, k) {
      assert DiffersAt(s, t, k, d1, d2);
      assert s[k..k + |t|][d1] == s[k + d1];
      assert s[k..k + |t|][d2] == s[k + d2];
    }
    IncludesIff(s, t);
  }

  /** An occurrence established character by character. */
  lemma OccursAtPointwise(s: string, t: string, k: nat)
    requires k + |t| <= |s|
    requires forall i :: 0 <= i < |t| ==> s[k + i] == t[i]
    ensures OccursAt(s, t, k)
  {
    assert s[k..k + |t|] == t;
  }

  /** `s.startsWith(t)`. */
  predicate StartsWith(s: string, t: string) {
    |t| <= |s| && s[..|t|] == t
  }

  predicate EndsWith(s: string, t: string) {
    |t| <= |s| && s[|s| - |t|..] == t
  }

  lemma IncludesSelf(s: string)
    ensures Includes(s, s)
  {
    IncludesAt(s, s, 0);
  }

  /** Whatever occurs in a part of a concatenation occurs in the whole. */
  lemma IncludesInConcat(a: string, b: string, c: string, t: string)
    requires Includes(b, t)
    ensures Includes(a + b + c, t)
  {
    var k := IndexOf(b, t, 0);
    assert (a + b + c)[|a| + k..|a| + k + |t|] == b[k..k + |t|];
    IncludesAt(a + b + c, t, |a| + k);
  }

  lemma IncludesTrans(s: string, u: string, t: string)
    requires Includes(s, u) && Includes(u, t)
    ensures Includes(s, t)
  {
    var i := IndexOf(s, u, 0);
    var j := IndexOf(u, t, 0);
    assert OccursAt(s, u, i) && OccursAt(u, t, j);
    assert s[i + j..i + j + |t|] == s[i..i + |u|][j..j + |t|];
    IncludesAt(s, t, i + j);
  }

  /** Lower-casing keeps every occurrence. */
  lemma IncludesLower(s: string, t: string)
    requires Includes(s, t)
    ensures Includes(Lower(s), Lower(t))
  {
    var k := IndexOf(s, t, 0);
    LowerSlice(s, k, k + |t|);
    IncludesAt(Lower(s), Lower(t), k);
  }

  // ---------------------------------------------------------------- split on a literal

  /** `s.split(sep)` for a non-empty literal separator. */
  function Split(s: string, sep: string): (r: seq<string>)
    requires |sep| > 0
    ensures |r| >= 1
    decreases |s|
  {
    var i := IndexOf(s, sep, 0);
    if i < 0 then [s] else [s[..i]] + Split(s[i + |sep|..], sep)
  }

  /** One step of the split at the first occurrence `i` of the separator. */
  lemma SplitUnfold(s: string, sep: string, i: int)
    requires |sep| > 0 && i == IndexOf(s, sep, 0) && i >= 0
    ensures Split(s, sep) == [s[..i]] + Split(s[i + |sep|..], sep)
  {
  }

  /** `s.split(sep).length - 1`: the leftmost non-overlapping occurrences of `sep`. */
  function Count(s: string, sep: string): nat
    requires |sep| > 0
  {
    |Split(s, sep)| - 1
  }

  lemma CountPositive(s: string, sep: string)
    requires |sep| > 0 && Includes(s, sep)
    ensures Count(s, sep) >= 1
  {
  }

  lemma CountZero(s: string, sep: string)
    requires |sep| > 0 && !Includes(s, sep)
    ensures Count(s, sep) == 0
  {
  }

  /** No piece of `s.split(sep)` contains the separator. */
  lemma {:induction false} SplitPiecesExcludeSeparator(s: string, sep: string)
    requires |sep| > 0
    ensures forall p :: p in Split(s, sep) ==> !Includes(p, sep)
    decreases |s|
  {
    var i := IndexOf(s, sep, 0);
    if i >= 0 {
      SplitUnfold(s, sep, i);
      SplitPiecesExcludeSeparator(s[i + |sep|..], sep);
      if Includes(s[..i], sep) {
        var k := IndexOf(s[..i], sep, 0);
        assert s[..i][k..k + |sep|] == s[k..k + |sep|];
        assert OccursAt(s, sep, k);
        assert false;
      }
    }
  }

  /** A piece of `s.split(" ")` has no space in it. */
  lemma SpaceSplitPiecesHaveNoSpace(s: string)
    ensures forall p :: p in Split(s, " ") ==> ' ' !in p
  {
    SplitPiecesExcludeSeparator(s, " ");
    forall p | p in Split(s, " ") ensures ' ' !in p {
      if ' ' in p {
        var k :| 0 <= k < |p| && p[k] == ' ';
        assert p[k..k + 1] == " ";
        IncludesAt(p, " ", k);
      }
    }
  }

  /** A string with no occurrence of the separator is split into itself alone. */
  lemma SplitWithoutSeparator(s: string, sep: string)
    requires |sep| > 0 && !Includes(s, sep)
    ensures Split(s, sep) == [s]
  {
  }

  // ---------------------------------------------------------------- split on a class run

  /** The length of the longest prefix whose characters are all inside (or all
      outside) the class. */
  function RunLength(s: string, k: CharClass, inside: bool): (n: nat)
    ensures n <= |s|
    ensures forall i :: 0 <= i < n ==> InClass(s[i], k) == inside
    ensures n < |s| ==> InClass(s[n], k) != inside
  {
    if s == [] || InClass(s[0], k) != inside then 0 else 1 + RunLength(s[1..], k, inside)
  }

  /** `s.split(/C+/)` for the class C: the pieces between maximal runs of class
      characters, with an empty first or last piece when `s` starts or ends with
      such a run, and `[""]` for the empty string. */
  function SplitRuns(s: string, k: CharClass): (r: seq<string>)
    ensures |r| >= 1
    decreases |s|
  {
    var n := RunLength(s, k, false);
    if n == |s| then [s]
    else
      var m := RunLength(s[n..], k, true);
      [s[..n]] + SplitRuns(s[n + m..], k)
  }

  /** No piece holds a character of the class it was split on. */
  lemma {:induction false} SplitRunsPiecesOutside(s: string, k: CharClass)
    ensures forall p, i :: p in SplitRuns(s, k) && 0 <= i < |p| ==> !InClass(p[i], k)
    decreases |s|
  {
    var n := RunLength(s, k, false);
    if n < |s| {
      var m := RunLength(s[n..], k, true);
      SplitRunsUnfold(s, k, n, m);
      SplitRunsPiecesOutside(s[n + m..], k);
    }
  }

  /** One step of the split: the first piece, then the split of what follows
      the first run of class characters. */
  lemma SplitRunsUnfold(s: string, k: CharClass, n: nat, m: nat)
    requires n == RunLength(s, k, false) && n < |s|
    requires m == RunLength(s[n..], k, true)
    ensures SplitRuns(s, k) == [s[..n]] + SplitRuns(s[n + m..], k)
  {
  }

  /** A string holding no character of the class is not split at all. */
  lemma SplitRunsWithoutClass(s: string, k: CharClass)
    requires forall i :: 0 <= i < |s| ==> !InClass(s[i], k)
    ensures SplitRuns(s, k) == [s]
  {
  }

  /** Every character outside the class survives in some piece. */
  lemma {:induction false} SplitRunsKeepsOutsideChars(s: string, k: CharClass, j: nat)
    requires j < |s| && !InClass(s[j], k)
    ensures exists p, i :: p in SplitRuns(s, k) && 0 <= i < |p| && p[i] == s[j]
    decreases |s|
  {
    var n := RunLength(s, k, false);
    if n == |s| {
      assert SplitRuns(s, k)[0] == s;
    } else if j < n {
      var m := RunLength(s[n..], k, true);
      SplitRunsUnfold(s, k, n, m);
      assert SplitRuns(s, k)[0] == s[..n] && s[..n][j] == s[j];
    } else {
      var m := RunLength(s[n..], k, true);
      SplitRunsUnfold(s, k, n, m);
      assert j >= n + m;
      var rest := s[n + m..];
      assert rest[j - (n + m)] == s[j];
      SplitRunsKeepsOutsideChars(rest, k, j - (n + m));
      var p, i :| p in SplitRuns(rest, k) && 0 <= i < |p| && p[i] == s[j];
      assert p in SplitRuns(s, k);
    }
  }

  /** Every character of a piece comes from the split string. */
  lemma {:induction false} SplitRunsPiecesFromSource(s: string, k: CharClass)
    ensures forall p, i :: p in SplitRuns(s, k) && 0 <= i < |p| ==> p[i] in s
    decreases |s|
  {
    var n := RunLength(s, k, false);
    if n < |s| {
      var m := RunLength(s[n..], k, true);
      SplitRunsUnfold(s, k, n, m);
      var rest := s[n + m..];
      SplitRunsPiecesFromSource(rest, k);
      forall p, i | p in SplitRuns(s, k) && 0 <= i < |p| ensures p[i] in s {
        if p == s[..n] {
          assert p[i] == s[i];
        } else {
          assert p in SplitRuns(rest, k);
          var j :| 0 <= j < |rest| && rest[j] == p[i];
          assert s[n + m + j] == p[i];
        }
      }
    }
  }

  /** `s.split(/\s+/)`. */
  function SplitWords(s: string): seq<string> {
    SplitRuns(s, Whitespace)
  }

  // ---------------------------------------------------------------- trim

  function TrimStart(s: string): string {
    s[RunLength(s, Whitespace, true)..]
  }

  function TrimEnd(s: string): string {
    if s != [] && IsSpace(s[|s| - 1]) then TrimEnd(s[..|s| - 1]) else s
  }

  /** `s.trim()`. */
  function Trim(s: string): string {
    TrimEnd(TrimStart(s))
  }

  lemma {:induction false} TrimEndKeepsPrefix(s: string)
    ensures |TrimEnd(s)| <= |s| && TrimEnd(s) == s[..|TrimEnd(s)|]
    ensures forall i :: |TrimEnd(s)| <= i < |s| ==> IsSpace(s[i])
    ensures TrimEnd(s) != [] ==> !IsSpace(TrimEnd(s)[|TrimEnd(s)| - 1])
  {
    if s != [] && IsSpace(s[|s| - 1]) {
      TrimEndKeepsPrefix(s[..|s| - 1]);
    }
  }

  /** `s.trim()` is a slice of `s` that neither starts nor ends with white space,
      and everything cut off is white space. */
  lemma TrimIsCore(s: string)
    ensures exists lo, hi ::
              && 0 <= lo <= hi <= |s| && Trim(s) == s[lo..hi]
              && (forall i :: 0 <= i < lo ==> IsSpace(s[i]))
              && (forall i :: hi <= i < |s| ==> IsSpace(s[i]))
    ensures Trim(s) != [] ==> !IsSpace(Trim(s)[0]) && !IsSpace(Trim(s)[|Trim(s)| - 1])
  {
    var lo := RunLength(s, Whitespace, true);
    TrimEndKeepsPrefix(s[lo..]);
    var hi := lo + |TrimEnd(s[lo..])|;
    assert Trim(s) == s[lo..hi];
    forall i | hi <= i < |s| ensures IsSpace(s[i]) {
      assert s[lo..][i - lo] == s[i];
    }
  }

  /** Trimming adds no character: one absent from `s` is absent from `s.trim()`. */
  lemma TrimOmits(s: string, c: char)
    requires forall i :: 0 <= i < |s| ==> s[i] != c
    ensures forall i :: 0 <= i < |Trim(s)| ==> Trim(s)[i] != c
  {
    TrimIsCore(s);
    var lo, hi :| 0 <= lo <= hi <= |s| && Trim(s) == s[lo..hi];
    forall i | 0 <= i < |Trim(s)| ensures Trim(s)[i] != c {
      assert Trim(s)[i] == s[lo + i];
    }
  }

  /** `s.trim().length > 0` exactly when `s` has a character that is not white space. */
  lemma TrimNonEmptyIff(s: string)
    ensures |Trim(s)| > 0 <==> exists i :: 0 <= i < |s| && !IsSpace(s[i])
  {
    TrimIsCore(s);
    var lo, hi :| 0 <= lo <= hi <= |s| && Trim(s) == s[lo..hi]
      && (forall i :: 0 <= i < lo ==> IsSpace(s[i]))
      && (forall i :: hi <= i < |s| ==> IsSpace(s[i]));
    if |Trim(s)| > 0 {
      assert !IsSpace(s[lo]);
    }
  }

  /** Trimming a string that neither starts nor ends with white space changes nothing. */
  lemma TrimUntouched(s: string)
    requires s == [] || (!IsSpace(s[0]) && !IsSpace(s[|s| - 1]))
    ensures Trim(s) == s
  {
  }

  /** A lower-case string without surrounding white space is its own
      `trim().toLowerCase()`. */
  lemma LowerTrimUntouched(s: string)
    requires s == [] || (!IsSpace(s[0]) && !IsSpace(s[|s| - 1]))
    requires forall i :: 0 <= i < |s| ==> !IsAsciiUpper(s[i])
    ensures Lower(Trim(s)) == s
  {
    TrimUntouched(s);
    LowerOfLower(s);
  }

  // ---------------------------------------------------------------- \w filter

  /** `s.replace(/[^\w]/g, '')`. */
  function KeepWordChars(s: string): (r: string)
    ensures forall i :: 0 <= i < |r| ==> IsWordChar(r[i])
    ensures forall c :: c in r ==> c in s
    ensures (forall i :: 0 <= i < |s| ==> IsWordChar(s[i])) ==> r == s
  {
    if s == [] then []
    else (if IsWordChar(s[0]) then [s[0]] else []) + KeepWordChars(s[1..])
  }

  /** `items.join(',')`: the texts separated by commas. */
  function Join(items: seq<string>): string {
    if items == [] then ""
    else if |items| == 1 then items[0]
    else items[0] + "," + Join(items[1..])
  }

  lemma {:induction false} JoinIncludesItem(items: seq<string>, i: nat)
    requires i < |items|
    ensures Includes(Join(items), items[i])
  {
    IncludesSelf(items[i]);
    if |items| == 1 {
    } else if i == 0 {
      IncludesInConcat("", items[0], "," + Join(items[1..]), items[0]);
      assert "" + items[0] + ("," + Join(items[1..])) == Join(items);
    } else {
      JoinIncludesItem(items[1..], i - 1);
      IncludesInConcat(items[0] + ",", Join(items[1..]), "", items[i]);
      assert items[0] + "," + Join(items[1..]) + "" == Join(items);
    }
  }

  // ---------------------------------------------------------------- numbers

  function DigitChar(d: nat): char
    requires d < 10
  {
    ('0' as int + d) as char
  }

  /** `n.toString()` for a non-negative integer. */
  function NatToString(n: nat): (r: string)
    ensures |r| >= 1
    ensures forall i :: 0 <= i < |r| ==> '0' <= r[i] <= '9'
  {
    if n < 10 then [DigitChar(n)] else NatToString(n / 10) + [DigitChar(n % 10)]
  }

  /** `String(n)` for an integer, which is also how JSON writes it. */
  function IntToString(n: int): string {
    if n < 0 then "-" + NatToString(-n) else NatToString(n)
  }

  /** A printed integer starts with a minus sign or a digit. */
  lemma IntToStringStart(n: int)
    ensures |IntToString(n)| >= 1
    ensures IntToString(n)[0] == '-' || '0' <= IntToString(n)[0] <= '9'
  {
  }

  /** The value of a string of decimal digits. */
  function DigitsValue(s: string): nat
    requires forall i :: 0 <= i < |s| ==> '0' <= s[i] <= '9'
  {
    if s == [] then 0 else 10 * DigitsValue(s[..|s| - 1]) + (s[|s| - 1] as int - '0' as int)
  }

  /** Printing a number and reading its digits back gives the number. */
  lemma {:induction false} NatToStringRoundTrip(n: nat)
    ensures DigitsValue(NatToString(n)) == n
  {
    if n >= 10 {
      NatToStringRoundTrip(n / 10);
      var s := NatToString(n);
      assert s[..|s| - 1] == NatToString(n / 10);
    }
  }

  /** Numbers below 10 print as one digit, the others as more. */
  lemma NatToStringLength(n: nat)
    ensures n < 10 <==> |NatToString(n)| == 1
  {
  }

  /** Leading zeros add nothing to the value. */
  lemma {:induction false} DigitsValueLeadingZeros(z: nat, s: string)
    requires forall i :: 0 <= i < |s| ==> '0' <= s[i] <= '9'
    ensures DigitsValue(seq(z, _ => '0') + s) == DigitsValue(s)
    decreases |s|
  {
    var t := seq(z, _ => '0') + s;
    if s == [] {
      ZerosValue(z);
      assert t == seq(z, _ => '0');
    } else {
      assert t[..|t| - 1] == seq(z, _ => '0') + s[..|s| - 1];
      DigitsValueLeadingZeros(z, s[..|s| - 1]);
    }
  }

  lemma {:induction false} ZerosValue(z: nat)
    ensures DigitsValue(seq(z, _ => '0')) == 0
  {
    if z > 0 {
      assert seq(z, _ => '0')[..z - 1] == seq(z - 1, _ => '0');
      ZerosValue(z - 1);
    }
  }

  /** `s.padStart(width, c)` for a one-character pad. */
  function PadStart(s: string, width: nat, c: char): (r: string)
    ensures |r| == if |s| >= width then |s| else width
  {
    if |s| >= width then s else seq(width - |s|, _ => c) + s
  }
}
