/** String helpers mirroring the JavaScript string operations the services
    rely on: truthiness of optional strings, case folding, `replace` with a
    string pattern, `String(n)` on integers, and `join`/`split`. */
module Text {
  import opened Wrappers

  // ---------------------------------------------------------------------
  // JavaScript truthiness of optional strings
  // ---------------------------------------------------------------------

  /** True when `o` is a truthy string in JavaScript: present and non-empty. */
  predicate Truthy(o: Option<string>) {
    o.Some? && o.value != ""
  }

  /** `o || d` for an optional string `o` and a string default `d`. */
  function OrElse(o: Option<string>, d: string): (r: string)
    ensures Truthy(o) ==> r == o.value
    ensures !Truthy(o) ==> r == d
  {
    if Truthy(o) then o.value else d
  }

  /** `o || null`: the empty string collapses to `null`. */
  function OrNull(o: Option<string>): (r: Option<string>)
    ensures r.Some? <==> Truthy(o)
    ensures r.Some? ==> r == o
  {
    if Truthy(o) then o else None
  }

  /** `a || b` for two optional strings. */
  function OrOption(a: Option<string>, b: Option<string>): (r: Option<string>)
    ensures Truthy(a) ==> r == a
    ensures !Truthy(a) ==> r == b
  {
    if Truthy(a) then a else b
  }

  // ---------------------------------------------------------------------
  // Case folding, restricted to ASCII and the Polish letters
  // ---------------------------------------------------------------------

  /** The nine Polish capitals with diacritics: Ą Ć Ę Ł Ń Ó Ś Ź Ż. */
  predicate IsPolishUpper(c: char) {
    c == 'Ą' || c == 'Ć' || c == 'Ę' || c == 'Ł' || c == 'Ń' || c == 'Ó' || c == 'Ś' || c == 'Ź' || c == 'Ż'
  }

  /** Their small letters: ą ć ę ł ń ó ś ź ż. */
  predicate IsPolishLower(c: char) {
    c == 'ą' || c == 'ć' || c == 'ę' || c == 'ł' || c == 'ń' || c == 'ó' || c == 'ś' || c == 'ź' || c == 'ż'
  }

  function LowerChar(c: char): (r: char)
    ensures 'A' <= c <= 'Z' ==> r as int == c as int + 32
    ensures !('A' <= c <= 'Z') && !IsPolishUpper(c) ==> r == c
  {
    if 'A' <= c <= 'Z' then (c as int + 32) as char
    else if c == 'Ą' then 'ą'
    else if c == 'Ć' then 'ć'
    else if c == 'Ę' then 'ę'
    else if c == 'Ł' then 'ł'
    else if c == 'Ń' then 'ń'
    else if c == 'Ó' then 'ó'
    else if c == 'Ś' then 'ś'
    else if c == 'Ź' then 'ź'
    else if c == 'Ż' then 'ż'
    else c
  }

  function UpperChar(c: char): (r: char)
    ensures 'a' <= c <= 'z' ==> r as int == c as int - 32
    ensures !('a' <= c <= 'z') && !IsPolishLower(c) ==> r == c
  {
    if 'a' <= c <= 'z' then (c as int - 32) as char
    else if c == 'ą' then 'Ą'
    else if c == 'ć' then 'Ć'
    else if c == 'ę' then 'Ę'
    else if c == 'ł' then 'Ł'
    else if c == 'ń' then 'Ń'
    else if c == 'ó' then 'Ó'
    else if c == 'ś' then 'Ś'
    else if c == 'ź' then 'Ź'
    else if c == 'ż' then 'Ż'
    else c
  }

  /** `s.toLowerCase()` on the modelled alphabet. */
  function Lower(s: string): (r: string)
    ensures |r| == |s|
    ensures forall i :: 0 <= i < |s| ==> r[i] == LowerChar(s[i])
  {
    seq(|s|, i requires 0 <= i < |s| => LowerChar(s[i]))
  }

  /** `s.toUpperCase()` on the modelled alphabet. */
  function Upper(s: string): (r: string)
    ensures |r| == |s|
    ensures forall i :: 0 <= i < |s| ==> r[i] == UpperChar(s[i])
  {
    seq(|s|, i requires 0 <= i < |s| => UpperChar(s[i]))
  }

  /** Lower-casing forgets the case of its input: what comes out is the same
      whether the input was first upper-cased, lower-cased, or left alone. */
  lemma LowerForgetsCase(s: string)
    ensures Lower(Lower(s)) == Lower(s)
    ensures Lower(Upper(s)) == Lower(s)
  {
    forall i | 0 <= i < |s| ensures Lower(Lower(s))[i] == Lower(s)[i] && Lower(Upper(s))[i] == Lower(s)[i] {
      CharForgetsCase(s[i]);
    }
  }

  lemma UpperForgetsCase(s: string)
    ensures Upper(Upper(s)) == Upper(s)
    ensures Upper(Lower(s)) == Upper(s)
  {
    forall i | 0 <= i < |s| ensures Upper(Upper(s))[i] == Upper(s)[i] && Upper(Lower(s))[i] == Upper(s)[i] {
      CharForgetsCase(s[i]);
    }
  }

  /** The same for one character, in both directions. */
  lemma CharForgetsCase(c: char)
    ensures LowerChar(LowerChar(c)) == LowerChar(c) && LowerChar(UpperChar(c)) == LowerChar(c)
    ensures UpperChar(UpperChar(c)) == UpperChar(c) && UpperChar(LowerChar(c)) == UpperChar(c)
  {
    if 'A' <= c <= 'Z' || 'a' <= c <= 'z' {
    } else if IsPolishUpper(c) || IsPolishLower(c) {
    } else {
      assert LowerChar(c) == c && UpperChar(c) == c;
    }
  }

  /** Folds each of the nine Polish letters, in both cases, to its ASCII base
      letter; every other character is left alone. */
  function FoldChar(c: char): char {
    match c
    case 'ą' => 'a' case 'ć' => 'c' case 'ę' => 'e' case 'ł' => 'l' case 'ń' => 'n'
    case 'ó' => 'o' case 'ś' => 's' case 'ź' => 'z' case 'ż' => 'z'
    case 'Ą' => 'A' case 'Ć' => 'C' case 'Ę' => 'E' case 'Ł' => 'L' case 'Ń' => 'N'
    case 'Ó' => 'O' case 'Ś' => 'S' case 'Ź' => 'Z' case 'Ż' => 'Z'
    case _ => c
  }

  predicate IsPolishLetter(c: char) {
    IsPolishUpper(c) || IsPolishLower(c)
  }

  function Fold(s: string): (r: string)
    ensures |r| == |s|
    ensures forall i :: 0 <= i < |s| ==> r[i] == FoldChar(s[i])
  {
    seq(|s|, i requires 0 <= i < |s| => FoldChar(s[i]))
  }

  /** Folding a string strips every diacritic and changes nothing else, so
      folding twice is folding once. */
  lemma FoldStripsDiacritics(s: string)
    ensures Fold(Fold(s)) == Fold(s)
    ensures forall i :: 0 <= i < |s| ==> !IsPolishLetter(Fold(s)[i])
    ensures forall i :: 0 <= i < |s| ==> (Fold(s)[i] != s[i] <==> IsPolishLetter(s[i]))
  {
    forall i | 0 <= i < |s| ensures Fold(Fold(s))[i] == Fold(s)[i] && !IsPolishLetter(Fold(s)[i]) {
      FoldCharSpec(s[i]);
    }
  }

  /** Folding sends exactly the eighteen Polish letters to ASCII letters and
      fixes every other character; so it is idempotent. */
  lemma FoldCharSpec(c: char)
    ensures IsPolishLetter(c) ==> FoldChar(c) != c && ('a' <= FoldChar(c) <= 'z' || 'A' <= FoldChar(c) <= 'Z')
    ensures !IsPolishLetter(c) ==> FoldChar(c) == c
    ensures FoldChar(FoldChar(c)) == FoldChar(c)
  {
  }

  // ---------------------------------------------------------------------
  // Substrings and `String.prototype.replace` with a string pattern
  // ---------------------------------------------------------------------

  /** `pat` occurs in `s` starting at index `i`. */
  predicate IsAt(s: string, pat: string, i: int) {
    0 <= i && i + |pat| <= |s| && s[i..i + |pat|] == pat
  }

  predicate Contains(s: string, pat: string) {
    exists i :: 0 <= i <= |s| && IsAt(s, pat, i)
  }

  /** The first index at or after `from` where `pat` occurs (`indexOf`). */
  function IndexFrom(s: string, pat: string, from: nat): (r: Option<nat>)
    decreases |s| - from
    ensures r.Some? ==> from <= r.value && IsAt(s, pat, r.value)
    ensures r.Some? ==> forall j :: from <= j < r.value ==> !IsAt(s, pat, j)
    ensures r.None? ==> forall j :: from <= j ==> !IsAt(s, pat, j)
  {
    if from + |pat| > |s| then None
    else if s[from..from + |pat|] == pat then Some(from)
    else IndexFrom(s, pat, from + 1)
  }

  function IndexOf(s: string, pat: string): (r: Option<nat>)
    ensures r.Some? ==> IsAt(s, pat, r.value)
    ensures r.Some? ==> forall j :: 0 <= j < r.value ==> !IsAt(s, pat, j)
    ensures r.None? <==> !Contains(s, pat)
  {
    IndexFrom(s, pat, 0)
  }

  /** `s.replace(pat, rep)` with a plain string pattern: only the first
      occurrence is replaced; without one the string is returned unchanged. */
  function ReplaceFirst(s: string, pat: string, rep: string): (r: string)
    ensures !Contains(s, pat) ==> r == s
    ensures Contains(s, pat) ==>
      exists i :: 0 <= i <= |s| && IsAt(s, pat, i) && (forall j :: 0 <= j < i ==> !IsAt(s, pat, j))
                  && r == s[..i] + rep + s[i + |pat|..]
  {
    match IndexOf(s, pat)
    case None => s
    case Some(i) => s[..i] + rep + s[i + |pat|..]
  }

  /** A replacement whose second character differs from the pattern's
      changes the string whenever the pattern occurs. */
  lemma ReplaceFirstChanges(s: string, pat: string, rep: string)
    requires |rep| == |pat| >= 2 && rep[1] != pat[1]
    requires Contains(s, pat)
    ensures ReplaceFirst(s, pat, rep) != s
  {
    var i := IndexOf(s, pat).value;
    var r := ReplaceFirst(s, pat, rep);
    assert r[i + 1] == rep[1];
    assert s[i..i + |pat|][1] == pat[1];
  }

  /** Repeating a replacement changes nothing exactly when the first one
      left no occurrence of the pattern behind. */
  lemma ReplaceFirstTwiceIff(s: string, pat: string, rep: string)
    requires |rep| == |pat| >= 2 && rep[1] != pat[1]
    ensures var r := ReplaceFirst(s, pat, rep);
            ReplaceFirst(r, pat, rep) == r <==> !Contains(r, pat)
  {
    var r := ReplaceFirst(s, pat, rep);
    if Contains(r, pat) {
      ReplaceFirstChanges(r, pat, rep);
    }
  }

  /** Replacing a pattern by itself changes nothing. */
  lemma ReplaceFirstSelf(s: string, pat: string)
    ensures ReplaceFirst(s, pat, pat) == s
  {
    match IndexOf(s, pat)
    case None =>
    case Some(i) =>
      assert s[..i] + s[i..i + |pat|] + s[i + |pat|..] == s;
  }

  // ---------------------------------------------------------------------
  // `String(n)` on integers
  // ---------------------------------------------------------------------

  function DigitChar(d: nat): (r: char)
    requires d < 10
    ensures '0' <= r <= '9'
  {
    ('0' as int + d) as char
  }

  predicate AllDigits(s: string) {
    forall i :: 0 <= i < |s| ==> '0' <= s[i] <= '9'
  }

  /** Decimal rendering of a natural number, without leading zeros. */
  function NatToString(n: nat): (r: string)
    ensures |r| > 0 && AllDigits(r)
    ensures (r[0] == '0') <==> n == 0
    decreases n
  {
    if n < 10 then [DigitChar(n)]
    else NatToString(n / 10) + [DigitChar(n % 10)]
  }

  /** Reads back a string of decimal digits. */
  function DigitsValue(s: string): (r: nat)
    requires AllDigits(s)
  {
    if s == [] then 0
    else DigitsValue(s[..|s| - 1]) * 10 + (s[|s| - 1] as int - '0' as int)
  }

  /** `NatToString` is the decimal notation: reading it back gives `n`. */
  lemma {:induction false} NatToStringValue(n: nat)
    ensures DigitsValue(NatToString(n)) == n
    decreases n
  {
    var r := NatToString(n);
    if n >= 10 {
      NatToStringValue(n / 10);
      assert r[..|r| - 1] == NatToString(n / 10);
    }
  }

  /** `String(n)` for an integer `n`. */
  function IntToString(n: int): (r: string)
    ensures |r| > 0
    ensures n >= 0 ==> AllDigits(r)
    ensures n < 0 ==> r[0] == '-' && AllDigits(r[1..])
    ensures n >= 0 ==> DigitsValue(r) == n
    ensures n < 0 ==> DigitsValue(r[1..]) == -n
  {
    if n < 0 then
      NatToStringValue(-n);
      assert ("-" + NatToString(-n))[1..] == NatToString(-n);
      "-" + NatToString(-n)
    else
      NatToStringValue(n);
      NatToString(n)
  }

  // ---------------------------------------------------------------------
  // `Array.prototype.join` and `String.prototype.split`
  // ---------------------------------------------------------------------

  /** `xs.join([sep])`. */
  function Join(xs: seq<string>, sep: char): string {
    if xs == [] then ""
    else if |xs| == 1 then xs[0]
    else xs[0] + [sep] + Join(xs[1..], sep)
  }

  /** `s.split(sep)` on a one-character separator. */
  function Split(s: string, sep: char): (r: seq<string>)
    ensures |r| > 0
    ensures forall k :: 0 <= k < |r| ==> sep !in r[k]
    decreases |s|
  {
    if sep !in s then [s]
    else
      var i := FirstIndexOfChar(s, sep);
      [s[..i]] + Split(s[i + 1..], sep)
  }

  function FirstIndexOfChar(s: string, c: char): (i: nat)
    requires c in s
    ensures i < |s| && s[i] == c && c !in s[..i]
  {
    if s[0] == c then 0 else 1 + FirstIndexOfChar(s[1..], c)
  }

  lemma SplitCons(a: string, sep: char, b: string)
    requires sep !in a
    ensures Split(a + [sep] + b, sep) == [a] + Split(b, sep)
  {
    var s := a + [sep] + b;
    assert s[|a|] == sep;
    var i := FirstIndexOfChar(s, sep);
    assert forall j :: 0 <= j < |a| ==> s[j] == a[j];
    assert i == |a|;
    assert s[..i] == a;
    assert s[i + 1..] == b;
  }

  /** Splitting a join at its separator recovers the joined pieces, provided
      no piece contains the separator. */
  lemma {:induction false} SplitJoin(xs: seq<string>, sep: char)
    requires |xs| > 0
    requires forall k :: 0 <= k < |xs| ==> sep !in xs[k]
    ensures Split(Join(xs, sep), sep) == xs
  {
    if |xs| > 1 {
      SplitJoin(xs[1..], sep);
      SplitCons(xs[0], sep, Join(xs[1..], sep));
    }
  }
}
