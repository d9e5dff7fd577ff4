/**
 * The string primitives the amount pipeline relies on, as JavaScript defines them:
 * the regular-expression classes `\d`, `\w` and `\s`, `String.prototype.trim`,
 * `includes`, ASCII `toUpperCase` and `replace(/,/g, '')`.
 */
module Text {

  /** `\d`: an ASCII digit. */
  predicate IsDigit(c: char) {
    '0' <= c <= '9'
  }

  /** `[A-Za-z]`. */
  predicate IsAsciiLetter(c: char) {
    'A' <= c <= 'Z' || 'a' <= c <= 'z'
  }

  /** `\w`: an ASCII letter, an ASCII digit or the underscore. */
  predicate IsWordChar(c: char) {
    IsAsciiLetter(c) || IsDigit(c) || c == '_'
  }

  /**
   * `\s`, which is also the set `trim` strips: the ECMAScript WhiteSpace characters
   * (tab, vertical tab, form feed, space, no-break space, the zero-width no-break space
   * and every other space separator) and the LineTerminator characters.
   */
  predicate IsSpace(c: char) {
    c == '\t' || c == '\n' || c == '\U{B}' || c == '\U{C}' || c == '\r' || c == ' ' ||
    c == '\U{A0}' || c == '\U{1680}' || ('\U{2000}' <= c <= '\U{200A}') ||
    c == '\U{2028}' || c == '\U{2029}' || c == '\U{202F}' || c == '\U{205F}' ||
    c == '\U{3000}' || c == '\U{FEFF}'
  }

  predicate AllDigits(s: string) {
    forall i :: 0 <= i < |s| ==> IsDigit(s[i])
  }

  predicate AllLetters(s: string) {
    forall i :: 0 <= i < |s| ==> IsAsciiLetter(s[i])
  }

  predicate AllSpaces(s: string) {
    forall i :: 0 <= i < |s| ==> IsSpace(s[i])
  }

  /** The end of the run of ASCII letters that starts at index `from` of `s`. */
  function LettersEnd(s: string, from: nat): (n: nat)
    requires from <= |s|
    ensures from <= n <= |s|
    ensures forall x :: from <= x < n ==> IsAsciiLetter(s[x])
    ensures n < |s| ==> !IsAsciiLetter(s[n])
    decreases |s| - from
  {
    if from < |s| && IsAsciiLetter(s[from]) then LettersEnd(s, from + 1) else from
  }

  /** The end of the run of whitespace that starts at index `from` of `s`. */
  function SpacesEnd(s: string, from: nat): (n: nat)
    requires from <= |s|
    ensures from <= n <= |s|
    ensures forall x :: from <= x < n ==> IsSpace(s[x])
    ensures n < |s| ==> !IsSpace(s[n])
    decreases |s| - from
  {
    if from < |s| && IsSpace(s[from]) then SpacesEnd(s, from + 1) else from
  }

  /** `s` without its leading whitespace. */
  function TrimStart(s: string): string {
    s[SpacesEnd(s, 0)..]
  }

  /** `TrimStart` cuts a run of whitespace off the front and leaves no whitespace in front. */
  lemma TrimStartCuts(s: string)
    ensures var t := TrimStart(s);
            |t| <= |s| && t == s[|s| - |t|..] && AllSpaces(s[..|s| - |t|]) && (t == [] || !IsSpace(t[0]))
  {
  }

  /** `s` without its trailing whitespace. */
  function TrimEnd(s: string): string {
    if s != [] && IsSpace(s[|s| - 1]) then TrimEnd(s[..|s| - 1]) else s
  }

  /** `TrimEnd` cuts a run of whitespace off the back and leaves no whitespace at the back. */
  lemma {:induction false} TrimEndCuts(s: string)
    ensures var t := TrimEnd(s);
            |t| <= |s| && t == s[..|t|] && AllSpaces(s[|t|..]) && (t == [] || !IsSpace(t[|t| - 1]))
  {
    if s != [] && IsSpace(s[|s| - 1]) {
      var u := s[..|s| - 1];
      TrimEndCuts(u);
      var t := TrimEnd(u);
      assert u[..|t|] == s[..|t|];
      assert s[|t|..] == u[|t|..] + [s[|s| - 1]];
    }
  }

  /** `String.prototype.trim`: neither end of the result is whitespace. */
  function Trim(s: string): (t: string)
    ensures t == [] || (!IsSpace(t[0]) && !IsSpace(t[|t| - 1]))
  {
    TrimStartCuts(s);
    TrimEndCuts(TrimStart(s));
    TrimEnd(TrimStart(s))
  }

  /** Trimming keeps a slice of `s` and cuts only whitespace off either end. */
  lemma TrimCutsSpaces(s: string)
    ensures var t := Trim(s);
            exists i :: 0 <= i <= |s| - |t| && t == s[i..i + |t|] && AllSpaces(s[..i]) && AllSpaces(s[i + |t|..])
  {
    var u := TrimStart(s);
    var t := TrimEnd(u);
    TrimStartCuts(s);
    TrimEndCuts(u);
    assert s[|s| - |u|..][..|t|] == s[|s| - |u|..|s| - |u| + |t|];
    assert s[|s| - |u| + |t|..] == u[|t|..];
  }

  /** A string that neither starts nor ends with whitespace is its own trim. */
  lemma TrimOfUnpadded(s: string)
    requires s == [] || (!IsSpace(s[0]) && !IsSpace(s[|s| - 1]))
    ensures Trim(s) == s
  {
    assert SpacesEnd(s, 0) == 0;
    assert TrimStart(s) == s;
  }

  /** Trimming twice is trimming once. */
  lemma TrimIdempotent(s: string)
    ensures Trim(Trim(s)) == Trim(s)
  {
    TrimOfUnpadded(Trim(s));
  }

  /** `s.includes(sub)`. */
  predicate Contains(s: string, sub: string) {
    exists i :: 0 <= i <= |s| - |sub| && sub <= s[i..]
  }

  lemma ContainsJoin(a: string, m: string, b: string)
    ensures Contains(a + m + b, m)
  {
    assert m <= (a + m + b)[|a|..];
  }

  /** `toUpperCase` on ASCII: lower-case letters become upper-case, nothing else changes. */
  function ToUpper(s: string): (r: string)
    ensures |r| == |s|
    ensures forall i :: 0 <= i < |s| ==>
      r[i] == if 'a' <= s[i] <= 'z' then (s[i] as int - 32) as char else s[i]
  {
    if s == [] then []
    else [if 'a' <= s[0] <= 'z' then (s[0] as int - 32) as char else s[0]] + ToUpper(s[1..])
  }

  /** `s.replace(/,/g, '')`: `s` with every comma deleted and the other characters kept in order. */
  function RemoveCommas(s: string): (r: string)
    ensures |r| <= |s|
    ensures forall i :: 0 <= i < |r| ==> r[i] != ','
    ensures forall c :: c in r <==> c in s && c != ','
  {
    if s == [] then []
    else RemoveCommas(s[..|s| - 1]) + (if s[|s| - 1] == ',' then [] else [s[|s| - 1]])
  }

  lemma {:induction false} RemoveCommasAppend(a: string, b: string)
    ensures RemoveCommas(a + b) == RemoveCommas(a) + RemoveCommas(b)
    decreases |b|
  {
    if b != [] {
      var b' := b[..|b| - 1];
      assert (a + b)[..|a + b| - 1] == a + b';
      var last := if b[|b| - 1] == ',' then [] else [b[|b| - 1]];
      assert (a + b)[|a + b| - 1] == b[|b| - 1];
      assert RemoveCommas(a + b) == RemoveCommas(a + b') + last;
      assert RemoveCommas(b) == RemoveCommas(b') + last;
      RemoveCommasAppend(a, b');
      assert RemoveCommas(a) + RemoveCommas(b') + last == RemoveCommas(a) + (RemoveCommas(b') + last);
    } else {
      assert a + b == a;
    }
  }

  lemma {:induction false} RemoveCommasWithoutCommas(s: string)
    requires forall i :: 0 <= i < |s| ==> s[i] != ','
    ensures RemoveCommas(s) == s
  {
    if s != [] {
      RemoveCommasWithoutCommas(s[..|s| - 1]);
    }
  }

  /** Deleting the commas of a run of digits and commas leaves only digits. */
  lemma RemoveCommasOfDigits(s: string)
    requires forall i :: 0 <= i < |s| ==> IsDigit(s[i]) || s[i] == ','
    ensures AllDigits(RemoveCommas(s))
  {
    var r := RemoveCommas(s);
    forall x | 0 <= x < |r| ensures IsDigit(r[x]) {
      assert r[x] in r;
    }
  }
}
