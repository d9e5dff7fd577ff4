/**
 * `handleRate` in `content.js`: the amount grammar
 *   ^([A-Za-z]+)\s*[^\w\s]?\s*([\d,]+(?:\.\d{1,2})?)$
 * applied to the trimmed text, the clean-up of the captured numeral, and the three
 * possible answers: '' (no conversion), the failure text, or '¥' and the converted figure.
 */
module Amount {
  import opened Wrappers
  import opened Text
  import opened Decimal
  import opened ExchangeRate

  /**
   * `[^\w\s]`: one UTF-16 code unit that is neither a word character nor whitespace. A
   * character outside the Basic Multilingual Plane is two code units and never matches.
   */
  predicate IsSymbol(c: char) {
    (c as int) < 0x1_0000 && !IsWordChar(c) && !IsSpace(c)
  }

  /** The end of the run of digits and commas (`[\d,]*`) that starts at index `from` of `s`. */
  function IntegerPartEnd(s: string, from: nat): (n: nat)
    requires from <= |s|
    ensures from <= n <= |s|
    ensures forall x :: from <= x < n ==> IsDigit(s[x]) || s[x] == ','
    ensures n < |s| ==> !IsDigit(s[n]) && s[n] != ','
    decreases |s| - from
  {
    if from < |s| && (IsDigit(s[from]) || s[from] == ',') then IntegerPartEnd(s, from + 1) else from
  }

  /**
   * `[\d,]+(?:\.\d{1,2})?` against the whole of `s`: a non-empty run of digits and commas,
   * then either the end or a point and one or two digits.
   */
  predicate IsNumeral(s: string) {
    var e := IntegerPartEnd(s, 0);
    0 < e &&
    (e == |s| || (s[e] == '.' && (|s| == e + 2 || |s| == e + 3) && IsDigit(s[e + 1]) && IsDigit(s[|s| - 1])))
  }

  /**
   * The whole expression, with its seams made explicit: `t[..i]` is group 1, `t[i..j]` and
   * `t[k..l]` are the two `\s*`, `t[j..k]` the optional symbol, and `t[l..]` group 2.
   */
  ghost predicate MatchesAt(t: string, i: nat, j: nat, k: nat, l: nat) {
    0 < i <= j <= k <= l <= |t| && k <= j + 1 &&
    (forall x :: 0 <= x < i ==> IsAsciiLetter(t[x])) &&
    (forall x :: i <= x < j ==> IsSpace(t[x])) &&
    (k == j + 1 ==> IsSymbol(t[j])) &&
    (forall x :: k <= x < l ==> IsSpace(t[x])) &&
    IsNumeral(t[l..])
  }

  /** The two capture groups of a successful match. */
  datatype Groups = Groups(letters: string, numeral: string)

  /**
   * `t.match(regex)`, following the backtracking order of the regular expression engine:
   * the letters and the first `\s*` are taken greedily, then the optional symbol is tried
   * present before absent.
   */
  function MatchAmount(t: string): Option<Groups> {
    var i := LettersEnd(t, 0);
    var j := SpacesEnd(t, i);
    if i == 0 then None
    else if j < |t| && IsSymbol(t[j]) && IsNumeral(t[SpacesEnd(t, j + 1)..]) then
      Some(Groups(t[..i], t[SpacesEnd(t, j + 1)..]))
    else if IsNumeral(t[j..]) then
      Some(Groups(t[..i], t[j..]))
    else
      None
  }

  /** Group 1 of a match is a non-empty run of letters and group 2 a numeral. */
  lemma MatchAmountShape(t: string)
    ensures var m := MatchAmount(t);
            m.Some? ==> |m.value.letters| > 0 && AllLetters(m.value.letters) && IsNumeral(m.value.numeral)
  {
  }

  lemma LettersEndIs(s: string, n: nat)
    requires n <= |s|
    requires forall x :: 0 <= x < n ==> IsAsciiLetter(s[x])
    requires n < |s| ==> !IsAsciiLetter(s[n])
    ensures LettersEnd(s, 0) == n
  {
  }

  lemma SpacesEndIs(s: string, from: nat, n: nat)
    requires from <= n <= |s|
    requires forall x :: from <= x < n ==> IsSpace(s[x])
    requires n < |s| ==> !IsSpace(s[n])
    ensures SpacesEnd(s, from) == n
  {
  }

  lemma NumeralStart(s: string)
    requires IsNumeral(s)
    ensures |s| > 0 && (IsDigit(s[0]) || s[0] == ',')
  {
  }

  /**
   * The seams of the match the scanner reports: after the letters and the spaces, the symbol
   * branch when it leads to a numeral, otherwise no symbol and no second run of spaces.
   */
  lemma ScannerSeams(t: string) returns (i: nat, j: nat, k: nat, l: nat)
    requires MatchAmount(t).Some?
    ensures MatchesAt(t, i, j, k, l)
    ensures MatchAmount(t).value == Groups(t[..i], t[l..])
  {
    i := LettersEnd(t, 0);
    j := SpacesEnd(t, i);
    assert i > 0;
    if j < |t| && IsSymbol(t[j]) && IsNumeral(t[SpacesEnd(t, j + 1)..]) {
      k, l := j + 1, SpacesEnd(t, j + 1);
      assert MatchAmount(t) == Some(Groups(t[..i], t[l..]));
    } else {
      assert IsNumeral(t[j..]);
      assert MatchAmount(t) == Some(Groups(t[..i], t[j..]));
      k, l := j, j;
    }
  }

  /** Whatever the scanner captures is a match of the expression, with the same groups. */
  lemma MatchAmountSound(t: string)
    requires MatchAmount(t).Some?
    ensures exists i: nat, j: nat, k: nat, l: nat ::
              MatchesAt(t, i, j, k, l) && MatchAmount(t).value == Groups(t[..i], t[l..])
  {
    var i, j, k, l := ScannerSeams(t);
  }

  /** A match that uses the symbol slot is the one the scanner finds. */
  lemma MatchWithSymbol(t: string, i: nat, j: nat, l: nat)
    requires MatchesAt(t, i, j, j + 1, l)
    ensures MatchAmount(t) == Some(Groups(t[..i], t[l..]))
  {
    assert !IsAsciiLetter(t[i]) by {
      if i < j {
        assert IsSpace(t[i]);
      } else {
        assert IsSymbol(t[j]);
      }
    }
    LettersEndIs(t, i);
    SpacesEndIs(t, i, j);
    assert l < |t| && !IsSpace(t[l]) by {
      NumeralStart(t[l..]);
      assert t[l..][0] == t[l];
    }
    SpacesEndIs(t, j + 1, l);
    SymbolBranch(t, i, j, l);
  }

  /** The scanner's symbol branch, read off its definition. */
  lemma SymbolBranch(t: string, i: nat, j: nat, l: nat)
    requires 0 < i && LettersEnd(t, 0) == i && i <= |t|
    requires SpacesEnd(t, i) == j && j < |t| && IsSymbol(t[j])
    requires SpacesEnd(t, j + 1) == l && IsNumeral(t[l..])
    ensures MatchAmount(t) == Some(Groups(t[..i], t[l..]))
  {
  }

  /** Where the scanner's runs end on a match that leaves the symbol slot empty. */
  lemma RunsOfPlainMatch(t: string, i: nat, j: nat, l: nat)
    requires MatchesAt(t, i, j, j, l)
    ensures LettersEnd(t, 0) == i && SpacesEnd(t, i) == l
    ensures l < |t| && (IsDigit(t[l]) || t[l] == ',')
    ensures l + 1 < |t| ==> SpacesEnd(t, l + 1) == l + 1
  {
    NumeralStart(t[l..]);
    assert t[l..][0] == t[l];
    LettersEndIs(t, i);
    SpacesEndIs(t, i, l);
    if l + 1 < |t| {
      NumeralAfterComma(t[l..]);
      assert t[l..][1] == t[l + 1];
      SpacesEndIs(t, l + 1, l + 1);
    }
  }

  /**
   * A match that leaves the symbol slot empty: the scanner finds it too, unless the numeral
   * starts with a comma that the scanner can take as the symbol instead.
   */
  lemma MatchWithoutSymbol(t: string, i: nat, j: nat, l: nat)
    requires MatchesAt(t, i, j, j, l)
    ensures MatchAmount(t) == Some(Groups(t[..i], t[l..])) ||
            (l < |t| && t[l] == ',' && MatchAmount(t) == Some(Groups(t[..i], t[l + 1..])))
  {
    RunsOfPlainMatch(t, i, j, l);
    if IsSymbol(t[l]) && l + 1 < |t| && IsNumeral(t[l + 1..]) {
      assert t[l] == ',';
      assert MatchAmount(t) == Some(Groups(t[..i], t[l + 1..]));
    } else {
      assert MatchAmount(t) == Some(Groups(t[..i], t[l..]));
    }
  }

  /**
   * Every way of matching the expression leads the scanner to a match with the same currency
   * letters and the same numeral, up to a leading comma that the scanner may read as the
   * symbol; when the given match uses the symbol slot, the numerals agree exactly.
   */
  lemma MatchAmountComplete(t: string, i: nat, j: nat, k: nat, l: nat)
    requires MatchesAt(t, i, j, k, l)
    ensures MatchAmount(t).Some? && MatchAmount(t).value.letters == t[..i]
    ensures k == j + 1 ==> MatchAmount(t).value.numeral == t[l..]
    ensures MatchAmount(t).value.numeral == t[l..] ||
            (l < |t| && t[l] == ',' && MatchAmount(t).value.numeral == t[l + 1..])
  {
    if k == j + 1 {
      MatchWithSymbol(t, i, j, l);
    } else {
      MatchWithoutSymbol(t, i, j, l);
    }
  }

  /** After the first character of a numeral comes a digit, a comma or the decimal point. */
  lemma NumeralAfterComma(s: string)
    requires IsNumeral(s) && |s| >= 2
    ensures IsDigit(s[1]) || s[1] == ',' || s[1] == '.'
  {
  }

  /** The scanner succeeds exactly on the strings the expression matches. */
  lemma MatchAmountDecides(t: string)
    ensures MatchAmount(t).Some? <==> exists i: nat, j: nat, k: nat, l: nat :: MatchesAt(t, i, j, k, l)
  {
    if MatchAmount(t).Some? {
      MatchAmountSound(t);
    } else if exists i: nat, j: nat, k: nat, l: nat :: MatchesAt(t, i, j, k, l) {
      var i: nat, j: nat, k: nat, l: nat :| MatchesAt(t, i, j, k, l);
      MatchAmountComplete(t, i, j, k, l);
    }
  }

  /**
   * The numeral once its commas are deleted is a plain decimal: the digits of the integer
   * part, then the fraction exactly as written.
   */
  lemma CleanNumeral(s: string)
    requires IsNumeral(s)
    ensures IsPlainDecimal(RemoveCommas(s))
    ensures RemoveCommas(s) == RemoveCommas(s[..IntegerPartEnd(s, 0)]) + s[IntegerPartEnd(s, 0)..]
  {
    var e := IntegerPartEnd(s, 0);
    var whole, fraction := s[..e], s[e..];
    assert s == whole + fraction;
    assert IsFraction(fraction) by {
      if fraction != [] {
        assert fraction[0] == s[e] && fraction[1] == s[e + 1] && fraction[|fraction| - 1] == s[|s| - 1];
      }
    }
    RemoveCommasAppend(whole, fraction);
    RemoveCommasOfDigits(whole);
    RemoveCommasWithoutCommas(fraction);
    PlainDecimalOfParts(RemoveCommas(whole), fraction);
  }

  /** `(?:\.\d{1,2})?`: nothing, or a point and one or two digits. */
  predicate IsFraction(f: string) {
    f == [] || (f[0] == '.' && (|f| == 2 || |f| == 3) && IsDigit(f[1]) && IsDigit(f[|f| - 1]))
  }

  /** Digits followed by a fraction make a plain decimal. */
  lemma PlainDecimalOfParts(d: string, f: string)
    requires AllDigits(d) && IsFraction(f)
    ensures IsPlainDecimal(d + f)
  {
    var c := d + f;
    if |f| == 2 {
      assert c[..|c| - 2] == d;
    } else if |f| == 3 {
      assert c[..|c| - 3] == d;
    } else {
      assert c == d;
    }
  }

  /** What `parseFloat` makes of the numeral once its commas are deleted, in hundredths. */
  function NumeralHundredths(s: string): Option<nat>
    requires IsNumeral(s)
  {
    CleanNumeral(s);
    ParseHundredths(RemoveCommas(s))
  }

  /** The numeral reads as NaN exactly when it is made of commas only. */
  lemma NumeralNaN(s: string)
    requires IsNumeral(s)
    ensures NumeralHundredths(s).None? <==> forall x :: 0 <= x < |s| ==> s[x] == ','
  {
    CleanNumeral(s);
    var c := RemoveCommas(s);
    if c == [] {
      forall x | 0 <= x < |s| ensures s[x] == ',' {
        assert s[x] in s;
      }
    } else {
      assert c[0] in c;
    }
  }

  /** The outcome of matching and validating an amount text. */
  datatype AmountParse =
    | NoMatch                                  // the expression does not match
    | NotPositive                              // NaN, zero or no currency code
    | Parsed(code: string, hundredths: nat)    // the upper-cased code and the amount in hundredths

  /**
   * The matching and validation steps of `handleRate`: the code is group 1 upper-cased, the
   * amount is group 2 without its commas read by `parseFloat`, and NaN or a value that is not
   * positive is rejected.
   */
  function ParseAmount(t: string): AmountParse {
    MatchAmountShape(t);
    match MatchAmount(t)
    case None => NoMatch
    case Some(g) =>
      var code := ToUpper(g.letters);
      var amount := NumeralHundredths(g.numeral);
      if amount.None? || amount.value <= 0 || code == [] then NotPositive
      else Parsed(code, amount.value)
  }

  /** An accepted amount has a positive value and a code of upper-case ASCII letters. */
  lemma ParseAmountShape(t: string)
    ensures var p := ParseAmount(t);
            p.Parsed? ==> p.hundredths > 0 && |p.code| > 0 && forall x :: 0 <= x < |p.code| ==> 'A' <= p.code[x] <= 'Z'
  {
    MatchAmountShape(t);
  }

  /** A comma in front of a numeral changes nothing about its value. */
  lemma LeadingCommaIgnored(s: string)
    requires IsNumeral(s) && |s| > 1 && s[0] == ',' && IsNumeral(s[1..])
    ensures NumeralHundredths(s) == NumeralHundredths(s[1..])
  {
    assert s == [','] + s[1..];
    RemoveCommasAppend([','], s[1..]);
    assert RemoveCommas([',']) == [] by { assert [','][..0] == []; }
    assert RemoveCommas(s) == RemoveCommas(s[1..]);
  }

  /**
   * The outcome of parsing is fixed by any match of the expression: the code is its leading
   * letter run upper-cased, and the amount is its numeral read without commas, whichever way
   * the optional symbol was matched.
   */
  lemma ParseAmountOfMatch(t: string, i: nat, j: nat, k: nat, l: nat)
    requires MatchesAt(t, i, j, k, l)
    ensures var v := NumeralHundredths(t[l..]);
            ParseAmount(t) == if v.None? || v.value == 0 then NotPositive else Parsed(ToUpper(t[..i]), v.value)
  {
    MatchAmountComplete(t, i, j, k, l);
    var g := MatchAmount(t).value;
    if g.numeral != t[l..] {
      assert t[l..][1..] == t[l + 1..];
      LeadingCommaIgnored(t[l..]);
    }
  }

  /** The seams of a concatenation of the five parts of the grammar are a match. */
  lemma PartsMatch(letters: string, spaces1: string, symbol: string, spaces2: string, numeral: string)
    requires |letters| > 0 && AllLetters(letters) && AllSpaces(spaces1) && AllSpaces(spaces2)
    requires |symbol| <= 1 && (|symbol| == 1 ==> IsSymbol(symbol[0]))
    requires IsNumeral(numeral)
    ensures var i := |letters|; var j := i + |spaces1|; var k := j + |symbol|; var l := k + |spaces2|;
            MatchesAt(letters + spaces1 + symbol + spaces2 + numeral, i, j, k, l)
  ensures var t := letters + spaces1 + symbol + spaces2 + numeral;
          t[..|letters|] == letters && t[|letters| + |spaces1| + |symbol| + |spaces2|..] == numeral
  {
    var u := letters + spaces1;
    var v := u + symbol;
    var w := v + spaces2;
    var t := w + numeral;
    var i, j, k, l := |letters|, |u|, |v|, |w|;
    assert t[l..] == numeral;
    assert t[..i] == letters by {
      assert t[..l] == w;
      assert w[..i] == letters;
    }
    assert forall x :: 0 <= x < l ==> t[x] == w[x];
    assert forall x :: 0 <= x < k ==> w[x] == v[x];
    assert forall x :: 0 <= x < j ==> v[x] == u[x];
    assert forall x :: i <= x < j ==> u[x] == spaces1[x - i];
    assert forall x :: k <= x < l ==> w[x] == spaces2[x - k];
    assert k == j + 1 ==> v[j] == symbol[0];
  }

  /**
   * The grammar read as a concatenation: letters, spaces, at most one symbol, spaces and a
   * numeral parse to the upper-cased letters and the numeral's value without its commas,
   * or are rejected when that value is NaN or zero.
   */
  lemma ParseAmountOfParts(letters: string, spaces1: string, symbol: string, spaces2: string, numeral: string)
    requires |letters| > 0 && AllLetters(letters) && AllSpaces(spaces1) && AllSpaces(spaces2)
    requires |symbol| <= 1 && (|symbol| == 1 ==> IsSymbol(symbol[0]))
    requires IsNumeral(numeral)
    ensures var v := NumeralHundredths(numeral);
            ParseAmount(letters + spaces1 + symbol + spaces2 + numeral) ==
              if v.None? || v.value == 0 then NotPositive else Parsed(ToUpper(letters), v.value)
  {
    var i := |letters|;
    var j := i + |spaces1|;
    var k := j + |symbol|;
    var l := k + |spaces2|;
    var t := letters + spaces1 + symbol + spaces2 + numeral;
    assert MatchesAt(t, i, j, k, l) && t[..i] == letters && t[l..] == numeral by {
      PartsMatch(letters, spaces1, symbol, spaces2, numeral);
    }
    ParseAmountOfMatch(t, i, j, k, l);
  }

  /** An amount written without spaces: letters, at most one symbol, a numeral. */
  lemma ParseAmountOfTight(letters: string, symbol: string, numeral: string)
    requires |letters| > 0 && AllLetters(letters)
    requires |symbol| <= 1 && (|symbol| == 1 ==> IsSymbol(symbol[0]))
    requires IsNumeral(numeral)
    ensures var v := NumeralHundredths(numeral);
            ParseAmount(letters + symbol + numeral) ==
              if v.None? || v.value == 0 then NotPositive else Parsed(ToUpper(letters), v.value)
  {
    assert letters + [] == letters;
    assert letters + symbol + [] == letters + symbol;
    ParseAmountOfParts(letters, [], symbol, [], numeral);
  }

  /** The numerals of the examples below and their values. */
  lemma NumeralFive()
    ensures IsNumeral("5") && NumeralHundredths("5") == Some(500)
  {
    assert DigitsValue("5") == 5 by { assert "5"[..0] == []; }
    assert IsNumeral("5") by { assert IntegerPartEnd("5", 1) == 1; }
    RemoveCommasWithoutCommas("5");
  }

  lemma NumeralFifty()
    ensures IsNumeral("50") && NumeralHundredths("50") == Some(5000)
  {
    assert IsNumeral("50") by { assert IntegerPartEnd("50", 2) == 2; assert IntegerPartEnd("50", 1) == 2; }
    RemoveCommasWithoutCommas("50");
    assert DigitsValue("50") == 50 by {
      assert "50"[..1] == "5";
      assert DigitsValue("5") == 5 by { assert "5"[..0] == []; }
    }
  }

  lemma NumeralWithCents()
    ensures IsNumeral("5.50") && NumeralHundredths("5.50") == Some(550)
  {
    assert IsNumeral("5.50") by { assert IntegerPartEnd("5.50", 1) == 1; }
    RemoveCommasWithoutCommas("5.50");
    assert !AllDigits("5.50") by { assert !IsDigit("5.50"[1]); }
    assert "5.50"[..1] == "5";
    assert DigitsValue("5") == 5 by { assert "5"[..0] == []; }
  }

  lemma NumeralOfCommas()
    ensures IsNumeral(",,") && NumeralHundredths(",,").None?
  {
    assert IntegerPartEnd(",,", 2) == 2;
    assert IntegerPartEnd(",,", 1) == 2;
  }

  lemma NumeralCommaPoint()
    ensures IsNumeral(",.50") && NumeralHundredths(",.50") == Some(50)
  {
    assert IsNumeral(",.50") by { assert IntegerPartEnd(",.50", 1) == 1; }
    assert RemoveCommas(",.50") == ".50" by {
      assert ",.50" == [','] + ".50";
      RemoveCommasAppend([','], ".50");
      assert RemoveCommas([',']) == [] by { assert [','][..0] == []; }
      RemoveCommasWithoutCommas(".50");
    }
    assert ParseHundredths(".50") == Some(50) by {
      assert !AllDigits(".50") by { assert !IsDigit(".50"[0]); }
      assert ".50"[..0] == [];
    }
  }

  /** A lower-case code is upper-cased; the dollar sign is the symbol. */
  lemma ParseAmountLowerCase()
    ensures ParseAmount("us$5") == Parsed("US", 500)
  {
    NumeralFive();
    assert ToUpper("us") == "US";
    assert AllLetters("us") && IsSymbol('$');
    assert "us$5" == "us" + "$" + "5";
    ParseAmountOfTight("us", "$", "5");
  }

  /** Spaces may follow the symbol; two fractional digits are read exactly. */
  lemma ParseAmountWithCents()
    ensures ParseAmount("CA$ 5.50") == Parsed("CA", 550)
  {
    NumeralWithCents();
    assert ToUpper("CA") == "CA";
    assert AllLetters("CA") && IsSymbol('$') && AllSpaces(" ");
    assert "CA$ 5.50" == "CA" + "" + "$" + " " + "5.50";
    ParseAmountOfParts("CA", "", "$", " ", "5.50");
  }

  /** An amount that begins with a currency sign and no letters does not match. */
  lemma ParseAmountWithoutLetters()
    ensures ParseAmount("\U{20AC}20") == NoMatch
  {
    assert LettersEnd("\U{20AC}20", 0) == 0;
  }

  /** A numeral of commas alone is NaN once its commas are deleted, so it is not positive. */
  lemma ParseAmountOnlyCommas()
    ensures ParseAmount("US$,,") == NotPositive
  {
    NumeralOfCommas();
    assert AllLetters("US") && IsSymbol('$');
    assert "US$,," == "US" + "$" + ",,";
    ParseAmountOfTight("US", "$", ",,");
  }

  /** The seams of `US.50`: the point fills the symbol slot and `50` is the numeral. */
  lemma PointAsSymbolSeams()
    ensures MatchesAt("US.50", 2, 2, 3, 3) && "US.50"[..2] == "US" && "US.50"[3..] == "50"
  {
    NumeralFifty();
    var t := "US.50";
    assert t[3..] == "50" && t[..2] == "US";
    assert IsAsciiLetter(t[0]) && IsAsciiLetter(t[1]) && IsSymbol(t[2]);
  }

  /**
   * A point right after the letters is taken as the symbol, so `US.50` is fifty units and
   * not half a unit.
   */
  lemma ParseAmountPointAsSymbol()
    ensures ParseAmount("US.50") == Parsed("US", 5000)
  {
    NumeralFifty();
    assert ToUpper("US") == "US";
    assert AllLetters("US") && IsSymbol('.');
    PointAsSymbolSeams();
    ParseAmountOfMatch("US.50", 2, 2, 3, 3);
  }

  /** A numeral may start with a comma: "US$,.50" is half a dollar. */
  lemma ParseAmountCommaPoint()
    ensures ParseAmount("US$,.50") == Parsed("US", 50)
  {
    NumeralCommaPoint();
    assert ToUpper("US") == "US";
    assert AllLetters("US") && IsSymbol('$');
    assert "US$,.50" == "US" + "$" + ",.50";
    ParseAmountOfTight("US", "$", ",.50");
  }

  /** The text '（约' that marks an amount as already converted. */
  const Marker: string := "\U{FF08}\U{7EA6}"
  /** The closing '）' of an annotation. */
  const Closing: string := "\U{FF09}"
  /** The '¥' in front of a converted amount. */
  const Yen: string := "\U{A5}"
  /** '转换汇率失败', the answer when no rate is known for the currency. */
  const ConversionFailed: string := "\U{8F6C}\U{6362}\U{6C47}\U{7387}\U{5931}\U{8D25}"

  /** The argument of `handleRate`: a string, or any value whose `typeof` is not 'string'. */
  datatype Argument = Text(s: string) | NotAString

  /**
   * The first steps of `handleRate`: a value that is not a non-empty string is rejected
   * outright, a string is trimmed and parsed.
   */
  function ParseArgument(money: Argument): AmountParse {
    if money.NotAString? || money.s == [] then NoMatch else ParseAmount(Trim(money.s))
  }

  /**
   * Trimming before the call changes nothing: an extract function passes `handleRate` a text
   * it has already trimmed, and the second trim is absorbed, blank texts included.
   */
  lemma ParseArgumentOfTrimmed(s: string)
    ensures ParseArgument(Text(Trim(s))) == ParseArgument(Text(s))
  {
    if s != [] {
      TrimIdempotent(s);
      if Trim(s) == [] {
        assert LettersEnd(Trim(s), 0) == 0;
      }
    }
  }

  /**
   * `handleRate(money)` against the rate cache `cache`: '' when the argument does not parse
   * to a positive amount; otherwise the converted figure after '¥', or the failure text
   * when the rate lookup gives `null`. The lookup throws when the cache is undefined.
   */
  function HandleRate(money: Argument, cache: Option<RateTable>): Completion<string>
  {
    match ParseArgument(money)
    case NoMatch => Normal("")
    case NotPositive => Normal("")
    case Parsed(code, hundredths) =>
      match Convert(cache, code, hundredths)
      case Throw => Throw
      case Normal(None) => Normal(ConversionFailed)
      case Normal(Some(figure)) =>
        Normal(Yen + figure)
  }

  /**
   * The outcomes of `handleRate`: '' exactly when the argument does not parse to a positive
   * amount, a throw exactly when it does and the cache is undefined, the failure text exactly
   * when the lookup gives `null`, and otherwise '¥' followed by the lookup's figure.
   */
  lemma HandleRateOutcomes(money: Argument, cache: Option<RateTable>)
    ensures var r := HandleRate(money, cache);
            r == Normal("") <==> !ParseArgument(money).Parsed?
    ensures var r := HandleRate(money, cache);
            r == Throw <==> ParseArgument(money).Parsed? && cache.None?
    ensures var r := HandleRate(money, cache);
            r == Normal(ConversionFailed) <==>
              ParseArgument(money).Parsed? &&
              Convert(cache, ParseArgument(money).code, ParseArgument(money).hundredths) == Normal(None)
    ensures var r := HandleRate(money, cache);
            r.Normal? && r.value != "" && r.value != ConversionFailed ==>
              ParseArgument(money).Parsed? && |r.value| > 1 && r.value[..1] == Yen &&
              Convert(cache, ParseArgument(money).code, ParseArgument(money).hundredths) == Normal(Some(r.value[1..]))
  {
    var p := ParseArgument(money);
    if p.Parsed? {
      var c := Convert(cache, p.code, p.hundredths);
      if c.Normal? && c.value.Some? {
        var figure := c.value.value;
        assert (Yen + figure)[0] != ConversionFailed[0];
        assert (Yen + figure)[..1] == Yen && (Yen + figure)[1..] == figure;
      }
    }
  }

  /**
   * '' for a value that is not a string, for the empty string, and for every text whose
   * trim the expression does not match, whatever the cache holds.
   */
  lemma HandleRateRejects(money: Argument, cache: Option<RateTable>)
    ensures money.NotAString? || money == Text("") ==> HandleRate(money, cache) == Normal("")
    ensures money.Text? && !(exists i: nat, j: nat, k: nat, l: nat :: MatchesAt(Trim(money.s), i, j, k, l)) ==>
              HandleRate(money, cache) == Normal("")
  {
    if money.Text? && money.s != [] {
      MatchAmountDecides(Trim(money.s));
    }
  }
}
