/**
 * Ticker validation: after upper-casing and trimming, a symbol must be one to five
 * letters A-Z, optionally followed by '.' or '-' and a class suffix of one or two
 * letters (BRK.A, BRK-B).
 */
module Validators {
  import Text
  import PortfolioModels

  /** Every character is a letter A-Z. */
  predicate AllUpper(s: string) {
    forall i :: 0 <= i < |s| ==> Text.IsUpperLetter(s[i])
  }

  /** The shape the pattern `^[A-Z]{1,5}([.-][A-Z]{1,2})?$` describes, stated as a set of strings. */
  ghost predicate TickerShape(s: string) {
    (1 <= |s| <= 5 && AllUpper(s))
    || exists k :: 1 <= k <= 5 && k + 2 <= |s| <= k + 3 && AllUpper(s[..k])
                   && (s[k] == '.' || s[k] == '-') && AllUpper(s[k + 1..])
  }

  /** The number of letters A-Z at the front of `s`. */
  function LeadingLetters(s: string): (k: nat)
    ensures k <= |s|
    ensures AllUpper(s[..k])
    ensures k < |s| ==> !Text.IsUpperLetter(s[k])
  {
    if s == [] || !Text.IsUpperLetter(s[0]) then 0
    else
      var k := LeadingLetters(s[1..]);
      assert s[..k + 1] == [s[0]] + s[1..][..k];
      k + 1
  }

  /**
   * The pattern matcher: the letter run must be 1-5 long and be followed either by
   * the end, or by '.' or '-' and 1-2 letters that end the string. A letter run
   * longer than five cannot match, since backing off leaves a letter where the
   * pattern wants a separator or the end.
   */
  function MatchesTicker(s: string): bool {
    var k := LeadingLetters(s);
    1 <= k <= 5
    && (k == |s|
        || ((s[k] == '.' || s[k] == '-') && 2 <= |s| - k <= 3 && AllUpper(s[k + 1..])))
  }

  /** A run of `j` letters ended by the end or a non-letter is the leading run. */
  lemma {:induction false} LeadingRun(s: string, j: nat)
    requires j <= |s| && AllUpper(s[..j]) && (j < |s| ==> !Text.IsUpperLetter(s[j]))
    ensures LeadingLetters(s) == j
  {
  }

  /** A string of the pattern's shape is accepted by the matcher. */
  lemma {:induction false} ShapeMatches(s: string)
    requires TickerShape(s)
    ensures MatchesTicker(s)
  {
    if 1 <= |s| <= 5 && AllUpper(s) {
      assert s[..|s|] == s;
      LeadingRun(s, |s|);
    } else {
      var j :| 1 <= j <= 5 && j + 2 <= |s| <= j + 3 && AllUpper(s[..j])
               && (s[j] == '.' || s[j] == '-') && AllUpper(s[j + 1..]);
      LeadingRun(s, j);
    }
  }

  /** A string the matcher accepts has the pattern's shape. */
  lemma {:induction false} MatchShape(s: string)
    requires MatchesTicker(s)
    ensures TickerShape(s)
  {
    var k := LeadingLetters(s);
    if k == |s| {
      assert s[..k] == s;
    } else {
      assert 1 <= k <= 5 && k + 2 <= |s| <= k + 3 && AllUpper(s[..k])
             && (s[k] == '.' || s[k] == '-') && AllUpper(s[k + 1..]);
    }
  }

  /** The matcher accepts exactly the strings of the pattern's shape. */
  lemma {:induction false} MatchesTickerShape(s: string)
    ensures MatchesTicker(s) <==> TickerShape(s)
  {
    if TickerShape(s) {
      ShapeMatches(s);
    }
    if MatchesTicker(s) {
      MatchShape(s);
    }
  }

  /** `validate_stock_symbol`: the empty string is refused; otherwise the normalised symbol must match. */
  function ValidateStockSymbol(symbol: string): (ok: bool)
    ensures symbol == "" ==> !ok
    ensures ok ==> MatchesTicker(PortfolioModels.NormalizeSymbol(symbol))
  {
    if symbol == "" then false
    else MatchesTicker(Text.Strip(Text.Upper(symbol)))
  }

  /** A symbol is valid exactly when its normalised form has the ticker shape. */
  lemma {:induction false} ValidateMeaning(symbol: string)
    ensures ValidateStockSymbol(symbol) <==> TickerShape(PortfolioModels.NormalizeSymbol(symbol))
  {
    MatchesTickerShape(PortfolioModels.NormalizeSymbol(symbol));
  }

  /** Validation ignores case: a symbol, its lower-case and its upper-case form get the same answer. */
  lemma {:induction false} ValidateIgnoresCase(symbol: string)
    ensures ValidateStockSymbol(Text.Lower(symbol)) == ValidateStockSymbol(symbol)
    ensures ValidateStockSymbol(Text.Upper(symbol)) == ValidateStockSymbol(symbol)
  {
    Text.UpperLower(symbol);
    Text.UpperIdempotent(symbol);
  }

  /** Validation ignores surrounding whitespace. */
  lemma {:induction false} ValidateIgnoresPadding(symbol: string, c: char)
    requires Text.IsSpace(c)
    ensures ValidateStockSymbol([c] + symbol + [c]) == ValidateStockSymbol(symbol)
  {
    var u := Text.Upper(symbol);
    Text.UpperAppend([c] + symbol, [c]);
    Text.UpperAppend([c], symbol);
    assert Text.Upper([c]) == [c];
    Text.StripPadded(u, c);
    if symbol == "" {
      assert Text.Strip(u) == "";
    }
  }

  /** A matched string has 1-8 characters, none of them a digit. */
  lemma {:induction false} MatchedShape(n: string)
    requires MatchesTicker(n)
    ensures 1 <= |n| <= 8 && forall i :: 0 <= i < |n| ==> !Text.IsDigit(n[i])
  {
    var k := LeadingLetters(n);
    forall i | 0 <= i < |n| ensures !Text.IsDigit(n[i]) {
      if i < k {
        assert Text.IsUpperLetter(n[..k][i]);
      } else if i > k {
        assert Text.IsUpperLetter(n[k + 1..][i - k - 1]);
      }
    }
  }

  /** An accepted symbol normalises to 1-8 characters, none of them a digit. */
  lemma {:induction false} AcceptedShape(symbol: string)
    requires ValidateStockSymbol(symbol)
    ensures var n := PortfolioModels.NormalizeSymbol(symbol);
      1 <= |n| <= 8 && forall i :: 0 <= i < |n| ==> !Text.IsDigit(n[i])
  {
    MatchedShape(PortfolioModels.NormalizeSymbol(symbol));
  }

  /** Validation of a symbol that is already upper-case and trimmed is the matcher itself. */
  lemma {:induction false} ValidateNormal(symbol: string)
    requires symbol != "" && Text.Trimmed(symbol) && forall i :: 0 <= i < |symbol| ==> !Text.IsLowerLetter(symbol[i])
    ensures ValidateStockSymbol(symbol) == MatchesTicker(symbol)
  {
    assert Text.Upper(symbol) == symbol;
    Text.StripTrimmed(symbol);
  }

  /** The class-suffix example of the pattern is accepted. */
  lemma {:induction false} ClassSuffixExample()
    ensures ValidateStockSymbol("BRK.A")
  {
    var s := "BRK.A";
    assert s[..3] == "BRK" && s[4..] == "A";
    LeadingRun(s, 3);
    assert s[3] == '.' && AllUpper(s[4..]);
    ValidateNormal(s);
  }

  /** A digit after the letters is refused. */
  lemma {:induction false} DigitRefused()
    ensures !ValidateStockSymbol("AAPL1")
  {
    var s := "AAPL1";
    assert s[..4] == "AAPL";
    LeadingRun(s, 4);
    ValidateNormal(s);
  }
}
