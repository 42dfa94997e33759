/**
 * The entity tag recorded for an uploaded part: the response's `ETag`
 * header with its surrounding `"` characters stripped, or the placeholder
 * `part-<n>` when nothing is left.
 */
module ETags {
  import opened Common

  /** Every character of `s` at an index in `[lo, hi)` is a double quote. */
  predicate QuotesIn(s: string, lo: int, hi: int) {
    forall k :: lo <= k < hi && 0 <= k < |s| ==> s[k] == '"'
  }

  /** Drops every leading `"`: the suffix of `s` left is empty or starts with another character. */
  function StripLeft(s: string): (r: string)
    ensures |r| <= |s| && r == s[|s| - |r|..]
    ensures QuotesIn(s, 0, |s| - |r|)
    ensures r == "" || r[0] != '"'
  {
    if |s| > 0 && s[0] == '"' then
      var r := StripLeft(s[1..]);
      assert s[1..][|s| - 1 - |r|..] == s[|s| - |r|..];
      forall k | 1 <= k < |s| - |r|
        ensures s[k] == '"'
      {
        assert s[k] == s[1..][k - 1];
      }
      r
    else
      s
  }

  /** Drops every trailing `"`: the prefix of `s` left is empty or ends with another character. */
  function StripRight(s: string): (r: string)
    ensures |r| <= |s| && r == s[..|r|]
    ensures QuotesIn(s, |r|, |s|)
    ensures r == "" || r[|r| - 1] != '"'
  {
    if |s| > 0 && s[|s| - 1] == '"' then
      var r := StripRight(s[..|s| - 1]);
      assert s[..|s| - 1][..|r|] == s[..|r|];
      forall k | |r| <= k < |s| - 1
        ensures s[k] == '"'
      {
        assert s[k] == s[..|s| - 1][k];
      }
      r
    else
      s
  }

  /** Python's `s.strip('"')`. */
  function Strip(s: string): string {
    StripRight(StripLeft(s))
  }

  /** The result of `strip` is the slice of the input that follows the leading quotes. */
  lemma StripKeepsMiddle(s: string)
    ensures var i := |s| - |StripLeft(s)|;
      i + |Strip(s)| <= |s| && s[i..i + |Strip(s)|] == Strip(s)
  {
    var l := StripLeft(s);
    PrefixOfSuffix(s, |s| - |l|, |StripRight(l)|);
  }

  /** The first `m` characters of the suffix from `i` are the slice `[i, i + m)`. */
  lemma PrefixOfSuffix(s: string, i: nat, m: nat)
    requires i + m <= |s|
    ensures s[i..][..m] == s[i..i + m]
  {
  }

  /** Everything after the result of `strip` is a quote. */
  lemma StripDropsTrailingQuotes(s: string)
    ensures QuotesIn(s, |s| - |StripLeft(s)| + |Strip(s)|, |s|)
  {
    var l := StripLeft(s);
    var i := |s| - |l|;
    forall k | i + |StripRight(l)| <= k < |s|
      ensures s[k] == '"'
    {
      assert s[k] == l[k - i];
    }
  }

  /** The result of `strip` neither starts nor ends with a quote. */
  lemma StripEnds(s: string)
    ensures Strip(s) == "" || (Strip(s)[0] != '"' && Strip(s)[|Strip(s)| - 1] != '"')
  {
    var l := StripLeft(s);
    if StripRight(l) != "" {
      assert StripRight(l)[0] == l[0];
    }
  }

  /**
   * What `strip` removes and keeps: the input is `i` quotes, then the
   * result, then only quotes, and the result neither starts nor ends with a quote.
   */
  lemma StripShape(s: string)
    ensures var r, i := Strip(s), |s| - |StripLeft(s)|;
      && (r == "" || (r[0] != '"' && r[|r| - 1] != '"'))
      && i + |r| <= |s|
      && s[i..i + |r|] == r
      && QuotesIn(s, 0, i)
      && QuotesIn(s, i + |r|, |s|)
  {
    StripKeepsMiddle(s);
    StripDropsTrailingQuotes(s);
    StripEnds(s);
  }

  /** Stripping twice is stripping once. */
  lemma StripIdempotent(s: string)
    ensures Strip(Strip(s)) == Strip(s)
  {
    var r := Strip(s);
    StripShape(s);
    if r != "" {
      assert StripLeft(r) == r;
      assert StripRight(r) == r;
    }
  }

  /** A string without surrounding quotes is unchanged by stripping. */
  lemma StripUnquoted(s: string)
    requires s != "" && s[0] != '"' && s[|s| - 1] != '"'
    ensures Strip(s) == s
  {
  }

  // ---------------------------------------------------------------------
  // Decimal rendering of a part number, as in the f-string `part-{n}`

  function DigitChar(d: nat): char
    requires d < 10
  {
    "0123456789"[d]
  }

  function DigitValue(c: char): nat {
    if '0' <= c <= '9' then (c - '0') as nat else 0
  }

  /** Decimal digits of `n`, most significant first, with no leading zero. */
  function Decimal(n: nat): (s: string)
    ensures |s| >= 1
    ensures forall k :: 0 <= k < |s| ==> '0' <= s[k] <= '9'
  {
    if n < 10 then [DigitChar(n)] else Decimal(n / 10) + [DigitChar(n % 10)]
  }

  /** Reads a string of decimal digits back as a number. */
  function ParseDecimal(s: string): nat {
    if s == "" then 0 else 10 * ParseDecimal(s[..|s| - 1]) + DigitValue(s[|s| - 1])
  }

  /** `Decimal` loses nothing: the part number can be read back from it. */
  lemma {:induction false} DecimalRoundTrip(n: nat)
    ensures ParseDecimal(Decimal(n)) == n
  {
    var s := Decimal(n);
    if n < 10 {
      assert s[..0] == "";
      assert DigitValue(DigitChar(n)) == n;
    } else {
      DecimalRoundTrip(n / 10);
      assert s[..|s| - 1] == Decimal(n / 10);
      assert DigitValue(DigitChar(n % 10)) == n % 10;
    }
  }

  // ---------------------------------------------------------------------
  // The entity tag of a part

  const PlaceholderPrefix: string := "part-"

  /**
   * `etag = response.headers.get('ETag', '').strip('"')`, replaced by
   * `part-<n>` when empty.
   */
  function PartETag(header: Option<string>, partNumber: nat): string {
    var stripped := Strip(header.GetOr(""));
    if stripped == "" then PlaceholderPrefix + Decimal(partNumber) else stripped
  }

  /**
   * The recorded tag is never empty.  Either it is the header with only
   * surrounding quotes removed, or the header was missing or all quotes and
   * the tag is `part-` followed by the digits of the part number.
   */
  lemma PartETagCases(header: Option<string>, partNumber: nat)
    ensures var e := PartETag(header, partNumber);
      && e != ""
      && (Strip(header.GetOr("")) != "" ==>
            e == Strip(header.GetOr("")) && e[0] != '"' && e[|e| - 1] != '"')
      && (Strip(header.GetOr("")) == "" ==>
            e[..|PlaceholderPrefix|] == PlaceholderPrefix
            && ParseDecimal(e[|PlaceholderPrefix|..]) == partNumber)
  {
    var e := PartETag(header, partNumber);
    StripShape(header.GetOr(""));
    if Strip(header.GetOr("")) == "" {
      assert e[|PlaceholderPrefix|..] == Decimal(partNumber);
      DecimalRoundTrip(partNumber);
    }
  }

  /**
   * A header that is absent, or present but empty or made only of quotes,
   * yields the placeholder.
   */
  lemma MissingHeaderPlaceholder(header: string, partNumber: nat)
    requires QuotesIn(header, 0, |header|)
    ensures PartETag(None, partNumber) == PlaceholderPrefix + Decimal(partNumber)
    ensures PartETag(Some(header), partNumber) == PlaceholderPrefix + Decimal(partNumber)
    ensures PartETag(Some("\"\""), partNumber) == PlaceholderPrefix + Decimal(partNumber)
  {
    assert Strip("") == "";
    assert StripLeft("\"\"") == "";
  }
}
