/** Request paths: the API path constants, `strconv.FormatUint(id, 10)` and the cancel-path template (transferwise.go:20-26, 257-258, 295). */
module Paths {
  import opened Results

  const TransfersApiPath := "v1/transfers"
  const QuotesApiPath := "v2/quotes"
  const LiveRateApiPath := "v1/rates"
  const CancelTransferApiPath := "v1/transfers/{transferId}/cancel"
  const TransferIdPlaceholder := "{transferId}"

  predicate IsDigit(c: char) {
    '0' <= c <= '9'
  }

  function DigitChar(d: nat): (c: char)
    requires d < 10
    ensures IsDigit(c)
  {
    ('0' as int + d) as char
  }

  function DigitValue(c: char): (d: nat)
    requires IsDigit(c)
    ensures d < 10
  {
    c as int - '0' as int
  }

  /** Base-10 text of n, without leading zeros. */
  function Decimal(n: nat): (s: string)
    ensures |s| > 0
    ensures forall i :: 0 <= i < |s| ==> IsDigit(s[i])
    ensures |s| > 1 ==> s[0] != '0'
  {
    if n < 10 then [DigitChar(n)] else Decimal(n / 10) + [DigitChar(n % 10)]
  }

  /** Reads a non-empty run of decimal digits. */
  function ParseDecimal(s: string): Option<nat> {
    if s != [] && forall i :: 0 <= i < |s| ==> IsDigit(s[i]) then Some(DigitsValue(s)) else None
  }

  function DigitsValue(s: string): nat
    requires forall i :: 0 <= i < |s| ==> IsDigit(s[i])
  {
    if s == [] then 0 else 10 * DigitsValue(s[..|s| - 1]) + DigitValue(s[|s| - 1])
  }

  lemma {:induction false} DecimalRoundTrip(n: nat)
    ensures ParseDecimal(Decimal(n)) == Some(n)
  {
    var s := Decimal(n);
    if n < 10 {
      assert s[..0] == [];
      assert DigitsValue(s) == 10 * DigitsValue(s[..0]) + DigitValue(s[0]);
      assert DigitValue(DigitChar(n)) == n;
    } else {
      DecimalRoundTrip(n / 10);
      assert s[..|s| - 1] == Decimal(n / 10);
      assert DigitValue(s[|s| - 1]) == n % 10;
    }
  }

  /** Different identifiers have different decimal texts. */
  lemma DecimalInjective(a: nat, b: nat)
    requires Decimal(a) == Decimal(b)
    ensures a == b
  {
    DecimalRoundTrip(a);
    DecimalRoundTrip(b);
  }

  /** `strings.Replace(s, pattern, replacement, 1)`: the first occurrence of pattern is replaced. */
  function ReplaceFirst(s: string, pattern: string, replacement: string): (r: string)
    ensures r == s || |r| == |s| - |pattern| + |replacement|
  {
    if pattern <= s then replacement + s[|pattern|..]
    else if s == [] then []
    else [s[0]] + ReplaceFirst(s[1..], pattern, replacement)
  }

  predicate OccursAt(s: string, pattern: string, k: nat) {
    k + |pattern| <= |s| && s[k..k + |pattern|] == pattern
  }

  /** Dropping the first character moves every later occurrence one place to the left. */
  lemma OccurrenceInTail(s: string, pattern: string, k: nat)
    requires 0 < k && OccursAt(s, pattern, k)
    requires forall j :: 0 <= j < k ==> !OccursAt(s, pattern, j)
    ensures OccursAt(s[1..], pattern, k - 1)
    ensures forall j :: 0 <= j < k - 1 ==> !OccursAt(s[1..], pattern, j)
  {
    forall j | 0 <= j < k - 1
      ensures !OccursAt(s[1..], pattern, j)
    {
      assert !OccursAt(s, pattern, j + 1);
      assert s[1..][j..j + |pattern|] == s[j + 1..j + 1 + |pattern|];
    }
    assert s[1..][k - 1..k - 1 + |pattern|] == s[k..k + |pattern|];
  }

  /** When the first occurrence of pattern is at k, exactly that slice is replaced. */
  lemma {:induction false} ReplaceFirstAt(s: string, pattern: string, replacement: string, k: nat)
    requires OccursAt(s, pattern, k)
    requires forall j :: 0 <= j < k ==> !OccursAt(s, pattern, j)
    ensures ReplaceFirst(s, pattern, replacement) == s[..k] + replacement + s[k + |pattern|..]
  {
    if k == 0 {
      assert pattern <= s;
    } else {
      assert !OccursAt(s, pattern, 0);
      var t := s[1..];
      OccurrenceInTail(s, pattern, k);
      ReplaceFirstAt(t, pattern, replacement, k - 1);
      assert t[..k - 1] == s[1..k];
      assert t[k - 1 + |pattern|..] == s[k + |pattern|..];
      assert [s[0]] + s[1..k] == s[..k];
    }
  }

  /** When pattern does not occur, the text is returned unchanged. */
  lemma {:induction false} ReplaceFirstAbsent(s: string, pattern: string, replacement: string)
    requires forall j :: 0 <= j <= |s| ==> !OccursAt(s, pattern, j)
    ensures ReplaceFirst(s, pattern, replacement) == s
  {
    assert !OccursAt(s, pattern, 0);
    if s != [] {
      forall j | 0 <= j <= |s[1..]|
        ensures !OccursAt(s[1..], pattern, j)
      {
        assert !OccursAt(s, pattern, j + 1);
        if j + |pattern| <= |s[1..]| {
          assert s[1..][j..j + |pattern|] == s[j + 1..j + 1 + |pattern|];
        }
      }
      ReplaceFirstAbsent(s[1..], pattern, replacement);
    }
  }

  const CancelPrefix := "v1/transfers/"
  const CancelSuffix := "/cancel"

  /** The placeholder of the cancel template first occurs right after `v1/transfers/`. */
  lemma CancelPlaceholderFirstAt()
    ensures OccursAt(CancelTransferApiPath, TransferIdPlaceholder, |CancelPrefix|)
    ensures forall j :: 0 <= j < |CancelPrefix| ==> !OccursAt(CancelTransferApiPath, TransferIdPlaceholder, j)
    ensures CancelTransferApiPath[..|CancelPrefix|] == CancelPrefix
    ensures CancelTransferApiPath[|CancelPrefix| + |TransferIdPlaceholder|..] == CancelSuffix
  {
    var t := CancelTransferApiPath;
    assert t[..|CancelPrefix|] == CancelPrefix;
    assert TransferIdPlaceholder[0] !in CancelPrefix;
    forall j | 0 <= j < |CancelPrefix|
      ensures !OccursAt(t, TransferIdPlaceholder, j)
    {
      assert t[j] == CancelPrefix[j] && CancelPrefix[j] in CancelPrefix;
    }
  }

  /** The path of the cancel request for a transfer id. */
  function CancelPath(id: nat): (path: string)
    ensures path == CancelPrefix + Decimal(id) + CancelSuffix
  {
    CancelPlaceholderFirstAt();
    ReplaceFirstAt(CancelTransferApiPath, TransferIdPlaceholder, Decimal(id), |CancelPrefix|);
    ReplaceFirst(CancelTransferApiPath, TransferIdPlaceholder, Decimal(id))
  }

  /** How the provider reads the transfer id back out of a cancel path. */
  function ParseCancelPath(path: string): Option<nat> {
    if CancelPrefix <= path && |CancelPrefix| + |CancelSuffix| <= |path|
       && path[|path| - |CancelSuffix|..] == CancelSuffix
    then ParseDecimal(path[|CancelPrefix|..|path| - |CancelSuffix|])
    else None
  }

  /** The cancel request always names the transfer it was built for. */
  lemma CancelPathRoundTrip(id: nat)
    ensures ParseCancelPath(CancelPath(id)) == Some(id)
  {
    var path := CancelPath(id);
    var d := Decimal(id);
    assert path[|CancelPrefix|..|path| - |CancelSuffix|] == d;
    assert path[|path| - |CancelSuffix|..] == CancelSuffix;
    DecimalRoundTrip(id);
  }

  /** How the provider reads the quote id back out of a quote-detail path. */
  function ParseQuoteDetailPath(path: string): Option<string> {
    if QuotesApiPath + "/" <= path then Some(path[|QuotesApiPath + "/"|..]) else None
  }

  /** The path of the quote-detail request; it always names the quote it was built for. */
  function QuoteDetailPath(quoteUuid: string): (path: string)
    ensures ParseQuoteDetailPath(path) == Some(quoteUuid)
  {
    assert QuotesApiPath + "/" + quoteUuid == (QuotesApiPath + "/") + quoteUuid;
    QuotesApiPath + "/" + quoteUuid
  }
}
