/**
 * Page-id string helpers (src/utils/helpers.ts): the regular expressions
 * `/^\d+$/` and `/view_all_page_id=(\d+)/` written out as scans.  JavaScript's
 * `\d` without the `u` flag is exactly the ASCII digits, and `$` without the
 * `m` flag matches only at the very end of the string.
 */
module Helpers {
  import opened Wrappers
  import opened JsonValue

  predicate IsDigit(c: char) {
    '0' <= c <= '9'
  }

  /** Every character of `s` is a digit. */
  function AllDigits(s: string): (r: bool)
    ensures r <==> forall i :: 0 <= i < |s| ==> IsDigit(s[i])
  {
    if s == [] then true else IsDigit(s[0]) && AllDigits(s[1..])
  }

  /** `/^\d+$/.test(pageId)` */
  function IsValidPageId(pageId: string): (r: bool)
    ensures r <==> |pageId| > 0 && forall i :: 0 <= i < |pageId| ==> IsDigit(pageId[i])
  {
    pageId != [] && AllDigits(pageId)
  }

  const Marker := "view_all_page_id="

  /** The pattern `view_all_page_id=\d` matches `url` at position `i`. */
  predicate MatchAt(url: string, i: nat) {
    i + |Marker| < |url| && url[i..i + |Marker|] == Marker && IsDigit(url[i + |Marker|])
  }

  /** The length of the longest run of digits in `s` starting at `from` (what `\d+` consumes). */
  function DigitRun(s: string, from: nat): (n: nat)
    requires from <= |s|
    ensures from + n <= |s|
    ensures forall j :: from <= j < from + n ==> IsDigit(s[j])
    ensures from + n == |s| || !IsDigit(s[from + n])
    decreases |s| - from
  {
    if from == |s| || !IsDigit(s[from]) then 0 else 1 + DigitRun(s, from + 1)
  }

  /** The leftmost position at or after `from` where the pattern matches. */
  function FirstMatch(url: string, from: nat): (r: Option<nat>)
    ensures r.Some? ==> from <= r.value && MatchAt(url, r.value)
    ensures r.Some? ==> forall j :: from <= j < r.value ==> !MatchAt(url, j)
    ensures r.None? ==> forall j :: from <= j ==> !MatchAt(url, j)
    decreases |url| - from
  {
    if from + |Marker| >= |url| then None
    else if MatchAt(url, from) then Some(from)
    else FirstMatch(url, from + 1)
  }

  /** The digits the capture group `(\d+)` takes at a match found at `i`. */
  function CapturedAt(url: string, i: nat): string
    requires MatchAt(url, i)
  {
    url[i + |Marker|..i + |Marker| + DigitRun(url, i + |Marker|)]
  }

  /** `url.match(/view_all_page_id=(\d+)/)?.[1] ?? null` */
  function ExtractPageIdFromUrl(url: string): (r: Option<string>)
    ensures r.None? <==> forall i :: !MatchAt(url, i)
    ensures r.Some? ==> IsValidPageId(r.value)
  {
    match FirstMatch(url, 0)
    case None => None
    case Some(i) => Some(CapturedAt(url, i))
  }

  /**
   * When the leftmost match of `view_all_page_id=` followed by a digit is at
   * `i`, the result is the run of digits starting right after the marker,
   * taken as far as it goes.
   */
  lemma {:induction false} ExtractIsLeftmostMaximal(url: string, i: nat)
    requires MatchAt(url, i)
    requires forall j :: 0 <= j < i ==> !MatchAt(url, j)
    ensures ExtractPageIdFromUrl(url) == Some(CapturedAt(url, i))
    ensures var n := |CapturedAt(url, i)|;
      n > 0 && (i + |Marker| + n == |url| || !IsDigit(url[i + |Marker| + n]))
  {
    var k := FirstMatch(url, 0).value;
    assert k == i by {
      assert k <= i && MatchAt(url, k);
    }
  }
}
