/**
 * The QR scan page src/app/scan/page.tsx: turning the decoded text of a QR
 * code into a profile page to open, the page state the decode callback
 * updates, and the check on a profile id typed in by hand.
 */
module ScanPage {
  import opened Wrappers
  import opened JsText

  const ProfilePrefix := "/profile/"
  const ProfileWord := "profile/"

  /** A route of the profile page: "/profile/" followed by a non-empty run of digits. */
  predicate IsProfilePath(path: string) {
    |path| > |ProfilePrefix| && path[..|ProfilePrefix|] == ProfilePrefix && AllDigits(path[|ProfilePrefix|..])
  }

  lemma ProfilePathOf(d: string)
    requires d != [] && AllDigits(d)
    ensures IsProfilePath(ProfilePrefix + d)
  {
    assert (ProfilePrefix + d)[|ProfilePrefix|..] == d;
    assert (ProfilePrefix + d)[..|ProfilePrefix|] == ProfilePrefix;
  }

  // ---------------------------------------------------------------------
  // The two regular expressions

  /** s ends with "/profile/" and then the digits d. */
  predicate EndsWithProfileId(s: string, d: string) {
    d != [] && AllDigits(d) && |s| >= |d| + 9
    && s[|s| - |d|..] == d && s[|s| - |d| - 9..|s| - |d|] == ProfilePrefix
  }

  /** text.match(/\/profile\/(\d+)$/) and its group: the digits ending the text, if "/profile/" precedes them. */
  function MatchProfileSuffix(s: string): (r: Option<string>)
    ensures r.Some? ==> EndsWithProfileId(s, r.value)
  {
    var n := CountWhileFromEnd(s, IsDigit);
    if n > 0 && n + 9 <= |s| && s[|s| - n - 9..|s| - n] == ProfilePrefix then Some(s[|s| - n..]) else None
  }

  /** The digits after a trailing "/profile/" are all the trailing digits of the text. */
  lemma TrailingDigitsAreId(s: string, d: string)
    requires EndsWithProfileId(s, d)
    ensures CountWhileFromEnd(s, IsDigit) == |d|
  {
    var n := CountWhileFromEnd(s, IsDigit);
    assert s[|s| - |d| - 1] == '/' by {
      assert s[|s| - |d| - 9..|s| - |d|][8] == ProfilePrefix[8];
    }
  }

  /** The suffix pattern matches exactly the texts ending in "/profile/<digits>", and captures those digits. */
  lemma MatchProfileSuffixComplete(s: string, d: string)
    requires EndsWithProfileId(s, d)
    ensures MatchProfileSuffix(s) == Some(d)
  {
    TrailingDigitsAreId(s, d);
  }

  /** "profile/" followed by a digit starts at position i of s. */
  predicate RefAt(s: string, i: int) {
    0 <= i && i + 9 <= |s| && s[i..i + 8] == ProfileWord && IsDigit(s[i + 8])
  }

  /** The leftmost position at or after k where the pattern profile\/\d starts. */
  function FirstRefFrom(s: string, k: nat): (r: Option<nat>)
    requires k <= |s|
    ensures r.Some? ==> k <= r.value && RefAt(s, r.value) && forall i :: k <= i < r.value ==> !RefAt(s, i)
    ensures r.None? ==> forall i :: k <= i ==> !RefAt(s, i)
    decreases |s| - k
  {
    if k == |s| then None
    else if RefAt(s, k) then Some(k)
    else FirstRefFrom(s, k + 1)
  }

  /** The greedy \d+ group of a match at position i. */
  function DigitRunAt(s: string, i: nat): (d: string)
    requires RefAt(s, i)
    ensures d != [] && AllDigits(d) && i + 8 + |d| <= |s| && s[i + 8..i + 8 + |d|] == d
    ensures i + 8 + |d| < |s| ==> !IsDigit(s[i + 8 + |d|])
  {
    var n := CountWhile(s[i + 8..], IsDigit);
    s[i + 8..i + 8 + n]
  }

  /** text.match(/profile\/(\d+)/) and its group: the digit run of the leftmost occurrence. */
  function MatchProfileAnywhere(s: string): (r: Option<string>)
    ensures r.None? <==> forall i :: 0 <= i < |s| ==> !RefAt(s, i)
  {
    var k := FirstRefFrom(s, 0);
    if k.Some? then Some(DigitRunAt(s, k.value)) else None
  }

  // ---------------------------------------------------------------------
  // The decode callback

  /** What a decoded text leads to: opening a profile page, or the invalid-code error. */
  datatype QrOutcome = Navigate(path: string) | InvalidQr

  /**
   * The decision inside the decode callback: a trailing "/profile/<digits>"
   * wins; otherwise the first "profile/<digits>" anywhere; otherwise the
   * code is rejected.
   */
  function DecideQr(text: string): (o: QrOutcome)
    ensures o.Navigate? ==> IsProfilePath(o.path)
    ensures o == InvalidQr <==> forall i :: 0 <= i < |text| ==> !RefAt(text, i)
  {
    var suffix := MatchProfileSuffix(text);
    if suffix.Some? then
      var d := suffix.value;
      assert RefAt(text, |text| - |d| - 8) by {
        assert text[|text| - |d| - 8..|text| - |d|] == text[|text| - |d| - 9..|text| - |d|][1..];
        assert text[|text| - |d|] == d[0];
      }
      ProfilePathOf(d);
      Navigate(ProfilePrefix + d)
    else
      var anywhere := MatchProfileAnywhere(text);
      if anywhere.Some? then
        ProfilePathOf(anywhere.value);
        Navigate(ProfilePrefix + anywhere.value)
      else InvalidQr
  }

  /** A text ending in "/profile/<digits>" opens that profile, whatever references come before it. */
  lemma SuffixWins(pre: string, d: string)
    requires d != [] && AllDigits(d)
    ensures DecideQr(pre + ProfilePrefix + d) == Navigate(ProfilePrefix + d)
  {
    var s := pre + ProfilePrefix + d;
    assert s[|s| - |d|..] == d;
    assert s[|s| - |d| - 9..|s| - |d|] == ProfilePrefix;
    MatchProfileSuffixComplete(s, d);
  }

  /** The group of a match is the whole digit run after "profile/". */
  lemma DigitRunIs(s: string, i: nat, a: string)
    requires RefAt(s, i) && a != [] && AllDigits(a)
    requires i + 8 + |a| <= |s| && s[i + 8..i + 8 + |a|] == a
    requires i + 8 + |a| < |s| ==> !IsDigit(s[i + 8 + |a|])
    ensures DigitRunAt(s, i) == a
  {
  }

  /** With no reference before pre's end, the anywhere pattern captures the digits right after it. */
  lemma LeftmostReference(pre: string, a: string, post: string)
    requires a != [] && AllDigits(a) && (post != [] ==> !IsDigit(post[0]))
    requires forall i :: 0 <= i < |pre| ==> !RefAt(pre + ProfileWord + a + post, i)
    ensures MatchProfileAnywhere(pre + ProfileWord + a + post) == Some(a)
  {
    var s := pre + ProfileWord + a + post;
    var i := |pre|;
    assert s[i..i + 8] == ProfileWord;
    assert s[i + 8..i + 8 + |a|] == a;
    assert s[i + 8] == a[0];
    assert RefAt(s, i);
    if i + 8 + |a| < |s| {
      assert s[i + 8 + |a|] == post[0];
    }
    DigitRunIs(s, i, a);
  }

  /**
   * Without a trailing "/profile/<digits>", the decode callback opens the
   * profile of the leftmost "profile/<digits>" reference, with its whole digit run.
   */
  lemma FallbackOpensLeftmost(pre: string, a: string, post: string)
    requires a != [] && AllDigits(a) && (post != [] ==> !IsDigit(post[0]))
    requires forall i :: 0 <= i < |pre| ==> !RefAt(pre + ProfileWord + a + post, i)
    requires MatchProfileSuffix(pre + ProfileWord + a + post).None?
    ensures DecideQr(pre + ProfileWord + a + post) == Navigate(ProfilePrefix + a)
  {
    LeftmostReference(pre, a, post);
  }

  /**
   * In a text such as "x/profile/1/profile/2" the leftmost reference is the
   * first id, yet the trailing rule is tried first and the page opened is
   * the second.
   */
  lemma SuffixBeatsEarlierReference(pre: string, a: string, b: string)
    requires a != [] && AllDigits(a) && b != [] && AllDigits(b)
    requires forall i :: 0 <= i < |pre| ==> !RefAt(pre + ProfileWord + a + ProfilePrefix + b, i)
    ensures MatchProfileAnywhere(pre + ProfileWord + a + ProfilePrefix + b) == Some(a)
    ensures DecideQr(pre + ProfileWord + a + ProfilePrefix + b) == Navigate(ProfilePrefix + b)
  {
    assert pre + ProfileWord + a + (ProfilePrefix + b) == pre + ProfileWord + a + ProfilePrefix + b;
    LeftmostReference(pre, a, ProfilePrefix + b);
    SuffixWins(pre + ProfileWord + a, b);
  }

  const InvalidQrMessage := "QR Code tidak valid. Pastikan ini adalah QR Code dari aplikasi kesehatan lansia."

  /** The scan page state the decode callback touches; the camera stream and the decoder are not modelled. */
  class Scanner {
    var isScanning: bool
    var error: string
    /** The routes handed to router.push, oldest first. */
    var pushed: seq<string>

    constructor()
      ensures !isScanning && error == [] && pushed == []
    {
      isScanning := false;
      error := [];
      pushed := [];
    }

    /** stopScanning, as far as page state goes. */
    method StopScanning()
      modifies this
      ensures !isScanning && error == old(error) && pushed == old(pushed)
    {
      isScanning := false;
    }

    /**
     * The decode callback on a frame: nothing for a frame without a code; a
     * recognised code stops scanning and opens the profile; any other code
     * sets the error and scanning goes on.
     */
    method OnScanResult(result: Option<string>)
      modifies this
      ensures result.None? ==> isScanning == old(isScanning) && error == old(error) && pushed == old(pushed)
      ensures result.Some? && DecideQr(result.value).Navigate? ==>
        !isScanning && error == old(error) && pushed == old(pushed) + [DecideQr(result.value).path]
      ensures result.Some? && DecideQr(result.value) == InvalidQr ==>
        isScanning == old(isScanning) && error == InvalidQrMessage && pushed == old(pushed)
      ensures forall k :: 0 <= k < |pushed| ==> k < |old(pushed)| || IsProfilePath(pushed[k])
    {
      if result.Some? {
        var outcome := DecideQr(result.value);
        match outcome
        case Navigate(path) =>
          StopScanning();
          pushed := pushed + [path];
        case InvalidQr =>
          error := InvalidQrMessage;
      }
    }
  }

  // ---------------------------------------------------------------------
  // Manual input

  /** What handleManualInput does with the prompt's answer. */
  datatype ManualOutcome = GoTo(path: string) | AlertNotNumber | NoAction

  const NotNumberMessage := "ID Profil harus berupa angka"

  /** handleManualInput: a non-empty all-digit answer opens that profile, any other non-empty answer alerts. */
  function HandleManualInput(answer: Option<string>): (o: ManualOutcome)
    ensures o.GoTo? <==> answer.Some? && answer.value != [] && AllDigits(answer.value)
    ensures o.GoTo? ==> o.path == ProfilePrefix + answer.value && IsProfilePath(o.path)
    ensures o == AlertNotNumber <==> answer.Some? && answer.value != [] && !AllDigits(answer.value)
    ensures o == NoAction <==> answer.None? || answer.value == []
  {
    if answer.Some? && answer.value != [] && AllDigits(answer.value) then
      ProfilePathOf(answer.value);
      GoTo(ProfilePrefix + answer.value)
    else if answer.Some? && answer.value != [] then AlertNotNumber
    else NoAction
  }

  /** Typing an id opens the same page as scanning the code of that profile's page. */
  lemma ManualAgreesWithScan(pre: string, id: string)
    requires id != [] && AllDigits(id)
    ensures HandleManualInput(Some(id)) == GoTo(ProfilePrefix + id)
    ensures DecideQr(pre + ProfilePrefix + id) == Navigate(HandleManualInput(Some(id)).path)
  {
    SuffixWins(pre, id);
  }
}
