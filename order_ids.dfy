/**
 * Order identifiers: the canonical-form check `isValidOrderId`
 * (ChatInterface.tsx line 52) and the extraction `extractOrderId`
 * (lines 143-149), which runs `/(?:ORD-)?(\d{5})/i` over a message and
 * rebuilds `ORD-` followed by the captured digits.
 */
module OrderIds {
  import opened Wrappers
  import opened Text

  /** Five ASCII digits start at index `i` (the regex `\d{5}`). */
  predicate FiveDigitsAt(s: string, i: nat) {
    i + 5 <= |s| && forall k :: i <= k < i + 5 ==> IsDigit(s[k])
  }

  predicate HasFiveDigitRun(s: string) {
    exists q: nat :: q <= |s| && FiveDigitsAt(s, q)
  }

  /** `q` is the least index at which five digits start. */
  predicate IsFirstRun(s: string, q: nat) {
    FiveDigitsAt(s, q) && forall k: nat :: k < q ==> !FiveDigitsAt(s, k)
  }

  /** `/^ORD-\d{5}$/.test(id)`: exactly `ORD-` and five digits. */
  predicate IsValidOrderId(id: string) {
    |id| == 9 && id[..4] == "ORD-" && FiveDigitsAt(id, 4)
  }

  /** The group `(?:ORD-)` under the `i` flag matches at index `i`. */
  predicate PrefixAt(s: string, i: nat) {
    && i + 4 <= |s|
    && UpperChar(s[i]) == 'O' && UpperChar(s[i + 1]) == 'R' && UpperChar(s[i + 2]) == 'D'
    && s[i + 3] == '-'
  }

  /**
   * One attempt of `/(?:ORD-)?(\d{5})/i` starting at index `p`: the greedy
   * optional prefix is tried first and dropped on backtracking. The result is
   * where the captured digits start.
   */
  function MatchAt(s: string, p: nat): (r: Option<nat>)
    ensures r.Some? ==> FiveDigitsAt(s, r.value)
    ensures r.Some? ==> r.value == p || (r.value == p + 4 && PrefixAt(s, p))
    ensures r.None? <==> !FiveDigitsAt(s, p) && !(PrefixAt(s, p) && FiveDigitsAt(s, p + 4))
  {
    if PrefixAt(s, p) && FiveDigitsAt(s, p + 4) then Some(p + 4)
    else if FiveDigitsAt(s, p) then Some(p)
    else None
  }

  /**
   * The regex engine's scan from index `p` on: the first start position at
   * which an attempt succeeds decides the match. Whichever branch of the
   * optional prefix succeeds, the captured digits are the first run of five
   * digits at or after `p`.
   */
  function Search(s: string, p: nat): (r: Option<nat>)
    ensures r.Some? ==> p <= r.value && FiveDigitsAt(s, r.value)
    ensures r.Some? ==> forall k: nat :: p <= k < r.value ==> !FiveDigitsAt(s, k)
    ensures r.None? ==> forall k: nat :: p <= k ==> !FiveDigitsAt(s, k)
    decreases |s| + 1 - p
  {
    if p > |s| then None
    else
      match MatchAt(s, p)
      case Some(q) =>
        // with the prefix, the four characters before `q` end in '-', so no
        // run of five digits starts among them
        assert forall k: nat :: p <= k < q ==> !FiveDigitsAt(s, k) by {
          forall k: nat | p <= k < q ensures !FiveDigitsAt(s, k) {
            assert !IsDigit(s[p + 3]);
          }
        }
        Some(q)
      case None => Search(s, p + 1)
  }

  /**
   * `extractOrderId`: the canonical id built from the first run of five
   * digits in the message, if there is one. A longer run is cut to its first
   * five digits, and the result always passes `isValidOrderId`.
   */
  function ExtractOrderId(message: string): (r: Option<string>)
    ensures r.Some? <==> HasFiveDigitRun(message)
    ensures r.Some? ==> IsValidOrderId(r.value)
    ensures forall q: nat :: IsFirstRun(message, q) ==> r == Some("ORD-" + message[q..q + 5])
  {
    match Search(message, 0)
    case Some(q) =>
      var id := "ORD-" + message[q..q + 5];
      assert id[..4] == "ORD-";
      assert forall j :: 4 <= j < 9 ==> id[j] == message[q + j - 4];
      FirstRunUnique(message, q);
      Some(id)
    case None => None
  }

  lemma FirstRunUnique(s: string, q: nat)
    requires IsFirstRun(s, q)
    ensures forall q': nat :: IsFirstRun(s, q') ==> q' == q
  {
  }

  // ---- properties -------------------------------------------------------

  /**
   * While an order id is awaited the handler falls back to the upper-cased
   * text when nothing is extracted. That fallback never passes validation,
   * so the format error is given exactly when the text holds no run of five
   * digits.
   */
  lemma UpperFallbackInvalid(t: string)
    requires !HasFiveDigitRun(t)
    ensures !IsValidOrderId(ToUpper(t))
  {
    if IsValidOrderId(ToUpper(t)) {
      var u := ToUpper(t);
      forall k | 4 <= k < 9 ensures IsDigit(t[k]) {
        assert u[k] == UpperChar(t[k]);
      }
      assert FiveDigitsAt(t, 4);
    }
  }

  /** Upper-casing a message does not change what is extracted from it. */
  lemma ExtractCaseInsensitive(t: string)
    ensures ExtractOrderId(ToUpper(t)) == ExtractOrderId(t)
  {
    var u := ToUpper(t);
    assert forall k: nat :: FiveDigitsAt(u, k) <==> FiveDigitsAt(t, k) by {
      forall k: nat ensures FiveDigitsAt(u, k) <==> FiveDigitsAt(t, k) {
        assert forall j :: 0 <= j < |t| ==> (IsDigit(u[j]) <==> IsDigit(t[j]));
      }
    }
    if HasFiveDigitRun(t) {
      var q := FirstRunOf(t);
      assert IsFirstRun(u, q);
      assert u[q..q + 5] == t[q..q + 5];
    }
  }

  /** The first run of five digits, in a text that has one. */
  lemma FirstRunOf(s: string) returns (q: nat)
    requires HasFiveDigitRun(s)
    ensures IsFirstRun(s, q)
  {
    var r := Search(s, 0);
    q := r.value;
  }

  /** A canonical id is extracted as itself: extraction is idempotent. */
  lemma ExtractCanonical(id: string)
    requires IsValidOrderId(id)
    ensures ExtractOrderId(id) == Some(id)
  {
    assert id[3] == id[..4][3] == '-';
    assert IsFirstRun(id, 4);
    assert id == "ORD-" + id[4..9];
  }

  /** Five digits with no digit before them form the first run. */
  lemma FirstRunAfterNonDigits(pre: string, digits: string, post: string)
    requires |digits| == 5
    requires forall c :: c in digits ==> IsDigit(c)
    requires forall c :: c in pre ==> !IsDigit(c)
    ensures IsFirstRun(pre + digits + post, |pre|)
    ensures ExtractOrderId(pre + digits + post) == Some("ORD-" + digits)
  {
    var s := pre + digits + post;
    var q := |pre|;
    forall k | q <= k < q + 5 ensures IsDigit(s[k]) {
      assert s[k] == digits[k - q];
      assert digits[k - q] in digits;
    }
    forall k: nat | k < q ensures !FiveDigitsAt(s, k) {
      assert s[k] == pre[k];
      assert pre[k] in pre;
    }
    assert s[q..q + 5] == digits;
  }

  /** Examples: with or without the prefix, inside a sentence, and a six-digit run. */
  lemma ExtractPrefixed()
    ensures ExtractOrderId("ORD-12345") == Some("ORD-12345")
  {
    FirstRunAfterNonDigits("ORD-", "12345", "");
    assert "ORD-12345" == "ORD-" + "12345" + "";
    assert "ORD-" + "12345" == "ORD-12345";
  }

  lemma ExtractBareDigits()
    ensures ExtractOrderId("12345") == Some("ORD-12345")
  {
    FirstRunAfterNonDigits("", "12345", "");
    assert "12345" == "" + "12345" + "";
    assert "ORD-" + "12345" == "ORD-12345";
  }

  lemma ExtractFromSentence()
    ensures ExtractOrderId("order 12345 please") == Some("ORD-12345")
  {
    FirstRunAfterNonDigits("order ", "12345", " please");
    assert "order 12345 please" == "order " + "12345" + " please";
    assert "ORD-" + "12345" == "ORD-12345";
  }

  lemma ExtractTruncatesLongRun()
    ensures ExtractOrderId("ord-123456") == Some("ORD-12345")
  {
    FirstRunAfterNonDigits("ord-", "12345", "6");
    assert "ord-123456" == "ord-" + "12345" + "6";
    assert "ORD-" + "12345" == "ORD-12345";
  }
}
