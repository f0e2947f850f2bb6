/**
 * Intent detection, `detectIntent` (ChatInterface.tsx lines 124-141):
 * keyword matching on the lower-cased message, the status keywords tested
 * before the cancellation keywords.
 */
module Intents {
  import opened Text

  /** What the user wants; `NoIntent` stands for the source's `null`. */
  datatype Intent = NoIntent | Status | Cancel

  /** The status keywords: "where" together with "order", or "status", "track", "delivery". */
  predicate MentionsStatus(lower: string) {
    || (Contains(lower, "where") && Contains(lower, "order"))
    || Contains(lower, "status")
    || Contains(lower, "track")
    || Contains(lower, "delivery")
  }

  /** The cancellation keywords: "cancel", "return", "refund". */
  predicate MentionsCancel(lower: string) {
    Contains(lower, "cancel") || Contains(lower, "return") || Contains(lower, "refund")
  }

  /**
   * `detectIntent`: status when the lower-cased message holds a status
   * keyword; otherwise cancel when it holds a cancellation keyword;
   * otherwise no intent.
   */
  function DetectIntent(message: string): (r: Intent)
    ensures r == Status <==> MentionsStatus(ToLower(message))
    ensures r == Cancel <==> !MentionsStatus(ToLower(message)) && MentionsCancel(ToLower(message))
    ensures r == NoIntent <==> !MentionsStatus(ToLower(message)) && !MentionsCancel(ToLower(message))
  {
    var lowerMessage := ToLower(message);
    if MentionsStatus(lowerMessage) then Status
    else if MentionsCancel(lowerMessage) then Cancel
    else NoIntent
  }

  /** When both keyword sets occur, status wins. */
  lemma StatusWins(message: string)
    requires MentionsStatus(ToLower(message)) && MentionsCancel(ToLower(message))
    ensures DetectIntent(message) == Status
  {
  }

  /** Matching ignores letter case. */
  lemma DetectIntentCaseInsensitive(message: string)
    ensures DetectIntent(ToUpper(message)) == DetectIntent(message)
  {
    LowerOfUpper(message);
  }

  // ---- examples: a status question, a refund request, a greeting -----------

  lemma DetectWhereIsMyOrder()
    ensures DetectIntent("Where is my order?") == Status
  {
    var s := "Where is my order?";
    assert s[0] == 'W' && s[1] == 'h' && s[2] == 'e' && s[3] == 'r' && s[4] == 'e';
    LowerOccurs(s, 0, "where");
    assert s[12] == 'o' && s[13] == 'r' && s[14] == 'd' && s[15] == 'e' && s[16] == 'r';
    LowerOccurs(s, 12, "order");
  }

  lemma DetectRefund()
    ensures DetectIntent("I want a refund") == Cancel
  {
    var s := "I want a refund";
    assert s[9] == 'r' && s[10] == 'e' && s[11] == 'f' && s[12] == 'u' && s[13] == 'n' && s[14] == 'd';
    LowerOccurs(s, 9, "refund");
    RefundLacks('h', "where");
    RefundLacks('s', "status");
    RefundLacks('k', "track");
    RefundLacks('l', "delivery");
  }

  /** "I want a refund" lacks `c` in either case, so it does not hold `keyword`. */
  lemma RefundLacks(c: char, keyword: string)
    requires c in {'h', 's', 'k', 'l'} && c in keyword
    ensures !Contains(ToLower("I want a refund"), keyword)
  {
    var s := "I want a refund";
    forall i | 0 <= i < |s| ensures s[i] != c && s[i] != UpperChar(c) {
    }
    LowerLacks(s, c);
    MissingChar(ToLower(s), keyword, c);
  }

  lemma DetectHello()
    ensures DetectIntent("hello") == NoIntent
  {
    LowerIdentity("hello");
    MissingChar("hello", "where", 'w');
    MissingChar("hello", "status", 's');
    MissingChar("hello", "track", 't');
    MissingChar("hello", "delivery", 'd');
    MissingChar("hello", "cancel", 'c');
    MissingChar("hello", "return", 'r');
    MissingChar("hello", "refund", 'r');
  }
}
