/** pkg/utils/subscription.go: an older copy of the subscription-ID check,
    with the identical pattern text. */
module UtilsSubscription {
  import opened IdPattern
  import ValidateInput

  function CheckValidSubscriptionID(subscriptionID: string): (r: bool)
    ensures r <==> BracedUuidText(subscriptionID)
    ensures r == ValidateInput.ValidateId(subscriptionID)
  {
    PatternIffLayout(subscriptionID);
    Matches(UuidPattern, subscriptionID)
  }

  /** Outside the four hyphen positions only hex digits, in either case, are
      accepted: one other character anywhere there rejects the ID. */
  lemma NonHexRejected(s: string, i: nat)
    requires |s| == 36 && i < 36 && !IsHyphenPosition(i) && !IsHex(s[i])
    ensures !CheckValidSubscriptionID(s)
  {
  }
}
