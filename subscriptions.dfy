/** internal/pkg/azure/subscriptions/subscription.go: the oldest copy of the
    subscription-ID check, with the identical pattern text. */
module AzureSubscriptions {
  import opened IdPattern
  import UtilsSubscription

  function CheckValidSubscriptionID(subscriptionID: string): (r: bool)
    ensures r <==> BracedUuidText(subscriptionID)
    ensures r == UtilsSubscription.CheckValidSubscriptionID(subscriptionID)
  {
    PatternIffLayout(subscriptionID);
    Matches(UuidPattern, subscriptionID)
  }

  /** Hyphens are required at positions 9, 14, 19 and 24 counted from 1 at
      the first hex digit: a 36-character ID with any of them replaced is
      rejected, with or without braces. */
  lemma MissingHyphenRejected(t: string, i: nat, c: char)
    requires UuidText(t) && IsHyphenPosition(i) && c != '-'
    ensures !CheckValidSubscriptionID(t[i := c])
    ensures !CheckValidSubscriptionID("{" + t[i := c] + "}")
  {
    var u := t[i := c];
    assert ("{" + u + "}")[1..37] == u;
    assert ("{" + u + "}")[1..][..36] == u;
    assert ("{" + u + "}")[..36][0] == '{';
  }
}
