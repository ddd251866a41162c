/** pkg/utils/validateinput.go: the subscription- and tenant-ID check used by
    the command-line front end before anything else runs. */
module ValidateInput {
  import opened IdPattern

  /** `validateId`: an anchored match of the UUID pattern. */
  function ValidateId(inputId: string): (r: bool)
    ensures r <==> BracedUuidText(inputId)
  {
    PatternIffLayout(inputId);
    Matches(UuidPattern, inputId)
  }

  function CheckValidSubscriptionID(subscriptionID: string): (r: bool)
    ensures r <==> BracedUuidText(subscriptionID)
  {
    ValidateId(subscriptionID)
  }

  /** Tenant IDs are checked by the very same predicate as subscription IDs. */
  function CheckValidTenantID(tenantID: string): (r: bool)
    ensures r == CheckValidSubscriptionID(tenantID)
  {
    ValidateId(tenantID)
  }

  /** Every accepted ID is 36 characters long, plus one for each brace. */
  lemma AcceptedLength(s: string)
    requires ValidateId(s)
    ensures 36 <= |s| <= 38
  {
  }

  /** The two braces are independent of each other: any of the four
      combinations around a valid 36-character ID is accepted. */
  lemma BracesIndependent(t: string)
    requires UuidText(t)
    ensures ValidateId(t)
    ensures ValidateId("{" + t) && ValidateId(t + "}") && ValidateId("{" + t + "}")
  {
    assert ("{" + t)[1..] == t;
    assert (t + "}")[..36] == t;
    assert ("{" + t + "}")[1..37] == t;
  }

  /** An accepted ID carries its four hyphens at the fixed positions and hex
      digits everywhere else, shifted by one when it opens with a brace. */
  lemma HyphensRequired(s: string)
    requires ValidateId(s)
    ensures var off := if s[0] == '{' then 1 else 0;
      forall i | IsHyphenPosition(i) :: s[i + off] == '-'
    ensures var off := if s[0] == '{' then 1 else 0;
      forall i | 0 <= i < 36 && !IsHyphenPosition(i) :: IsHex(s[i + off])
  {
    if |s| == 36 {
    } else if s[0] == '{' {
      assert forall i | 0 <= i < 36 :: s[1..][i] == s[i + 1];
    } else {
      assert forall i | 0 <= i < 36 :: s[..36][i] == s[i];
    }
  }

  /** ASCII lower-casing of one character. */
  function LowerAscii(c: char): char
  {
    if 'A' <= c <= 'Z' then (c as int + 32) as char else c
  }

  function Lowered(s: string): (r: string)
    ensures |r| == |s| && forall i | 0 <= i < |s| :: r[i] == LowerAscii(s[i])
  {
    seq(|s|, i requires 0 <= i < |s| => LowerAscii(s[i]))
  }

  lemma UuidTextLowered(t: string)
    ensures UuidText(t) <==> UuidText(Lowered(t))
  {
    var u := Lowered(t);
    if |t| == 36 {
      forall i | 0 <= i < 36
        ensures (t[i] == '-' <==> u[i] == '-') && (IsHex(t[i]) <==> IsHex(u[i]))
      {
      }
    }
  }

  /** Hex digits are matched in either case: an ID is accepted exactly when
      its lower-cased form is. */
  lemma CaseInsensitive(s: string)
    ensures ValidateId(s) <==> ValidateId(Lowered(s))
  {
    var u := Lowered(s);
    UuidTextLowered(s);
    if |s| >= 37 {
      assert u[1..] == Lowered(s[1..]);
      assert u[..36] == Lowered(s[..36]);
      UuidTextLowered(s[1..]);
      UuidTextLowered(s[..36]);
    }
    if |s| == 38 {
      assert u[1..37] == Lowered(s[1..37]);
      UuidTextLowered(s[1..37]);
    }
  }

  /** The accepted examples of the package's tests. */
  lemma AcceptsDecimalDigits()
    ensures ValidateId("12345678-1234-1234-1234-123456789012")
  {
    var t := "12345678-1234-1234-1234-123456789012";
    forall i | 0 <= i < 8 ensures IsHex(t[i]) { }
    forall i | 9 <= i < 13 ensures IsHex(t[i]) { }
    forall i | 14 <= i < 18 ensures IsHex(t[i]) { }
    forall i | 19 <= i < 23 ensures IsHex(t[i]) { }
    forall i | 24 <= i < 36 ensures IsHex(t[i]) { }
    assert UuidText(t);
    BracesIndependent(t);
  }

  lemma AcceptsLowerCaseHex()
    ensures ValidateId("abcdef12-abcd-abcd-abcd-123456789abc")
  {
    var t := "abcdef12-abcd-abcd-abcd-123456789abc";
    forall i | 0 <= i < 8 ensures IsHex(t[i]) { }
    forall i | 9 <= i < 13 ensures IsHex(t[i]) { }
    forall i | 14 <= i < 18 ensures IsHex(t[i]) { }
    forall i | 19 <= i < 23 ensures IsHex(t[i]) { }
    forall i | 24 <= i < 36 ensures IsHex(t[i]) { }
    assert UuidText(t);
    BracesIndependent(t);
  }

  lemma AcceptsUpperCaseHex()
    ensures ValidateId("ABCDEF12-ABCD-ABCD-ABCD-123456789ABC")
  {
    var t := "ABCDEF12-ABCD-ABCD-ABCD-123456789ABC";
    forall i | 0 <= i < 8 ensures IsHex(t[i]) { }
    forall i | 9 <= i < 13 ensures IsHex(t[i]) { }
    forall i | 14 <= i < 18 ensures IsHex(t[i]) { }
    forall i | 19 <= i < 23 ensures IsHex(t[i]) { }
    forall i | 24 <= i < 36 ensures IsHex(t[i]) { }
    assert UuidText(t);
    BracesIndependent(t);
  }

  /** The rejected examples of the package's tests: too short, hyphens
      missing, empty, not hexadecimal, trailing characters. */
  lemma RejectsTestVectors()
    ensures !ValidateId("12345678-1234-1234-1234")
    ensures !ValidateId("12345678123412341234123456789012")
    ensures !ValidateId("")
    ensures !ValidateId("not-a-valid-uuid")
    ensures !ValidateId("12345678-1234-1234-1234-123456789012-extra")
  {
  }
}
