/** The cookie strings the sign-in and registration forms assign to
    `document.cookie`: site-wide, kept for one week. */
module SessionCookie {
  import opened Decimal

  /** 60 * 60 * 24 * 7 seconds. */
  const MaxAgeSeconds: nat := 60 * 60 * 24 * 7

  /** The assignment `name=value`, site-wide, with a one-week max-age. */
  function CookieAssignment(name: string, value: string): (c: string)
    ensures |c| > |name| + 1 + |value|
    ensures c[..|name| + 1] == name + "=" && c[|name| + 1..|name| + 1 + |value|] == value
    ensures c == name + "=" + value + "; path=/; max-age=604800"
  {
    MaxAgeText();
    var c := name + "=" + value + "; path=/; max-age=" + NatToString(MaxAgeSeconds);
    assert c[..|name| + 1] == name + "=";
    assert c[|name| + 1..|name| + 1 + |value|] == value;
    c
  }

  /** The max-age attribute prints as 604800. */
  lemma MaxAgeText()
    ensures NatToString(MaxAgeSeconds) == "604800"
  {
    assert NatToString(6) == "6";
    assert NatToString(60) == "60";
    assert NatToString(604) == "604";
    assert NatToString(6048) == "6048";
    assert NatToString(60480) == "60480";
  }

  lemma MaxAgeIsOneWeek()
    ensures MaxAgeSeconds == 604800
  {
  }
}
