/** The contact form's validation on three concrete forms: one missing its
    name, one with a bad address and a short message, and one that passes. */
module ContactExamples {
  import opened Wrappers
  import opened JsText
  import opened Contact

  /** A left-to-right check that s[lo..hi] holds no whitespace and no '@';
      on literal strings the verifier evaluates it character by character. */
  predicate ScanNoSpaceOrAt(s: string, lo: nat, hi: nat)
    requires lo <= hi <= |s|
    decreases hi - lo
  {
    lo == hi || (!IsSpace(s[lo]) && s[lo] != '@' && ScanNoSpaceOrAt(s, lo + 1, hi))
  }

  lemma {:induction false} ScanNoSpaceOrAtSound(s: string, lo: nat, hi: nat)
    requires lo <= hi <= |s| && ScanNoSpaceOrAt(s, lo, hi)
    ensures NoSpaceOrAtIn(s, lo, hi)
    decreases hi - lo
  {
    if lo < hi {
      ScanNoSpaceOrAtSound(s, lo + 1, hi);
    }
  }

  lemma ShortAddressAccepted()
    ensures EmailError("a@b.com") == None
  {
    assert Trim("a@b.com") == "a@b.com";
    assert IndexOfAt("a@b.com") == Some(1);
    assert HasInnerDot("a@b.com", 2, 7) by { assert "a@b.com"[3] == '.'; }
  }

  lemma TenDigitsAccepted()
    ensures MessageError("1234567890") == None
  {
    assert Trim("1234567890") == "1234567890";
  }

  /** An empty name is the only error of a form with a good address and a
      ten-character message. */
  lemma MissingNameOnly()
    ensures Validate(FormData("", "a@b.com", "1234567890")) == Errors(Some(NameRequired), None, None)
  {
    ShortAddressAccepted();
    TenDigitsAccepted();
  }

  lemma TwoLetterNameAccepted()
    ensures NameError("Al") == None
  {
    assert Trim("Al") == "Al";
  }

  lemma AddressWithoutAtRejected()
    ensures EmailError("bad-email") == Some(EmailInvalid)
  {
    assert Trim("bad-email") == "bad-email";
    assert ScanNoSpaceOrAt("bad-email", 0, 9);
    ScanNoSpaceOrAtSound("bad-email", 0, 9);
  }

  lemma FiveLetterMessageRejected()
    ensures MessageError("short") == Some(MessageTooShort)
  {
    assert Trim("short") == "short";
  }

  /** An address without '@' and a five-character message are rejected; the
      two-character name is not. */
  lemma BadEmailAndShortMessage()
    ensures Validate(FormData("Al", "bad-email", "short")) == Errors(None, Some(EmailInvalid), Some(MessageTooShort))
  {
    TwoLetterNameAccepted();
    AddressWithoutAtRejected();
    FiveLetterMessageRejected();
  }

  lemma GoodAddressLocalPart()
    ensures NoSpaceOrAtIn("alice@vizo.agency", 0, 5)
  {
    assert ScanNoSpaceOrAt("alice@vizo.agency", 0, 5);
    ScanNoSpaceOrAtSound("alice@vizo.agency", 0, 5);
  }

  lemma GoodAddressDomain()
    ensures NoSpaceOrAtIn("alice@vizo.agency", 6, 17)
  {
    assert ScanNoSpaceOrAt("alice@vizo.agency", 6, 17);
    ScanNoSpaceOrAtSound("alice@vizo.agency", 6, 17);
  }

  lemma GoodAddressAccepted()
    ensures EmailError("alice@vizo.agency") == None
  {
    assert Trim("alice@vizo.agency") == "alice@vizo.agency";
    GoodAddressLocalPart();
    GoodAddressDomain();
    FirstAtFound("alice@vizo.agency", 5);
    assert HasInnerDot("alice@vizo.agency", 6, 17) by { assert "alice@vizo.agency"[10] == '.'; }
  }

  lemma GoodNameAccepted()
    ensures NameError("Alice") == None
  {
    assert Trim("Alice") == "Alice";
  }

  lemma GoodMessageAccepted()
    ensures MessageError("Tell us about your project") == None
  {
    assert Trim("Tell us about your project") == "Tell us about your project";
  }

  /** A complete, well-formed form produces no errors at all. */
  lemma GoodFormAccepted()
    ensures Validate(FormData("Alice", "alice@vizo.agency", "Tell us about your project")) == NoErrors
  {
    GoodNameAccepted();
    GoodAddressAccepted();
    GoodMessageAccepted();
  }
}
