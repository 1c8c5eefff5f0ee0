/**
 * A vendor: an entity that can receive money from the wallet provider,
 * either a marketplace seller or the platform operator. Its fields carry
 * Symfony validation constraints in two groups: "Default" describes a
 * seller, "Operator" describes the operator.
 */
module Vendors {

  /**
   * A PHP scalar as a getter may return it. The interface types the
   * Mirakl id as `int|null` and the email as `string`, but nothing forces
   * an implementation to honour that, which is what the Type constraints
   * check.
   */
  datatype Scalar = Null | Int(i: int) | Str(s: string)

  /** The vendor record: what the processor reads from a vendor. */
  datatype Vendor = Vendor(
    miraklId: Scalar,              // null for the operator
    email: Scalar,
    hipayId: Scalar,               // wallet account id at the provider
    hipayUserSpaceId: Scalar,
    hipayIdentified: Scalar)

  /**
   * Symfony NotBlank: null, the empty string and `false` are blank. The
   * integer 0 and the string "0" are not, because PHP finds `'0' == 0`
   * and `'0' == "0"`.
   */
  predicate NotBlank(x: Scalar) {
    match x
    case Null => false
    case Int(_) => true
    case Str(s) => s != ""
  }

  /** Symfony Type(type="integer"); like every constraint but NotBlank, it lets null through. */
  predicate IsIntegerOrNull(x: Scalar) {
    x.Null? || x.Int?
  }

  /** Symfony Type(type="string"). */
  predicate IsStringOrNull(x: Scalar) {
    x.Null? || x.Str?
  }

  /**
   * Symfony GreaterThan(value = 0) on null or an integer. A string is
   * counted as failing; PHP's string-to-number comparison is not modelled
   * (the Type constraint rejects strings anyway).
   */
  predicate GreaterThanZero(x: Scalar) {
    match x
    case Null => true
    case Int(i) => i > 0
    case Str(_) => false
  }

  /** Symfony IsNull. */
  predicate IsNull(x: Scalar) {
    x.Null?
  }

  /** A character the pattern `\S` rejects. */
  predicate IsSpace(c: char) {
    c == ' ' || c == '\t' || c == '\n' || c == '\r' || c == '\U{B}' || c == '\U{C}'
  }

  /** No character of `s` is whitespace. */
  predicate NoSpace(s: string) {
    forall k :: 0 <= k < |s| ==> !IsSpace(s[k])
  }

  /** No character of `s` is a line feed (what `.` rejects). */
  predicate NoLineFeed(s: string) {
    forall k :: 0 <= k < |s| ==> s[k] != '\n'
  }

  /**
   * The body of Symfony's loose email pattern `^.+@\S+\.\S+$`: a non-empty
   * local part, an `@`, then a non-empty run without whitespace, a dot, and
   * another non-empty run without whitespace.
   */
  predicate LooseEmailBody(s: string) {
    exists at, dot ::
      0 < at && at + 1 < dot && dot + 1 < |s| && s[at] == '@' && s[dot] == '.' &&
      NoLineFeed(s[..at]) && NoSpace(s[at + 1..dot]) && NoSpace(s[dot + 1..])
  }

  /**
   * The whole pattern: without the D modifier, PCRE's `$` also matches just
   * before a final line feed, so one trailing line feed is accepted.
   */
  predicate LooseEmailText(s: string) {
    LooseEmailBody(s) || (|s| > 0 && s[|s| - 1] == '\n' && LooseEmailBody(s[..|s| - 1]))
  }

  /** Symfony Email: null and the empty string pass, other strings must match the pattern. */
  predicate IsEmail(x: Scalar) {
    match x
    case Null => true
    case Int(_) => false
    case Str(s) => s == "" || LooseEmailText(s)
  }

  /** The constraints on `getMiraklId` in the Default group. */
  predicate ValidSellerMiraklId(id: Scalar) {
    NotBlank(id) && IsIntegerOrNull(id) && GreaterThanZero(id)
  }

  /** The constraints on `getEmail`, which carry no group and so belong to Default. */
  predicate ValidEmail(email: Scalar) {
    NotBlank(email) && IsStringOrNull(email) && IsEmail(email)
  }

  /** Validation with the Default group: what a seller must satisfy. */
  predicate ValidSeller(v: Vendor) {
    ValidSellerMiraklId(v.miraklId) && ValidEmail(v.email)
  }

  /**
   * Validation with the Operator group: only the IsNull constraint on the
   * Mirakl id belongs to it, so the operator's email is not checked.
   */
  predicate ValidOperator(v: Vendor) {
    IsNull(v.miraklId)
  }

  /** A valid seller is identified by a strictly positive integer Mirakl id. */
  lemma ValidSellerHasPositiveId(v: Vendor)
    requires ValidSeller(v)
    ensures v.miraklId.Int? && v.miraklId.i > 0
  {
  }

  /** A valid seller has a non-empty email of the form local@domain.tld. */
  lemma ValidSellerHasEmail(v: Vendor)
    requires ValidSeller(v)
    ensures v.email.Str? && LooseEmailText(v.email.s)
  {
  }

  /** No vendor passes both groups: sellers and the operator are told apart by the Mirakl id. */
  lemma SellerIsNotOperator(v: Vendor)
    ensures !(ValidSeller(v) && ValidOperator(v))
  {
  }

  /** The integer 0 is not blank in PHP, so only GreaterThan rejects a zero Mirakl id. */
  lemma ZeroMiraklIdRejectedOnlyByGreaterThan()
    ensures NotBlank(Int(0)) && IsIntegerOrNull(Int(0)) && !GreaterThanZero(Int(0))
    ensures !ValidSellerMiraklId(Int(0))
  {
  }

  /** The Operator group ignores the email: changing it keeps a valid operator valid. */
  lemma OperatorEmailUnchecked(v: Vendor, email: Scalar)
    requires ValidOperator(v)
    ensures ValidOperator(v.(email := email)) && !ValidSeller(v)
  {
  }

  /** A typical address matches the pattern, and one without a dot after the `@` does not. */
  lemma EmailExamples()
    ensures LooseEmailText("seller@shop.example")
    ensures !LooseEmailText("seller@localhost")
  {
    var s := "seller@shop.example";
    assert s[6] == '@' && s[11] == '.';
    assert NoLineFeed(s[..6]) && NoSpace(s[7..11]) && NoSpace(s[12..]);
    var t := "seller@localhost";
    forall at, dot | 0 < at && at + 1 < dot && dot + 1 < |t| && t[at] == '@'
      ensures t[dot] != '.'
    {
    }
  }

  /** `$` also matches before a final line feed: appending one keeps a match. */
  lemma FinalLineFeedForgiven(s: string)
    requires LooseEmailBody(s)
    ensures LooseEmailText(s + "\n")
  {
    assert (s + "\n")[..|s|] == s;
  }

  /** The body of the pattern never ends in a line feed: its last run has no whitespace. */
  lemma BodyEndsWithoutLineFeed(s: string)
    requires |s| > 0 && s[|s| - 1] == '\n'
    ensures !LooseEmailBody(s)
  {
    forall at, dot | 0 < at && at + 1 < dot && dot + 1 < |s| && s[at] == '@' && s[dot] == '.'
      ensures !NoSpace(s[dot + 1..])
    {
      assert s[dot + 1..][|s| - dot - 2] == '\n';
    }
  }

  /** `$` forgives one final line feed and no more: two are rejected. */
  lemma OneFinalLineFeedOnly(s: string)
    requires |s| >= 2 && s[|s| - 1] == '\n' && s[|s| - 2] == '\n'
    ensures !LooseEmailText(s)
  {
    BodyEndsWithoutLineFeed(s);
    var p := s[..|s| - 1];
    assert p[|p| - 1] == '\n';
    BodyEndsWithoutLineFeed(p);
  }
}
