/**
 * E-mail verification on the server (server.js): `/send-code` stores a fresh
 * six-digit code for an address and mails it, `/verify-code` checks a
 * submitted code against the stored one and consumes it.
 */
module Verification {
  import opened Wrappers
  import opened Text

  /**
   * `Math.floor(100000 + Math.random() * 900000).toString()`, with
   * `offset` standing for `Math.floor(Math.random() * 900000)`.
   */
  function GenerateCode(offset: nat): (code: string)
    requires offset < 900000
    ensures |code| == 6 && AllDigits(code) && code[0] != '0'
    ensures DigitsValue(code) == 100000 + offset
  {
    assert Pow10(5) == 100000 && Pow10(6) == 1000000;
    NatToStringLength(100000 + offset, 6);
    NatToStringRoundTrip(100000 + offset);
    NatToString(100000 + offset)
  }

  /** Different draws give different codes. */
  lemma GenerateCodeInjective(a: nat, b: nat)
    requires a < 900000 && b < 900000 && GenerateCode(a) == GenerateCode(b)
    ensures a == b
  {
  }

  /** The property name an e-mail value becomes: a missing one is the string "undefined". */
  function EmailKey(email: Option<string>): string {
    if email.Some? then email.value else "undefined"
  }

  /** `verificationCodes[key]`, `None` standing for `undefined`. */
  function Lookup(codes: map<string, string>, key: string): Option<string> {
    if key in codes then Some(codes[key]) else None
  }

  /**
   * The test of `/verify-code` as written: `verificationCodes[email] === code`.
   * A request without a code for an address without a stored code compares
   * `undefined` with `undefined` and passes.
   */
  predicate VerifiesAsWritten(codes: map<string, string>, email: Option<string>, code: Option<string>) {
    Lookup(codes, EmailKey(email)) == code
  }

  /** On a server that has sent no code at all, an empty request is verified. */
  lemma EmptyRequestVerifiesAsWritten()
    ensures VerifiesAsWritten(map[], None, None)
  {
  }

  /** The intended test: a code was submitted and it is the one stored for the address. */
  predicate Verifies(codes: map<string, string>, email: Option<string>, code: Option<string>) {
    code.Some? && EmailKey(email) in codes && codes[EmailKey(email)] == code.value
  }

  /**
   * With the intended test nothing verifies for an address that has no stored
   * code; where a code was submitted, the written test agrees with it.
   */
  lemma VerifiesNeedsIssuedCode(codes: map<string, string>, email: Option<string>, code: Option<string>)
    ensures EmailKey(email) !in codes ==> !Verifies(codes, email, code)
    ensures code.Some? ==> (Verifies(codes, email, code) <==> VerifiesAsWritten(codes, email, code))
  {
  }

  /** A code that verified is gone afterwards: it cannot verify a second time. */
  lemma VerifiedCodeIsConsumed(codes: map<string, string>, email: Option<string>, code: Option<string>)
    requires Verifies(codes, email, code)
    ensures !Verifies(codes - {EmailKey(email)}, email, code)
  {
  }

  /** The server's table of pending codes, by e-mail address. */
  class CodeStore {
    var codes: map<string, string>

    constructor ()
      ensures codes == map[]
    {
      codes := map[];
    }

    /**
     * `/send-code`: 400 without an e-mail; otherwise the generated code
     * replaces any earlier code for the address, and the answer is 200 when
     * the mail goes out (`mailOk`) and 500 when it does not, the code staying
     * stored either way.
     */
    method SendCode(email: Option<string>, offset: nat, mailOk: bool) returns (status: int)
      requires offset < 900000
      modifies this
      ensures !Truthy(email) ==> status == 400 && codes == old(codes)
      ensures Truthy(email) ==> codes == old(codes)[email.value := GenerateCode(offset)]
      ensures Truthy(email) ==> status == if mailOk then 200 else 500
    {
      if !Truthy(email) {
        return 400;
      }
      var code := GenerateCode(offset);
      codes := codes[email.value := code];
      status := if mailOk then 200 else 500;
    }

    /**
     * `/verify-code`, with the intended test: a matching code is removed and
     * answered with 200; anything else is answered with 400 and changes
     * nothing. Other addresses' codes are never touched.
     */
    method VerifyCode(email: Option<string>, code: Option<string>) returns (status: int, verified: bool)
      modifies this
      ensures verified <==> Verifies(old(codes), email, code)
      ensures verified ==> status == 200 && codes == old(codes) - {EmailKey(email)}
      ensures !verified ==> status == 400 && codes == old(codes)
    {
      var key := EmailKey(email);
      if code.Some? && key in codes && codes[key] == code.value {
        codes := codes - {key};
        return 200, true;
      }
      return 400, false;
    }
  }
}
