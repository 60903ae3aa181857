/**
 * The TOTP enrolment wizard. Its view state moves idle -> setup -> verify -> idle:
 * enrolment shows the QR code and secret, "Continue" opens the code entry, and a
 * successful verification returns to idle. The authentication context's
 * `enrollMFA` and `verifyMFA` are not part of this model: each handler receives
 * what the awaited call produced as a parameter and runs as one atomic step,
 * which its disabled button guarantees by requiring `!isLoading`.
 */
module MFA {
  import opened Wrappers
  import opened JsString

  datatype Step = Idle | Setup | Verify

  /** The code length the guard demands and the input's `maxLength`. */
  const CodeLength: nat := 6

  /** What the awaited `enrollMFA()` produced. */
  datatype EnrollOutcome =
    | Enrolled(qrCode: string, secret: string)  // a non-null enrolment record
    | NoData                                    // a null result
    | EnrollThrew                               // the promise rejected

  /** What the awaited `verifyMFA(code, factorId)` produced. */
  datatype VerifyOutcome =
    | Verified                    // `{ error: null }`
    | Rejected(message: string)   // `{ error }` with a message
    | VerifyThrew                 // the promise rejected

  /** The arguments of a call to `verifyMFA`. */
  datatype VerifyRequest = VerifyRequest(code: string, factorId: string)

  /** The wizard's only edges. */
  predicate Edge(from: Step, to: Step) {
    || (from == Idle && to == Setup)
    || (from == Setup && to == Verify)
    || (from == Verify && to == Idle)
  }

  /** Every step has exactly one successor and three edges lead back to the start. */
  lemma EdgesFormOneCycle(s: Step, t: Step, u: Step, v: Step)
    requires Edge(s, t) && Edge(t, u) && Edge(u, v)
    ensures v == s && s != t && t != u && u != s
    ensures forall w :: Edge(s, w) ==> w == t
  {
  }

  /** A code the guard of `handleVerify` lets through to `verifyMFA`. */
  predicate PassesGuard(code: string) {
    !(code == "" || |code| != CodeLength)
  }

  /** The guard's emptiness test is subsumed by the length test. */
  lemma GuardIsLengthCheck(code: string)
    ensures PassesGuard(code) <==> |code| == CodeLength
  {
  }

  class MFASetup {
    var step: Step
    var qrCode: string
    var secret: string
    var factorId: string
    var code: string
    var isLoading: bool

    /** `factorId` is never assigned; the code field holds at most six digits. */
    ghost predicate Valid()
      reads this
    {
      factorId == "" && AllDigits(code) && |code| <= CodeLength
    }

    constructor ()
      ensures Valid()
      ensures step == Idle && qrCode == "" && secret == "" && factorId == "" && code == ""
      ensures !isLoading
    {
      step := Idle;
      qrCode := "";
      secret := "";
      factorId := "";
      code := "";
      isLoading := false;
    }

    /** The "Enable MFA" button, shown in the idle view. */
    method HandleEnroll(outcome: EnrollOutcome)
      requires Valid() && step == Idle && !isLoading
      modifies this`step, this`qrCode, this`secret, this`isLoading
      ensures Valid() && !isLoading
      ensures outcome.Enrolled? ==> step == Setup && qrCode == outcome.qrCode && secret == outcome.secret
      ensures !outcome.Enrolled? ==> step == old(step) && qrCode == old(qrCode) && secret == old(secret)
      ensures step == old(step) || Edge(old(step), step)
      ensures code == old(code) && factorId == old(factorId)
    {
      isLoading := true;
      match outcome {
        case Enrolled(q, s) =>
          qrCode := q;
          secret := s;
          step := Setup;
        case NoData =>
          // "Setup failed" toast
        case EnrollThrew =>
          // "Error" toast
      }
      isLoading := false;  // finally
    }

    /** The "Continue to Verification" button, shown in the setup view. */
    method Continue()
      requires Valid() && step == Setup
      modifies this`step
      ensures Valid() && step == Verify && Edge(old(step), step)
    {
      step := Verify;
    }

    /** The code input's `onChange`; the input's `maxLength` bounds `value`. */
    method EditCode(value: string)
      requires Valid() && step == Verify
      requires |value| <= CodeLength
      modifies this`code
      ensures Valid()
      ensures code == StripNonDigits(value)
    {
      code := StripNonDigits(value);
    }

    /**
     * The "Verify and Enable" button, shown in the verify view. `request` is the
     * call made to `verifyMFA`, or `None` when the guard returned early;
     * `outcome` is consulted only when the call was made.
     */
    method HandleVerify(outcome: VerifyOutcome) returns (request: Option<VerifyRequest>)
      requires Valid() && step == Verify && !isLoading
      modifies this`step, this`isLoading
      ensures Valid() && !isLoading
      ensures request.Some? <==> |code| == CodeLength
      ensures request.Some? ==> request.value == VerifyRequest(code, "") && AllDigits(request.value.code)
      ensures step == (if request.Some? && outcome.Verified? then Idle else Verify)
      ensures step == old(step) || Edge(old(step), step)
      ensures code == old(code) && qrCode == old(qrCode) && secret == old(secret) && factorId == old(factorId)
    {
      if !PassesGuard(code) {
        // "Invalid code" toast
        request := None;
        return;
      }
      isLoading := true;
      request := Some(VerifyRequest(code, factorId));
      match outcome {
        case Verified =>
          // "MFA enabled" toast
          step := Idle;
        case Rejected(_) =>
          // "Verification failed" toast with the message
        case VerifyThrew =>
          // "Error" toast
      }
      isLoading := false;  // finally
    }
  }

  /** The happy path: enrol, continue, verify too early, type six digits, verify. */
  method EnrolmentWalkthrough(qr: string, s: string, digits: string) returns (w: MFASetup)
    requires |digits| == CodeLength && AllDigits(digits)
    ensures w.step == Idle && w.code == digits && w.secret == s && w.qrCode == qr
  {
    w := new MFASetup();
    w.HandleEnroll(Enrolled(qr, s));
    w.Continue();
    var sent := w.HandleVerify(Verified);
    assert sent == None && w.step == Verify;
    StripNonDigitsFixesDigits(digits);
    w.EditCode(digits);
    sent := w.HandleVerify(Rejected("Invalid TOTP code"));
    assert sent == Some(VerifyRequest(digits, "")) && w.step == Verify;
    sent := w.HandleVerify(Verified);
  }
}
