/**
 * The biometric login switch: a support gate, the fixed
 * `PublicKeyCredentialCreationOptions` dictionary (section 5.4 of W3C Web
 * Authentication Level 2) the enable handler builds, and the
 * `isEnabled`/`isLoading` state. The browser's answers
 * (`window.PublicKeyCredential`, the platform-authenticator probe,
 * `crypto.getRandomValues`, `window.location.hostname`,
 * `navigator.credentials.create`) are parameters.
 */
module Biometric {
  import opened Wrappers

  type byte = x: int | 0 <= x < 256

  /** What the awaited `isUserVerifyingPlatformAuthenticatorAvailable()` produced. */
  datatype Probe = Answered(available: bool) | ProbeThrew

  /**
   * `checkBiometricSupport`: `Some(b)` when it returns `b`, `None` when the
   * awaited probe rejected and the exception escapes to the caller.
   */
  function CheckBiometricSupport(hasPublicKeyCredential: bool, probe: Probe): (r: Option<bool>)
    ensures r == Some(true) <==> hasPublicKeyCredential && probe == Answered(true)
    ensures r == None <==> hasPublicKeyCredential && probe == ProbeThrew
    ensures !hasPublicKeyCredential ==> r == Some(false)
  {
    if !hasPublicKeyCredential then Some(false)  // "Not supported" toast
    else match probe
      case ProbeThrew => None
      case Answered(available) =>
        if !available then Some(false)  // "Not available" toast
        else Some(true)
  }

  // ---------------------------------------------------------------------------
  // The credential-creation options

  datatype RelyingParty = RelyingParty(name: string, id: string)
  datatype UserEntity = UserEntity(id: seq<byte>, name: string, displayName: string)
  datatype CredentialParameters = CredentialParameters(alg: int, credentialType: string)
  datatype AuthenticatorSelection = AuthenticatorSelection(authenticatorAttachment: string, userVerification: string)
  datatype CreationOptions = CreationOptions(
    challenge: seq<byte>,
    rp: RelyingParty,
    user: UserEntity,
    pubKeyCredParams: seq<CredentialParameters>,
    authenticatorSelection: AuthenticatorSelection,
    timeout: nat,
    attestation: string)

  const ChallengeLength: nat := 32
  const UserIdLength: nat := 16
  /** COSE algorithm identifiers: ES256 and RS256. */
  const ES256: int := -7
  const RS256: int := -257

  function Algorithms(params: seq<CredentialParameters>): (algs: seq<int>)
    ensures |algs| == |params|
    ensures forall i :: 0 <= i < |params| ==> algs[i] == params[i].alg
  {
    if params == [] then [] else [params[0].alg] + Algorithms(params[1..])
  }

  /**
   * The options passed to `navigator.credentials.create`; `randomBytes` is
   * what `crypto.getRandomValues` wrote into the 32-byte challenge buffer.
   */
  function CreationOptionsFor(randomBytes: seq<byte>, hostname: string): (o: CreationOptions)
    requires |randomBytes| == ChallengeLength
    ensures o.challenge == randomBytes && |o.challenge| == 32
    ensures |o.user.id| == 16 && forall i :: 0 <= i < |o.user.id| ==> o.user.id[i] == 0
    ensures Algorithms(o.pubKeyCredParams) == [ES256, RS256]
    ensures forall p :: p in o.pubKeyCredParams ==> p.credentialType == "public-key"
    ensures o.authenticatorSelection == AuthenticatorSelection("platform", "required")
    ensures o.timeout == 60000 && o.attestation == "none"
    ensures o.rp.id == hostname
  {
    CreationOptions(
      randomBytes,
      RelyingParty("TradeShift", hostname),
      UserEntity(seq(UserIdLength, _ => 0), "user@example.com", "User"),
      [CredentialParameters(ES256, "public-key"), CredentialParameters(RS256, "public-key")],
      AuthenticatorSelection("platform", "required"),
      60000,
      "none")
  }

  /**
   * The constraints W3C Web Authentication Level 2 puts on a creation-options
   * dictionary: a challenge of at least 16 bytes (section 13.4.3), a user handle
   * of 1 to 64 bytes (section 5.4.3), credential parameters of type
   * "public-key" (section 5.3), the enumeration values of sections 5.4.5, 5.8.6
   * and 5.4.7 (AuthenticatorAttachment, UserVerificationRequirement,
   * AttestationConveyancePreference), and an RP ID that the calling origin's
   * host may claim (equality being the simplest case).
   */
  predicate ConformsToLevel2(o: CreationOptions, hostname: string) {
    && |o.challenge| >= 16
    && 1 <= |o.user.id| <= 64
    && |o.pubKeyCredParams| > 0
    && (forall p :: p in o.pubKeyCredParams ==> p.credentialType == "public-key")
    && o.authenticatorSelection.authenticatorAttachment in {"platform", "cross-platform"}
    && o.authenticatorSelection.userVerification in {"required", "preferred", "discouraged"}
    && o.attestation in {"none", "indirect", "direct", "enterprise"}
    && o.rp.id == hostname
  }

  /** The options requested from the browser are accepted by the standard. */
  lemma CreationOptionsConform(randomBytes: seq<byte>, hostname: string)
    requires |randomBytes| == ChallengeLength
    ensures ConformsToLevel2(CreationOptionsFor(randomBytes, hostname), hostname)
  {
  }

  /**
   * The options ask for exactly the kind of authenticator the support gate
   * probed for: one bound to the platform that verifies the user.
   */
  predicate AsksForProbedAuthenticator(o: CreationOptions) {
    o.authenticatorSelection.authenticatorAttachment == "platform"
    && o.authenticatorSelection.userVerification == "required"
  }

  /** Apart from the challenge, the options are the same on every call from one host. */
  lemma CreationOptionsVaryOnlyInChallenge(a: seq<byte>, b: seq<byte>, hostname: string)
    requires |a| == ChallengeLength && |b| == ChallengeLength
    ensures CreationOptionsFor(a, hostname).(challenge := b) == CreationOptionsFor(b, hostname)
  {
  }

  /** What the awaited `navigator.credentials.create` produced. */
  datatype CreateOutcome = Credential | NullCredential | CreateThrew

  class BiometricAuth {
    var isLoading: bool
    var isEnabled: bool

    constructor ()
      ensures !isLoading && !isEnabled
    {
      isLoading := false;
      isEnabled := false;
    }

    /**
     * The "Enable Biometric" button. `request` is the options passed to
     * `navigator.credentials.create`, or `None` when no credential was requested.
     */
    method HandleEnableBiometric(hasPublicKeyCredential: bool, probe: Probe, randomBytes: seq<byte>,
                                 hostname: string, created: CreateOutcome)
      returns (request: Option<CreationOptions>)
      requires !isLoading
      requires |randomBytes| == ChallengeLength
      modifies this
      ensures !isLoading
      ensures request.Some? <==> CheckBiometricSupport(hasPublicKeyCredential, probe) == Some(true)
      ensures request.Some? ==> request.value == CreationOptionsFor(randomBytes, hostname)
      ensures request.Some? ==> AsksForProbedAuthenticator(request.value)
      ensures isEnabled == (old(isEnabled) || (request.Some? && created == Credential))
    {
      isLoading := true;
      request := None;
      var supported := CheckBiometricSupport(hasPublicKeyCredential, probe);
      match supported {
        case None =>
          // the probe's exception: "Setup failed" toast
        case Some(false) =>
          isLoading := false;
        case Some(true) =>
          var options := CreationOptionsFor(randomBytes, hostname);
          request := Some(options);
          match created {
            case Credential =>
              isEnabled := true;  // "Biometric enabled" toast
            case NullCredential =>
            case CreateThrew =>
              // "Setup failed" toast
          }
      }
      isLoading := false;  // finally
    }

    /** The "Disable Biometric" button. */
    method HandleDisableBiometric()
      modifies this`isEnabled
      ensures !isEnabled && isLoading == old(isLoading)
    {
      isEnabled := false;  // "Biometric disabled" toast
    }
  }

  /** Enabling on a supported device with a created credential, then disabling. */
  method EnableThenDisable(randomBytes: seq<byte>, hostname: string) returns (b: BiometricAuth, request: Option<CreationOptions>)
    requires |randomBytes| == ChallengeLength
    ensures request == Some(CreationOptionsFor(randomBytes, hostname))
    ensures !b.isEnabled && !b.isLoading
  {
    b := new BiometricAuth();
    var refused := b.HandleEnableBiometric(false, Answered(true), randomBytes, hostname, Credential);
    assert refused == None && !b.isEnabled;
    request := b.HandleEnableBiometric(true, Answered(true), randomBytes, hostname, Credential);
    assert b.isEnabled;
    b.HandleDisableBiometric();
  }
}
