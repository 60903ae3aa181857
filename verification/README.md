# Step-up authentication UI of the TradeShift dashboard, modelled in Dafny

This project models the three pieces of the dashboard's front end that hold rules of their own:

- **The TOTP enrolment wizard (`MFASetup`).** Its view state moves `idle → setup → verify → idle`.
  - "Enable MFA" calls the authentication context's `enrollMFA` and shows the returned QR code and secret.
  - "Continue to Verification" opens the code entry.
  - The code input keeps only the digits `0`–`9`, up to the input's `maxLength` of 6.
  - "Verify and Enable" passes the code to `verifyMFA` only when it has exactly six characters. It returns to idle when the call reports no error.
- **The biometric login switch (`BiometricAuth`).**
  - A support gate requires `window.PublicKeyCredential` and a user-verifying platform authenticator.
  - The enable handler builds a fixed `PublicKeyCredentialCreationOptions` dictionary (section 5.4 of W3C Web Authentication Level 2) around a 32-byte random challenge and asks the browser to create a credential. A non-null credential turns `isEnabled` on.
  - The disable handler turns it off.
- **The header's user label (`Header`).** `getUserInitial` and `getUserDisplayName` pick the first present source in this order: the auth user's metadata first name, then the fetched profile's first name, then the e-mail, then a literal default (`U` or `User`). An empty string counts as absent.

Modules:

- `Wrappers`: `Option`.
- `JsString`: the ECMAScript string built-ins used.
  - `trim`, with ECMAScript's WhiteSpace and LineTerminator set.
  - `toUpperCase` on one character.
  - `replace(/\D/g, '')`.
- `Header`: pure functions.
- `MFA`: the class `MFASetup`, whose methods assign its fields the way the component's `set…` calls do.
- `Biometric`: the pure support gate and options record, plus the class `BiometricAuth` for the `isEnabled`/`isLoading` state.

How the model treats async work and outside calls:

- Each async handler runs as one atomic method with the precondition `!isLoading`. This is what the disabled buttons (MFASetup.tsx:108, MFASetup.tsx:167, BiometricAuth.tsx:127) guarantee.
- Each MFA handler also requires the step whose view renders its button or input.
- These calls become parameters that describe what they returned or threw:
  - `enrollMFA` and `verifyMFA`
  - `isUserVerifyingPlatformAuthenticatorAvailable`
  - `navigator.credentials.create`
  - `crypto.getRandomValues`
  - `window.location.hostname`
- `HandleVerify` and `HandleEnableBiometric` return the request they would send: the arguments of `verifyMFA`, or the creation options. When the handler makes no call, they return `None`.

`factorId` is never assigned anywhere in `MFASetup.tsx`. So `verifyMFA` always receives the empty string as its factor id (`MFASetup.HandleVerify`'s contract says so).

Server-side TOTP derivation, replay counters, WebAuthn attestation checks and lockouts do not exist in these files and are not modelled.

## Model

| member | source | states |
|---|---|---|
| `JsString.TrimStart` | Header.tsx:70 | the result is the suffix of the input after its leading white space, and does not itself start with white space |
| `JsString.TrimEnd` | Header.tsx:70 | the result is the prefix of the input before its trailing white space, and does not itself end with white space |
| `JsString.Trim` | Header.tsx:70 | the result has no white space at either end and is no longer than the input |
| `JsString.TrimOfTrimmed` | Header.tsx:70 | `trim` leaves a string with no outer white space unchanged |
| `JsString.TrimStartAppend` | Header.tsx:70 | leading white space of a concatenation is removed from its first part, or from the second when the first is all white space |
| `JsString.TrimEndAppendWhiteSpace` | Header.tsx:70 | a trailing white-space character is removed by the end trim |
| `JsString.TrimAppendWhiteSpace` | Header.tsx:70 | appending one white-space character does not change the trimmed result |
| `JsString.TrimKeepsFirstChar` | Header.tsx:70 | a string not starting with white space keeps its first character under `trim` |
| `JsString.UpperAscii` | Header.tsx:53 | the result is never a lower-case ASCII letter; a lower-case letter maps to its capital and every other character to itself |
| `JsString.StripNonDigits` | MFASetup.tsx:162 | the result holds only `0`–`9`, is no longer than the input and has every digit as often as the input does |
| `JsString.StripNonDigitsAppend` | MFASetup.tsx:162 | the filter distributes over concatenation, so it keeps the digits in their order |
| `JsString.StripNonDigitsFixesDigits` | MFASetup.tsx:162 | the filter returns its input exactly when the input is all digits |
| `JsString.StripNonDigitsIdempotent` | MFASetup.tsx:162 | filtering an already filtered code changes nothing |
| `Header.Or` | Header.tsx:69 | `s \|\| fallback` is one of its two operands, and it is empty exactly when the string is absent or empty and the fallback is empty too |
| `Header.GetUserInitial` | Header.tsx:50-64 | the initial is exactly one character and never a lower-case ASCII letter |
| `Header.GetUserDisplayName` | Header.tsx:66-79 | the display name is empty only when a first name was chosen, and it has no outer white space unless it is the e-mail |
| `Header.FirstTruthy` | Header.tsx:52-62 | returns the index of the first present source, with all sources before it absent, or `None` exactly when every source is absent |
| `Header.InitialFollowsPrecedence` | Header.tsx:50-64 | the initial is the upper-cased first character of the first present source (metadata first name, then profile first name, then e-mail), else `U` |
| `Header.DisplayNameFollowsPrecedence` | Header.tsx:66-79 | the display name follows the same order: the metadata full name, then the profile full name, then the e-mail, else `User` |
| `Header.MetadataNameShadowsProfile` | Header.tsx:52-53 | when the metadata has a first name, neither function's result depends on the profile |
| `Header.DropEmpty` | Header.tsx:52 | an empty string becomes absent, and truthiness is unchanged |
| `Header.EmptyStringsAreAbsent` | Header.tsx:52-78 | replacing every empty field with an absent one changes neither the initial nor the display name |
| `Header.FullNameWithoutLastName` | Header.tsx:69-70 | with no last name, the full name is the trimmed first name, and exactly the first name when that has no outer white space, so there is no trailing space |
| `Header.FullNameWithLastName` | Header.tsx:74-75 | with a last name, two names without outer white space are joined by exactly one space |
| `Header.InitialIsFirstLetterOfDisplayName` | Header.tsx:50-79 | when no first name starts with white space, the display name is non-empty and the initial is its upper-cased first character |
| `MFA.EdgesFormOneCycle` | MFASetup.tsx:95-146 | the wizard's edges form the single cycle idle → setup → verify → idle |
| `MFA.GuardIsLengthCheck` | MFASetup.tsx:49 | the guard `!code \|\| code.length !== 6`, which `HandleVerify` runs, lets a code through exactly when its length is 6 |
| `MFA.MFASetup.constructor` | MFASetup.tsx:14-19 | the wizard starts idle with empty `qrCode`, `secret`, `factorId` and `code`, and is not loading |
| `MFA.MFASetup.HandleEnroll` | MFASetup.tsx:22-46 | a non-null enrolment stores its QR code and secret and moves idle → setup; a null result or an exception leaves `step`, `secret` and `qrCode` unchanged; loading is off afterwards on every path |
| `MFA.MFASetup.Continue` | MFASetup.tsx:138 | setup → verify |
| `MFA.MFASetup.EditCode` | MFASetup.tsx:157-162 | the code becomes the input with non-digits stripped, so it keeps only digits and at most six characters |
| `MFA.MFASetup.HandleVerify` | MFASetup.tsx:48-83 | `verifyMFA` is called, with the code and the empty factor id, exactly when the code has six characters; only a call with no error moves verify → idle; otherwise the step stays verify; loading is off afterwards on every path; the code, secret and QR code are unchanged |
| `MFA.EnrolmentWalkthrough` | MFASetup.tsx:22-83 | a successful enrolment, Continue, a too-short attempt, a rejected attempt and an accepted attempt end idle, keeping the enrolled secret and QR code |
| `Biometric.CheckBiometricSupport` | BiometricAuth.tsx:15-36 | the result is true exactly when `PublicKeyCredential` exists and the platform probe answers true; without `PublicKeyCredential` it is false; it throws exactly when the probe is made and rejects |
| `Biometric.Algorithms` | BiometricAuth.tsx:62-65 | lists the `alg` of each credential parameter, in order |
| `Biometric.CreationOptionsFor` | BiometricAuth.tsx:47-72 | the fixed fields of the options: the 32-byte challenge is the random bytes; the user id is 16 zero bytes; the algorithms are exactly `[-7, -257]` in that order, all of type `public-key`; platform attachment; required user verification; timeout 60000; attestation `none`; the RP id is the hostname |
| `Biometric.CreationOptionsConform` | BiometricAuth.tsx:51-72 | the options satisfy the Web Authentication Level 2 constraints on challenge length, user handle length, credential type, enumeration values and RP id |
| `Biometric.CreationOptionsVaryOnlyInChallenge` | BiometricAuth.tsx:47-72 | two calls from the same host produce options that differ only in their challenge |
| `Biometric.BiometricAuth.constructor` | BiometricAuth.tsx:10-13 | biometric login starts disabled and not loading |
| `Biometric.BiometricAuth.HandleEnableBiometric` | BiometricAuth.tsx:38-99 | credential creation is attempted, with exactly `CreationOptionsFor` the random bytes and host, if and only if support is confirmed, and any request asks for a user-verifying platform authenticator, the kind the support gate probed for; `isEnabled` becomes true only when creation returns a credential and is otherwise unchanged; loading is off afterwards on every path |
| `Biometric.BiometricAuth.HandleDisableBiometric` | BiometricAuth.tsx:101-108 | `isEnabled` becomes false unconditionally and `isLoading` is unchanged |
| `Biometric.EnableThenDisable` | BiometricAuth.tsx:38-108 | an unsupported device makes no request; a supported one requests the fixed options and enables; disabling then turns it off |

## Left out

- Toasts, the development-mode console logging and all JSX rendering: they are UI side effects that change no modelled state.
- `copySecret`, the `copied` flag and its two-second reset: these are clipboard I/O and a timer.
- The intermediate `isLoading = true` state while a handler awaits: each handler is one atomic step, and its disabled button rules out a second invocation in between.
- `MFA.MFASetup.EditCode`: the six-character cap comes from the input element's `maxLength`, so the model takes it as a precondition on the delivered value rather than modelling browser truncation.
- `Biometric.BiometricAuth.HandleEnableBiometric`: the model does not require `!isEnabled`, although the button is only rendered while biometrics are off. The contract covers both states.
- The profile fetch in `Header`'s `useEffect` (Supabase network I/O): the fetched row is an input, `userProfile`.
- `JsString.UpperAscii`: `toUpperCase` is modelled for ASCII letters only. Full Unicode case mapping (which can turn one character into two) is not modelled.
- JavaScript strings are UTF-16 code-unit sequences, and the model's strings are sequences of Unicode scalar values. `charAt(0)` and `length` therefore agree only on the Basic Multilingual Plane. The MFA code is all ASCII digits, so its length check is exact.
- JavaScript truthiness of non-string field values (numbers, objects) in the profile or metadata: every field is modelled as an optional string.
- The credential that `navigator.credentials.create` returns is never sent anywhere by the source, so the model only records whether it is null.
- Server-side TOTP derivation and verification, drift windows, replay counters, WebAuthn attestation and assertion verification, sign counters and attempt lockouts: these files do not implement them.
- `App.tsx`, `BottomNav.tsx`, `LoginHistory.tsx`, the chart wrappers and `PasswordStrengthIndicator.tsx`: they hold only routing, constant tables, mock data and rendering.
