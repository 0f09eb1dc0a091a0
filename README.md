# Session and identity-verification layer of the Lustless mobile client

This Dafny project models the part of the Lustless React Native client that
has real decision logic: the session and identity-verification layer, plus
a few small helpers.

- **Token store.** It keeps the access token, refresh token and expiry
  under the key `@lustless:auth-tokens`. A read failure reads as "logged out".
  Write failures are swallowed. Writing `null` deletes the key.
- **Onboarding scratch store.** It keeps the ID-document id, selfie id and
  email under `@lustless:onboarding-data`. Each write merges field by field.
- **Authenticated request gateway (`useFetch`).** It builds the default
  headers and refreshes the token pair when it expires within 60 s. A
  successful refresh stores the new triple. A failed one clears the store and
  sends the old token. The caller's request is sent once, and the caller's
  headers override the defaults.
- **Session/verification controller (`AuthProvider`).** It is a class with
  the fields `isLoaded`, `user`, `verificationStatus`, `isVerificationLoaded`
  and `isLoggingOut`. It owns the token store and has these operations:
  `setTokensInfo`, `logOut`, `fetchVerificationStatus` (with its
  normalisation of the server's step), `refreshVerificationStatus` and
  `loadData`.
- **Verification router.** `getVerificationRoute` maps a (user, status) pair
  to one of five screens. The `useVerificationRouting` redirect guard
  decides whether to redirect.
- **Start screen.** Its effect waits for both loads and then navigates
  exactly once.
- **OTP slot editor.** `handleChange` and `handleKeyPress` edit a class
  holding the slot sequence.
- **Mock-message helpers.** `getConversationById`, `getInitials` and
  `getAvatarColor`.

The device storage is a class (`Storage.KeyValueStore`) holding a map from
key to stored record. Its two constant flags say whether reads or writes
fail. Every backend call is an abstract outcome passed in as a parameter:
a transport error, or a status code with a body that may be unreadable.
A call that can refresh the token also gets the refresh endpoint's outcome.
The clock is an integer `now` in epoch milliseconds. Navigation and input
focus are returned as values.

Behaviour of the code that a reader might not expect:

- When the verification-status call throws, or its body cannot be read, the
  status becomes `null`. Only a non-200 answer gives the default status
  (`auth-provider.tsx:123-139`), although the comment at
  `auth-provider.tsx:124` ("assume unverified") suggests the default was
  meant for every failure.
- JavaScript truthiness is kept where it decides a branch. An empty access
  token counts as "no token". A `tokenExpires` of 0 counts as "no expiry", so
  it triggers neither a refresh nor the expiry logout. An empty step name
  does not take precedence over the status's step.

Two more behaviours deserve a reader's attention. `getAvatarColor`
is declared to return a string, but for the empty name it returns
`undefined`, because `charCodeAt(0)` is NaN. The model returns `None` there.
The OTP component ignores its `value` prop entirely.

## Model

| member | source | states |
|---|---|---|
| `TokenStore.GetTokensInfo` | src/services/auth/auth-tokens-info.ts:8-16 | returns the record stored under the token key; null when the key is absent, holds something else, or the read fails |
| `TokenStore.SetTokensInfo` | src/services/auth/auth-tokens-info.ts:18-28 | a record is written under the token key, null removes the key, a failing write leaves the storage unchanged and raises nothing |
| `TokenStore.SetThenGet` | src/services/auth/auth-tokens-info.ts:8-11 | set(t) followed by get() returns t |
| `TokenStore.ClearDeletesKey` | src/services/auth/auth-tokens-info.ts:22-24 | set(null) deletes the key rather than storing a value, so the next get() returns null |
| `TokenStore.ReadFailureIsLoggedOut` | src/services/auth/auth-tokens-info.ts:12-15 | a failing read yields null whatever is stored (fails closed to logged-out) |
| `TokenStore.WriteFailureKeepsStorage` | src/services/auth/auth-tokens-info.ts:25-27 | a failing write is swallowed and changes nothing |
| `TokenStore.OnlyTokenKeyTouched` | src/services/auth/auth-tokens-info.ts:4 | every other key keeps its presence and value across any write |
| `TokenStore.LastWriteWins` | src/services/auth/auth-tokens-info.ts:18-28 | two writes in a row leave exactly the second write's effect |
| `OnboardingStorage.Merge` | src/services/auth/onboarding-storage.ts:24 | each field present in the update wins; each absent field keeps the existing value, or stays absent when nothing was stored |
| `OnboardingStorage.GetOnboardingData` | src/services/auth/onboarding-storage.ts:11-19 | returns the stored onboarding record; null when the key is absent or the read fails |
| `OnboardingStorage.SetOnboardingData` | src/services/auth/onboarding-storage.ts:21-29 | the key is written with the merge of the stored record (null on a failing read) and the update; a failing write changes nothing |
| `OnboardingStorage.ClearOnboardingData` | src/services/auth/onboarding-storage.ts:31-37 | the key is removed; a failing removal changes nothing |
| `OnboardingStorage.MergeIntoEmpty` | src/services/auth/onboarding-storage.ts:23-24 | merging into nothing yields exactly the update |
| `OnboardingStorage.MergeIdempotent` | src/services/auth/onboarding-storage.ts:24 | merging the same update twice equals merging it once |
| `OnboardingStorage.SetOnEmptyThenGet` | src/services/auth/onboarding-storage.ts:21-25 | set(d) on a store without the key, then get(), returns d |
| `OnboardingStorage.SetIdempotent` | src/services/auth/onboarding-storage.ts:21-29 | for one fixed device condition (reads and writes either always succeed or always fail), repeating set(d) leaves the same storage as doing it once |
| `OnboardingStorage.ClearThenGet` | src/services/auth/onboarding-storage.ts:31-34 | after clear, get() returns null, and no other key changes |
| `OnboardingStorage.ReadFailureIsAbsent` | src/services/auth/onboarding-storage.ts:15-18 | a failing read yields null |
| `Gateway.BuildHeaders` | src/services/api/use-fetch.ts:10-26 | `x-custom-lang: en` is always present; `Content-Type: application/json` is present iff the body is not FormData; `Authorization: Bearer <token>` is present iff an access token is stored; no other header |
| `Gateway.RefreshIfDue` | src/services/api/use-fetch.ts:29-77 | the refresh is called iff the stored expiry is non-zero and `tokenExpires - 60000 <= now`, with the refresh token as bearer credential; the storage then holds the new triple on success and is cleared on any failure |
| `Gateway.UseFetch` | src/services/api/use-fetch.ts:6-87 | one request is sent to the caller's target; the caller's headers override the defaults; `Authorization` carries the renewed token after a successful refresh and the old token otherwise; the storage is updated as the refresh step says |
| `Gateway.RefreshBoundary` | src/services/api/use-fetch.ts:29 | a token expiring in 59 s or exactly 60 s is refreshed; one expiring in 61 s is not |
| `Gateway.NoRefreshKeepsStore` | src/services/api/use-fetch.ts:29 | when no refresh is due the storage is untouched and the old token is used |
| `Gateway.RefreshSuccessStoresTriple` | src/services/api/use-fetch.ts:53-66 | a successful refresh stores exactly the new triple |
| `Gateway.RefreshFailureClears` | src/services/api/use-fetch.ts:46-51 | a failed refresh removes the token record |
| `Gateway.RefreshOutcomes` | src/services/api/use-fetch.ts:46-76 | a transport error, a non-2xx status, an unreadable body or a missing field is a failure; a 2xx answer with all three fields set yields exactly that triple |
| `VerificationRouting.GetVerificationRoute` | src/services/auth/use-verification-routing.ts:59-91 | the entry screen iff there is no user; the main app iff the user's step or the status says fully verified; otherwise the user's own step (if set, else the status's step) selects step 2 for email_verified, step 4 for identity_verified, step 1 for anything else |
| `VerificationRouting.NoUserRoutesToEntry` | src/services/auth/use-verification-routing.ts:63-65 | with no user the route is `/(auth)` whatever the status |
| `VerificationRouting.FullyVerifiedRoutesToTabs` | src/services/auth/use-verification-routing.ts:67-73 | a user that is fully verified by either signal goes to `/(tabs)` |
| `VerificationRouting.UserStepTakesPrecedence` | src/services/auth/use-verification-routing.ts:75 | user identity_verified with status email_verified routes to step 4 |
| `VerificationRouting.StatusStepWhenUserStepUnset` | src/services/auth/use-verification-routing.ts:75-90 | without a user step the status's step decides, and an absent step starts from step 1 |
| `VerificationRouting.RedirectAgreesWithRoute` | src/services/auth/use-verification-routing.ts:15-53 | the guard does nothing when disabled, while either load is pending, or on a `/(auth)` path; otherwise it redirects to the router's target, except that a fully verified user is not redirected |
| `VerificationRouting.RedirectTarget` | src/services/auth/use-verification-routing.ts:15-53 | the guard redirects only when enabled and both loads have finished; a redirect goes to the router's route, never to the main app, and always to a path under `/(auth)` |
| `VerificationRouting.RedirectLandsOnAuthPath` | src/services/auth/use-verification-routing.ts:19-52 | when the reported pathname is the redirect target's own path, the guard stays idle |
| `AuthProvider.Normalise` | src/services/auth/auth-provider.tsx:104-120 | `isEmailVerified` iff the step is email_verified or later; `isIdentityVerified` iff identity_verified or later; `isFullyVerified` iff the body says so or the step is fully_verified; the message defaults to "" |
| `AuthProvider.StatusFromResponse` | src/services/auth/auth-provider.tsx:96-139 | the status is null exactly when the call throws or a 200 body cannot be read; any other status than 200 gives the default; a 200 keeps the server's step; identity verified always implies email verified |
| `AuthProvider.NormaliseByStep` | src/services/auth/auth-provider.tsx:106-120 | the verified flags for each of the three known steps, and for an absent or unknown step |
| `AuthProvider.FailuresYieldDefaultOrNull` | src/services/auth/auth-provider.tsx:123-139 | a non-200 answer yields the default status (email_verified, not fully verified, email verified, identity not verified); a thrown error yields null |
| `AuthProvider.DefaultStatusRoutesToStep2` | src/services/auth/auth-provider.tsx:125-132 | the default status sends a user without a step of their own to identity-document capture |
| `AuthProvider.Session.constructor` | src/services/auth/auth-provider.tsx:26-31 | the provider starts not loaded, with no user or status, and not logging out |
| `AuthProvider.Session.SetTokensInfo` | src/services/auth/auth-provider.tsx:35-41 | writes the token store and forgets the user when the tokens are cleared |
| `AuthProvider.Session.LogOut` | src/services/auth/auth-provider.tsx:43-85 | while a logout is in progress nothing changes and no endpoint is called; otherwise the endpoint is called iff an access token is stored, and afterwards the store is empty, user and status are null, the status counts as loaded, the guard is released and the entry screen is shown, whatever the endpoint did |
| `AuthProvider.Session.FetchVerificationStatus` | src/services/auth/auth-provider.tsx:87-143 | without an access token the status is null and no call is made; otherwise it is the normalised, default or null status the response calls for; the status always ends loaded |
| `AuthProvider.Session.RefreshVerificationStatus` | src/services/auth/auth-provider.tsx:145-148 | re-runs the fetch and ends with the status loaded |
| `AuthProvider.Session.LoadData` | src/services/auth/auth-provider.tsx:150-224 | no token gives no user and no status, with both load flags set; an expired token or a 401 logs out, calling the logout endpoint iff a token is still stored and navigating to the entry screen, and gives {null, null}; another failure gives {null, null} without logging out or navigating; an OK answer sets the user, then fetches the status and returns exactly that pair; `isLoaded` always ends true |
| `OtpInput.JoinOfSlots` | src/components/OTPInput.tsx:39 | the code joined from well-formed slots is all digits and at most one character per slot |
| `OtpInput.JoinOfFullSlots` | src/components/OTPInput.tsx:39 | with every slot filled, the code holds one digit per slot, in slot order |
| `OtpInput.OtpField.constructor` | src/components/OTPInput.tsx:19 | the field starts with `length` empty slots |
| `OtpInput.OtpField.HandleChange` | src/components/OTPInput.tsx:28-40 | non-empty text that is not exactly one digit changes nothing and emits nothing; otherwise only slot `index` changes, the length is kept, focus moves to `index+1` iff a digit was typed and a slot follows, and the joined slots are emitted |
| `OtpInput.OtpField.HandleKeyPress` | src/components/OTPInput.tsx:42-54 | Backspace empties slot `index`, moves focus to `index-1` iff `index > 0`, and emits the joined slots; any other key does nothing |
| `OtpInput.OtpField.EmittedIsDigits` | src/components/OTPInput.tsx:19-45 | every slot is empty or one digit, so the emitted code is all digits and at most `length` long |
| `IndexScreen.StartScreen.constructor` | app/index.tsx:13 | the screen starts without having navigated |
| `IndexScreen.StartScreen.RunEffect` | app/index.tsx:15-44 | no navigation until both loads finish or after one has happened; otherwise it navigates to the router's choice and records that it did |
| `IndexScreen.Mount` | app/index.tsx:13-44 | over any series of effect runs in one mount, at most one navigation happens, never before both loads finish, to the router's choice, and the first run with both loads finished does navigate |
| `MockMessages.GetConversationById` | src/data/mock-messages.ts:345-347 | returns the first conversation with the id, or nothing iff no conversation has it |
| `MockMessages.Split` | src/data/mock-messages.ts:352 | splitting on single spaces yields at least one piece |
| `MockMessages.SplitRoundTrip` | src/data/mock-messages.ts:352 | no piece of `split(' ')` holds a space, and joining the pieces with single spaces gives back the name |
| `MockMessages.Upper` | src/data/mock-messages.ts:355 | upper-casing keeps the length and maps each character |
| `MockMessages.GetInitials` | src/data/mock-messages.ts:350-357 | at most two initials, and none exactly when the name is empty or all spaces |
| `MockMessages.NoStartsIffBlank` | src/data/mock-messages.ts:351-354 | a name has no word start exactly when it holds nothing but spaces |
| `MockMessages.InitialsAreWordStarts` | src/data/mock-messages.ts:351-354 | the first characters of the space-separated words, in order, are exactly the non-space characters at the start of the name or right after a space; empty words contribute nothing |
| `MockMessages.GetInitialsSpec` | src/data/mock-messages.ts:350-357 | the initials are the word starts upper-cased and cut to at most two characters |
| `MockMessages.NoSpaceNoLaterStarts` | src/data/mock-messages.ts:351-354 | in a name without spaces, only the first character starts a word |
| `MockMessages.SingleWordInitials` | src/data/mock-messages.ts:350-357 | a single-word name yields its first character upper-cased |
| `MockMessages.InitialsExample` | src/data/mock-messages.ts:350-357 | leading and repeated spaces contribute nothing: " jo  an" yields "JA" |
| `MockMessages.GetAvatarColor` | src/data/mock-messages.ts:360-374 | a non-empty name gets one of the eight palette colours; the empty name gets undefined |
| `MockMessages.AvatarColorByFirstChar` | src/data/mock-messages.ts:372-373 | the colour is the palette entry at `charCode(name[0]) % 8`, so names with the same first character share it |
| `Scenarios.FreshInstall` | src/services/auth/auth-provider.tsx:207-212 | with nothing stored, loading yields no user and no status, and the router picks the entry screen |
| `Scenarios.EmailVerifiedUserGoesToStep2` | src/services/auth/auth-provider.tsx:193-205 | valid tokens and an email-verified user from `/auth/me` lead the router to step 2 |
| `Scenarios.RefreshServerError` | src/services/api/use-fetch.ts:46-51 | a refresh answered with 500 empties the token store, and the request still carries the old access token |
| `Scenarios.ExpiredTokenLogsOut` | src/services/auth/auth-provider.tsx:164-170 | a stored token that has already expired makes loading call the logout endpoint, empty the store and navigate to the entry screen |
| `Scenarios.LogOutTwice` | src/services/auth/auth-provider.tsx:43-85 | two logouts in a row leave the store and the user absent, and only the first calls the endpoint |

## Left out

- The network, AsyncStorage and JSON. Storage is a map from key to decoded record. A record of the wrong kind under a key reads as absent. Backend answers are abstract parameters.
- `Date.now()` is an integer parameter. One operation uses one `now` for all its nested calls, although real time moves on between them.
- Concurrency. The race of two near-expiry requests that both refresh is not modelled. The `isLoggingOut` guard is a plain field in a sequential run, not a React state closure.
- React itself: hooks, context providers, memoisation and rendering. `router.replace` becomes a returned route and `TextInput.focus` a returned slot index. The OTP field's autofocus of the first slot on mount is left out.
- The `setUser` action that the provider exposes. It is a plain setter with no logic.
- The `console` logging.
- app/_layout.tsx, src/services/api/services/auth.ts and src/services/api/services/files.ts. These are UI and URL wrappers with no logic of their own. The endpoint URLs from the configuration file are not part of this model; endpoints are named by a datatype.
- The user record beyond `id`, `email` and `verificationStep`. The other fields are never read by this logic.
- The mock conversation literals and their timestamp helpers, which use `Date` and fractional hours.
- OnboardingStorage.Merge: a field passed explicitly as `undefined` counts as absent. In the source it overrides the stored field in the spread, and JSON then drops it.
- MockMessages.Upper: only ASCII letters are upper-cased. Full Unicode case mapping, which can lengthen a string, is not modelled.
- MockMessages.GetAvatarColor: characters are single UTF-16 code units. For a name starting outside the Basic Multilingual Plane, `charCodeAt(0)` gives a surrogate, and that case is not modelled.
- MockMessages.GetInitials: `word[0]` takes one UTF-16 code unit, while the model takes a whole Unicode character. For a word starting outside the Basic Multilingual Plane the source yields a lone high surrogate ("😀 Bob" gives "\uD83DB"), and the model yields the whole character ("😀B").
- Storage failures are a fixed condition of the device: a store's reads and writes either always fail or never do. A read that fails once and then succeeds is not modelled. With such a failure, a second onboarding set whose read fails writes the update alone and loses the fields stored before (`onboarding-storage.ts:23-25`), so OnboardingStorage.SetIdempotent holds only for one fixed device condition.
- VerificationRouting.RedirectLandsOnAuthPath: the router is not part of this model. Whether the pathname reported after `router.replace(p)` is `p` itself, with its `(auth)` group segment, is not modelled. If the router reports the path without the group segment (`/sign-up/step2`), the guard redirects again, and the model does not exclude that repeat.
- AuthProvider.Session.LoadData: when a logout is already in progress, the contract only says that {null, null} is returned. The source never reaches that state, because `loadData` captures a `logOut` whose guard is false.
