# Session provider and sign-up flow of a workout-tracking mobile app

This project models the two pieces of the app that hold logic:

- **The session provider** (`AuthContextProvider`). It holds the signed-in
  `user` and the `isLoadingUserStorageData` flag. Three operations change
  them: `loadUserData`, which restores the user from device storage on
  mount; `signIn`, which posts to `/sessions`; and `signOut`. The provider
  uses an empty placeholder object for "no user". Here that placeholder is
  the explicit constructor `NoUser`.
- **The sign-up screen.** Its validation schema covers four fields: name,
  email, password and password confirmation. `handleSignUp` creates the
  account with `POST /users`, then signs in, and on failure picks a toast
  title.

Each provider operation is a pure function. It takes a `World` (the
provider state plus one storage slot for the persisted user) to an
`Effect` (the new world, the requests sent and the error rethrown, if
any). The environment's answers are inputs:

- whether the storage read or removal succeeded;
- what `/sessions` responded;
- whether `/users` succeeded.

A sequence of calls is folded by `AuthContext.Run`. The screen-level phase
(`Loading`, `LoggedOut`, `LoggedIn`) is derived from the state.

The validation schema is kept as data, with rules listed in declaration
order. A small interpreter reads it. It is proved equal to a direct
statement of the four field rules. Whether a string is an email address is
the function parameter `isEmail`, because that pattern belongs to the
validation library.

Modules: `Wrappers` (Option, Outcome), `Errors` (`AppError` or anything
else), `Api` (request values), `AuthContext`, `SignUpForm`, `SignUp`.

The model also brings out two behaviours of the code as written:

- Assume a failed storage removal during sign-out leaves the slot untouched.
  The storage module is not shown, so this is an assumption (see "Left
  out"). Under it the persisted user stays, and a restart signs that user
  back in (`AuthContext.RestartAfterFailedSignOutRestoresUser`).
- If `/sessions` answers without a user after a successful account
  creation, nothing fails. No toast is shown, and the button keeps
  spinning (`SignUp.SignInWithoutUserKeepsSpinning`).

## Model

| member | source | states |
|---|---|---|
| AuthContext.Mount | src/contexts/AuthContext.tsx:21-22 | on mount nobody is signed in and the loading flag is up (phase `Loading`); the storage-backs-user invariant holds from the start |
| AuthContext.LoadUserData | src/contexts/AuthContext.tsx:52-64 | a successful read that finds a user makes that exact user the state user; finding nothing leaves the user as it was; the flag ends down whether the read succeeded or failed; a failed read is rethrown and changes no user; storage is never changed |
| AuthContext.SignIn | src/contexts/AuthContext.tsx:24-36 | one `POST /sessions` with the given email and password; a response carrying a user makes it both the state user and the stored user; a response without one changes nothing and raises nothing; a failed request is rethrown unchanged with state and storage untouched; the loading flag is never changed |
| AuthContext.SignOutPrelude | src/contexts/AuthContext.tsx:38-43 | while the storage removal is in flight the user is already cleared and the flag raised, and storage is not yet changed |
| AuthContext.SignOut | src/contexts/AuthContext.tsx:38-50 | afterwards the user is cleared and the flag is down (phase `LoggedOut`); a successful removal empties storage and raises nothing; a failed one is rethrown and leaves storage as it was |
| AuthContext.StepKeepsStorageBackingUser | src/contexts/AuthContext.tsx:24-64 | each of the three operations keeps the invariant that a signed-in user is the user held in storage |
| AuthContext.RunKeepsStorageBackingUser | src/contexts/AuthContext.tsx:24-64 | any sequence of operations keeps that invariant |
| AuthContext.ReachableWorldsAreBackedByStorage | src/contexts/AuthContext.tsx:20-68 | from mount on, whatever calls happen, a signed-in user is the persisted user |
| AuthContext.StepFollowsPhaseMachine | src/contexts/AuthContext.tsx:21-63 | from one completed call to the next, phases move only along `Loading → LoggedOut/LoggedIn`, `LoggedOut → LoggedIn` (sign-in exactly when the response carries a user) and `any → LoggedOut` (sign-out); a load ends `LoggedIn` exactly when it read a user or one was already signed in; a sign-in never leaves `Loading`; no completed call ends in `Loading` when it started outside it. While a sign-out's removal is in flight the flag is up again (`SignOutPrelude`) |
| AuthContext.RunNeverReturnsToLoading | src/contexts/AuthContext.tsx:24-64 | once the loading flag is down, it is down again after every completed call of any sequence; only a sign-out raises it, and only while its removal is in flight (`SignOutPrelude`) |
| AuthContext.RunLeavesLoading | src/contexts/AuthContext.tsx:38-64 | once a sequence containing a load or a sign-out has completed, it ends out of `Loading`, whether the storage calls succeeded or failed |
| AuthContext.SignOutIdempotent | src/contexts/AuthContext.tsx:38-50 | signing out twice gives the same state as once, and the same world when the removals agree in failing or the first succeeded; a second successful removal raises nothing |
| AuthContext.RestartAfterSignOutIsLoggedOut | src/contexts/AuthContext.tsx:38-68 | a remount and load after a sign-out whose storage removal succeeded finds nobody signed in |
| AuthContext.RestartAfterFailedSignOutRestoresUser | src/contexts/AuthContext.tsx:40-63 | assuming a failed removal leaves the slot as it was, it clears only the in-memory user: a remount and load signs the same user back in |
| AuthContext.RestartRestoresSession | src/contexts/AuthContext.tsx:24-64 | in a reachable world a remount and load restores exactly the signed-in user, and nobody when storage is empty |
| Api.PostSessions | src/contexts/AuthContext.tsx:26 | the sign-in request goes to `/sessions` with exactly the email and password |
| Api.PostUsers | src/screens/SignUp.tsx:55 | the account request goes to `/users` with exactly name, email and password |
| SignUpForm.Utf16Length | src/screens/SignUp.tsx:30 | a string's length as JavaScript counts it: between its character count and twice that, zero only for the empty string, and equal to the character count when no character lies above U+FFFF |
| SignUpForm.FirstBroken | src/screens/SignUp.tsx:27-32 | a field reports no message exactly when its value passes every rule of the field |
| SignUpForm.FirstBrokenNamesFirstBrokenRule | src/screens/SignUp.tsx:27-32 | a reported message is the message of a broken rule whose predecessors all hold |
| SignUpForm.Validate | src/screens/SignUp.tsx:27-32 | no more errors than schema entries, and no errors exactly when every field passes its rules |
| SignUpForm.UnlistedFieldNeverReported | src/screens/SignUp.tsx:27-32 | a field the schema does not mention never appears among the errors |
| SignUpForm.AtMostOneErrorPerField | src/screens/SignUp.tsx:27-32 | for a schema with distinct fields, no two errors are about the same field |
| SignUpForm.SignUpSchemaAtMostOneErrorPerField | src/screens/SignUp.tsx:27-32 | the sign-up schema reports at most one error per input |
| SignUpForm.SchemaFieldMessages | src/screens/SignUp.tsx:28-31 | each field of the schema, interpreted, gives the message of the direct statement of its rules |
| SignUpForm.UnlistedFieldHasNoMessage | src/screens/SignUp.tsx:27-32 | a field the schema does not mention never gets a message |
| SignUpForm.MessageForValidate | src/screens/SignUp.tsx:27-32 | for a schema with distinct fields, the message shown under a field is that field's first broken rule, whatever the other fields hold |
| SignUpForm.ValidateAcceptsExactlyValidForms | src/screens/SignUp.tsx:27-32 | the form passes validation exactly when the name is non-empty, the email is a non-empty address, the password has at least 6 UTF-16 code units and the confirmation is non-empty and equal to it |
| SignUpForm.MessagesPerField | src/screens/SignUp.tsx:27-32 | the message under each input is the one that input's own rules give |
| SignUpForm.EmptyNameRejected | src/screens/SignUp.tsx:28 | an empty name is rejected with 'Informe o nome.' |
| SignUpForm.BadEmailRejected | src/screens/SignUp.tsx:29 | an empty email is rejected with 'Informe o e-mail.', a non-address with 'E-mail inválido.' |
| SignUpForm.ShortPasswordRejected | src/screens/SignUp.tsx:30 | an empty password is rejected with 'Informe a senha.', one shorter than 6 UTF-16 code units with the minimum-length message |
| SignUpForm.BadConfirmationRejected | src/screens/SignUp.tsx:31 | an empty confirmation is rejected with 'Confirme a senha.', a differing one with the mismatch message |
| SignUp.ErrorTitle | src/screens/SignUp.tsx:61-62 | an `AppError` shows its own message, any other error the fixed default title |
| SignUp.HandleSignUp | src/screens/SignUp.tsx:51-70 | `POST /users` first; sign-in is requested only when it succeeded, with the same email and password; any failure lowers the submitting flag and shows the error's title, leaving the session as it was; success leaves the flag raised and shows no toast |
| SignUp.Submit | src/screens/SignUp.tsx:156-160 | `handleSignUp` runs exactly when the form is valid; otherwise the schema's non-empty error list is shown and nothing is sent |
| SignUp.ConfirmationNeverSent | src/screens/SignUp.tsx:51-56 | no request carries the confirmation, and every request sends the submitted password |
| SignUp.SuccessfulSignUpSignsIn | src/screens/SignUp.tsx:51-57 | a valid form with both steps succeeding and a user returned leaves that user signed in and persisted, the flag raised and no toast |
| SignUp.SignInWithoutUserKeepsSpinning | src/screens/SignUp.tsx:53-57 | a sign-in response without a user raises nothing, signs nobody in and leaves the flag raised |
| SignUp.AppErrorMessageReachesToast | src/screens/SignUp.tsx:58-62 | an `AppError` from either remote step reaches the toast with its own message, because the provider rethrows it unchanged |
| SignUp.SubmitKeepsStorageBackingUser | src/screens/SignUp.tsx:55-56 | a submission keeps the provider's storage-backs-user invariant |

## Left out

- Access and refresh tokens, a default authorization header, an unauthorized-response handler and a profile update are not modelled, because `AuthContext.tsx` has none of them.
- The storage module (`storageUserGet`, `storageUserSave`, `storageUserRemove`) and the HTTP client are not part of this model. Storage is one optional slot. Each call's success or failure, and each response, is an input.
- `storageUserSave` in `signIn` is not awaited. The model applies the write before `signIn` returns, and a failing save is not modelled.
- Interleaving of suspended operations: each operation is one atomic step. React's batching of state updates is not modelled either.
- React lifecycle: `useEffect` calling `loadUserData` once on mount is modelled as `Mount` followed by a `Load` event. The unhandled rejection of that call is not modelled.
- UI: rendering, navigation (`handleGoBack`), toast placement and colour, and the screens other than sign-up.
- The `UserDTO` type is not part of this model. `User` has id, name, email and avatar, and nothing depends on those fields.
- Validation library internals: the email pattern (the `isEmail` parameter), abort-early behaviour and the order of errors within one field. When a field breaks two rules, the model reports the message of the first rule declared.
- AuthContext.SignOut: a failed `storageUserRemove` is assumed to leave the slot as it was, because the storage module is not shown. `AuthContext.RestartAfterFailedSignOutRestoresUser` and the failed-removal cases of `AuthContext.SignOutIdempotent` rest on this assumption.
- SignUpForm.BadConfirmationRejected: an emptied confirmation next to a filled password shows 'Confirme a senha.' in the model. In the app, the validation library checks `oneOf([ref('password')])` before the field's other tests and stops when it fails, so the app shows 'A confirmação da senha não confere.'. `SignUpForm.MessagesPerField` and `SignUpForm.ConfirmMessage` share this difference. A confirmation that was never touched (absent) gets 'Confirme a senha.' in both, and the model cannot tell the two apart because both are the empty string.
- A field the user never touched is modelled as the empty string, which `required` rejects just as it rejects an absent value.
- Password length is counted in UTF-16 code units, as JavaScript's `length` counts it (`SignUpForm.Utf16Length`); unpaired surrogates cannot occur in a Dafny string and are not modelled.
