# Session and login state machine of the admin panel

This project models, in Dafny, the authentication hook `useAuthState` of the
admin web interface (src/hooks/useAuth.ts). The hook holds three pieces of
state:

- `user`: the logged-in user, or none;
- `loading`: starts true and is switched off by the startup check and by every login;
- the local-storage slot keyed `'melx_session'`: either absent or holding a stored session.

Three operations change that state:

- the **startup check** (`checkSession`) expires sessions lazily. It keeps a
  session only while `expires > now`, and it deletes a value that does not parse;
- **login** checks the first looked-up row. It decodes the row's stored
  password with `atob` and compares it exactly with the one the caller gave.
  On success it writes a 24-hour session and sets the user;
- **logout** removes the slot and clears the user.

Files:

- `wrappers.dfy`: `Option` and `Result`.
- `auth_spec.dfy` (module `AuthSpec`): the entities as datatypes. Each
  operation is a step function on a `State` snapshot. `Run` plays a whole
  lifetime of the hook, and the lemmas relate the operations.
- `use_auth.dfy` (module `UseAuth`): the hook as a class `AuthState`. Its
  fields `user`, `loading` and `slot` are updated in place by the methods
  `CheckSession`, `Login` and `Logout`. Each method is proved against the
  matching `After…` step function in `AuthSpec`.

The outside world is abstracted as follows:

- clock readings are `nat` milliseconds passed in. `login` reads the clock
  twice, so `expiresClock` (line 104) and `loginClock` (line 105) are
  independent parameters, and nothing relates `expires` to `loginTime`;
- the database query becomes a `Lookup` value:
  - `Errored`: the client reported an error;
  - `Rejected`: the awaited call threw;
  - `Rows(rows)`: the returned rows;
- `atob` is a partial function `string -> Option<string>` passed in;
- `writeFails` says whether the storage write throws.

JSON serialisation is folded into the `Stored` datatype:

- `EmptyText`;
- `Unparsable`;
- `Parsed(user, expires, loginTime)`.

The startup check tests the raw value for truthiness first (useAuth.ts:36).
A slot holding the empty string is therefore skipped and kept, even though it
does not parse, and the model keeps `EmptyText` in place.

## Model

| member | source | states |
|---|---|---|
| AuthSpec.AfterCheckSession | src/hooks/useAuth.ts:34-52 | a parsed session with `expires > now` restores its user and stays stored; one with `expires <= now` is removed and the user is unchanged; an unparsable value is removed; an absent or empty slot is untouched; loading is false afterwards in every case |
| AuthSpec.Authenticate | src/hooks/useAuth.ts:61-100 | a lookup error fails with LookupFailed, a thrown lookup with Threw, zero rows with NotFound, a failed decode with DecodeFailed; it succeeds exactly when the first row's decoded password equals the supplied one, and then yields exactly `{id, username, name, role}` of that first row |
| AuthSpec.AfterLogin | src/hooks/useAuth.ts:57-118 | returns true exactly when the credential check succeeds and the storage write does not throw; then user is the first row's projection and the slot holds it with `expires = expiresClock + 86400000` and that `loginTime`; on every failure user and slot are unchanged; loading is false on every path |
| AuthSpec.Run | src/hooks/useAuth.ts:57-123 | any sequence of logins and logouts from a settled state ends in a settled state: loading off, and an in-memory user is exactly the user of the session held in the slot |
| AuthSpec.LifetimeSettled | src/hooks/useAuth.ts:33-123 | after the startup check at mount followed by any logins and logouts, the hook is settled |
| AuthSpec.SavedSessionRestoredIff | src/hooks/useAuth.ts:38-108 | a session written by a successful login whose expiry clock read `t` restores the same user at a later startup check at `t'` if and only if `t' < t + 86400000`; otherwise the check removes it and leaves no user |
| AuthSpec.LogoutIdempotent | src/hooks/useAuth.ts:120-123 | logout leaves the slot empty and the user none whatever the prior state, does not touch loading, and twice equals once |
| AuthSpec.AdminScenario | src/hooks/useAuth.ts:68-111 | with a row for "admin" whose password decodes to "secret123", supplying "secret123" succeeds as admin and supplying "wrong" fails leaving user and slot unchanged |
| UseAuth.AuthState.constructor | src/hooks/useAuth.ts:29-30 | the hook mounts with no user, loading true and the slot as storage holds it |
| UseAuth.AuthState.CheckSession | src/hooks/useAuth.ts:34-52 | updates the fields in place to exactly the state `AfterCheckSession` gives for the old state, ending with loading false |
| UseAuth.AuthState.Login | src/hooks/useAuth.ts:57-118 | returns and leaves exactly what `AfterLogin` gives for the old state; loading false afterwards; on failure user and slot unchanged |
| UseAuth.AuthState.Logout | src/hooks/useAuth.ts:120-123 | updates the fields to `AfterLogout` of the old state: user none, slot absent, loading unchanged |

## Left out

- The Supabase query (useAuth.ts:62-66) is a network call. Only its result is modelled, as the `Lookup` parameter, so the username reaches nothing in the model.
- `atob` is a browser routine; it is a function parameter, and base64 itself is not modelled.
- `JSON.stringify`/`JSON.parse` and the property accesses on the parsed object are collapsed into `Stored`. Any parsed value not shaped like what `login` writes is outside the model. Two cases are not represented. First, `expires > now` (useAuth.ts:42) converts a non-number first, so a numeric string or a one-element array such as `"99999999999999"` or `[99999999999999]` can count as live, while a missing or non-numeric `expires` compares false and the value is removed. Second, a live value whose `user` is missing or `null` restores `undefined` or `null` as the user (useAuth.ts:43); `Parsed` always carries a `User`. A parsed `null` throws at the property access and is removed like an unparsable value.
- The `console.error` diagnostics, the `useAuth` context guard (useAuth.ts:20-26) and the React provider (src/components/AuthProvider.tsx) are logging and UI plumbing.
- The admin panel component (src/components/AdminPanel.tsx) is presentation only.
- Two `login` calls racing on the event loop are not modelled; each `login` is one atomic step, so the intermediate `loading == true` is never observed by another operation.
- AuthSpec.AfterCheckSession, UseAuth.AuthState.CheckSession: storage reads and removals are assumed not to throw. If `getItem` (useAuth.ts:35, outside the `try`) throws, the effect throws before line 51 and `loading` stays true. If `removeItem` throws at line 45, line 48 retries it inside the `catch`; if that throws too, the error propagates and `loading` again stays true.
- UseAuth.AuthState.Logout, AuthSpec.AfterLogout: `removeItem` is assumed not to throw; if it throws at useAuth.ts:121, `setUser(null)` is skipped and the user stays logged in.
- The storage slot is a field of the object, not a shared key-value store; other keys and other tabs are not modelled.
