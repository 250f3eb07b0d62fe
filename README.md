# Notification service core, modelled in Dafny

This project models the request-handling core of a small Express/Prisma
backend: user registration and login with cookie-carried session tokens,
profile updates, and sending and fetching notifications between users.
It covers:

- the zod schemas that validate each request body (`registerSchema`,
  `loginSchema`, `userUpdateSchema`, `sendNotificationSchema`), as parse
  functions from a JSON value to a typed record, each paired with an
  encoder. A strict schema accepts exactly the encodings of in-bounds
  records;
- the central error translator (`createError`, `handleError`,
  `errorHandler`), as functions from the thrown value to a code, a
  message and a response;
- the route handlers `/register`, `/login`, `/profile`, `/send` and
  `/get`, as methods over an in-memory `Store` class that replaces the
  Prisma user and notification tables. Each handler returns its outcome:
  a response sent, an error forwarded with `next(error)`, or a failure
  inside a store call the route does not catch.

bcrypt's hash and compare, `signJWT`, zod's email format check and
`zodErrorToString` are function-typed parameters. Generated row ids,
creation times and the authenticated user's id are parameters too.

Files: `wrappers.dfy` (Option), `zod.dfy` (JSON values and zod's checks),
`auth_types.dfy`, `user_types.dfy`, `notification_types.dfy` (the
schemas), `error_handler.dfy`, `database.dfy` (rows, lookups, the
`Store`), `response.dfy` (handler outcomes), `auth_router.dfy`,
`user_router.dfy`, `notification_router.dfy`.

## Model

| member | source | states |
|---|---|---|
| `AuthTypes.EncodeRegister` | src/types/authTypes.ts:3-10 | the body for a register input has exactly the six declared keys |
| `AuthTypes.ParseRegister` | src/types/authTypes.ts:3-10 | an accepted body has exactly the six keys; name 2..20, contact exactly 10, bio 2..100, password 2..25, an email, and exactly 5 availability entries of 5..20 characters; and the body is the encoding of the parsed record |
| `AuthTypes.RegisterRoundTrip` | src/types/authTypes.ts:3-10 | every in-bounds register record is accepted from its own encoding, so acceptance is exactly "encoding of an in-bounds record" |
| `AuthTypes.EncodeLogin` | src/types/authTypes.ts:12-15 | the body for a login input has exactly `email` and `password` |
| `AuthTypes.ParseLogin` | src/types/authTypes.ts:12-15 | an accepted body has exactly `email` and `password`, the email passes the format check, the password is 2..25 characters, and the body is the encoding of the parsed record |
| `AuthTypes.LoginRoundTrip` | src/types/authTypes.ts:12-15 | every in-bounds login record is accepted from its own encoding |
| `UserTypes.EncodeUpdate` | src/types/userTypes.ts:4-10 | the body for an update carries exactly its present fields |
| `UserTypes.ParseUpdate` | src/types/userTypes.ts:4-10 | an accepted body has a non-empty key set within name, contact, bio and availabilityTime; each present field is in bounds (name 2..20, contact 10, bio 2..100, 1..7 entries of 1..20); the body is the encoding of the parsed update |
| `UserTypes.UpdateRoundTrip` | src/types/userTypes.ts:4-10 | every in-bounds update with at least one field is accepted from its own encoding |
| `UserTypes.UpdateNeverCarriesCredentials` | src/types/userTypes.ts:4-9 | an accepted update body never holds `email`, `password` or `role` |
| `NotificationTypes.EncodeSend` | src/types/notificationTypes.ts:3-6 | the body for a send input has exactly `message` and `receiverIds` |
| `NotificationTypes.ParseSend` | src/types/notificationTypes.ts:3-6 | an accepted body has exactly `message` (2..100 characters) and `receiverIds` (a non-empty array of numbers), so an extra key such as `messageType` is rejected; the body is the encoding of the parsed record |
| `NotificationTypes.SendRoundTrip` | src/types/notificationTypes.ts:3-6 | every in-bounds send record is accepted from its own encoding |
| `ErrorHandler.CreateError` | src/utils/middleware/errorHandler.ts:12-18 | the result is a `createError` (and so an `Error`) with the given message, and code 500 when none is given |
| `ErrorHandler.StackOrUnknown` | src/utils/middleware/errorHandler.ts:48-49 | the message is the stack when present and non-empty, `'Unknown error'` otherwise |
| `ErrorHandler.HandleError` | src/utils/middleware/errorHandler.ts:21-62 | a string maps to 500 with that string; a `createError` to its own code and message; a zod error to 400 with the rendered issues; another `Error` to 500 with its stack; anything else to 500 `'Unexpected error has occurred'`; `uncaught` text present exactly when the flag is set |
| `ErrorHandler.ErrorHandler` | src/utils/middleware/errorHandler.ts:65-76 | per kind of error, the response status and message are the handled code and message (a plain `Error` 500 with its stack or `'Unknown error'`, anything else 500 `'Unexpected error has occurred'`), and the body never carries `uncaught` |
| `ErrorHandler.SubclassesBeforeGenericError` | src/utils/middleware/errorHandler.ts:39-50 | a `createError` or `ZodError` is an `Error` yet keeps its own code and message (or 400), never the generic branch's |
| `ErrorHandler.UncaughtOnlyAddsNote` | src/utils/middleware/errorHandler.ts:53-60 | with the flag, the result equals the one without it plus the `uncaught` note |
| `ErrorHandler.HandleErrorAsWritten` | src/utils/middleware/errorHandler.ts:35-61 | the properties a reader of the returned value finds: same code always; the same message whenever the flag is off (a string error comes back as a `createError` whose `message` is readable); with the flag, the spread copies only enumerable properties, so the note is added and the message is lost exactly for a string error |
| `ErrorHandler.UncaughtStringLosesMessage` | src/utils/middleware/errorHandler.ts:36-60 | as written, an uncaught string error's spread result has no message, while the intended result keeps it |
| `Database.FindUserByEmail` | src/router/authRouter.ts:44-48 | a found user is in the table with that email; none is found exactly when no user has it |
| `Database.FindUserById` | src/router/userRouter.ts:48-52 | a found user is in the table with that id; none is found exactly when no user has it |
| `Database.FindUserByEmailUnique` | src/router/authRouter.ts:44-52 | with unique emails, the lookup by a stored user's email returns that user |
| `AuthRouter.TokenCookieOptions` | src/router/authRouter.ts:12-17 | maxAge is 7 days = 604,800,000 ms, httpOnly, not secure, SameSite lax |
| `AuthRouter.NewUser` | src/router/authRouter.ts:53-63 | the stored row has the given id, the hashed password, the input's other fields, the default role and the creation time |
| `AuthRouter.SessionCookies` | src/router/authRouter.ts:101-106 | exactly two cookies, `accessToken` and `refreshToken`, holding tokens signed over `{id, role}` with ATTL and RFTL, both with the token cookie options |
| `AuthRouter.AppendUserKeepsValid` | src/router/authRouter.ts:44-63 | adding a user whose id and email are new keeps ids and emails unique and all notification links resolving |
| `AuthRouter.Register` | src/router/authRouter.ts:38-67 | invalid input is forwarded as a zod error and a taken email as 400 "User already exists", both leaving the store unchanged; otherwise exactly one row `NewUser(input, id, hash(password), now)` is appended and 201 is sent; emails stay unique |
| `AuthRouter.Login` | src/router/authRouter.ts:81-111 | invalid input forwards a zod error; an unknown email 404 "Invalid credentials"; a wrong password 400 "Invalid credentials"; a match sends 200 with exactly the two session cookies of the found user |
| `AuthRouter.LoginAsWritten` | src/router/authRouter.ts:96-99 | as written, a known email always gets 200 and the session cookies, even when the password does not match |
| `AuthRouter.RegisterThenLogin` | src/router/authRouter.ts:38-111 | after a successful registration, logging in with the same credentials sends 200 with tokens over the new id and the default role |
| `UserRouter.ApplyUpdate` | src/router/userRouter.ts:57-62 | supplied fields replace the row's, absent ones stay; id, email, password, role and createdAt never change |
| `UserRouter.UpdateRows` | src/router/userRouter.ts:57-60 | only the row with the given id changes; every other row is kept |
| `UserRouter.ApplyUpdateIdempotent` | src/router/userRouter.ts:57-62 | applying an update twice gives the same row as applying it once |
| `UserRouter.UpdateRowsIdempotent` | src/router/userRouter.ts:57-62 | applying an update twice gives the same table as applying it once |
| `UserRouter.FindUserByIdAfterUpdate` | src/router/userRouter.ts:57-62 | an update does not change which ids resolve |
| `UserRouter.UpdateRowsKeepsValid` | src/router/userRouter.ts:57-62 | an update keeps ids and emails unique and notification links resolving |
| `UserRouter.UpdateProfile` | src/router/userRouter.ts:41-68 | invalid input forwards a zod error and an unknown id 404 "User not found", both with the store unchanged; otherwise only that user's row is updated, notifications are untouched, and 200 is sent with the updated row (password hash included) |
| `NotificationRouter.ReceiverSet` | src/router/notificationRouter.ts:25-27 | the links created are exactly the ids listed in `receiverIds` |
| `NotificationRouter.AppendNotificationKeepsLinks` | src/router/notificationRouter.ts:21-29 | appending a notification with known sender and receivers and a new id keeps the store's links valid |
| `NotificationRouter.Send` | src/router/notificationRouter.ts:14-34 | invalid input forwards a zod error and stores nothing; an unknown sender or receiver makes the store call fail and stores nothing; otherwise, with distinct receiver ids, exactly one notification from the sender to the listed receivers is appended and 201 is sent; with a repeated receiver id, either that same outcome or a store failure that stores nothing |
| `NotificationRouter.Received` | src/router/notificationRouter.ts:42-46 | each notification appears as often as stored when the caller is among its receivers, and not at all otherwise |
| `NotificationRouter.Insert` | src/router/notificationRouter.ts:57-59 | inserting into a newest-first list keeps it newest-first and adds exactly that notification |
| `NotificationRouter.SortNewestFirst` | src/router/notificationRouter.ts:57-59 | the result is ordered by `createdAt` descending and is a permutation of the input |
| `NotificationRouter.Inbox` | src/router/notificationRouter.ts:42-59 | exactly the stored notifications addressed to the caller, each as often as stored, ordered by `createdAt` descending |
| `NotificationRouter.View` | src/router/notificationRouter.ts:46-55 | a fetched item holds the notification's id and message and the id, email and name of its stored sender |
| `NotificationRouter.GetNotifications` | src/router/notificationRouter.ts:41-66 | no list exactly when the caller has no user row; otherwise one item per inbox entry, in inbox order, each carrying that entry's id and message and the id, email and name of its stored sender |
| `NotificationRouter.Get` | src/router/notificationRouter.ts:41-67 | the response is always 200 with no cookies and carries the query's result |

## Left out

- `src/index.ts` (Express setup, CORS, logging, cookie parsing, `listen`, and where the error middleware is mounted) is not part of this model; `ErrorHandler.ErrorHandler` describes what the middleware answers for an error it receives.
- `uncaughtExceptionHandler` (errorHandler.ts:81-85) logs and exits the process; only the `handleError` call it makes is modelled.
- The session middleware that sets `res.locals.user` is not part of these source files; the authenticated id is a parameter, and a request without it (a `TypeError` in the route) is not modelled.
- bcrypt: `hash` and `passwordMatches` are parameters; the random salt is folded into the hash function of the call.
- `signJWT`, `config.ATTL` and `config.RFTL` are not part of this model: signing is a parameter and the two lifetimes are symbolic. Token contents beyond the claims, expiry and verification are not modelled.
- zod's email format check and `zodErrorToString` are parameters; the issue list of a `ZodError` is represented by the schema and the rejected body.
- String lengths are counted in characters; JavaScript counts UTF-16 code units, which differ for characters outside the Basic Multilingual Plane.
- JSON numbers are integers; a fractional receiver id is not modelled.
- The Prisma schema is not part of this model: the default role `"USER"` is taken from the documented response example (userRouter.ts:36), row ids are parameters whose freshness the caller guarantees, and creation times are unconstrained parameters.
- NotificationRouter.Send: when the sender or a receiver id is unknown, the `create` call throws (a foreign-key failure for `senderId`, a failed `connect` for a receiver) and the route does not catch it; the model states only that nothing is stored, and nothing about the response.
- NotificationRouter.Send: when `receiverIds` repeats an id, the route hands the repeats to `connect` unchanged and the outcome depends on the store, which is not part of this model; the contract allows either one link per distinct id with 201 or a store failure that stores nothing.
- NotificationRouter.Inbox: the database leaves the order of notifications with equal `createdAt` unspecified; the model keeps their table order, which is one of the allowed orders.
- Request concurrency and `async` interleaving are not modelled; each handler runs as one sequential method, so races such as two registrations of one email are outside the model.
- The model assumes ES2015 class semantics for `createError extends Error`, under which `instanceof createError` holds; the TypeScript compile target is not part of this model.
- The `next()` call after `errorHandler` responds, and Express's own treatment of out-of-range status codes, are not modelled.
- The profile response includes the password hash, as the source sends it; no redaction is modelled.

## Findings

| source | as written | input that shows it | evidently intended | confidence | as-written member | corrected member |
|---|---|---|---|---|---|---|
| src/router/authRouter.ts:96-99 | `bcrypt.compare` is not awaited, so `matchPassword` is a Promise, always truthy, and the 400 branch never runs | a registered email with any other 2..25-character password | reject with 400 "Invalid credentials" | high; not executed | `AuthRouter.LoginAsWritten` | `AuthRouter.Login` |
| src/utils/middleware/errorHandler.ts:36-60 | a string error becomes a `createError` instance whose `message` is non-enumerable, so `{...error, uncaught}` keeps only `code` and the note | `handleError({_error: "boom", uncaught: true})` | `{message: "boom", code: 500, uncaught: ...}` | medium; not executed | `ErrorHandler.UncaughtStringLosesMessage` | `ErrorHandler.HandleError` |
