# Chat and auth stores of a mobile AI chat client

This project models the two state stores of a React Native chat client that talks to a generative-language service:

- **The chat store** (`store/chatStore.ts`) owns an ordered message log and an `isTyping` flag. It starts with a fixed assistant greeting (id `"1"`). `sendMessage` works in two phases. First it appends the user's text verbatim and raises `isTyping`. Then it awaits the reply and appends exactly one assistant message, either the reply text or a fixed local apology when a fault escapes its `try`, and lowers `isTyping`. `clearMessages` puts the single greeting back. The reply comes from `getAIResponse`, which never fails: any failure of the remote call becomes one of three fixed apology texts, chosen at random.
- **The auth store** (`store/authStore.ts`) owns `user`, `isAuthenticated` and `isLoading` and drives a key/value secure store. `login` accepts only the demo credentials. `signup` accepts anything. `logout` deletes both session keys. `checkAuthStatus` restores the session from the two stored keys.

Layout:

- `wrappers.dfy`: `Option`.
- `chat.dfy`, module `Chat`: message and state datatypes; `AIResponse`; the step functions `Initial`, `AppendUser`, `AppendReply` and `Reset`; whole rounds (`SendRound`, `Converse`); arbitrary operation sequences (`Run`); and the class `ChatStore`, whose methods update `messages` and `isTyping` in place and are proved against the step functions.
- `auth.dfy`, module `Auth`: session and secure-store datatypes; the step functions `LoginStep`, `SignupStep`, `LogoutStep` and `CheckStep`; lemmas relating them; operation sequences; and the classes `SecureStore` (a `map` field) and `AuthStore`, whose methods perform the same secure-store calls in the same order as the source.

The model takes as inputs the things the source gets from outside:

- the remote call's outcome (`Generated(text)` or `RemoteFailure`);
- the random fallback index (`Pick`, 0 to 2);
- message ids and timestamps (`Stamp`);
- the clock reading used as a signed-up user's id (`stamp`);
- which secure-store call throws, if any (`Fault`: `FailsAt(k)` makes the k-th call of that operation throw).

The store's `sendMessage` does **not** trim its text, reject empty text or refuse to send while `isTyping` is set. Those checks live in the chat screen (`app/(auth)/chat.tsx:95-99`), which is not part of this model. The model follows the store: `Run` admits any order of sends, replies and clears, and the invariants hold for all of them.

## Model

| member | source | states |
|---|---|---|
| `Chat.AIResponse` | store/chatStore.ts:25-51 | When the remote call produces text, the reply is that text verbatim. On any failure the reply is one of the three fallback texts, never the local error text; no failure propagates. |
| `Chat.FallbackChoices` | store/chatStore.ts:43-49 | There are exactly three pairwise-distinct fallback texts, and a text is a possible failure reply exactly when it is one of them. |
| `Chat.Initial` | store/chatStore.ts:54-67 | The initial log is exactly one message: the greeting text with id "1", not from the user, with sender ai / AI Assistant. `isTyping` is false and the state invariant holds. |
| `Chat.AppendUser` | store/chatStore.ts:69-85 | The first phase of `sendMessage` appends one message at the end and keeps every earlier message in order. The new message has the text verbatim, is the user's, and has sender user / You. `isTyping` becomes true. |
| `Chat.AppendReply` | store/chatStore.ts:87-127 | Completion appends exactly one assistant message (sender ai / AI Assistant) at the end and keeps earlier messages. Its text is the gateway text verbatim, or the fixed local error text when a fault escaped. `isTyping` becomes false. |
| `Chat.Reset` | store/chatStore.ts:130-147 | Whatever the prior state, `clearMessages` leaves a log of length 1 holding the greeting (id "1"), with `isTyping` false and the invariant holding. |
| `Chat.ResetIsInitial` | store/chatStore.ts:54-67 | Clearing yields exactly the state the store is created with. |
| `Chat.ResetIdempotent` | store/chatStore.ts:130-147 | Clearing twice gives the same log as clearing once, and the greeting keeps id "1". |
| `Chat.RoundReply` | store/chatStore.ts:87-126 | The awaited phase ends with the local error exactly when a fault escapes its `try`. Otherwise it ends with the gateway's text verbatim, or with one of the fallback texts when the remote call failed. |
| `Chat.SendRound` | store/chatStore.ts:69-127 | One full `sendMessage` adds exactly two messages after the untouched earlier log: the user's text, then its answer. `isTyping` ends false. |
| `Chat.ConverseAppendsRounds` | store/chatStore.ts:69-127 | n sequential sends keep the earlier log and add 2n messages. Message 2i of the new part is round i's user text and message 2i+1 its answer. `isTyping` ends false. |
| `Chat.StepPreservesInvariant` | store/chatStore.ts:82-146 | Each single update (the send phase's `set` at lines 82-85, the reply `set` at 104-107 or 123-126, the clear at 131-146) preserves the invariant: log non-empty, greeting first, sender matching role, `isTyping` iff the newest message is the user's. |
| `Chat.RunPreservesInvariant` | store/chatStore.ts:53-148 | Any sequence of operations preserves that invariant. |
| `Chat.ReachableInvariant` | store/chatStore.ts:54-67 | Every state reachable from the initial one satisfies the invariant, and its first message is the greeting. |
| `Chat.RunWithoutClearAppends` | store/chatStore.ts:83 | Without a clear, the log only grows: one message per operation, with the earlier messages unchanged and in order. |
| `Chat.ChatStore.constructor` | store/chatStore.ts:53-67 | A new store holds the initial state. |
| `Chat.ChatStore.SendMessageBegin` | store/chatStore.ts:69-85 | Updates the fields in place to `AppendUser` of the old state and keeps the invariant. |
| `Chat.ChatStore.SendMessageComplete` | store/chatStore.ts:87-127 | Updates the fields in place to `AppendReply` of the old state and keeps the invariant. |
| `Chat.ChatStore.SendMessage` | store/chatStore.ts:69-128 | The whole `sendMessage`: the log becomes the old log plus the user message and the answer, computed through `AIResponse` or the local error. |
| `Chat.ChatStore.ClearMessages` | store/chatStore.ts:130-147 | Updates the fields in place to `Reset` of the old state. |
| `Auth.LoginStep` | store/authStore.ts:26-55 | `login` returns true exactly for the demo email and password when both writes succeed. The session then becomes user {id "1", the email, "Demo User"}, authenticated, not loading. The token key maps to `demo_token_123` and the data key to the serialized user. A false result leaves the session fields unchanged. Wrong credentials or a fault on the first write change nothing at all. A fault on the second write leaves the token key mapped to `demo_token_123` and everything else as it was, since nothing is rolled back. Other keys are never touched. |
| `Auth.SignupStep` | store/authStore.ts:57-82 | `signup` returns true exactly when both writes succeed, with no check on the inputs. The session then holds the given email and name, authenticated, not loading. The token key maps to "token_" followed by the id, and the data key to the user. A false result leaves the session fields unchanged. A fault on the first write changes nothing; a fault on the second leaves the token key mapped to "token_" followed by the id and everything else as it was. |
| `Auth.LogoutStep` | store/authStore.ts:84-97 | When both deletes succeed, `logout` removes both keys and signs out (`user` null, not authenticated, not loading). A fault on the first delete changes nothing; a fault on the second leaves the token removed, the user data still stored and the session fields unchanged. Other keys are never touched. |
| `Auth.CheckStep` | store/authStore.ts:99-126 | After `checkAuthStatus`, `isLoading` is false in every branch and the secure store is unchanged. It is authenticated exactly when the reads succeed, the token is present and non-empty, and the user data is present and parses; the user is then the stored one. Otherwise it is signed out. |
| `Auth.SignupIgnoresPassword` | store/authStore.ts:57-66 | The password has no effect on `signup`. |
| `Auth.LoginThenCheckRestores` | store/authStore.ts:38-45 | After a successful `login`, `checkAuthStatus` restores exactly the same state. |
| `Auth.SignupThenCheckRestores` | store/authStore.ts:68-75 | After a successful `signup`, `checkAuthStatus` restores exactly the same state. |
| `Auth.LogoutThenCheckSignedOut` | store/authStore.ts:86-93 | After a complete `logout`, `checkAuthStatus` finds no session and changes nothing. |
| `Auth.CheckIdempotent` | store/authStore.ts:99-117 | A second fault-free `checkAuthStatus` changes nothing. |
| `Auth.StepKeepsCoherent` | store/authStore.ts:41-45 | Every operation keeps "authenticated iff a user is set", and none sets `isLoading` back to true. |
| `Auth.RunKeepsCoherent` | store/authStore.ts:21-127 | Any sequence of operations keeps both properties. |
| `Auth.StepKeepsOwnData` | store/authStore.ts:39-69 | Every operation keeps the user-data key, when present, holding a serialized user (the only thing this store writes there). |
| `Auth.RunKeepsOwnData` | store/authStore.ts:21-127 | Any sequence of operations keeps that property. |
| `Auth.RunFromInitial` | store/authStore.ts:22-24 | Starting from the initial session over a secure store that holds only what this store writes, every reachable state is coherent and the store keeps holding only that. |
| `Auth.StaleSessionAfterPartialWrites` | store/authStore.ts:84-125 | Writes are not rolled back after a fault. A `logout` failing on its second delete keeps the user's data. A later demo `login` failing on its second write returns false but stores a token. `checkAuthStatus` then signs in as the old user. |
| `Auth.SecureStore.SetItem` | store/authStore.ts:38-39 | A write either throws, changing nothing, or maps the key to the value. |
| `Auth.SecureStore.DeleteItem` | store/authStore.ts:86-87 | A delete either throws, changing nothing, or removes the key. |
| `Auth.SecureStore.GetItem` | store/authStore.ts:101-102 | A read that does not throw gives the stored value, or nothing when the key is absent. |
| `Auth.AuthStore.constructor` | store/authStore.ts:21-24 | A new store starts with `user` null, not authenticated, loading. |
| `Auth.AuthStore.Login` | store/authStore.ts:26-55 | The in-place `login` returns and leaves exactly what `LoginStep` says. |
| `Auth.AuthStore.Signup` | store/authStore.ts:57-82 | The in-place `signup` returns and leaves exactly what `SignupStep` says. |
| `Auth.AuthStore.Logout` | store/authStore.ts:84-97 | The in-place `logout` leaves exactly what `LogoutStep` says. |
| `Auth.AuthStore.CheckAuthStatus` | store/authStore.ts:99-126 | The in-place `checkAuthStatus` leaves exactly what `CheckStep` says. |

## Left out

- The remote text-generation SDK call (model construction, `generateContent`, `response.text()`) is a foreign network call. It is the input `RemoteOutcome`.
- `Math.random()` is the input `Pick`. `Date.now()`, `Math.random()` and `new Date()` for message ids and timestamps are the input `Stamp`. Nothing guarantees their uniqueness, and the model does not claim it.
- Overlapping asynchronous `sendMessage` calls are concurrency. The model runs one store call at a time. `Run` still admits a second send before a reply, because the store itself does not refuse one.
- `console.error` logging is diagnostics only.
- The one-second `setTimeout` delay in `login` and `signup` is timing only.
- `expo-secure-store` internals are not modelled; the store is a `map` field.
- `JSON.stringify(user)` is abstracted to the stored value `UserJson(user)`, and `JSON.parse` gives that user back.
- Auth.RunKeepsCoherent: over a secure store whose user-data entry was written by something else, coherence rests on the abstraction in the next line; `Auth.RunFromInitial` states it only for stores holding what this store writes.
- Auth.CheckStep: a user-data entry that is plain text (a value this store never writes) is treated as text that `JSON.parse` rejects. Valid foreign JSON that would parse into some other value is not modelled.
- The fallback index: the value `Math.floor(Math.random() * 3)` is assumed to be 0, 1 or 2. This holds because `Math.random()` is below 1.
- `app/index.tsx` is navigation glue and is not part of this model. So are the screens under `app/(auth)/`, including the chat screen's trim, empty-text and already-typing checks.
- `constants/AppConfig.ts` is not part of this model beyond the four constants used here (demo email and password, the two key names).
