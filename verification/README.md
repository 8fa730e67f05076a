# twetch-js build-and-publish pipeline, in Dafny

This project models the core of the twetch-js SDK client: the controller that turns an
action name, a payload and an optional file into an encoded argument list, prices it
with `/payees`, fills the `#{invoice}`, `#{mySignature}` and `#{myAddress}` placeholders,
has the wallet build the transaction, and then either hands the transaction back (the
wallet broadcasts it) or checks it and submits it to `/publish`. It also models the
`handleError` classifier that turns anything thrown along the way into `{error: ...}`.
Both variants of the client are modelled:

- the current client, `src/clients/index.js` (module `CurrentClient`). It has an
  `authenticated` flag, `build` authenticates before pricing, and the pricing call may
  override the client identifier. `/publish` failures are rethrown as plain objects, and
  the classifier reports a remote `errors` list. This module also models the key
  selection of `syncPublicKeys`.
- the legacy client, `src/client.js` (module `LegacyClient`). `authenticate` reuses a
  stored token and `build` never authenticates. There is no `broadcast` flag and no
  `errors`-list branch.

Layout:

- `values.dfy` (`Values`): optional members, JavaScript truthiness, `||` defaults and
  `Array.prototype.join`.
- `errors.dfy` (`Errors`): the thrown-value shapes and the classifier, as written and
  corrected. The flag `listsErrors` selects the current or the legacy variant.
- `encoding.dfy` (`Encoding`): the part of the action encoder the pipeline relies on.
  An encoded action is an ordered list of slots; a slot is literal text or a named
  placeholder. `Substitute` is one key of `abi.replace`.
- `collaborators.dfy` (`Collaborators`): the shared data. It holds the client
  configuration, the schema, payloads, payees and transactions, the request bodies and
  the result shapes. `World` is the oracle record of every collaborator (wallet,
  encoder, HTTP endpoints, authentication service). `Call` is one entry of the ordered
  record of external requests.
- `current_client.dfy` and `legacy_client.dfy`: one module per client. Each operation is
  first a function `...Spec(config, state, world, ...)`. It returns a `Run`: the result,
  the new state, and the external calls in order. The client's promises are lemmas about
  those functions. The class `Client` holds the same fields as the JavaScript object,
  plus a ghost `trace` of the calls made. Every method is proved to return the function's
  result, to leave the object in the function's new state, and to append exactly the
  function's calls to `trace`. The lemmas therefore apply to the class.

Exceptions are values: a collaborator answers `Done(value)` or `Threw(thrown)`, and each
operation's `try`/`catch` becomes a branch that returns `Failed(HandleError(thrown, ...))`
or `BuildFailed(...)`. The zero-balance `return console.log(...)` becomes the result
`NoFunds`.

## Model

| member | source | states |
|---|---|---|
| `Values.Join` | src/clients/index.js:329 | `join` of no parts is the empty string; otherwise the length is the parts' total plus one separator between each pair of neighbours, and the result starts with the first part |
| `Values.JoinAppend` | src/clients/index.js:329 | joining two non-empty lists back to back is joining each and putting exactly one separator between them, so the joined text holds every part in order |
| `Collaborators.ConfigFor` | src/clients/index.js:17-18 | a missing or empty option falls back to its default, so the client identifier every `/payees` request carries and the network passed to the transaction check are never empty |
| `Collaborators.Finalize` | src/clients/index.js:268-271 | signature and address substitution keeps the number of arguments |
| `Collaborators.FinalizeFills` | src/clients/index.js:268-271 | after finalizing, every `#{mySignature}` slot holds the wallet's signature of the content hash of the invoice-filled arguments, every `#{myAddress}` slot holds the wallet address, and every other slot is unchanged |
| `Collaborators.MergeResponse` | src/clients/index.js:286 | `{...response, txid, abi}` keeps every server field except `txid` and `abi`, adds none, and leaves those two to the client |
| `Encoding.Substitute` | src/clients/index.js:255-257 | `replace` of one key fills every placeholder with that token with the value and leaves every other slot as it was |
| `Encoding.LastWriteWins` | src/clients/index.js:255-257 | substituting the same key twice yields the second value |
| `Encoding.DistinctKeysCommute` | src/clients/index.js:268-271 | substitutions of `#{mySignature}` and `#{myAddress}` touch disjoint slots, so their relative order does not change the slots filled |
| `Encoding.SubstitutedArgs` | src/clients/index.js:255-272 | after a substitution, `toArray()` shows the value at every position of that token and the old argument everywhere else |
| `Errors.HandleErrorAsWritten` | src/clients/index.js:326-344 | the classifier as written throws (instead of returning a result) exactly when the thrown value is `null` or `undefined` |
| `Errors.HandleError` | src/clients/index.js:326-344 | the corrected classifier always returns a report; it reports the thrown value itself only when there is no response data and no string form, and with response data it always reports a message |
| `Errors.AgreesWithSourceUnlessNullish` | src/clients/index.js:326-344 | the corrected classifier returns what the written one returns for every value other than `null`/`undefined` |
| `Errors.NullishEscapesClassifier` | src/clients/index.js:335 | a thrown `undefined` escapes the classifier of both clients |
| `Errors.ErrorsListTakesPrecedence` | src/clients/index.js:327-330 | response data with an `errors` list gives that list joined with ", ", whatever the status, 401 included |
| `Errors.UnauthorizedWithoutErrorsList` | src/clients/index.js:332-334 | with response data and no `errors` list, the report is exactly "unauthenticated" if and only if the status is 401 |
| `Errors.GenericWithoutErrorsListOr401` | src/clients/index.js:326-343 | response data with neither an `errors` list nor status 401 gives "something went wrong" |
| `Errors.SingleRemoteError` | src/clients/index.js:328-330 | a one-element `errors` list is reported as that element |
| `Errors.LegacyUnauthorized` | src/client.js:176-180 | legacy: with response data, the report is "unauthenticated" if and only if the status is 401, whatever `errors` holds |
| `Errors.LegacyIgnoresErrorsList` | src/client.js:175-189 | legacy: response data with any other status gives "something went wrong", even with an `errors` list |
| `Errors.StringFormWithoutResponseData` | src/client.js:181-183 | without response data, a value with `toString` is reported by its string form (both clients) |
| `Errors.ErrorIsMessageOrValue` | src/clients/index.js:335-340 | the report is a message if and only if there is response data or a string form; otherwise it is the thrown value itself |
| `CurrentClient.RewrapPublishFailure` | src/clients/index.js:311-316 | a `/publish` failure with a response is rethrown as a plain object with the same data, no status and the string form `[object Object]`; `null`, `undefined` and a value without a response are rethrown unchanged |
| `CurrentClient.AuthenticatedReusesToken` | src/clients/index.js:112-132 | when `authenticated` is set, `authenticate` makes no call, returns the stored token, writes it back and sends it |
| `CurrentClient.UnauthenticatedRunsChallenge` | src/clients/index.js:113-131 | when the flag is clear, the challenge runs first even if a token is stored. A successful login is the last call, with `v2` set to `create`; the token that login returned is the result, is stored and sent, and the flag is set. A failure leaves the state unchanged |
| `CurrentClient.PayeesIdentifier` | src/clients/index.js:297-305 | the `/payees` request carries a truthy per-call identifier, else the configured one, and changes no state |
| `CurrentClient.BuildUsesCachedSchema` | src/clients/index.js:231-233 | with a cached, named schema, `build` fetches no schema and leaves both the schema and the stored copy unchanged |
| `CurrentClient.BuildRefreshesMissingSchema` | src/clients/index.js:231-233 | with a missing or unnamed schema, the first call of `build` fetches the schema |
| `CurrentClient.AuthenticatedBuildSkipsChallenge` | src/clients/index.js:245-247 | an authenticated client's `build` runs no challenge |
| `CurrentClient.BuildPricesBeforeInvoiceSubstitution` | src/clients/index.js:249-257 | a successful `build` prices exactly the unsubstituted encoded arguments as its last call, returns the encoding with `#{invoice}` filled by the priced invoice, and stores that invoice |
| `CurrentClient.BuildAuthenticatesBeforePricing` | src/clients/index.js:245-254 | after a successful `build` the client is authenticated and priced with its existing token or, when it was not authenticated, with the token a login with `v2: false` returned |
| `CurrentClient.SubstitutionOrder` | src/clients/index.js:255-272 | once `build` succeeds, whatever follows, the next calls are: sign the hash of the invoice-filled arguments, read the address, build the transaction from the fully substituted arguments |
| `CurrentClient.ResultCarriesFinalArgs` | src/clients/index.js:267-286 | a local or remote result happens only after a successful `build`, and its `abi` is the build's encoding with the signature and address filled in |
| `CurrentClient.CanPublishNeverSubmits` | src/clients/index.js:274-276 | if the wallet can publish, `/publish` is never called; once `build` succeeds nothing is called after `buildTx`, and a built transaction gives `{txid: tx.hash, abi}`, the only way to get a local result |
| `CurrentClient.RemoteSubmission` | src/clients/index.js:278-286 | otherwise, once `build`, `buildTx` and the check succeed, the check and then the post of the raw transaction, the build's invoice, the action, `payParams` and `broadcast: true` are the last calls; a successful post gives the server fields with the local `tx.hash` as `txid`, the only way to get a remote result |
| `CurrentClient.SubmissionFailureLosesStatus` | src/clients/index.js:307-318 | a failed submission is classified after rewrapping, so response data without an `errors` list gives "something went wrong" whatever the status |
| `CurrentClient.BuildFailureIsMasked` | src/clients/index.js:267-268 | when `build` reports an error, `buildAndPublish` makes no further call and reports the TypeError from reading `replace` on an undefined `abi` |
| `CurrentClient.DatalessPublishFailureIsPlainObject` | src/clients/index.js:311-316 | a `/publish` failure whose response has no data is reported as `[object Object]`, the rethrown plain object's string form, whatever its status |
| `CurrentClient.PublishUnauthorizedIsGeneric` | src/clients/index.js:311-314 | a 401 without an `errors` list classifies as "unauthenticated" directly, but as "something went wrong" after rewrapping |
| `CurrentClient.PublishWithoutFundsMakesNoRequests` | src/clients/index.js:215-218 | a zero balance ends `publish` after the address, balance and address calls, with no pricing or submission request and no state change |
| `CurrentClient.PublishWithFundsDelegates` | src/clients/index.js:215-223 | a non-zero balance hands over to `buildAndPublish` after the address and balance calls |
| `CurrentClient.KeysToEncrypt` | src/clients/index.js:61-67 | a key is kept if and only if it has no encrypted mnemonic, a paymail address and a wallet type other than `handcash`/`TwetchWallet`; each kept key appears exactly as often as in the query's list, and no other key appears |
| `CurrentClient.KeysToEncryptKeepsOrder` | src/clients/index.js:61-67 | the kept keys appear in the order the query returned them |
| `CurrentClient.MnemonicPlaintext` | src/clients/index.js:92-94 | the plaintext ends with the mnemonic, and is longer exactly for `onebutton` wallets |
| `CurrentClient.KeyUpdates` | src/clients/index.js:69-98 | the loop sends exactly one update per selected key, in order, each being that key's `KeyUpdateFor` |
| `CurrentClient.SyncPublicKeys` | src/clients/index.js:45-110 | `None` exactly on the early returns. Otherwise, one update for each selected key in order, then a `publicKey` update when none is set, then an `xpub` update when none is set |
| `CurrentClient.SyncSelectsOnlyKeysWithoutMnemonic` | src/clients/index.js:57-67 | a listed key that already holds an encrypted mnemonic, or belongs to an excluded wallet, is never synced; a listed key that needs one is synced whenever the account's key is unset or equals the mnemonic's |
| `CurrentClient.KeyUpdateEncryptsToRecordedKey` | src/clients/index.js:72-97 | each key update names its key and records the identity key the plaintext was encrypted to; a key with its own identity key never consults the paymail lookup, and one without uses the lookup's answer for its address |
| `CurrentClient.MatchingKeyIsNotRewritten` | src/clients/index.js:100-107 | an account whose key already equals the mnemonic's gets no `publicKey` update |
| `CurrentClient.Client.constructor` | src/clients/index.js:10-26 | the identifier and network defaults, the stored token in the header, the stored schema (or `{}`) as `abi`, not authenticated, nothing called |
| `CurrentClient.Client.InitAbi` | src/clients/index.js:205-209 | follows `InitAbiSpec`: a failed fetch leaves the stored schema (or `{}`) loaded; a successful one replaces and stores the fetched schema |
| `CurrentClient.Client.Authenticate` | src/clients/index.js:112-132 | follows `AuthenticateSpec` (result, fields, calls) |
| `CurrentClient.Client.FetchPayees` | src/clients/index.js:297-305 | follows `FetchPayeesSpec` |
| `CurrentClient.Client.PublishRequest` | src/clients/index.js:307-318 | follows `PublishRequestSpec` |
| `CurrentClient.Client.Refresh` | src/clients/index.js:231-233 | follows `RefreshSpec`: fetch only when the schema is missing or unnamed |
| `CurrentClient.Client.EnsureAuthenticated` | src/clients/index.js:245-247 | follows `EnsureAuthenticatedSpec`: authenticate only when the flag is clear |
| `CurrentClient.Client.Build` | src/clients/index.js:229-263 | follows `BuildSpec` |
| `CurrentClient.Client.BuildAndPublish` | src/clients/index.js:265-290 | follows `BuildAndPublishSpec` |
| `CurrentClient.Client.Publish` | src/clients/index.js:211-227 | follows `PublishSpec` |
| `LegacyClient.StoredTokenReused` | src/client.js:24-41 | a truthy stored token is reused with no call, sent by the HTTP instance, and written back unchanged |
| `LegacyClient.MissingTokenRunsChallenge` | src/client.js:26-32 | without a truthy stored token the challenge runs first and the login sends no `v2`; a success returns, stores and sends the token that login returned, and a failure leaves the state unchanged |
| `LegacyClient.BuildNeverAuthenticates` | src/client.js:102-128 | `build` runs no challenge and leaves the stored and sent tokens untouched |
| `LegacyClient.BuildUsesCachedSchema` | src/client.js:104-106 | with a cached, named schema, `build` fetches no schema and leaves the cache unchanged |
| `LegacyClient.BuildRefreshesMissingSchema` | src/client.js:104-106 | with a missing or unnamed schema, the first call of `build` fetches the schema |
| `LegacyClient.BuildPricesBeforeInvoiceSubstitution` | src/client.js:118-122 | a successful `build` prices the unsubstituted arguments with the configured identifier and the token already sent, as its last call. The invoice fills `#{invoice}` and is stored |
| `LegacyClient.SubstitutionOrder` | src/client.js:132-137 | once `build` succeeds, whatever follows: sign the hash of the invoice-filled arguments, read the address, build the transaction from the substituted arguments |
| `LegacyClient.ResultCarriesFinalArgs` | src/client.js:132-150 | a local or remote result happens only after a successful `build`, and its `abi` is the build's encoding with the signature and address filled in |
| `LegacyClient.CanPublishNeverSubmits` | src/client.js:139-141 | if the wallet can publish, `/publish` is never called; once `build` succeeds nothing is called after `buildTx`, and a built transaction gives `{txid: tx.hash, abi}`, the only way to get a local result |
| `LegacyClient.RemoteSubmission` | src/client.js:143-150 | otherwise, once `build`, `buildTx` and the check succeed, the check and then the post of the raw transaction, invoice, action and `payParams` with no `broadcast` field are the last calls; a successful post gives the server fields with the local `tx.hash` as `txid`, the only way to get a remote result |
| `LegacyClient.SubmissionFailureKeepsStatus` | src/client.js:169-172 | a failed submission reaches the classifier unchanged, so a 401 with response data is reported as "unauthenticated" |
| `LegacyClient.BuildFailureIsMasked` | src/client.js:132-133 | when `build` reports an error, no further call is made and the TypeError text is reported |
| `LegacyClient.PublishWithoutFundsMakesNoRequests` | src/client.js:88-91 | a zero balance ends `publish` with no pricing or submission request and no state change |
| `LegacyClient.PublishWithFundsDelegates` | src/client.js:88-96 | a non-zero balance hands over to `buildAndPublish` after the address and balance calls |
| `LegacyClient.Client.constructor` | src/client.js:9-17 | the identifier and network defaults, no `Authorization` header, the stored schema (or `{}`) as `abi`, nothing called |
| `LegacyClient.Client.InitAbi` | src/client.js:78-82 | follows `InitAbiSpec` |
| `LegacyClient.Client.Authenticate` | src/client.js:23-42 | follows `AuthenticateSpec` (result, fields, calls) |
| `LegacyClient.Client.FetchPayees` | src/client.js:161-167 | follows `FetchPayeesSpec`: the configured identifier, always |
| `LegacyClient.Client.PublishRequest` | src/client.js:169-172 | follows `PublishRequestSpec`: the failure is passed on unchanged |
| `LegacyClient.Client.Refresh` | src/client.js:104-106 | follows `RefreshSpec` |
| `LegacyClient.Client.Build` | src/client.js:102-128 | follows `BuildSpec` |
| `LegacyClient.Client.BuildAndPublish` | src/client.js:130-154 | follows `BuildAndPublishSpec` |
| `LegacyClient.Client.Publish` | src/client.js:84-100 | follows `PublishSpec` |

Behaviours of the code a reader may not expect, which the model keeps:

- A 401 from `/publish` in the current client is not reported as "unauthenticated".
  `publishRequest` rethrows only the response data, so without an `errors` list the
  report is "something went wrong". A 401 whose data carries an `errors` list is
  reported as the joined list.
- `build` does not fail on its own when the schema cannot be refreshed into a named one.
  A failed fetch becomes the build's error report. A fetched schema without a name is
  handed to the encoder, whose answer decides.
- `buildAndPublish` does not pass on `build`'s `{error}`. It reads `replace` on the
  missing `abi`, and the caller sees that TypeError's text (`UndefinedAbiText`).

## Left out

- `CurrentClient.Client.Build`: every `catch` uses the corrected classifier
  `Errors.HandleError`. When a collaborator rejects with `null` or `undefined`, the code
  as written throws a TypeError out of the `catch` and `build` rejects (see Findings);
  the model reports the value instead.
- `CurrentClient.Client.BuildAndPublish`: for the same nullish rejections it reports the
  value, where the code as written rejects; after such a rejection of `build` the code
  would report the `toString` TypeError instead of `UndefinedAbiText`.
- `CurrentClient.Client.Publish`: for a nullish balance error it reports the value, where
  the code as written rejects. It also does not represent a rejection of the
  `buildAndPublish` call that `publish` returns without awaiting, which can only come
  from the same nullish case.
- `LegacyClient.Client.Build`: leaves out the same nullish rejection as the current `build`.
- `LegacyClient.Client.BuildAndPublish`: leaves out the same nullish rejection as the
  current `buildAndPublish`.
- `LegacyClient.Client.Publish`: leaves out the same nullish rejections as the current
  `publish`.
- HTTP transport, the GraphQL queries (`query`, `me`, `updateMe`, `updatePublicKey`),
  `bsvPrice`, `init` and `createMnemonic` are I/O. Only the answers of `/abi`, `/payees`
  and `/publish` appear, as oracle results in `World`. `SyncPublicKeys` takes the `me`
  record, the paymail lookup and the encryption as parameters, and returns the mutations
  instead of sending them.
- The wallet's `sign` and `address`, the encoder's `contentHash`, `toArray()` (`Args`) and
  `replace` (`Substitute`) never throw in the model: they are total functions. In the code
  each runs inside a `try`, and an exception from it would be classified like any other
  failure; that path is not represented. `balance`, `buildTx`, the encoder and the
  `fromTx` check are the collaborators that can fail here.
- Wallet cryptography, the mnemonic derivations and ECIES are foreign calls. They are
  uninterpreted functions: the wallet's `sign`, `address`, `balance` and `buildTx`, and
  the encryption passed to `SyncPublicKeys`.
- The encoder's internals (schema mapping, `fromFile`, `fromObject`, `contentHash`,
  `fromTx`) are out of scope. The encoder is a `World` member that returns slots or
  throws. The content hash and the `fromTx` check are oracles.
- `abi.replace` is modelled as whole-placeholder substitution, not substring
  replacement inside argument text.
- The signature and address producers are assumed to be evaluated in key order,
  signature first. The signature is taken over the arguments as they stand after the
  invoice substitution.
- The authentication service's challenge/response protocol is left out; only its two
  answers are modelled.
- The schema fetch that the constructor starts without awaiting is not modelled; it is
  concurrent with the caller. The constructors stop after the synchronous part.
- The stored schema is kept as a value, so its JSON round trip through storage is
  assumed exact.
- `console.log` output and the floating-point `balance / 100000000` display are left
  out. The balance is an integer, so the only falsy balance is 0 and `NaN` is not
  represented.
- An `errors` member that is truthy but not an array would make `join` throw in the
  current classifier; errors lists are always string sequences here.
- Response bodies are flat string maps. Fields that `/payees` returns besides `payees`
  and `invoice` are not carried into `build`'s result. `{abi, ...payeeResponse}` spreads
  the response after `abi`, so the model assumes `/payees` returns no `abi` field; one
  would replace the built encoding.
- The current `syncPublicKeys` computes a `url` for relayx.io and moneybutton.com
  addresses and never uses it; the lookup is one oracle on the address. The key list's
  `nodes` wrapper is flattened into a sequence.
- `Object.assign` around the pricing identifier in the current `fetchPayees` is left
  out. It wraps a string primitive in an object that serialises to the same JSON.

## Findings

| source | as written | input that shows it | evidently intended | confidence | as-written member | corrected member |
|---|---|---|---|---|---|---|
| src/clients/index.js:335 | `handleError` tests `e.toString` after the guard `e && ...` fails, so for `null`/`undefined` it throws a TypeError out of the `catch` block | a collaborator rejecting with `undefined` | the final branch `{error: e}` | medium, not executed | `Errors.HandleErrorAsWritten` (`Errors.NullishEscapesClassifier`) | `Errors.HandleError` |
| src/client.js:181 | the same test in the legacy classifier | a collaborator rejecting with `undefined` | the final branch `{error: e}` | medium, not executed | `Errors.HandleErrorAsWritten` (`Errors.NullishEscapesClassifier`) | `Errors.HandleError` |
