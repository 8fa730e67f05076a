/**
 * What both clients exchange with the outside: the cached schema, the caller's payload,
 * the pricing and publish endpoints, the wallet. Every collaborator is a member of a
 * `World`, an oracle fixed for the duration of one call; `Call` records each external
 * request in the order it is made.
 */
module Collaborators {
  import opened Values
  import opened Errors
  import opened Encoding

  const DefaultClientIdentifier := "e4c86c79-3eec-4069-a25c-8436ba8c6009"
  const DefaultNetwork := "mainnet"

  /** Constructor options the controller reads. */
  datatype Options = Options(clientIdentifier: Option<string>, network: Option<string>)

  /** What the constructor fixes for the client's lifetime. */
  datatype Config = Config(clientIdentifier: string, network: string)

  /** `options.clientIdentifier || default`, `options.network || 'mainnet'`. */
  function ConfigFor(options: Options): (c: Config)
    ensures c.clientIdentifier == if Truthy(options.clientIdentifier) then options.clientIdentifier.value else DefaultClientIdentifier
    ensures c.network == if Truthy(options.network) then options.network.value else DefaultNetwork
    ensures c.clientIdentifier != "" && c.network != ""
  {
    Config(Or(options.clientIdentifier, DefaultClientIdentifier), Or(options.network, DefaultNetwork))
  }

  /** The action schema document (the ABI). Only its `name` is inspected by the clients. */
  datatype Schema = Schema(name: string, content: string)

  /** The `{}` the client parses when nothing is cached. */
  const EmptySchema := Schema("", "")

  /** `!this.abi || !this.abi.name`: the cached schema is missing or unnamed and must be fetched. */
  predicate NeedsRefresh(abi: Option<Schema>)
  {
    abi.None? || abi.value.name == ""
  }

  /** A file attachment (always a truthy object when given). */
  datatype File = File(bytes: seq<int>)

  /** The caller's payload object; only `payParams` is read by the pipeline itself. */
  datatype Payload = Payload(fields: map<string, string>, payParams: Option<string>)

  datatype Payee = Payee(address: string, amount: int)

  /** The body of a successful `/payees` response. */
  datatype Priced = Priced(payees: seq<Payee>, invoice: string)

  /** A built transaction: `tx.hash` and `tx.toString()`. */
  datatype Tx = Tx(hash: string, raw: string)

  /** The body posted to `/payees`. */
  datatype PayeesRequest = PayeesRequest(args: seq<string>, action: string, clientIdentifier: string)

  /** The body posted to `/publish`; `broadcast` is `None` when the field is not sent. */
  datatype PublishBody = PublishBody(signedRawTx: string, invoice: string, action: string,
                                     payParams: Option<string>, broadcast: Option<bool>)

  /** A collaborator's answer: a value, or a thrown exception. */
  datatype Outcome<T> = Done(value: T) | Threw(exc: Thrown)

  /**
   * The collaborators, as oracles. HTTP oracles receive the bearer token the client's
   * HTTP instance carries, so a server may reject a missing or stale one.
   */
  datatype World = World(
    balance: Outcome<int>,                                                         // wallet.balance()
    abiResponse: Option<string> -> Outcome<Option<Schema>>,                        // GET /abi
    challenge: Outcome<string>,                                                    // AuthApi challenge
    login: (string, string, string, Option<bool>) -> Outcome<string>,              // AuthApi authenticate
    sign: string -> string,                                                        // wallet.sign
    address: string,                                                               // wallet.address()
    encode: (Option<Schema>, string, string, Option<File>, Payload) -> Outcome<seq<Slot>>, // new BSVABI(..), fromFile, fromObject
    contentHash: seq<string> -> string,                                            // abi.contentHash()
    payees: (PayeesRequest, Option<string>) -> Outcome<Priced>,                    // POST /payees
    buildTx: (seq<string>, seq<Payee>, string) -> Outcome<Tx>,                     // wallet.buildTx
    canPublish: bool,                                                              // wallet.canPublish
    decodeTx: (Option<Schema>, string, string, string) -> Outcome<()>,             // new BSVABI(..).action(..).fromTx(..)
    publish: (PublishBody, Option<string>) -> Outcome<map<string, string>>         // POST /publish
  )

  /** One external request, in the order the client makes them. */
  datatype Call =
    | WalletAddress
    | WalletBalance
    | WalletSign(message: string)
    | WalletBuildTx(args: seq<string>, payees: seq<Payee>, action: string)
    | AuthChallenge
    | AuthLogin(message: string, signature: string, address: string, v2: Option<bool>)
    | GetAbi(bearer: Option<string>)
    | PostPayees(request: PayeesRequest, bearer: Option<string>)
    | DecodeTx(abi: Option<Schema>, network: string, action: string, raw: string)
    | PostPublish(body: PublishBody, bearer: Option<string>)

  /**
   * Proof plumbing only, not a property of the client: appending call lists regroups
   * freely. The client methods call it to match a specification's grouping of calls.
   */
  lemma CallsAssociate(a: seq<Call>, b: seq<Call>, c: seq<Call>)
    ensures a + b + c == a + (b + c)
  {
  }

  /** No call in `calls` goes to `/payees` or `/publish`. */
  predicate NoPricingOrSubmission(calls: seq<Call>)
  {
    forall i | 0 <= i < |calls| :: !calls[i].PostPayees? && !calls[i].PostPublish?
  }

  /** No call in `calls` goes to `/publish`. */
  predicate NoSubmission(calls: seq<Call>)
  {
    forall i | 0 <= i < |calls| :: !calls[i].PostPublish?
  }

  /** No call in `calls` runs the authentication challenge. */
  predicate NoChallenge(calls: seq<Call>)
  {
    forall i | 0 <= i < |calls| :: !calls[i].AuthChallenge?
  }

  /** No call in `calls` fetches the schema. */
  predicate NoSchemaFetch(calls: seq<Call>)
  {
    forall i | 0 <= i < |calls| :: !calls[i].GetAbi?
  }

  /** `build`'s result: `{abi, payees, invoice}`, or `{error}`. */
  datatype BuildOutcome =
    | Built(abi: seq<Slot>, payees: seq<Payee>, invoice: string)
    | BuildFailed(report: ErrorReport)

  /** `publish` and `buildAndPublish` results. `NoFunds` is the `undefined` returned after logging. */
  datatype Published =
    | NoFunds
    | Local(txid: string, abi: seq<Slot>)                                   // {txid, abi}
    | Remote(fields: map<string, string>, txid: string, abi: seq<Slot>)     // {...response, txid, abi}
    | Failed(report: ErrorReport)

  /**
   * The string form of the TypeError `buildAndPublish` raises when `build` returned
   * `{error}`: the destructured `abi` is `undefined` and `abi.replace` is read on it.
   */
  const UndefinedAbiText := "TypeError: Cannot read properties of undefined (reading 'replace')"

  /** The message the wallet signs for `#{mySignature}`: the content hash of the invoice-filled arguments. */
  function SigningMessage(w: World, invoiced: seq<Slot>): string
  {
    w.contentHash(Args(invoiced))
  }

  /**
   * `abi.replace({'#{mySignature}': ..., '#{myAddress}': ...})`: the signature over the
   * current content hash is filled first, then the wallet address.
   */
  function Finalize(w: World, invoiced: seq<Slot>): (r: seq<Slot>)
    ensures |r| == |invoiced|
  {
    Substitute(Substitute(invoiced, SignatureToken, w.sign(SigningMessage(w, invoiced))), AddressToken, w.address)
  }

  /**
   * The wallet calls made after pricing: sign the content hash, read the address, then
   * build the transaction from the finalized arguments.
   */
  function FinalizeCalls(w: World, invoiced: seq<Slot>, payees: seq<Payee>, action: string): seq<Call>
  {
    [WalletSign(SigningMessage(w, invoiced)), WalletAddress, WalletBuildTx(Args(Finalize(w, invoiced)), payees, action)]
  }

  /** `{...response, txid, abi}`: the server's fields other than the two the client overrides. */
  function MergeResponse(response: map<string, string>): (r: map<string, string>)
    ensures "txid" !in r && "abi" !in r
    ensures forall k | k in response && k != "txid" && k != "abi" :: k in r && r[k] == response[k]
    ensures forall k | k in r :: k in response
  {
    response - {"txid", "abi"}
  }

  /**
   * After finalizing, every signature placeholder holds the wallet's signature of the
   * invoice-filled content hash, every address placeholder the wallet address, and
   * every other position is as it was after the invoice substitution.
   */
  lemma FinalizeFills(w: World, invoiced: seq<Slot>, i: int)
    requires 0 <= i < |invoiced|
    ensures var s := invoiced[i];
      Finalize(w, invoiced)[i]
      == if s.Placeholder? && s.token == SignatureToken then Placeholder(SignatureToken, Some(w.sign(w.contentHash(Args(invoiced)))))
         else if s.Placeholder? && s.token == AddressToken then Placeholder(AddressToken, Some(w.address))
         else s
  {
  }
}
