/**
 * The current SDK client (`src/clients/index.js`): the build-and-publish controller, its
 * session state (cached schema, stored token, `authenticated` flag, last invoice) and the
 * key filter of `syncPublicKeys`.
 *
 * The behaviour of each operation is first given as a function from the client's state
 * and the collaborators to a `Run` (the result, the new state, the external calls in
 * order); the properties the client promises are lemmas about those functions; the class
 * `Client` performs the same steps on its fields and is proved to follow the functions.
 */
module CurrentClient {
  import opened Values
  import opened Errors
  import opened Encoding
  import opened Collaborators

  /** The string form of the plain object `publishRequest` rethrows. */
  const PlainObjectText := "[object Object]"

  /**
   * The mutable session: `this.abi`, the stored schema and token, the token the HTTP
   * instance sends (`None` renders as `Bearer null`), `this.authenticated`, `this.invoice`.
   */
  datatype State = State(abi: Option<Schema>, storedAbi: Option<Schema>, token: Option<string>,
                         bearer: Option<string>, authenticated: bool, invoice: Option<string>)

  /** One operation's effect: its result, the state after it, and the external calls it made in order. */
  datatype Run<T> = Run(value: T, state: State, calls: seq<Call>)

  // ---------------------------------------------------------------------------
  // The operations, as functions of the state and the collaborators

  /** `initAbi`: load the stored schema (or `{}`), then replace it by the fetched one and store that. */
  function InitAbiSpec(s: State, w: World): Run<Outcome<()>>
  {
    var cached := Some(if s.storedAbi.Some? then s.storedAbi.value else EmptySchema);
    var calls := [GetAbi(s.bearer)];
    match w.abiResponse(s.bearer)
    case Threw(e) => Run(Threw(e), s.(abi := cached), calls)
    case Done(fetched) => Run(Done(()), s.(abi := fetched, storedAbi := fetched), calls)
  }

  /**
   * `authenticate`: unless already authenticated, sign a fresh challenge and log in; then
   * store the token, point the HTTP instance at it and set the flag.
   */
  function AuthenticateSpec(s: State, w: World, create: bool): Run<Outcome<Option<string>>>
  {
    if s.authenticated then
      Run(Done(s.token), s.(bearer := s.token), [])
    else
      match w.challenge
      case Threw(e) => Run(Threw(e), s, [AuthChallenge])
      case Done(message) =>
        var signature := w.sign(message);
        var calls := [AuthChallenge, WalletSign(message), WalletAddress, AuthLogin(message, signature, w.address, Some(create))];
        match w.login(message, signature, w.address, Some(create))
        case Threw(e) => Run(Threw(e), s, calls)
        case Done(token) =>
          Run(Done(Some(token)), s.(token := Some(token), bearer := Some(token), authenticated := true), calls)
  }

  /** `fetchPayees`: the per-call identifier overrides the configured one when truthy. */
  function FetchPayeesSpec(c: Config, s: State, w: World, args: seq<string>, action: string,
                           clientIdentifier: Option<string>): Run<Outcome<Priced>>
  {
    var request := PayeesRequest(args, action, Or(clientIdentifier, c.clientIdentifier));
    Run(w.payees(request, s.bearer), s, [PostPayees(request, s.bearer)])
  }

  /**
   * `publishRequest`: a failure carrying a response is rethrown as a plain object holding
   * only that response's data, so its status is lost and its string form is the plain
   * object's. Anything else, `null` and `undefined` included, is rethrown as it is.
   */
  function RewrapPublishFailure(e: Thrown): (r: Thrown)
    ensures HasResponseData(e) ==> HasResponseData(r) && r.response.value.status.None?
                                   && r.response.value.data == e.response.value.data
    ensures e.Nullish? || e.response.None? ==> r == e
    ensures e.Raised? && e.response.Some? ==>
              r.Raised? && r.response == Some(Response(e.response.value.data, None)) && r.text == Some(PlainObjectText)
  {
    match e
    case Raised(Some(response), _) => Raised(Some(Response(response.data, None)), Some(PlainObjectText))
    case _ => e
  }

  function PublishRequestSpec(s: State, w: World, body: PublishBody): Run<Outcome<map<string, string>>>
  {
    var response := w.publish(body, s.bearer);
    Run(if response.Threw? then Threw(RewrapPublishFailure(response.exc)) else response, s, [PostPublish(body, s.bearer)])
  }

  /** The step `if (!this.abi || !this.abi.name) await this.initAbi()`. */
  function RefreshSpec(s: State, w: World): Run<Outcome<()>>
  {
    if NeedsRefresh(s.abi) then InitAbiSpec(s, w) else Run(Done(()), s, [])
  }

  /** The step `if (!this.authenticated) await this.authenticate()`. */
  function EnsureAuthenticatedSpec(s: State, w: World): Run<Outcome<Option<string>>>
  {
    if s.authenticated then Run(Done(s.token), s, []) else AuthenticateSpec(s, w, false)
  }

  /** `build`: refresh the schema if needed, encode, authenticate, price, then fill `#{invoice}`. */
  function BuildSpec(c: Config, s: State, w: World, action: string, payload: Payload, file: Option<File>,
                     clientIdentifier: Option<string>): Run<BuildOutcome>
  {
    var refresh := RefreshSpec(s, w);
    if refresh.value.Threw? then Run(BuildFailed(HandleError(refresh.value.exc, true)), refresh.state, refresh.calls)
    else
      var s1 := refresh.state;
      match w.encode(s1.abi, c.network, action, file, payload)
      case Threw(e) => Run(BuildFailed(HandleError(e, true)), s1, refresh.calls)
      case Done(encoded) =>
        var auth := EnsureAuthenticatedSpec(s1, w);
        if auth.value.Threw? then Run(BuildFailed(HandleError(auth.value.exc, true)), auth.state, refresh.calls + auth.calls)
        else
          var fetch := FetchPayeesSpec(c, auth.state, w, Args(encoded), action, clientIdentifier);
          var calls := refresh.calls + auth.calls + fetch.calls;
          match fetch.value
          case Threw(e) => Run(BuildFailed(HandleError(e, true)), auth.state, calls)
          case Done(priced) =>
            Run(Built(Substitute(encoded, InvoiceToken, priced.invoice), priced.payees, priced.invoice),
                auth.state.(invoice := Some(priced.invoice)), calls)
  }

  /**
   * `buildAndPublish`: build, sign and address, build the transaction, then either return
   * it (the wallet broadcasts) or check it against the schema and submit it.
   */
  function BuildAndPublishSpec(c: Config, s: State, w: World, action: string, payload: Payload,
                               file: Option<File>): Run<Published>
  {
    var build := BuildSpec(c, s, w, action, payload, file, None);
    match build.value
    case BuildFailed(_) => Run(Failed(ErrorReport(Text(UndefinedAbiText))), build.state, build.calls)
    case Built(invoiced, payees, invoice) =>
      var final := Finalize(w, invoiced);
      var calls := build.calls + FinalizeCalls(w, invoiced, payees, action);
      match w.buildTx(Args(final), payees, action)
      case Threw(e) => Run(Failed(HandleError(e, true)), build.state, calls)
      case Done(tx) =>
        if w.canPublish then Run(Local(tx.hash, final), build.state, calls)
        else
          var check := [DecodeTx(build.state.abi, c.network, action, tx.raw)];
          match w.decodeTx(build.state.abi, c.network, action, tx.raw)
          case Threw(e) => Run(Failed(HandleError(e, true)), build.state, calls + check)
          case Done(_) =>
            var submit := PublishRequestSpec(build.state, w, PublishBody(tx.raw, invoice, action, payload.payParams, Some(true)));
            match submit.value
            case Threw(e) => Run(Failed(HandleError(e, true)), build.state, calls + check + submit.calls)
            case Done(response) => Run(Remote(MergeResponse(response), tx.hash, final), build.state, calls + check + submit.calls)
  }

  /** `publish`: log the address, read the balance; a zero balance logs and returns `undefined`. */
  function PublishSpec(c: Config, s: State, w: World, action: string, payload: Payload, file: Option<File>): Run<Published>
  {
    var probe := [WalletAddress, WalletBalance];
    match w.balance
    case Threw(e) => Run(Failed(HandleError(e, true)), s, probe)
    case Done(balance) =>
      if balance == 0 then Run(NoFunds, s, probe + [WalletAddress])
      else
        var run := BuildAndPublishSpec(c, s, w, action, payload, file);
        Run(run.value, run.state, probe + run.calls)
  }

  // ---------------------------------------------------------------------------
  // What the operations promise

  /** An authenticated client reuses the stored token, makes no call, and writes the token back unchanged. */
  lemma AuthenticatedReusesToken(s: State, w: World, create: bool)
    requires s.authenticated
    ensures var run := AuthenticateSpec(s, w, create);
      run.calls == [] && run.value == Done(s.token) && run.state.token == s.token
      && run.state.bearer == s.token && run.state.authenticated
  {
  }

  /**
   * An unauthenticated client runs the challenge even when a token is stored; a
   * successful login stores the new token, sends it, and sets the flag.
   */
  lemma UnauthenticatedRunsChallenge(s: State, w: World, create: bool)
    requires !s.authenticated
    ensures var run := AuthenticateSpec(s, w, create);
      |run.calls| > 0 && run.calls[0] == AuthChallenge
      && (run.value.Done? ==>
            run.value.value.Some? && run.state.token == run.value.value && run.state.bearer == run.state.token
            && run.state.authenticated
            && run.calls[|run.calls| - 1] == AuthLogin(w.challenge.value, w.sign(w.challenge.value), w.address, Some(create)))
      && (run.value.Done? ==>
            w.challenge.Done?
            && w.login(w.challenge.value, w.sign(w.challenge.value), w.address, Some(create)) == Done(run.value.value.value))
      && (run.value.Threw? ==> run.state == s)
  {
  }

  /** The `/payees` request carries a truthy per-call identifier, and otherwise the configured one. */
  lemma PayeesIdentifier(c: Config, s: State, w: World, args: seq<string>, action: string, id: Option<string>)
    ensures var run := FetchPayeesSpec(c, s, w, args, action, id);
      run.calls == [PostPayees(PayeesRequest(args, action, if Truthy(id) then id.value else c.clientIdentifier), s.bearer)]
      && run.state == s
  {
  }

  /** A cached, named schema is used unchanged: no fetch happens and the cache is untouched. */
  lemma BuildUsesCachedSchema(c: Config, s: State, w: World, action: string, payload: Payload, file: Option<File>,
                              id: Option<string>)
    requires !NeedsRefresh(s.abi)
    ensures var run := BuildSpec(c, s, w, action, payload, file, id);
      NoSchemaFetch(run.calls) && run.state.abi == s.abi && run.state.storedAbi == s.storedAbi
  {
  }

  /** A missing or unnamed schema is fetched first, before anything else is called. */
  lemma BuildRefreshesMissingSchema(c: Config, s: State, w: World, action: string, payload: Payload,
                                    file: Option<File>, id: Option<string>)
    requires NeedsRefresh(s.abi)
    ensures var run := BuildSpec(c, s, w, action, payload, file, id);
      |run.calls| > 0 && run.calls[0] == GetAbi(s.bearer)
  {
  }

  /** An authenticated client's build runs no challenge. */
  lemma AuthenticatedBuildSkipsChallenge(c: Config, s: State, w: World, action: string, payload: Payload,
                                         file: Option<File>, id: Option<string>)
    requires s.authenticated
    ensures NoChallenge(BuildSpec(c, s, w, action, payload, file, id).calls)
  {
  }

  /** The schema a build encodes with: the cached one, or the fetched one after a refresh. */
  function SchemaInUse(s: State, w: World): Option<Schema>
  {
    RefreshSpec(s, w).state.abi
  }

  /**
   * A successful build priced exactly the encoded arguments, before any substitution, as
   * its last call; its `abi` is the encoding with `#{invoice}` filled by the invoice the
   * pricing response returned, and that invoice is remembered in `this.invoice`.
   */
  lemma BuildPricesBeforeInvoiceSubstitution(c: Config, s: State, w: World, action: string, payload: Payload,
                                             file: Option<File>, id: Option<string>)
    ensures var run := BuildSpec(c, s, w, action, payload, file, id);
      run.value.Built? ==>
        var encoded := w.encode(SchemaInUse(s, w), c.network, action, file, payload);
        var request := PayeesRequest(Args(encoded.value), action, Or(id, c.clientIdentifier));
        encoded.Done?
        && |run.calls| > 0 && run.calls[|run.calls| - 1] == PostPayees(request, run.state.bearer)
        && w.payees(request, run.state.bearer) == Done(Priced(run.value.payees, run.value.invoice))
        && run.value.abi == Substitute(encoded.value, InvoiceToken, run.value.invoice)
        && run.state.invoice == Some(run.value.invoice)
  {
  }

  /**
   * A successful build leaves the client authenticated and prices with the token it holds:
   * the existing one, or the one a login with `v2: false` just returned.
   */
  lemma BuildAuthenticatesBeforePricing(c: Config, s: State, w: World, action: string, payload: Payload,
                                        file: Option<File>, id: Option<string>)
    ensures var run := BuildSpec(c, s, w, action, payload, file, id);
      run.value.Built? ==> run.state.authenticated && (s.authenticated ==> run.state.bearer == s.bearer)
                           && (!s.authenticated ==> run.state.bearer == run.state.token && run.state.token.Some?)
    ensures var run := BuildSpec(c, s, w, action, payload, file, id);
      !s.authenticated && run.value.Built? ==>
        w.challenge.Done?
        && w.login(w.challenge.value, w.sign(w.challenge.value), w.address, Some(false)) == Done(run.state.token.value)
  {
  }

  /**
   * Once `build` succeeds, its calls are followed by the signature over the content hash
   * of the invoice-filled arguments, then the address, then the transaction built from
   * the fully substituted arguments, whatever `buildTx`, the check or `/publish` answer.
   */
  lemma SubstitutionOrder(c: Config, s: State, w: World, action: string, payload: Payload, file: Option<File>)
    ensures var run := BuildAndPublishSpec(c, s, w, action, payload, file);
      var build := BuildSpec(c, s, w, action, payload, file, None);
      build.value.Built? ==>
        var invoiced := build.value.abi;
        |run.calls| >= |build.calls| + 3
        && run.calls[..|build.calls|] == build.calls
        && run.calls[|build.calls|] == WalletSign(w.contentHash(Args(invoiced)))
        && run.calls[|build.calls| + 1] == WalletAddress
        && run.calls[|build.calls| + 2] == WalletBuildTx(Args(Finalize(w, invoiced)), build.value.payees, action)
  {
    var build := BuildSpec(c, s, w, action, payload, file, None);
    if build.value.Built? {
      CallsFollowBuild(c, s, w, action, payload, file);
      var run := BuildAndPublishSpec(c, s, w, action, payload, file);
      var finalize := FinalizeCalls(w, build.value.abi, build.value.payees, action);
      var head := build.calls + finalize;
      var n := |build.calls|;
      assert run.calls[..n] == head[..n] == build.calls;
      assert run.calls[n] == head[n] == finalize[0];
      assert run.calls[n + 1] == head[n + 1] == finalize[1];
      assert run.calls[n + 2] == head[n + 2] == finalize[2];
    }
  }

  /** Every transaction result, local or remote, carries the fully substituted arguments of a successful build. */
  lemma ResultCarriesFinalArgs(c: Config, s: State, w: World, action: string, payload: Payload, file: Option<File>)
    ensures var run := BuildAndPublishSpec(c, s, w, action, payload, file);
      var build := BuildSpec(c, s, w, action, payload, file, None);
      (run.value.Local? || run.value.Remote?) ==> build.value.Built? && run.value.abi == Finalize(w, build.value.abi)
  {
    var build := BuildSpec(c, s, w, action, payload, file, None);
    var run := BuildAndPublishSpec(c, s, w, action, payload, file);
    if build.value.Built? {
      var final := Finalize(w, build.value.abi);
      var tx := w.buildTx(Args(final), build.value.payees, action);
      if tx.Done? && !w.canPublish && w.decodeTx(build.state.abi, c.network, action, tx.value.raw).Done? {
        assert run.value.Remote? ==> run.value.abi == final;
      }
    } else {
      assert run.value.Failed?;
    }
  }

  /** Whatever comes after the transaction is built, the calls so far are kept as a prefix. */
  lemma CallsFollowBuild(c: Config, s: State, w: World, action: string, payload: Payload, file: Option<File>)
    requires BuildSpec(c, s, w, action, payload, file, None).value.Built?
    ensures var build := BuildSpec(c, s, w, action, payload, file, None);
      var head := build.calls + FinalizeCalls(w, build.value.abi, build.value.payees, action);
      var run := BuildAndPublishSpec(c, s, w, action, payload, file);
      |run.calls| >= |head| && run.calls[..|head|] == head
  {
    var build := BuildSpec(c, s, w, action, payload, file, None);
    var head := build.calls + FinalizeCalls(w, build.value.abi, build.value.payees, action);
    var run := BuildAndPublishSpec(c, s, w, action, payload, file);
    var tx := w.buildTx(Args(Finalize(w, build.value.abi)), build.value.payees, action);
    if tx.Threw? || w.canPublish {
      assert run.calls == head;
    } else {
      var check := [DecodeTx(build.state.abi, c.network, action, tx.value.raw)];
      if w.decodeTx(build.state.abi, c.network, action, tx.value.raw).Threw? {
        assert run.calls == head + check;
      } else {
        var body := PublishBody(tx.value.raw, build.value.invoice, action, payload.payParams, Some(true));
        assert run.calls == head + check + PublishRequestSpec(build.state, w, body).calls;
        assert run.calls == head + (check + PublishRequestSpec(build.state, w, body).calls);
      }
    }
  }

  /**
   * A wallet that can publish never leads to a `/publish` call. Once `build` and
   * `buildTx` succeed, the result is `{txid: tx.hash, abi}` and nothing is called after
   * the transaction is built; a `Local` result happens only that way.
   */
  lemma CanPublishNeverSubmits(c: Config, s: State, w: World, action: string, payload: Payload, file: Option<File>)
    requires w.canPublish
    ensures var run := BuildAndPublishSpec(c, s, w, action, payload, file);
      NoSubmission(run.calls) && !run.value.Remote? && !run.value.NoFunds?
    ensures var run := BuildAndPublishSpec(c, s, w, action, payload, file);
      var build := BuildSpec(c, s, w, action, payload, file, None);
      build.value.Built? ==>
        var final := Finalize(w, build.value.abi);
        var tx := w.buildTx(Args(final), build.value.payees, action);
        run.calls == build.calls + FinalizeCalls(w, build.value.abi, build.value.payees, action)
        && (tx.Done? ==> run.value == Local(tx.value.hash, final))
    ensures var run := BuildAndPublishSpec(c, s, w, action, payload, file);
      var build := BuildSpec(c, s, w, action, payload, file, None);
      run.value.Local? ==>
        build.value.Built? && w.buildTx(Args(Finalize(w, build.value.abi)), build.value.payees, action).Done?
  {
    var run := BuildAndPublishSpec(c, s, w, action, payload, file);
    var build := BuildSpec(c, s, w, action, payload, file, None);
    assert NoSubmission(build.calls) by {
      var refresh := RefreshSpec(s, w);
      assert NoSubmission(refresh.calls);
    }
    if build.value.Built? {
      var calls := build.calls + FinalizeCalls(w, build.value.abi, build.value.payees, action);
      assert run.calls == calls;
      assert NoSubmission(calls);
    }
  }

  /**
   * Otherwise, once `build`, `buildTx` and the check against the schema succeed, the raw
   * signed transaction is posted to `/publish` with the build's invoice, the action and
   * the caller's `payParams` and `broadcast: true`, as the last call; a successful post gives the
   * server's fields with the local `tx.hash` as `txid`. A `Remote` result happens only that way.
   */
  lemma RemoteSubmission(c: Config, s: State, w: World, action: string, payload: Payload, file: Option<File>)
    requires !w.canPublish
    ensures var run := BuildAndPublishSpec(c, s, w, action, payload, file);
      !run.value.Local? && !run.value.NoFunds?
    ensures var run := BuildAndPublishSpec(c, s, w, action, payload, file);
      var build := BuildSpec(c, s, w, action, payload, file, None);
      build.value.Built? ==>
        var final := Finalize(w, build.value.abi);
        var tx := w.buildTx(Args(final), build.value.payees, action);
        tx.Done? && w.decodeTx(build.state.abi, c.network, action, tx.value.raw).Done? ==>
          var body := PublishBody(tx.value.raw, build.value.invoice, action, payload.payParams, Some(true));
          run.calls == build.calls + FinalizeCalls(w, build.value.abi, build.value.payees, action)
                       + [DecodeTx(build.state.abi, c.network, action, tx.value.raw), PostPublish(body, build.state.bearer)]
          && (w.publish(body, build.state.bearer).Done? ==>
                run.value == Remote(MergeResponse(w.publish(body, build.state.bearer).value), tx.value.hash, final))
    ensures var run := BuildAndPublishSpec(c, s, w, action, payload, file);
      var build := BuildSpec(c, s, w, action, payload, file, None);
      run.value.Remote? ==>
        build.value.Built?
        && var tx := w.buildTx(Args(Finalize(w, build.value.abi)), build.value.payees, action);
           tx.Done? && w.decodeTx(build.state.abi, c.network, action, tx.value.raw).Done?
           && w.publish(PublishBody(tx.value.raw, build.value.invoice, action, payload.payParams, Some(true)), build.state.bearer).Done?
  {
  }

  /**
   * When `build` reports an error, `buildAndPublish` makes no further call and reports the
   * TypeError from reading `replace` on the missing `abi`, not the build's own report.
   */
  lemma BuildFailureIsMasked(c: Config, s: State, w: World, action: string, payload: Payload, file: Option<File>)
    ensures var run := BuildAndPublishSpec(c, s, w, action, payload, file);
      var build := BuildSpec(c, s, w, action, payload, file, None);
      build.value.BuildFailed? ==>
        run.calls == build.calls && run.value == Failed(ErrorReport(Text(UndefinedAbiText)))
  {
  }

  /**
   * A 401 from `/publish` whose data has no `errors` list is reported as "something went
   * wrong": the rethrown object keeps the data but not the status.
   */
  lemma PublishUnauthorizedIsGeneric(e: Thrown)
    requires HasResponseData(e) && e.response.value.status == Some(401)
    requires e.response.value.data.value.errors.None?
    ensures HandleError(e, true) == ErrorReport(Text(Unauthenticated))
    ensures HandleError(RewrapPublishFailure(e), true) == ErrorReport(Text(SomethingWentWrong))
  {
  }

  /**
   * A failure of the submission reaches the classifier rewrapped: with response data and
   * no `errors` list it is reported as "something went wrong", even for a 401.
   */
  lemma SubmissionFailureLosesStatus(c: Config, s: State, w: World, action: string, payload: Payload,
                                     file: Option<File>, e: Thrown)
    requires !w.canPublish
    requires var build := BuildSpec(c, s, w, action, payload, file, None);
      build.value.Built?
      && var tx := w.buildTx(Args(Finalize(w, build.value.abi)), build.value.payees, action);
         tx.Done? && w.decodeTx(build.state.abi, c.network, action, tx.value.raw).Done?
         && w.publish(PublishBody(tx.value.raw, build.value.invoice, action, payload.payParams, Some(true)), build.state.bearer) == Threw(e)
    ensures BuildAndPublishSpec(c, s, w, action, payload, file).value == Failed(HandleError(RewrapPublishFailure(e), true))
    ensures HasResponseData(e) && e.response.value.data.value.errors.None?
            ==> BuildAndPublishSpec(c, s, w, action, payload, file).value == Failed(ErrorReport(Text(SomethingWentWrong)))
  {
  }

  /**
   * A `/publish` failure whose response has no data is reported by the rethrown plain
   * object's string form, whatever the status.
   */
  lemma DatalessPublishFailureIsPlainObject(e: Thrown)
    requires e.Raised? && e.response.Some? && e.response.value.data.None?
    ensures HandleError(RewrapPublishFailure(e), true) == ErrorReport(Text(PlainObjectText))
  {
  }

  /** A zero balance stops `publish` before any pricing or submission request; the state is unchanged. */
  lemma PublishWithoutFundsMakesNoRequests(c: Config, s: State, w: World, action: string, payload: Payload,
                                           file: Option<File>)
    requires w.balance == Done(0)
    ensures var run := PublishSpec(c, s, w, action, payload, file);
      run.value == NoFunds && run.state == s && run.calls == [WalletAddress, WalletBalance, WalletAddress]
      && NoPricingOrSubmission(run.calls)
  {
  }

  /** A non-zero balance hands over to `buildAndPublish` after the two wallet probes. */
  lemma PublishWithFundsDelegates(c: Config, s: State, w: World, action: string, payload: Payload, file: Option<File>)
    requires w.balance.Done? && w.balance.value != 0
    ensures var run := PublishSpec(c, s, w, action, payload, file);
      var inner := BuildAndPublishSpec(c, s, w, action, payload, file);
      run.value == inner.value && run.state == inner.state && run.calls == [WalletAddress, WalletBalance] + inner.calls
  {
  }

  // ---------------------------------------------------------------------------
  // syncPublicKeys: which registered keys receive the encrypted mnemonic

  /** A registered public key as returned by the `me` query. */
  datatype KeyNode = KeyNode(id: string, walletType: Option<string>, identityPublicKey: Option<string>,
                             encryptedMnemonic: Option<string>, address: Option<string>)

  /** The `me` record: its public key, its xpub, and its non-revoked keys (when the member is present). */
  datatype Me = Me(publicKey: Option<string>, xpub: Option<string>, publicKeys: Option<seq<KeyNode>>)

  const ExcludedWalletTypes := ["handcash", "TwetchWallet"]
  const OneButtonPrefix := "1harryntQnTKu5RGajGokZGqP2v8mZKJm::"

  /** The filter: no encrypted mnemonic yet, a paymail address, and a wallet type outside the excluded two. */
  predicate NeedsMnemonic(n: KeyNode)
  {
    !Truthy(n.encryptedMnemonic)
    && Truthy(n.address) && '@' in n.address.value
    && !(n.walletType.Some? && n.walletType.value in ExcludedWalletTypes)
  }

  /** `publicKeys.nodes.filter(...)`: the keys that need the mnemonic. */
  function KeysToEncrypt(nodes: seq<KeyNode>): (r: seq<KeyNode>)
    ensures |r| <= |nodes|
    ensures forall n | n in r :: n in nodes && NeedsMnemonic(n)
    ensures forall n | n in nodes && NeedsMnemonic(n) :: n in r
    ensures forall n :: multiset(r)[n] == if NeedsMnemonic(n) then multiset(nodes)[n] else 0
  {
    if nodes == [] then []
    else
      assert nodes == [nodes[0]] + nodes[1..];
      if NeedsMnemonic(nodes[0]) then [nodes[0]] + KeysToEncrypt(nodes[1..])
      else KeysToEncrypt(nodes[1..])
  }

  /** `a` is `b` with some elements left out, the rest in their original order. */
  predicate IsSubsequence(a: seq<KeyNode>, b: seq<KeyNode>)
  {
    if b == [] then a == []
    else (a != [] && a[0] == b[0] && IsSubsequence(a[1..], b[1..])) || IsSubsequence(a, b[1..])
  }

  /** The filter keeps the keys in the order the query returned them. */
  lemma {:induction false} KeysToEncryptKeepsOrder(nodes: seq<KeyNode>)
    ensures IsSubsequence(KeysToEncrypt(nodes), nodes)
  {
    if nodes != [] {
      KeysToEncryptKeepsOrder(nodes[1..]);
    }
  }

  /**
   * The keys `syncPublicKeys` goes on to encrypt for: none (it returns early) when the
   * `publicKeys` member is missing or the account's public key differs from the mnemonic's.
   * The ensures only unfold the body for `SyncPublicKeys`; no property is claimed here.
   */
  function KeysToSync(me: Option<Me>, pub: string): (r: Option<seq<KeyNode>>)
    ensures r.Some? <==> me.Some? && me.value.publicKeys.Some?
                         && (!Truthy(me.value.publicKey) || me.value.publicKey.value == pub)
    ensures r.Some? ==> r.value == KeysToEncrypt(me.value.publicKeys.value)
  {
    if me.None? || me.value.publicKeys.None? then None
    else if Truthy(me.value.publicKey) && me.value.publicKey.value != pub then None
    else Some(KeysToEncrypt(me.value.publicKeys.value))
  }

  /** The plaintext encrypted for one key: the mnemonic, prefixed for `onebutton` wallets. */
  function MnemonicPlaintext(n: KeyNode, mnemonic: string): (r: string)
    ensures |r| >= |mnemonic| && r[|r| - |mnemonic|..] == mnemonic
    ensures n.walletType == Some("onebutton") <==> |r| > |mnemonic|
  {
    if n.walletType == Some("onebutton") then OneButtonPrefix + mnemonic else mnemonic
  }

  /** A mutation `syncPublicKeys` sends, in order. */
  datatype Mutation =
    | UpdateKey(id: string, encryptedMnemonic: string, identityPublicKey: string)  // updatePublicKey(id, {...})
    | SetPublicKey(publicKey: string)                                              // updateMe({publicKey})
    | SetXpub(xpub: string)                                                        // updateMe({xpub})

  /**
   * The update for one selected key: its own identity key when truthy, otherwise the one
   * the paymail lookup returns for its address; the plaintext is encrypted to that key.
   */
  function KeyUpdateFor(n: KeyNode, mnemonic: string, lookup: string -> string, encrypt: (string, string) -> string): Mutation
  {
    var identity := if Truthy(n.identityPublicKey) then n.identityPublicKey.value else lookup(Or(n.address, ""));
    UpdateKey(n.id, encrypt(MnemonicPlaintext(n, mnemonic), identity), identity)
  }

  /** The `updateMe` calls after the loop: the public key when none is set, then the xpub when none is set. */
  function ProfileUpdates(me: Me, pub: string, xpub: string): seq<Mutation>
  {
    (if Truthy(me.publicKey) then [] else [SetPublicKey(pub)]) + (if Truthy(me.xpub) then [] else [SetXpub(xpub)])
  }

  /** The loop of `syncPublicKeys`: one update per selected key, in order. */
  method KeyUpdates(keys: seq<KeyNode>, mnemonic: string, lookup: string -> string, encrypt: (string, string) -> string)
    returns (sent: seq<Mutation>)
    ensures |sent| == |keys|
    ensures forall i | 0 <= i < |keys| :: sent[i] == KeyUpdateFor(keys[i], mnemonic, lookup, encrypt)
  {
    sent := [];
    for i := 0 to |keys|
      invariant |sent| == i
      invariant forall j | 0 <= j < i :: sent[j] == KeyUpdateFor(keys[j], mnemonic, lookup, encrypt)
    {
      var each := keys[i];
      var identity := each.identityPublicKey;
      if !Truthy(identity) {
        identity := Some(lookup(Or(each.address, "")));
      }
      var data := mnemonic;
      if each.walletType == Some("onebutton") {
        data := OneButtonPrefix + data;
      }
      sent := sent + [UpdateKey(each.id, encrypt(data, identity.value), identity.value)];
    }
  }

  /**
   * `syncPublicKeys`, given the `me` record, the mnemonic's public key and xpub, the paymail
   * lookup and the encryption: `None` when it returns early, otherwise the mutations it
   * sends. Exactly the selected keys are updated, once each, in the order of the query,
   * before the profile updates.
   */
  method SyncPublicKeys(me: Option<Me>, pub: string, xpub: string, mnemonic: string,
                        lookup: string -> string, encrypt: (string, string) -> string)
    returns (r: Option<seq<Mutation>>)
    ensures r.None? <==> KeysToSync(me, pub).None?
    ensures r.Some? ==>
      var keys := KeysToSync(me, pub).value;
      |r.value| == |keys| + |ProfileUpdates(me.value, pub, xpub)|
      && (forall i | 0 <= i < |keys| :: r.value[i] == KeyUpdateFor(keys[i], mnemonic, lookup, encrypt))
      && r.value[|keys|..] == ProfileUpdates(me.value, pub, xpub)
  {
    if me.None? || me.value.publicKeys.None? {
      return None;
    }
    var publicKey := me.value.publicKey;
    if Truthy(publicKey) && publicKey.value != pub {
      return None;
    }
    var keys := KeysToEncrypt(me.value.publicKeys.value);
    assert KeysToSync(me, pub) == Some(keys);
    var sent := KeyUpdates(keys, mnemonic, lookup, encrypt);
    var all := AddProfileUpdates(sent, me.value, pub, xpub);
    assert all[..|keys|] == sent;
    r := Some(all);
  }

  /** The two `updateMe` steps after the loop, appended to the mutations already sent. */
  method AddProfileUpdates(sent: seq<Mutation>, me: Me, pub: string, xpub: string) returns (all: seq<Mutation>)
    ensures all == sent + ProfileUpdates(me, pub, xpub)
  {
    all := sent;
    if !Truthy(me.publicKey) {
      all := all + [SetPublicKey(pub)];
    }
    if !Truthy(me.xpub) {
      all := all + [SetXpub(xpub)];
    }
  }

  /**
   * A key update records the identity key the plaintext was encrypted to. A key that
   * already has an identity key never consults the paymail lookup; one without it uses
   * the lookup's answer for its address.
   */
  lemma KeyUpdateEncryptsToRecordedKey(n: KeyNode, mnemonic: string, lookup: string -> string, other: string -> string,
                                       encrypt: (string, string) -> string)
    requires NeedsMnemonic(n)
    ensures var u := KeyUpdateFor(n, mnemonic, lookup, encrypt);
      u.UpdateKey? && u.id == n.id && u.encryptedMnemonic == encrypt(MnemonicPlaintext(n, mnemonic), u.identityPublicKey)
    ensures Truthy(n.identityPublicKey) ==>
      KeyUpdateFor(n, mnemonic, lookup, encrypt) == KeyUpdateFor(n, mnemonic, other, encrypt)
      && KeyUpdateFor(n, mnemonic, lookup, encrypt).identityPublicKey == n.identityPublicKey.value
    ensures !Truthy(n.identityPublicKey) ==> KeyUpdateFor(n, mnemonic, lookup, encrypt).identityPublicKey == lookup(n.address.value)
  {
  }

  /**
   * A key that already holds an encrypted mnemonic, or whose wallet is excluded, is never
   * re-encrypted; a key the account already lists as needing one is synced whenever the
   * account's seed matches or is unset.
   */
  lemma SyncSelectsOnlyKeysWithoutMnemonic(me: Me, pub: string, n: KeyNode)
    requires me.publicKeys.Some? && n in me.publicKeys.value
    ensures (Truthy(n.encryptedMnemonic) || (n.walletType.Some? && n.walletType.value in ExcludedWalletTypes))
            ==> KeysToSync(Some(me), pub).None? || n !in KeysToSync(Some(me), pub).value
    ensures NeedsMnemonic(n) && (!Truthy(me.publicKey) || me.publicKey.value == pub)
            ==> KeysToSync(Some(me), pub).Some? && n in KeysToSync(Some(me), pub).value
  {
  }

  /** An account whose public key is already the mnemonic's gets no `publicKey` update. */
  lemma MatchingKeyIsNotRewritten(me: Me, pub: string, xpub: string)
    requires Truthy(me.publicKey) && me.publicKey.value == pub
    ensures forall m | m in ProfileUpdates(me, pub, xpub) :: !m.SetPublicKey?
    ensures |ProfileUpdates(me, pub, xpub)| <= 1
  {
  }

  // ---------------------------------------------------------------------------
  // The client object

  class Client {
    const clientIdentifier: string
    const network: string
    var abi: Option<Schema>
    var storedAbi: Option<Schema>      // storage item 'abi'
    var storedToken: Option<string>    // storage item 'tokenTwetchAuth'
    var bearer: Option<string>         // the token in the HTTP instance's Authorization header
    var authenticated: bool
    var invoice: Option<string>
    ghost var trace: seq<Call>         // every external call made so far, in order

    function Cfg(): Config
    {
      Config(clientIdentifier, network)
    }

    function Snapshot(): State
      reads this`abi, this`storedAbi, this`storedToken, this`bearer, this`authenticated, this`invoice
    {
      State(abi, storedAbi, storedToken, bearer, authenticated, invoice)
    }

    /**
     * The synchronous part of construction: defaults for the identifier and network, an
     * HTTP instance carrying the stored token, and the stored schema (or `{}`) as `abi`.
     * The schema fetch the constructor starts without awaiting is not modelled.
     */
    constructor(options: Options, token: Option<string>, cached: Option<Schema>)
      ensures Cfg() == ConfigFor(options)
      ensures Snapshot() == State(Some(if cached.Some? then cached.value else EmptySchema), cached, token, token, false, None)
      ensures trace == []
    {
      clientIdentifier := Or(options.clientIdentifier, DefaultClientIdentifier);
      network := Or(options.network, DefaultNetwork);
      storedToken := token;
      bearer := token;
      storedAbi := cached;
      abi := Some(if cached.Some? then cached.value else EmptySchema);
      authenticated := false;
      invoice := None;
      trace := [];
    }

    method InitAbi(w: World) returns (r: Outcome<()>)
      modifies this
      ensures var run := InitAbiSpec(old(Snapshot()), w);
        r == run.value && Snapshot() == run.state && trace == old(trace) + run.calls
    {
      abi := Some(if storedAbi.Some? then storedAbi.value else EmptySchema);
      trace := trace + [GetAbi(bearer)];
      var response := w.abiResponse(bearer);
      if response.Threw? {
        return Threw(response.exc);
      }
      abi := response.value;
      storedAbi := response.value;
      r := Done(());
    }

    method Authenticate(w: World, create: bool) returns (r: Outcome<Option<string>>)
      modifies this
      ensures var run := AuthenticateSpec(old(Snapshot()), w, create);
        r == run.value && Snapshot() == run.state && trace == old(trace) + run.calls
    {
      var token := storedToken;
      if !authenticated {
        trace := trace + [AuthChallenge];
        if w.challenge.Threw? {
          return Threw(w.challenge.exc);
        }
        var message := w.challenge.value;
        var signature := w.sign(message);
        var address := w.address;
        trace := trace + [WalletSign(message), WalletAddress, AuthLogin(message, signature, address, Some(create))];
        var login := w.login(message, signature, address, Some(create));
        if login.Threw? {
          return Threw(login.exc);
        }
        token := Some(login.value);
      }
      storedToken := token;
      bearer := storedToken;
      authenticated := true;
      r := Done(token);
    }

    method FetchPayees(w: World, args: seq<string>, action: string, id: Option<string>) returns (r: Outcome<Priced>)
      modifies this
      ensures var run := FetchPayeesSpec(Cfg(), old(Snapshot()), w, args, action, id);
        r == run.value && Snapshot() == run.state && trace == old(trace) + run.calls
    {
      var request := PayeesRequest(args, action, Or(id, clientIdentifier));
      trace := trace + [PostPayees(request, bearer)];
      r := w.payees(request, bearer);
    }

    method PublishRequest(w: World, body: PublishBody) returns (r: Outcome<map<string, string>>)
      modifies this
      ensures var run := PublishRequestSpec(old(Snapshot()), w, body);
        r == run.value && Snapshot() == run.state && trace == old(trace) + run.calls
    {
      trace := trace + [PostPublish(body, bearer)];
      r := w.publish(body, bearer);
      if r.Threw? {
        r := Threw(RewrapPublishFailure(r.exc));
      }
    }

    /** `if (!this.abi || !this.abi.name) await this.initAbi()` */
    method Refresh(w: World) returns (r: Outcome<()>)
      modifies this
      ensures var run := RefreshSpec(old(Snapshot()), w);
        r == run.value && Snapshot() == run.state && trace == old(trace) + run.calls
    {
      r := Done(());
      if NeedsRefresh(abi) {
        r := InitAbi(w);
      }
    }

    /** `if (!this.authenticated) await this.authenticate()` */
    method EnsureAuthenticated(w: World) returns (r: Outcome<Option<string>>)
      modifies this
      ensures var run := EnsureAuthenticatedSpec(old(Snapshot()), w);
        r == run.value && Snapshot() == run.state && trace == old(trace) + run.calls
    {
      r := Done(storedToken);
      if !authenticated {
        r := Authenticate(w, false);
      }
    }

    method Build(w: World, action: string, payload: Payload, file: Option<File>, id: Option<string>)
      returns (r: BuildOutcome)
      modifies this
      ensures var run := BuildSpec(Cfg(), old(Snapshot()), w, action, payload, file, id);
        r == run.value && Snapshot() == run.state && trace == old(trace) + run.calls
    {
      ghost var start, before := trace, Snapshot();
      ghost var refresh := RefreshSpec(before, w);
      var loaded := Refresh(w);
      if loaded.Threw? {
        return BuildFailed(HandleError(loaded.exc, true));
      }
      var encoded := w.encode(abi, network, action, file, payload);
      if encoded.Threw? {
        return BuildFailed(HandleError(encoded.exc, true));
      }
      ghost var auth := EnsureAuthenticatedSpec(refresh.state, w);
      var token := EnsureAuthenticated(w);
      CallsAssociate(start, refresh.calls, auth.calls);
      if token.Threw? {
        return BuildFailed(HandleError(token.exc, true));
      }
      ghost var fetch := FetchPayeesSpec(Cfg(), auth.state, w, Args(encoded.value), action, id);
      var priced := FetchPayees(w, Args(encoded.value), action, id);
      CallsAssociate(start, refresh.calls + auth.calls, fetch.calls);
      if priced.Threw? {
        return BuildFailed(HandleError(priced.exc, true));
      }
      invoice := Some(priced.value.invoice);
      r := Built(Substitute(encoded.value, InvoiceToken, priced.value.invoice), priced.value.payees, priced.value.invoice);
    }

    method BuildAndPublish(w: World, action: string, payload: Payload, file: Option<File>) returns (r: Published)
      modifies this
      ensures var run := BuildAndPublishSpec(Cfg(), old(Snapshot()), w, action, payload, file);
        r == run.value && Snapshot() == run.state && trace == old(trace) + run.calls
    {
      ghost var start, before := trace, Snapshot();
      ghost var build := BuildSpec(Cfg(), before, w, action, payload, file, None);
      var built := Build(w, action, payload, file, None);
      if built.BuildFailed? {
        return Failed(ErrorReport(Text(UndefinedAbiText)));
      }
      var invoiced := built.abi;
      var message := w.contentHash(Args(invoiced));
      var withSignature := Substitute(invoiced, SignatureToken, w.sign(message));
      var final := Substitute(withSignature, AddressToken, w.address);
      trace := trace + [WalletSign(message), WalletAddress, WalletBuildTx(Args(final), built.payees, action)];
      CallsAssociate(start, build.calls, FinalizeCalls(w, invoiced, built.payees, action));
      ghost var calls := build.calls + FinalizeCalls(w, invoiced, built.payees, action);
      var tx := w.buildTx(Args(final), built.payees, action);
      if tx.Threw? {
        return Failed(HandleError(tx.exc, true));
      }
      if w.canPublish {
        return Local(tx.value.hash, final);
      }
      ghost var check := [DecodeTx(abi, network, action, tx.value.raw)];
      trace := trace + check;
      CallsAssociate(start, calls, check);
      var decoded := w.decodeTx(abi, network, action, tx.value.raw);
      if decoded.Threw? {
        return Failed(HandleError(decoded.exc, true));
      }
      var body := PublishBody(tx.value.raw, built.invoice, action, payload.payParams, Some(true));
      var response := PublishRequest(w, body);
      CallsAssociate(start, calls + check, [PostPublish(body, bearer)]);
      if response.Threw? {
        return Failed(HandleError(response.exc, true));
      }
      r := Remote(MergeResponse(response.value), tx.value.hash, final);
    }

    method Publish(w: World, action: string, payload: Payload, file: Option<File>) returns (r: Published)
      modifies this
      ensures var run := PublishSpec(Cfg(), old(Snapshot()), w, action, payload, file);
        r == run.value && Snapshot() == run.state && trace == old(trace) + run.calls
    {
      ghost var start, before := trace, Snapshot();
      trace := trace + [WalletAddress, WalletBalance];
      if w.balance.Threw? {
        return Failed(HandleError(w.balance.exc, true));
      }
      if w.balance.value == 0 {
        trace := trace + [WalletAddress];
        return NoFunds;
      }
      r := BuildAndPublish(w, action, payload, file);
      CallsAssociate(start, [WalletAddress, WalletBalance], BuildAndPublishSpec(Cfg(), before, w, action, payload, file).calls);
    }
  }
}
