/**
 * The legacy SDK client (`src/client.js`): the same build-and-publish pipeline without the
 * `authenticated` flag. `authenticate` reuses a stored token, `build` never authenticates,
 * the pricing request always carries the configured identifier, `/publish` failures are
 * not rewrapped, and the classifier has no `errors`-list branch.
 *
 * As for the current client, each operation is first a function from the state and the
 * collaborators to a `Run`, the promised properties are lemmas about those functions,
 * and the class `Client` is proved to follow them.
 */
module LegacyClient {
  import opened Values
  import opened Errors
  import opened Encoding
  import opened Collaborators

  /**
   * The mutable session: `this.abi`, the stored schema and token, the token the HTTP
   * instance sends (`None`: the instance has no `Authorization` header), `this.invoice`.
   */
  datatype State = State(abi: Option<Schema>, storedAbi: Option<Schema>, token: Option<string>,
                         bearer: Option<string>, invoice: Option<string>)

  /** One operation's effect: its result, the state after it, and the external calls it made in order. */
  datatype Run<T> = Run(value: T, state: State, calls: seq<Call>)

  // ---------------------------------------------------------------------------
  // The operations, as functions of the state and the collaborators

  /** `initAbi`: load the stored schema (or `{}`), then replace it by the fetched one and store that. */
  function InitAbiSpec(s: State, w: World): Run<Outcome<()>>
  {
    var cached := Some(if s.storedAbi.Some? then s.storedAbi.value else EmptySchema);
    var calls := [GetAbi(s.bearer)];
    match w.abiResponse(s.bearer)
    case Threw(e) => Run(Threw(e), s.(abi := cached), calls)
    case Done(fetched) => Run(Done(()), s.(abi := fetched, storedAbi := fetched), calls)
  }

  /**
   * `authenticate`: a truthy stored token is reused; otherwise sign a fresh challenge and
   * log in (no `v2` field). The token is then sent by the HTTP instance and stored.
   */
  function AuthenticateSpec(s: State, w: World): Run<Outcome<string>>
  {
    if Truthy(s.token) then
      Run(Done(s.token.value), s.(bearer := s.token), [])
    else
      match w.challenge
      case Threw(e) => Run(Threw(e), s, [AuthChallenge])
      case Done(message) =>
        var signature := w.sign(message);
        var calls := [AuthChallenge, WalletSign(message), WalletAddress, AuthLogin(message, signature, w.address, None)];
        match w.login(message, signature, w.address, None)
        case Threw(e) => Run(Threw(e), s, calls)
        case Done(token) => Run(Done(token), s.(token := Some(token), bearer := Some(token)), calls)
  }

  /** `fetchPayees`: the request always carries the configured client identifier. */
  function FetchPayeesSpec(c: Config, s: State, w: World, args: seq<string>, action: string): Run<Outcome<Priced>>
  {
    var request := PayeesRequest(args, action, c.clientIdentifier);
    Run(w.payees(request, s.bearer), s, [PostPayees(request, s.bearer)])
  }

  /** `publishRequest`: the response data, or the request's failure as it was thrown. */
  function PublishRequestSpec(s: State, w: World, body: PublishBody): Run<Outcome<map<string, string>>>
  {
    Run(w.publish(body, s.bearer), s, [PostPublish(body, s.bearer)])
  }

  /** The step `if (!this.abi || !this.abi.name) await this.initAbi()`. */
  function RefreshSpec(s: State, w: World): Run<Outcome<()>>
  {
    if NeedsRefresh(s.abi) then InitAbiSpec(s, w) else Run(Done(()), s, [])
  }

  /** `build`: refresh the schema if needed, encode, price, then fill `#{invoice}`. */
  function BuildSpec(c: Config, s: State, w: World, action: string, payload: Payload, file: Option<File>): Run<BuildOutcome>
  {
    var refresh := RefreshSpec(s, w);
    if refresh.value.Threw? then Run(BuildFailed(HandleError(refresh.value.exc, false)), refresh.state, refresh.calls)
    else
      var s1 := refresh.state;
      match w.encode(s1.abi, c.network, action, file, payload)
      case Threw(e) => Run(BuildFailed(HandleError(e, false)), s1, refresh.calls)
      case Done(encoded) =>
        var fetch := FetchPayeesSpec(c, s1, w, Args(encoded), action);
        var calls := refresh.calls + fetch.calls;
        match fetch.value
        case Threw(e) => Run(BuildFailed(HandleError(e, false)), s1, calls)
        case Done(priced) =>
          Run(Built(Substitute(encoded, InvoiceToken, priced.invoice), priced.payees, priced.invoice),
              s1.(invoice := Some(priced.invoice)), calls)
  }

  /**
   * `buildAndPublish`: build, sign and address, build the transaction, then either return
   * it (the wallet broadcasts) or check it against the schema and submit it.
   */
  function BuildAndPublishSpec(c: Config, s: State, w: World, action: string, payload: Payload,
                               file: Option<File>): Run<Published>
  {
    var build := BuildSpec(c, s, w, action, payload, file);
    match build.value
    case BuildFailed(_) => Run(Failed(ErrorReport(Text(UndefinedAbiText))), build.state, build.calls)
    case Built(invoiced, payees, invoice) =>
      var final := Finalize(w, invoiced);
      var calls := build.calls + FinalizeCalls(w, invoiced, payees, action);
      match w.buildTx(Args(final), payees, action)
      case Threw(e) => Run(Failed(HandleError(e, false)), build.state, calls)
      case Done(tx) =>
        if w.canPublish then Run(Local(tx.hash, final), build.state, calls)
        else
          var check := [DecodeTx(build.state.abi, c.network, action, tx.raw)];
          match w.decodeTx(build.state.abi, c.network, action, tx.raw)
          case Threw(e) => Run(Failed(HandleError(e, false)), build.state, calls + check)
          case Done(_) =>
            var submit := PublishRequestSpec(build.state, w, PublishBody(tx.raw, invoice, action, payload.payParams, None));
            match submit.value
            case Threw(e) => Run(Failed(HandleError(e, false)), build.state, calls + check + submit.calls)
            case Done(response) => Run(Remote(MergeResponse(response), tx.hash, final), build.state, calls + check + submit.calls)
  }

  /** `publish`: log the address, read the balance; a zero balance logs and returns `undefined`. */
  function PublishSpec(c: Config, s: State, w: World, action: string, payload: Payload, file: Option<File>): Run<Published>
  {
    var probe := [WalletAddress, WalletBalance];
    match w.balance
    case Threw(e) => Run(Failed(HandleError(e, false)), s, probe)
    case Done(balance) =>
      if balance == 0 then Run(NoFunds, s, probe + [WalletAddress])
      else
        var run := BuildAndPublishSpec(c, s, w, action, payload, file);
        Run(run.value, run.state, probe + run.calls)
  }

  // ---------------------------------------------------------------------------
  // What the operations promise

  /** A truthy stored token is reused without any call, sent by the HTTP instance, and kept. */
  lemma StoredTokenReused(s: State, w: World)
    requires Truthy(s.token)
    ensures var run := AuthenticateSpec(s, w);
      run.calls == [] && run.value == Done(s.token.value) && run.state == s.(bearer := s.token)
  {
  }

  /**
   * Without a truthy stored token the challenge runs first and the login sends no `v2`
   * field; a successful login stores the new token and the HTTP instance sends it.
   */
  lemma MissingTokenRunsChallenge(s: State, w: World)
    requires !Truthy(s.token)
    ensures var run := AuthenticateSpec(s, w);
      |run.calls| > 0 && run.calls[0] == AuthChallenge
      && (run.value.Done? ==>
            run.state.token == Some(run.value.value) && run.state.bearer == run.state.token
            && run.calls[|run.calls| - 1] == AuthLogin(w.challenge.value, w.sign(w.challenge.value), w.address, None))
      && (run.value.Done? ==>
            w.challenge.Done? && w.login(w.challenge.value, w.sign(w.challenge.value), w.address, None) == Done(run.value.value))
      && (run.value.Threw? ==> run.state == s)
  {
  }

  /** A build never authenticates: no challenge, and the stored and sent tokens are untouched. */
  lemma BuildNeverAuthenticates(c: Config, s: State, w: World, action: string, payload: Payload, file: Option<File>)
    ensures var run := BuildSpec(c, s, w, action, payload, file);
      NoChallenge(run.calls) && run.state.token == s.token && run.state.bearer == s.bearer
  {
  }

  /** A cached, named schema is used unchanged: no fetch happens and the cache is untouched. */
  lemma BuildUsesCachedSchema(c: Config, s: State, w: World, action: string, payload: Payload, file: Option<File>)
    requires !NeedsRefresh(s.abi)
    ensures var run := BuildSpec(c, s, w, action, payload, file);
      NoSchemaFetch(run.calls) && run.state.abi == s.abi && run.state.storedAbi == s.storedAbi
  {
  }

  /** A missing or unnamed schema is fetched first, before anything else is called. */
  lemma BuildRefreshesMissingSchema(c: Config, s: State, w: World, action: string, payload: Payload, file: Option<File>)
    requires NeedsRefresh(s.abi)
    ensures var run := BuildSpec(c, s, w, action, payload, file);
      |run.calls| > 0 && run.calls[0] == GetAbi(s.bearer)
  {
  }

  /** The schema a build encodes with: the cached one, or the fetched one after a refresh. */
  function SchemaInUse(s: State, w: World): Option<Schema>
  {
    RefreshSpec(s, w).state.abi
  }

  /**
   * A successful build priced exactly the encoded arguments, with the configured client
   * identifier and whatever token the HTTP instance already sends, as its last call; its
   * `abi` is the encoding with `#{invoice}` filled by the returned invoice, which is
   * remembered in `this.invoice`.
   */
  lemma BuildPricesBeforeInvoiceSubstitution(c: Config, s: State, w: World, action: string, payload: Payload,
                                             file: Option<File>)
    ensures var run := BuildSpec(c, s, w, action, payload, file);
      run.value.Built? ==>
        var encoded := w.encode(SchemaInUse(s, w), c.network, action, file, payload);
        var request := PayeesRequest(Args(encoded.value), action, c.clientIdentifier);
        encoded.Done?
        && |run.calls| > 0 && run.calls[|run.calls| - 1] == PostPayees(request, s.bearer)
        && w.payees(request, s.bearer) == Done(Priced(run.value.payees, run.value.invoice))
        && run.value.abi == Substitute(encoded.value, InvoiceToken, run.value.invoice)
        && run.state.invoice == Some(run.value.invoice)
  {
  }

  /**
   * Once `build` succeeds, its calls are followed by the signature over the content hash
   * of the invoice-filled arguments, then the address, then the transaction built from
   * the fully substituted arguments, whatever `buildTx`, the check or `/publish` answer.
   */
  lemma SubstitutionOrder(c: Config, s: State, w: World, action: string, payload: Payload, file: Option<File>)
    ensures var run := BuildAndPublishSpec(c, s, w, action, payload, file);
      var build := BuildSpec(c, s, w, action, payload, file);
      build.value.Built? ==>
        var invoiced := build.value.abi;
        |run.calls| >= |build.calls| + 3
        && run.calls[..|build.calls|] == build.calls
        && run.calls[|build.calls|] == WalletSign(w.contentHash(Args(invoiced)))
        && run.calls[|build.calls| + 1] == WalletAddress
        && run.calls[|build.calls| + 2] == WalletBuildTx(Args(Finalize(w, invoiced)), build.value.payees, action)
  {
    var build := BuildSpec(c, s, w, action, payload, file);
    if build.value.Built? {
      CallsFollowBuild(c, s, w, action, payload, file);
      var run := BuildAndPublishSpec(c, s, w, action, payload, file);
      var finalize := FinalizeCalls(w, build.value.abi, build.value.payees, action);
      var head := build.calls + finalize;
      var n := |build.calls|;
      assert run.calls[..n] == head[..n] == build.calls;
      assert run.calls[n] == head[n] == finalize[0];
      assert run.calls[n + 1] == head[n + 1] == finalize[1];
      assert run.calls[n + 2] == head[n + 2] == finalize[2];
    }
  }

  /** Whatever comes after the transaction is built, the calls so far are kept as a prefix. */
  lemma CallsFollowBuild(c: Config, s: State, w: World, action: string, payload: Payload, file: Option<File>)
    requires BuildSpec(c, s, w, action, payload, file).value.Built?
    ensures var build := BuildSpec(c, s, w, action, payload, file);
      var head := build.calls + FinalizeCalls(w, build.value.abi, build.value.payees, action);
      var run := BuildAndPublishSpec(c, s, w, action, payload, file);
      |run.calls| >= |head| && run.calls[..|head|] == head
  {
    var build := BuildSpec(c, s, w, action, payload, file);
    var head := build.calls + FinalizeCalls(w, build.value.abi, build.value.payees, action);
    var run := BuildAndPublishSpec(c, s, w, action, payload, file);
    var tx := w.buildTx(Args(Finalize(w, build.value.abi)), build.value.payees, action);
    if tx.Threw? || w.canPublish {
      assert run.calls == head;
    } else {
      var check := [DecodeTx(build.state.abi, c.network, action, tx.value.raw)];
      if w.decodeTx(build.state.abi, c.network, action, tx.value.raw).Threw? {
        assert run.calls == head + check;
      } else {
        var body := PublishBody(tx.value.raw, build.value.invoice, action, payload.payParams, None);
        assert run.calls == head + check + PublishRequestSpec(build.state, w, body).calls;
        assert run.calls == head + (check + PublishRequestSpec(build.state, w, body).calls);
      }
    }
  }

  /** Every transaction result, local or remote, carries the fully substituted arguments of a successful build. */
  lemma ResultCarriesFinalArgs(c: Config, s: State, w: World, action: string, payload: Payload, file: Option<File>)
    ensures var run := BuildAndPublishSpec(c, s, w, action, payload, file);
      var build := BuildSpec(c, s, w, action, payload, file);
      (run.value.Local? || run.value.Remote?) ==> build.value.Built? && run.value.abi == Finalize(w, build.value.abi)
  {
    var build := BuildSpec(c, s, w, action, payload, file);
    var run := BuildAndPublishSpec(c, s, w, action, payload, file);
    if build.value.Built? {
      var final := Finalize(w, build.value.abi);
      var tx := w.buildTx(Args(final), build.value.payees, action);
      if tx.Done? && !w.canPublish && w.decodeTx(build.state.abi, c.network, action, tx.value.raw).Done? {
        assert run.value.Remote? ==> run.value.abi == final;
      }
    } else {
      assert run.value.Failed?;
    }
  }

  /**
   * A wallet that can publish never leads to a `/publish` call. Once `build` and
   * `buildTx` succeed, the result is `{txid: tx.hash, abi}` and nothing is called after
   * the transaction is built; a `Local` result happens only that way.
   */
  lemma CanPublishNeverSubmits(c: Config, s: State, w: World, action: string, payload: Payload, file: Option<File>)
    requires w.canPublish
    ensures var run := BuildAndPublishSpec(c, s, w, action, payload, file);
      NoSubmission(run.calls) && !run.value.Remote? && !run.value.NoFunds?
    ensures var run := BuildAndPublishSpec(c, s, w, action, payload, file);
      var build := BuildSpec(c, s, w, action, payload, file);
      build.value.Built? ==>
        var final := Finalize(w, build.value.abi);
        var tx := w.buildTx(Args(final), build.value.payees, action);
        run.calls == build.calls + FinalizeCalls(w, build.value.abi, build.value.payees, action)
        && (tx.Done? ==> run.value == Local(tx.value.hash, final))
    ensures var run := BuildAndPublishSpec(c, s, w, action, payload, file);
      var build := BuildSpec(c, s, w, action, payload, file);
      run.value.Local? ==>
        build.value.Built? && w.buildTx(Args(Finalize(w, build.value.abi)), build.value.payees, action).Done?
  {
    var run := BuildAndPublishSpec(c, s, w, action, payload, file);
    var build := BuildSpec(c, s, w, action, payload, file);
    assert NoSubmission(build.calls) by {
      var refresh := RefreshSpec(s, w);
      assert NoSubmission(refresh.calls);
    }
    if build.value.Built? {
      var calls := build.calls + FinalizeCalls(w, build.value.abi, build.value.payees, action);
      assert run.calls == calls;
      assert NoSubmission(calls);
    }
  }

  /**
   * Otherwise, once `build`, `buildTx` and the check against the schema succeed, the raw
   * signed transaction is posted to `/publish` with the build's invoice, the action and
   * the caller's `payParams` and no `broadcast` field, as the last call; a successful post gives the
   * server's fields with the local `tx.hash` as `txid`. A `Remote` result happens only that way.
   */
  lemma RemoteSubmission(c: Config, s: State, w: World, action: string, payload: Payload, file: Option<File>)
    requires !w.canPublish
    ensures var run := BuildAndPublishSpec(c, s, w, action, payload, file);
      !run.value.Local? && !run.value.NoFunds?
    ensures var run := BuildAndPublishSpec(c, s, w, action, payload, file);
      var build := BuildSpec(c, s, w, action, payload, file);
      build.value.Built? ==>
        var final := Finalize(w, build.value.abi);
        var tx := w.buildTx(Args(final), build.value.payees, action);
        tx.Done? && w.decodeTx(build.state.abi, c.network, action, tx.value.raw).Done? ==>
          var body := PublishBody(tx.value.raw, build.value.invoice, action, payload.payParams, None);
          run.calls == build.calls + FinalizeCalls(w, build.value.abi, build.value.payees, action)
                       + [DecodeTx(build.state.abi, c.network, action, tx.value.raw), PostPublish(body, build.state.bearer)]
          && (w.publish(body, build.state.bearer).Done? ==>
                run.value == Remote(MergeResponse(w.publish(body, build.state.bearer).value), tx.value.hash, final))
    ensures var run := BuildAndPublishSpec(c, s, w, action, payload, file);
      var build := BuildSpec(c, s, w, action, payload, file);
      run.value.Remote? ==>
        build.value.Built?
        && var tx := w.buildTx(Args(Finalize(w, build.value.abi)), build.value.payees, action);
           tx.Done? && w.decodeTx(build.state.abi, c.network, action, tx.value.raw).Done?
           && w.publish(PublishBody(tx.value.raw, build.value.invoice, action, payload.payParams, None), build.state.bearer).Done?
  {
  }

  /**
   * A failure of the submission itself reaches the classifier unchanged, so a 401 from
   * `/publish` is reported as "unauthenticated".
   */
  lemma SubmissionFailureKeepsStatus(c: Config, s: State, w: World, action: string, payload: Payload,
                                     file: Option<File>, e: Thrown)
    requires !w.canPublish
    requires var build := BuildSpec(c, s, w, action, payload, file);
      build.value.Built?
      && var tx := w.buildTx(Args(Finalize(w, build.value.abi)), build.value.payees, action);
         tx.Done? && w.decodeTx(build.state.abi, c.network, action, tx.value.raw).Done?
         && w.publish(PublishBody(tx.value.raw, build.value.invoice, action, payload.payParams, None), build.state.bearer) == Threw(e)
    ensures BuildAndPublishSpec(c, s, w, action, payload, file).value == Failed(HandleError(e, false))
    ensures HasResponseData(e) && e.response.value.status == Some(401)
            ==> BuildAndPublishSpec(c, s, w, action, payload, file).value == Failed(ErrorReport(Text(Unauthenticated)))
  {
  }

  /**
   * When `build` reports an error, `buildAndPublish` makes no further call and reports the
   * TypeError from reading `replace` on the missing `abi`, not the build's own report.
   */
  lemma BuildFailureIsMasked(c: Config, s: State, w: World, action: string, payload: Payload, file: Option<File>)
    ensures var run := BuildAndPublishSpec(c, s, w, action, payload, file);
      var build := BuildSpec(c, s, w, action, payload, file);
      build.value.BuildFailed? ==>
        run.calls == build.calls && run.value == Failed(ErrorReport(Text(UndefinedAbiText)))
  {
  }

  /** A zero balance stops `publish` before any pricing or submission request; the state is unchanged. */
  lemma PublishWithoutFundsMakesNoRequests(c: Config, s: State, w: World, action: string, payload: Payload,
                                           file: Option<File>)
    requires w.balance == Done(0)
    ensures var run := PublishSpec(c, s, w, action, payload, file);
      run.value == NoFunds && run.state == s && run.calls == [WalletAddress, WalletBalance, WalletAddress]
      && NoPricingOrSubmission(run.calls)
  {
  }

  /** A non-zero balance hands over to `buildAndPublish` after the two wallet probes. */
  lemma PublishWithFundsDelegates(c: Config, s: State, w: World, action: string, payload: Payload, file: Option<File>)
    requires w.balance.Done? && w.balance.value != 0
    ensures var run := PublishSpec(c, s, w, action, payload, file);
      var inner := BuildAndPublishSpec(c, s, w, action, payload, file);
      run.value == inner.value && run.state == inner.state && run.calls == [WalletAddress, WalletBalance] + inner.calls
  {
  }

  // ---------------------------------------------------------------------------
  // The client object

  class Client {
    const clientIdentifier: string
    const network: string
    var abi: Option<Schema>
    var storedAbi: Option<Schema>      // storage item 'abi'
    var storedToken: Option<string>    // storage item 'tokenTwetchAuth'
    var bearer: Option<string>         // the token in the HTTP instance's Authorization header, if it has one
    var invoice: Option<string>
    ghost var trace: seq<Call>         // every external call made so far, in order

    function Cfg(): Config
    {
      Config(clientIdentifier, network)
    }

    function Snapshot(): State
      reads this`abi, this`storedAbi, this`storedToken, this`bearer, this`invoice
    {
      State(abi, storedAbi, storedToken, bearer, invoice)
    }

    /**
     * The synchronous part of construction: defaults for the identifier and network, an
     * HTTP instance without an `Authorization` header, and the stored schema (or `{}`) as
     * `abi`. The schema fetch the constructor starts without awaiting is not modelled.
     */
    constructor(options: Options, token: Option<string>, cached: Option<Schema>)
      ensures Cfg() == ConfigFor(options)
      ensures Snapshot() == State(Some(if cached.Some? then cached.value else EmptySchema), cached, token, None, None)
      ensures trace == []
    {
      clientIdentifier := Or(options.clientIdentifier, DefaultClientIdentifier);
      network := Or(options.network, DefaultNetwork);
      storedToken := token;
      bearer := None;
      storedAbi := cached;
      abi := Some(if cached.Some? then cached.value else EmptySchema);
      invoice := None;
      trace := [];
    }

    method InitAbi(w: World) returns (r: Outcome<()>)
      modifies this
      ensures var run := InitAbiSpec(old(Snapshot()), w);
        r == run.value && Snapshot() == run.state && trace == old(trace) + run.calls
    {
      abi := Some(if storedAbi.Some? then storedAbi.value else EmptySchema);
      trace := trace + [GetAbi(bearer)];
      var response := w.abiResponse(bearer);
      if response.Threw? {
        return Threw(response.exc);
      }
      abi := response.value;
      storedAbi := response.value;
      r := Done(());
    }

    method Authenticate(w: World) returns (r: Outcome<string>)
      modifies this
      ensures var run := AuthenticateSpec(old(Snapshot()), w);
        r == run.value && Snapshot() == run.state && trace == old(trace) + run.calls
    {
      var token: string;
      if Truthy(storedToken) {
        token := storedToken.value;
      } else {
        trace := trace + [AuthChallenge];
        if w.challenge.Threw? {
          return Threw(w.challenge.exc);
        }
        var message := w.challenge.value;
        var signature := w.sign(message);
        var address := w.address;
        trace := trace + [WalletSign(message), WalletAddress, AuthLogin(message, signature, address, None)];
        var login := w.login(message, signature, address, None);
        if login.Threw? {
          return Threw(login.exc);
        }
        token := login.value;
      }
      bearer := Some(token);
      storedToken := Some(token);
      r := Done(token);
    }

    method FetchPayees(w: World, args: seq<string>, action: string) returns (r: Outcome<Priced>)
      modifies this
      ensures var run := FetchPayeesSpec(Cfg(), old(Snapshot()), w, args, action);
        r == run.value && Snapshot() == run.state && trace == old(trace) + run.calls
    {
      var request := PayeesRequest(args, action, clientIdentifier);
      trace := trace + [PostPayees(request, bearer)];
      r := w.payees(request, bearer);
    }

    method PublishRequest(w: World, body: PublishBody) returns (r: Outcome<map<string, string>>)
      modifies this
      ensures var run := PublishRequestSpec(old(Snapshot()), w, body);
        r == run.value && Snapshot() == run.state && trace == old(trace) + run.calls
    {
      trace := trace + [PostPublish(body, bearer)];
      r := w.publish(body, bearer);
    }

    /** `if (!this.abi || !this.abi.name) await this.initAbi()` */
    method Refresh(w: World) returns (r: Outcome<()>)
      modifies this
      ensures var run := RefreshSpec(old(Snapshot()), w);
        r == run.value && Snapshot() == run.state && trace == old(trace) + run.calls
    {
      r := Done(());
      if NeedsRefresh(abi) {
        r := InitAbi(w);
      }
    }

    method Build(w: World, action: string, payload: Payload, file: Option<File>) returns (r: BuildOutcome)
      modifies this
      ensures var run := BuildSpec(Cfg(), old(Snapshot()), w, action, payload, file);
        r == run.value && Snapshot() == run.state && trace == old(trace) + run.calls
    {
      ghost var start, before := trace, Snapshot();
      ghost var refresh := RefreshSpec(before, w);
      var loaded := Refresh(w);
      if loaded.Threw? {
        return BuildFailed(HandleError(loaded.exc, false));
      }
      var encoded := w.encode(abi, network, action, file, payload);
      if encoded.Threw? {
        return BuildFailed(HandleError(encoded.exc, false));
      }
      ghost var fetch := FetchPayeesSpec(Cfg(), refresh.state, w, Args(encoded.value), action);
      var priced := FetchPayees(w, Args(encoded.value), action);
      CallsAssociate(start, refresh.calls, fetch.calls);
      if priced.Threw? {
        return BuildFailed(HandleError(priced.exc, false));
      }
      invoice := Some(priced.value.invoice);
      r := Built(Substitute(encoded.value, InvoiceToken, priced.value.invoice), priced.value.payees, priced.value.invoice);
    }

    method BuildAndPublish(w: World, action: string, payload: Payload, file: Option<File>) returns (r: Published)
      modifies this
      ensures var run := BuildAndPublishSpec(Cfg(), old(Snapshot()), w, action, payload, file);
        r == run.value && Snapshot() == run.state && trace == old(trace) + run.calls
    {
      ghost var start, before := trace, Snapshot();
      ghost var build := BuildSpec(Cfg(), before, w, action, payload, file);
      var built := Build(w, action, payload, file);
      if built.BuildFailed? {
        return Failed(ErrorReport(Text(UndefinedAbiText)));
      }
      var invoiced := built.abi;
      var message := w.contentHash(Args(invoiced));
      var withSignature := Substitute(invoiced, SignatureToken, w.sign(message));
      var final := Substitute(withSignature, AddressToken, w.address);
      trace := trace + [WalletSign(message), WalletAddress, WalletBuildTx(Args(final), built.payees, action)];
      CallsAssociate(start, build.calls, FinalizeCalls(w, invoiced, built.payees, action));
      ghost var calls := build.calls + FinalizeCalls(w, invoiced, built.payees, action);
      var tx := w.buildTx(Args(final), built.payees, action);
      if tx.Threw? {
        return Failed(HandleError(tx.exc, false));
      }
      if w.canPublish {
        return Local(tx.value.hash, final);
      }
      ghost var check := [DecodeTx(abi, network, action, tx.value.raw)];
      trace := trace + check;
      CallsAssociate(start, calls, check);
      var decoded := w.decodeTx(abi, network, action, tx.value.raw);
      if decoded.Threw? {
        return Failed(HandleError(decoded.exc, false));
      }
      var body := PublishBody(tx.value.raw, built.invoice, action, payload.payParams, None);
      var response := PublishRequest(w, body);
      CallsAssociate(start, calls + check, [PostPublish(body, bearer)]);
      if response.Threw? {
        return Failed(HandleError(response.exc, false));
      }
      r := Remote(MergeResponse(response.value), tx.value.hash, final);
    }

    method Publish(w: World, action: string, payload: Payload, file: Option<File>) returns (r: Published)
      modifies this
      ensures var run := PublishSpec(Cfg(), old(Snapshot()), w, action, payload, file);
        r == run.value && Snapshot() == run.state && trace == old(trace) + run.calls
    {
      ghost var start, before := trace, Snapshot();
      trace := trace + [WalletAddress, WalletBalance];
      if w.balance.Threw? {
        return Failed(HandleError(w.balance.exc, false));
      }
      if w.balance.value == 0 {
        trace := trace + [WalletAddress];
        return NoFunds;
      }
      r := BuildAndPublish(w, action, payload, file);
      CallsAssociate(start, [WalletAddress, WalletBalance], BuildAndPublishSpec(Cfg(), before, w, action, payload, file).calls);
    }
  }
}
