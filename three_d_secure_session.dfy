/** `createThreeDSecureSession`: merge the environment configuration, create a
    3-D Secure session through the API, and settle the returned promise from
    the session status or from the first challenge event of the payment SDK.
    The API, the SDK and the script loader are not modelled; their answers are
    the input `Collaborators`. */
module ThreeDSecureSession {
  import opened Types

  const GENERIC_ERROR_MESSAGE := "Failed to create 3DS session"
  const READY_FOR_PAYMENT := "ready_for_payment"

  datatype EvervaultCredentials = EvervaultCredentials(teamID: string, appID: string)

  datatype EnvironmentConfiguration = EnvironmentConfiguration(
    duffelUrl: string,
    evervaultCredentials: EvervaultCredentials)

  const DEFAULT_ENVIRONMENT_CONFIGURATION := EnvironmentConfiguration(
    "https://api.duffel.com",
    EvervaultCredentials("team_a22f3ea22207", "app_976f15bbdddd"))

  /** The optional per-call override; each key is either given or absent. */
  datatype EnvironmentOverrides = EnvironmentOverrides(
    duffelUrl: Option<string>,
    evervaultCredentials: Option<EvervaultCredentials>)

  const NO_OVERRIDES := EnvironmentOverrides(None, None)

  /** `{ ...DEFAULT_ENVIRONMENT_CONFIGURATION, ...environmentConfiguration }`:
      a given key wins, an absent key keeps its default. The spread is shallow,
      so given credentials replace the default credentials as a whole. */
  function MergeEnvironment(overrides: EnvironmentOverrides): (env: EnvironmentConfiguration)
    ensures overrides.duffelUrl.Some? ==> env.duffelUrl == overrides.duffelUrl.value
    ensures overrides.duffelUrl.None? ==> env.duffelUrl == DEFAULT_ENVIRONMENT_CONFIGURATION.duffelUrl
    ensures overrides.evervaultCredentials.Some? ==> env.evervaultCredentials == overrides.evervaultCredentials.value
    ensures overrides.evervaultCredentials.None?
            ==> env.evervaultCredentials == DEFAULT_ENVIRONMENT_CONFIGURATION.evervaultCredentials
  {
    EnvironmentConfiguration(
      overrides.duffelUrl.GetOr(DEFAULT_ENVIRONMENT_CONFIGURATION.duffelUrl),
      overrides.evervaultCredentials.GetOr(DEFAULT_ENVIRONMENT_CONFIGURATION.evervaultCredentials))
  }

  function AsOverrides(env: EnvironmentConfiguration): EnvironmentOverrides {
    EnvironmentOverrides(Some(env.duffelUrl), Some(env.evervaultCredentials))
  }

  /** Omitting the override gives the defaults; overriding every key gives
      exactly the override. */
  lemma MergeEnvironmentLaws(env: EnvironmentConfiguration)
    ensures MergeEnvironment(NO_OVERRIDES) == DEFAULT_ENVIRONMENT_CONFIGURATION
    ensures MergeEnvironment(AsOverrides(env)) == env
  {
  }

  datatype ThreeDSecureSession = ThreeDSecureSession(id: string, status: string, externalId: Option<string>)

  /** A value a call rejected with, kept opaque. */
  datatype ErrorValue = ErrorValue(message: string)

  datatype CallResult<+T> = Ok(value: T) | Failed(error: ErrorValue)

  datatype ChallengeEvent = ChallengeSuccess | ChallengeFailure | ChallengeError

  /** What the collaborators answer: the script loader, the create call
      (`None` when it answers nothing), the first event the challenge SDK fires
      (`None` when it never fires), and the refresh call. */
  datatype Collaborators = Collaborators(
    scriptLoad: CallResult<()>,
    createSession: CallResult<Option<ThreeDSecureSession>>,
    firstChallengeEvent: Option<ChallengeEvent>,
    refreshSession: CallResult<ThreeDSecureSession>)

  /** Why the promise rejected: `new Error(GENERIC_ERROR_MESSAGE)`, a value
      passed through from a call, or a session handed to `reject`. */
  datatype Rejection = GenericError | Propagated(error: ErrorValue) | RejectedWithSession(session: ThreeDSecureSession)

  datatype Outcome = Pending | Resolved(session: ThreeDSecureSession) | Rejected(reason: Rejection)

  datatype CreateSessionRequest = CreateSessionRequest(
    cardId: string,
    resourceId: string,
    services: seq<Service>,
    cardholderPresent: bool)

  /** The create call: the API base URL and key of the client, and the body sent. */
  datatype CreateCall = CreateCall(duffelUrl: string, clientKey: string, request: CreateSessionRequest)

  /** The arguments `initEvervault` is called with. */
  datatype SdkInit = SdkInit(externalId: string, teamID: string, appID: string)

  /** Everything one call does that can be observed: the create call made, the
      SDK initialisation, the session refreshed, and how the promise settled. */
  datatype SessionRun = SessionRun(
    createCall: Option<CreateCall>,
    sdkInit: Option<SdkInit>,
    refreshedSessionId: Option<string>,
    outcome: Outcome)

  predicate CreatedSession(c: Collaborators) {
    c.scriptLoad.Ok? && c.createSession.Ok? && c.createSession.value.Some?
  }

  predicate ReadyForPayment(c: Collaborators) {
    CreatedSession(c) && c.createSession.value.value.status == READY_FOR_PAYMENT
  }

  /** The session needs a challenge and can start one. */
  predicate StartsChallenge(c: Collaborators) {
    && CreatedSession(c)
    && c.createSession.value.value.status != READY_FOR_PAYMENT
    && c.createSession.value.value.externalId.Some?
  }

  /** The challenge handlers: each refreshes the session and then settles. */
  function ChallengeOutcome(event: ChallengeEvent, refresh: CallResult<ThreeDSecureSession>): (o: Outcome)
    ensures !o.Pending?
    ensures o.Resolved? <==> event == ChallengeSuccess && refresh.Ok?
    ensures o.Resolved? ==> o.session == refresh.value
    ensures o == Rejected(GenericError) <==> event == ChallengeError
    ensures o.Rejected? && o.reason.RejectedWithSession? <==> event == ChallengeFailure && refresh.Ok?
    ensures o.Rejected? && o.reason.RejectedWithSession? ==> o.reason.session == refresh.value
    ensures o.Rejected? && o.reason.Propagated? <==> event != ChallengeError && refresh.Failed?
    ensures o.Rejected? && o.reason.Propagated? ==> o.reason.error == refresh.error
  {
    match event
    case ChallengeFailure =>
      // `.then(reject).catch(reject)`
      if refresh.Ok? then Rejected(RejectedWithSession(refresh.value)) else Rejected(Propagated(refresh.error))
    case ChallengeError =>
      // both continuations reject with the generic error
      Rejected(GenericError)
    case ChallengeSuccess =>
      // `.then(resolve).catch((error) => reject(error))`
      if refresh.Ok? then Resolved(refresh.value) else Rejected(Propagated(refresh.error))
  }

  /** The whole call, from the merged environment to the settled promise. */
  function CreateSession(
    clientKey: string,
    cardId: string,
    resourceId: string,
    services: seq<Service>,
    cardholderPresent: bool,
    overrides: EnvironmentOverrides,
    c: Collaborators)
    : (run: SessionRun)
    ensures run.createCall.Some? <==> c.scriptLoad.Ok?
    ensures run.createCall.Some? ==> run.createCall.value == CreateCall(
      MergeEnvironment(overrides).duffelUrl, clientKey,
      CreateSessionRequest(cardId, resourceId, services, cardholderPresent))
    ensures run.sdkInit.Some? <==> StartsChallenge(c)
    ensures run.sdkInit.Some? ==> run.sdkInit.value == SdkInit(
      c.createSession.value.value.externalId.value,
      MergeEnvironment(overrides).evervaultCredentials.teamID,
      MergeEnvironment(overrides).evervaultCredentials.appID)
    ensures run.refreshedSessionId.Some? <==> StartsChallenge(c) && c.firstChallengeEvent.Some?
    ensures run.refreshedSessionId.Some? ==> run.refreshedSessionId.value == c.createSession.value.value.id
    ensures run.outcome.Pending? <==> StartsChallenge(c) && c.firstChallengeEvent.None?
    ensures run.outcome.Resolved? <==>
      || ReadyForPayment(c)
      || (StartsChallenge(c) && c.firstChallengeEvent == Some(ChallengeSuccess) && c.refreshSession.Ok?)
    ensures ReadyForPayment(c) ==> run.outcome == Resolved(c.createSession.value.value)
    ensures run.outcome == Rejected(GenericError) <==>
      || (c.scriptLoad.Ok? && c.createSession.Ok? && c.createSession.value.None?)
      || (CreatedSession(c) && !ReadyForPayment(c) && !StartsChallenge(c))
      || (StartsChallenge(c) && c.firstChallengeEvent == Some(ChallengeError))
    ensures c.scriptLoad.Failed? ==> run.outcome == Rejected(Propagated(c.scriptLoad.error))
    ensures c.scriptLoad.Ok? && c.createSession.Failed? ==> run.outcome == Rejected(Propagated(c.createSession.error))
    ensures StartsChallenge(c) && c.firstChallengeEvent.Some?
            ==> run.outcome == ChallengeOutcome(c.firstChallengeEvent.value, c.refreshSession)
  {
    var env := MergeEnvironment(overrides);
    if c.scriptLoad.Failed? then
      // `await loadEvervaultScript()` throws inside the async function
      SessionRun(None, None, None, Rejected(Propagated(c.scriptLoad.error)))
    else
      var call := Some(CreateCall(env.duffelUrl, clientKey, CreateSessionRequest(cardId, resourceId, services, cardholderPresent)));
      match c.createSession
      case Failed(error) => SessionRun(call, None, None, Rejected(Propagated(error)))
      case Ok(None) => SessionRun(call, None, None, Rejected(GenericError))
      case Ok(Some(session)) =>
        if session.status == READY_FOR_PAYMENT then
          SessionRun(call, None, None, Resolved(session))
        else if session.externalId.None? then
          SessionRun(call, None, None, Rejected(GenericError))
        else
          var init := Some(SdkInit(session.externalId.value, env.evervaultCredentials.teamID, env.evervaultCredentials.appID));
          match c.firstChallengeEvent
          case None => SessionRun(call, init, None, Pending)
          case Some(event) => SessionRun(call, init, Some(session.id), ChallengeOutcome(event, c.refreshSession))
  }

  /** A session already ready for payment resolves as created; the SDK is never initialised. */
  lemma ReadyForPaymentSkipsChallenge(
    clientKey: string, cardId: string, resourceId: string, services: seq<Service>,
    cardholderPresent: bool, overrides: EnvironmentOverrides, c: Collaborators)
    requires ReadyForPayment(c)
    ensures var run := CreateSession(clientKey, cardId, resourceId, services, cardholderPresent, overrides, c);
      run.outcome == Resolved(c.createSession.value.value) && run.sdkInit.None? && run.refreshedSessionId.None?
  {
  }

  /** A failed challenge never resolves, whatever the refresh answers. */
  lemma ChallengeFailureNeverResolves(refresh: CallResult<ThreeDSecureSession>)
    ensures ChallengeOutcome(ChallengeFailure, refresh).Rejected?
  {
  }

  /** A challenge error rejects with the generic error, whatever the refresh answers. */
  lemma ChallengeErrorIsGeneric(refresh: CallResult<ThreeDSecureSession>)
    ensures ChallengeOutcome(ChallengeError, refresh) == Rejected(GenericError)
  {
  }
}
