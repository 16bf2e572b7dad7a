/**
 * The invocation state machine of dmslite_famgr.c.
 *
 * The file keeps two pieces of process-wide state: the IPC identity that
 * `RegisterIpcCallback` fills in (`g_serviceIdentity`) and the one armed
 * completion callback (`g_onStartAbilityDone`).  `StartAbilityFromRemote`
 * registers the IPC callback lazily, arms the completion callback (first
 * wins, never cleared), fills a Want and launches the ability through the
 * ability manager; `AmsResultCallback` frees the IPC message, maps the
 * launch status to an asynchronous result and fires the armed callback;
 * `StartRemoteAbility` marshals the start-ability packet with fail-fast
 * helpers and hands it to the session layer.
 *
 * Every collaborator (IPC runtime, service registry, ability manager, Want
 * and element setters, bundle lookup, packet builder, session) is an input:
 * the outcome it would report.  Each entry point is one atomic step of the
 * class `DmsFaManager`, proved equal to a pure specification function; the
 * lemmas below are stated about those functions.
 */
module FaManager {
  import opened Wrappers
  import opened Marshalling

  const InvalidIpcToken: int := 0       // INVALID_IPC_TOKEN
  const InvalidIpcHandle: int := -1     // INVALID_IPC_HANDLE
  const DmsVersionValue: Uint16 := 200  // DMS_VERSION_VALUE
  const DmsMsgCmdStartFa: Uint16 := 1   // DMS_MSG_CMD_START_FA
  const EcSuccess: int := 0             // EC_SUCCESS
  const EcFailure: int := -1            // EC_FAILURE

  /** The DMS_EC_* status codes. */
  datatype DmsErrorCode =
    | Success                     // DMS_EC_SUCCESS
    | Failure                     // DMS_EC_FAILURE
    | InvalidParameter            // DMS_EC_INVALID_PARAMETER
    | RegisteIpcCallbackFailure   // DMS_EC_REGISTE_IPC_CALLBACK_FAILURE
    | FillWantFailure             // DMS_EC_FILL_WANT_FAILURE
    | GetAbilitymsFailure         // DMS_EC_GET_ABILITYMS_FAILURE
    | StartAbilitySyncSuccess     // DMS_EC_START_ABILITY_SYNC_SUCCESS
    | StartAbilitySyncFailure     // DMS_EC_START_ABILITY_SYNC_FAILURE
    | StartAbilityAsyncSuccess    // DMS_EC_START_ABILITY_ASYNC_SUCCESS
    | StartAbilityAsyncFailure    // DMS_EC_START_ABILITY_ASYNC_FAILURE

  /** What an IPC callback returns to the IPC runtime. */
  datatype IpcStatus = LiteIpcOk | LiteIpcEinval

  datatype SvcIdentity = SvcIdentity(handle: int, token: int)

  /** A StartAbilityCallback function pointer. */
  datatype CallbackId = CallbackId(id: nat)

  datatype ElementName = ElementName(bundleName: string, abilityName: string)

  /** The parts of a Want this file sets: its element and its service identity. */
  datatype WantValue = WantValue(element: Option<ElementName>, sid: Option<SvcIdentity>)

  const EmptyWant := WantValue(None, None)

  datatype Setter = SetElementBundleName | SetElementAbilityName | SetWantElement | SetWantSvcIdentity

  /** getuid() compared with the two uids the file knows. */
  datatype CallerUid = FoundationUid | ShellUid | OtherUid

  datatype LaunchPath =
    | AmsInterfaceStart   // amsInterface->StartAbility, inside the foundation process
    | PublicStart         // the public StartAbility, over IPC

  /** An observable step of the state machine. */
  datatype Effect =
    | IpcCallbackRegistration                 // RegisterIpcCallback(AmsResultCallback, ...)
    | SetterCalled(setter: Setter, ok: bool)
    | ElementCleared                          // ClearElement
    | WantCleared                             // ClearWant
    | LauncherCalled(path: LaunchPath, want: WantValue)
    | IpcBufferFreed                          // FreeBuffer(context, ipcMsg)
    | CallbackFired(callback: CallbackId, code: DmsErrorCode)

  // ---------------------------------------------------------------------
  // Collaborator outcomes

  /** What memset_s and the four setters of FillWant report. */
  datatype FillOracle = FillOracle(
    wantZeroed: bool, elementZeroed: bool,
    bundleNameSet: bool, abilityNameSet: bool, elementSet: bool, identitySet: bool)

  /** What GetFeatureApi finds and what QueryInterface returns. */
  datatype AmsLookup = AmsLookup(featureApiFound: bool, queryStatus: int)

  /** The collaborators of one StartAbilityFromRemote call. */
  datatype InboundEnv = InboundEnv(
    registration: Option<SvcIdentity>,  // the identity RegisterIpcCallback writes, None when it fails
    fill: FillOracle,
    uid: CallerUid,
    ams: AmsLookup,
    launchStatus: int)                  // what the StartAbility that is called returns

  /** The IPC message AmsResultCallback receives. */
  datatype ResultEnvelope = ResultEnvelope(elementZeroed: bool, elementDecoded: bool, status: int)

  /** The file-scope state: g_serviceIdentity and g_onStartAbilityDone (None is NULL). */
  datatype Globals = Globals(identity: SvcIdentity, armed: Option<CallbackId>)

  const InitialGlobals := Globals(SvcIdentity(InvalidIpcHandle, InvalidIpcToken), None)

  // ---------------------------------------------------------------------
  // Specification of the inbound direction

  /** The setter outcomes in the order of FillWant's `&&` chain. */
  function SetterOutcomes(o: FillOracle): seq<bool> {
    [o.bundleNameSet, o.abilityNameSet, o.elementSet, o.identitySet]
  }

  const SetterOrder: seq<Setter> := [SetElementBundleName, SetElementAbilityName, SetWantElement, SetWantSvcIdentity]

  function FillSucceeds(o: FillOracle): bool {
    o.wantZeroed && o.elementZeroed && o.bundleNameSet && o.abilityNameSet && o.elementSet && o.identitySet
  }

  /** The setter calls of the short-circuit `&&` in FillWant. */
  function SetterChain(o: FillOracle): seq<Effect> {
    [SetterCalled(SetElementBundleName, o.bundleNameSet)]
    + if !o.bundleNameSet then [] else
      [SetterCalled(SetElementAbilityName, o.abilityNameSet)]
      + if !o.abilityNameSet then [] else
        [SetterCalled(SetWantElement, o.elementSet)]
        + if !o.elementSet then [] else
          [SetterCalled(SetWantSvcIdentity, o.identitySet)]
  }

  /** Effects of FillWant. */
  function FillEffects(o: FillOracle): seq<Effect> {
    if !o.wantZeroed || !o.elementZeroed then []
    else SetterChain(o) + [ElementCleared] + (if FillSucceeds(o) then [] else [WantCleared])
  }

  /**
   * GetAmsInterface: true exactly when the feature API is registered and
   * QueryInterface on it succeeds; QueryInterface is not consulted when
   * the feature API is missing.
   */
  function GetAmsInterface(lookup: AmsLookup): (found: bool)
    ensures !lookup.featureApiFound ==> !found
    ensures lookup.featureApiFound ==> (found <==> lookup.queryStatus == EcSuccess)
  {
    lookup.featureApiFound && lookup.queryStatus == EcSuccess
  }

  /** Whether StartAbilityFromRemoteInner reaches a launcher after a successful fill. */
  predicate Launches(env: InboundEnv) {
    match env.uid
    case FoundationUid => GetAmsInterface(env.ams)
    case ShellUid => true
    case OtherUid => false
  }

  /**
   * The code StartAbilityFromRemoteInner returns: one of four, SYNC_SUCCESS
   * exactly when the Want was filled, a launcher was reached and it
   * returned EC_SUCCESS.
   */
  function InnerCode(env: InboundEnv): (code: DmsErrorCode)
    ensures code in {FillWantFailure, GetAbilitymsFailure, StartAbilitySyncFailure, StartAbilitySyncSuccess}
    ensures code == FillWantFailure <==> !FillSucceeds(env.fill)
    ensures code == GetAbilitymsFailure <==>
      FillSucceeds(env.fill) && env.uid == FoundationUid && !GetAmsInterface(env.ams)
    ensures code == StartAbilitySyncSuccess <==>
      FillSucceeds(env.fill) && Launches(env) && env.launchStatus == EcSuccess
  {
    if !FillSucceeds(env.fill) then FillWantFailure
    else if env.uid == FoundationUid && !GetAmsInterface(env.ams) then GetAbilitymsFailure
    else
      var errCode := if env.uid == OtherUid then EcFailure else env.launchStatus;
      if errCode != EcSuccess then StartAbilitySyncFailure else StartAbilitySyncSuccess
  }

  /** The Want a successful FillWant produces. */
  function FilledWant(bundleName: string, abilityName: string, identity: SvcIdentity): WantValue {
    WantValue(Some(ElementName(bundleName, abilityName)), Some(identity))
  }

  /** Effects of the uid dispatch that follows a successful FillWant of `want`. */
  function DispatchEffects(want: WantValue, env: InboundEnv): seq<Effect> {
    match env.uid
    case FoundationUid =>
      if GetAmsInterface(env.ams) then [LauncherCalled(AmsInterfaceStart, want), WantCleared] else [WantCleared]
    case ShellUid => [LauncherCalled(PublicStart, want), WantCleared]
    case OtherUid => [WantCleared]
  }

  /** Effects of StartAbilityFromRemoteInner, `identity` being g_serviceIdentity. */
  function InnerEffects(bundleName: string, abilityName: string, identity: SvcIdentity, env: InboundEnv): seq<Effect> {
    FillEffects(env.fill)
    + if !FillSucceeds(env.fill) then [] else DispatchEffects(FilledWant(bundleName, abilityName, identity), env)
  }

  /** The outcome of one StartAbilityFromRemote call. */
  datatype Reply = Reply(next: Globals, code: DmsErrorCode, effects: seq<Effect>)

  function StartAbilityFromRemoteSpec(
    g: Globals, bundleName: Option<string>, abilityName: Option<string>,
    onDone: Option<CallbackId>, env: InboundEnv): Reply
  {
    if bundleName.None? || abilityName.None? then Reply(g, Failure, [])
    else
      var registering := g.identity.token == InvalidIpcToken;
      if registering && env.registration.None? then Reply(g, RegisteIpcCallbackFailure, [IpcCallbackRegistration])
      else
        var identity := if registering then env.registration.value else g.identity;
        var armed := if g.armed.None? then onDone else g.armed;
        Reply(
          Globals(identity, armed),
          InnerCode(env),
          (if registering then [IpcCallbackRegistration] else [])
          + InnerEffects(bundleName.value, abilityName.value, identity, env))
  }

  /**
   * The asynchronous result AmsResultCallback reports: ASYNC_SUCCESS
   * exactly when the popped status is EC_SUCCESS, ASYNC_FAILURE otherwise.
   */
  function AsyncResultCode(status: int): (code: DmsErrorCode)
    ensures code == StartAbilityAsyncSuccess <==> status == EcSuccess
    ensures code == StartAbilityAsyncFailure <==> status != EcSuccess
  {
    if status == EcSuccess then StartAbilityAsyncSuccess else StartAbilityAsyncFailure
  }

  /** The outcome of one AmsResultCallback call; it never changes the globals. */
  datatype Delivery = Delivery(status: IpcStatus, effects: seq<Effect>)

  function AmsResultCallbackSpec(armed: Option<CallbackId>, env: ResultEnvelope): Delivery {
    if armed.None? || !env.elementZeroed || !env.elementDecoded then Delivery(LiteIpcEinval, [IpcBufferFreed])
    else Delivery(LiteIpcOk, [IpcBufferFreed, ElementCleared, CallbackFired(armed.value, AsyncResultCode(env.status))])
  }

  // ---------------------------------------------------------------------
  // The stateful model

  /** A Want on the stack of StartAbilityFromRemoteInner, filled in place. */
  class Want {
    var element: Option<ElementName>
    var sid: Option<SvcIdentity>

    function Value(): WantValue
      reads this
    {
      WantValue(element, sid)
    }

    constructor ()
      ensures Value() == EmptyWant
    {
      element, sid := None, None;
    }
  }

  /** The globals of dmslite_famgr.c and the effects the file has caused so far. */
  class DmsFaManager {
    var identity: SvcIdentity          // g_serviceIdentity
    var armed: Option<CallbackId>      // g_onStartAbilityDone
    ghost var trace: seq<Effect>

    function State(): Globals
      reads this
    {
      Globals(identity, armed)
    }

    /** The static initialisers. */
    constructor ()
      ensures State() == InitialGlobals && trace == []
    {
      identity := SvcIdentity(InvalidIpcHandle, InvalidIpcToken);
      armed := None;
      trace := [];
    }

    /** ClearWant. */
    method ClearWant(want: Want)
      modifies this`trace, want
      ensures want.Value() == EmptyWant && trace == old(trace) + [WantCleared]
    {
      want.element, want.sid := None, None;
      trace := trace + [WantCleared];
    }

    /**
     * AmsResultCallback: frees the message first, then fires the armed
     * callback with the mapped status once the element deserialises.
     */
    method AmsResultCallback(env: ResultEnvelope) returns (r: IpcStatus)
      modifies this`trace
      ensures r == AmsResultCallbackSpec(armed, env).status
      ensures trace == old(trace) + AmsResultCallbackSpec(armed, env).effects
    {
      trace := trace + [IpcBufferFreed];
      if armed == None {
        return LiteIpcEinval;
      }
      if !env.elementZeroed {
        return LiteIpcEinval;
      }
      if !env.elementDecoded {
        return LiteIpcEinval;
      }
      trace := trace + [ElementCleared];
      var errCode := StartAbilityAsyncFailure;
      if env.status == EcSuccess {
        errCode := StartAbilityAsyncSuccess;
      }
      trace := trace + [CallbackFired(armed.value, errCode)];
      return LiteIpcOk;
    }

    /**
     * FillWant: zeroes the Want and a local element, then sets bundle
     * name, ability name, the Want's element and its service identity,
     * stopping at the first setter that fails; on failure the Want is
     * cleared again.
     */
    method FillWant(want: Want, bundleName: string, abilityName: string, o: FillOracle) returns (code: DmsErrorCode)
      modifies this`trace, want
      ensures code == (if FillSucceeds(o) then Success else Failure)
      ensures trace == old(trace) + FillEffects(o)
      ensures FillSucceeds(o) ==> want.Value() == FilledWant(bundleName, abilityName, identity)
      ensures !FillSucceeds(o) ==> want.Value() == (if o.wantZeroed then EmptyWant else old(want.Value()))
    {
      if !o.wantZeroed {
        return Failure;
      }
      want.element, want.sid := None, None;
      if !o.elementZeroed {
        return Failure;
      }
      var allSet := false;
      trace := trace + [SetterCalled(SetElementBundleName, o.bundleNameSet)];
      if o.bundleNameSet {
        trace := trace + [SetterCalled(SetElementAbilityName, o.abilityNameSet)];
        if o.abilityNameSet {
          trace := trace + [SetterCalled(SetWantElement, o.elementSet)];
          if o.elementSet {
            want.element := Some(ElementName(bundleName, abilityName));
            trace := trace + [SetterCalled(SetWantSvcIdentity, o.identitySet)];
            if o.identitySet {
              want.sid := Some(identity);
              allSet := true;
            }
          }
        }
      }
      trace := trace + [ElementCleared];
      if !allSet {
        ClearWant(want);
        return Failure;
      }
      return Success;
    }

    /** StartAbilityFromRemoteInner: fill a Want, dispatch by caller uid, clear the Want. */
    method StartAbilityFromRemoteInner(bundleName: string, abilityName: string, env: InboundEnv)
      returns (code: DmsErrorCode)
      modifies this`trace
      ensures code == InnerCode(env)
      ensures trace == old(trace) + InnerEffects(bundleName, abilityName, identity, env)
    {
      var want := new Want();
      var filled := FillWant(want, bundleName, abilityName, env.fill);
      if filled != Success {
        return FillWantFailure;
      }
      var errCode: int;
      if env.uid == FoundationUid {
        if !GetAmsInterface(env.ams) {
          ClearWant(want);
          return GetAbilitymsFailure;
        }
        trace := trace + [LauncherCalled(AmsInterfaceStart, want.Value())];
        errCode := env.launchStatus;
      } else if env.uid == ShellUid {
        trace := trace + [LauncherCalled(PublicStart, want.Value())];
        errCode := env.launchStatus;
      } else {
        errCode := EcFailure;
      }
      ClearWant(want);
      if errCode != EcSuccess {
        return StartAbilitySyncFailure;
      }
      return StartAbilitySyncSuccess;
    }

    /**
     * StartAbilityFromRemote: NULL check, lazy IPC registration, first-wins
     * arming, then the inner launch.
     */
    method StartAbilityFromRemote(
      bundleName: Option<string>, abilityName: Option<string>, onDone: Option<CallbackId>, env: InboundEnv)
      returns (code: DmsErrorCode)
      modifies this
      ensures var reply := StartAbilityFromRemoteSpec(old(State()), bundleName, abilityName, onDone, env);
        State() == reply.next && code == reply.code && trace == old(trace) + reply.effects
    {
      if bundleName == None || abilityName == None {
        return Failure;
      }
      if identity.token == InvalidIpcToken {
        trace := trace + [IpcCallbackRegistration];
        if env.registration == None {
          return RegisteIpcCallbackFailure;
        }
        identity := env.registration.value;
      }
      if armed == None {
        armed := onDone;
      }
      code := StartAbilityFromRemoteInner(bundleName.value, abilityName.value, env);
    }
  }

  // ---------------------------------------------------------------------
  // Outbound direction

  /** The parts of the Want StartRemoteAbility reads: `data` (the caller's bundle name) and `element`. */
  datatype RemoteWant = RemoteWant(data: Option<string>, element: Option<ElementName>)

  /** The collaborators of one StartRemoteAbility call. */
  datatype OutboundEnv = OutboundEnv(
    bundleInfoZeroed: bool,   // memset_s of the BundleInfo
    appId: Option<string>,    // bundleInfo.appId after GetBundleInfo
    marshallOk: seq<bool>,    // the outcomes of the successive Marshall calls
    sendStatus: int)          // what SendDmsMessage returns

  /** What StartRemoteAbility returns. */
  datatype OutboundStatus =
    | Dms(code: DmsErrorCode)
    | HelperAborted            // the -1 of a marshalling helper
    | Transport(status: int)   // SendDmsMessage's result

  /** The start-ability packet, field by field, in the order it is marshalled. */
  function StartFaFields(element: ElementName, appId: Option<string>): (fields: seq<Field>)
    ensures |fields| == 5
    ensures [fields[0].tag, fields[1].tag, fields[2].tag, fields[3].tag, fields[4].tag]
         == [CommandId, CalleeBundleName, CalleeAbilityName, CallerSignature, DmsVersion]
    ensures fields[1].StringField? && fields[1].text == element.bundleName
    ensures fields[2].StringField? && fields[2].text == element.abilityName
    ensures fields[3].StringField? && fields[3].text == (if appId.Some? then appId.value else "")
    ensures fields[0] == Uint16Field(CommandId, DmsMsgCmdStartFa) && fields[4] == Uint16Field(DmsVersion, DmsVersionValue)
  {
    [ Uint16Field(CommandId, DmsMsgCmdStartFa),
      StringField(CalleeBundleName, element.bundleName),
      StringField(CalleeAbilityName, element.abilityName),
      StringField(CallerSignature, appId.GetOr("")),
      Uint16Field(DmsVersion, DmsVersionValue) ]
  }

  predicate ValidRemoteWant(want: Option<RemoteWant>) {
    want.Some? && want.value.data.Some? && want.value.element.Some?
  }

  /**
   * StartRemoteAbility (the non-test build): rejects a missing Want, data
   * or element before touching the builder; otherwise prepares a packet,
   * marshals the five fields in order with the fail-fast helpers and, only
   * when all five were written, hands the packet to SendDmsMessage
   * (`sent` is what it is handed).
   */
  method StartRemoteAbility(b: PacketBuilder, want: Option<RemoteWant>, env: OutboundEnv)
    returns (status: OutboundStatus, sent: Option<seq<Field>>)
    requires |env.marshallOk| == 5
    modifies b
    ensures !ValidRemoteWant(want) ==>
      status == Dms(InvalidParameter) && sent.None? && b.log == old(b.log) && b.fields == old(b.fields)
    ensures ValidRemoteWant(want) && !env.bundleInfoZeroed ==>
      status == Dms(Failure) && sent.None? && b.log == old(b.log) && b.fields == old(b.fields)
    ensures ValidRemoteWant(want) && env.bundleInfoZeroed ==>
      var fields := StartFaFields(want.value.element.value, env.appId);
      && b.log == old(b.log) + [Prepared] + HelperChainLog(fields, env.marshallOk)
      && (FirstFailure(env.marshallOk) == |fields| ==>
            status == Transport(env.sendStatus) && sent == Some(fields) && b.fields == fields)
      && (FirstFailure(env.marshallOk) < |fields| ==>
            status == HelperAborted && sent.None? && b.fields == [])
  {
    if want == None || want.value.data == None || want.value.element == None {
      return Dms(InvalidParameter), None;
    }
    if !env.bundleInfoZeroed {
      return Dms(Failure), None;
    }
    var fields := StartFaFields(want.value.element.value, env.appId);
    b.PrepareBuild();
    var ret := MarshallFields(b, fields, env.marshallOk);
    if ret != 0 {
      return HelperAborted, None;
    }
    assert b.fields == fields;
    return Transport(env.sendStatus), Some(b.fields);
  }

  // ---------------------------------------------------------------------
  // Properties of one call

  /** A NULL bundle or ability name fails with DMS_EC_FAILURE and has no effect at all. */
  lemma NullNameHasNoEffect(
    g: Globals, bundleName: Option<string>, abilityName: Option<string>, onDone: Option<CallbackId>, env: InboundEnv)
    requires bundleName.None? || abilityName.None?
    ensures StartAbilityFromRemoteSpec(g, bundleName, abilityName, onDone, env) == Reply(g, Failure, [])
  {
  }

  /**
   * IPC registration is attempted exactly when both names are present and
   * the token is still INVALID_IPC_TOKEN; when it fails the call returns
   * REGISTE_IPC_CALLBACK_FAILURE with nothing armed and nothing launched.
   */
  lemma RegistrationOnlyWhileTokenInvalid(
    g: Globals, bundleName: Option<string>, abilityName: Option<string>, onDone: Option<CallbackId>, env: InboundEnv)
    ensures var r := StartAbilityFromRemoteSpec(g, bundleName, abilityName, onDone, env);
      (IpcCallbackRegistration in r.effects) <==>
        (bundleName.Some? && abilityName.Some? && g.identity.token == InvalidIpcToken)
    ensures var r := StartAbilityFromRemoteSpec(g, bundleName, abilityName, onDone, env);
      bundleName.Some? && abilityName.Some? && g.identity.token == InvalidIpcToken && env.registration.None? ==>
        r == Reply(g, RegisteIpcCallbackFailure, [IpcCallbackRegistration])
  {
    var r := StartAbilityFromRemoteSpec(g, bundleName, abilityName, onDone, env);
    if bundleName.Some? && abilityName.Some? && !(g.identity.token == InvalidIpcToken && env.registration.None?) {
      var identity := if g.identity.token == InvalidIpcToken then env.registration.value else g.identity;
      InnerEffectsKinds(bundleName.value, abilityName.value, identity, env);
    }
  }

  /**
   * Arming is first-wins: an armed callback is kept whatever happens; an
   * empty slot takes `onDone` once the names and the registration are
   * good, before the launch, even when the launch then fails.
   */
  lemma ArmingIsFirstWins(
    g: Globals, bundleName: Option<string>, abilityName: Option<string>, onDone: Option<CallbackId>, env: InboundEnv)
    ensures var r := StartAbilityFromRemoteSpec(g, bundleName, abilityName, onDone, env);
      r.next.armed == (
        if g.armed.Some? then g.armed
        else if bundleName.None? || abilityName.None? then None
        else if g.identity.token == InvalidIpcToken && env.registration.None? then None
        else onDone)
  {
  }

  /**
   * The effects other than setter calls that StartAbilityFromRemoteInner
   * can have: it never registers, never frees an IPC buffer and never
   * fires a callback.
   */
  lemma InnerEffectsKinds(bundleName: string, abilityName: string, identity: SvcIdentity, env: InboundEnv)
    ensures forall e | e in InnerEffects(bundleName, abilityName, identity, env) ::
      e.SetterCalled? || e == ElementCleared || e == WantCleared || e.LauncherCalled?
  {
  }

  /**
   * Uid dispatch after a successful fill: the foundation uid launches
   * through the AMS interface (when the lookup succeeds), the shell uid
   * through the public StartAbility, with the filled Want; any other uid
   * calls no launcher and gets SYNC_FAILURE.
   */
  lemma UidDispatch(bundleName: string, abilityName: string, identity: SvcIdentity, env: InboundEnv)
    requires FillSucceeds(env.fill)
    ensures var effects := InnerEffects(bundleName, abilityName, identity, env);
      var want := FilledWant(bundleName, abilityName, identity);
      && (env.uid == FoundationUid && GetAmsInterface(env.ams) ==> LauncherCalled(AmsInterfaceStart, want) in effects)
      && (env.uid == ShellUid ==> LauncherCalled(PublicStart, want) in effects)
      && (forall e | e in effects && e.LauncherCalled? ::
            e.want == want && (e.path == AmsInterfaceStart <==> env.uid == FoundationUid))
      && (env.uid == OtherUid ==>
            (forall e | e in effects :: !e.LauncherCalled?) && InnerCode(env) == StartAbilitySyncFailure)
      && (env.uid == FoundationUid && !GetAmsInterface(env.ams) ==>
            forall e | e in effects :: !e.LauncherCalled?)
      && (Launches(env) ==>
            multiset(effects)[LauncherCalled(if env.uid == FoundationUid then AmsInterfaceStart else PublicStart, want)] == 1)
  {
    var fill := FillEffects(env.fill);
    assert forall e | e in fill :: !e.LauncherCalled?;
  }

  /**
   * FillWant's setters short-circuit: with k the first failing setter,
   * exactly the setters up to and including k are called, in their order;
   * both element and Want are cleared on a setter failure and only the
   * element on success.
   */
  lemma {:induction false} FillWantShortCircuits(o: FillOracle)
    requires o.wantZeroed && o.elementZeroed
    ensures var k := FirstFailure(SetterOutcomes(o));
      var calls := SetterChain(o);
      && |calls| == (if k < 4 then k + 1 else 4)
      && (forall i :: 0 <= i < |calls| ==> calls[i] == SetterCalled(SetterOrder[i], SetterOutcomes(o)[i]))
      && FillEffects(o) == calls + [ElementCleared] + (if k < 4 then [WantCleared] else [])
  {
    var outs := SetterOutcomes(o);
    var k := FirstFailure(outs);
    var o1 := outs[1..];
    var o2 := o1[1..];
    var o3 := o2[1..];
    assert o1 == [o.abilityNameSet, o.elementSet, o.identitySet];
    assert o2 == [o.elementSet, o.identitySet];
    assert o3 == [o.identitySet];
    if !o.bundleNameSet {
      assert k == 0;
    } else if !o.abilityNameSet {
      assert k == 1 + FirstFailure(o1) == 1;
    } else if !o.elementSet {
      assert k == 1 + FirstFailure(o1) == 2 + FirstFailure(o2) == 2;
    } else if !o.identitySet {
      assert k == 1 + FirstFailure(o1) == 2 + FirstFailure(o2) == 3 + FirstFailure(o3) == 3;
    } else {
      assert o3[1..] == [];
      assert k == 1 + FirstFailure(o1) == 2 + FirstFailure(o2) == 3 + FirstFailure(o3) == 4;
    }
  }

  /** FillWant clears the Want once when a setter fails after both memsets, and otherwise never. */
  lemma FillClearsWantOnFailure(o: FillOracle)
    ensures multiset(FillEffects(o))[WantCleared] ==
      (if o.wantZeroed && o.elementZeroed && !FillSucceeds(o) then 1 else 0)
  {
    if o.wantZeroed && o.elementZeroed {
      var chain := SetterChain(o);
      assert WantCleared !in chain;
      var cleared := if FillSucceeds(o) then [] else [WantCleared];
      assert FillEffects(o) == chain + [ElementCleared] + cleared;
      assert multiset(FillEffects(o)) == multiset(chain) + multiset{ElementCleared} + multiset(cleared);
    }
  }

  /**
   * On every exit of StartAbilityFromRemoteInner after both memsets, the
   * Want is cleared exactly once; when a memset fails it is never cleared.
   */
  lemma WantClearedOnce(bundleName: string, abilityName: string, identity: SvcIdentity, env: InboundEnv)
    ensures var effects := InnerEffects(bundleName, abilityName, identity, env);
      multiset(effects)[WantCleared] == (if env.fill.wantZeroed && env.fill.elementZeroed then 1 else 0)
  {
    var fill := FillEffects(env.fill);
    FillClearsWantOnFailure(env.fill);
    if FillSucceeds(env.fill) {
      var dispatch := DispatchEffects(FilledWant(bundleName, abilityName, identity), env);
      assert multiset(dispatch)[WantCleared] == 1;
      assert multiset(fill + dispatch) == multiset(fill) + multiset(dispatch);
    } else {
      assert InnerEffects(bundleName, abilityName, identity, env) == fill + [];
    }
  }

  /** The callbacks fired in `effects`, in order, with the code each was given. */
  function Fired(effects: seq<Effect>): seq<(CallbackId, DmsErrorCode)>
    decreases |effects|
  {
    if |effects| == 0 then []
    else (if effects[0].CallbackFired? then [(effects[0].callback, effects[0].code)] else []) + Fired(effects[1..])
  }

  /**
   * AmsResultCallback always frees the message first; when a callback is
   * armed and the element deserialises it fires exactly that callback,
   * once, with ASYNC_SUCCESS or ASYNC_FAILURE by the popped status and
   * returns LITEIPC_OK, and otherwise fires nothing and returns
   * LITEIPC_EINVAL.
   */
  lemma ResultDeliveredOnce(armed: Option<CallbackId>, env: ResultEnvelope)
    ensures var d := AmsResultCallbackSpec(armed, env);
      && |d.effects| >= 1 && d.effects[0] == IpcBufferFreed
      && (d.status == LiteIpcOk <==> armed.Some? && env.elementZeroed && env.elementDecoded)
      && Fired(d.effects) == (if d.status == LiteIpcOk then [(armed.value, AsyncResultCode(env.status))] else [])
  {
    var d := AmsResultCallbackSpec(armed, env);
    var e1 := d.effects[1..];
    if d.status == LiteIpcOk {
      var fired := CallbackFired(armed.value, AsyncResultCode(env.status));
      assert e1 == [ElementCleared, fired];
      assert e1[1..] == [fired];
      assert e1[1..][1..] == [];
      assert Fired(d.effects) == Fired(e1) == Fired(e1[1..]) == [(armed.value, AsyncResultCode(env.status))];
    } else {
      assert e1 == [];
      assert Fired(d.effects) == Fired(e1) == [];
    }
  }

  // ---------------------------------------------------------------------
  // Properties of a run of calls

  /** An entry point called from outside the file. */
  datatype Call =
    | FromRemote(bundleName: Option<string>, abilityName: Option<string>, onDone: Option<CallbackId>, env: InboundEnv)
    | ResultDelivered(envelope: ResultEnvelope)

  function StepGlobals(g: Globals, c: Call): Globals {
    match c
    case FromRemote(b, a, cb, env) => StartAbilityFromRemoteSpec(g, b, a, cb, env).next
    case ResultDelivered(_) => g
  }

  function StepEffects(g: Globals, c: Call): seq<Effect> {
    match c
    case FromRemote(b, a, cb, env) => StartAbilityFromRemoteSpec(g, b, a, cb, env).effects
    case ResultDelivered(envelope) => AmsResultCallbackSpec(g.armed, envelope).effects
  }

  /** The globals after the calls, in order. */
  function RunGlobals(g: Globals, calls: seq<Call>): Globals
    decreases |calls|
  {
    if |calls| == 0 then g else RunGlobals(StepGlobals(g, calls[0]), calls[1..])
  }

  /** The effects of the calls, in order. */
  function RunEffects(g: Globals, calls: seq<Call>): seq<Effect>
    decreases |calls|
  {
    if |calls| == 0 then [] else StepEffects(g, calls[0]) + RunEffects(StepGlobals(g, calls[0]), calls[1..])
  }

  /** Once a callback is armed, no later call replaces or clears it. */
  lemma {:induction false} ArmedCallbackIsPermanent(g: Globals, calls: seq<Call>)
    requires g.armed.Some?
    ensures RunGlobals(g, calls).armed == g.armed
    decreases |calls|
  {
    if |calls| > 0 {
      ArmedCallbackIsPermanent(StepGlobals(g, calls[0]), calls[1..]);
    }
  }

  /** Once a callback is armed, every completion that fires afterwards goes to it. */
  lemma {:induction false} OnlyArmedCallbackFires(g: Globals, calls: seq<Call>)
    requires g.armed.Some?
    ensures forall e | e in RunEffects(g, calls) && e.CallbackFired? :: e.callback == g.armed.value
    decreases |calls|
  {
    if |calls| > 0 {
      var c := calls[0];
      var g' := StepGlobals(g, c);
      OnlyArmedCallbackFires(g', calls[1..]);
      match c {
        case FromRemote(b, a, cb, env) =>
          if b.Some? && a.Some? && !(g.identity.token == InvalidIpcToken && env.registration.None?) {
            var identity := if g.identity.token == InvalidIpcToken then env.registration.value else g.identity;
            InnerEffectsKinds(b.value, a.value, identity, env);
          }
        case ResultDelivered(_) =>
      }
    }
  }

  /**
   * Once the token is valid, the identity never changes and no call
   * registers with the IPC runtime again.
   */
  lemma {:induction false} RegistrationIsPermanent(g: Globals, calls: seq<Call>)
    requires g.identity.token != InvalidIpcToken
    ensures RunGlobals(g, calls).identity == g.identity
    ensures IpcCallbackRegistration !in RunEffects(g, calls)
    decreases |calls|
  {
    if |calls| > 0 {
      var c := calls[0];
      RegistrationIsPermanent(StepGlobals(g, c), calls[1..]);
      match c {
        case FromRemote(b, a, cb, env) =>
          if b.Some? && a.Some? {
            InnerEffectsKinds(b.value, a.value, g.identity, env);
          }
        case ResultDelivered(_) =>
      }
    }
  }
}
