/**
 * The exporter's single session to the queue manager: the connection properties
 * built from the configuration, the session lifecycle (establish, close), the
 * lazily created dynamic reply queue and the topic subscriptions opened on it.
 *
 * The lifecycle is specified by pure step functions over `State`; the class
 * `MQConnection` holds the two process-wide fields of the Java class and each of
 * its methods is proved to perform exactly the corresponding step. Replies of the
 * queue manager (a connect, a disconnect, an open of a queue or a topic) are
 * parameters of type `Reply`.
 */
module MQConnection {
  import opened Wrappers
  import opened MQConstants

  // ---------------------------------------------------------------------------
  // Connection properties
  // ---------------------------------------------------------------------------

  /** The property keys the exporter may put into the connection properties. */
  datatype PropKey =
    | Transport | HostName | Port | ChannelName | UseMqcspAuthentication
    | UserId | Password | SslCipherSuite | SslSocketFactory

  /** The key string each property is stored under by the IBM MQ classes for Java. */
  function KeyName(k: PropKey): (s: string)
  {
    match k
    case Transport => TRANSPORT_PROPERTY
    case HostName => HOST_NAME_PROPERTY
    case Port => PORT_PROPERTY
    case ChannelName => CHANNEL_PROPERTY
    case UseMqcspAuthentication => USE_MQCSP_AUTHENTICATION_PROPERTY
    case UserId => USER_ID_PROPERTY
    case Password => PASSWORD_PROPERTY
    case SslCipherSuite => SSL_CIPHER_SUITE_PROPERTY
    case SslSocketFactory => SSL_SOCKET_FACTORY_PROPERTY
  }

  /** No two properties share a key string, so no `put` overwrites another property. */
  lemma KeyNamesDistinct(k1: PropKey, k2: PropKey)
    ensures KeyName(k1) == KeyName(k2) ==> k1 == k2
  {
  }

  /** TLS settings of the configuration. */
  datatype SecurityProperties = SecurityProperties(
    useTLS: bool,
    cipherSuite: string,
    sslProtocol: string,
    keystorePath: string,
    keystorePassword: string,
    truststorePath: string,
    truststorePassword: string)

  /**
   * The socket factory built from the key store and trust store; it stands for
   * the SSL context that is loaded from the files, whose loading is not modelled.
   */
  datatype SocketFactory = SocketFactory(
    sslProtocol: string,
    keystorePath: string,
    keystorePassword: string,
    truststorePath: string,
    truststorePassword: string)

  function SslSocketFactoryFor(sec: SecurityProperties): (f: SocketFactory)
  {
    SocketFactory(sec.sslProtocol, sec.keystorePath, sec.keystorePassword,
                  sec.truststorePath, sec.truststorePassword)
  }

  /** A property value: a string, an int, a boolean or the socket factory. */
  datatype PropVal = StrVal(s: string) | IntVal(i: int) | BoolVal(b: bool) | FactoryVal(factory: SocketFactory)

  type Properties = map<PropKey, PropVal>

  /** The connection settings of the configuration; `None` is an unset (null) value. */
  datatype Config = Config(
    qmgrHost: Option<string>,
    qmgrPort: int,
    qmgrChannel: Option<string>,
    user: Option<string>,
    password: Option<string>,
    useMqcsp: bool,
    securityProperties: Option<SecurityProperties>)

  predicate UsesTls(config: Config)
  {
    config.securityProperties.Some? && config.securityProperties.value.useTLS
  }

  /** Adds `k := v` when `present` holds, as one guarded `put`. */
  function PutIf(props: Properties, present: bool, k: PropKey, v: PropVal): (r: Properties)
  {
    if present then props[k := v] else props
  }

  /**
   * The connection properties of `config`. A key is present exactly when the
   * configuration value behind it was set; the transport key is always present.
   */
  function CreateMQConnectionParams(config: Config): (props: Properties)
    ensures Transport in props
    ensures props[Transport]
      == StrVal(if config.qmgrHost.None? then TRANSPORT_MQSERIES_BINDINGS else TRANSPORT_MQSERIES_CLIENT)
    ensures HostName in props <==> config.qmgrHost.Some?
    ensures HostName in props ==> props[HostName] == StrVal(config.qmgrHost.value)
    ensures Port in props <==> config.qmgrPort != 0
    ensures Port in props ==> props[Port] == IntVal(config.qmgrPort)
    ensures ChannelName in props <==> config.qmgrChannel.Some?
    ensures ChannelName in props ==> props[ChannelName] == StrVal(config.qmgrChannel.value)
    ensures UseMqcspAuthentication in props <==> config.user.Some? || config.password.Some?
    ensures UseMqcspAuthentication in props ==> props[UseMqcspAuthentication] == BoolVal(config.useMqcsp)
    ensures UserId in props <==> config.user.Some?
    ensures UserId in props ==> props[UserId] == StrVal(config.user.value)
    ensures Password in props <==> config.password.Some?
    ensures Password in props ==> props[Password] == StrVal(config.password.value)
    ensures SslCipherSuite in props <==> UsesTls(config)
    ensures SslCipherSuite in props ==> props[SslCipherSuite] == StrVal(config.securityProperties.value.cipherSuite)
    ensures SslSocketFactory in props <==> UsesTls(config)
    ensures SslSocketFactory in props
      ==> props[SslSocketFactory] == FactoryVal(SslSocketFactoryFor(config.securityProperties.value))
  {
    var host := config.qmgrHost;
    var p := map[Transport := StrVal(if host.None? then TRANSPORT_MQSERIES_BINDINGS else TRANSPORT_MQSERIES_CLIENT)];
    var p := PutIf(p, host.Some?, HostName, StrVal(if host.Some? then host.value else ""));
    var p := PutIf(p, config.qmgrPort != 0, Port, IntVal(config.qmgrPort));
    var p := PutIf(p, config.qmgrChannel.Some?, ChannelName,
                   StrVal(if config.qmgrChannel.Some? then config.qmgrChannel.value else ""));
    var p :=
      if config.user.Some? || config.password.Some? then
        var a := p[UseMqcspAuthentication := BoolVal(config.useMqcsp)];
        var a := PutIf(a, config.user.Some?, UserId, StrVal(if config.user.Some? then config.user.value else ""));
        PutIf(a, config.password.Some?, Password, StrVal(if config.password.Some? then config.password.value else ""))
      else p;
    if UsesTls(config) then
      var sec := config.securityProperties.value;
      p[SslCipherSuite := StrVal(sec.cipherSuite)][SslSocketFactory := FactoryVal(SslSocketFactoryFor(sec))]
    else p
  }

  /** The connection properties tell back every setting they were built from. */
  lemma ParamsDetermineSettings(c1: Config, c2: Config)
    requires CreateMQConnectionParams(c1) == CreateMQConnectionParams(c2)
    ensures c1.qmgrHost == c2.qmgrHost && c1.qmgrPort == c2.qmgrPort && c1.qmgrChannel == c2.qmgrChannel
    ensures c1.user == c2.user && c1.password == c2.password
    ensures c1.user.Some? || c1.password.Some? ==> c1.useMqcsp == c2.useMqcsp
    ensures UsesTls(c1) <==> UsesTls(c2)
    ensures UsesTls(c1) ==>
      c1.securityProperties.value.cipherSuite == c2.securityProperties.value.cipherSuite &&
      SslSocketFactoryFor(c1.securityProperties.value) == SslSocketFactoryFor(c2.securityProperties.value)
  {
  }

  /** A client connection to host "qm1" with nothing else set carries only the transport and the host. */
  lemma ClientHostOnlyScenario()
    ensures CreateMQConnectionParams(Config(Some("qm1"), 0, None, None, None, false, None))
      == map[Transport := StrVal("MQSeries Client"), HostName := StrVal("qm1")]
  {
  }

  // ---------------------------------------------------------------------------
  // Session lifecycle: the specification
  // ---------------------------------------------------------------------------

  /** What the queue manager answered to one call: a value, or an MQException with its reason code. */
  datatype Reply<T> = Granted(value: T) | Raised(reason: int)

  /**
   * What an operation gives its caller: a value, an MQException passed on with its
   * reason, the process exit on handle exhaustion, or the NullPointerException of
   * using a session that was never established.
   */
  datatype Result<T> = Ok(value: T) | Err(reason: int) | Fatal | NullQueueManager

  /** The session object: the queue manager name, the properties it was opened with, and whether it is connected. */
  datatype QueueManager = QueueManager(name: string, properties: Properties, connected: bool)

  const DYNAMIC_MODEL_QUEUE: string := "SYSTEM.NDURABLE.MODEL.QUEUE"
  const DYNAMIC_QUEUE_NAME: string := "MQEXPORTER.*"

  /** An open queue: its handle, the model queue and dynamic name it was opened with, and its open options. */
  datatype Queue = Queue(handle: nat, modelQueue: string, dynamicQueueName: string, openOptions: int)

  /** An open topic: handle, topic string, topic name, the queue its publications go to (if any), options. */
  datatype Topic = Topic(
    handle: nat,
    topicString: string,
    topicName: string,
    openAs: Option<int>,
    destination: Option<Queue>,
    options: int)

  /** The open options of the dynamic reply queue. */
  function DynamicQueueOptions(): (options: int)
  {
    BitOr(MQOO_INPUT_AS_Q_DEF, MQOO_FAIL_IF_QUIESCING)
  }

  /** The subscription options of an unbound (managed, non-durable) topic. */
  function ManagedSubscriptionOptions(): (options: int)
  {
    BitOr(BitOr(MQSO_CREATE, MQSO_NON_DURABLE), MQSO_MANAGED)
  }

  /** The dynamic reply queue opened under `handle`. */
  function DynamicQueue(handle: nat): (q: Queue)
  {
    Queue(handle, DYNAMIC_MODEL_QUEUE, DYNAMIC_QUEUE_NAME, DynamicQueueOptions())
  }

  /**
   * The two process-wide fields, plus ghost counters of the connect attempts, of
   * the dynamic queues created and of the topic opens issued.
   */
  datatype State = State(
    queueManager: Option<QueueManager>,
    dynamicQueue: Option<Queue>,
    connectCount: nat,
    queueCreateCount: nat,
    topicAccessCount: nat)

  /** The state at process start: both fields null. */
  const Initial: State := State(None, None, 0, 0, 0)

  predicate Connected(s: State)
  {
    s.queueManager.Some? && s.queueManager.value.connected
  }

  /**
   * The session invariant: at most one reply queue has been created, it exists
   * exactly when one was created, and it was opened on an established session.
   */
  predicate Invariant(s: State)
  {
    s.queueCreateCount <= 1 &&
    (s.dynamicQueue.Some? <==> s.queueCreateCount == 1) &&
    (s.dynamicQueue.Some? ==> s.queueManager.Some?) &&
    (s.queueManager.Some? ==> s.connectCount >= 1)
  }

  /** `establish`: connect only when there is no session or it is not connected. */
  function EstablishStep(s: State, qmName: string, props: Properties, connect: Reply<()>): (r: (State, Result<()>))
    ensures Connected(s) ==> r == (s, Ok(()))
    ensures !Connected(s) ==> r.0.connectCount == s.connectCount + 1
    ensures !Connected(s) && connect.Granted? ==>
      r.0.queueManager == Some(QueueManager(qmName, props, true)) && r.1 == Ok(())
    ensures connect.Raised? ==> r.0.queueManager == s.queueManager
    ensures !Connected(s) && connect.Raised? ==> r.1 == Err(connect.reason)
    ensures Connected(r.0) <==> Connected(s) || connect.Granted?
    ensures r.0.dynamicQueue == s.dynamicQueue && r.0.queueCreateCount == s.queueCreateCount
    ensures r.0.topicAccessCount == s.topicAccessCount
  {
    if s.queueManager.None? || !s.queueManager.value.connected then
      var s := s.(connectCount := s.connectCount + 1);
      match connect
      case Granted(_) => (s.(queueManager := Some(QueueManager(qmName, props, true))), Ok(()))
      case Raised(reason) => (s, Err(reason))
    else
      (s, Ok(()))
  }

  /** `close`: disconnect only a connected session; a failing disconnect is swallowed. */
  function CloseStep(s: State, disconnect: Reply<()>): (r: State)
    ensures !Connected(s) ==> r == s
    ensures Connected(s) && disconnect.Granted? ==>
      r.queueManager == Some(s.queueManager.value.(connected := false)) && !Connected(r)
    ensures disconnect.Raised? ==> r == s
    ensures r.dynamicQueue == s.dynamicQueue && r.connectCount == s.connectCount
    ensures r.queueCreateCount == s.queueCreateCount && r.topicAccessCount == s.topicAccessCount
  {
    if s.queueManager.Some? && s.queueManager.value.connected then
      match disconnect
      case Granted(_) => s.(queueManager := Some(s.queueManager.value.(connected := false)))
      case Raised(_) => s
    else
      s
  }

  /** `getQueue`: the existing reply queue, or a newly opened one when there is none yet. */
  function GetQueueStep(s: State, access: Reply<nat>): (r: (State, Result<Queue>))
    ensures s.dynamicQueue.Some? ==> r == (s, Ok(s.dynamicQueue.value))
    ensures s.dynamicQueue.None? && s.queueManager.None? ==> r == (s, NullQueueManager)
    ensures s.dynamicQueue.None? && s.queueManager.Some? && access.Granted? ==>
      r.0 == s.(dynamicQueue := Some(DynamicQueue(access.value)), queueCreateCount := s.queueCreateCount + 1) &&
      r.1 == Ok(DynamicQueue(access.value))
    ensures s.dynamicQueue.None? && s.queueManager.Some? && access.Raised? ==> r == (s, Err(access.reason))
    ensures r.1.Ok? ==> r.0.dynamicQueue == Some(r.1.value)
    ensures !r.1.Fatal?
  {
    if s.dynamicQueue.None? then
      if s.queueManager.None? then (s, NullQueueManager)
      else
        match access
        case Granted(h) =>
          (s.(dynamicQueue := Some(DynamicQueue(h)), queueCreateCount := s.queueCreateCount + 1), Ok(DynamicQueue(h)))
        case Raised(reason) => (s, Err(reason))
    else
      (s, Ok(s.dynamicQueue.value))
  }

  /** `createTopic`: one managed subscription open per call; nothing is cached. */
  function CreateTopicStep(s: State, topic: string, access: Reply<nat>): (r: (State, Result<Topic>))
    ensures s.queueManager.None? ==> r == (s, NullQueueManager)
    ensures s.queueManager.Some? ==> r.0 == s.(topicAccessCount := s.topicAccessCount + 1)
    ensures s.queueManager.Some? && access.Granted? ==>
      r.1 == Ok(Topic(access.value, topic, "", Some(MQTOPIC_OPEN_AS_SUBSCRIPTION), None, ManagedSubscriptionOptions()))
    ensures s.queueManager.Some? && access.Raised? ==> r.1 == Err(access.reason)
    ensures !r.1.Fatal?
  {
    match s.queueManager
    case None => (s, NullQueueManager)
    case Some(_) =>
      var s := s.(topicAccessCount := s.topicAccessCount + 1);
      match access
      case Granted(h) =>
        (s, Ok(Topic(h, topic, "", Some(MQTOPIC_OPEN_AS_SUBSCRIPTION), None, ManagedSubscriptionOptions())))
      case Raised(reason) => (s, Err(reason))
  }

  /** The outcome of an MQException in `createSpecificTopic`: exhausted handles end the process. */
  function Escalate<T>(reason: int): (r: Result<T>)
    ensures r.Fatal? <==> reason == MQRC_HANDLE_NOT_AVAILABLE
    ensures !r.Fatal? ==> r == Err(reason)
  {
    if reason == MQRC_HANDLE_NOT_AVAILABLE then Fatal else Err(reason)
  }

  /**
   * `createSpecificTopic`: a subscription delivering to the reply queue. Failures
   * of opening the queue or the topic are escalated by `Escalate`; none is retried.
   */
  function CreateSpecificTopicStep(s: State, topic: string, queueAccess: Reply<nat>, topicAccess: Reply<nat>)
    : (r: (State, Result<Topic>))
    ensures r.0.dynamicQueue == GetQueueStep(s, queueAccess).0.dynamicQueue
    ensures r.0.queueCreateCount == GetQueueStep(s, queueAccess).0.queueCreateCount
    ensures r.0.queueManager == s.queueManager && r.0.connectCount == s.connectCount
    ensures r.0.topicAccessCount <= s.topicAccessCount + 1
    ensures r.1.Ok? ==>
      r.0.dynamicQueue.Some? && r.1.value.destination == r.0.dynamicQueue &&
      r.1.value.topicString == topic && r.1.value.options == MQSO_CREATE &&
      topicAccess == Granted(r.1.value.handle)
    ensures s.queueManager.None? ==> r == (s, NullQueueManager)
    ensures s.queueManager.Some? && GetQueueStep(s, queueAccess).1.Ok? ==>
      r.0 == GetQueueStep(s, queueAccess).0.(topicAccessCount := s.topicAccessCount + 1) &&
      r.1 == match topicAccess
             case Granted(h) => Ok(Topic(h, topic, "", None, Some(GetQueueStep(s, queueAccess).1.value), MQSO_CREATE))
             case Raised(reason) => Escalate(reason)
    ensures s.dynamicQueue.None? && s.queueManager.Some? && queueAccess.Raised? ==>
      r == (s, Escalate(queueAccess.reason))
    ensures r.1.Fatal? ==>
      (queueAccess.Raised? && queueAccess.reason == MQRC_HANDLE_NOT_AVAILABLE) ||
      (topicAccess.Raised? && topicAccess.reason == MQRC_HANDLE_NOT_AVAILABLE)
  {
    var got := GetQueueStep(s, queueAccess);
    var s := got.0;
    match got.1
    case Ok(queue) =>
      if s.queueManager.None? then (s, NullQueueManager)
      else
        var s := s.(topicAccessCount := s.topicAccessCount + 1);
        (match topicAccess
         case Granted(h) => (s, Ok(Topic(h, topic, "", None, Some(queue), MQSO_CREATE)))
         case Raised(reason) => (s, Escalate(reason)))
    case Err(reason) => (s, Escalate(reason))
    case Fatal => (s, Fatal)
    case NullQueueManager => (s, NullQueueManager)
  }

  /** Two `establish` calls from a disconnected session, the first one succeeding, connect exactly once. */
  lemma EstablishTwiceConnectsOnce(s: State, n1: string, p1: Properties, n2: string, p2: Properties, c2: Reply<()>)
    requires !Connected(s)
    ensures var s1 := EstablishStep(s, n1, p1, Granted(())).0;
            var s2 := EstablishStep(s1, n2, p2, c2).0;
            s2.connectCount == s.connectCount + 1 && Connected(s2) && s2.queueManager == s1.queueManager
  {
  }

  // ---------------------------------------------------------------------------
  // Traces of operations
  // ---------------------------------------------------------------------------

  /** One call into the session manager, together with the replies the queue manager gives it. */
  datatype Op =
    | EstablishOp(qmName: string, properties: Properties, connect: Reply<()>)
    | CloseOp(disconnect: Reply<()>)
    | GetQueueOp(queueAccess: Reply<nat>)
    | CreateTopicOp(topic: string, topicAccess: Reply<nat>)
    | CreateSpecificTopicOp(topic: string, queueAccess: Reply<nat>, topicAccess: Reply<nat>)

  /** The state after `op`, and whether the process exited. */
  function Apply(s: State, op: Op): (r: (State, bool))
  {
    match op
    case EstablishOp(n, p, c) => (EstablishStep(s, n, p, c).0, false)
    case CloseOp(d) => (CloseStep(s, d), false)
    case GetQueueOp(a) => (GetQueueStep(s, a).0, false)
    case CreateTopicOp(t, a) => (CreateTopicStep(s, t, a).0, false)
    case CreateSpecificTopicOp(t, qa, ta) =>
      var r := CreateSpecificTopicStep(s, t, qa, ta);
      (r.0, r.1.Fatal?)
  }

  /** The state after running `ops` in order; a process exit ends the trace. */
  function Run(s: State, ops: seq<Op>): (final: State)
    decreases |ops|
  {
    if ops == [] then s
    else
      var (s', exited) := Apply(s, ops[0]);
      if exited then s' else Run(s', ops[1..])
  }

  /** The number of calls in `ops` that open a topic. */
  function TopicCalls(ops: seq<Op>): (n: nat)
    decreases |ops|
  {
    if ops == [] then 0
    else (if ops[0].CreateTopicOp? || ops[0].CreateSpecificTopicOp? then 1 else 0) + TopicCalls(ops[1..])
  }

  /** Every single step keeps the session invariant. */
  lemma ApplyKeepsInvariant(s: State, op: Op)
    requires Invariant(s)
    ensures Invariant(Apply(s, op).0)
  {
  }

  /** The session invariant holds after any trace: at most one reply queue is ever created. */
  lemma {:induction false} RunKeepsInvariant(s: State, ops: seq<Op>)
    requires Invariant(s)
    ensures Invariant(Run(s, ops))
    ensures Run(s, ops).queueCreateCount <= 1
    decreases |ops|
  {
    if ops != [] {
      ApplyKeepsInvariant(s, ops[0]);
      var (s', exited) := Apply(s, ops[0]);
      if !exited {
        RunKeepsInvariant(s', ops[1..]);
      }
    }
  }

  /** Once the reply queue exists, every later call sees the same queue. */
  lemma {:induction false} DynamicQueueNeverReplaced(s: State, ops: seq<Op>)
    requires s.dynamicQueue.Some?
    ensures Run(s, ops).dynamicQueue == s.dynamicQueue
    ensures Run(s, ops).queueCreateCount == s.queueCreateCount
    decreases |ops|
  {
    if ops != [] {
      var (s', exited) := Apply(s, ops[0]);
      if !exited {
        DynamicQueueNeverReplaced(s', ops[1..]);
      }
    }
  }

  /** Without a `close`, a connected session stays the same session and is never reconnected. */
  lemma {:induction false} SessionIsSingleton(s: State, ops: seq<Op>)
    requires Connected(s)
    requires forall i :: 0 <= i < |ops| ==> !ops[i].CloseOp?
    ensures Connected(Run(s, ops))
    ensures Run(s, ops).queueManager == s.queueManager
    ensures Run(s, ops).connectCount == s.connectCount
    decreases |ops|
  {
    if ops != [] {
      var (s', exited) := Apply(s, ops[0]);
      if !exited {
        assert forall i :: 0 <= i < |ops[1..]| ==> !ops[1..][i].CloseOp? by {
          forall i | 0 <= i < |ops[1..]| ensures !ops[1..][i].CloseOp? {
            assert ops[1..][i] == ops[i + 1];
          }
        }
        SessionIsSingleton(s', ops[1..]);
      }
    }
  }

  /** Each topic call opens at most one topic: no call retries. */
  lemma {:induction false} TopicAccessesBounded(s: State, ops: seq<Op>)
    ensures Run(s, ops).topicAccessCount <= s.topicAccessCount + TopicCalls(ops)
    decreases |ops|
  {
    if ops != [] {
      var (s', exited) := Apply(s, ops[0]);
      if !exited {
        TopicAccessesBounded(s', ops[1..]);
      }
    }
  }

  /**
   * `createSpecificTopic` ends the process exactly when the queue manager reports
   * handle exhaustion on the open it actually issued: the reply-queue open when
   * there is no reply queue yet, otherwise the topic open.
   */
  lemma FatalIffHandleExhaustion(s: State, topic: string, queueAccess: Reply<nat>, topicAccess: Reply<nat>)
    ensures CreateSpecificTopicStep(s, topic, queueAccess, topicAccess).1.Fatal? <==>
      s.queueManager.Some? &&
      ((s.dynamicQueue.None? && queueAccess == Raised(MQRC_HANDLE_NOT_AVAILABLE)) ||
       ((s.dynamicQueue.Some? || queueAccess.Granted?) && topicAccess == Raised(MQRC_HANDLE_NOT_AVAILABLE)))
  {
  }

  /** A handle-exhaustion failure in `createSpecificTopic`, on the queue or the topic open, ends the trace. */
  lemma HandleExhaustionEndsRun(s: State, topic: string, queueAccess: Reply<nat>, topicAccess: Reply<nat>, rest: seq<Op>)
    requires CreateSpecificTopicStep(s, topic, queueAccess, topicAccess).1.Fatal?
    ensures Run(s, [CreateSpecificTopicOp(topic, queueAccess, topicAccess)] + rest)
      == CreateSpecificTopicStep(s, topic, queueAccess, topicAccess).0
  {
    assert ([CreateSpecificTopicOp(topic, queueAccess, topicAccess)] + rest)[0]
      == CreateSpecificTopicOp(topic, queueAccess, topicAccess);
  }

  /**
   * On the first bound-topic call the reply queue is created; if the topic open then
   * reports handle exhaustion the process ends with that queue in place.
   */
  lemma FirstCallExhaustion(s: State, topic: string, h: nat)
    requires s.queueManager.Some? && s.dynamicQueue.None?
    ensures var r := CreateSpecificTopicStep(s, topic, Granted(h), Raised(MQRC_HANDLE_NOT_AVAILABLE));
            r.1 == Fatal && r.0.dynamicQueue == Some(DynamicQueue(h)) && r.0.queueCreateCount == s.queueCreateCount + 1
  {
  }

  // ---------------------------------------------------------------------------
  // Session lifecycle: the process-wide state
  // ---------------------------------------------------------------------------

  /** The session manager: the Java class's two static fields and the ghost counters. */
  class MQConnection {
    var queueManager: Option<QueueManager>
    var dynamicQueue: Option<Queue>
    ghost var connectCount: nat
    ghost var queueCreateCount: nat
    ghost var topicAccessCount: nat

    /** The abstract state of this object. */
    ghost function Abs(): State
      reads this
    {
      State(queueManager, dynamicQueue, connectCount, queueCreateCount, topicAccessCount)
    }

    ghost predicate Valid()
      reads this
    {
      Invariant(Abs())
    }

    /** Process start: no session and no reply queue. */
    constructor ()
      ensures Valid() && Abs() == Initial
    {
      queueManager := None;
      dynamicQueue := None;
      connectCount := 0;
      queueCreateCount := 0;
      topicAccessCount := 0;
    }

    method Establish(qmName: string, props: Properties, connect: Reply<()>) returns (r: Result<()>)
      requires Valid()
      modifies this
      ensures Valid()
      ensures (Abs(), r) == EstablishStep(old(Abs()), qmName, props, connect)
    {
      r := Ok(());
      if queueManager.None? || !queueManager.value.connected {
        connectCount := connectCount + 1;
        match connect {
          case Granted(_) =>
            queueManager := Some(QueueManager(qmName, props, true));
          case Raised(reason) =>
            r := Err(reason);
        }
      }
    }

    method Close(disconnect: Reply<()>)
      requires Valid()
      modifies this
      ensures Valid()
      ensures Abs() == CloseStep(old(Abs()), disconnect)
    {
      if queueManager.Some? && queueManager.value.connected {
        match disconnect {
          case Granted(_) =>
            queueManager := Some(queueManager.value.(connected := false));
          case Raised(_) =>
        }
      }
    }

    method CreateTopic(topic: string, access: Reply<nat>) returns (r: Result<Topic>)
      requires Valid()
      modifies this
      ensures Valid()
      ensures (Abs(), r) == CreateTopicStep(old(Abs()), topic, access)
    {
      if queueManager.None? {
        return NullQueueManager;
      }
      topicAccessCount := topicAccessCount + 1;
      match access {
        case Granted(h) =>
          r := Ok(Topic(h, topic, "", Some(MQTOPIC_OPEN_AS_SUBSCRIPTION), None, ManagedSubscriptionOptions()));
        case Raised(reason) =>
          r := Err(reason);
      }
    }

    method CreateSpecificTopic(topic: string, queueAccess: Reply<nat>, topicAccess: Reply<nat>)
      returns (r: Result<Topic>)
      requires Valid()
      modifies this
      ensures Valid()
      ensures (Abs(), r) == CreateSpecificTopicStep(old(Abs()), topic, queueAccess, topicAccess)
    {
      var q := GetQueue(queueAccess);
      match q {
        case Ok(queue) =>
          if queueManager.None? {
            return NullQueueManager;
          }
          topicAccessCount := topicAccessCount + 1;
          match topicAccess {
            case Granted(h) =>
              r := Ok(Topic(h, topic, "", None, Some(queue), MQSO_CREATE));
            case Raised(reason) =>
              r := Escalate(reason);
          }
        case Err(reason) =>
          r := Escalate(reason);
        case Fatal =>
          r := Fatal;
        case NullQueueManager =>
          r := NullQueueManager;
      }
    }

    method GetQueue(access: Reply<nat>) returns (r: Result<Queue>)
      requires Valid()
      modifies this
      ensures Valid()
      ensures (Abs(), r) == GetQueueStep(old(Abs()), access)
    {
      if dynamicQueue.None? {
        var created := CreateDynamicQueue(access);
        if !created.Ok? {
          return created;
        }
      }
      r := Ok(dynamicQueue.value);
    }

    /** Opens the reply queue; the only caller, `GetQueue`, calls it while there is none. */
    method CreateDynamicQueue(access: Reply<nat>) returns (r: Result<Queue>)
      requires Valid() && dynamicQueue.None?
      modifies this
      ensures Valid()
      ensures (Abs(), r) == GetQueueStep(old(Abs()), access)
    {
      if queueManager.None? {
        return NullQueueManager;
      }
      match access {
        case Granted(h) =>
          dynamicQueue := Some(DynamicQueue(h));
          queueCreateCount := queueCreateCount + 1;
          r := Ok(dynamicQueue.value);
        case Raised(reason) =>
          r := Err(reason);
      }
    }

    /** The current session handle, for the poller. */
    method GetQueueManager() returns (qm: Option<QueueManager>)
      ensures qm == queueManager
    {
      qm := queueManager;
    }
  }
}
