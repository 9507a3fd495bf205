# mq-java-exporter: target descriptors and the queue-manager session

This project models the core of a Prometheus exporter for IBM MQ:

- **`MQObject`** (`mq_object.dfy`): the descriptor of a monitored target, a queue, a channel or a listener.
  From the target's name and kind it builds the PCF (Programmable Command Formats) inquiry the poller sends.
  It also gives the one integer attribute the poller reads back from the answer.
  The module also holds the name-parameter lookup `ObjectNameCode`, the Java `equals` and the Java `hashCode`.
- **`MQConnection`** (`mq_connection.dfy`): the exporter's single session to the queue manager. It covers:
  - the connection properties built from the configuration;
  - `establish` and `close`;
  - the lazily created dynamic reply queue (`getQueue`);
  - the two kinds of topic subscription: `createTopic`, and `createSpecificTopic`, which is bound to the reply queue.
  The session is specified by pure step functions over a `State` value.
  The class `MQConnection.MQConnection` holds the Java class's two static fields, `queueManager` and `dynamicQueue`.
  It also holds ghost counters of connect attempts, reply-queue creations and topic opens.
  Each method of the class is proved to perform exactly its step function.
  Lemmas over whole traces of calls (`Run`) prove the session invariants.
- **`MQConstants`** (`mq_constants.dfy`): the IBM MQ codes and connection property keys the code uses, as named constants.
  Their values are those of IBM's CMQC/CMQCFC/CMQXC tables.
- **`Wrappers`** (`wrappers.dfy`): `Option`. `None` stands for Java `null`.

The answers of the queue manager are parameters of type `Reply<T>`:
`Granted(value)` for a call that returns, `Raised(reason)` for an `MQException` with its reason code.
This covers connecting, disconnecting, opening the reply queue and opening a topic.
Results are `Ok(value)`, `Err(reason)` (an `MQException` passed on) or `Fatal` (the `System.exit(1)` on handle exhaustion).
A fourth result, `NullQueueManager`, stands for the `NullPointerException` raised when a topic or the reply queue is requested before any session was established.

Two behaviours of the code to note:
- `createSpecificTopic` calls `getQueue()` inside its `try`. So a handle-exhaustion failure while *creating the reply queue* also ends the process, not only one while opening the topic.
- `getQueue` never resets the reply queue. After `close` and a new `establish`, the queue created on the earlier connection is returned again (`DynamicQueueNeverReplaced`).

## Model

| member | source | states |
|---|---|---|
| `MQObject.Create` | src/main/java/ru/cinimex/exporter/mq/MQObject.java:24-51 | the getters give back the given name and kind. QUEUE gives `MQCMD_INQUIRE_Q` with exactly `[(MQCA_Q_NAME, name), (MQIA_Q_TYPE, MQQT_LOCAL)]` and header `MQIA_MAX_Q_DEPTH`. LISTENER gives `MQCMD_INQUIRE_LISTENER_STATUS`, `[(MQCACH_LISTENER_NAME, name)]`, `MQIACH_LISTENER_STATUS`. CHANNEL gives `MQCMD_INQUIRE_CHANNEL_STATUS`, `[(MQCACH_CHANNEL_NAME, name)]`, `MQIACH_CHANNEL_STATUS`. The first parameter is always `(ObjectNameCode(kind), name)`. Construction is total: there is no error branch |
| `MQObject.ObjectNameCode` | src/main/java/ru/cinimex/exporter/mq/MQObject.java:59-73 | the code is never the -1 sentinel and is one of the three name codes; `Create` ties it to the first parameter of the request |
| `MQObject.ObjectNameCodeInjective` | src/main/java/ru/cinimex/exporter/mq/MQObject.java:59-73 | distinct kinds have distinct name-parameter codes |
| `MQObject.CreateInjective` | src/main/java/ru/cinimex/exporter/mq/MQObject.java:30-50 | distinct (name, kind) pairs give distinct requests; two descriptors share a response attribute iff they share a kind |
| `MQObject.Equals` | src/main/java/ru/cinimex/exporter/mq/MQObject.java:113-121 | true iff the other object is a descriptor (not null, same class) with the same name and kind |
| `MQObject.EqualsIsEquivalence` | src/main/java/ru/cinimex/exporter/mq/MQObject.java:113-121 | equality is reflexive, symmetric and transitive |
| `MQObject.EqualsIsIdentity` | src/main/java/ru/cinimex/exporter/mq/MQObject.java:113-121 | on constructed descriptors, `equals` holds iff the descriptors are the same value (request and header included) |
| `MQObject.WrapInt32` | src/main/java/ru/cinimex/exporter/mq/MQObject.java:124-128 | Java int wrap-around: the result is a 32-bit value congruent to the input modulo 2^32 |
| `MQObject.HashCode` | src/main/java/ru/cinimex/exporter/mq/MQObject.java:124-128 | wrapping after each Java step gives `31 * h(name) + h(type)` reduced once to 32 bits |
| `MQObject.EqualsImpliesEqualHash` | src/main/java/ru/cinimex/exporter/mq/MQObject.java:113-128 | equal descriptors have equal hash codes, for every String hash and enum hash |
| `MQObject.QueueScenario` | src/main/java/ru/cinimex/exporter/mq/MQObject.java:31-36 | queue "DEV.QUEUE.1" is inquired with command 13 and parameters (2016, name), (20, 1); it reads attribute 15 |
| `MQConnection.KeyNamesDistinct` | src/main/java/ru/cinimex/exporter/mq/MQConnection.java:45-57 | `KeyName` gives each property's IBM MQ key string, and no two properties share one, so no `put` overwrites another |
| `MQConnection.CreateMQConnectionParams` | src/main/java/ru/cinimex/exporter/mq/MQConnection.java:43-61 | transport is always present: bindings iff no host, client otherwise. Host present iff set, port iff non-zero, channel iff set, each with its value. The MQCSP flag is present iff user or password is set, with `useMqcsp`. User present iff set; password present iff set. Cipher suite and socket factory present iff security properties exist and TLS is on. No other key |
| `MQConnection.ParamsDetermineSettings` | src/main/java/ru/cinimex/exporter/mq/MQConnection.java:44-60 | equal property maps come from configurations with equal host, port, channel, user, password and TLS settings: absence of a key means unset |
| `MQConnection.ClientHostOnlyScenario` | src/main/java/ru/cinimex/exporter/mq/MQConnection.java:45-48 | host "qm1" with nothing else set gives exactly {transport: client, hostname: "qm1"} |
| `MQConnection.EstablishStep` | src/main/java/ru/cinimex/exporter/mq/MQConnection.java:103-107 | connected: nothing changes. Otherwise one connect attempt is counted. On success the new session is connected with the given name and properties. On failure the old session is kept and the reason is passed on. The reply queue and the other counters are untouched |
| `MQConnection.CloseStep` | src/main/java/ru/cinimex/exporter/mq/MQConnection.java:112-120 | no-op unless connected; a successful disconnect leaves the same session disconnected; a failing disconnect is swallowed and changes nothing |
| `MQConnection.GetQueueStep` | src/main/java/ru/cinimex/exporter/mq/MQConnection.java:158-167 | an existing reply queue is returned unchanged. Otherwise one is opened on `SYSTEM.NDURABLE.MODEL.QUEUE` as `MQEXPORTER.*` with the options MQOO_INPUT_AS_Q_DEF and MQOO_FAIL_IF_QUIESCING, and the creation count goes up by one. A failure leaves no queue and passes the reason on. Never fatal |
| `MQConnection.CreateTopicStep` | src/main/java/ru/cinimex/exporter/mq/MQConnection.java:129-131 | exactly one topic open per call, as a managed, non-durable subscription (options MQSO_CREATE, MQSO_NON_DURABLE and MQSO_MANAGED); only the open counter changes; failures pass on unchanged and are never fatal |
| `MQConnection.Escalate` | src/main/java/ru/cinimex/exporter/mq/MQConnection.java:143-148 | fatal iff the reason is `MQRC_HANDLE_NOT_AVAILABLE`; any other reason is returned unchanged |
| `MQConnection.CreateSpecificTopicStep` | src/main/java/ru/cinimex/exporter/mq/MQConnection.java:140-150 | with no session: the null-session outcome. When `getQueue` yields the reply queue (existing or created in this call): exactly one topic open. A granted open gives the topic on that queue with `MQSO_CREATE`; a refused open is escalated. When creating the queue fails, that failure is escalated and no topic is opened. Fatal only for a `MQRC_HANDLE_NOT_AVAILABLE` reply. The session is untouched |
| `MQConnection.EstablishTwiceConnectsOnce` | src/main/java/ru/cinimex/exporter/mq/MQConnection.java:103-107 | from a disconnected session, a successful establish followed by any establish connects exactly once and ends connected to the first session |
| `MQConnection.ApplyKeepsInvariant` | src/main/java/ru/cinimex/exporter/mq/MQConnection.java:158-167 | every call keeps the invariant: at most one reply queue created, present iff created, only on an established session |
| `MQConnection.RunKeepsInvariant` | src/main/java/ru/cinimex/exporter/mq/MQConnection.java:158-167 | after any sequence of calls the invariant holds, so `queueCreateCount <= 1` |
| `MQConnection.DynamicQueueNeverReplaced` | src/main/java/ru/cinimex/exporter/mq/MQConnection.java:158-163 | once the reply queue exists, every later call sequence keeps the same queue and creates no other |
| `MQConnection.SessionIsSingleton` | src/main/java/ru/cinimex/exporter/mq/MQConnection.java:103-107 | without `close`, a connected session stays the same connected session and no further connect is attempted |
| `MQConnection.TopicAccessesBounded` | src/main/java/ru/cinimex/exporter/mq/MQConnection.java:129-150 | over any trace, topic opens never exceed the number of topic calls: nothing is retried |
| `MQConnection.FatalIffHandleExhaustion` | src/main/java/ru/cinimex/exporter/mq/MQConnection.java:140-150 | the call is fatal iff a session exists and the open it issued answered `MQRC_HANDLE_NOT_AVAILABLE`: the queue open when there is no reply queue yet, else the topic open |
| `MQConnection.HandleExhaustionEndsRun` | src/main/java/ru/cinimex/exporter/mq/MQConnection.java:140-150 | whenever `createSpecificTopic` is fatal, on the queue or the topic open, the process ends there: no later call runs |
| `MQConnection.FirstCallExhaustion` | src/main/java/ru/cinimex/exporter/mq/MQConnection.java:140-150 | on the first bound-topic call the reply queue is created, and a handle-exhaustion reply to the topic open is then fatal |
| `MQConnection.MQConnection.constructor` | src/main/java/ru/cinimex/exporter/mq/MQConnection.java:30-35 | process start: no session, no reply queue, all counters zero |
| `MQConnection.MQConnection.Establish` | src/main/java/ru/cinimex/exporter/mq/MQConnection.java:103-107 | performs exactly `EstablishStep` on the fields and keeps the invariant |
| `MQConnection.MQConnection.Close` | src/main/java/ru/cinimex/exporter/mq/MQConnection.java:112-120 | performs exactly `CloseStep`; it returns nothing, so disconnect errors never reach the caller |
| `MQConnection.MQConnection.CreateTopic` | src/main/java/ru/cinimex/exporter/mq/MQConnection.java:129-131 | performs exactly `CreateTopicStep` |
| `MQConnection.MQConnection.CreateSpecificTopic` | src/main/java/ru/cinimex/exporter/mq/MQConnection.java:140-150 | performs exactly `CreateSpecificTopicStep`, through `GetQueue` |
| `MQConnection.MQConnection.GetQueue` | src/main/java/ru/cinimex/exporter/mq/MQConnection.java:158-163 | performs exactly `GetQueueStep`: get-or-create |
| `MQConnection.MQConnection.CreateDynamicQueue` | src/main/java/ru/cinimex/exporter/mq/MQConnection.java:165-167 | called only while there is no reply queue; opens it as `GetQueueStep` says |
| `MQConnection.MQConnection.GetQueueManager` | src/main/java/ru/cinimex/exporter/mq/MQConnection.java:174-176 | returns the current session handle unchanged |

## Left out

- `getSslSocketFactory` and `getStore` (MQConnection.java:69-95) are not modelled: they do file I/O and build JCA key stores and SSL contexts. The socket factory is an opaque value determined by the TLS settings (`SslSocketFactoryFor`). Store load failures and the null `sslContext` dereference at line 83 are not represented.
- `System.setProperty("com.ibm.mq.cfg.useIBMCipherMappings", "false")` (MQConnection.java:58) is a process-wide side effect and is not modelled. It happens exactly when `UsesTls` holds, the same condition as for the TLS keys.
- `SecurityProperties.cipherSuite` is a string. A null cipher suite, which Java would store as a null map value, is not represented.
- The network behind `MQQueueManager`, `disconnect`, `accessQueue` and `accessTopic` is left out. Their answers are `Reply` parameters. The model does not forbid a `Granted` answer on a disconnected session.
- A session that drops on its own (`isConnected()` turning false without `close`) is not modelled. The connected flag only changes through `establish` and `close`.
- `CloseStep`: after a failing `disconnect` the state is kept as it was. The real session state after such a failure is not known.
- `synchronized` on `getQueue` and all other thread-safety are not modelled. Once-only creation is proved for sequential calls only.
- Logging and the actual `System.exit(1)` are left out. The exit is the `Fatal` result, and `Run` stops a trace there.
- `MQObject.HashCode`: Java's `String.hashCode` and `Enum.hashCode` are function parameters, not their Java definitions.
- The default branches of the `MQObject` constructor (error and exception, MQObject.java:47-49) and of `objectNameCode` (the -1) cannot be reached: `MQType` is a closed datatype. A null `type`, which would make Java's `switch` throw, is not represented.
- The getters `getName`, `getType`, `getPCFHeader` and `getPcfCmd` are the fields of the `MQObject` datatype. PCF message encoding beyond the command code and the ordered parameter list is not modelled.
- `src/main/java/ru/cinimex/exporter/prometheus/Registry.java` is not part of this model. It only holds Prometheus's default collector registry.
