/**
 * A monitored target of the exporter (a queue, a channel or a listener) together
 * with the PCF inquiry it is polled with and the single response attribute the
 * exporter reads back from the answer.
 */
module MQObject {
  import opened Wrappers
  import opened MQConstants

  /** The supported target kinds; the set is closed. */
  datatype MQType = Queue | Channel | Listener

  /** A PCF parameter value: either a character string or an integer. */
  datatype PcfValue = StrParam(s: string) | IntParam(i: int)

  datatype PcfParameter = PcfParameter(code: int, value: PcfValue)

  /** A PCF request: a command code and the parameters in the order they were added. */
  datatype PcfMessage = PcfMessage(command: int, parameters: seq<PcfParameter>)

  /** An immutable target descriptor; the four fields are read by the getters. */
  datatype MQObject = MQObject(name: string, mqType: MQType, pcfCmd: PcfMessage, pcfHeader: int)

  /** A fresh request carrying only a command code. */
  function NewPcfMessage(command: int): (m: PcfMessage)
  {
    PcfMessage(command, [])
  }

  /** Appends one parameter to a request. */
  function AddParameter(m: PcfMessage, code: int, value: PcfValue): (r: PcfMessage)
  {
    m.(parameters := m.parameters + [PcfParameter(code, value)])
  }

  /**
   * Builds the descriptor of target `name` of kind `t`. Every kind has exactly one
   * command, parameter list and response attribute; there is no other outcome.
   */
  function Create(name: string, t: MQType): (o: MQObject)
    ensures o.name == name && o.mqType == t
    ensures |o.pcfCmd.parameters| >= 1
    ensures o.pcfCmd.parameters[0] == PcfParameter(ObjectNameCode(t), StrParam(name))
    ensures t == Queue ==>
      o.pcfCmd.command == MQCMD_INQUIRE_Q &&
      o.pcfCmd.parameters == [PcfParameter(MQCA_Q_NAME, StrParam(name)), PcfParameter(MQIA_Q_TYPE, IntParam(MQQT_LOCAL))] &&
      o.pcfHeader == MQIA_MAX_Q_DEPTH
    ensures t == Listener ==>
      o.pcfCmd.command == MQCMD_INQUIRE_LISTENER_STATUS &&
      o.pcfCmd.parameters == [PcfParameter(MQCACH_LISTENER_NAME, StrParam(name))] &&
      o.pcfHeader == MQIACH_LISTENER_STATUS
    ensures t == Channel ==>
      o.pcfCmd.command == MQCMD_INQUIRE_CHANNEL_STATUS &&
      o.pcfCmd.parameters == [PcfParameter(MQCACH_CHANNEL_NAME, StrParam(name))] &&
      o.pcfHeader == MQIACH_CHANNEL_STATUS
  {
    match t
    case Queue =>
      var cmd := NewPcfMessage(MQCMD_INQUIRE_Q);
      var cmd := AddParameter(cmd, MQCA_Q_NAME, StrParam(name));
      var cmd := AddParameter(cmd, MQIA_Q_TYPE, IntParam(MQQT_LOCAL));
      MQObject(name, t, cmd, MQIA_MAX_Q_DEPTH)
    case Listener =>
      var cmd := NewPcfMessage(MQCMD_INQUIRE_LISTENER_STATUS);
      var cmd := AddParameter(cmd, MQCACH_LISTENER_NAME, StrParam(name));
      MQObject(name, t, cmd, MQIACH_LISTENER_STATUS)
    case Channel =>
      var cmd := NewPcfMessage(MQCMD_INQUIRE_CHANNEL_STATUS);
      var cmd := AddParameter(cmd, MQCACH_CHANNEL_NAME, StrParam(name));
      MQObject(name, t, cmd, MQIACH_CHANNEL_STATUS)
  }

  /** A descriptor that `Create` produced: its request and header are those of its name and kind. */
  predicate Constructed(o: MQObject)
  {
    o == Create(o.name, o.mqType)
  }

  /**
   * The PCF code of the parameter that names an object of kind `t`. The Java
   * switch falls back to -1, a value no member of the closed kind set reaches.
   */
  function ObjectNameCode(t: MQType): (code: int)
    ensures code != -1
    ensures code == MQCA_Q_NAME || code == MQCACH_CHANNEL_NAME || code == MQCACH_LISTENER_NAME
  {
    match t
    case Queue => MQCA_Q_NAME
    case Channel => MQCACH_CHANNEL_NAME
    case Listener => MQCACH_LISTENER_NAME
  }

  /** Distinct kinds have distinct name parameters. */
  lemma ObjectNameCodeInjective(t1: MQType, t2: MQType)
    ensures ObjectNameCode(t1) == ObjectNameCode(t2) ==> t1 == t2
  {
  }

  /** Distinct targets get distinct inquiries, and the response attribute alone tells the kind. */
  lemma CreateInjective(n1: string, t1: MQType, n2: string, t2: MQType)
    ensures Create(n1, t1).pcfCmd == Create(n2, t2).pcfCmd ==> n1 == n2 && t1 == t2
    ensures Create(n1, t1).pcfHeader == Create(n2, t2).pcfHeader <==> t1 == t2
  {
  }

  /**
   * Java `equals`: `other` is None for null or for an object of another class. The
   * identity short-cut is subsumed: identical descriptors have equal name and type.
   */
  function Equals(self: MQObject, other: Option<MQObject>): (r: bool)
    ensures r <==> other.Some? && other.value.name == self.name && other.value.mqType == self.mqType
  {
    match other
    case None => false
    case Some(o) =>
      if self.name != o.name then false
      else self.mqType == o.mqType
  }

  /** `Equals` is an equivalence relation on descriptors. */
  lemma EqualsIsEquivalence(a: MQObject, b: MQObject, c: MQObject)
    ensures Equals(a, Some(a))
    ensures Equals(a, Some(b)) ==> Equals(b, Some(a))
    ensures Equals(a, Some(b)) && Equals(b, Some(c)) ==> Equals(a, Some(c))
  {
  }

  /** On constructed descriptors, `Equals` is exactly value identity: the request is fixed by (name, kind). */
  lemma EqualsIsIdentity(a: MQObject, b: MQObject)
    requires Constructed(a) && Constructed(b)
    ensures Equals(a, Some(b)) <==> a == b
  {
  }

  /** Java `int`: 32-bit two's complement. */
  type Int32 = x: int | -0x8000_0000 <= x < 0x8000_0000

  /** The 32-bit two's complement value of `x`, as Java int arithmetic wraps. */
  function WrapInt32(x: int): (r: Int32)
    ensures (r - x) % 0x1_0000_0000 == 0
  {
    (x + 0x8000_0000) % 0x1_0000_0000 - 0x8000_0000
  }

  /** Two integers congruent modulo 2^32 wrap to the same Java int. */
  lemma WrapInt32Congruent(x: int, y: int)
    requires (x - y) % 0x1_0000_0000 == 0
    ensures WrapInt32(x) == WrapInt32(y)
  {
    var k := (x - y) / 0x1_0000_0000;
    assert x + 0x8000_0000 == (y + 0x8000_0000) + k * 0x1_0000_0000;
  }

  /**
   * Java `hashCode`: `31 * name.hashCode() + type.hashCode()` in int arithmetic.
   * The String and enum hashes are left as parameters; both steps wrap.
   */
  function HashCode(o: MQObject, nameHash: string -> Int32, typeHash: MQType -> Int32): (h: Int32)
    ensures h == WrapInt32(31 * nameHash(o.name) + typeHash(o.mqType))
  {
    var result := nameHash(o.name);
    var result := WrapInt32(WrapInt32(31 * result) + typeHash(o.mqType));
    WrapInt32Congruent(WrapInt32(31 * nameHash(o.name)) + typeHash(o.mqType), 31 * nameHash(o.name) + typeHash(o.mqType));
    result
  }

  /** Equal descriptors hash equally, whatever the String and enum hashes are. */
  lemma EqualsImpliesEqualHash(a: MQObject, b: MQObject, nameHash: string -> Int32, typeHash: MQType -> Int32)
    requires Equals(a, Some(b))
    ensures HashCode(a, nameHash, typeHash) == HashCode(b, nameHash, typeHash)
  {
  }

  /** Descriptor for queue "DEV.QUEUE.1": inquire the local queue of that name, read its maximum depth. */
  lemma QueueScenario()
    ensures Create("DEV.QUEUE.1", Queue).pcfHeader == 15
    ensures Create("DEV.QUEUE.1", Queue).pcfCmd
      == PcfMessage(13, [PcfParameter(2016, StrParam("DEV.QUEUE.1")), PcfParameter(20, IntParam(1))])
  {
  }
}
