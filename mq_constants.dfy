/**
 * Numeric codes of the IBM MQ administrative interface (Programmable Command
 * Formats) and of the IBM MQ classes for Java that the exporter uses. The values
 * are those published by IBM in the CMQC, CMQCFC and CMQXC constant tables.
 */
module MQConstants {

  // PCF command codes (MQCMD_*)
  const MQCMD_INQUIRE_Q: int := 13
  const MQCMD_INQUIRE_CHANNEL_STATUS: int := 42
  const MQCMD_INQUIRE_LISTENER_STATUS: int := 98

  // Character attribute selectors used as name parameters (MQCA_*, MQCACH_*)
  const MQCA_Q_NAME: int := 2016
  const MQCACH_CHANNEL_NAME: int := 3501
  const MQCACH_LISTENER_NAME: int := 3554

  // Integer attribute selectors (MQIA_*, MQIACH_*)
  const MQIA_MAX_Q_DEPTH: int := 15
  const MQIA_Q_TYPE: int := 20
  const MQIACH_CHANNEL_STATUS: int := 1527
  const MQIACH_LISTENER_STATUS: int := 1599

  // Queue types (MQQT_*)
  const MQQT_LOCAL: int := 1

  // Reason codes (MQRC_*)
  const MQRC_HANDLE_NOT_AVAILABLE: int := 2017

  // Open options for queues (MQOO_*)
  const MQOO_INPUT_AS_Q_DEF: int := 0x0000_0001
  const MQOO_FAIL_IF_QUIESCING: int := 0x0000_2000

  // Topic open modes (MQTOPIC_OPEN_AS_*)
  const MQTOPIC_OPEN_AS_SUBSCRIPTION: int := 1

  // Subscription options (MQSO_*)
  const MQSO_NON_DURABLE: int := 0x0000_0000
  const MQSO_CREATE: int := 0x0000_0002
  const MQSO_MANAGED: int := 0x0000_0020

  // Connection property keys and values of the IBM MQ classes for Java
  const TRANSPORT_PROPERTY: string := "transport"
  const TRANSPORT_MQSERIES_BINDINGS: string := "MQSeries Bindings"
  const TRANSPORT_MQSERIES_CLIENT: string := "MQSeries Client"
  const HOST_NAME_PROPERTY: string := "hostname"
  const PORT_PROPERTY: string := "port"
  const CHANNEL_PROPERTY: string := "channel"
  const USE_MQCSP_AUTHENTICATION_PROPERTY: string := "Use MQCSP authentication"
  const USER_ID_PROPERTY: string := "userID"
  const PASSWORD_PROPERTY: string := "password"
  const SSL_CIPHER_SUITE_PROPERTY: string := "SSL Cipher Suite"
  const SSL_SOCKET_FACTORY_PROPERTY: string := "SSL Socket Factory"

  /** Bitwise OR of two non-negative option masks, as Java's `|` on int flags. */
  function BitOr(a: int, b: int): (r: int)
    requires 0 <= a < 0x1_0000_0000 && 0 <= b < 0x1_0000_0000
    ensures 0 <= r < 0x1_0000_0000
  {
    ((a as bv32) | (b as bv32)) as int
  }
}
