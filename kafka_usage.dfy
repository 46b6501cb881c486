/**
 * `KafkaUsage`: the test helper that builds the client configurations used to talk
 * to a broker. A `java.util.Properties` object is modelled by its contents, a map
 * from property name to value; `setProperty` with a `null` value throws
 * `NullPointerException`, as `Hashtable.put` does.
 */
module Kafka {
  import opened Wrappers
  import opened Values

  /** `org.apache.kafka.clients.consumer.OffsetResetStrategy`. */
  datatype OffsetResetStrategy = LATEST | EARLIEST | NONE

  /** The enum constant's `toString()`, its declared name. */
  function StrategyName(s: OffsetResetStrategy): (r: string)
    ensures r != [] && forall i :: 0 <= i < |r| ==> 'A' <= r[i] <= 'Z'
  {
    match s
    case LATEST => "LATEST"
    case EARLIEST => "EARLIEST"
    case NONE => "NONE"
  }

  /** `String.toLowerCase()` on ASCII letters; every other character is kept. */
  function LowerCase(s: string): (r: string)
    ensures |r| == |s|
    ensures forall i :: 0 <= i < |s| ==> r[i] == if 'A' <= s[i] <= 'Z' then (s[i] as int + 32) as char else s[i]
  {
    if s == [] then []
    else [if 'A' <= s[0] <= 'Z' then (s[0] as int + 32) as char else s[0]] + LowerCase(s[1..])
  }

  const DEFAULT_BROKERS := "localhost:9092"
  const GROUP_ID_REQUIRED := "The groupId is required"

  const BOOTSTRAP_SERVERS := "bootstrap.servers"
  const GROUP_ID := "group.id"
  const ENABLE_AUTO_COMMIT := "enable.auto.commit"
  const AUTO_OFFSET_RESET := "auto.offset.reset"
  const CLIENT_ID := "client.id"
  const ACKS := "acks"

  /** `props.setProperty(key, value)`. */
  function SetProperty(props: map<string, string>, key: string, value: Option<string>): (r: Result<map<string, string>, Exception>)
    ensures value.None? ==> r == Err(NullPointerException(None))
    ensures value.Some? ==>
      && r.Ok? && r.value.Keys == props.Keys + {key} && r.value[key] == value.value
      && forall k :: k in props && k != key ==> r.value[k] == props[k]
  {
    if value.None? then Err(NullPointerException(None)) else Ok(props[key := value.value])
  }

  class KafkaUsage {
    /** The broker list; the one-argument constructor stores whatever it is given, `null` included. */
    var brokers: Option<string>

    constructor (brokerList: Option<string>)
      ensures brokers == brokerList
    {
      brokers := brokerList;
    }

    constructor Default()
      ensures brokers == Some(DEFAULT_BROKERS)
    {
      brokers := Some(DEFAULT_BROKERS);
    }

    /**
     * `getConsumerProperties(groupId, clientId, autoOffsetReset)`: a group id is
     * required; automatic commits are off; the offset-reset policy and the client id
     * are set only when given.
     */
    method GetConsumerProperties(groupId: Option<string>, clientId: Option<string>, autoOffsetReset: Option<OffsetResetStrategy>)
      returns (r: Result<map<string, string>, Exception>)
      ensures groupId.None? ==> r == Err(IllegalArgumentException(Some(GROUP_ID_REQUIRED)))
      ensures groupId.Some? && brokers.None? ==> r == Err(NullPointerException(None))
      ensures groupId.Some? && brokers.Some? ==>
        && r.Ok?
        && r.value.Keys == {BOOTSTRAP_SERVERS, GROUP_ID, ENABLE_AUTO_COMMIT}
             + (if autoOffsetReset.Some? then {AUTO_OFFSET_RESET} else {})
             + (if clientId.Some? then {CLIENT_ID} else {})
        && r.value[BOOTSTRAP_SERVERS] == brokers.value
        && r.value[GROUP_ID] == groupId.value
        && r.value[ENABLE_AUTO_COMMIT] == "false"
        && (autoOffsetReset.Some? ==> r.value[AUTO_OFFSET_RESET] == LowerCase(StrategyName(autoOffsetReset.value)))
        && (clientId.Some? ==> r.value[CLIENT_ID] == clientId.value)
    {
      if groupId.None? {
        return Err(IllegalArgumentException(Some(GROUP_ID_REQUIRED)));
      }
      var props: map<string, string> := map[];
      var put := SetProperty(props, BOOTSTRAP_SERVERS, brokers);
      if put.Err? {
        return Err(put.error);
      }
      props := put.value;
      props := props[GROUP_ID := groupId.value];
      props := props[ENABLE_AUTO_COMMIT := "false"];
      if autoOffsetReset.Some? {
        props := props[AUTO_OFFSET_RESET := LowerCase(StrategyName(autoOffsetReset.value))];
      }
      if clientId.Some? {
        props := props[CLIENT_ID := clientId.value];
      }
      return Ok(props);
    }

    /** `getProducerProperties(clientId)`: the brokers, `acks = 1`, and the client id only when given. */
    method GetProducerProperties(clientId: Option<string>) returns (r: Result<map<string, string>, Exception>)
      ensures brokers.None? ==> r == Err(NullPointerException(None))
      ensures brokers.Some? ==>
        && r.Ok?
        && r.value.Keys == {BOOTSTRAP_SERVERS, ACKS} + (if clientId.Some? then {CLIENT_ID} else {})
        && r.value[BOOTSTRAP_SERVERS] == brokers.value
        && r.value[ACKS] == "1"
        && (clientId.Some? ==> r.value[CLIENT_ID] == clientId.value)
    {
      var props: map<string, string> := map[];
      var put := SetProperty(props, BOOTSTRAP_SERVERS, brokers);
      if put.Err? {
        return Err(put.error);
      }
      props := put.value;
      props := props[ACKS := "1"];
      if clientId.Some? {
        props := props[CLIENT_ID := clientId.value];
      }
      return Ok(props);
    }
  }

  /** The offset-reset values the consumer configuration can hold: `latest`, `earliest` and `none`. */
  lemma LatestValue()
    ensures LowerCase(StrategyName(LATEST)) == "latest"
  {
    var r := LowerCase("LATEST");
    assert r[0] == 'l' && r[1] == 'a' && r[2] == 't' && r[3] == 'e' && r[4] == 's' && r[5] == 't';
  }

  lemma EarliestValue()
    ensures LowerCase(StrategyName(EARLIEST)) == "earliest"
  {
    var r := LowerCase("EARLIEST");
    assert r[0] == 'e' && r[1] == 'a' && r[2] == 'r' && r[3] == 'l';
    assert r[4] == 'i' && r[5] == 'e' && r[6] == 's' && r[7] == 't';
  }

  lemma NoneValue()
    ensures LowerCase(StrategyName(NONE)) == "none"
  {
    var r := LowerCase("NONE");
    assert r[0] == 'n' && r[1] == 'o' && r[2] == 'n' && r[3] == 'e';
  }

  /** Lower-casing twice is lower-casing once. */
  lemma LowerCaseIdempotent(s: string)
    ensures LowerCase(LowerCase(s)) == LowerCase(s)
  {
  }
}
