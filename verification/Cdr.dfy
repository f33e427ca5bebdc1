/** Charging records as they come in: JSON objects, loosely typed. */
module Cdr {
  import opened Basics
  import opened Numerals
  import opened Energy

  /** A number carries its text and its value; a list carries its text. */
  datatype Value = Missing | Null | Bool(b: bool) | Num(text: string, number: Decimal) | Text(text: string)
      | List(text: string)
                 | Record(fields: Input)

  type Input = map<string, Value>

  datatype Result<T, E> = Ok(value: T) | Err(error: E)

  function Get(input: Input, key: string): Value { if key in input then input[key] else Missing }

  /** `record?.key`: missing when there is no record. */
  function GetIn(v: Value, key: string): Value { if v.Record? then Get(v.fields, key) else Missing }

  /** `hasCdrValue`. */
  predicate HasValue(v: Value) { v != Missing && v != Null && (v.Text? ==> Trim(v.text) != "") }

  datatype Protocol = OCPI | OICP | MIXED | UNKNOWN

  const OCPI_KEYS := ["id", "country_code", "party_id", "session_id", "start_date_time", "end_date_time", "cdr_token",
                      "cdr_token_contract_id", "cdr_location", "cdr_location_evse_id", "total_energy"]
  const OICP_KEYS := ["Identification", "identification", "CPOPartnerSessionID", "EMPPartnerSessionID", "EvseID",
                      "ChargingStart", "ChargingEnd", "ConsumedEnergy", "ContractID"]
  const FLAT_KEYS := ["SessionID", "ProviderID", "EVSEID", "UID"]

  predicate HasAny(input: Input, keys: seq<string>) { exists k :: k in keys && HasValue(Get(input, k)) }

  /** `detectCdrProtocol`. */
  function DetectProtocol(input: Input): Protocol {
    if HasAny(input, OCPI_KEYS) && HasAny(input, OICP_KEYS) then MIXED
    else if HasAny(input, OCPI_KEYS) then OCPI
    else if HasAny(input, OICP_KEYS) then OICP
    else if HasAny(input, FLAT_KEYS) then OICP
    else UNKNOWN
  }
}
