/** PSR-3 log levels. They are the eight severities of section 6.2.1 of RFC 5424,
    whose numerical codes run from 0 (emergency) to 7 (debug): a smaller code is
    a more severe level. */
module Severity {

  datatype Level = Debug | Info | Notice | Warning | Error | Critical | Alert | Emergency

  /** The numerical code of a level in section 6.2.1 of RFC 5424. */
  function Code(l: Level): (c: nat)
    ensures c <= 7
  {
    match l
    case Emergency => 0
    case Alert => 1
    case Critical => 2
    case Error => 3
    case Warning => 4
    case Notice => 5
    case Info => 6
    case Debug => 7
  }

  /** `l` is at least as severe as `floor`. */
  predicate AtLeast(l: Level, floor: Level) {
    Code(l) <= Code(floor)
  }

  /** Distinct levels have distinct codes, so AtLeast is a total order on levels
      (debug < info < notice < warning < error < critical < alert < emergency). */
  lemma AtLeastIsTotalOrder(a: Level, b: Level, c: Level)
    ensures AtLeast(a, a)
    ensures AtLeast(a, b) && AtLeast(b, a) ==> a == b
    ensures AtLeast(a, b) && AtLeast(b, c) ==> AtLeast(a, c)
    ensures AtLeast(a, b) || AtLeast(b, a)
  {
  }
}
