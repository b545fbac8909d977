/** Quotes and the snapshot a decision sees. */
module Market {
  import opened Options

  datatype Quote = Quote(expiration: Instant, strike: real, right: Right, bid: real, ask: real,
                         bidSize: int, askSize: int, iv: real)
  {
    function Mid(): real { 0.5 * (bid + ask) }

    predicate IsFor(leg: Leg) { expiration == leg.expiry && strike == leg.strike && right == leg.right }
  }

  /** `timestamp` and the minute counts are in minutes; `day` is the calendar day. */
  datatype Snapshot = Snapshot(timestamp: Instant, day: int, spot: real, chain: seq<Quote>,
                               minutesToClose: real, hasBlockingEvent: bool, dataQuality: real)

  /** First quote of the chain for the leg's contract. */
  function QuoteFor(chain: seq<Quote>, leg: Leg): (q: Option<Quote>)
    ensures q.Some? ==> q.value in chain && q.value.IsFor(leg)
    ensures q.None? ==> forall c | c in chain :: !c.IsFor(leg)
  {
    if chain == [] then None else if chain[0].IsFor(leg) then Some(chain[0]) else QuoteFor(chain[1..], leg)
  }

  /** No quote before the one found is for the contract. */
  lemma {:induction false} QuoteIsFirst(chain: seq<Quote>, leg: Leg) returns (i: nat)
    requires QuoteFor(chain, leg).Some?
    ensures i < |chain| && QuoteFor(chain, leg) == Some(chain[i]) && chain[i].IsFor(leg)
    ensures forall j | 0 <= j < i :: !chain[j].IsFor(leg)
  {
    i := 0;
    if !chain[0].IsFor(leg) {
      var k := QuoteIsFirst(chain[1..], leg);
      i := k + 1;
    }
  }

  /** One usable quote per leg, or none when any leg is unquoted or has no positive midpoint. */
  function QuotesFor(chain: seq<Quote>, legs: seq<Leg>): (qs: Option<seq<Quote>>)
    ensures qs.Some? ==> |qs.value| == |legs|
  {
    if legs == [] then Some([])
    else
      var q, rest := QuoteFor(chain, legs[0]), QuotesFor(chain, legs[1..]);
      if q.None? || q.value.Mid() <= 0.0 || rest.None? then None else Some([q.value] + rest.value)
  }

  /** Quotes are found exactly when every leg's first quote has a positive midpoint; they are then those
      quotes, in order. */
  lemma {:induction false} QuotesForExactlyWhen(chain: seq<Quote>, legs: seq<Leg>)
    ensures QuotesFor(chain, legs).Some? <==> forall l | l in legs :: HasPrice(chain, l)
    ensures QuotesFor(chain, legs).Some? ==>
      forall i | 0 <= i < |legs| :: QuoteFor(chain, legs[i]) == Some(QuotesFor(chain, legs).value[i])
  {
    hide QuoteFor, Quote.Mid;
    if legs != [] {
      QuotesForExactlyWhen(chain, legs[1..]);
      assert QuotesFor(chain, legs).Some? <==> HasPrice(chain, legs[0]) && QuotesFor(chain, legs[1..]).Some?;
      hide QuotesFor, HasPrice;
      assert forall l :: l in legs <==> l == legs[0] || l in legs[1..];
      assert legs[0] in legs;
    }
  }

  predicate HasPrice(chain: seq<Quote>, leg: Leg) {
    QuoteFor(chain, leg).Some? && QuoteFor(chain, leg).value.Mid() > 0.0
  }

  function Inverted(leg: Leg): Leg { leg.(quantity := -leg.quantity) }

  /** The structure that offsets `legs` leg by leg. */
  function InvertedLegs(legs: seq<Leg>): (r: seq<Leg>)
    ensures |r| == |legs|
  {
    seq(|legs|, i requires 0 <= i < |legs| => Inverted(legs[i]))
  }

  /** Inverting a structure does not change which quotes it needs. */
  lemma {:induction false} InvertedLegsNeedSameQuotes(chain: seq<Quote>, legs: seq<Leg>)
    ensures QuotesFor(chain, InvertedLegs(legs)) == QuotesFor(chain, legs)
  {
    if legs != [] {
      InvertedLegsNeedSameQuotes(chain, legs[1..]);
      assert InvertedLegs(legs)[1..] == InvertedLegs(legs[1..]);
      SameContractSameQuote(chain, legs[0]);
    }
  }

  lemma {:induction false} SameContractSameQuote(chain: seq<Quote>, leg: Leg)
    ensures QuoteFor(chain, Inverted(leg)) == QuoteFor(chain, leg)
  {
    if chain != [] {
      SameContractSameQuote(chain[1..], leg);
    }
  }
}
