/** The rebook rule of `compareRates` (transferwise.go:149-172) over the outcomes of its three inputs. */
module Decision {
  import opened Results
  import opened Records

  /**
   * The live rate beats the booked one, by at least the margin. A rebook is always a strict
   * improvement, even with a negative margin.
   */
  function ShouldRebook(booked: real, live: real, margin: real): (rebook: bool)
    ensures rebook ==> live > booked
  {
    live > booked && live - booked >= margin
  }

  /**
   * What `compareRates` returns: whether to rebook, the booked transfer, the observed live rate
   * (0 when rebooking) and the error, if any.
   */
  datatype Comparison = Comparison(rebook: bool, transfer: Transfer, liveRate: real, err: Option<string>)

  const ComparePrefix := "compareRates: "
  /** How Go's `%v` prints a nil error. */
  const NilError := "<nil>"

  function CompareFailure(cause: string): Comparison {
    Comparison(false, EmptyTransfer, 0.0, Some(ComparePrefix + cause))
  }

  /**
   * booked: what `getBookedTransfer` returned; live: what `getLiveRate` returned for the booked
   * currency pair (ignored when booked is unusable); margin: the outcome of parsing MARGIN.
   */
  function Decide(booked: Result<Transfer>, live: Result<real>, margin: Result<real>): (c: Comparison)
    ensures c.err.Some? <==>
      booked.Err? || booked.value == EmptyTransfer || live.Err? || live.value == 0.0 || margin.Err?
    ensures c.err.Some? ==> !c.rebook && c.transfer == EmptyTransfer && c.liveRate == 0.0
    ensures c.err.Some? ==> ComparePrefix <= c.err.value
    ensures c.err.None? ==> c.transfer == booked.value
    ensures c.err.None? ==> (c.rebook <==> ShouldRebook(booked.value.rate, live.value, margin.value))
    ensures c.err.None? && c.rebook ==> c.liveRate == 0.0
    ensures c.err.None? && !c.rebook ==> c.liveRate == live.value
  {
    if booked.Err? then CompareFailure(booked.msg)
    else if booked.value == EmptyTransfer then CompareFailure(NilError)
    else if live.Err? then CompareFailure(live.msg)
    else if live.value == 0.0 then CompareFailure(NilError)
    else if margin.Err? then CompareFailure(margin.msg)
    else if ShouldRebook(booked.value.rate, live.value, margin.value) then
      Comparison(true, booked.value, 0.0, None)
    else
      Comparison(false, booked.value, live.value, None)
  }

  /** With a margin of zero or less, any strict improvement triggers a rebook, and an equal rate never does. */
  lemma NonPositiveMarginNeedsOnlyImprovement(booked: real, live: real, margin: real)
    requires margin <= 0.0
    ensures ShouldRebook(booked, live, margin) <==> live > booked
  {
  }

  /** With a positive margin, reaching the margin is the whole test. */
  lemma PositiveMarginIsTheThreshold(booked: real, live: real, margin: real)
    requires margin > 0.0
    ensures ShouldRebook(booked, live, margin) <==> live - booked >= margin
  {
  }

  /** A higher live rate or a lower margin never turns a rebook into no action. */
  lemma RebookIsMonotone(booked: real, live: real, margin: real, live': real, margin': real)
    requires ShouldRebook(booked, live, margin)
    requires live <= live' && margin' <= margin
    ensures ShouldRebook(booked, live', margin')
  {
  }

  /** The three worked cases of the rule: equal rates, an improvement below the margin, one above it. */
  lemma DecideExamples(t: Transfer)
    requires t != EmptyTransfer && t.rate == 1.10
    ensures Decide(Ok(t), Ok(1.10), Ok(0.0)) == Comparison(false, t, 1.10, None)
    ensures Decide(Ok(t), Ok(1.115), Ok(0.02)) == Comparison(false, t, 1.115, None)
    ensures Decide(Ok(t), Ok(1.12), Ok(0.01)) == Comparison(true, t, 0.0, None)
  {
  }
}
