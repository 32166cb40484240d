/**
 The three-month window for the first installment, checked in two places:
 the `@MaxFutureDate` bean validator on the request and the service's own
 check before saving. Both read the clock and add three calendar months;
 here that sum is the parameter `limit`, the same for both.
 */
module DateWindow {
  import opened Nullable
  import opened Entities

  /** MaxFutureDateValidator.isValid: null, or not after `limit`. */
  function IsValid(value: Option<Day>, limit: Day): (ok: bool)
    ensures value.None? ==> ok
    ensures value.Some? ==> (ok <==> value.value <= limit)
  {
    value == None || !(value.value > limit)
  }

  /** CreditService.validDayFirstInstallment: passes only dates strictly
      before `limit` (`isBefore`), otherwise raises a BusinessException. */
  predicate ServiceAccepts(day: Day, limit: Day) {
    day < limit
  }

  /** The validator's window is closed downwards: any earlier date is valid too. */
  lemma ValidIsDownwardClosed(d: Day, earlier: Day, limit: Day)
    requires IsValid(Some(d), limit)
    requires earlier <= d
    ensures IsValid(Some(earlier), limit)
  {
  }

  /** Every date the service accepts passes the validator, and the two
      disagree on exactly one date: `limit` itself, which the validator
      accepts and the service rejects. */
  lemma ServiceCheckIsStricter(d: Day, limit: Day)
    ensures ServiceAccepts(d, limit) ==> IsValid(Some(d), limit)
    ensures (IsValid(Some(d), limit) && !ServiceAccepts(d, limit)) <==> d == limit
  {
  }
}
