/**
 * The two date validators of `SearchForm`. Today's date is a parameter.
 */
module Forms {
  import opened Basics
  import opened Dates

  /** A validator's verdict: the field is accepted, or rejected with its message. */
  datatype Verdict = Accepted | Rejected(message: string)

  const CheckInInPast: string := "入住日期不能早於今天"
  const CheckOutNotAfterCheckIn: string := "退房日期必須晚於入住日期"

  /** `validate_check_in_date`: a check-in before today is rejected; today itself is accepted. */
  function ValidateCheckIn(checkIn: Date, today: Date): (v: Verdict)
    ensures v.Rejected? <==> Before(checkIn, today)
    ensures v.Rejected? ==> v.message == CheckInInPast
  {
    if Before(checkIn, today) then Rejected(CheckInInPast) else Accepted
  }

  /**
   * `validate_check_out_date`: with a check-in date, a check-out on or
   * before it is rejected; without one (the check-in field failed to
   * parse) the rule is skipped.
   */
  function ValidateCheckOut(checkIn: Option<Date>, checkOut: Date): (v: Verdict)
    ensures v.Rejected? <==> checkIn.Some? && AtOrBefore(checkOut, checkIn.value)
    ensures checkIn.None? ==> v == Accepted
    ensures v.Rejected? ==> v.message == CheckOutNotAfterCheckIn
  {
    if checkIn.Some? && AtOrBefore(checkOut, checkIn.value) then Rejected(CheckOutNotAfterCheckIn) else Accepted
  }

  /** A stay passes both validators exactly when today <= check-in < check-out. */
  lemma AcceptedStays(checkIn: Date, checkOut: Date, today: Date)
    ensures ValidateCheckIn(checkIn, today) == Accepted && ValidateCheckOut(Some(checkIn), checkOut) == Accepted
      <==> AtOrBefore(today, checkIn) && Before(checkIn, checkOut)
  {
    BeforeIsStrictTotalOrder(checkIn, today, checkOut);
    BeforeIsStrictTotalOrder(checkIn, checkOut, today);
  }
}
