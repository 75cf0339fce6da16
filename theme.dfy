/** The two amount colours the screens choose between (their shades are not modelled). */
module Theme {
  datatype Tone = IncomeTone | ExpenseTone

  /** A non-negative amount is shown in the income colour, a negative one in the expense colour. */
  function ToneOf(amount: real): (t: Tone)
    ensures t == IncomeTone <==> amount >= 0.0
  {
    if amount >= 0.0 then IncomeTone else ExpenseTone
  }
}
