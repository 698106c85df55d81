/** `parseFrequency`: an ADIF frequency in MHz that is a plain decimal numeral becomes a
    number of kHz; anything else is passed through untouched. The floating-point
    conversion itself is a parameter `toKhz` of the model. */
module Frequency {
  import opened Js

  /** The value `parseFrequency` returns: a number of kHz, the input string passed
      through, or `undefined` when there was no input. */
  datatype Freq = KHz(khz: real) | Label(text: string) | Missing

  /** `/^[\d.]+$/.test(s)`: one or more characters, each a digit or a dot. */
  predicate IsNumericFrequency(s: string)
  {
    s != "" && forall i :: 0 <= i < |s| ==> IsDigit(s[i]) || s[i] == '.'
  }

  function ParseFrequency(freq: Option<string>, toKhz: string -> real): (r: Freq)
    ensures r.KHz? <==> freq.Some? && IsNumericFrequency(freq.value)
    ensures r.KHz? ==> r.khz == toKhz(freq.value)
    ensures freq.None? ==> r == Missing
    ensures freq.Some? && !IsNumericFrequency(freq.value) ==> r == Label(freq.value)
  {
    match freq
    case None => Missing
    case Some(s) => if s != "" && IsNumericFrequency(s) then KHz(toKhz(s)) else Label(s)
  }
}
