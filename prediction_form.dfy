/** The symbol input of the dashboard's prediction form: what the input
    stores on each change, when a submit reaches `onSearch`, and when the
    submit button is disabled. */
module PredictionForm {
  import opened Wrappers
  import opened Text
  import opened JsValues
  import opened ForecastRoutes

  const MaxLength := 15

  /** `handleChange`: the typed value upper-cased and cut to 15
      characters. */
  function Normalize(value: string): (r: string)
    ensures |r| == Min(MaxLength, |value|)
    ensures forall i :: 0 <= i < |r| ==> r[i] == UpperChar(value[i])
  {
    Upper(value)[..Min(MaxLength, |value|)]
  }

  /** Normalising the stored symbol again changes nothing. */
  lemma NormalizeIdempotent(value: string)
    ensures Normalize(Normalize(value)) == Normalize(value)
  {
    var r := Normalize(value);
    assert Normalize(r) == Upper(r);
    UpperIdempotent(value[..|r|]);
  }

  /** `!symbol.trim()`: the symbol is blank when every character is
      whitespace. */
  predicate Blank(symbol: string)
  {
    Trim(symbol, IsJsSpace) == ""
  }

  /** `handleSubmit`: the symbol `onSearch` is called with, if any. */
  function HandleSubmit(symbol: string): (r: Option<string>)
    ensures r.Some? <==> !(forall i :: 0 <= i < |symbol| ==> IsJsSpace(symbol[i]))
    ensures r.Some? ==> r.value == symbol
  {
    TrimEmptyIff(symbol, IsJsSpace);
    if !Blank(symbol) then Some(symbol) else None
  }

  /** The submit button's `disabled` attribute. */
  predicate Disabled(loading: bool, symbol: string)
  {
    loading || Blank(symbol)
  }

  /** The button is disabled exactly when a search is running or the
      symbol is all whitespace; when no search is running, an enabled
      button and a submit that reaches `onSearch` go together. */
  lemma DisabledIff(loading: bool, symbol: string)
    ensures Disabled(loading, symbol) <==> loading || forall i :: 0 <= i < |symbol| ==> IsJsSpace(symbol[i])
    ensures !loading ==> (Disabled(loading, symbol) <==> HandleSubmit(symbol).None?)
  {
    TrimEmptyIff(symbol, IsJsSpace);
  }

  /** The form keeps up to 15 characters but the forecast route admits at
      most 10: an 11-character letter symbol passes the form and is refused
      by the route. */
  lemma FormAdmitsWhatRouteRefuses()
    ensures var stored := Normalize("ABCDEFGHIJK");
      && HandleSubmit(stored) == Some(stored)
      && ValidateForecastRequest(Str(Upper(stored))) == Reject(400, "Symbol must be 10 characters or less")
  {
    var stored := Normalize("ABCDEFGHIJK");
    assert |stored| == 11;
    assert !IsJsSpace(stored[0]);
    UpperIdempotent("ABCDEFGHIJK");
  }
}
