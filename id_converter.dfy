/// Id conversion: normalising an incoming key object into the scalar form
/// a store lookup expects.
module IdConverter {
  import opened Base

  /**
   * The framework helpers the converter calls and that are not modelled:
   * `long.TryParse`, `Guid.TryParse` and `Guid.ToString()`.
   */
  datatype Framework = Framework(
    longTryParse: string -> Option<int64>,
    guidTryParse: string -> Option<Guid>,
    guidToString: Guid -> string)

  /** The last resort of `TryConvert`: parse the text as a `long`, else as a `Guid`. */
  function ParseText(fw: Framework, text: string): Option<Obj> {
    match fw.longTryParse(text)
    case Some(l) => Some(LongValue(l))
    case None =>
      match fw.guidTryParse(text)
      case Some(g) => Some(GuidValue(g))
      case None => None
  }

  /**
   * `IdConverter.TryConvert`: a boxed `int` or `long` is returned as it is, a
   * record id is unwrapped to its key object, and anything else is converted
   * from its `ToString()` text, or not at all (`None`, the `false` return).
   */
  function TryConvert(fw: Framework, inValue: Obj): Option<Obj> {
    match inValue
    case IntValue(_) => Some(inValue)
    case LongValue(_) => Some(inValue)
    case RecordIdValue(keyObject) => Some(keyObject)
    case GuidValue(g) => ParseText(fw, fw.guidToString(g))
    case OtherValue(text) => ParseText(fw, text)
  }

  /** `IdConverter.Convert`: the converted value, or the value itself when it does not convert. */
  function Convert(fw: Framework, value: Obj): (r: Obj)
    ensures TryConvert(fw, value).Some? ==> r == TryConvert(fw, value).value
    ensures TryConvert(fw, value).None? ==> r == value
  {
    match TryConvert(fw, value)
    case Some(outValue) => outValue
    case None => value
  }

  /** True of the values a store lookup takes as a key. */
  predicate IsScalar(o: Obj) {
    o.IntValue? || o.LongValue? || o.GuidValue?
  }

  /** True when the framework prints every `Guid` as text that parses back to it and not as a `long`. */
  ghost predicate GuidTextRoundTrips(fw: Framework) {
    forall g: Guid {:trigger fw.guidToString(g)} ::
      fw.longTryParse(fw.guidToString(g)).None? && fw.guidTryParse(fw.guidToString(g)) == Some(g)
  }

  lemma IntAndLongAreKept(fw: Framework, v: Obj)
    requires v.IntValue? || v.LongValue?
    ensures TryConvert(fw, v) == Some(v)
  {
  }

  lemma RecordIdIsUnwrapped(fw: Framework, key: Obj)
    ensures TryConvert(fw, RecordIdValue(key)) == Some(key)
  {
  }

  /** Text that parses as a `long` converts to that `long`, even when it would also parse as a `Guid`. */
  lemma LongParseTakesPrecedence(fw: Framework, text: string)
    requires fw.longTryParse(text).Some?
    ensures TryConvert(fw, OtherValue(text)) == Some(LongValue(fw.longTryParse(text).value))
  {
  }

  lemma GuidParseIsTheFallback(fw: Framework, text: string)
    requires fw.longTryParse(text).None? && fw.guidTryParse(text).Some?
    ensures TryConvert(fw, OtherValue(text)) == Some(GuidValue(fw.guidTryParse(text).value))
  {
  }

  /** Conversion fails exactly when no rule matches: neither case fits and neither parse succeeds. */
  lemma {:induction false} ConversionFailsOnlyWhenNothingParses(fw: Framework, v: Obj)
    ensures TryConvert(fw, v).None? <==>
      ((v.GuidValue? || v.OtherValue?) &&
       var text := if v.GuidValue? then fw.guidToString(v.g) else v.text;
       fw.longTryParse(text).None? && fw.guidTryParse(text).None?)
  {
    match v
    case IntValue(_) =>
    case LongValue(_) =>
    case RecordIdValue(_) =>
    case GuidValue(g) =>
    case OtherValue(t) =>
  }

  /** Every rule except the record-id unwrapping yields a scalar key. */
  lemma ConvertedValuesAreScalar(fw: Framework, v: Obj)
    requires !v.RecordIdValue?
    ensures TryConvert(fw, v).Some? ==> IsScalar(TryConvert(fw, v).value)
  {
  }

  /** A boxed `Guid` survives conversion when the framework's Guid text round-trips. */
  lemma GuidIsKept(fw: Framework, g: Guid)
    requires GuidTextRoundTrips(fw)
    ensures TryConvert(fw, GuidValue(g)) == Some(GuidValue(g))
  {
    assert fw.longTryParse(fw.guidToString(g)).None?;
    assert fw.guidTryParse(fw.guidToString(g)) == Some(g);
  }

  /** Conversion is idempotent on the scalars it produces. */
  lemma ConversionIsIdempotent(fw: Framework, v: Obj)
    requires GuidTextRoundTrips(fw)
    requires TryConvert(fw, v).Some? && IsScalar(TryConvert(fw, v).value)
    ensures TryConvert(fw, TryConvert(fw, v).value) == TryConvert(fw, v)
  {
    var o := TryConvert(fw, v).value;
    if o.GuidValue? {
      GuidIsKept(fw, o.g);
    }
  }

  /** `Convert` leaves a scalar key unchanged. */
  lemma ConvertKeepsScalars(fw: Framework, v: Obj)
    requires GuidTextRoundTrips(fw) && IsScalar(v)
    ensures Convert(fw, v) == v
  {
    if v.GuidValue? {
      GuidIsKept(fw, v.g);
    }
  }
}
