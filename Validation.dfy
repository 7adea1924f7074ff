/** The `validate` helper: one candidate value checked against the optional
    constraints of a `Validatable` rule. */
module Validation {
  import opened Wrappers
  import opened Strings

  /** `value: string | number`; the number is taken to be an integer. */
  datatype Candidate = Text(text: string) | Number(number: int)

  /** A rule: the value plus each optional constraint (`None` is `undefined`;
      an absent `required` is the same as `false`). */
  datatype Validatable = Validatable(
    value: Candidate,
    required: bool,
    min: Option<int>,
    max: Option<int>,
    minLength: Option<int>,
    maxLength: Option<int>)

  /** A rule with the value only and no constraint. */
  function Bare(value: Candidate): Validatable {
    Validatable(value, false, None, None, None, None)
  }

  /** `validate(obj)`: starts valid and ANDs in every supplied constraint that
      belongs to the value's branch; text is measured after trimming, and a
      number is checked against `min` and `max` only. */
  function Validate(v: Validatable): (ok: bool)
    ensures v.value.Text? ==>
      (ok <==>
        (v.required ==> Trim(v.value.text) != [])
        && (v.minLength.Some? ==> Utf16Length(Trim(v.value.text)) >= v.minLength.value)
        && (v.maxLength.Some? ==> Utf16Length(Trim(v.value.text)) <= v.maxLength.value))
    ensures v.value.Number? ==>
      (ok <==>
        (v.min.Some? ==> v.value.number >= v.min.value)
        && (v.max.Some? ==> v.value.number <= v.max.value))
  {
    var isValid := true;
    match v.value
    case Text(text) =>
      var trimmed := Trim(text);
      var afterRequired := if v.required then isValid && Utf16Length(trimmed) != 0 else isValid;
      var afterMin := if v.minLength.Some? then afterRequired && Utf16Length(trimmed) >= v.minLength.value else afterRequired;
      if v.maxLength.Some? then afterMin && Utf16Length(trimmed) <= v.maxLength.value else afterMin
    case Number(number) =>
      var afterMin := if v.min.Some? then isValid && number >= v.min.value else isValid;
      if v.max.Some? then afterMin && number <= v.max.value else afterMin
  }

  /** With the value alone, every string and every number is valid. */
  lemma ValidateBare(value: Candidate)
    ensures Validate(Bare(value))
  {
  }

  /** `required` on text fails exactly when nothing but whitespace is left,
      so a blank or whitespace-only string fails. */
  lemma ValidateRequiredText(text: string)
    ensures Validate(Bare(Text(text)).(required := true))
      <==> exists i :: 0 <= i < |text| && !IsWhitespace(text[i])
  {
  }

  /** With `minLength` m and `maxLength` M, text passes exactly when its trimmed
      length is within [m, M]; both bounds are inclusive. */
  lemma ValidateTextLength(text: string, m: int, M: int)
    ensures Validate(Bare(Text(text)).(minLength := Some(m), maxLength := Some(M)))
      <==> m <= Utf16Length(Trim(text)) <= M
  {
  }

  /** A number passes exactly when it is within the supplied `min` and `max`. */
  lemma ValidateNumberRange(n: int, m: int, M: int)
    ensures Validate(Bare(Number(n)).(min := Some(m))) <==> m <= n
    ensures Validate(Bare(Number(n)).(max := Some(M))) <==> n <= M
    ensures Validate(Bare(Number(n)).(min := Some(m), max := Some(M))) <==> m <= n <= M
  {
  }

  /** `required`, `minLength` and `maxLength` have no effect on a number:
      in particular `0` with `required: true` and no `min` is valid. */
  lemma ValidateNumberIgnoresTextRules(v: Validatable, w: Validatable)
    requires v.value.Number? && v.value == w.value
    requires v.min == w.min && v.max == w.max
    ensures Validate(v) == Validate(w)
  {
  }

  /** `min` and `max` have no effect on text. */
  lemma ValidateTextIgnoresNumberRules(v: Validatable, w: Validatable)
    requires v.value.Text? && v.value == w.value
    requires v.required == w.required && v.minLength == w.minLength && v.maxLength == w.maxLength
    ensures Validate(v) == Validate(w)
  {
  }

  /** `required` on a number does not reject zero. */
  lemma ValidateRequiredZero()
    ensures Validate(Bare(Number(0)).(required := true))
  {
  }

  /** Worked cases: a three-character minimum rejects "ab" and accepts "abc";
      the people rule rejects 0 (through `min`) and accepts 5. */
  lemma ValidateExamples()
    ensures !Validate(Bare(Text("ab")).(required := true, minLength := Some(3)))
    ensures Validate(Bare(Text("abc")).(required := true, minLength := Some(3)))
    ensures !Validate(Bare(Number(0)).(required := true, min := Some(1), max := Some(100)))
    ensures Validate(Bare(Number(5)).(required := true, min := Some(1), max := Some(100)))
  {
    assert LeadingBlanks("ab") == 0 && TrailingBlanks("ab") == 0;
    assert LeadingBlanks("abc") == 0 && TrailingBlanks("abc") == 0;
    Utf16LengthBmp("ab");
    Utf16LengthBmp("abc");
  }
}
