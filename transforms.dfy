/** The transform engine: `apply_transform` (flexible_scraper.py:226-244). */
module Transforms {
  import opened Wrappers
  import opened Values
  import opened Text
  import opened Oracles

  /** A field's `transform` dict; each entry is None when the key is absent. */
  datatype Transform = Transform(
    kind: Option<string>,          // 'type'
    pattern: Option<string>,       // 'pattern' (regex)
    replacement: Option<string>,   // 'replacement' (regex), default ''
    chars: Option<string>)         // 'chars' (strip_chars), default whitespace

  const KnownKinds: set<string> := {"regex", "strip_chars", "convert_to_number"}

  function StripSetOf(chars: Option<string>): StripSet
  {
    if chars.Some? then Chars(chars.value) else Whitespace
  }

  /** float() accepts the first numeric substring of `value`, if there is one
      (Python's float always does for a match of the numeric pattern). */
  predicate NumeralParses(value: string, eng: Engine)
  {
    FirstNumeral(value).Some? ==> eng.toFloat(FirstNumeral(value).value).Some?
  }

  /** `convert_to_number`: the float of the first numeric substring, or the
      string itself when there is none or float() fails. */
  function ConvertToNumber(value: string, eng: Engine): (r: Value)
    ensures r == Str(value) || r.Num?
    ensures r.Num? ==> HasDigit(value) && FirstNumeral(value).Some? && eng.toFloat(FirstNumeral(value).value) == Some(r.x)
    ensures NumeralParses(value, eng) ==> (r == Str(value) <==> !HasDigit(value))
  {
    NumeralExistsIffDigit(value);
    match FirstNumeral(value)
    case None => Str(value)
    case Some(n) =>
      match eng.toFloat(n)
      case Some(x) => Num(x)
      case None => Str(value)
  }

  /** `transform_config.get('replacement', '')`. */
  function ReplacementOf(t: Transform): string
  {
    if t.replacement.Some? then t.replacement.value else ""
  }

  /** `apply_transform(value, transform)`. Only a `regex` transform without a
      `pattern` key raises (the KeyError is outside the try); an unknown or
      missing type gives the value back unchanged. */
  function ApplyTransform(value: string, t: Transform, eng: Engine): (r: Result<Value>)
    ensures r.Raised? <==> t.kind == Some("regex") && t.pattern.None?
    ensures (t.kind.None? || t.kind.value !in KnownKinds) ==> r == Ok(Str(value))
    ensures r.Ok? && t.kind != Some("convert_to_number") ==> r.value.Str?
    ensures t.kind == Some("regex") && t.pattern.Some? ==>
      var out := eng.sub(t.pattern.value, ReplacementOf(t), value);
      r == Ok(Str(if out.Some? then out.value else value))
    ensures t.kind == Some("strip_chars") ==> r == Ok(Str(Strip(value, StripSetOf(t.chars))))
    ensures t.kind == Some("convert_to_number") ==> r == Ok(ConvertToNumber(value, eng))
  {
    if t.kind == Some("regex") then
      match t.pattern
      case None => Raised
      case Some(p) =>
        match eng.sub(p, ReplacementOf(t), value)
        case Some(out) => Ok(Str(out))
        case None => Ok(Str(value))
    else if t.kind == Some("strip_chars") then
      Ok(Str(Strip(value, StripSetOf(t.chars))))
    else if t.kind == Some("convert_to_number") then
      Ok(ConvertToNumber(value, eng))
    else
      Ok(Str(value))
  }

  /** A regex substitution that raises (an invalid pattern) leaves the value as it was. */
  lemma RegexFailureKeepsValue(value: string, t: Transform, eng: Engine)
    requires t.kind == Some("regex") && t.pattern.Some?
    requires eng.sub(t.pattern.value, ReplacementOf(t), value).None?
    ensures ApplyTransform(value, t, eng) == Ok(Str(value))
  {
  }

  /** strip_chars yields a contiguous slice of the value whose ends are not in
      the strip set, and applying it again changes nothing. */
  lemma StripCharsTransform(value: string, t: Transform, eng: Engine)
    requires t.kind == Some("strip_chars")
    ensures var r := ApplyTransform(value, t, eng);
      var st := StripSetOf(t.chars);
      r.Ok? && r.value.Str?
      && (exists i: nat :: OccursAt(r.value.s, value, i))
      && (r.value.s == [] || (!Strippable(r.value.s[0], st) && !Strippable(r.value.s[|r.value.s| - 1], st)))
      && ApplyTransform(r.value.s, t, eng) == r
  {
    var st := StripSetOf(t.chars);
    var w := Strip(value, st);
    StripCharsIsStrip(value, t, eng);
    StripOccurs(value, st);
    StripIdempotent(value, st);
    StripCharsIsStrip(w, t, eng);
  }

  /** A strip_chars transform is `Strip` with its strip set. */
  lemma StripCharsIsStrip(value: string, t: Transform, eng: Engine)
    requires t.kind == Some("strip_chars")
    ensures ApplyTransform(value, t, eng) == Ok(Str(Strip(value, StripSetOf(t.chars))))
  {
  }

  lemma ScoreNumeral()
    ensures FirstNumeral("Score: 87.5%") == Some("87.5")
  {
    var s := "Score: 87.5%";
    assert AfterSign(s, 7) == 7;
    assert NumberStartsAt(s, 7);
    assert DigitsEnd(s, 9) == 9;
    assert DigitsEnd(s, 7) == 9;
    assert DigitsEnd(s, 10) == 11;
    assert NumberEnd(s, 7) == 11;
    assert s[7..11] == "87.5";
    assert FirstNumeralFrom(s, 7) == Some("87.5");
    assert !NumberStartsAt(s, 6);
    assert !NumberStartsAt(s, 5);
    assert !NumberStartsAt(s, 4);
    assert !NumberStartsAt(s, 3);
    assert !NumberStartsAt(s, 2);
    assert !NumberStartsAt(s, 1);
    assert !NumberStartsAt(s, 0);
  }

  /** The worked examples: "Score: 87.5%" converts to 87.5 and "N/A" is kept. */
  lemma ConvertExamples(eng: Engine)
    requires eng.toFloat("87.5") == Some(87.5)
    ensures ConvertToNumber("Score: 87.5%", eng) == Num(87.5)
    ensures ConvertToNumber("N/A", eng) == Str("N/A")
  {
    ScoreNumeral();
    var t := "N/A";
    assert !HasDigit(t) by {
      forall k | 0 <= k < |t| ensures !IsDigit(t[k]) {
      }
    }
  }

  /** A captured "0" converts to the number zero, which is falsy. */
  lemma ConvertZero(eng: Engine, t: Transform)
    requires t.kind == Some("convert_to_number")
    requires eng.toFloat("0") == Some(0.0)
    ensures ApplyTransform("0", t, eng) == Ok(Num(0.0)) && !Truthy(Num(0.0))
  {
    assert AfterSign("0", 0) == 0;
    assert DigitsEnd("0", 1) == 1;
    assert DigitsEnd("0", 0) == 1;
    assert NumberEnd("0", 0) == 1;
    assert "0"[0..1] == "0";
    assert FirstNumeral("0") == Some("0");
  }
}
