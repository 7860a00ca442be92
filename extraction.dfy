/** The field strategy cascade: `extract_with_config`
    (flexible_scraper.py:162-224). */
module Extraction {
  import opened Wrappers
  import opened Values
  import opened Text
  import opened Oracles
  import opened Transforms

  /** One `{'selector': ..., 'attribute': ...}` entry of a field's `attributes`. */
  datatype AttrSpec = AttrSpec(selector: string, attribute: string)

  /** A field's configuration; an absent list is the empty list. */
  datatype FieldSpec = FieldSpec(
    cssSelectors: seq<string>,
    xpaths: seq<string>,
    textPatterns: seq<string>,
    attributes: seq<AttrSpec>,
    transform: Option<Transform>)

  /** The field configuration: field name to its strategies. */
  type FieldConfig = map<string, FieldSpec>

  /** The `method` argument: which acquisition produced the page. */
  datatype Mode = Selenium | Requests

  /** A lookup result that ends a strategy loop: a non-empty string. */
  predicate Hit(o: Option<string>)
  {
    o.Some? && o.value != ""
  }

  /** `.strip()` applied to a found text. */
  function StripText(o: Option<string>): Option<string>
  {
    match o
    case None => None
    case Some(t) => Some(Strip(t, Whitespace))
  }

  /** The value one strategy loop settles on: the first entry, in order, whose
      lookup is a hit; None when no entry hits. */
  function FirstHit<X>(xs: seq<X>, look: X -> Option<string>): (r: Option<string>)
    ensures r.Some? ==> Hit(r)
    ensures r.None? <==> forall i :: 0 <= i < |xs| ==> !Hit(look(xs[i]))
  {
    if |xs| == 0 then None
    else if Hit(look(xs[0])) then look(xs[0])
    else FirstHit(xs[1..], look)
  }

  /** The first hitting entry wins, whatever the entries after it would give. */
  lemma {:induction false} FirstHitIsFirst<X>(xs: seq<X>, look: X -> Option<string>, i: nat)
    requires i < |xs| && Hit(look(xs[i]))
    requires forall j :: 0 <= j < i ==> !Hit(look(xs[j]))
    ensures FirstHit(xs, look) == look(xs[i])
  {
    if i > 0 {
      assert !Hit(look(xs[0]));
      FirstHitIsFirst(xs[1..], look, i - 1);
    }
  }

  function CssLookup(page: Page): string -> Option<string>
  {
    page.select
  }

  function XPathLookup(page: Page): string -> Option<string>
  {
    (xp: string) => StripText(page.xpath(xp))
  }

  function PatternLookup(page: Page, eng: Engine): string -> Option<string>
  {
    (p: string) => StripText(eng.search(p, page.text))
  }

  function AttributeLookup(page: Page): AttrSpec -> Option<string>
  {
    (a: AttrSpec) => page.attr(a.selector, a.attribute)
  }

  /** The raw value of one field: CSS selectors, then XPath (Selenium pages
      only), then text patterns, then attributes; the first strategy with a
      hit decides. */
  function RawValue(page: Page, spec: FieldSpec, mode: Mode, eng: Engine): (r: Option<string>)
    ensures r.Some? ==> r.value != ""
  {
    var css := FirstHit(spec.cssSelectors, CssLookup(page));
    if css.Some? then css
    else
      var xp := if mode == Selenium then FirstHit(spec.xpaths, XPathLookup(page)) else None;
      if xp.Some? then xp
      else
        var pat := FirstHit(spec.textPatterns, PatternLookup(page, eng));
        if pat.Some? then pat
        else FirstHit(spec.attributes, AttributeLookup(page))
  }

  /** What `extract_with_config` records for one field: the raw value,
      transformed when the field has a transform, and "Not Found" when that is
      falsy. Raises only when the transform does. */
  function FieldValue(page: Page, spec: FieldSpec, mode: Mode, eng: Engine): (r: Result<Value>)
    ensures r.Ok? ==> (Truthy(r.value) || r.value == NotFound) && (r.value.Str? || r.value.Num?)
    ensures r.Raised? ==> RawValue(page, spec, mode, eng).Some? && spec.transform.Some?
    ensures RawValue(page, spec, mode, eng).Some? && spec.transform.None? ==>
      r == Ok(Str(RawValue(page, spec, mode, eng).value))
    ensures RawValue(page, spec, mode, eng).Some? && spec.transform.Some? ==>
      var t := ApplyTransform(RawValue(page, spec, mode, eng).value, spec.transform.value, eng);
      (t.Raised? ==> r.Raised?)
      && (t.Ok? && Truthy(t.value) ==> r == Ok(t.value))
      && (t.Ok? && !Truthy(t.value) ==> r == Ok(NotFound))
  {
    match RawValue(page, spec, mode, eng)
    case None => Ok(NotFound)
    case Some(v) =>
      if spec.transform.None? then Ok(Str(v))
      else
        match ApplyTransform(v, spec.transform.value, eng)
        case Raised => Raised
        case Ok(x) => Ok(if Truthy(x) then x else NotFound)
  }

  /** The whole `extract_with_config`: one entry per configured field, or a
      raise when some field's transform raises. */
  ghost function Extract(page: Page, fields: FieldConfig, mode: Mode, eng: Engine): (r: Result<Record>)
    ensures r.Ok? ==> r.value.Keys == fields.Keys
    ensures r.Ok? ==> forall k :: k in fields ==> FieldValue(page, fields[k], mode, eng) == Ok(r.value[k])
    ensures r.Raised? <==> exists k :: k in fields && FieldValue(page, fields[k], mode, eng).Raised?
  {
    if exists k :: k in fields && FieldValue(page, fields[k], mode, eng).Raised? then Raised
    else Ok(map k | k in fields :: FieldValue(page, fields[k], mode, eng).value)
  }

  /** Strategy 1: CSS selectors; the loop breaks on the first non-empty text. */
  method SelectorStrategy(page: Page, selectors: seq<string>) returns (value: Option<string>)
    ensures value == FirstHit(selectors, CssLookup(page))
  {
    value := None;
    var i := 0;
    while i < |selectors|
      invariant 0 <= i <= |selectors|
      invariant FirstHit(selectors[i..], CssLookup(page)) == FirstHit(selectors, CssLookup(page))
    {
      var el := page.select(selectors[i]);
      if el.Some? && el.value != "" {
        value := el;
        break;
      }
      i := i + 1;
    }
  }

  /** Strategy 2: XPath on the live browser page, each text stripped. */
  method XPathStrategy(page: Page, xpaths: seq<string>) returns (value: Option<string>)
    ensures value == FirstHit(xpaths, XPathLookup(page))
  {
    value := None;
    var i := 0;
    while i < |xpaths|
      invariant 0 <= i <= |xpaths|
      invariant FirstHit(xpaths[i..], XPathLookup(page)) == FirstHit(xpaths, XPathLookup(page))
    {
      var el := page.xpath(xpaths[i]);
      if el.Some? {
        var textVal := Strip(el.value, Whitespace);
        if textVal != "" {
          value := Some(textVal);
          break;
        }
      }
      i := i + 1;
    }
  }

  /** Strategy 3: regex search over the page text, capture group 1 stripped. */
  method PatternStrategy(page: Page, patterns: seq<string>, eng: Engine) returns (value: Option<string>)
    ensures value == FirstHit(patterns, PatternLookup(page, eng))
  {
    value := None;
    var textContent := page.text;
    var i := 0;
    while i < |patterns|
      invariant 0 <= i <= |patterns|
      invariant FirstHit(patterns[i..], PatternLookup(page, eng)) == FirstHit(patterns, PatternLookup(page, eng))
    {
      var m := eng.search(patterns[i], textContent);
      if m.Some? {
        var captured := Strip(m.value, Whitespace);
        if captured != "" {
          value := Some(captured);
          break;
        }
      }
      i := i + 1;
    }
  }

  /** Strategy 4: an attribute of the first element a selector finds. */
  method AttributeStrategy(page: Page, attrs: seq<AttrSpec>) returns (value: Option<string>)
    ensures value == FirstHit(attrs, AttributeLookup(page))
  {
    value := None;
    var i := 0;
    while i < |attrs|
      invariant 0 <= i <= |attrs|
      invariant FirstHit(attrs[i..], AttributeLookup(page)) == FirstHit(attrs, AttributeLookup(page))
    {
      var attrVal := page.attr(attrs[i].selector, attrs[i].attribute);
      if attrVal.Some? && attrVal.value != "" {
        value := attrVal;
        break;
      }
      i := i + 1;
    }
  }

  /** The body of the per-field loop of `extract_with_config`. */
  method ExtractField(page: Page, spec: FieldSpec, mode: Mode, eng: Engine) returns (r: Result<Value>)
    ensures r == FieldValue(page, spec, mode, eng)
  {
    var value := SelectorStrategy(page, spec.cssSelectors);
    if value.None? && mode == Selenium {
      value := XPathStrategy(page, spec.xpaths);
    }
    if value.None? {
      value := PatternStrategy(page, spec.textPatterns, eng);
    }
    if value.None? {
      value := AttributeStrategy(page, spec.attributes);
    }
    if value.None? {
      return Ok(NotFound);
    }
    if spec.transform.None? {
      return Ok(Str(value.value));
    }
    var t := ApplyTransform(value.value, spec.transform.value, eng);
    if t.Raised? {
      return Raised;
    }
    r := Ok(if Truthy(t.value) then t.value else NotFound);
  }

  /** `extract_with_config(soup, field_config, method)`: builds the record one
      field at a time; a raising transform aborts the whole extraction. */
  method ExtractWithConfig(page: Page, fields: FieldConfig, mode: Mode, eng: Engine) returns (r: Result<Record>)
    ensures r == Extract(page, fields, mode, eng)
  {
    var extracted: Record := map[];
    var todo := fields.Keys;
    while todo != {}
      invariant todo <= fields.Keys
      invariant extracted.Keys == fields.Keys - todo
      invariant forall k :: k in extracted ==> FieldValue(page, fields[k], mode, eng) == Ok(extracted[k])
      decreases todo
    {
      var name :| name in todo;
      var v := ExtractField(page, fields[name], mode, eng);
      if v.Raised? {
        return Raised;
      }
      extracted := extracted[name := v.value];
      todo := todo - {name};
    }
    assert forall k :: k in fields ==> FieldValue(page, fields[k], mode, eng).Ok?;
    assert extracted == map k | k in fields :: FieldValue(page, fields[k], mode, eng).value;
    r := Ok(extracted);
  }

  /** A field none of whose strategies hits is "Not Found", whatever its
      transform: the transform only runs on a truthy value. */
  lemma AllMissNotFound(page: Page, spec: FieldSpec, mode: Mode, eng: Engine)
    requires forall i :: 0 <= i < |spec.cssSelectors| ==> !Hit(page.select(spec.cssSelectors[i]))
    requires forall i :: 0 <= i < |spec.xpaths| ==> !Hit(XPathLookup(page)(spec.xpaths[i]))
    requires forall i :: 0 <= i < |spec.textPatterns| ==> !Hit(PatternLookup(page, eng)(spec.textPatterns[i]))
    requires forall i :: 0 <= i < |spec.attributes| ==> !Hit(AttributeLookup(page)(spec.attributes[i]))
    ensures RawValue(page, spec, mode, eng).None?
    ensures FieldValue(page, spec, mode, eng) == Ok(NotFound)
  {
  }

  /** In particular a field with all four lists empty is always "Not Found". */
  lemma EmptyFieldNotFound(page: Page, spec: FieldSpec, mode: Mode, eng: Engine)
    requires spec.cssSelectors == [] && spec.xpaths == [] && spec.textPatterns == [] && spec.attributes == []
    ensures FieldValue(page, spec, mode, eng) == Ok(NotFound)
  {
    AllMissNotFound(page, spec, mode, eng);
  }

  /** If the i-th CSS selector is the first to give non-empty text, that text
      is the raw value, whatever XPath, the page text, the attributes and the
      regex engine would give. */
  lemma CssHitWins(page: Page, spec: FieldSpec, mode: Mode, eng: Engine, i: nat,
                   xp: string -> Option<string>, text: string,
                   attr: (string, string) -> Option<string>, eng2: Engine)
    requires i < |spec.cssSelectors| && Hit(page.select(spec.cssSelectors[i]))
    requires forall j :: 0 <= j < i ==> !Hit(page.select(spec.cssSelectors[j]))
    ensures RawValue(page, spec, mode, eng) == page.select(spec.cssSelectors[i])
    ensures RawValue(page.(xpath := xp, text := text, attr := attr), spec, mode, eng2)
         == RawValue(page, spec, mode, eng)
  {
    FirstHitIsFirst(spec.cssSelectors, CssLookup(page), i);
    var other := page.(xpath := xp, text := text, attr := attr);
    assert CssLookup(other) == CssLookup(page);
  }

  /** XPath is consulted only on a Selenium page: on a Requests page the live
      lookup makes no difference to the field. */
  lemma XPathOnlyForSelenium(page: Page, spec: FieldSpec, eng: Engine, xp: string -> Option<string>)
    ensures RawValue(page.(xpath := xp), spec, Requests, eng) == RawValue(page, spec, Requests, eng)
    ensures FieldValue(page.(xpath := xp), spec, Requests, eng) == FieldValue(page, spec, Requests, eng)
  {
    var other := page.(xpath := xp);
    assert CssLookup(other) == CssLookup(page);
    assert PatternLookup(other, eng) == PatternLookup(page, eng);
    assert AttributeLookup(other) == AttributeLookup(page);
  }

  /** When CSS misses and an XPath hits on a Selenium page, the page text,
      the attributes and the regex engine are never consulted. */
  lemma XPathHitWins(page: Page, spec: FieldSpec, eng: Engine, text: string,
                     attr: (string, string) -> Option<string>, eng2: Engine)
    requires FirstHit(spec.cssSelectors, CssLookup(page)).None?
    requires FirstHit(spec.xpaths, XPathLookup(page)).Some?
    ensures RawValue(page, spec, Selenium, eng) == FirstHit(spec.xpaths, XPathLookup(page))
    ensures RawValue(page.(text := text, attr := attr), spec, Selenium, eng2)
         == RawValue(page, spec, Selenium, eng)
  {
    var other := page.(text := text, attr := attr);
    assert CssLookup(other) == CssLookup(page);
    assert XPathLookup(other) == XPathLookup(page);
  }

  /** When the earlier strategies miss and a pattern hits, the attributes are
      never consulted. */
  lemma PatternHitWins(page: Page, spec: FieldSpec, mode: Mode, eng: Engine,
                       attr: (string, string) -> Option<string>)
    requires FirstHit(spec.cssSelectors, CssLookup(page)).None?
    requires mode == Selenium ==> FirstHit(spec.xpaths, XPathLookup(page)).None?
    requires FirstHit(spec.textPatterns, PatternLookup(page, eng)).Some?
    ensures RawValue(page, spec, mode, eng) == FirstHit(spec.textPatterns, PatternLookup(page, eng))
    ensures RawValue(page.(attr := attr), spec, mode, eng) == RawValue(page, spec, mode, eng)
  {
    var other := page.(attr := attr);
    assert CssLookup(other) == CssLookup(page);
    assert XPathLookup(other) == XPathLookup(page);
    assert PatternLookup(other, eng) == PatternLookup(page, eng);
  }

  /** When CSS, XPath (on a Selenium page) and the patterns all miss, the
      first attribute hit is the raw value. */
  lemma AttributeHitWins(page: Page, spec: FieldSpec, mode: Mode, eng: Engine)
    requires FirstHit(spec.cssSelectors, CssLookup(page)).None?
    requires mode == Selenium ==> FirstHit(spec.xpaths, XPathLookup(page)).None?
    requires FirstHit(spec.textPatterns, PatternLookup(page, eng)).None?
    ensures RawValue(page, spec, mode, eng) == FirstHit(spec.attributes, AttributeLookup(page))
  {
  }

  /** A field without a transform records exactly the text its strategies
      found: a selector hit of "Foo" is recorded as "Foo". */
  lemma UntransformedHitRecorded(page: Page, fields: FieldConfig, mode: Mode, eng: Engine, k: string)
    requires Extract(page, fields, mode, eng).Ok? && k in fields
    requires fields[k].transform.None? && RawValue(page, fields[k], mode, eng).Some?
    ensures Extract(page, fields, mode, eng).value[k] == Str(RawValue(page, fields[k], mode, eng).value)
  {
  }

  /** A transform whose result is falsy records the sentinel. */
  lemma FalsyTransformNotFound(page: Page, spec: FieldSpec, mode: Mode, eng: Engine)
    requires RawValue(page, spec, mode, eng).Some? && spec.transform.Some?
    requires var t := ApplyTransform(RawValue(page, spec, mode, eng).value, spec.transform.value, eng);
      t.Ok? && !Truthy(t.value)
    ensures FieldValue(page, spec, mode, eng) == Ok(NotFound)
  {
  }

  /** A field with a single text pattern and no other strategy takes the
      stripped capture of that pattern. */
  lemma SinglePatternRaw(page: Page, spec: FieldSpec, mode: Mode, eng: Engine, pattern: string, captured: string)
    requires spec.cssSelectors == [] && spec.xpaths == [] && spec.attributes == []
    requires spec.textPatterns == [pattern]
    requires eng.search(pattern, page.text) == Some(captured)
    requires Strip(captured, Whitespace) != ""
    ensures RawValue(page, spec, mode, eng) == Some(Strip(captured, Whitespace))
  {
    var look := PatternLookup(page, eng);
    assert look(pattern) == Some(Strip(captured, Whitespace));
    assert FirstHit([pattern], look) == look(pattern);
  }

  lemma ZeroCaptureRaw(page: Page, spec: FieldSpec, mode: Mode, eng: Engine, pattern: string)
    requires spec.cssSelectors == [] && spec.xpaths == [] && spec.attributes == []
    requires spec.textPatterns == [pattern]
    requires eng.search(pattern, page.text) == Some("0")
    ensures RawValue(page, spec, mode, eng) == Some("0")
  {
    StripFixed("0", Whitespace);
    SinglePatternRaw(page, spec, mode, eng, pattern, "0");
  }

  /** The sample field 'Tab Switched': a page reading "Tab Switched: 0"
      captures "0", converts it to 0.0, and the falsy number becomes
      "Not Found". */
  lemma ZeroCountNotFound(page: Page, spec: FieldSpec, mode: Mode, eng: Engine, pattern: string)
    requires spec.cssSelectors == [] && spec.xpaths == [] && spec.attributes == []
    requires spec.textPatterns == [pattern]
    requires spec.transform == Some(Transform(Some("convert_to_number"), None, None, None))
    requires eng.search(pattern, page.text) == Some("0")
    requires eng.toFloat("0") == Some(0.0)
    ensures FieldValue(page, spec, mode, eng) == Ok(NotFound)
  {
    ZeroCaptureRaw(page, spec, mode, eng, pattern);
    ConvertZero(eng, spec.transform.value);
  }

  /** A regex transform that substitutes the whole value away records the sentinel. */
  lemma EmptySubstitutionNotFound(page: Page, spec: FieldSpec, mode: Mode, eng: Engine)
    requires RawValue(page, spec, mode, eng).Some?
    requires spec.transform.Some? && spec.transform.value.kind == Some("regex")
    requires spec.transform.value.pattern.Some?
    requires var t := spec.transform.value;
      eng.sub(t.pattern.value, ReplacementOf(t), RawValue(page, spec, mode, eng).value) == Some("")
    ensures FieldValue(page, spec, mode, eng) == Ok(NotFound)
  {
  }

  /** Extraction raises only through a `regex` transform that lacks its pattern. */
  lemma ExtractRaisesOnlyOnPatternlessRegex(page: Page, fields: FieldConfig, mode: Mode, eng: Engine)
    requires forall k :: k in fields && fields[k].transform.Some? ==>
      !(fields[k].transform.value.kind == Some("regex") && fields[k].transform.value.pattern.None?)
    ensures Extract(page, fields, mode, eng).Ok?
  {
  }
}
