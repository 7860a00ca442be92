/** The quality gate: `is_extraction_successful` (flexible_scraper.py:246-253). */
module QualityGate {
  import opened Wrappers
  import opened Values
  import opened Oracles
  import opened Extraction

  /** `float(config.get('success_threshold', 0.5))`; None when float() raises
      (null, a list, a dict, or a string float() rejects). */
  function ThresholdOf(cfg: Config, eng: Engine): (t: Option<real>)
    ensures "success_threshold" !in cfg ==> t == Some(0.5)
    ensures "success_threshold" in cfg && cfg["success_threshold"].Num? ==> t == Some(cfg["success_threshold"].x)
  {
    if "success_threshold" !in cfg then Some(0.5)
    else
      match cfg["success_threshold"]
      case Num(x) => Some(x)
      case Bool(b) => Some(if b then 1.0 else 0.0)
      case Str(s) => eng.toFloat(s)
      case _ => None
  }

  /** A value the gate counts as found: not None, "" or "Not Found". */
  predicate IsFound(v: Value)
  {
    v != Null && v != Str("") && v != NotFound
  }

  /** The fields of `data` the gate counts as found. */
  function FoundKeys(data: Record): (ks: set<string>)
    ensures ks <= data.Keys
    ensures forall k :: k in data ==> (k in ks <==> IsFound(data[k]))
  {
    set k | k in data && IsFound(data[k])
  }

  /** `is_extraction_successful(data)`: Some(accept) or None when reading the
      threshold raises. An empty record is rejected before the threshold is read. */
  function IsExtractionSuccessful(cfg: Config, data: Record, eng: Engine): (r: Option<bool>)
    ensures |data| == 0 ==> r == Some(false)
    ensures |data| > 0 ==> (r.Some? <==> ThresholdOf(cfg, eng).Some?)
  {
    if |data| == 0 then Some(false)
    else
      var total := |data|;
      var found := |FoundKeys(data)|;
      match ThresholdOf(cfg, eng)
      case None => None
      case Some(t) => Some((found as real) / (total as real) >= t)
  }

  /** A non-empty record is accepted exactly when found >= t * total, the
      source's `found / total >= t` with the division cleared. */
  lemma GateIff(cfg: Config, data: Record, eng: Engine)
    requires |data| > 0 && ThresholdOf(cfg, eng).Some?
    ensures IsExtractionSuccessful(cfg, data, eng) == Some(true)
      <==> (|FoundKeys(data)| as real) >= ThresholdOf(cfg, eng).value * (|data| as real)
  {
    DivAtLeastIff(|FoundKeys(data)|, |data|, ThresholdOf(cfg, eng).value);
  }

  lemma DivAtLeastIff(found: nat, total: nat, t: real)
    requires total > 0
    ensures (found as real) / (total as real) >= t <==> (found as real) >= t * (total as real)
  {
    var q := (found as real) / (total as real);
    assert q * (total as real) == found as real;
    if q >= t {
      assert q * (total as real) >= t * (total as real);
    } else {
      assert q * (total as real) < t * (total as real);
    }
  }

  /** The found count never exceeds the number of fields. */
  lemma FoundAtMostTotal(data: Record)
    ensures |FoundKeys(data)| <= |data|
  {
    var ks := FoundKeys(data);
    assert data.Keys == ks + (data.Keys - ks);
    assert |data.Keys| == |ks| + |data.Keys - ks|;
  }

  /** With a threshold of zero or less, every non-empty record is accepted. */
  lemma NonPositiveThresholdAccepts(cfg: Config, data: Record, eng: Engine)
    requires |data| > 0
    requires ThresholdOf(cfg, eng).Some? && ThresholdOf(cfg, eng).value <= 0.0
    ensures IsExtractionSuccessful(cfg, data, eng) == Some(true)
  {
    var t := ThresholdOf(cfg, eng).value;
    assert t * (|data| as real) <= 0.0;
    GateIff(cfg, data, eng);
  }

  /** More found fields over the same key set never turn an accept into a reject. */
  lemma MoreFoundStillAccepted(cfg: Config, d1: Record, d2: Record, eng: Engine)
    requires d1.Keys == d2.Keys
    requires |FoundKeys(d1)| <= |FoundKeys(d2)|
    requires IsExtractionSuccessful(cfg, d1, eng) == Some(true)
    ensures IsExtractionSuccessful(cfg, d2, eng) == Some(true)
  {
    assert |d1| == |d1.Keys| == |d2.Keys| == |d2|;
    GateIff(cfg, d1, eng);
    GateIff(cfg, d2, eng);
  }

  /** Filling in a field that was "Not Found" keeps an accepted record accepted. */
  lemma FillingFieldStillAccepted(cfg: Config, data: Record, eng: Engine, k: string, v: Value)
    requires k in data && data[k] == NotFound && IsFound(v)
    requires IsExtractionSuccessful(cfg, data, eng) == Some(true)
    ensures IsExtractionSuccessful(cfg, data[k := v], eng) == Some(true)
  {
    var d2 := data[k := v];
    assert FoundKeys(d2) == FoundKeys(data) + {k};
    MoreFoundStillAccepted(cfg, data, d2, eng);
  }

  /** A record whose every field is "Not Found" is rejected by any positive threshold. */
  lemma NothingFoundRejected(cfg: Config, data: Record, eng: Engine)
    requires forall k :: k in data ==> data[k] == NotFound
    requires ThresholdOf(cfg, eng).Some? && ThresholdOf(cfg, eng).value > 0.0
    ensures IsExtractionSuccessful(cfg, data, eng) == Some(false)
  {
    if |data| > 0 {
      assert FoundKeys(data) == {};
      var t := ThresholdOf(cfg, eng).value;
      assert t * (|data| as real) > 0.0;
      GateIff(cfg, data, eng);
    }
  }

  /** On an extracted record the gate's test reduces to "is not the sentinel":
      extraction never records None or "". */
  lemma ExtractedFoundIffNotSentinel(page: Page, fields: FieldConfig, mode: Mode, eng: Engine)
    requires Extract(page, fields, mode, eng).Ok?
    ensures var m := Extract(page, fields, mode, eng).value;
      forall k :: k in m ==> (IsFound(m[k]) <==> m[k] != NotFound)
  {
  }
}
