/** The forecast-entry table of the bottom-up forecast screen: each row sets
    a territory's field forecast against the AI baseline; the table shows the
    percentage variance as a Low / Med / High badge and asks for remarks on
    high-variance rows. */
module EditableForecastTable {
  import opened Collections

  /** One table row. `fieldForecast` is `None` until the user enters a value;
      `variance` is a stored percentage, recomputed on every forecast edit. */
  datatype ForecastRow = ForecastRow(
    id: string,
    sku: string,
    month: string,
    fieldForecast: Option<int>,
    aiForecast: int,
    variance: real,
    remarks: string)

  function Abs(x: real): (a: real)
    ensures a >= 0.0 && (a == x || a == -x)
  {
    if x < 0.0 then -x else x
  }

  /** The signed percentage by which the field forecast departs from the AI
      baseline. The code divides without a guard, so the baseline must not
      be zero. */
  function CalculateVariance(field: int, ai: int): (v: real)
    requires ai != 0
    ensures v * (ai as real) == (field - ai) as real * 100.0
  {
    ((field - ai) as real / ai as real) * 100.0
  }

  /** The variance is zero exactly when the two forecasts agree and, for the
      positive baselines the table holds, positive exactly when the field
      forecast is the larger. */
  lemma VarianceSign(field: int, ai: int)
    requires ai != 0
    ensures CalculateVariance(field, ai) == 0.0 <==> field == ai
    ensures ai > 0 ==> (CalculateVariance(field, ai) > 0.0 <==> field > ai)
    ensures ai > 0 ==> (CalculateVariance(field, ai) < 0.0 <==> field < ai)
  {
    var v := CalculateVariance(field, ai);
    assert v * (ai as real) == (field - ai) as real * 100.0;
    if ai > 0 {
      if v > 0.0 { assert v * (ai as real) > 0.0; }
      if v < 0.0 { assert v * (ai as real) < 0.0; }
      if field > ai { assert v * (ai as real) > 0.0; }
      if field < ai { assert v * (ai as real) < 0.0; }
    }
  }

  /** The three badge tiers. */
  datatype Tier = Low | Medium | High

  /** Severity order of the tiers. */
  function Severity(t: Tier): (n: nat)
  {
    match t
    case Low => 0
    case Medium => 1
    case High => 2
  }

  /** What `getVarianceBadge` renders: the tier, whether a `+` is prefixed,
      and the percentage shown. */
  datatype VarianceBadge = VarianceBadge(tier: Tier, showPlus: bool, percent: real)

  /** The variance badge: above 25% in magnitude High, above 10% Medium,
      otherwise Low; a `+` is written before positive values only. */
  function GetVarianceBadge(v: real): (b: VarianceBadge)
    ensures b.percent == v
  {
    var plus := v > 0.0;
    if Abs(v) > 25.0 then VarianceBadge(High, plus, v)
    else if Abs(v) > 10.0 then VarianceBadge(Medium, plus, v)
    else VarianceBadge(Low, plus, v)
  }

  /** Every variance falls into exactly one tier, by strict thresholds on its
      magnitude; the `+` prefix appears exactly for positive variances. */
  lemma VarianceTierThresholds(v: real)
    ensures GetVarianceBadge(v).tier == High <==> Abs(v) > 25.0
    ensures GetVarianceBadge(v).tier == Medium <==> 10.0 < Abs(v) <= 25.0
    ensures GetVarianceBadge(v).tier == Low <==> Abs(v) <= 10.0
    ensures GetVarianceBadge(v).showPlus <==> v > 0.0
  {
  }

  /** The tier depends on the magnitude only: v and -v are classified alike,
      and a larger magnitude never gets a less severe tier. */
  lemma VarianceTierByMagnitude(v: real, w: real)
    ensures GetVarianceBadge(-v).tier == GetVarianceBadge(v).tier
    ensures Abs(v) <= Abs(w) ==> Severity(GetVarianceBadge(v).tier) <= Severity(GetVarianceBadge(w).tier)
  {
  }

  /** The boundaries belong to the less severe tier. */
  lemma VarianceTierBoundaries()
    ensures GetVarianceBadge(25.0).tier == Medium && GetVarianceBadge(-25.0).tier == Medium
    ensures GetVarianceBadge(25.01).tier == High && GetVarianceBadge(-26.0).tier == High
    ensures GetVarianceBadge(10.0).tier == Low && GetVarianceBadge(-10.0).tier == Low
    ensures GetVarianceBadge(10.01).tier == Medium
  {
  }

  /** The condition the row writes three times: it shows the warning icon,
      switches the remarks placeholder, and marks the remarks as required. */
  predicate RemarksRequired(v: real): (required: bool)
    ensures required <==> GetVarianceBadge(v).tier == High
  {
    Abs(v) > 25.0
  }

  /** What one row shows in its variance and remarks cells. */
  datatype RowView = RowView(
    badge: VarianceBadge,
    warningIcon: bool,
    remarksRequired: bool,
    remarksPlaceholder: string)

  /** Renders the variance and remarks cells of a row. The badge is the
      row's own variance badge, and the warning icon and the required remarks
      occur exactly when the variance exceeds 25% in either direction. */
  function RenderRow(row: ForecastRow): (view: RowView)
    ensures view.badge == GetVarianceBadge(row.variance)
    ensures view.badge.percent == row.variance
    ensures view.warningIcon <==> Abs(row.variance) > 25.0
    ensures view.remarksRequired <==> Abs(row.variance) > 25.0
    ensures view.warningIcon <==> view.badge.tier == High
    ensures view.remarksRequired <==> view.badge.tier == High
    ensures view.remarksPlaceholder ==
              if view.badge.tier == High then "Remarks required for high variance" else "Optional remarks"
  {
    var required := RemarksRequired(row.variance);
    RowView(
      GetVarianceBadge(row.variance),
      required,
      required,
      if required then "Remarks required for high variance" else "Optional remarks")
  }

  /** The text of the number input after `parseInt`: an integer, or `NaN`
      for empty or non-numeric text. */
  datatype ParsedInput = Parsed(n: int) | NotANumber

  /** The value handed to the update: a parsed number, with `NaN` falling
      back to 0 (as does 0 itself). */
  function InputValue(p: ParsedInput): (value: int)
    ensures p.NotANumber? ==> value == 0
    ensures p.Parsed? ==> value == p.n
  {
    match p
    case Parsed(n) => n
    case NotANumber => 0
  }

  /** A row's stored variance agrees with its current forecasts. */
  predicate IsFresh(row: ForecastRow)
  {
    && row.fieldForecast.Some?
    && row.aiForecast != 0
    && row.variance == CalculateVariance(row.fieldForecast.value, row.aiForecast)
  }

  /** `b` differs from `a` at most in the field forecast and the variance. */
  predicate SameExceptForecast(a: ForecastRow, b: ForecastRow)
  {
    a.id == b.id && a.sku == b.sku && a.month == b.month
    && a.aiForecast == b.aiForecast && a.remarks == b.remarks
  }

  /** Every row carrying `id` has a non-zero baseline. */
  predicate BaselinesNonZero(rows: seq<ForecastRow>, id: string)
  {
    forall row <- rows :: row.id == id ==> row.aiForecast != 0
  }

  /** The table after `updateFieldForecast(id, value)`: the rows carrying
      `id` take the new forecast and a variance computed from it; all other
      rows, and all other fields, are unchanged. */
  function WithFieldForecast(rows: seq<ForecastRow>, id: string, value: int): (r: seq<ForecastRow>)
    requires BaselinesNonZero(rows, id)
    ensures |r| == |rows|
    ensures forall i :: 0 <= i < |rows| && rows[i].id != id ==> r[i] == rows[i]
    ensures forall i :: 0 <= i < |rows| && rows[i].id == id ==>
              && SameExceptForecast(rows[i], r[i])
              && r[i].fieldForecast == Some(value)
              && IsFresh(r[i])
  {
    if rows == [] then []
    else
      var row := rows[0];
      var head := if row.id == id
        then row.(fieldForecast := Some(value), variance := CalculateVariance(value, row.aiForecast))
        else row;
      [head] + WithFieldForecast(rows[1..], id, value)
  }

  /** The table after `updateRemarks(id, value)`: only the remarks of the
      rows carrying `id` change. */
  function WithRemarks(rows: seq<ForecastRow>, id: string, value: string): (r: seq<ForecastRow>)
    ensures |r| == |rows|
    ensures forall i :: 0 <= i < |rows| && rows[i].id != id ==> r[i] == rows[i]
    ensures forall i :: 0 <= i < |rows| && rows[i].id == id ==> r[i] == rows[i].(remarks := value)
  {
    if rows == [] then []
    else [if rows[0].id == id then rows[0].(remarks := value) else rows[0]] + WithRemarks(rows[1..], id, value)
  }

  /** Editing remarks twice with the same text is the same as editing once. */
  lemma WithRemarksIdempotent(rows: seq<ForecastRow>, id: string, value: string)
    ensures WithRemarks(WithRemarks(rows, id, value), id, value) == WithRemarks(rows, id, value)
  {
  }

  /** Editing remarks keeps every variance, and so every badge and every
      fresh row, as it was. */
  lemma WithRemarksKeepsVariance(rows: seq<ForecastRow>, id: string, value: string)
    ensures forall i :: 0 <= i < |rows| ==>
              && WithRemarks(rows, id, value)[i].variance == rows[i].variance
              && (IsFresh(rows[i]) <==> IsFresh(WithRemarks(rows, id, value)[i]))
  {
  }

  /** A forecast edit and a remarks edit do not interfere, in either order. */
  lemma ForecastAndRemarksEditsCommute(rows: seq<ForecastRow>, id: string, value: int, other: string, text: string)
    requires BaselinesNonZero(rows, id)
    ensures BaselinesNonZero(WithRemarks(rows, other, text), id)
    ensures WithRemarks(WithFieldForecast(rows, id, value), other, text)
         == WithFieldForecast(WithRemarks(rows, other, text), id, value)
  {
  }

  /** A zero forecast against a positive baseline is a shortfall of exactly
      100%. */
  lemma ZeroForecastVariance(ai: int)
    requires ai > 0
    ensures CalculateVariance(0, ai) == -100.0
  {
    assert (0 - ai) as real / ai as real == -1.0;
  }

  /** Clearing the input, or typing something that is not a number, sets the
      forecast to 0: against a positive baseline the variance becomes -100%,
      which is High and requires remarks. */
  lemma EmptyInputIsFullShortfall(rows: seq<ForecastRow>, id: string)
    requires forall row <- rows :: row.aiForecast > 0
    ensures forall i :: 0 <= i < |rows| && rows[i].id == id ==>
              && WithFieldForecast(rows, id, InputValue(NotANumber))[i].variance == -100.0
              && GetVarianceBadge(WithFieldForecast(rows, id, InputValue(NotANumber))[i].variance).tier == High
              && RenderRow(WithFieldForecast(rows, id, InputValue(NotANumber))[i]).remarksRequired
  {
    var r := WithFieldForecast(rows, id, 0);
    forall i | 0 <= i < |rows| && rows[i].id == id
      ensures r[i].variance == -100.0
    {
      ZeroForecastVariance(rows[i].aiForecast);
    }
  }

  /** The rows the table starts with. */
  function MockData(): seq<ForecastRow>
  {
    [ ForecastRow("1", "SKU 01", "Jan 2025", Some(1200), 1000, 20.0, ""),
      ForecastRow("2", "SKU 02", "Jan 2025", None, 850, 0.0, ""),
      ForecastRow("3", "SKU 03", "Jan 2025", Some(600), 800, -25.0, "Lower demand expected due to competition"),
      ForecastRow("4", "SKU 01", "Feb 2025", Some(1100), 1050, 4.8, ""),
      ForecastRow("5", "SKU 02", "Feb 2025", Some(900), 870, 3.4, "") ]
  }

  /** Freshness is not an invariant of the initial table: rows 1 and 3 hold
      the computed variance, rows 4 and 5 a rounded one, and row 2 has no
      field forecast at all. */
  lemma MockDataFreshness()
    ensures IsFresh(MockData()[0]) && IsFresh(MockData()[2])
    ensures !IsFresh(MockData()[1]) && !IsFresh(MockData()[3]) && !IsFresh(MockData()[4])
  {
    var d := MockData();
    assert CalculateVariance(1100, 1050) * 1050.0 == 5000.0;
    assert CalculateVariance(900, 870) * 870.0 == 3000.0;
  }

  /** No initial row is High, so none requires remarks yet. */
  lemma MockDataNeedsNoRemarks()
    ensures forall row <- MockData() :: GetVarianceBadge(row.variance).tier != High && !RenderRow(row).remarksRequired
  {
  }

  /** The component's `data` state. */
  class ForecastTable {
    var data: seq<ForecastRow>

    /** Every baseline is positive: true of the initial rows, and no handler
        edits a baseline. */
    predicate Valid()
      reads this
    {
      forall row <- data :: row.aiForecast > 0
    }

    constructor ()
      ensures Valid()
      ensures data == MockData()
    {
      data := MockData();
    }

    /** `updateFieldForecast`: replaces the table by its per-row update. */
    method UpdateFieldForecast(id: string, value: int)
      requires Valid()
      modifies this
      ensures Valid()
      ensures data == WithFieldForecast(old(data), id, value)
    {
      data := WithFieldForecast(data, id, value);
    }

    /** `updateRemarks`: replaces the table by its per-row update. */
    method UpdateRemarks(id: string, value: string)
      requires Valid()
      modifies this
      ensures Valid()
      ensures data == WithRemarks(old(data), id, value)
    {
      data := WithRemarks(data, id, value);
    }

    /** The forecast input's change handler: the parsed text, or 0, becomes
        the row's new forecast. */
    method OnForecastInput(id: string, input: ParsedInput)
      requires Valid()
      modifies this
      ensures Valid()
      ensures data == WithFieldForecast(old(data), id, InputValue(input))
    {
      UpdateFieldForecast(id, InputValue(input));
    }

    /** The remarks textarea's change handler. */
    method OnRemarksInput(id: string, text: string)
      requires Valid()
      modifies this
      ensures Valid()
      ensures data == WithRemarks(old(data), id, text)
    {
      UpdateRemarks(id, text);
    }
  }
}
