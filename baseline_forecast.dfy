/** The baseline forecast screen: confidence badges and trend icons for the
    AI forecast grid, the model cards (one highlighted) and the By SKU /
    By Region tabs. */
module BaselineForecast {
  import opened Collections

  /** One row of the forecast grid. */
  datatype ForecastEntry = ForecastEntry(
    id: string,
    sku: string,
    region: string,
    month: string,
    aiForecast: int,
    confidence: real,
    trend: string)

  /** The rows the grid shows. */
  function ForecastData(): seq<ForecastEntry>
  {
    [ ForecastEntry("1", "SKU-001", "North", "Jan 2025", 1850, 92.0, "up"),
      ForecastEntry("2", "SKU-002", "North", "Jan 2025", 1200, 88.0, "stable"),
      ForecastEntry("3", "SKU-003", "South", "Jan 2025", 950, 76.0, "down"),
      ForecastEntry("4", "SKU-001", "East", "Jan 2025", 1650, 94.0, "up"),
      ForecastEntry("5", "SKU-002", "West", "Jan 2025", 1400, 85.0, "up"),
      ForecastEntry("6", "SKU-003", "North", "Feb 2025", 1100, 69.0, "stable") ]
  }

  datatype ConfidenceLevel = Low | Medium | High

  function Rank(l: ConfidenceLevel): (n: nat)
    ensures n <= 2
  {
    match l
    case Low => 0
    case Medium => 1
    case High => 2
  }

  /** `getConfidenceBadge`: at least 85 High, at least 70 Medium, else Low. */
  function GetConfidenceBadge(confidence: real): (l: ConfidenceLevel)
    ensures l == High <==> confidence >= 85.0
    ensures l == Low <==> confidence < 70.0
  {
    if confidence >= 85.0 then High
    else if confidence >= 70.0 then Medium
    else Low
  }

  /** The three bands cover every confidence, without overlap, and include
      their lower bounds. */
  lemma ConfidenceBands(c: real)
    ensures GetConfidenceBadge(c) == High <==> c >= 85.0
    ensures GetConfidenceBadge(c) == Medium <==> 70.0 <= c < 85.0
    ensures GetConfidenceBadge(c) == Low <==> c < 70.0
    ensures GetConfidenceBadge(84.5) == Medium && GetConfidenceBadge(69.9) == Low
  {
  }

  /** A higher confidence never gets a lower badge. */
  lemma ConfidenceBadgeMonotone(c: real, d: real)
    requires c <= d
    ensures Rank(GetConfidenceBadge(c)) <= Rank(GetConfidenceBadge(d))
  {
  }

  /** The grid's rows classify as High except row 3 (Medium) and row 6 (Low). */
  lemma SampleConfidenceBadges()
    ensures forall k :: 0 <= k < |ForecastData()| ==>
              GetConfidenceBadge(ForecastData()[k].confidence) ==
                (if ForecastData()[k].id == "3" then Medium
                 else if ForecastData()[k].id == "6" then Low
                 else High)
  {
  }

  datatype TrendIcon = RisingGreen | FallingRed | NeutralDot

  /** `getTrendIcon`: "up" and "down" have arrows; any other string, "stable"
      included, gets the neutral dot. */
  function GetTrendIcon(trend: string): (icon: TrendIcon)
    ensures icon == NeutralDot <==> trend != "up" && trend != "down"
  {
    match trend
    case "up" => RisingGreen
    case "down" => FallingRed
    case _ => NeutralDot
  }

  lemma TrendIconCases(trend: string)
    ensures GetTrendIcon(trend) == RisingGreen <==> trend == "up"
    ensures GetTrendIcon(trend) == FallingRed <==> trend == "down"
    ensures GetTrendIcon(trend) == NeutralDot <==> trend != "up" && trend != "down"
    ensures GetTrendIcon("stable") == NeutralDot
  {
  }

  /** The keys of the model cards, in the order `Object.entries` lists them. */
  function ModelKeys(): seq<string>
  {
    ["linear", "arima", "ai"]
  }

  /** How many cards are highlighted when `selected` is the chosen model. */
  function HighlightedCount(selected: string): (n: nat)
    ensures n <= |ModelKeys()|
    ensures n == 0 <==> selected !in ModelKeys()
  {
    Count(ModelKeys(), selected)
  }

  /** Whichever card was chosen, exactly one card is highlighted. */
  lemma ExactlyOneHighlighted(selected: string)
    requires selected in ModelKeys()
    ensures HighlightedCount(selected) == 1
  {
    CountWithoutDuplicates(ModelKeys(), selected);
  }

  /** The page's state: the chosen model and the active tab. */
  class BaselineForecastPage {
    var selectedModel: string
    var activeTab: string

    /** The chosen model is always one of the cards: it starts as "ai" and
        only a card's click handler changes it. */
    predicate Valid()
      reads this
    {
      selectedModel in ModelKeys()
    }

    constructor ()
      ensures Valid()
      ensures selectedModel == "ai" && activeTab == "sku"
      ensures HighlightedCount(selectedModel) == 1
    {
      selectedModel := "ai";
      activeTab := "sku";
      ExactlyOneHighlighted("ai");
    }

    /** The card for `model` shows the ring and the lightning icon; on a valid
        page only a card's own key is highlighted, and that key is unique. */
    predicate IsHighlighted(model: string): (highlighted: bool)
      reads this
      ensures Valid() && highlighted ==> model in ModelKeys() && HighlightedCount(model) == 1
    {
      selectedModel == model
    }

    /** The grid's rows: the tab does not filter or regroup them. */
    function VisibleRows(): (rows: seq<ForecastEntry>)
      reads this
      ensures rows == ForecastData()
    {
      ForecastData()
    }

    /** A card's click handler. */
    method SelectModel(model: string)
      requires Valid()
      requires model in ModelKeys()
      modifies this
      ensures Valid()
      ensures selectedModel == model && activeTab == old(activeTab)
      ensures IsHighlighted(model) && HighlightedCount(selectedModel) == 1
    {
      selectedModel := model;
      ExactlyOneHighlighted(model);
    }

    /** The tabs' change handler: the grid keeps all its rows. */
    method SetActiveTab(tab: string)
      requires Valid()
      modifies this
      ensures Valid()
      ensures activeTab == tab && selectedModel == old(selectedModel)
      ensures VisibleRows() == old(VisibleRows())
      ensures HighlightedCount(selectedModel) == 1
    {
      activeTab := tab;
      ExactlyOneHighlighted(selectedModel);
    }
  }
}
