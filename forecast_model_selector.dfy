/** The forecast model selector: three model cards, the chosen one ringed
    and checked, each showing accuracy and confidence badges. The component
    holds no state: the chosen model comes from its parent, and a click
    reports the card's id back. */
module ForecastModelSelector {
  import opened Collections

  datatype ModelOption = ModelOption(
    id: string,
    name: string,
    accuracy: real,
    confidence: real,
    processingSpeed: string)

  /** The cards, in display order. */
  function Models(): seq<ModelOption>
  {
    [ ModelOption("ai", "AI (LSTM)", 94.0, 91.0, "Fast"),
      ModelOption("arima", "ARIMA", 87.0, 83.0, "Medium"),
      ModelOption("linear", "Linear Regression", 79.0, 76.0, "Very Fast") ]
  }

  function Ids(models: seq<ModelOption>): (ids: seq<string>)
    ensures |ids| == |models|
    ensures forall i :: 0 <= i < |models| ==> ids[i] == models[i].id
  {
    if models == [] then [] else [models[0].id] + Ids(models[1..])
  }

  datatype BadgeVariant = Default | Secondary

  /** One rendered card: whether it is ringed and checked, and its badges. */
  datatype CardView = CardView(id: string, selected: bool, accuracyBadge: BadgeVariant, confidenceBadge: BadgeVariant)

  /** The accuracy badge stands out from 90 up. */
  function AccuracyBadge(accuracy: real): (v: BadgeVariant)
    ensures v == Default <==> accuracy >= 90.0
  {
    if accuracy >= 90.0 then Default else Secondary
  }

  /** The confidence badge stands out from 85 up. */
  function ConfidenceBadge(confidence: real): (v: BadgeVariant)
    ensures v == Default <==> confidence >= 85.0
  {
    if confidence >= 85.0 then Default else Secondary
  }

  /** One card, given the parent's chosen model. */
  function RenderCard(selectedModel: string, m: ModelOption): (c: CardView)
    ensures c.id == m.id
    ensures c.selected <==> selectedModel == m.id
    ensures c.accuracyBadge == Default <==> m.accuracy >= 90.0
    ensures c.confidenceBadge == Default <==> m.confidence >= 85.0
  {
    CardView(m.id, selectedModel == m.id, AccuracyBadge(m.accuracy), ConfidenceBadge(m.confidence))
  }

  /** `models.map(...)`: one card per model, in order. */
  function Render(selectedModel: string, models: seq<ModelOption>): (cards: seq<CardView>)
    ensures |cards| == |models|
    ensures forall i :: 0 <= i < |models| ==> cards[i] == RenderCard(selectedModel, models[i])
  {
    if models == [] then [] else [RenderCard(selectedModel, models[0])] + Render(selectedModel, models[1..])
  }

  /** A card's click handler: the id it reports to the parent. */
  function OnCardClick(m: ModelOption): (model: string)
    ensures RenderCard(model, m).selected
  {
    m.id
  }

  /** With distinct ids, at most one card is selected whatever the parent
      chose, and once the parent adopts the id a click reported, the clicked
      card is the only one selected. */
  lemma ClickSelectsOnlyThatCard(models: seq<ModelOption>, selectedModel: string, k: nat)
    requires NoDuplicates(Ids(models))
    ensures forall i, j :: 0 <= i < j < |models| ==>
              !(Render(selectedModel, models)[i].selected && Render(selectedModel, models)[j].selected)
    ensures k < |models| ==>
              forall i :: 0 <= i < |models| ==>
                (Render(OnCardClick(models[k]), models)[i].selected <==> i == k)
  {
  }

  lemma ModelIdsDistinct()
    ensures Ids(Models()) == ["ai", "arima", "linear"]
    ensures NoDuplicates(Ids(Models()))
  {
  }

  /** Only the AI card earns both highlighted badges; ARIMA and Linear
      Regression get neither. */
  lemma SampleBadges(selectedModel: string)
    ensures Render(selectedModel, Models())[0].accuracyBadge == Default
    ensures Render(selectedModel, Models())[0].confidenceBadge == Default
    ensures forall i :: 1 <= i < 3 ==>
              Render(selectedModel, Models())[i].accuracyBadge == Secondary
              && Render(selectedModel, Models())[i].confidenceBadge == Secondary
  {
  }
}
