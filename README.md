# ARIS forecasting dashboard: business rules in Dafny

ARIS (Agricultural Intelligence) is a demand-forecasting and inventory
dashboard. Its screens run on constant sample data, and the logic they hold
is small. This project models that logic and proves properties of it.

- **Forecast entry table.** A field forecast is reconciled against the AI
  baseline:
  - the percentage variance `(field - ai) / ai * 100`;
  - the Low / Med / High variance badge;
  - the rule that a High row asks for remarks;
  - the two edits that replace the table row by row (forecast, remarks).
- **Baseline forecast screen.** Confidence badges, trend icons, the model
  cards with one highlighted, and the By SKU / By Region tabs.
- **Inventory heatmap.** Region and SKU axis labels de-duplicated in
  first-occurrence order, the cell lookup, risk colours and the legend.
- **Confidence gauge.** Colour bands, size presets, ring radius and dash
  offset.
- **Forecast model selector.** Card selection, the click rule and the
  accuracy/confidence badges.
- **Upload box.** The Excel MIME-type decision and the template button.
- **Sidebar.** The active-path and active-group rules over the navigation
  tree, checked against the router's paths.
- **Dashboard.** The urgent-notification count, the notification style and
  icons, and the stored variances of the trend chart.
- **Bottom-up forecast page.** The zone / region / season filters and the
  save / submit buttons.

Modelling choices:

- Numbers are Dafny `real` where the program compares or divides them
  (variances, coverage, gauge values, model accuracy and confidence) and
  `int` for forecast quantities, which `parseInt` produces. JavaScript
  floating point is not modelled.
- React state becomes Dafny classes with `modifies` clauses:
  - the table's `data` (`EditableForecastTable.ForecastTable`);
  - `selectedModel` and `activeTab` (`BaselineForecast.BaselineForecastPage`);
  - `filters` (`BottomUpForecast.BottomUpForecastPage`).
- State methods are specified against pure per-row functions
  (`WithFieldForecast`, `WithRemarks`). The lemmas are proved about those
  functions.
- Toasts become returned values.

`Collections` holds the shared sequence vocabulary:

- `Option`, duplicate-freedom, first index and counting;
- `Distinct`, the de-duplication `Array.from(new Set(xs))` performs. A
  JavaScript `Set` iterates in insertion order (section 24.2 of ECMA-262),
  and `Distinct` is proved to be the unique duplicate-free sequence with the
  input's elements in first-occurrence order.

## Model

| member | source | states |
|---|---|---|
| Collections.Distinct | src/components/charts/InventoryHeatmap.tsx:37-38 | The de-duplicated labels have no repeats, and every label of the input occurs in them and nothing else does |
| Collections.DistinctFirstOccurrenceOrder | src/components/charts/InventoryHeatmap.tsx:37-38 | The de-duplicated labels are ordered by where each first occurs in the input (insertion-ordered `Set` iteration) |
| Collections.DistinctCharacterized | src/components/charts/InventoryHeatmap.tsx:37-38 | Any duplicate-free sequence with the input's elements in first-occurrence order is exactly the de-duplication, so `Set` de-duplication is pinned down uniquely |
| Collections.FirstOccurrenceOrderUnique | src/components/charts/InventoryHeatmap.tsx:37-38 | Two duplicate-free sequences with the same elements, both in first-occurrence order, are equal |
| Collections.CountWithoutDuplicates | src/pages/BaselineForecast.tsx:41-45 | In a duplicate-free key list every key occurs exactly once and any other string not at all |
| EditableForecastTable.CalculateVariance | src/components/forms/EditableForecastTable.tsx:32-34 | The variance times the baseline equals the forecast gap times 100, i.e. it is `(field - ai) / ai * 100`; the baseline must be non-zero because the code has no guard |
| EditableForecastTable.VarianceSign | src/components/forms/EditableForecastTable.tsx:32-34 | The variance is zero iff field equals baseline; for a positive baseline it is positive iff the field forecast is larger and negative iff smaller |
| EditableForecastTable.GetVarianceBadge | src/components/forms/EditableForecastTable.tsx:36-44 | The badge displays the row's variance itself |
| EditableForecastTable.VarianceTierThresholds | src/components/forms/EditableForecastTable.tsx:36-44 | High iff \|v\| > 25, Medium iff 10 < \|v\| <= 25, Low iff \|v\| <= 10 (exactly one tier); the `+` prefix appears iff v > 0 |
| EditableForecastTable.VarianceTierByMagnitude | src/components/forms/EditableForecastTable.tsx:37-42 | v and -v get the same tier, and a larger magnitude never gets a less severe tier |
| EditableForecastTable.VarianceTierBoundaries | src/components/forms/EditableForecastTable.tsx:36-44 | The boundaries belong to the milder tier: ±25 is Medium, ±10 is Low, 25.01 and -26 are High, 10.01 is Medium |
| EditableForecastTable.RemarksRequired | src/components/forms/EditableForecastTable.tsx:103-115 | The condition the row tests for its warning icon, placeholder and required flag holds exactly when the variance badge is High |
| EditableForecastTable.RenderRow | src/components/forms/EditableForecastTable.tsx:103-115 | The row's badge is the variance badge of its own variance; the warning icon, the "required" flag and the "Remarks required" placeholder appear exactly when the variance exceeds 25% in magnitude, which is exactly the High badge |
| EditableForecastTable.InputValue | src/components/forms/EditableForecastTable.tsx:90-92 | Non-numeric or empty input becomes 0; a parsed number is used as is |
| EditableForecastTable.WithFieldForecast | src/components/forms/EditableForecastTable.tsx:46-56 | Length and order are kept and rows with another id are untouched; each matching row keeps id, SKU, month, baseline and remarks, takes the new forecast, and its variance is recomputed from it (the row is fresh) |
| EditableForecastTable.WithRemarks | src/components/forms/EditableForecastTable.tsx:58-64 | Length and order are kept, rows with another id are untouched, and matching rows change in their remarks only |
| EditableForecastTable.WithRemarksIdempotent | src/components/forms/EditableForecastTable.tsx:58-64 | Applying the same remarks edit twice equals applying it once |
| EditableForecastTable.WithRemarksKeepsVariance | src/components/forms/EditableForecastTable.tsx:58-64 | A remarks edit changes no variance and no row's freshness |
| EditableForecastTable.ForecastAndRemarksEditsCommute | src/components/forms/EditableForecastTable.tsx:46-64 | A forecast edit and a remarks edit give the same table in either order |
| EditableForecastTable.ZeroForecastVariance | src/components/forms/EditableForecastTable.tsx:32-34 | A zero field forecast against a positive baseline is a variance of exactly -100 |
| EditableForecastTable.EmptyInputIsFullShortfall | src/components/forms/EditableForecastTable.tsx:90-92 | Clearing the input against a positive baseline sets the row's variance to exactly -100, which is High and requires remarks |
| EditableForecastTable.MockDataFreshness | src/components/forms/EditableForecastTable.tsx:21-25 | Initially only rows 1 and 3 hold the computed variance; rows 4 and 5 hold rounded values and row 2 has no field forecast, so freshness is not an initial invariant |
| EditableForecastTable.MockDataNeedsNoRemarks | src/components/forms/EditableForecastTable.tsx:21-25 | No initial row is High, so none requires remarks (row 3 sits at -25, on the Medium side) |
| EditableForecastTable.ForecastTable.constructor | src/components/forms/EditableForecastTable.tsx:29 | The table starts with the five sample rows, all with positive baselines |
| EditableForecastTable.ForecastTable.UpdateFieldForecast | src/components/forms/EditableForecastTable.tsx:46-56 | The new table is the row-wise forecast update of the old one, and baselines stay positive |
| EditableForecastTable.ForecastTable.UpdateRemarks | src/components/forms/EditableForecastTable.tsx:58-64 | The new table is the row-wise remarks update of the old one |
| EditableForecastTable.ForecastTable.OnForecastInput | src/components/forms/EditableForecastTable.tsx:90-93 | Typing into a row's input updates that row's forecast to the parsed number, or 0 |
| EditableForecastTable.ForecastTable.OnRemarksInput | src/components/forms/EditableForecastTable.tsx:112 | Typing remarks updates the remarks of that row only |
| BaselineForecast.ConfidenceBands | src/pages/BaselineForecast.tsx:47-51 | High iff c >= 85, Medium iff 70 <= c < 85, Low iff c < 70, for every real c: exhaustive and exclusive; 84.5 is Medium and 69.9 Low |
| BaselineForecast.ConfidenceBadgeMonotone | src/pages/BaselineForecast.tsx:47-51 | A higher confidence never gets a lower badge |
| BaselineForecast.SampleConfidenceBadges | src/pages/BaselineForecast.tsx:33-38 | Rows 1, 2, 4, 5 are High, row 3 (76) Medium, row 6 (69) Low |
| BaselineForecast.GetConfidenceBadge | src/pages/BaselineForecast.tsx:47-51 | High exactly from 85 up and Low exactly below 70, for any real confidence |
| BaselineForecast.GetTrendIcon | src/pages/BaselineForecast.tsx:53-59 | The neutral dot is drawn exactly for strings other than "up" and "down" |
| BaselineForecast.HighlightedCount | src/pages/BaselineForecast.tsx:89-95 | At most one highlight per card, and none exactly when the chosen key is not a card |
| BaselineForecast.TrendIconCases | src/pages/BaselineForecast.tsx:53-59 | Rising arrow iff "up", falling arrow iff "down", neutral dot for every other string including "stable" |
| BaselineForecast.ExactlyOneHighlighted | src/pages/BaselineForecast.tsx:89-95 | Whichever of linear / arima / ai is chosen, exactly one card is highlighted, because the card keys are distinct |
| BaselineForecast.BaselineForecastPage.constructor | src/pages/BaselineForecast.tsx:14-15 | The page starts on model "ai" and tab "sku", with one card highlighted |
| BaselineForecast.BaselineForecastPage.IsHighlighted | src/pages/BaselineForecast.tsx:93-105 | On a valid page a highlighted card is one of the model cards, and its key occurs exactly once among them |
| BaselineForecast.BaselineForecastPage.SelectModel | src/pages/BaselineForecast.tsx:93-105 | Clicking a card chooses that model and highlights exactly that card; the tab is unchanged |
| BaselineForecast.BaselineForecastPage.SetActiveTab | src/pages/BaselineForecast.tsx:251-273 | Changing the tab changes neither the chosen model nor the rows the grid shows, and exactly one card stays highlighted |
| BaselineForecast.BaselineForecastPage.VisibleRows | src/pages/BaselineForecast.tsx:273 | The grid shows the six forecast rows, whatever the tab |
| InventoryHeatmap.Column | src/components/charts/InventoryHeatmap.tsx:37-38 | Mapping keeps one label per point, position by position |
| InventoryHeatmap.Regions | src/components/charts/InventoryHeatmap.tsx:37 | The row labels are duplicate-free, contain every point's region and nothing else |
| InventoryHeatmap.Skus | src/components/charts/InventoryHeatmap.tsx:38 | The column labels are duplicate-free, contain every point's SKU and nothing else |
| InventoryHeatmap.LabelsAreDistinctAndComplete | src/components/charts/InventoryHeatmap.tsx:37-38 | Axis labels are duplicate-free, contain every point's key and only keys of points, in first-occurrence order |
| InventoryHeatmap.SampleLabels | src/components/charts/InventoryHeatmap.tsx:12-38 | The rows are North, South, East, West and the columns SKU-001, SKU-002, SKU-003 |
| InventoryHeatmap.FindCell | src/components/charts/InventoryHeatmap.tsx:58 | The lookup finds nothing iff no point matches the pair, and otherwise the first matching point |
| InventoryHeatmap.FindOnlyMatch | src/components/charts/InventoryHeatmap.tsx:58 | A point that is the only match is what the lookup returns |
| InventoryHeatmap.SampleCellLookup | src/components/charts/InventoryHeatmap.tsx:12-58 | For the region in row a and the SKU in column b of the sample labels (those `SampleLabels` gives), exactly the point at 3 × a + b matches, and the lookup returns it |
| InventoryHeatmap.RiskColorCases | src/components/charts/InventoryHeatmap.tsx:27-34 | high, medium and low each have their own colour; any other label is muted |
| InventoryHeatmap.GetRiskColor | src/components/charts/InventoryHeatmap.tsx:27-34 | The colour is muted exactly for labels other than high, medium and low |
| InventoryHeatmap.CellStyle | src/components/charts/InventoryHeatmap.tsx:63-66 | A cell is drawn at opacity 0.8 exactly when it has a point, and muted exactly when it has none or its point's label is unknown |
| InventoryHeatmap.SampleCellsColoured | src/components/charts/InventoryHeatmap.tsx:12-66 | Every one of the 12 sample cells is drawn at 0.8 in the colour of its own point, and none is muted |
| InventoryHeatmap.LegendRisk | src/components/charts/InventoryHeatmap.tsx:83-95 | The legend reads every coverage as one of high, medium, low |
| InventoryHeatmap.LegendBands | src/components/charts/InventoryHeatmap.tsx:86-94 | For every coverage: high iff under 3 weeks, medium iff 3 to 5 weeks inclusive, low iff over 5 weeks |
| InventoryHeatmap.LegendBoundaries | src/components/charts/InventoryHeatmap.tsx:86-94 | Near the edges: 2.99 weeks is high, 3 and 5 weeks are medium, 5.01 weeks is low |
| InventoryHeatmap.SampleRiskMatchesLegend | src/components/charts/InventoryHeatmap.tsx:12-25 | Every stored risk label agrees with the legend's reading of its coverage, and none falls back to muted |
| ConfidenceGauge.ColorBands | src/components/ui/confidence-gauge.tsx:30-34 | Success iff value >= 90, warning iff 70 <= value < 90, destructive iff value < 70 |
| ConfidenceGauge.GetColor | src/components/ui/confidence-gauge.tsx:30-34 | Success exactly from 90 up, destructive exactly below 70 |
| ConfidenceGauge.GetSize | src/components/ui/confidence-gauge.tsx:16-22 | Every size, known or not, gets a square box whose stroke is positive and narrower than the box |
| ConfidenceGauge.SizePresets | src/components/ui/confidence-gauge.tsx:16-22 | sm is 80/80/6, lg is 140/140/12, and md or any other size is 100/100/8 |
| ConfidenceGauge.PresetRadii | src/components/ui/confidence-gauge.tsx:16-25 | Every preset is square with a positive radius: 37, 46, 64 pixels for sm, md, lg |
| ConfidenceGauge.Radius | src/components/ui/confidence-gauge.tsx:25 | Twice the radius plus the stroke fills the width, so the radius is positive exactly when the stroke is narrower than the box |
| ConfidenceGauge.DashOffset | src/components/ui/confidence-gauge.tsx:26-28 | The undrawn length is the circumference times the share of 100 the value leaves |
| ConfidenceGauge.DashOffsetRange | src/components/ui/confidence-gauge.tsx:26-28 | For any positive circumference the offset is the full ring exactly at 0 and nothing exactly at 100, within the ring for 0..100, and strictly shrinking as the value grows |
| ForecastModelSelector.AccuracyBadge | src/components/ui/forecast-model-selector.tsx:99 | The accuracy badge is default iff accuracy >= 90 |
| ForecastModelSelector.ConfidenceBadge | src/components/ui/forecast-model-selector.tsx:106 | The confidence badge is default iff confidence >= 85 |
| ForecastModelSelector.RenderCard | src/components/ui/forecast-model-selector.tsx:55-106 | A card is selected iff the parent's model equals its id, and its badges follow the two thresholds |
| ForecastModelSelector.Render | src/components/ui/forecast-model-selector.tsx:54 | One card per model, in order |
| ForecastModelSelector.OnCardClick | src/components/ui/forecast-model-selector.tsx:70 | A click reports the card's own id, which selects that card |
| ForecastModelSelector.ClickSelectsOnlyThatCard | src/components/ui/forecast-model-selector.tsx:55-70 | With distinct ids at most one card is selected, and after a click is adopted exactly the clicked card is selected |
| ForecastModelSelector.ModelIdsDistinct | src/components/ui/forecast-model-selector.tsx:21-49 | The ids are ai, arima, linear, all distinct |
| ForecastModelSelector.SampleBadges | src/components/ui/forecast-model-selector.tsx:21-49 | Only the AI card gets both default badges; ARIMA and Linear Regression get neither |
| FileUploadBox.UploadedToast | src/components/forms/FileUploadBox.tsx:29-32 | The success message is not an error and begins with the file's name |
| FileUploadBox.HandleFileUpload | src/components/forms/FileUploadBox.tsx:11-36 | No file, no effect; a type outside the two Excel types is rejected with an error toast and nothing is processed; otherwise a success toast naming the file and processing of that file |
| FileUploadBox.AcceptedExactlyForExcelTypes | src/components/forms/FileUploadBox.tsx:15-20 | A file is accepted iff its type is exactly the xlsx or the xls MIME string |
| FileUploadBox.DecisionIgnoresNameAndSize | src/components/forms/FileUploadBox.tsx:11-36 | Two files of the same type get the same decision, whatever their names and sizes |
| FileUploadBox.TypeNotExtension | src/components/forms/FileUploadBox.tsx:69-82 | A ".xlsx" name with an empty type is rejected, and a 50 MB file of an Excel type is accepted despite the stated limit |
| FileUploadBox.DownloadTemplate | src/components/forms/FileUploadBox.tsx:39-46 | The template button always reports a download, never an error |
| AppSidebar.IsActive | src/components/AppSidebar.tsx:111 | A path is active exactly when it has the current path's length and the same character at every position: no prefix or parent matching |
| AppSidebar.IsGroupActive | src/components/AppSidebar.tsx:111-113 | A group is active iff some child url equals the current path exactly; an empty group is never active |
| AppSidebar.RenderGroup | src/components/AppSidebar.tsx:138-146 | A group starts open exactly when it is highlighted, and both hold iff a child url is the current path |
| AppSidebar.ActiveGroupCount | src/components/AppSidebar.tsx:136-143 | A path that no entry links to opens no group |
| AppSidebar.AtMostOneGroupActive | src/components/AppSidebar.tsx:112-113 | If no url occurs twice in the tree, any path opens at most one group |
| AppSidebar.NavigationUrls | src/components/AppSidebar.tsx:40-104 | The tree links to nine urls, listed in order |
| AppSidebar.NavigationUrlsDistinct | src/components/AppSidebar.tsx:40-104 | No url occurs twice in the sidebar's tree |
| AppSidebar.SidebarOpensAtMostOneGroup | src/components/AppSidebar.tsx:40-113 | In the actual sidebar, any path opens and highlights at most one group |
| AppSidebar.EveryLinkIsRouted | src/App.tsx:25-34 | Every sidebar url is one of the router's paths |
| AppSidebar.SampleGroupActivity | src/components/AppSidebar.tsx:111-113 | Matching is exact: the Forecast group opens on /forecast/bottom-up, and neither "/" nor a deeper path opens any group |
| Dashboard.UrgentNotifications | src/pages/Dashboard.tsx:392 | The filter keeps every urgent notification as often as it occurs and drops every other one |
| Dashboard.UrgentCount | src/pages/Dashboard.tsx:392 | The badge is positive exactly when some notification is urgent |
| Dashboard.UrgentCountBounds | src/pages/Dashboard.tsx:392 | The badge is at most the list's length; zero iff none is urgent; the full length iff all are |
| Dashboard.SampleUrgentCount | src/pages/Dashboard.tsx:129-166 | The panel's badge reads 1 |
| Dashboard.NotificationStyle | src/pages/Dashboard.tsx:405-410 | The red style is used exactly for urgent notifications |
| Dashboard.StylePrecedence | src/pages/Dashboard.tsx:405-410 | Red iff urgent; otherwise yellow for warning, green for success, blue for everything else, so a non-urgent critical notification is blue |
| Dashboard.Icons | src/pages/Dashboard.tsx:415-426 | At most one icon is drawn, and none exactly for types other than the four known ones |
| Dashboard.OneIconPerKind | src/pages/Dashboard.tsx:415-426 | critical, warning, info and success each get exactly their own icon; any other type gets none |
| Dashboard.VariancePointConsistent | src/pages/Dashboard.tsx:118-127 | A month's stored variance is a whole number of tenths within 0.05 of `(actual - forecast) / forecast * 100` |
| Dashboard.VarianceDataConsistent | src/pages/Dashboard.tsx:118-127 | All eight stored variances are the computed variance to one decimal |
| BottomUpForecast.BottomUpForecastPage.constructor | src/pages/BottomUpForecast.tsx:24-28 | The filters start as zone north, region all, season kharif |
| BottomUpForecast.BottomUpForecastPage.OnZoneChange | src/pages/BottomUpForecast.tsx:130 | A zone change sets the zone and keeps region and season |
| BottomUpForecast.BottomUpForecastPage.OnRegionChange | src/pages/BottomUpForecast.tsx:131 | A region change sets the region and keeps zone and season |
| BottomUpForecast.BottomUpForecastPage.OnSeasonChange | src/pages/BottomUpForecast.tsx:132 | A season change sets the season and keeps zone and region |
| BottomUpForecast.BottomUpForecastPage.HandleSaveDraft | src/pages/BottomUpForecast.tsx:37-42 | Saving a draft always reports success and changes no state |
| BottomUpForecast.BottomUpForecastPage.HandleSubmitToZsm | src/pages/BottomUpForecast.tsx:30-35 | Submitting always reports success, with no variance or remarks check, and changes no state |
| BottomUpForecast.FilterChangesCommute | src/pages/BottomUpForecast.tsx:130-132 | On the filter record that the three handlers update: updates of different keys commute, and for each of zone, region and season a later update of the same key overrides an earlier one |

## Left out

- Rendering, CSS classes, animation, `toFixed` / `toLocaleString` formatting and the charts: presentation only. Badges, colours and icons are modelled as enumerations.
- JavaScript floating point: all arithmetic is on `real`. The circumference `2 * Math.PI * radius` is an abstract positive real.
- `parseInt` itself (section 19.2.5 of ECMA-262): the input is abstracted as "a parsed integer, or not a number". Showing a zero forecast as an empty input (`fieldForecast || ''`) is rendering and is not modelled.
- Toasts and `console.log`: modelled as returned `Toast` / `UploadOutcome` values. Nothing is displayed or logged.
- The asynchronous `handleRefresh` of the dashboard (a two-second timer and a toast): a timer with no modelled state.
- The dashboard's KPI click toasts, the inventory alert text and the hard-coded page statistics, including the "3 SKUs >25%" alert: constants, not computed from any data.
- The baseline screen's model statistics (accuracy, confidence, speed): constants. Only the model keys and the selection are modelled.
- React Router's own matching, including `NavLink`'s active styling: library code. Only the route table's paths are used.
- The code has no error value for a zero baseline, no per-row blocking reasons, no submit gate and no coverage classifier besides the heatmap legend's 3 / 5 weeks; the model adds none. Submitting always succeeds.
- EditableForecastTable.CalculateVariance: requires a non-zero baseline. The code divides by the baseline without a guard, so a zero baseline (which no row holds) would produce Infinity or NaN, and that is not modelled.
- EditableForecastTable.ForecastTable.UpdateFieldForecast: requires the table's invariant that every baseline is positive. The invariant holds initially and no handler edits a baseline, but the code itself checks nothing.
- The placeholder pages, the GIS iframe, the top navigation, the filter bar's option lists, KPI cards and the insights panel: no logic beyond display.
