# A verified model of the vite-ts-datalake-dashboard core

The dashboard is a grid of widget cards, some of which draw a Chart.js chart.
The model covers four parts of it:

- **The built-in catalog** of five widgets (`dashboardWidgetConfig.ts`).
- **The widget list** `currentWidgets` (`main.ts`):
  - how `loadDashboardState` restores it from the stored JSON and reconciles it with the catalog;
  - how `handlePanelApply` writes a panel edit into it;
  - how Sortable's `onEnd` moves one widget to another position.
- **The chart configuration panel** (`chartPanelConfig.ts`):
  - the colour helpers `rgbaToHex` and `getColorValue`;
  - the `PanelWidgetUpdate` record;
  - the `ChartConfigPanel` class, over an abstract form state: `open`, `populateSliceSelector`, `handleSliceSelectionChange`, `updateColorFieldsForSelectedSlice` and `handleSubmit`.
- **The JavaScript primitives** these rely on: `indexOf`, `lastIndexOf`, `substring`, `split`, `parseInt`, `toString(16)`, `padStart` and `String(n)`.

Modules, one per file:

| file | module | contents |
|---|---|---|
| `wrappers.dfy` | `Wrappers` | `Option`, used for JavaScript's optional properties |
| `js_text.dfy` | `JsText` | the string and number primitives |
| `widget_model.dfy` | `WidgetModel` | the widget record and the part of a chart configuration the dashboard touches |
| `catalog.dfy` | `WidgetCatalog` | the catalog, as a constant |
| `chart_panel.dfy` | `ChartPanel` | colour conversion, the submitted update, the `ChartConfigPanel` class |
| `dashboard.dfy` | `Dashboard` | stored state, reconciliation, applying an edit, reordering, the `Dashboard` class |
| `scenarios.dfy` | `Scenarios` | the catalog run through these operations |

The code mutates state in two places, and both are modelled as classes:

- `ChartConfigPanel` keeps `editing`, the form state and whether the panel is open. Its methods carry `modifies` clauses and state the new form.
- `Dashboard` keeps the catalog, `currentWidgets` and the stored value. Its methods are proved against the functions `Loaded`, `Applied` and `Moved`.

**The invariant.** The central property is about a widget list that is *settled*:

- every widget has an id;
- no widget lacks a field that its catalog entry has;
- every catalog id is present.

Every load gives a settled list, and every edit and every reorder keeps it settled. A settled list that is saved and loaded again comes back unchanged. So a reload always shows what was on screen before it. The `Dashboard` class keeps this as its invariant `Valid`: the list is settled, and loading the stored value gives the list back.

**What the code does at the edges.** The model follows the code in these places:

- Applying an edit creates an empty `options.scales.y` for every chart, pie and doughnut included. It writes `beginAtZero` only for the other chart types.
- Applying an edit never turns a single colour into a per-slice array, and it ignores `selectedColorIndex`. It writes element 0 of an array, or replaces a single colour. The comments on `PanelWidgetUpdate` (`chartPanelConfig.ts`, lines 8 and 11) speak of a colour for the selected slice or bar, but `handlePanelApply` never reads the index. On a bar chart with one colour for all bars, picking a later bar shows black, and submitting the form untouched then turns every bar black (`Scenarios.LaterSliceSubmit`).
- The storage key is removed only when an exception was caught:
  - the text does not parse;
  - the `every(w => w.id)` walk reaches a `null` element.

  A non-array, or an element without an id, falls back to the catalog and leaves the stored text in place.
- The colour conversion understands only `#...` and `rgba(...)` text. The catalog's line chart has the border `rgb(255, 159, 64)`, which is shown as `#000000`. Submitting the form unchanged writes that black back (`Scenarios.ServerPlainSubmit`, `Scenarios.ServerBorderBecomesBlack`).

## Model

| member | source | states |
|---|---|---|
| JsText.IndexOf | vite-ts-datalake-dashboard/src/chartPanelConfig.ts:25 | `indexOf`: the first position holding the character, -1 exactly when it does not occur |
| JsText.LastIndexOf | vite-ts-datalake-dashboard/src/chartPanelConfig.ts:25 | `lastIndexOf`: the last position holding the character, -1 exactly when it does not occur |
| JsText.Substring | vite-ts-datalake-dashboard/src/chartPanelConfig.ts:25 | on in-range ordered bounds, `substring` is the slice between them, and it is never longer than the text |
| JsText.SubstringClampsAndSwaps | vite-ts-datalake-dashboard/src/chartPanelConfig.ts:25 | `substring` gives the same text with its bounds swapped and with each bound clamped to the text; an end of -1, as `lastIndexOf` gives when there is no `)`, reads from the start up to the other bound |
| JsText.SplitOnComma | vite-ts-datalake-dashboard/src/chartPanelConfig.ts:25 | splitting gives at least one part, and no part contains a comma |
| JsText.JoinSplit | vite-ts-datalake-dashboard/src/chartPanelConfig.ts:25 | joining the parts with commas gives back the split text |
| JsText.SplitAfterHead | vite-ts-datalake-dashboard/src/chartPanelConfig.ts:25 | a comma-free head followed by a comma splits off as the first part |
| JsText.DecimalString | vite-ts-datalake-dashboard/src/chartPanelConfig.ts:168 | `String(n)` is a non-empty run of decimal digits, one digit exactly for n below 10 |
| JsText.DecimalValue | vite-ts-datalake-dashboard/src/chartPanelConfig.ts:28-30 | reading the digits of `String(n)` gives n |
| JsText.ParseDecimal | vite-ts-datalake-dashboard/src/chartPanelConfig.ts:28-30 | `parseInt` reads back a number written in decimal after any white space and before any non-digit text |
| JsText.ParseLeadingDecimal | vite-ts-datalake-dashboard/src/chartPanelConfig.ts:168 | `parseInt` of text starting with `String(n)` and followed by a non-digit, such as an option's `i: label`, gives n |
| JsText.TwoHexDigits | vite-ts-datalake-dashboard/src/chartPanelConfig.ts:28-30 | `toString(16).padStart(2, '0')` of a value below 256 is its high and low hex digit |
| JsText.ParseInt | vite-ts-datalake-dashboard/src/chartPanelConfig.ts:28-30 | `parseInt(s, 10)`: `NaN` exactly when no digit follows the white space and an optional sign; a negative result only after a leading '-' |
| ChartPanel.RgbaToHex | vite-ts-datalake-dashboard/src/chartPanelConfig.ts:21-32 | the result always starts with '#', and hex input passes through unchanged |
| ChartPanel.RgbaToHexIdempotent | vite-ts-datalake-dashboard/src/chartPanelConfig.ts:21-32 | converting a converted colour changes nothing |
| ChartPanel.RgbaToHexFallbacks | vite-ts-datalake-dashboard/src/chartPanelConfig.ts:22-23 | text that is neither hex nor starts with `rgba`, the empty string included, becomes `#000000` |
| ChartPanel.RgbIsBlack | vite-ts-datalake-dashboard/src/chartPanelConfig.ts:23 | the line chart's `rgb(255, 159, 64)` becomes `#000000` |
| ChartPanel.RgbaWrapped | vite-ts-datalake-dashboard/src/chartPanelConfig.ts:25-31 | for `rgba(inner)`, fewer than three comma parts of `inner` give black, otherwise the hex of its first three parts |
| ChartPanel.TwoPartsIsBlack | vite-ts-datalake-dashboard/src/chartPanelConfig.ts:26 | an `rgba(...)` with only two parts becomes `#000000` |
| ChartPanel.ChannelHexOf | vite-ts-datalake-dashboard/src/chartPanelConfig.ts:28-30 | a channel below 256 written in decimal, after white space, prints as its two hex digits |
| ChartPanel.ChannelHex | vite-ts-datalake-dashboard/src/chartPanelConfig.ts:28-30 | a channel prints as at least two characters: the two hex digits of a value in 0..255, `NaN` when `parseInt` finds no number |
| ChartPanel.SplitChannels | vite-ts-datalake-dashboard/src/chartPanelConfig.ts:25 | three comma-free heads each followed by a comma split off as the first three parts, whatever follows |
| ChartPanel.ChannelParts | vite-ts-datalake-dashboard/src/chartPanelConfig.ts:25-30 | the first three parts of channels 0..255, each after its own white space, print as the hex of r, g and b |
| ChartPanel.RgbaToHexChannels | vite-ts-datalake-dashboard/src/chartPanelConfig.ts:21-32 | `rgba(r, g, b, alpha)` with channels 0..255 becomes '#' and two lower-case hex digits per channel, seven characters, for every alpha text |
| ChartPanel.RgbaToHexSpaced | vite-ts-datalake-dashboard/src/chartPanelConfig.ts:21-32 | `rgba(r,g,b,alpha)` with channels 0..255 and any white space after each comma (`/,\s*/`) becomes '#' and two hex digits per channel, seven characters |
| ChartPanel.UnspacedExample | vite-ts-datalake-dashboard/src/chartPanelConfig.ts:21-32 | `rgba(255,0,0,0.6)`, with no spaces, becomes the hex of 255, 0 and 0 |
| ChartPanel.RgbaToHexExample | vite-ts-datalake-dashboard/src/chartPanelConfig.ts:21-32 | `rgba(255, 99, 132, alpha)` becomes `#ff6384` for every alpha text |
| ChartPanel.RgbaTextExample | vite-ts-datalake-dashboard/src/dashboardWidgetConfig.ts:41 | the doughnut's first colour is the text `RgbaText(255, 99, 132, "0.6")` |
| ChartPanel.ColorValueCases | vite-ts-datalake-dashboard/src/chartPanelConfig.ts:222-239 | `getColorValue`: element 0 of a non-empty array, `''` for an empty array, the string itself, `''` for anything else |
| ChartPanel.ColorValue | vite-ts-datalake-dashboard/src/chartPanelConfig.ts:222-239 | `getColorValue` gives `''` or a colour the value holds, and always the colour read for slice 0 |
| ChartPanel.SliceColor | vite-ts-datalake-dashboard/src/chartPanelConfig.ts:195-199 | the raw colour of slice i is `''` or a colour the value holds: element i of an array that long, `''` for every later slice of a single colour |
| ChartPanel.ColorValueIsFirstSlice | vite-ts-datalake-dashboard/src/chartPanelConfig.ts:195-198 | the overall colour and the colour read for slice 0 are always the same |
| ChartPanel.ShownColor | vite-ts-datalake-dashboard/src/chartPanelConfig.ts:201-202 | the picker colour with its `'#563d7c'` fallback is always `rgbaToHex(raw)`: the fallback is never taken |
| ChartPanel.ScalarLaterSliceIsBlack | vite-ts-datalake-dashboard/src/chartPanelConfig.ts:195-201 | with a single colour, every slice after the first shows as `#000000` |
| ChartPanel.SliceOptionTextExamples | vite-ts-datalake-dashboard/src/chartPanelConfig.ts:164-168 | options read `i: label`, with `Item i+1` for a missing or empty label |
| ChartPanel.SliceLabel | vite-ts-datalake-dashboard/src/chartPanelConfig.ts:167 | a slice's name is never empty: its label when that is non-empty, `Item i+1` otherwise |
| ChartPanel.SliceOptionIndex | vite-ts-datalake-dashboard/src/chartPanelConfig.ts:166-168 | the number an option shows is its index: `parseInt` of the option text gives i back, whatever the label |
| ChartPanel.ColorFieldsFor | vite-ts-datalake-dashboard/src/chartPanelConfig.ts:188-219 | both pickers always receive a '#'-prefixed colour; with the selector shown and slice i selected within the data, they show `rgbaToHex` of slice i's colours with `Background for:` / `Border for:` and the slice name; otherwise `rgbaToHex` of the overall colours with the overall help texts |
| ChartPanel.SliceShowsElement | vite-ts-datalake-dashboard/src/chartPanelConfig.ts:194-206 | with the selector shown and slice i selected, a per-slice colour array shows element i in hex, named by the slice's label |
| ChartPanel.HiddenShowsOverall | vite-ts-datalake-dashboard/src/chartPanelConfig.ts:207-216 | with the selector hidden, whatever is selected, the pickers show the overall colours in hex with the overall help texts |
| ChartPanel.FirstSliceShowsOverallColor | vite-ts-datalake-dashboard/src/chartPanelConfig.ts:181-220 | with slice 0 selected, the pickers show the overall dataset colours in hex |
| ChartPanel.SubmittedUpdate | vite-ts-datalake-dashboard/src/chartPanelConfig.ts:246-261 | the title always; label and colours exactly when the chart section is shown; the index exactly when the selector is shown too; `beginAtZero` true exactly when checked and not disabled |
| ChartPanel.ChartConfigPanel.constructor | vite-ts-datalake-dashboard/src/chartPanelConfig.ts:55-95 | the panel starts closed, editing nothing, with the chart section and selector hidden and no options |
| ChartPanel.ChartConfigPanel.PopulateSliceSelector | vite-ts-datalake-dashboard/src/chartPanelConfig.ts:157-175 | one option per data point, option i reading `i: label`, option 0 selected; no data hides the selector; nothing else in the form changes |
| ChartPanel.ChartConfigPanel.UpdateColorFieldsForSelectedSlice | vite-ts-datalake-dashboard/src/chartPanelConfig.ts:181-220 | with a chart with a dataset under edit, the pickers and help texts become `ColorFieldsFor` the current selection: slice i's colours and name when the selector is shown and i is within the data, the overall colours otherwise; without one nothing changes; only the colour fields change |
| ChartPanel.ChartConfigPanel.Open | vite-ts-datalake-dashboard/src/chartPanelConfig.ts:97-155 | id and title loaded, panel shown; for a chart, everything `ShowsChart` lists; without one, the chart controls reset to black and hidden |
| ChartPanel.ChartConfigPanel.LoadChart | vite-ts-datalake-dashboard/src/chartPanelConfig.ts:105-143 | label, options, selection, selector visibility for pie/doughnut/bar with data, colours of slice 0, the checkbox from `beginAtZero` (false when unset), disabled and hidden for pie and doughnut |
| ChartPanel.ChartConfigPanel.HandleSliceSelectionChange | vite-ts-datalake-dashboard/src/chartPanelConfig.ts:177-179 | the new option is selected; with a chart with a dataset under edit the pickers follow it, otherwise they keep their colours; nothing else changes |
| ChartPanel.ChartConfigPanel.HandleSubmit | vite-ts-datalake-dashboard/src/chartPanelConfig.ts:241-266 | with a widget under edit, hands over its id and the `SubmittedUpdate` of the form, closes the panel and forgets the widget; otherwise does nothing |
| WidgetModel.FirstIndexOf | vite-ts-datalake-dashboard/src/main.ts:167 | `find` by id: the position found holds the id and no earlier one does; none exactly when no widget has it |
| WidgetModel.HasIdOfMember | vite-ts-datalake-dashboard/src/main.ts:148 | a list holding a widget is found to hold its id |
| WidgetCatalog.CatalogIds | vite-ts-datalake-dashboard/src/dashboardWidgetConfig.ts:3-102 | five widgets with the five ids in display order, non-empty and pairwise distinct |
| WidgetCatalog.CatalogComplete | vite-ts-datalake-dashboard/src/dashboardWidgetConfig.ts:3-102 | every catalog widget has a title, content and column class |
| WidgetCatalog.CatalogCharts | vite-ts-datalake-dashboard/src/dashboardWidgetConfig.ts:65-76 | activity and tasks have no chart; the other three have one |
| WidgetCatalog.SalesShape | vite-ts-datalake-dashboard/src/dashboardWidgetConfig.ts:28-64 | the doughnut has four labels, four values, four colours of each kind, and no `scales` |
| WidgetCatalog.AxisCharts | vite-ts-datalake-dashboard/src/dashboardWidgetConfig.ts:4-101 | the bar and line charts use single colours and start at zero; only the line chart caps y at 100 |
| WidgetCatalog.DataMatchesLabels | vite-ts-datalake-dashboard/src/dashboardWidgetConfig.ts:3-102 | in every catalog chart the first dataset has one value per label |
| Dashboard.ShapeCheck | vite-ts-datalake-dashboard/src/main.ts:137 | `every(w => w.id)` passes exactly when all elements are objects with an id; it throws exactly when a `null` element follows only identified ones |
| Dashboard.SavedWidgets | vite-ts-datalake-dashboard/src/main.ts:136 | the widgets of a parsed array, element by element |
| Dashboard.Saved | vite-ts-datalake-dashboard/src/main.ts:124 | the stored array holds each widget, in order |
| Dashboard.SavedRoundTrip | vite-ts-datalake-dashboard/src/main.ts:124-137 | reading back a saved list gives the same widgets, and the shape check passes exactly when all ids are non-empty |
| Dashboard.MergeEntry | vite-ts-datalake-dashboard/src/main.ts:142 | the merge keeps the saved widget's id |
| Dashboard.Overlay | vite-ts-datalake-dashboard/src/main.ts:142 | a spread field is present when either object has it, and is the saved one whenever the saved object has it |
| Dashboard.MergeShallow | vite-ts-datalake-dashboard/src/main.ts:142 | `{...catalog, ...saved}` takes each field from the saved widget when present, whole chart included; merging twice adds nothing |
| Dashboard.MergeKeeps | vite-ts-datalake-dashboard/src/main.ts:142 | the merge leaves the saved widget unchanged exactly when it covers every field of the catalog entry |
| Dashboard.ReconcileEntry | vite-ts-datalake-dashboard/src/main.ts:139-145 | a reconciled saved widget keeps its id |
| Dashboard.MergedSaved | vite-ts-datalake-dashboard/src/main.ts:139-145 | one reconciled widget per saved widget, position by position |
| Dashboard.MergedSavedIds | vite-ts-datalake-dashboard/src/main.ts:139-148 | the reconciled saved widgets carry exactly the saved ids |
| Dashboard.MissingMembers | vite-ts-datalake-dashboard/src/main.ts:147-151 | a widget is appended exactly when it is a catalog entry whose id no saved widget has |
| Dashboard.Missing | vite-ts-datalake-dashboard/src/main.ts:147-151 | no more entries than the catalog has, each a catalog entry whose id no saved widget has |
| Dashboard.Reconciled | vite-ts-datalake-dashboard/src/main.ts:138-152 | the saved widgets reconciled one by one at their own positions, then at most the whole catalog, each appended entry from the catalog with an unsaved id |
| Dashboard.CatalogIdsKept | vite-ts-datalake-dashboard/src/main.ts:146-151 | every catalog id is among the merged saved widgets or the entries appended after them |
| Dashboard.MissingConcat | vite-ts-datalake-dashboard/src/main.ts:147-151 | appended entries keep catalog order |
| Dashboard.MissingExtremes | vite-ts-datalake-dashboard/src/main.ts:147-151 | with no catalog id saved the whole catalog is appended; with all saved, none |
| Dashboard.MissingOrder | vite-ts-datalake-dashboard/src/main.ts:147-151 | no two appended entries share an id |
| Dashboard.ReconciledShape | vite-ts-datalake-dashboard/src/main.ts:138-152 | saved widgets first in saved order, each merged onto its catalog entry or kept, then the missing catalog entries; every catalog id present |
| Dashboard.EmptySavedIsCatalog | vite-ts-datalake-dashboard/src/main.ts:138-152 | an empty saved array gives exactly the catalog |
| Dashboard.ReconciledDistinct | vite-ts-datalake-dashboard/src/main.ts:138-152 | distinct catalog and saved ids give a list with distinct ids |
| Dashboard.SettledReconciles | vite-ts-datalake-dashboard/src/main.ts:138-152 | a settled list reconciles to itself |
| Dashboard.MergedCovers | vite-ts-datalake-dashboard/src/main.ts:142 | a merged saved widget lacks no field of its catalog entry |
| Dashboard.CatalogEntryCovers | vite-ts-datalake-dashboard/src/main.ts:147-151 | an appended catalog entry is found in the catalog and covers its own entry |
| Dashboard.ReconciledSettled | vite-ts-datalake-dashboard/src/main.ts:138-152 | reconciling any identified saved array gives a settled list |
| Dashboard.ReconciledIdempotent | vite-ts-datalake-dashboard/src/main.ts:138-152 | reconciling a reconciled list changes nothing |
| Dashboard.LoadedSettled | vite-ts-datalake-dashboard/src/main.ts:131-160 | whatever is stored, the loaded list is settled |
| Dashboard.Loaded | vite-ts-datalake-dashboard/src/main.ts:131-160 | anything but an array of identified widgets loads the catalog; such an array loads its widgets, reconciled, first; every catalog id is present either way |
| Dashboard.KeyRemoved | vite-ts-datalake-dashboard/src/main.ts:133-159 | the key is removed exactly when the text does not parse or a `null` follows only identified elements |
| Dashboard.SaveThenLoad | vite-ts-datalake-dashboard/src/main.ts:124-160 | saving a settled list and loading it gives the same list and removes nothing |
| Dashboard.LoadFallbacks | vite-ts-datalake-dashboard/src/main.ts:133-159 | nothing stored, unparsable text, a non-array or a failed check gives the catalog; only unparsable text or a `null` element removes the key |
| Dashboard.NullItemRemovesKey | vite-ts-datalake-dashboard/src/main.ts:137-156 | a `null` reached by the check removes the key |
| Dashboard.LoadDashboardState | vite-ts-datalake-dashboard/src/main.ts:131-160 | the loop over the catalog returns `Loaded(stored, catalog)` and removes the key exactly when `KeyRemoved(stored)` |
| Dashboard.PrefixLookup | vite-ts-datalake-dashboard/src/main.ts:147-148 | looking a catalog id up in the list built so far is looking it up among the saved widgets |
| Dashboard.MissingStep | vite-ts-datalake-dashboard/src/main.ts:147-151 | the loop's next catalog entry is appended exactly when its id is not saved |
| Dashboard.SetLeadingColor | vite-ts-datalake-dashboard/src/main.ts:181-195 | in an array only element 0 is replaced (an empty array gains it), other elements kept; a single or missing colour is replaced |
| Dashboard.LeadingColorReadsBack | vite-ts-datalake-dashboard/src/main.ts:181-195 | the panel reads back the written colour as overall colour and slice 0; writing twice is writing once |
| Dashboard.UpdatedDataset | vite-ts-datalake-dashboard/src/main.ts:177-195 | data kept; label written when given; each colour given reads back, each colour not given is kept |
| Dashboard.YAxisOf | vite-ts-datalake-dashboard/src/main.ts:199-201 | the existing `scales.y`, or an empty one when any level is missing |
| Dashboard.UpdatedChart | vite-ts-datalake-dashboard/src/main.ts:175-207 | type, labels and later datasets kept; first dataset updated; `scales.y` present; `beginAtZero` written only for non-pie, non-doughnut charts; `max` kept |
| Dashboard.UpdatedWidget | vite-ts-datalake-dashboard/src/main.ts:173-208 | title replaced, content and column class kept, the chart updated when there is one |
| Dashboard.UpdateIdempotent | vite-ts-datalake-dashboard/src/main.ts:173-208 | applying the same update twice is applying it once |
| Dashboard.SelectedIndexIgnored | vite-ts-datalake-dashboard/src/main.ts:173-208 | `selectedColorIndex` has no effect |
| Dashboard.Applied | vite-ts-datalake-dashboard/src/main.ts:166-212 | the first widget with the id is updated and all others kept; with none the list is unchanged |
| Dashboard.AppliedIdempotent | vite-ts-datalake-dashboard/src/main.ts:166-212 | submitting the same edit twice equals submitting it once |
| Dashboard.UpdatedCovers | vite-ts-datalake-dashboard/src/main.ts:173-207 | an update never removes a field |
| Dashboard.AppliedSettled | vite-ts-datalake-dashboard/src/main.ts:166-212 | applying an edit keeps the list settled |
| Dashboard.Removed | vite-ts-datalake-dashboard/src/main.ts:241 | `splice(i, 1)` shortens the list by one |
| Dashboard.Moved | vite-ts-datalake-dashboard/src/main.ts:241-242 | same length and elements (as a multiset), the moved element at the new index, the others in their order |
| Dashboard.MovedBack | vite-ts-datalake-dashboard/src/main.ts:241-242 | moving back undoes a move |
| Dashboard.RemovedDetermines | vite-ts-datalake-dashboard/src/main.ts:241-242 | a list is determined by one element and the rest |
| Dashboard.MovedInPlace | vite-ts-datalake-dashboard/src/main.ts:241-242 | a move onto the same index changes nothing |
| Dashboard.MovedExample | vite-ts-datalake-dashboard/src/main.ts:241-242 | dragging A of `[A, B, C, D]` to index 2 gives `[B, C, A, D]` |
| Dashboard.MovedSettled | vite-ts-datalake-dashboard/src/main.ts:239-244 | reordering keeps the list settled |
| Dashboard.Dashboard.constructor | vite-ts-datalake-dashboard/src/main.ts:231 | the list is the loaded one, settled, and what reloading the store gives; the stored value is cleared exactly when loading removed the key |
| Dashboard.Dashboard.ApplyPanelUpdate | vite-ts-datalake-dashboard/src/main.ts:166-212 | the list becomes `Applied`, stays settled, and when a widget was found is saved so that a reload gives it back |
| Dashboard.Dashboard.Reorder | vite-ts-datalake-dashboard/src/main.ts:239-244 | with an undefined index nothing changes; otherwise the list becomes `Moved`, stays settled, and is saved so that a reload gives it back |
| Dashboard.SubmitPanel | vite-ts-datalake-dashboard/src/main.ts:224 | with a widget under edit, the panel closes and forgets it, the list becomes `Applied` with the form's `SubmittedUpdate`, and the store holds the new list when the widget was found and is unchanged otherwise; with none, nothing changes; the form is kept and both invariants hold |
| Scenarios.ColdStart | vite-ts-datalake-dashboard/src/main.ts:131-160 | no entry, an empty array and `[null]` all show the catalog; only `[null]` removes the key |
| Scenarios.StartPage | vite-ts-datalake-dashboard/src/main.ts:231 | starting with the built-in catalog shows the loaded list |
| Scenarios.FirstVisit | vite-ts-datalake-dashboard/src/main.ts:131-160 | for any catalog: no entry, an empty array and `[null]` all load the catalog; only `[null]` removes the key |
| Scenarios.SavedReorderReloads | vite-ts-datalake-dashboard/src/main.ts:131-160 | a saved `[server, sales]` shows server, sales, then analytics, activity, tasks |
| Scenarios.LastAndSecondLoaded | vite-ts-datalake-dashboard/src/main.ts:131-160 | in a five-entry catalog, loading the saved last and second entries gives them and then the other three in order |
| Scenarios.EditSales | vite-ts-datalake-dashboard/src/main.ts:173-207 | editing the doughnut replaces only its first slice colour and creates an empty `scales.y` |
| Scenarios.SalesSecondSlice | vite-ts-datalake-dashboard/src/chartPanelConfig.ts:194-206 | picking the doughnut's second slice shows its own colour `rgba(54, 162, 235, 0.6)` as the hex of 54, 162 and 235, with the help text `Background for: Books` |
| Scenarios.SecondSliceShows | vite-ts-datalake-dashboard/src/chartPanelConfig.ts:194-206 | for any chart whose second background colour is `rgba(r, g, b, alpha)` with channels 0..255, slice 1 shows the hex of r, g and b, named by the second label |
| Scenarios.ServerPlainSubmit | vite-ts-datalake-dashboard/src/chartPanelConfig.ts:241-261 | opening the line chart and submitting unchanged sends a black border and the background in hex |
| Scenarios.PlainSubmit | vite-ts-datalake-dashboard/src/chartPanelConfig.ts:97-266 | on a chart without a slice selector and with single colours, opening and submitting unchanged sends the id, both colours through `rgbaToHex`, no index, and the chart's `beginAtZero` (false when unset) unless pie or doughnut |
| Scenarios.ServerBorderBecomesBlack | vite-ts-datalake-dashboard/src/main.ts:189-194 | that submitted border replaces the line chart's border colour |
| Scenarios.LaterSliceSubmit | vite-ts-datalake-dashboard/src/chartPanelConfig.ts:177-266 | on a bar, pie or doughnut chart with single colours, picking slice i > 0 and submitting unchanged sends black for both colours with index i, and the update turns the whole dataset black |
| Scenarios.VisitsThirdBar | vite-ts-datalake-dashboard/src/main.ts:173-195 | on the visits bar chart, picking the third bar and submitting leaves the data and makes every bar black |
| Scenarios.ServerBackground | vite-ts-datalake-dashboard/src/chartPanelConfig.ts:21-32 | `rgba(255, 159, 64, 0.2)` becomes the hex of its three channels |

## Left out

- The DOM:
  - rendering (`createWidgetElement`, `renderWidgets`, Chart.js instances);
  - Bootstrap's offcanvas;
  - the lookup of the panel's controls in its constructor;
  - `hide`.

  The panel's controls are an abstract form state, and the offcanvas is the flag `shown`.
- The values the HTML gives the form controls before the first `open` are not modelled; the panel starts with empty values.
- `localStorage` and JSON:
  - the stored text is given as the value `JSON.parse` makes of it (`StoredState`);
  - `JSON.stringify` and `JSON.parse` are taken to be the identity on widgets;
  - removing the key is a result (`removeKey`), or clearing the stored value.
- `service.ts` (fetching chart data) is not part of this model.
- Labels and colours that are numbers, dates, functions or `null` are not modelled; labels and colours are strings.
- JSON `null` in a widget field is not modelled; only absent fields are.
- Numeric data values are unbounded integers; floating point and values beyond 2^53 are not modelled.
- Chart options other than `scales.y.beginAtZero` and `scales.y.max` are left out; they pass through every operation unchanged.
- Dashboard.Dashboard.Reorder: requires both indices to lie within the list, which Sortable guarantees for a drag within the grid; out-of-range indices are not modelled.
- Aliasing is not modelled:
  - the panel receives the very widget object held in `currentWidgets`, while the model gives it a copy (the panel only reads it);
  - saved widgets with the same id share one catalog copy in the source; the model merges each separately.
- Dashboard.LoadDashboardState: requires catalog ids to be distinct, as they are for the built-in catalog (`WidgetCatalog.CatalogIds`); with repeated ids the source's `Map` would keep the last entry in the first entry's place.
- Dashboard.Dashboard.constructor: receives the catalog as a parameter; the page passes the built-in one (`Scenarios.StartPage`).
- Saved widgets are assumed to have the widget record's shape. A stored `chartConfig` without `data`, or a `title` that is not a string, cannot be represented. On such a widget the source's `handlePanelApply` would throw at `main.ts` line 177, after writing the title at line 173.
- Console diagnostics are not modelled.
