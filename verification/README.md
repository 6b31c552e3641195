# PC parts inventory — a Dafny model of the frontend logic

The inventory's frontend is a catalog of computer parts: CPUs, motherboards, power supplies, graphics cards, RAM modules and cases. Around the catalog it has:

- a home page that lists every part, searches it, filters it by release year and groups it by year;
- a page that lists the parts of one kind;
- reusable quick-filter and release-year-filter widgets;
- a build planner that walks the user through a compatible build;
- a builds page that turns the id-only saved builds back into parts.

This project models that logic in Dafny. Each module follows one source file:

| module | file | flavour |
|---|---|---|
| `PartTypes` (`types.dfy`) | `frontend/src/types/index.ts` | records and socket classification |
| `BuildPlanner` (`planner.dfy`) | `frontend/src/pages/BuildPlannerPage.tsx` | the page state is the class `Planner`; its build updates are pure functions |
| `SavedBuilds` (`builds.dfy`) | `frontend/src/pages/BuildsPage.tsx` | id lookup tables and build resolution |
| `CatalogTable` (`catalog.dfy`) | `frontend/src/data/parts.ts` | the kind-keyed table of all parts |
| `HomePage` (`homepage.dfy`) | `frontend/src/pages/HomePage.tsx` | flattening, year bounds, filtering, grouping and the summary |
| `PartPage` (`partpage.dfy`) | `frontend/src/pages/PartPage.tsx` | per-kind list and search |
| `ReleaseYearFilter` (`releaseyear.dfy`) | `frontend/src/components/ReleaseYearFilter.tsx` | slider and clamping arithmetic; the two text inputs are the class `YearInputs` |
| `QuickFilters` (`quickfilters.dfy`) | `frontend/src/components/QuickFilters.tsx` | toggling selections and the title |

Supporting modules:

- `Text` (`text.dfy`) gives the JavaScript string operations the pages use: `trim`, `toLowerCase` and `includes`.
- `JsNumbers` (`numbers.dfy`) gives `parseInt` and `String(n)` on integers.
- `Seqs` (`seqs.dfy`) gives `Array.prototype.filter`, the subsequence relation and the filter's element counts.
- `Wrappers` (`wrappers.dfy`) gives `Option`.
- `PlannerScenarios` (`scenarios.dfy`) drives a `Planner` through concrete click sequences. Each sequence's outcome is stated in its `ensures`.

Some parts of the planner model need explaining:

- **Build updates.** Every `setBuild(prev => ...)` callback of the planner is a function from the previous build to the next: `WithCase`, `ToggledRam` and so on.
- **Invariants.** Two are proved:
  - `SlotsRespected` says there are no more RAM modules than slots and no module id twice. Every handler keeps it, whatever order the handlers are called in.
  - `WizardInvariant` says the motherboard fits the case, the CPU has the motherboard's exact socket, the RAM has a memory type the motherboard supports, and a case was chosen before any later step. Each handler keeps it under the condition on which the page offers that handler.
- **Saving and resolving.** A saved build is resolved through the builds page's id maps. `SavedBuilds.ResolveSerializedBuild` proves that this gives back the parts the planner had chosen.

Some of the code's behaviour is easy to misread; the model follows the code:

- goToStep requires a chosen case only for the motherboard step. A later step checks only the steps from the motherboard on (`BuildPlanner.CanGoTo`). `CanGoToMeansEarlierStepsDone` shows this equals "every earlier step done" whenever a motherboard implies a case, which every handler keeps.
- Choosing a power supply keeps the graphics card. Going back to the case step clears nothing.
- A motherboard has one socket, compared by exact string equality.
- The completed step can be reached without a CPU: change the CPU, go to the RAM step, then go forward. "Copy Build to Clipboard" then does nothing, because serialisation yields no saved build (`PlannerScenarios.CompleteWithoutCpu`).

## Model

| member | source | states |
|---|---|---|
| PartTypes.Ids | frontend/src/pages/BuildPlannerPage.tsx:211 | the id list has one entry per part, in order |
| PartTypes.GetSocketColor | frontend/src/types/index.ts:165-179 | Intel exactly for the Intel list, AMD exactly for the AMD list, unknown exactly for neither |
| PartTypes.SocketFamiliesDisjoint | frontend/src/types/index.ts:1-37 | no socket name is in both families |
| PartTypes.CpuSocketHasColor | frontend/src/types/index.ts:39 | every well-typed socket gets a family colour |
| BuildPlanner.TotalCapacityConcat | frontend/src/pages/BuildPlannerPage.tsx:263-266 | the capacity total is additive over concatenation |
| BuildPlanner.FilteredCases | frontend/src/pages/BuildPlannerPage.tsx:228-237 | no selection: every case; otherwise exactly the cases supporting a selected form factor, in catalog order, each as often as in the catalog |
| BuildPlanner.AvailableMotherboards | frontend/src/pages/BuildPlannerPage.tsx:240-247 | no case: every motherboard; otherwise exactly those whose form factor the case supports, in order, each as often as in the list |
| BuildPlanner.CompatibleCpus | frontend/src/pages/BuildPlannerPage.tsx:250-253 | no motherboard: none; otherwise exactly the CPUs with the motherboard's socket, in order, each as often as in the list |
| BuildPlanner.CompatibleRam | frontend/src/pages/BuildPlannerPage.tsx:256-261 | no motherboard: none; otherwise exactly the modules of a supported memory type, in order, each as often as in the list |
| Seqs.FilterCounts | frontend/src/pages/BuildPlannerPage.tsx:228-261 | a filter keeps every occurrence of a passing element and none of a failing one |
| BuildPlanner.WithCase | frontend/src/pages/BuildPlannerPage.tsx:38-63 | sets the case; clears motherboard, CPU and RAM together exactly when a previous case existed and the motherboard no longer fits, and otherwise keeps all three as they were; keeps both invariants |
| BuildPlanner.WithMotherboard | frontend/src/pages/BuildPlannerPage.tsx:69-77 | sets the motherboard and clears CPU and RAM; compatible when the board fits the case |
| BuildPlanner.WithCpu | frontend/src/pages/BuildPlannerPage.tsx:79-82 | only the CPU changes; compatible when its socket matches |
| BuildPlanner.ToggledRam | frontend/src/pages/BuildPlannerPage.tsx:84-106 | a chosen id is removed, leaving a strictly shorter subsequence without it in which every other module appears as often as before; otherwise appended while a slot is free, else no change; the slot bound and unique ids are kept |
| BuildPlanner.RemoveIdFacts | frontend/src/pages/BuildPlannerPage.tsx:88-91 | removing a chosen id drops exactly its modules, keeps the others in order and as often as before, and keeps ids unique |
| BuildPlanner.WithPowerSupply | frontend/src/pages/BuildPlannerPage.tsx:112-115 | only the power supply changes; the graphics card is kept |
| BuildPlanner.ToggledGraphicsCard | frontend/src/pages/BuildPlannerPage.tsx:117-126 | same id: removed; any other card: replaces it; nothing else changes |
| BuildPlanner.WithoutMotherboard | frontend/src/pages/BuildPlannerPage.tsx:143-153 | only the case survives; both invariants hold afterwards |
| BuildPlanner.WithoutCpu | frontend/src/pages/BuildPlannerPage.tsx:155-158 | only the CPU is cleared; invariants kept |
| BuildPlanner.WithoutPowerSupply | frontend/src/pages/BuildPlannerPage.tsx:164-167 | only the power supply is cleared; invariants kept |
| BuildPlanner.StepAt | frontend/src/types/index.ts:150 | the wizard's step order |
| BuildPlanner.CanGoToChecks | frontend/src/pages/BuildPlannerPage.tsx:173-198 | goToStep's gate, step by step, is the generic "steps from the motherboard up are done" rule |
| BuildPlanner.CanGoToMeansEarlierStepsDone | frontend/src/pages/BuildPlannerPage.tsx:173-198 | where a motherboard implies a case, the gate is exactly "every earlier step is done" |
| BuildPlanner.SerializeBuild | frontend/src/pages/BuildPlannerPage.tsx:200-214 | a saved build exists iff case, motherboard, CPU and power supply are chosen; it carries their ids, the RAM ids in order, and the graphics card id iff one is chosen |
| BuildPlanner.Planner.constructor | frontend/src/pages/BuildPlannerPage.tsx:26-35 | the initial build, the case step, no form-factor filter; both invariants hold |
| BuildPlanner.Planner.SelectCase | frontend/src/pages/BuildPlannerPage.tsx:38-63 | applies WithCase and moves to the motherboard step; invariants kept |
| BuildPlanner.Planner.ChangeCase | frontend/src/pages/BuildPlannerPage.tsx:65-67 | back to the case step with the build unchanged; keeps `Valid` |
| BuildPlanner.Planner.SelectMotherboard | frontend/src/pages/BuildPlannerPage.tsx:69-77 | applies WithMotherboard and moves to the CPU step; an offered board keeps the wizard invariant |
| BuildPlanner.Planner.SelectCpu | frontend/src/pages/BuildPlannerPage.tsx:79-82 | applies WithCpu and moves to the RAM step; an offered CPU keeps the wizard invariant |
| BuildPlanner.Planner.ToggleRam | frontend/src/pages/BuildPlannerPage.tsx:84-106 | applies ToggledRam without changing step; an offered module keeps the wizard invariant |
| BuildPlanner.Planner.ProceedToPowerSupply | frontend/src/pages/BuildPlannerPage.tsx:108-110 | moves to the power-supply step, build unchanged; keeps `Valid` |
| BuildPlanner.Planner.SelectPowerSupply | frontend/src/pages/BuildPlannerPage.tsx:112-115 | applies WithPowerSupply and moves to the graphics-card step |
| BuildPlanner.Planner.ToggleGraphicsCard | frontend/src/pages/BuildPlannerPage.tsx:117-126 | applies ToggledGraphicsCard without changing step |
| BuildPlanner.Planner.FinishBuild | frontend/src/pages/BuildPlannerPage.tsx:128-130 | moves to the completed step, build unchanged; keeps `Valid` |
| BuildPlanner.Planner.StartOver | frontend/src/pages/BuildPlannerPage.tsx:132-141 | the initial build, the case step and an empty form-factor filter again |
| BuildPlanner.Planner.ChangeMotherboard | frontend/src/pages/BuildPlannerPage.tsx:143-153 | applies WithoutMotherboard and returns to the motherboard step |
| BuildPlanner.Planner.ChangeCpu | frontend/src/pages/BuildPlannerPage.tsx:155-158 | applies WithoutCpu and returns to the CPU step |
| BuildPlanner.Planner.ChangeRam | frontend/src/pages/BuildPlannerPage.tsx:160-162 | returns to the RAM step, build unchanged; keeps `Valid` |
| BuildPlanner.Planner.ChangePowerSupply | frontend/src/pages/BuildPlannerPage.tsx:164-167 | applies WithoutPowerSupply and returns to the power-supply step |
| BuildPlanner.Planner.ChangeGraphicsCard | frontend/src/pages/BuildPlannerPage.tsx:169-171 | returns to the graphics-card step, build unchanged; keeps `Valid` |
| BuildPlanner.Planner.GoToStep | frontend/src/pages/BuildPlannerPage.tsx:173-198 | moves exactly when CanGoTo holds, never to the completed step, never changes the build; keeps `Valid` |
| BuildPlanner.Planner.SetSelectedFormFactors | frontend/src/pages/BuildPlannerPage.tsx:553-558 | replaces the form-factor filter and nothing else; keeps `Valid` |
| SavedBuilds.IndexById | frontend/src/pages/BuildsPage.tsx:27-37 | the id map's keys are exactly the parts' ids and each key maps to a part with that id |
| SavedBuilds.IndexLastWins | frontend/src/pages/BuildsPage.tsx:29-34 | on a duplicate id the last part in the list is the one kept |
| SavedBuilds.ResolveIds | frontend/src/pages/BuildsPage.tsx:47-56 | unknown ids are dropped; when all are known the result is the mapped parts position by position; when none are known it is empty |
| SavedBuilds.ResolveIdsConcat | frontend/src/pages/BuildsPage.tsx:47-56 | resolving is a homomorphism over concatenation of id lists |
| SavedBuilds.ResolveSkipsUnknown | frontend/src/pages/BuildsPage.tsx:47-56 | an unknown id can be removed from the list without changing the result |
| SavedBuilds.ResolveBuild | frontend/src/pages/BuildsPage.tsx:39-59 | identity fields are copied; each single part is looked up; a missing graphics card list resolves to none |
| SavedBuilds.ResolveBuilds | frontend/src/pages/BuildsPage.tsx:39-59 | one resolved build per saved build, in order |
| SavedBuilds.ResolveIdsOfParts | frontend/src/pages/BuildsPage.tsx:47-56 | resolving the ids of parts the map knows gives those parts back |
| SavedBuilds.ResolveSerializedBuild | frontend/src/pages/BuildsPage.tsx:39-59 | a build saved by the planner from catalog parts with unique ids resolves to the same case, motherboard, CPU, RAM list, power supply and graphics card |
| SavedBuilds.RoundTripCapacity | frontend/src/pages/BuildsPage.tsx:90 | the builds page shows the RAM capacity the planner showed |
| CatalogTable.AllParts | frontend/src/data/parts.ts:7-13 | five entries, one per kind except cases, with distinct kinds |
| CatalogTable.Lookup | frontend/src/pages/PartPage.tsx:15-20 | absent exactly when no entry has the key; otherwise the parts of an entry with that key |
| HomePage.FlattenAllParts | frontend/src/pages/HomePage.tsx:23-31 | the loop builds the kind-tagged concatenation of the table |
| HomePage.FlattenLength | frontend/src/pages/HomePage.tsx:23-31 | the flat list has as many parts as the table |
| HomePage.FlattenPosition | frontend/src/pages/HomePage.tsx:23-31 | part j of entry i sits at its offset, tagged with the entry's kind |
| HomePage.FlattenMembers | frontend/src/pages/HomePage.tsx:23-31 | every flat part comes from some entry, with that entry's kind |
| HomePage.ReleaseYears | frontend/src/pages/HomePage.tsx:34-44 | exactly the years of parts that have one |
| HomePage.YearBounds | frontend/src/pages/HomePage.tsx:34-44 | without years both bounds are the current year; otherwise every year lies within the bounds and both bounds are attained |
| HomePage.RangeSelection | frontend/src/pages/HomePage.tsx:136-138 | a chosen range makes the filter active |
| HomePage.ClearedSelection | frontend/src/pages/HomePage.tsx:140-142 | clearing makes the filter inactive |
| HomePage.FilterParts | frontend/src/pages/HomePage.tsx:47-76 | an order-preserving subsequence; a part is kept, as often as it occurs, iff the term is blank after trimming or the part matches the lower-cased untrimmed term, and, when the year filter is active, it has a year inside the selection |
| HomePage.ShownCount | frontend/src/pages/HomePage.tsx:47-76 | for one part, the search then the year filter count it exactly when it is shown |
| HomePage.SearchThenYears | frontend/src/pages/HomePage.tsx:47-76 | the search filter followed by the year filter keeps exactly the shown parts, each as often as in the list |
| HomePage.InsertKey | frontend/src/pages/HomePage.tsx:96-101 | inserting keeps the key order (known years newest first, unknown last) |
| HomePage.SortKeys | frontend/src/pages/HomePage.tsx:96-101 | the keys sorted newest first with unknown last, same keys |
| HomePage.CollectByKey | frontend/src/pages/HomePage.tsx:87-93 | the loop leaves each key's list equal to the parts with that key, in order, non-empty, with every part's key present |
| HomePage.GroupingStep | frontend/src/pages/HomePage.tsx:87-93 | one iteration of building the year map keeps each group equal to the filtered prefix |
| HomePage.GroupByYear | frontend/src/pages/HomePage.tsx:79-106 | for a consistent name comparison: each group is the parts with its key, each as often as in the list, sorted by name with ties in list order, and non-empty; keys strictly ordered newest first with unknown last; every part's key has a group |
| HomePage.InsertByName | frontend/src/pages/HomePage.tsx:105 | inserting adds exactly the one part |
| HomePage.SortByName | frontend/src/pages/HomePage.tsx:105 | the sort is a permutation of the group |
| HomePage.InsertKeepsSorted | frontend/src/pages/HomePage.tsx:105 | inserting into a name-sorted group keeps it sorted |
| HomePage.SortByNameSorted | frontend/src/pages/HomePage.tsx:105 | the sorted group is ordered by the comparison |
| HomePage.NoTiesAfter | frontend/src/pages/HomePage.tsx:105 | a part placed before the head of a sorted group has no name ties in it |
| HomePage.InsertBehindHead | frontend/src/pages/HomePage.tsx:105 | inserting behind the head keeps the ties' order given that the tail's insertion does |
| HomePage.InsertAfterTies | frontend/src/pages/HomePage.tsx:105 | an inserted part lands after every part whose name ties with it |
| HomePage.StableStep | frontend/src/pages/HomePage.tsx:105 | one insertion step of the sort keeps the ties' order |
| HomePage.SortByNameStable | frontend/src/pages/HomePage.tsx:105 | `sort` is stable: parts whose names tie keep their list order |
| HomePage.GroupSizesSum | frontend/src/pages/HomePage.tsx:79-106 | when each group holds its key's parts in any order, the group sizes add up to the number of parts: nothing lost or duplicated |
| HomePage.PartsSummary | frontend/src/pages/HomePage.tsx:118-134 | every kind has a count; kinds not in the table count zero |
| HomePage.PartsSummaryLastWins | frontend/src/pages/HomePage.tsx:118-134 | a kind's count is the size of its (last) entry |
| HomePage.SummaryOfCatalog | frontend/src/pages/HomePage.tsx:118-134 | on the catalog each kind counts its list and cases count zero |
| PartPage.PartsOfType | frontend/src/pages/PartPage.tsx:15-20 | no route kind or an unknown one: empty; a kind some entry has: the parts of an entry with that key |
| PartPage.LookupOfKind | frontend/src/pages/PartPage.tsx:15-20 | with distinct kinds, a kind's route lists exactly its own entry's parts |
| PartPage.SummaryCountsListedParts | frontend/src/pages/HomePage.tsx:118-134 | with distinct kinds, the home page's count for a kind equals the number of parts the kind's page lists |
| PartPage.PartsOfCatalogKind | frontend/src/pages/PartPage.tsx:15-20 | on the catalog the case route is empty and every other kind lists its catalog entry |
| PartPage.FilteredParts | frontend/src/pages/PartPage.tsx:23-35 | a blank term lists all the kind's parts; otherwise exactly those whose name, brand or description contains the lower-cased term, each as often as listed |
| PartPage.FilteredPartsIdempotent | frontend/src/pages/PartPage.tsx:23-35 | searching the result again changes nothing |
| Text.TrimStart | frontend/src/pages/HomePage.tsx:51 | the result is a suffix with only whitespace removed, starting at a non-whitespace character |
| Text.TrimEnd | frontend/src/pages/HomePage.tsx:51 | the result is a prefix with only whitespace removed, ending at a non-whitespace character |
| Text.TrimEmptyIffBlank | frontend/src/pages/HomePage.tsx:51 | trimming gives the empty string exactly for all-whitespace text |
| Text.ToLower | frontend/src/pages/HomePage.tsx:52 | same length, each character lower-cased, no upper-case letters left |
| Text.IncludesIffOccurs | frontend/src/pages/HomePage.tsx:55-57 | `includes` holds exactly when the text occurs at some index |
| Text.Search | frontend/src/pages/PartPage.tsx:23-35 | blank term: all items; otherwise exactly the items matching the lower-cased term, in order, each as often as in the list |
| Text.SearchIdempotent | frontend/src/pages/PartPage.tsx:23-35 | searching twice equals searching once |
| JsNumbers.ParseInt | frontend/src/components/ReleaseYearFilter.tsx:65 | blank text parses to nothing |
| JsNumbers.ParseIntDefined | frontend/src/components/ReleaseYearFilter.tsx:65 | a number results exactly when a digit follows the optional sign: a hexadecimal digit after `0x`, a decimal one otherwise |
| JsNumbers.ParseIgnoresRest | frontend/src/components/ReleaseYearFilter.tsx:65 | after leading white space, decimal digits read as their value whatever non-digit text follows |
| JsNumbers.ParseMagnitudeStops | frontend/src/components/ReleaseYearFilter.tsx:65 | the digit run ends at the first non-digit |
| JsNumbers.ParseNegatedAfterBlank | frontend/src/components/ReleaseYearFilter.tsx:65 | a minus sign after white space negates the magnitude |
| JsNumbers.TrimStartBlank | frontend/src/components/ReleaseYearFilter.tsx:65 | leading white space is skipped up to the first other character |
| JsNumbers.IntToString | frontend/src/components/ReleaseYearFilter.tsx:24-29 | non-empty, with a leading minus exactly for negatives |
| JsNumbers.ParseIntToString | frontend/src/components/ReleaseYearFilter.tsx:24-29 | parsing a printed integer gives it back |
| ReleaseYearFilter.CurrentMin | frontend/src/components/ReleaseYearFilter.tsx:108 | the selected minimum, else the lowest year |
| ReleaseYearFilter.CurrentMax | frontend/src/components/ReleaseYearFilter.tsx:109 | the selected maximum, else the highest year |
| ReleaseYearFilter.MinSliderChange | frontend/src/components/ReleaseYearFilter.tsx:37-44 | the maximum is kept, the new minimum never exceeds it, equals the slider value when that does not, and is the maximum itself when the slider passes it |
| ReleaseYearFilter.MaxSliderChange | frontend/src/components/ReleaseYearFilter.tsx:46-53 | the minimum is kept, the new maximum never falls below it, equals the slider value when that does not, and is the minimum itself when the slider passes it |
| ReleaseYearFilter.ClampMinInput | frontend/src/components/ReleaseYearFilter.tsx:63-77 | at least the lowest year, at most the current maximum when that range is non-empty, unchanged when already inside; the lowest year for a value below it or an empty range, the current maximum for a value above a non-empty range |
| ReleaseYearFilter.ClampMaxInput | frontend/src/components/ReleaseYearFilter.tsx:79-93 | at most the highest year, at least the current minimum when that range is non-empty, unchanged when already inside; the highest year for a value above it or an empty range, the current minimum for a value below a non-empty range |
| ReleaseYearFilter.ActivateFilter | frontend/src/components/ReleaseYearFilter.tsx:101-106 | an inactive filter activates with the full year range; an active one does nothing |
| ReleaseYearFilter.YearInputs.constructor | frontend/src/components/ReleaseYearFilter.tsx:24-29 | both inputs show the current bounds, and parse back to them |
| ReleaseYearFilter.YearInputs.Sync | frontend/src/components/ReleaseYearFilter.tsx:31-35 | both inputs are rewritten from the current bounds |
| ReleaseYearFilter.YearInputs.SetMinInput | frontend/src/components/ReleaseYearFilter.tsx:55-57 | the minimum input holds the typed text, the other is unchanged |
| ReleaseYearFilter.YearInputs.SetMaxInput | frontend/src/components/ReleaseYearFilter.tsx:59-61 | the maximum input holds the typed text, the other is unchanged |
| ReleaseYearFilter.YearInputs.MinInputBlur | frontend/src/components/ReleaseYearFilter.tsx:63-77 | unparseable text is reset and nothing emitted; otherwise the clamped value is emitted with the current maximum and written back, and the input parses to it |
| ReleaseYearFilter.YearInputs.MaxInputBlur | frontend/src/components/ReleaseYearFilter.tsx:79-93 | unparseable text is reset and nothing emitted; otherwise the clamped value is emitted with the current minimum and written back, and the input parses to it |
| QuickFilters.ClickFilter | frontend/src/components/QuickFilters.tsx:21-29 | a selected filter is removed with every copy of it, the others kept as often as before and in order; an unselected one appended |
| QuickFilters.ClickTwice | frontend/src/components/QuickFilters.tsx:21-29 | clicking an unselected filter twice restores the selection |
| QuickFilters.ClickKeepsNoDuplicates | frontend/src/components/QuickFilters.tsx:21-29 | clicking never creates a duplicate selection |
| QuickFilters.ClearAll | frontend/src/components/QuickFilters.tsx:31-33 | the selection becomes empty |
| QuickFilters.DefaultTitle | frontend/src/components/QuickFilters.tsx:35-40 | "Socket" for none or `socket`, "Interface" for `interface`, "Form Factor" for `formFactor`; "Filter" exactly for any other filter type |
| QuickFilters.Title | frontend/src/components/QuickFilters.tsx:46 | a non-empty given title wins, otherwise the default title |
| PlannerScenarios.SocketExactness | frontend/src/pages/BuildPlannerPage.tsx:250-253 | a CPU of the same family but another socket is not offered |
| PlannerScenarios.TwoSlotsFilled | frontend/src/pages/BuildPlannerPage.tsx:84-106 | two distinct modules on a two-slot board are both added, in order |
| PlannerScenarios.SlotLimit | frontend/src/pages/BuildPlannerPage.tsx:84-106 | a module beyond the slot count is ignored |
| PlannerScenarios.TowerWithRam | frontend/src/pages/BuildPlannerPage.tsx:38-106 | a case, a fitting motherboard, a CPU and a module can all be chosen |
| PlannerScenarios.CaseCascade | frontend/src/pages/BuildPlannerPage.tsx:38-63 | an incompatible new case clears motherboard, CPU and RAM |
| PlannerScenarios.RamStepGated | frontend/src/pages/BuildPlannerPage.tsx:173-198 | the RAM step cannot be entered without a CPU |
| PlannerScenarios.GraphicsCardReplaced | frontend/src/pages/BuildPlannerPage.tsx:117-126 | picking a second card replaces the first |
| PlannerScenarios.SelectAndToggle | frontend/src/pages/BuildPlannerPage.tsx:69-106 | choosing a board, a CPU and toggling a module on and off gives the expected steps and RAM lists |
| PlannerScenarios.SmallBoardChosen | frontend/src/pages/BuildPlannerPage.tsx:38-77 | a case and an offered motherboard from a small catalog keep the wizard invariant |
| PlannerScenarios.SmallBuildWithRam | frontend/src/pages/BuildPlannerPage.tsx:79-106 | then an offered CPU and module keep it too |
| PlannerScenarios.CompleteWithoutCpu | frontend/src/pages/BuildPlannerPage.tsx:155-214 | with every part picked from the offered lists, the completed step is reachable without a CPU, the wizard invariant still holds, and no saved build is produced |

## Left out

- Rendering (JSX, CSS, icons, links) and React hooks are left out. Each `useState` is a field, each `useMemo` a function of its inputs.
- The clipboard write, its failure log, the "copied" message and its timeout are left out. They are I/O and timing.
- `Date.now()` for a saved build's id is left out: the id is a parameter of `SerializeBuild`. The same goes for `new Date().getFullYear()` in the year bounds: the current year is a parameter of `YearBounds`.
- The JSON text written to the clipboard (`JSON.stringify` of the saved build) is left out. The model stops at the `SavedBuild` record.
- Floating-point fields are left out: CPU and GPU clocks in GHz/MHz, RAM voltage, and the slider's percentage positions. They affect only display.
- HomePage.GroupByYear: locale collation is not modelled. `localeCompare` is a parameter `le` (read as `localeCompare(a, b) <= 0`) that is only assumed to be a total preorder, which is what `Array.prototype.sort` demands of a consistent comparison.
- Text.ToLower: lower-cases ASCII letters only. JavaScript's full Unicode case mapping is not modelled.
- JsNumbers.IntToString: JavaScript writes numbers of magnitude 10^21 and above in exponential notation; the model always writes all digits. Years never come near that.
- JsNumbers.ParseInt: the result is an exact integer. The float rounding of digit strings beyond 2^53, and `-0`, are not modelled. A `0x` prefix, a sign, leading whitespace and digit-prefix parsing are modelled.
- ReleaseYearFilter.MinSliderChange and ReleaseYearFilter.MaxSliderChange take the slider's value as an integer. The `parseInt` of the range input's value always succeeds, because the browser supplies a number.
- PartPage.PartsOfType looks up only the catalog's own keys. Route values that name inherited object properties (such as `toString`) are not modelled.
- The home page's unreachable `"all"` sort option is left out, together with its markup.
- The builds page's markup is left out. Its data, the resolved builds and their RAM capacity, is modelled.
- The part data files are left out: the model is generic in the catalog. Only `allParts`' shape is modelled: five kinds, and no cases.
- The `infrastructure/` deployment stack and the legacy `src/` tree are not part of this model.
- `DetailedPartCard`, `PartCard` and `Navigation` are not part of this model. They are presentation only.
