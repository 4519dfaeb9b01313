# Portfolio ledger engine of FMassistant

FMassistant is a personal fund-portfolio dashboard. It keeps two lists:

- the **assets** (fund positions with a cost basis, a market value, a target amount and an investment direction);
- the **transactions** (a buy/sell log, newest entry first).

This project models the engine behind that dashboard and proves what it guarantees.

- `types.dfy` (module `Types`): the records. These are `Asset`, `Transaction`, `PortfolioStats`, the two trade kinds and the two lifecycle states.
- `derivations.dfy` (module `Derivations`): the views the dashboard computes over the assets that are not soft deleted:
  - the statistics;
  - the allocation by investment direction;
  - the per-direction ("sector") gain and ROI;
  - the target-deviation and profit-leader rankings.

  The three views that accumulate in a loop (statistics, allocation, sector) are methods with loop invariants. Each is proved against a specification function. The map-and-sort rankings are functions.
- `sorting.dfy` (module `Sorting`): a descending insertion sort. It stands in for the array sort with a `b.key - a.key` comparator and promises only ordering and permutation. The module also has sums and maps over sequences, which are invariant under permutation.
- `transaction_modal.dfy` (module `Modal`): the add/trade/edit dialog. It is a class holding the form state:
  - the open/reset effect;
  - typing into inputs, tab and buy/sell selection;
  - the category-suggestion guard;
  - the pure submit dispatch, which decides the payload that reaches the engine;
  - the delete confirmation.
- `ledger.dfy` (module `Ledger`): the three handlers that change the lists (submit, soft delete, value correction).
  - The new lists are pure functions of the old ones.
  - The class `Ledger` holds both lists and keeps the bookkeeping invariant: each asset's cost basis is its opening balance plus the net buys minus sells logged for it.
  - For an asset created with its initial buy, the opening balance is zero. So its cost basis is exactly its bought minus its sold volume.

Money is an exact `real`. `parseFloat(x.toFixed(2))` is modelled as rounding the exact value to hundredths, halves away from zero. A form number field is `Option<real>`, where a blank input is `None` and reads as 0 (as `Number('')` does).

## Model

| member | source | states |
|---|---|---|
| Sorting.SortDesc | App.tsx:104-106 | The sorted rows are non-increasing by the key and a permutation of the input (same multiset, same length). |
| Derivations.ActiveAssets | App.tsx:75 | The filtered list is never longer than the asset list. |
| Derivations.ActiveAssetsMembers | App.tsx:75 | An asset is shown exactly when it is in the list and its status is active. |
| Derivations.TotalLinear | App.tsx:89 | Summed over any assets, the gain is value minus cost and the deviation is value minus target. |
| Derivations.GainPercentage | App.tsx:90 | The percentage is 0 whenever the cost is zero or negative. Otherwise it is gain/cost·100, with the sign of the gain. |
| Derivations.ComputeStats | App.tsx:78-93 | The accumulation loop returns the specified statistics: value, cost and target totals, gain = value − cost, and the guarded percentage. |
| Derivations.StatsOfEmpty | App.tsx:78-93 | An empty portfolio has all-zero statistics. |
| Derivations.StatsGainIsSumOfGains | App.tsx:89 | The total gain equals the sum of the individual gains and total value minus total cost. |
| Derivations.StatsIgnoreDeleted | App.tsx:75 | A soft-deleted asset changes neither the active list nor any statistic. |
| Derivations.StatsAddActive | App.tsx:83-87 | An active asset adds exactly its value, cost and target to the totals. |
| Derivations.Label | App.tsx:101 | An asset's group label is never empty. It is the asset's direction when that is non-empty (otherwise "其他"). |
| Derivations.Labels | App.tsx:99-104 | The group labels are pairwise distinct: one row per label. |
| Derivations.LabelsMembers | App.tsx:99-104 | A label occurs exactly when some asset carries it. |
| Derivations.GroupTotalGain | App.tsx:119-121 | A group's gain is its value total minus its cost total. |
| Derivations.GroupsPartitionTotal | App.tsx:99-103 | Grouping neither drops nor double counts: the group totals add up to the overall total. |
| Derivations.DirectionRowsFor | App.tsx:104-105 | The specified allocation rows pair each label with its group's market value. |
| Derivations.DirectionRowsSum | App.tsx:104-105 | Those rows' values add up to the group sums, and their names are the labels in order. |
| Derivations.GroupValues | App.tsx:99-103 | The allocation loop leaves one key per label, in first-appearance order, each holding its group's market value. |
| Derivations.DirectionData | App.tsx:98-107 | The allocation rows are sorted by value (non-increasing), one per distinct label. They sum to the total value, and each holds its group's market value. |
| Derivations.DirectionRowsMeaning | App.tsx:104-106 | Any permutation of the allocation rows names each label once and sums to the total value. |
| Derivations.DirectionRowsValues | App.tsx:104-106 | In any permutation of the allocation rows, each row holds its group's market value. |
| Derivations.Round2 | App.tsx:123 | The result is a whole number of hundredths. It lies in (x − 0.005, x + 0.005] for x ≥ 0 and in [x − 0.005, x + 0.005) for x < 0, so halves go away from zero. It keeps the sign and maps 0 to 0. |
| Derivations.RoundHalfUp2 | App.tsx:123 | A non-negative value rounds to a non-negative whole number of hundredths in (x − 0.005, x + 0.005]. |
| Derivations.Round2Unique | App.tsx:123 | Any whole number of hundredths in that window equals Round2(x), so the contract fixes the rounded value. |
| Derivations.Roi | App.tsx:122-123 | The ROI is a whole number of hundredths. It is 0 when the cost is not positive, and otherwise within 0.005 of gain/cost·100. |
| Derivations.SectorRowFacts | App.tsx:119-123 | A sector row carries its label, gain = value − cost, and ROI 0 when the group cost is not positive. |
| Derivations.SectorRowsFor | App.tsx:119-124 | The specified sector rows are one row per label, in label order. |
| Derivations.SectorRowsSum | App.tsx:119-124 | Those rows' gains add up to the group gain sums, and their names are the labels. |
| Derivations.GroupCostsAndValues | App.tsx:111-117 | The sector loop leaves one key per label, each holding its group's cost and market value. |
| Derivations.SectorPerformanceData | App.tsx:110-125 | The sector rows are sorted by ROI (non-increasing), one per distinct label. Their gains sum to the total gain. Each has gain = value − cost and ROI 0 when the cost is not positive. |
| Derivations.SectorRowsMeaning | App.tsx:119-124 | Any permutation of the sector rows names each label once and sums its gains to the total gain. |
| Derivations.SectorRowsValues | App.tsx:119-124 | In any permutation of the sector rows, each row has gain = value − cost and ROI 0 for a non-positive cost. |
| Derivations.Abbreviate | App.tsx:131 | A name of at most `width` characters is shown whole. A longer one is shown as its first `width` characters followed by "...". |
| Derivations.DeviationData | App.tsx:128-138 | The deviation rows are sorted by diff (non-increasing) and are a permutation of one row per active asset. |
| Derivations.DeviationDataMeaning | App.tsx:130-135 | Every row's diff is actual − target, and the diffs add up to total value − target total. |
| Derivations.ProfitLeaderData | App.tsx:141-147 | The profit rows are sorted by gain (non-increasing) and are a permutation of one row per active asset. |
| Derivations.ProfitLeaderDataMeaning | App.tsx:142-146 | Every row comes from an active asset, with gain = value − cost, and the gains add up to the total gain. |
| Modal.TransactionModal.constructor | components/TransactionModal.tsx:19-57 | Mounting starts on the trade tab with today's date, a buy and a blank amount. A closed dialog or one without an asset has every text field empty and the target and new value blank. An open dialog with an asset holds that asset's name, code (or ""), direction, target and value. |
| Modal.TransactionModal.OpenEffect | components/TransactionModal.tsx:36-57 | Opening with an asset loads name, code (or ""), direction, target and value, and selects the trade tab. Amount and type are kept. Opening without an asset clears the fields and selects buy on the trade tab. A closed dialog is untouched. |
| Modal.TransactionModal.ReceiveProps | components/TransactionModal.tsx:36-57 | The dialog takes the new open flag and asset. When neither changed, nothing else changes. When one changed, the open effect's result follows: a closed dialog keeps its form, an open one loads the asset or resets for a new one. |
| Modal.TransactionModal.Apply | components/TransactionModal.tsx:154-307 | Typing into one input changes exactly that field. |
| Modal.TransactionModal.SelectTab | components/TransactionModal.tsx:121-137 | The tab bar exists only for an existing asset, and clicking selects the tab. |
| Modal.TransactionModal.SelectType | components/TransactionModal.tsx:207-219 | The buy/sell toggle exists only on the trade tab of an existing asset. |
| Modal.TransactionModal.NameBlur | components/TransactionModal.tsx:60-67 | A suggestion is requested exactly for a new asset whose name is longer than 2 and whose direction is empty. Only a non-empty answer is applied. |
| Modal.TransactionModal.HandleSubmit | components/TransactionModal.tsx:69-96 | The value tab of an existing asset dispatches only a value update, with the asset's id and the value field read as a number. Otherwise a submission goes out with: new asset ⇔ no asset, settings ⇔ settings tab, trade present ⇔ trade tab. Its asset part is the asset's id (absent for a new asset) with the form's name, code, direction and target. Its trade is the form's type, amount and date. |
| Modal.TransactionModal.HandleDelete | components/TransactionModal.tsx:98-103 | Delete targets the asset's id exactly when an asset is present and the user confirmed. |
| Modal.SubmissionShapes | components/TransactionModal.tsx:79-94 | A settings save never carries a trade and a trade is never a settings save. A new asset comes with a buy, and an existing asset comes with its id. |
| Ledger.ApplyTrade | App.tsx:194-208 | Buy adds and sell subtracts the amount from the cost basis and the value. Only the value is floored at 0, and nothing else changes. |
| Ledger.BuyThenSellRestores | App.tsx:194-208 | Buying then selling the same amount restores the asset when no floor is hit. |
| Ledger.SellThenBuyRestores | App.tsx:194-208 | Selling then buying back the same amount restores the asset when no floor is hit. |
| Ledger.OversellFloorsValueOnly | App.tsx:203-207 | Overselling zeroes the value, lets the cost basis go below it, and raises the gain by the excess. |
| Ledger.UpdatedAsset | App.tsx:184-209 | A settings save sets name, code, direction and target from the payload, and nothing else. A trade moves the cost basis by the signed amount and sets the value to old value + signed amount, or 0 when that is negative. Id, status and notes never change. |
| Ledger.UpdateMatching | App.tsx:182-212 | Every asset with the submitted id becomes UpdatedAsset of itself, and every other asset is unchanged. Ids and length are kept. |
| Ledger.UnknownIdKeepsAssets | App.tsx:182-212 | A submission for an id no asset has leaves the asset list as it was. |
| Ledger.SettingsKeepBalances | App.tsx:186-192 | A settings save keeps every asset's status, cost basis and market value. |
| Ledger.SettingsKeepTotal | App.tsx:186-192 | A settings save keeps the value, cost or gain total of the active assets. |
| Ledger.SettingsKeepTotals | App.tsx:186-192 | A settings save keeps the portfolio's value, cost and gain totals. |
| Ledger.NameOf | App.tsx:218 | The logged name is the first matching asset's name, or "" when no asset has the id. |
| Ledger.SoftDeleted | App.tsx:235 | Deleting sets the status of the matching assets to deleted and changes nothing else. |
| Ledger.DeleteIdempotent | App.tsx:235 | Deleting twice is the same as deleting once. |
| Ledger.DeleteHidesAsset | App.tsx:235 | After a delete, the active assets are the former active assets without that id, in order. |
| Ledger.DeleteStats | App.tsx:235 | A delete takes exactly the deleted asset's value, cost and target out of the statistics. |
| Ledger.ValueUpdated | App.tsx:242 | A value correction sets the matching assets' value, unfloored, and changes nothing else. |
| Ledger.ValueUpdateKeepsCost | App.tsx:242 | A value correction keeps the total cost and the target total. |
| Ledger.ValueUpdateWithCurrentValue | App.tsx:242 | Saving the preloaded current value of an asset (ids distinct) changes nothing. |
| Ledger.NetFlowIsBuysMinusSells | types.ts:12 | An asset's logged net flow is its bought volume minus its sold volume. |
| Ledger.NetFlowPrepend | App.tsx:177 | Prepending a log entry adds its signed amount to its own asset's net flow only. |
| Ledger.Ledger.constructor | App.tsx:70-71 | The loaded asset list and log are kept. Each asset's opening is its stored cost basis minus the net flow of the stored log, so the invariant holds, and no asset counts as created. |
| Ledger.Ledger.SubmitTransaction | App.tsx:150-232 | A new asset is appended at the end with cost = value = amount, active and with empty notes, and exactly one entry is prepended to the log. For an existing asset, only the matching assets change, and a trade prepends one entry under the pre-update name. A settings save leaves the log alone. A new asset appends its opening cost (amount minus the trade's signed flow); otherwise the recorded openings are unchanged. The cost-basis invariant and distinct ids are kept. |
| Ledger.NewAssetBalanced | App.tsx:154-177 | Appending a new asset with an unused id and prepending its initial entry keeps the books. The entry moves no other asset's flow, and an initial buy opens at zero. |
| Ledger.TradeBalanced | App.tsx:194-224 | A trade on an existing asset, together with its prepended entry, keeps the books: cost basis and logged flow move together. |
| Ledger.SettingsBalanced | App.tsx:186-192 | A settings save keeps the books. |
| Ledger.Ledger.DeleteAsset | App.tsx:234-239 | The delete handler soft deletes, keeps the log and the recorded openings, and keeps the invariant. |
| Ledger.Ledger.UpdateValue | App.tsx:241-245 | The value handler overwrites the value, keeps the log and the recorded openings, and keeps the invariant. |
| Ledger.CreatedCostIsNetFlow | types.ts:12 | For an asset created with an initial buy since the ledger was loaded, the cost basis is exactly its bought minus its sold volume in the log. |
| Ledger.DialogSubmissionsAccepted | App.tsx:150-161 | Every payload an open dialog submits is well formed for the handler, and a new asset always arrives with a buy. |

## Left out

- Floating point: JS numbers are doubles. The model uses exact reals, so it does not capture rounding drift in sums, `NaN` from `Number(...)` on malformed input, or `Infinity`.
- Round2: models `parseFloat(roi.toFixed(2))` on the exact value. The binary-double corner cases of `toFixed` (such as 1.005 rounding down) are not modelled.
- GroupValues: the source groups into a plain object literal (App.tsx:99), whose keys also see the inherited properties of every object, such as `toString`, `constructor`, `valueOf` and `__proto__`. With such a direction, `grouped[dir] || 0` picks up the inherited function, so the sum becomes a string, and a `__proto__` entry is never stored. The model's map has no inherited keys. It covers only directions that are not names of inherited properties.
- DirectionData: for such a direction the source's row value is not a number and the sort comparator gives NaN, or the row is missing (`__proto__`). The one-row-per-label and sum-to-total promises hold only for directions that are not names of inherited properties.
- GroupCostsAndValues: for such a direction, `!grouped[dir]` (App.tsx:114) is false, so no entry is created. Lines 115-116 then write NaN (`undefined` plus a number) into `cost` and `val` properties of the shared inherited value: a function, or `Object.prototype` itself for `__proto__`. The direction never becomes a key. The model covers only other directions.
- SectorPerformanceData: for such a direction the source drops the group's row (App.tsx:119), so its gains are missing from the sum. The one-row-per-label and sum-to-total-gain promises hold only for directions that are not names of inherited properties.
- DirectionData, SectorPerformanceData: rows are claimed as a sorted permutation of the per-label rows. The key order of `Object.keys` (integer-like keys first) and the order among equal sort keys are not fixed.
- Abbreviate: counts sequence elements. JS `length`/`substring` count UTF-16 code units, and the two differ for characters outside the Basic Multilingual Plane. The same applies to the name-length guard of NameBlur.
- ComputeStats: `targetAmount || 0` is modelled as `targetAmount`. In the typed record the target is always a number, and `|| 0` changes only `NaN`, which the model does not have.
- Ledger.Ledger.SubmitTransaction: requires a trade with every new-asset payload and an id with every existing-asset payload (`Accepted`). The source would crash on a missing trade for a new asset. DialogSubmissionsAccepted proves the dialog never sends anything else.
- Ledger.Ledger.SubmitTransaction: the fresh asset and transaction ids that `generateId` draws at random are parameters. A new asset's id is required to be unused.
- Ledger.Ledger.SubmitTransaction: a new asset submitted with a sell still gets cost basis +amount. For such an asset the bookkeeping invariant holds only against its recorded opening, and it is not added to `created`. The dialog always sends a buy for a new asset.
- Storage (loading and saving to browser storage), the seed asset list, rendering, `setSelectedAsset`, loading flags and the dialog's close callback are not modelled. Both lists are loaded as they were saved. The ledger's constructor takes them as parameters, and each asset's opening balance is whatever its stored cost basis does not explain by the stored log.
- CreatedCostIsNetFlow: `created` is empty after a load, so the lemma covers only assets created since the ledger was loaded. For the others, the books hold relative to their opening balances.
- The category-suggestion service: a network call. NameBlur takes its answer as a parameter, and the asynchronous race between overlapping requests is not modelled.
- The form's HTML `required` validation and the date defaulting from the clock: the date is a parameter of the open effect, and field values are taken as typed. The number inputs carry no lower bound, so a negative or zero amount reaches the handler. The model accepts any real amount, as the handler does.
- The AI portfolio analysis and its prompt formatting are not part of this model.
