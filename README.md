# Podcast statistics and node-creation wizard, modelled in Dafny

This project models two pieces of a web dashboard for hosted Lightning-network nodes.

**The podcast statistics panel** (`components/viewnode/PodcastStats.tsx`) charts keysend payments per day.
- The invoice list is loaded from the node and filtered to settled keysend invoices.
- `makeBins` lists fourteen one-day windows counted back from "now", newest first. Each window is named by its end: `now`, `now - 1 day`, and so on.
- A label-keyed JavaScript `Map` is seeded with a zero total for each window's label.
- `getBin` places each invoice's settle time in the most recent window it reaches. The invoice's amount is then added to that window's total.
- The totals are reversed to oldest first. The leading run of non-positive totals is cut off, and an empty result becomes `null`.

**The node-creation wizard store** (`store/create.ts`) is a Vuex module. Its state is the node name, network, trial flag, seed words, macaroon-backup flag, node settings, new node id and current step. Mutations overwrite fields. They also merge partial settings objects with `Object.assign` and wipe the settings back to their defaults.

Modules:
- `Wrappers` (`wrappers.dfy`): `Option`, standing for a value that may be `null` or missing.
- `LabelMap` (`label_map.dfy`): the insertion-ordered `Map<string, {x, y}>`, kept as the sequence of its values.
- `Binning` (`binning.dfy`): `getBin` as a recursive function and `makeBins` as a loop. It also gives a direct reference formula for the window index.
- `PodcastStats` (`podcast_stats.dfy`):
  - the eligibility filter;
  - the aggregation, stated as functions;
  - `podcastData` as a method with the source's loops, the `Map` updates and the flag-driven trim;
  - lemmas about the result.
- `CreateStore` (`create_store.dfy`): the class `CreateModule`, one method per mutation. Each method's `ensures` gives the whole new state. Lemmas cover `Object.assign` and `WIPE`.

Modelling choices:
- Times and amounts are integers.
- `binToStr` becomes the parameter `labelOf: int -> string`. It stands for any function from a window end to a label. Windows whose labels coincide share one map entry, just as they do in the source.
- A settle date that is missing or falsy is `None`.
- Where the behaviour depends on whether labels collide, the lemmas assume `LabelsDistinct`.

Points where the code's behaviour is easy to misread; the model follows the code:
- **Boundary times.** The direct formula `floor((start - time) / interval)` would put a boundary time one window too far back. The code puts a time exactly on a window boundary (`time == start - m*interval`, `m >= 1`) into window `m - 1`, not `m`. `Binning.DirectBin` is the code's formula: window 0 when `start - time <= interval`, otherwise `(start - time - 1) / interval`. `GetBinIsDirect` proves it equal to `GetBin`.
- **Future times.** A time after `start` is not out of range. It lands in the newest window.
- **Trimming.** The trim drops leading totals that are `<= 0`, not only zero totals.
- **Window end 0.** A window whose end is 0 is skipped (`!bin`).
- **Labels name a window's end.** Window `k` holds the times from `start - (k+1)*interval` up to, but not including, `start - k*interval`. `getBin` returns the later value, and `binToStr(bin)` labels the window with it. So an invoice is charted under the date of a time up to one interval after it was settled. `Binning.WindowEnd` is this value.
- **Conservation.** The totals of the map always add up to the in-range amounts (`TotalsSum`). Only the trim needs non-negative amounts: with a negative total it can cut off a non-zero amount, so the sum of the chart output equals the in-range amounts only when no amount is negative.
- **Settings shape.** `types/api.ts` declares `watchtower_client` in `Settings`, but `defaultSettings` has no such key. The initial settings therefore lack it (`None`), and `WIPE` does not touch it.

## Model

| member | source | states |
|---|---|---|
| `LabelMap.Find` | components/viewnode/PodcastStats.tsx:133 | the position of a key is the first entry carrying it, or the end when no entry does |
| `LabelMap.Get` | components/viewnode/PodcastStats.tsx:133 | `data.get(key)` is absent exactly when no entry has the key; otherwise it is the total stored under it |
| `LabelMap.Set` | components/viewnode/PodcastStats.tsx:117 | `data.set` on a present key replaces that entry with `{key, y}` in place and keeps every position and key; on a new key it appends `{key, y}` after the others; distinct keys stay distinct |
| `LabelMap.GetKeptKey` | components/viewnode/PodcastStats.tsx:133 | a key whose entry kept its position is still found after the map changed around it |
| `LabelMap.SetAbsent` | components/viewnode/PodcastStats.tsx:117 | `set` on a key no entry carries appends `{key, y}` at the end |
| `LabelMap.GetSet` | components/viewnode/PodcastStats.tsx:132-137 | after `set(key, y)`, `get(key)` is `y` and every other key reads as before |
| `LabelMap.SetTotal` | components/viewnode/PodcastStats.tsx:135-137 | storing `y` under a key changes the sum of all totals by `y` minus what the key held |
| `Binning.GetBin` | components/viewnode/PodcastStats.tsx:60-79 | `null` when `bins == 0`; a result is `start - k*interval` for the least `k < bins` whose window the time reaches (`time >= start - (k+1)*interval`); `null` only when no window in range is reached |
| `Binning.GetBinFirstWindow` | components/viewnode/PodcastStats.tsx:72 | with at least one window (`bins > 0`), any time at or after `start - interval`, future times included, lands in the newest window, named `start` |
| `Binning.GetBinOutOfRange` | components/viewnode/PodcastStats.tsx:60-79 | for `interval > 0`: `null` exactly when `bins == 0` or `time < start - bins*interval` |
| `Binning.GetBinIsDirect` | components/viewnode/PodcastStats.tsx:60-79 | for `interval > 0` the backward walk equals the direct index formula `DirectBin` |
| `Binning.WindowEnds` | components/viewnode/PodcastStats.tsx:81-97 | exactly `bins` window ends, element `i` being `start - i*interval` |
| `PodcastStats.PodcastConfig` | components/viewnode/PodcastStats.tsx:106-114 | the panel's layout, `interval: secondsPerDay, bins: 14, start: now` (also passed to `getBin` at lines 122-127): fourteen window ends, window `i` ending `i` days before now |
| `Binning.MakeBins` | components/viewnode/PodcastStats.tsx:89-96 | the counted loop that pushes `cur` and steps it back returns exactly `WindowEnds` |
| `Binning.WindowEndsDecreasing` | components/viewnode/PodcastStats.tsx:92-95 | for `interval > 0` the window ends are strictly decreasing |
| `Binning.GetBinInWindowEnds` | components/viewnode/PodcastStats.tsx:60-96 | every window `getBin` returns is the `makeBins` entry at its index |
| `PodcastStats.IsEligible` | components/viewnode/PodcastStats.tsx:45 | the filter's test: an invoice is kept when it is settled and a keysend payment |
| `PodcastStats.Eligible` | components/viewnode/PodcastStats.tsx:44-47 | the loaded list holds exactly the invoices that are settled and keysend, each as many times as in the fetched list and none of the others; it is no longer than the fetched list |
| `PodcastStats.EligibleAppend` | components/viewnode/PodcastStats.tsx:44-47 | filtering a concatenation concatenates the filtered pieces, so the kept invoices keep their fetched order |
| `PodcastStats.EligibleSnoc` | components/viewnode/PodcastStats.tsx:44-47 | filtering one more invoice appends it exactly when it is settled and keysend |
| `PodcastStats.ContributingBin` | components/viewnode/PodcastStats.tsx:120-130 | an invoice without a settle date is skipped, and so is one whose `getBin` result is `null` or 0; otherwise its window is `getBin`'s, a listed window end that is not 0 |
| `PodcastStats.ContributesIffInRange` | components/viewnode/PodcastStats.tsx:120-130 | for `interval > 0`, a dated invoice is added exactly when `bins > 0`, its time is `>= start - bins*interval` and its window's end (`getBin`'s result) is not 0 |
| `PodcastStats.SeedTotals` | components/viewnode/PodcastStats.tsx:115-118 | the seeded map has distinct keys, all totals 0, and no more entries than windows |
| `PodcastStats.SeedKeysAreLabels` | components/viewnode/PodcastStats.tsx:115-118 | every key of the seeded map is the label of some window, so colliding labels merge into one entry and no other key appears |
| `PodcastStats.SeedCoversWindows` | components/viewnode/PodcastStats.tsx:115-118 | after seeding, every window's label is a key holding 0 |
| `PodcastStats.SeedDistinctLabels` | components/viewnode/PodcastStats.tsx:115-118 | with distinct labels, the seeded map has one `{label, 0}` entry per window, in `makeBins` order |
| `PodcastStats.Reverse` | components/viewnode/PodcastStats.tsx:141-142 | `reverse()` keeps the length and puts element `i` at `n - 1 - i` |
| `PodcastStats.FirstPositive` | components/viewnode/PodcastStats.tsx:143-150 | the index of the first point with `y > 0`; every point before it has `y <= 0` |
| `PodcastStats.TrimLeading` | components/viewnode/PodcastStats.tsx:139-150 | the trimmed list is a suffix, empty or starting with `y > 0`, and only leading points with `y <= 0` are dropped |
| `PodcastStats.ChopInitialZeros` | components/viewnode/PodcastStats.tsx:139-150 | the `filter` with the `firstNonZeroEncountered` flag computes exactly `TrimLeading` |
| `PodcastStats.ChartData` | components/viewnode/PodcastStats.tsx:107-153 | `null` when the invoices are not loaded; a result is non-empty and its first total is positive |
| `PodcastStats.SeedMap` | components/viewnode/PodcastStats.tsx:115-118 | the seeding loop over the `makeBins` result computes exactly `SeedTotals` |
| `PodcastStats.AddInvoice` | components/viewnode/PodcastStats.tsx:120-137 | one pass of the invoice loop: a skipped invoice leaves the map unchanged; otherwise its window's label reads back the invoice's amount plus what the label held (0 when absent), and every other label reads as before |
| `PodcastStats.AddInvoices` | components/viewnode/PodcastStats.tsx:119-138 | the invoice loop as a fold over the invoices in order; entries already in the map keep their positions and keys |
| `PodcastStats.AddInvoicesNoNewKeys` | components/viewnode/PodcastStats.tsx:115-138 | when every window's label is already a key, as after seeding, the invoice loop adds no entry |
| `PodcastStats.Totals` | components/viewnode/PodcastStats.tsx:109-138 | the map after both loops: seeding followed by the invoice fold, newest window first |
| `PodcastStats.TotalsKeepSeedKeys` | components/viewnode/PodcastStats.tsx:115-138 | the totals are the seeded entries in seeding order, at most one per window, and every key is the label of some window |
| `PodcastStats.AccumulateInvoice` | components/viewnode/PodcastStats.tsx:119-138 | the loop body as the source writes it (both `continue`s, then get, add and set) computes `AddInvoice`, the one-pass model above |
| `PodcastStats.Aggregate` | components/viewnode/PodcastStats.tsx:109-152 | the seeding loop, the invoice loop, the reversal and the flag-driven trim compute `ChartData`: the seeded and filled totals, reversed to oldest first, leading non-positive totals cut off, `null` when nothing is left |
| `PodcastStats.PodcastData` | components/viewnode/PodcastStats.tsx:104-153 | `podcastData` with 14 one-day windows ending now is `ChartData`; non-empty and starting positive when not `null` |
| `PodcastStats.NoWindowsNoData` | components/viewnode/PodcastStats.tsx:71 | with zero windows the chart data is always `null` |
| `PodcastStats.ChartDataShape` | components/viewnode/PodcastStats.tsx:139-152 | `null` for loaded invoices exactly when no oldest-first total is positive; otherwise a non-empty suffix of the oldest-first totals, whose first point is positive, with only leading non-positive points cut off |
| `PodcastStats.AddInvoicesTotal` | components/viewnode/PodcastStats.tsx:119-138 | the invoice loop raises the sum of the map's totals by exactly the amounts of the invoices that land in a window |
| `PodcastStats.AddInvoiceTotal` | components/viewnode/PodcastStats.tsx:120-137 | one pass of the invoice loop raises the sum of the totals by the invoice's amount when it lands in a window, and by nothing otherwise |
| `PodcastStats.AddInvoicesNonNegative` | components/viewnode/PodcastStats.tsx:119-138 | with non-negative amounts no total becomes negative |
| `PodcastStats.ChartDataConservesAmounts` | components/viewnode/PodcastStats.tsx:115-152 | with non-negative amounts the output totals add up to the amounts of all invoices that land in a window |
| `PodcastStats.TotalsSum` | components/viewnode/PodcastStats.tsx:115-138 | for any amounts, the seeded-then-filled map's totals add up to the amounts of the invoices that land in a window |
| `PodcastStats.TotalsNonNegative` | components/viewnode/PodcastStats.tsx:115-138 | with non-negative amounts no total of the map is negative |
| `PodcastStats.TrimKeepsTotal` | components/viewnode/PodcastStats.tsx:139-150 | when no total is negative, the trim cuts off only zeros, so the sum is unchanged |
| `LabelMap.TotalDropZeros` | components/viewnode/PodcastStats.tsx:139-150 | dropping a leading run of zero totals keeps the sum |
| `PodcastStats.EligibleSum` | components/viewnode/PodcastStats.tsx:44-47 | summing the in-range amounts of the filtered list is summing the in-range amounts of the settled keysend invoices of the fetched list |
| `PodcastStats.PodcastDataCountsEligible` | components/viewnode/PodcastStats.tsx:44-153 | when no settled keysend invoice has a negative amount, end to end: the chart's totals add up to the amounts of the settled keysend invoices that land in a window |
| `PodcastStats.AddInvoicesPerWindow` | components/viewnode/PodcastStats.tsx:119-138 | with distinct labels the invoice loop keeps one entry per window and adds to each exactly the amounts of the invoices in that window |
| `PodcastStats.ChartDataPerWindow` | components/viewnode/PodcastStats.tsx:115-152 | with distinct labels the totals map window `i` to its label and its window sum; output point `j` is window `len - 1 - j`, oldest first, ending with the newest window |
| `PodcastStats.TotalsPerWindow` | components/viewnode/PodcastStats.tsx:115-138 | with distinct labels the filled map holds one point per window, window `i`'s label with its window sum |
| `PodcastStats.TrimReverseIndex` | components/viewnode/PodcastStats.tsx:139-150 | point `j` of the reversed and trimmed list is element `len - 1 - j` of the totals |
| `PodcastStats.OutputPerWindow` | components/viewnode/PodcastStats.tsx:139-150 | reversing and trimming per-window totals yields the newest windows, oldest first, each with its label and sum |
| `PodcastStats.ThreeDayExample` | components/viewnode/PodcastStats.tsx:107-153 | three one-day windows with payments of 50 (newest window), 30 (middle window) and 99 (before the range) give `[30, 50]` |
| `CreateStore.DefaultSettings` | store/create.ts:10-20 | `defaultSettings` as a settings object: it carries every key except `watchtower_client` |
| `CreateStore.Assign` | store/create.ts:69 | `Object.assign` on settings: keys present in the source object take its values, all others keep the target's; its laws are the `Assign…` lemmas below |
| `CreateStore.CopyOfDefaults` | store/create.ts:10-20 | a copy of `defaultSettings` holds every default value and has no `watchtower_client` |
| `CreateStore.AssignNothing` | store/create.ts:68-70 | `Object.assign` with an object that has no keys changes nothing |
| `CreateStore.AssignIdempotent` | store/create.ts:83-85 | assigning the same settings object twice equals assigning it once |
| `CreateStore.AssignTwice` | store/create.ts:68-70 | two assignments in a row are one assignment of the overlaid objects, later keys winning |
| `CreateStore.AssignDefaults` | store/create.ts:89 | assigning `defaultSettings` resets every default key and keeps `watchtower_client` |
| `CreateStore.InitialState` | store/create.ts:28-36 | the field initialisers: empty name, node id and seed, `testnet`, no trial, macaroon backup on, step 0, a copy of the defaults |
| `CreateStore.Wiped` | store/create.ts:87-92 | the state after `WIPE`: the defaults assigned over the settings, name and node id emptied, all else kept; its properties are `WipedResets`, `WipedIdempotent` and `WipedInitial` |
| `CreateStore.WipedResets` | store/create.ts:87-92 | `WIPE` resets default settings, name and node id, and keeps seed, step, network, trial, macaroon backup and `watchtower_client` |
| `CreateStore.WipedIdempotent` | store/create.ts:87-92 | `WIPE` twice equals `WIPE` once |
| `CreateStore.WipedInitial` | store/create.ts:28-36 | wiping the freshly initialised store leaves it unchanged |
| `CreateStore.CreateModule.constructor` | store/create.ts:28-36 | initial state: empty name, node id and seed; `testnet`; no trial; macaroon backup on; step 0; settings equal to the defaults without `watchtower_client` |
| `CreateStore.CreateModule.SetNodeName` | store/create.ts:39-41 | `NODE_NAME` sets the name and nothing else |
| `CreateStore.CreateModule.SetMacaroonBackup` | store/create.ts:44-46 | `MACAROON_BACKUP` sets the backup flag and nothing else |
| `CreateStore.CreateModule.SetStep` | store/create.ts:49-51 | `STEP` sets the current step and nothing else |
| `CreateStore.CreateModule.SetNodeType` | store/create.ts:54-57 | `NODE_TYPE` sets network and trial and nothing else |
| `CreateStore.CreateModule.SetSeed` | store/create.ts:60-65 | `SEED` stores the seed; the step becomes 2 when the seed is non-empty and is otherwise unchanged; nothing else changes |
| `CreateStore.CreateModule.ApplySettings` | store/create.ts:68-70 | `SETTINGS` makes the settings the old ones with the argument's keys assigned over them; nothing else changes |
| `CreateStore.CreateModule.SetNewNodeId` | store/create.ts:73-75 | `NEW_NODE_ID` sets the new node id and nothing else |
| `CreateStore.CreateModule.AutofillWhitelist` | store/create.ts:78-80 | `AUTOFILL_WHITELIST(ip)` makes the whitelist exactly `[ip]`; all other settings and state unchanged |
| `CreateStore.CreateModule.HydrateSettings` | store/create.ts:83-85 | `HYDRATE_SETTINGS` assigns the argument's keys over the current settings; nothing else changes |
| `CreateStore.CreateModule.Wipe` | store/create.ts:87-92 | `WIPE` gives `Wiped` of the old state: every default key of the settings back at its default, `watchtower_client` kept, name and node id emptied, seed, step, network, trial and backup flag unchanged |

## Left out

- `loadData` in `PodcastStats.tsx` is not modelled beyond its filter. The HTTP fetch, the JSON parsing, and the `loading` and `error` refs are network I/O. The loaded list is an input, `None` when it is not loaded.
- `binToStr` is not modelled. It formats a `Date` in the local timezone, so the model takes it as the parameter `labelOf`.
- Floating point and string-to-number coercion are not modelled. In the source, `now` is a fractional number of seconds, and `+acceptTime` and `+amt_paid_sat` can yield `NaN`. A `NaN` amount makes its window's total `NaN`, and `prevAmt || 0` then turns that total back into 0 for the next invoice in the same window. The model uses integer times and amounts.
- Negative or fractional `bins` are not modelled; `bins` is a natural number. With such values `makeBins` returns no windows (negative) or the rounded-up count (fractional), and `getBin` can return a window end outside the `bins` range. `getBin` recurses without bound only when `interval <= 0` or the time is `NaN`. The source always passes 14.
- Truthiness of `settled`, `is_keysend` and `settle_date` is reduced to booleans and `Option`. Note that `"0"` is a truthy string, so it is a present settle date.
- Reactive recomputation of the `computed` value is not modelled. `PodcastData` models one evaluation.
- Rendering is not modelled: the JSX of the panel, `layouts/default.tsx`, `pages/index.tsx`, `components/connections/Lncli.tsx` and `components/connections/ThunderHub.tsx`.
- `compositions/useNodeApi.ts`, `compositions/useInvite.ts` and `compositions/useAuthentication.ts` are not modelled. They are REST or identity-provider calls.
- `utils/store-accessor.ts` and the Vuex decorators are not modelled; they are framework wiring.
- Object identity is not modelled. `SETTINGS` builds a new settings object, while `HYDRATE_SETTINGS` and `WIPE` assign into the current one. `Object.assign` copies shallowly, so both the initial copy (`Object.assign({}, defaultSettings)`) and `WIPE` make `whitelist` share the `defaultSettings` array. The model treats settings as a value, so `ApplySettings` and `HydrateSettings` have the same effect.
- Keys present with value `undefined` are not modelled. `Object.assign` copies such keys too, but the model's `Option` fields only say whether a key is present.
- The shape of an address in the whitelist is not modelled; an entry is a string.
