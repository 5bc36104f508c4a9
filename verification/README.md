# AI-partner page: theme, slider and poll, modelled in Dafny

This project models the logic in `script.js` of a small client-side web page. The DOM and storage calls are stripped away, and what remains is proved:

- **Theme toggle** (`theme.dfy`, module `Theme`). The root element's `data-theme` attribute and the stored preference (`aiPartTheme`) form the class `ThemeToggle`. At start-up a stored value is applied only if it is exactly `"light"` or `"dark"`. A missing or empty attribute reads as `"dark"`. A click flips dark to light and any other value to dark, then stores the new value.
- **Slider categories** (`slider.dfy`, module `Slider`). This part is pure. It holds the five-row `STATES` table, the `find`-with-fallback lookup and `updateBalance`'s complementary shares. The proofs show that the table's ranges are chained, meaning contiguous, inclusive and non-overlapping. Each value in 0..100 therefore lies in exactly one range, and the lookup returns that range. Anything outside 0..100 falls back to "Balanced".
- **Poll** (`poll.dfy`, module `Poll`). This is an anonymous, increment-only counter of agree/neutral/disagree votes. The class `PollStore` holds the three counters and the stored copy under `aiPartnerPoll`. Its `Load`, `Save`, `Vote` and `Clear` methods follow `loadPoll`, `savePoll` and the two click handlers. Loading, saving, incrementing and the rounded percentages of `renderPoll` are functions with lemmas. Every method keeps the counters equal to what a reload from storage would give (`InSync`).
- `wrappers.dfy` holds the `Option` type used for absent values.

The poll is an anonymous, increment-only counter: no vote is tied to a voter, and every submission with a choice adds one to that choice's counter. The trimmed name only picks the thank-you message (script.js:176-194). `updateBalance` reads the slider with `parseInt`, so the model takes the value as an integer.

## Model

| member | source | states |
|---|---|---|
| `Theme.InitialAttribute` | script.js:8-11 | the stored preference replaces the attribute exactly when it is "light" or "dark"; otherwise the attribute is left as served |
| `Theme.CurrentMode` | script.js:29 | a missing or empty (falsy) attribute reads as "dark"; a non-empty one is taken as it is; the mode is never empty |
| `Theme.NextMode` | script.js:30 | the next mode is always a theme, it is "light" if and only if the current mode is "dark", and it differs from a current theme |
| `Theme.ClickAttribute` | script.js:29-31 | after a click the attribute holds a theme: "light" if and only if the mode before was "dark" (a missing or empty attribute reads as dark), and "dark" for every other value |
| `Theme.ToggleTwiceRestoresMode` | script.js:29-31 | two clicks restore the displayed mode whenever it is a theme, including the missing-attribute case |
| `Theme.ToggleTwiceRestoresAttribute` | script.js:29-31 | two clicks restore a "light" or "dark" attribute exactly |
| `Theme.MissingAttributeTogglesToLight` | script.js:29-30 | a missing or empty attribute counts as dark, so one click sets "light" |
| `Theme.ThemeToggle.constructor` | script.js:8-11 | storage is untouched; a valid stored theme becomes the attribute and the displayed mode; any other stored value leaves the attribute as served |
| `Theme.ThemeToggle.Click` | script.js:28-34 | the attribute becomes the flipped mode, storage holds the same value, and the new mode is light exactly when the old one was dark |
| `Slider.Find` | script.js:99-100 | the found index is in range, its state contains the value, and no earlier state does; nothing is found if and only if no state contains the value |
| `Slider.Lookup` | script.js:99-100 | the result is one of `STATES`; it contains the value whenever some state does; otherwise it is `STATES[2]` |
| `Slider.UpdateBalance` | script.js:88-103 | the AI share is the input, human + AI = 100, both are in 0..100 for in-range input, and the labels are those of the looked-up state |
| `Slider.ChainedOrdered` | script.js:39-75 | in a chained table every earlier range ends below the start of every later one |
| `Slider.ChainedDisjoint` | script.js:39-75 | in a chained table no value lies in two ranges |
| `Slider.ChainedCovers` | script.js:39-75 | a chained table covers every integer from its first minimum to its last maximum |
| `Slider.StatesPartition` | script.js:39-75 | the five `STATES` ranges are chained and span exactly 0..100 |
| `Slider.ExactlyOneState` | script.js:39-100 | each value in 0..100 lies in exactly one state, and the lookup's result contains it |
| `Slider.LookupIsContainingState` | script.js:39-100 | whenever a state contains the value, the lookup returns that state |
| `Slider.OutOfRangeIsBalanced` | script.js:99-100 | a value below 0 or above 100 yields `STATES[2]`, titled "Balanced" |
| `Slider.LookupContainsIffInRange` | script.js:39-100 | the looked-up state contains the value if and only if the value is in 0..100 |
| `Slider.BoundaryExamples` | script.js:39-75 | 0 and 19 map to Human-led, 20 to Mostly Human, 59 to Balanced, 60 to Mostly AI, and 80 and 100 to AI-led |
| `Poll.FieldOrZero` | script.js:138-140 | a present field gives its value and a missing or falsy one gives 0 |
| `Poll.LoadPoll` | script.js:130-145 | absent or unparsable storage gives (0,0,0); a counter is 0 if and only if its field is missing or zero, and otherwise equals the stored field |
| `Poll.SavePoll` | script.js:147-149 | every counter is written as a present field holding its value |
| `Poll.LoadAfterSave` | script.js:130-149 | loading what was saved gives back the same counters |
| `Poll.LoadDefaultsToZero` | script.js:130-145 | absent storage, or storage whose fields are all missing or falsy, loads as (0,0,0) |
| `Poll.Increment` | script.js:186 | the chosen counter goes up by exactly 1, the other two are unchanged, and the total goes up by 1 |
| `Poll.TalliedCountsVotes` | script.js:176-198 | after a run of votes on a cleared poll, each counter equals the number of votes for its option and the total equals the number of votes |
| `Poll.Pct` | script.js:158 | 0 when the total is 0; otherwise the nearest integer to 100·n/total, with ties rounded up; at most 100 when n ≤ total; exactly 100 when n = total |
| `Poll.RoundedBounds` | script.js:158 | the integer form of `Math.round` is non-negative, is bracketed by 100·n/total ± ½, is at most 100 when n ≤ total, and equals 100 when n = total |
| `Poll.Percentages` | script.js:151-162 | each percentage is rounded on its own from its counter and the total, none exceeds 100, and all are 0 when there are no votes |
| `Poll.PercentagesSumNear100` | script.js:158-162 | with at least one vote the three percentages add up to 99, 100 or 101 |
| `Poll.OneVoteEach` | script.js:158-162 | tally (1,1,1) shows 33/33/33 |
| `Poll.PollStore.constructor` | script.js:173 | the initial state is what storage loads to, and storage is untouched |
| `Poll.PollStore.Load` | script.js:185 | the counters become what storage loads to, and storage is untouched |
| `Poll.PollStore.Save` | script.js:147-149 | storage receives the current counters, and the counters do not change |
| `Poll.PollStore.Vote` | script.js:176-194 | without a choice, the counters and storage are unchanged and the user is asked to choose. With a choice c, the new state is the freshly loaded state with counter c raised by 1, storage equals the new state, and which of the messages is shown depends only on whether the name is empty. If the counters were in step with storage, this is the old state plus one vote for c |
| `Poll.PollStore.Clear` | script.js:196-198 | whatever the state before, all counters become 0 and that state is stored |

## Left out

- DOM work: element lookups, `textContent`/`style.width` writes, and event-listener registration. Also left out are the early returns when an element is missing and the reset of the radio button and name field after a clear (script.js:4-6, 12-27, 78-86, 92-97, 112-128, 154-170, 199-203). They are presentation side effects. The label choice in `updateLabel` is not modelled beyond `Theme.CurrentMode`.
- Browser storage, `JSON.parse` and `JSON.stringify`. The stored poll is an `Option` of the parsed record, and `None` stands for an absent key, an empty string or data that does not parse. Storage is a field of each class rather than an external service.
- Poll.Increment: the counters are unbounded `nat`, while the source's counters are JavaScript numbers, exact only up to 2^53; above that, adding 1 can leave a counter unchanged. Such values can only come from storage written from outside the page.
- Poll.LoadPoll: stored fields are non-negative integers or missing/falsy. A negative, fractional or non-numeric truthy field is not modelled. The page itself only ever writes non-negative integers.
- Poll.Pct: `Math.round((n / total) * 100)` is modelled exactly on integers as round-half-up. IEEE floating-point division could differ from this at an exact .5 tie.
- Slider.UpdateBalance: `parseInt` of the slider's string value is not modelled, and the value arrives as an integer. The `NaN` case (no digits) is not covered.
- Poll.PollStore.Vote: the name arrives already trimmed. `String.prototype.trim` is not modelled. The message texts are reduced to which of three messages is shown. The clear handler's message is a constant and is left out.
- Several tabs writing the same storage key concurrently are not modelled. The model is sequential. `Vote` does reload storage before counting, so it is stated against whatever storage holds.
