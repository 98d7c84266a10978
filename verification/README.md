# chartjs-web-component, modelled in Dafny

The repository defines two HTML custom elements over Chart.js. `<chartjs-chart>`
(`ChartElement`) owns a chart. It turns its `plugins.*`, `interaction.*`, `scales.*` and
`responsive` attributes into a nested options object, keeps the chart's dataset
collection, and debounces redraws. `<chartjs-dataset>` (`ChartDataset`) declares one
series. It turns its own attributes into a dataset record and pushes the record into the
enclosing chart, replacing the record it owns. The record's `data` comes from a `data`
JSON attribute, or from the element a `data-from` selector picks. On disconnection the
element removes its records.

This project models the logic of `src/index.js`:

- `names.dfy` (`Names`): `snakeToCamel`, `sanitizeFieldNames` and the two attribute-name filters.
- `option_tree.dfy` (`OptionTree`): splitting a dotted path, and the inner reduce that walks
  down nested objects and creates `{}` for missing parts.
- `attributes.dfy` (`Attributes`): `getAttributeNames`/`getAttribute`, the outer reduce that
  builds the host options, the option map of `syncDataset`, and the record `{...options, data, owner}`.
- `data_source.dfy` (`DataSource`): the `data` getter over a document given as a map from
  element to attributes.
- `dataset_list.dfy` (`DatasetList`): `findIndex`, `filter`, add-or-replace, remove, and the
  rule that no two records share an owner.
- `debounce.dfy` (`Debounce`): the `#pendingUpdate` state machine as a pure transition system.
- `elements.dfy` (`Elements`): the classes `ChartElement` and `ChartDataset`. Their methods
  update fields in place and are specified by the functions above.

JavaScript exceptions are values (`Result`, `Outcome`): a `TypeError` from a property
access on a primitive or on a missing chart, a `SyntaxError` from `JSON.parse`, and a
`RangeError` when the call stack runs out. Module code is strict, so assigning a
property on a primitive throws. Two behaviours of the code are easy to miss:

- A `data-from` chain is followed through every hop, because each getter calls the next
  element's getter. A cycle recurses until the stack is exhausted (`SelfReferenceOverflows`).
- "A redraw always eventually happens" holds only while the element has a chart. If the
  timer callback runs with no chart, `this.chart.update` throws before `#pendingUpdate` is
  cleared, and the element never calls `chart.update` again (`StuckFlagNeverRedraws`).

The environment is supplied as parameters: `trySafeEval` (`eval`/`Env.safeEval`),
`JSON.parse` (`Env.jsonParse`), `closest('chartjs-chart')` (`Env.closestChart`, and the
`host` argument of `Connected`), `querySelector` (`Env.querySelector`), and the call-stack
depth (`Env.stackDepth`). The firing of a `setTimeout` callback is the method
`RunScheduledRedraw`.

## Model

| member | source | states |
|---|---|---|
| `Names.SnakeToCamel` | src/index.js:147-154 | the result is no longer than the input; it starts with the upper-cased letter when the input starts with `-x`/`_x`, and otherwise with the input's first character |
| `Names.SnakeToCamelIsCamel` | src/index.js:148-153 | the result holds no separator followed by a lower-case letter; the result equals the input exactly when the input holds no such pair |
| `Names.SnakeToCamelAppend` | src/index.js:148-153 | the conversion works piece by piece: converting `a + b` is converting `a` and `b` separately, whenever the cut does not fall between a separator and a lower-case letter |
| `Names.SnakeToCamelMatch` | src/index.js:148-153 | one `[-_][a-z]` match becomes the upper-case letter and the separator disappears |
| `Names.SeparatorBeforeMatch` | src/index.js:148-153 | of two separators before a lower-case letter only the second is consumed: `a--b` becomes `a-B` |
| `Names.ToUpperAscii` | src/index.js:150 | upper-casing an ASCII lower-case letter gives the upper-case letter 32 code points below |
| `Names.SanitizeFieldName` | src/index.js:156-160 | `xAxisId` becomes `xAxisID`, `yAxisId` becomes `yAxisID`, neither is ever returned, and every other key is returned unchanged |
| `Names.AxisIdCamel` | src/index.js:147-154 | `a-axis-id` and `a_axis_id` convert to `aAxisId` for any axis letter `a` |
| `Names.AxisIdAttributeKeys` | src/index.js:147-160 | `x-axis-id`, `x_axis_id` give the key `xAxisID`; `y-axis-id`, `y_axis_id` give `yAxisID` |
| `Names.OptionKey` | src/index.js:121 | the key `sanitizeFieldNames(snakeToCamel(x))` is no longer than the attribute name and empty only for an empty name |
| `Names.IsHostOption` | src/index.js:23 | the filter of `connectedCallback`: a name starting with `plugins`, `interaction` or `scales`, or equal to `responsive` |
| `Names.IsDatasetOption` | src/index.js:120 | the filter of `syncDataset`: a name starting neither with `data` nor with `:` |
| `OptionTree.Split` | src/index.js:25 | `split('.')` returns at least one piece, and no piece contains a dot |
| `OptionTree.JoinSplit` | src/index.js:25 | joining the pieces with dots gives back the attribute name |
| `OptionTree.SplitJoin` | src/index.js:25 | splitting a dot-joined list of dot-free pieces gives back the pieces |
| `OptionTree.SplitDotFree` | src/index.js:25 | a name without dots is one piece |
| `OptionTree.SplitAfterPiece` | src/index.js:25 | a dot-free piece followed by a dot splits off as the first piece |
| `OptionTree.SplitFirstIsPrefix` | src/index.js:25 | the first piece is a prefix of the name |
| `OptionTree.SetPath` | src/index.js:28-33 | a successful placement yields a plain object |
| `OptionTree.SetPathPlaces` | src/index.js:28-33 | after a successful placement the value is found at `parents + [key]` |
| `OptionTree.SetPathFrame` | src/index.js:28-33 | a placement changes no path that diverges from the placed one |
| `OptionTree.SetPathFailsIffBlocked` | src/index.js:28-33 | the placement throws exactly when a non-object value sits on the path (strict-mode `in` and assignment on a primitive) |
| `Attributes.AttributeNames` | src/index.js:22 | the names are the attributes' names, in document order |
| `Attributes.GetAttribute` | src/index.js:27 | a found value belongs to an attribute of that name |
| `Attributes.AttributeNamesAppend` | src/index.js:22 | the names of two attribute lists one after the other are their names one after the other |
| `Attributes.GetAttributeFindsListed` | src/index.js:27 | `getAttribute` finds a value exactly for the listed names |
| `Attributes.GetAttributeAppend` | src/index.js:27 | adding an attribute with another name does not change what `getAttribute(n)` returns |
| `Attributes.GetAttributeInsert` | src/index.js:27 | inserting an attribute with another name anywhere does not change what `getAttribute(n)` returns |
| `Attributes.NestOptions` | src/index.js:24-35 | the outer reduce, when it does not throw, yields a plain object |
| `Attributes.PlaceOption` | src/index.js:25-33 | one step of the outer reduce yields a plain object, and throws a `TypeError` on a non-object accumulator |
| `Attributes.HostOptionNames` | src/index.js:22-23 | every selected name is in an option namespace, and there are no more of them than attributes |
| `Attributes.NestOptionsErrorSticks` | src/index.js:24-35 | an exception in one step is the exception of the whole reduce |
| `Attributes.NestOptionsPlaces` | src/index.js:24-35 | an attribute's evaluated value sits at its dotted path unless a later attribute's path runs into it |
| `Attributes.NestOptionsOnlyReadsNames` | src/index.js:24-35 | the reduce reads only the attributes it is given the names of |
| `Attributes.HostOptions` | src/index.js:22-36 | the options always have `maintainAspectRatio` set to `false` |
| `Attributes.HostOptionPlaced` | src/index.js:22-36 | each selected attribute's value sits at its dotted path in the final options, unless a later selected path runs into it; forcing `maintainAspectRatio` disturbs none of them |
| `Attributes.HostOptionInitial` | src/index.js:23 | a selected name starts with `p`, `i`, `s` or `r`, never with `m` |
| `Attributes.NoHostOptionAttributes` | src/index.js:22-36 | with no attribute in the option namespaces the options are exactly `{maintainAspectRatio: false}` |
| `Attributes.IgnoresOtherAttributes` | src/index.js:22-36 | an attribute outside `plugins*`, `interaction*`, `scales*` and `responsive`, inserted anywhere among the attributes, does not change the options |
| `Attributes.HostOptionNamesSkip` | src/index.js:22-23 | the filter drops such an attribute wherever it stands |
| `Attributes.OptionsFold` | src/index.js:121-125 | every listed name contributes its key, and every key comes from a listed name |
| `Attributes.OptionsFoldLastWins` | src/index.js:122-125 | a key takes the value of the last attribute that yields it |
| `Attributes.DatasetOptions` | src/index.js:119-125 | the keys are exactly the converted names of the attributes whose names start neither with `data` nor with `:` |
| `Attributes.DatasetRecord` | src/index.js:128 | the record holds the options plus `data` and `owner`, which override same-named options; its owner is the element |
| `DataSource.DataAttributeWins` | src/index.js:135-136 | a non-empty `data` attribute is parsed and wins over `data-from`; malformed JSON throws a `SyntaxError` |
| `DataSource.DataFromFollowsSource` | src/index.js:138-141 | an empty or missing `data` falls through to the getter of the dataset element `data-from` selects, one getter call deeper |
| `DataSource.ForeignMatchData` | src/index.js:140-141 | when the selector matches an element that is not a dataset, the result is that element's own `data` property |
| `DataSource.NoSourceIsUndefined` | src/index.js:135-143 | neither attribute, or a selector that matches nothing, gives `undefined` |
| `DataSource.InvalidSelectorThrows` | src/index.js:138-141 | a `data-from` selector that `querySelector` rejects makes the getter throw that exception |
| `DataSource.NoChartDataFromThrows` | src/index.js:138-140 | a `data-from` lookup outside any chart throws a `TypeError` |
| `DataSource.DepthMonotone` | src/index.js:132-143 | a result that did not run out of stack is the same with any larger stack |
| `DataSource.SelfReferenceOverflows` | src/index.js:138-141 | a `data-from` that selects the element itself throws a `RangeError` for every stack depth |
| `DataSource.Step` | src/index.js:135-142 | the getter delegates only to a dataset element, and only when `data` is empty or missing, `data-from` is set and there is an enclosing chart; with a `data` attribute it answers the parse or a `SyntaxError` |
| `DataSource.ResolveData` | src/index.js:132-143 | a getter call needs a stack frame; with a `data` attribute it gives the parsed value or a `SyntaxError`, never a stack overflow |
| `DataSource.Excluded` | src/index.js:93 | `getAttribute('included') === "false"` |
| `DataSource.SyncRecord` | src/index.js:118-128 | the record is owned by the element and carries the resolved data; it fails exactly when the `data` getter throws, with the same exception |
| `DataSource.RecordKeys` | src/index.js:119-128 | the record's keys are `data`, `owner`, and the keys of attributes not starting with `data` or `:` |
| `DatasetList.FindIndex` | src/index.js:55 | the index is -1 exactly when nothing matches; otherwise it matches and nothing before it does |
| `DatasetList.Filter` | src/index.js:65 | every kept element is accepted; if everything is accepted nothing is dropped |
| `DatasetList.FilterCounts` | src/index.js:65 | every accepted element is kept as often as it occurs, and nothing else is kept |
| `DatasetList.FilterAppend` | src/index.js:65 | filtering commutes with concatenation, so order is kept |
| `DatasetList.FilterSkip` | src/index.js:23 | an element the filter rejects leaves no trace wherever it stands |
| `DatasetList.AddOrReplace` | src/index.js:54-59 | with no match the record is appended and earlier entries are unchanged; otherwise the first match is replaced in place and every other index keeps its entry |
| `DatasetList.RemoveMatching` | src/index.js:64-65 | exactly the non-matching entries remain, each as often as before; with no match the collection is unchanged |
| `DatasetList.RemoveMatchingAppend` | src/index.js:65 | removal keeps the surviving entries in their original order |
| `DatasetList.OwnedBy` | src/index.js:114 | the predicate `ds => ds.owner === this` of element `e` |
| `DatasetList.SyncKeepsOwnersUnique` | src/index.js:54-59 | syncing an element's record keeps owners unique and leaves that record in the collection |
| `DatasetList.RemoveOwnedClears` | src/index.js:113-115 | after removing an element's records none of them is left and owners stay unique |
| `DatasetList.FilterKeepsUniqueOwners` | src/index.js:65 | filtering keeps owners unique |
| `DatasetList.UniqueOwnersTail` | src/index.js:65 | a collection with unique owners keeps them without its first record |
| `DatasetList.UniqueOwnersCons` | src/index.js:65 | a record whose owner does not occur in the rest can be put in front |
| `Debounce.Request` | src/index.js:77-79 | while pending, `update()` changes nothing; otherwise it raises the flag and schedules one callback |
| `Debounce.Fire` | src/index.js:80-83 | the callback performs one redraw and clears the flag; with no chart it throws and the flag stays up |
| `Debounce.Updates` | src/index.js:77 | a burst of `n` calls of `update()` |
| `Debounce.RunKeepsAtMostOne` | src/index.js:69-84 | at most one callback is ever outstanding, and only while the flag is up |
| `Debounce.RunKeepsCoherent` | src/index.js:69-84 | with a chart, the flag is up exactly while a callback is outstanding |
| `Debounce.BurstCollapses` | src/index.js:77-84 | any burst of calls from idle schedules one callback, and firing it performs one redraw and returns to idle |
| `Debounce.PendingAbsorbs` | src/index.js:78 | while the flag is up, any number of calls changes nothing |
| `Debounce.RunAppend` | src/index.js:77-84 | running two event sequences one after the other is running their concatenation |
| `Debounce.UpdateLeadsToRedraw` | src/index.js:77-84 | with a chart, after any call of `update()` a redraw has happened or one is still scheduled |
| `Debounce.ScheduledLeadsToRedraw` | src/index.js:80-83 | with a chart, a scheduled callback is still outstanding or has redrawn |
| `Debounce.RunRedrawsGrow` | src/index.js:81 | redraws never decrease |
| `Debounce.RedrawsBounded` | src/index.js:77-84 | redraws plus outstanding callbacks never exceed the earlier ones plus the number of `update()` calls |
| `Debounce.StuckFlagNeverRedraws` | src/index.js:78-82 | a flag left up with nothing scheduled stops the debounce: no later event calls `chart.update` again |
| `Elements.ChartElement.constructor` | src/index.js:69 | a new element has no chart, no datasets, and an idle debounce |
| `Elements.ChartElement.Connect` | src/index.js:14-43 | the chart gets the options `HostOptions` describes, the `type` attribute and no datasets; if the reduce throws nothing changes |
| `Elements.ChartElement.BuildOptions` | src/index.js:24-35 | running the reduce step by step from `{}` gives `NestOptions` of the selected names, exception included |
| `Elements.ChartElement.SetData` | src/index.js:45-48 | the datasets are replaced and a redraw is requested; without a chart it throws a `TypeError` |
| `Elements.ChartElement.SetOptions` | src/index.js:50-52 | the options are replaced and no redraw is requested |
| `Elements.ChartElement.AddOrReplaceDataset` | src/index.js:54-62 | the datasets become `AddOrReplace` of the old ones and a redraw is requested |
| `Elements.ChartElement.RemoveDataset` | src/index.js:64-67 | the datasets become `RemoveMatching` of the old ones and a redraw is requested |
| `Elements.ChartElement.Update` | src/index.js:77-84 | the debounce state moves by `Request` and at most one callback stays outstanding |
| `Elements.ChartElement.RunScheduledRedraw` | src/index.js:80-83 | the debounce state moves by `Fire`; without a chart it throws a `TypeError` |
| `Elements.ChartDataset.constructor` | src/index.js:88-90 | a new dataset element is bound to no chart |
| `Elements.ChartDataset.SyncDataset` | src/index.js:118-129 | the bound chart's datasets become `AddOrReplace` with the element's record, matched by owner, a redraw is requested, the chart's options and type are kept, and owners stay unique; an exception from the `data` getter changes nothing; without a bound chart nothing changes |
| `Elements.ChartDataset.Connected` | src/index.js:92-107 | with `included="false"` nothing is bound and no chart changes; otherwise the enclosing chart is bound and synchronised: its datasets get the record, its options and type are kept and owners stay unique; with no enclosing chart the getter's exception, or else a `TypeError` from installing the `data-from` observer on `null`, or else success; a chart element not yet connected throws a `TypeError` and is unchanged |
| `Elements.ChartDataset.Disconnected` | src/index.js:113-116 | every record the element owns is removed from the bound chart, a redraw is requested and the chart's options and type are kept; then the element is unbound |

## Left out

- `querySelector` is a given function; which elements a selector matches is not modelled, only that it yields the first match, none, or the exception an invalid selector throws. Whether a match is a dataset element, and the `data` property of one that is not, are given too (`Env.isDataset`, `Env.foreignData`).
- `Elements.ChartElement.AddOrReplaceDataset`: the datasets are a value, so aliasing is not modelled. `splice` at src/index.js:59 changes the array a caller of `set data` may still hold, whereas the append at line 57 puts a new array in place; in the model both only replace the field.
- `OptionTree.SetPath` treats an element reference (`Ref`) on an option path like any other non-object and throws a `TypeError`, whereas JavaScript would create or read a property of that element.
- Chart.js itself: the plugin registration, the chart construction and what `chart.update('none')` draws. The model counts redraws.
- The canvas and the element's style, set in `connectedCallback`.
- The `MutationObserver`s and `customElements.define`. Each notification would be one more call of `SyncDataset`.
- Real time: the 100 ms `setTimeout` delay. A scheduled callback runs when the environment calls `RunScheduledRedraw`.
- `trySafeEval` is a given function. It evaluates arbitrary script text, and no model of JavaScript evaluation is attempted.
- `JSON.parse`, `closest` and `querySelector` are given functions or maps. Selector matching is not modelled.
- `#dataCache` is written but never read, because its read is commented out.
- `OptionTree.SetPath` descends only into plain objects (`Obj`). An evaluated array or function in the way makes the model throw a `TypeError`, whereas JavaScript would write into it.
- `OptionTree.SetPath` does not model properties inherited through the prototype chain, such as `constructor` and `__proto__`. For these, `in` answers true on an empty object.
- Numbers are `real`, so floating-point rounding is not modelled. Object key order is not modelled either, because objects are maps.
- `Elements.ChartElement.SetData` models only `datasets`. The `labels` that Chart.js fills in are not modelled.
- `DatasetList.OwnedBy` treats a non-object dataset as unowned. In JavaScript, `ds.owner` on a `null` or `undefined` dataset throws.
- Predicates passed to `addOrReplaceDataset` or `removeDataset` are total functions. A predicate that throws is not modelled.
- The lower-casing of attribute names by the HTML parser happens before these functions see the names, so it is not modelled.
