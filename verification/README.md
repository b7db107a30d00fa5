# moebius core, modelled in Dafny

moebius is a Python toolkit that moves data between processing steps as
*bus messages*. A bus message is an immutable envelope `BM(tag, status, payload, seeds)`.
The seeds record the lineage of the message: the root events it was computed from.

This project models the core of that toolkit as Dafny values, functions, methods and lemmas:

- the message envelope, the `oftype` routing predicate and seed combination
  (`messages.dfy`, module `Messages`);
- the marker actions, the per-marker extractors, and the dynamic marker
  pipeline of `create_markers_pipeline` (`markers.dfy`, module `Markers`).
  The pipeline is modelled as a registry: the live pipelines, and the latest
  value of every shared input stream. The registry is updated one event at a time;
- the fixed bank of markers of `create_markers` (`markers2.dfy`, module `StaticMarkers`);
- the UV grid, the generic `node` and the energy computation of the engine
  (`engine.dfy`, module `Engine`);
- physical quantities, their units, conversions and arithmetic tables
  (`quantity.dfy`, module `Quantities`);
- sets of quantities (intervals and points) and chained quantity constraints
  (`constraint.dfy`, module `Constraints`);
- option types: classes whose instances hold one of a fixed tuple of values
  (`option.dfy`, module `OptionTypes`);
- three reducers and the `scan_map` operator that the marker design was
  prototyped with (`feedback.dfy`, `marker_set_reducer.dfy`,
  `marker_vector_reducer.dfy` and `energy_reducer.dfy`);
- `Option` and `Result` (`wrappers.dfy`).

## How the model is built

**Errors become values.** Every Python exception the core raises becomes the
`Err` case of a `Result`, and the error case is stated in the contract.
Examples are `KeyError` for a wrong unit, `TypeError` for mixed quantity
classes, `ValueError` for a bad closure string, and `NotImplementedError` for
a UV ordering other than SNAKE.

**Streams become sequences.** An Rx stream becomes the finite sequence of its
items. A `scan` becomes a fold over that sequence.

**Loops become methods.** Each loop of the source is a `method` with a `for`
or `while` loop, proved equal to the function that specifies it:

- the tag split of `_match_tag`;
- the fold of `combine_seeds`;
- the resource loop of `extract_resource`;
- the in-place flip of the odd rows in `uv`;
- the loops of `energy_reducer`.

**Two objects are classes.** The two marker pipelines become the classes
`Markers.MarkerRegistry` and `StaticMarkers.MarkerBank`. Each `Step` method
delivers one input event and returns what the markers emit.

**Numbers are exact.** Numbers are Dafny `real`s, so unit conversions are
exact. Python indexing of a list by a possibly negative index is written out
(`Markers.PyIndex`). So is numpy indexing of an array: an integer index
behaves as on a list, `None` yields the whole array under a new axis, and an
array of indices (`Markers.PyTake`) fails as soon as one of them is out of
range.

**Behaviours kept as written.** These are stated as lemmas rather than corrected:

- `Temperature.to` keeps the receiver's unit label and shifts the value the
  wrong way. See `Quantities.TemperatureToAsWritten`.
- `DTemperature.to` relabels without changing anything, so the result is
  equal to the receiver. `DTemperature.__sub__` falls back to `+` for two
  differences. See `Quantities.DTemperatureAsWritten`.
- The Speed factor table turns 1 m/s into 0.001 mm/s. See `Quantities.SpeedTableAsWritten`.
- A temperature point with a tolerance raises `TypeError` on every test,
  because a Temperature minus a Temperature is a DTemperature. See
  `Constraints.TemperaturePointAsWritten`.

## Model

| member | source | states |
|---|---|---|
| Messages.Message.Identify | src/moebius/bus/messages.py:15-22 | the identified message keeps tag, status and payload; its seeds are exactly `{tag: {uid}}` |
| Messages.IdentifyDiscardsPriorSeeds | src/moebius/bus/messages.py:15-22 | identifying does not depend on the seeds carried before, and identifying twice with one id is identifying once |
| Messages.Ready | src/moebius/bus/messages.py:35-42 | a READY message carrying the given tag, payload and seeds (unidentified seeds by default) |
| Messages.Processing | src/moebius/bus/messages.py:45-58 | a PROCESSING message whose payload is the map of ratio and meta |
| Messages.Error | src/moebius/bus/messages.py:61-65 | an ERROR message whose payload is the exception |
| Messages.FindFrom | src/moebius/bus/messages.py:167 | the search returns -1 or an index at or after the start where the pattern occurs, and there is no earlier occurrence |
| Messages.Find | src/moebius/bus/messages.py:167 | `str.find`: -1 when the pattern does not occur, otherwise the lowest index where it occurs |
| Messages.Before | src/moebius/bus/messages.py:170 | `split('...')[0]` of a tag holding the ellipsis is the prefix that ends where the first ellipsis starts |
| Messages.SplitTags | src/moebius/bus/messages.py:163-171 | the loop sorts the requested tags into exact tags and ellipsis prefixes, in request order |
| Messages.ExactTagsMembership | src/moebius/bus/messages.py:166-168 | a tag is an exact tag iff it was requested and holds no ellipsis |
| Messages.PrefixTagsMembership | src/moebius/bus/messages.py:169-171 | a text is a prefix iff some requested tag holding the ellipsis has it before its first ellipsis |
| Messages.Test | src/moebius/bus/messages.py:128-144 | `TypeError`, naming both requests and the object, iff the object lacks a tag or a status attribute |
| Messages.OfTypeMeaning | src/moebius/bus/messages.py:144-189 | on an object with both attributes: the tag passes (no request, an exact tag, or a prefix match) and the status passes (no request, or one of the requested statuses) |
| Messages.MessagesAreTestable | src/moebius/bus/messages.py:128-145 | a bus message never makes the predicate raise |
| Messages.ConstructorsRouteByStatus | src/moebius/bus/messages.py:35-65 | a status filter tells `ready` messages from `error` messages |
| Messages.NoEllipsis | src/moebius/bus/messages.py:167 | a text without a dot has no ellipsis |
| Messages.ExactTagFilter | src/moebius/bus/messages.py:166-179 | a requested tag without an ellipsis matches by equality only |
| Messages.PrefixTagFilter | src/moebius/bus/messages.py:169-179 | a requested tag `p...` matches exactly the tags that start with `p` |
| Messages.OfType | src/moebius/bus/messages.py:68-145 | the filter keeps both requests as given; with neither a tag nor a status requested it passes every object that has both attributes |
| Messages.ToTuple | src/moebius/bus/messages.py:149-152 | one requested value is kept as a single value from the request; several are kept as a collection with exactly the requested values |
| Messages.MatchTagCases | src/moebius/bus/messages.py:156-179 | no tag request passes every tag; one tag without an ellipsis is an exact tag; one tag with an ellipsis is a prefix, the text before its first ellipsis |
| Messages.MatchStatus | src/moebius/bus/messages.py:183-189 | no status request passes every status; one status passes by equality; several pass by membership |
| Messages.Merge | src/moebius/bus/messages.py:202 | `update_with(\|)`: the keys are the union of both key sets, and each key maps to the union of its ids on both sides |
| Messages.CombineSeeds | src/moebius/bus/messages.py:194-204 | the loop skips `None`s and merges the seeds in order; the result is the fold `CombinedSeeds` |
| Messages.MergeCommutative | src/moebius/bus/messages.py:202 | merging seeds is commutative |
| Messages.MergeAssociative | src/moebius/bus/messages.py:202 | merging seeds is associative |
| Messages.MergeAt | src/moebius/bus/messages.py:202 | under any key, the ids of a merge are the union of the ids on both sides |
| Messages.SameIdsSameSeeds | src/moebius/bus/messages.py:202 | seed maps with the same keys and the same ids are equal (the extensionality the merge lemmas use) |
| Messages.MergeIdempotent | src/moebius/bus/messages.py:202 | merging seeds with themselves changes nothing |
| Messages.CombinedSeedsMembership | src/moebius/bus/messages.py:194-204 | a key is in the combination iff some present argument has it, and its ids are exactly those of the present arguments |
| Messages.CombinedSeedsOrderFree | src/moebius/bus/messages.py:194-204 | argument lists holding the same present seeds, in any order and with any repetition, combine to the same map |
| Messages.CombinedSeedsKeepsInputs | src/moebius/bus/messages.py:194-204 | combining two seed maps keeps every key and id of each |
| Markers.Track | src/moebius/core/markers.py:31-35 | READY `MARKER_TRACK` carrying the marker id and the seeds |
| Markers.Untrack | src/moebius/core/markers.py:39-43 | READY `MARKER_UNTRACK` carrying the marker id and the seeds |
| Markers.UntrackAll | src/moebius/core/markers.py:47-51 | READY `MARKER_UNTRACK_ALL` with no payload |
| Markers.UpdateSignalIdx | src/moebius/core/markers.py:55-62 | READY `MARKER_UPDATE_SIGNAL_IDX` whose payload maps the marker id and the index, `None` when the caller keeps the default |
| Markers.UpdateSampleIdx | src/moebius/core/markers.py:66-73 | READY `MARKER_UPDATE_SAMPLE_IDX` whose payload maps the marker id and the index, `None` when the caller keeps the default |
| Markers.KindMeaning | src/moebius/core/markers.py:102-135 | only READY actions whose tag starts with `MARKER` reach the marker logic, and each reaches the stream whose tag equals its own |
| Markers.ActionTagsHaveNoDots | src/moebius/core/markers.py:16-20 | the action tags and the `MARKER` prefix hold no dot, so they match by equality and by prefix |
| Markers.ConstructorsReachTheirStream | src/moebius/core/markers.py:31-73 | each constructor's message reaches the stream of its own kind; a sample index update reaches none that reacts |
| Markers.PyIndex | src/moebius/core/markers.py:161-164 | `xs[i]` succeeds iff `-len(xs) <= i < len(xs)`, and then yields the element counted from the end for negative `i`; otherwise `IndexError` |
| Markers.PyTake | src/moebius/core/markers.py:236-238 | indexing an array by an array of indices succeeds iff every index is in range, and then yields the element at each index in order; otherwise `IndexError` |
| Markers.ExtractSignal | src/moebius/core/markers.py:156-170 | READY `MARKER_SIGNAL` for the pipeline's marker with the seeds of both inputs combined; a `None` index carries all the rows; an integer index carries the row iff it is in range, otherwise NOT_AVAILABLE |
| Markers.ExtractEnergy | src/moebius/core/markers.py:202-217 | READY `MARKER_ENERGY` with the combined seeds; a `None` index carries all the energies; an integer index carries the energy iff it is in range, otherwise NOT_AVAILABLE |
| Markers.MarkResource | src/moebius/core/markers.py:231-243 | the record keeps the resource type; `ri`, `iir` and `rn` are found together iff both lookups at the index and the name lookup at `ri` succeed, otherwise all three are NOT_AVAILABLE |
| Markers.MarkColumns | src/moebius/core/markers.py:231-243 | under a `None` index the record keeps the resource type and the whole `ri` and `iir` columns, with the names looked up at every `ri`; all three are NOT_AVAILABLE together iff some `ri` is out of range of the names |
| Markers.MarkedResources | src/moebius/core/markers.py:230-243 | one record per resource, in order, each the marking of that resource at the index |
| Markers.ResourceMessage | src/moebius/core/markers.py:245-250 | a READY message tagged `MARKER_ENERGY` (as in the source) carrying, for each resource in order, its marking at the index, with the combined seeds |
| Markers.ExtractResource | src/moebius/core/markers.py:225-250 | the loop of `extract_resource` builds exactly `ResourceMessage` |
| Markers.FftPipe | src/moebius/core/markers.py:179-192 | a missing signal gives a `MARKER_FFT` carrying NOT_AVAILABLE; a row gives its spectrum at the sampling rate, and all the rows their spectra; the seeds are combined |
| Markers.ExtractionKeepsLineage | src/moebius/core/markers.py:156-170 | every id of both joined messages is kept in the extracted message's seeds |
| Markers.KeysOf | src/moebius/core/markers.py:268-269 | the marker ids of the live pipelines, in track order |
| Markers.Killed | src/moebius/core/markers.py:146-153 | after an untrack, the pipelines left are exactly those of other ids |
| Markers.Fed | src/moebius/core/markers.py:143-147 | an index update is recorded by exactly the pipelines of its marker id; the others are unchanged |
| Markers.Kill | src/moebius/core/markers.py:146-153 | the loop that stops the pipelines of one id computes `Killed` |
| Markers.Feed | src/moebius/core/markers.py:143-147 | the loop that delivers an index update computes `Fed` |
| Markers.EmitAll | src/moebius/core/markers.py:259-272 | the loop that collects every pipeline's output, in track order, computes `Emissions` |
| Markers.MarkerRegistry.constructor | src/moebius/core/markers.py:94-135 | no pipeline and no source value |
| Markers.MarkerRegistry.Step | src/moebius/core/markers.py:94-272 | the new state is `Next` of the old one, and the output is what the pipelines emit in reaction to the event |
| Markers.IgnoredActionsDoNothing | src/moebius/core/markers.py:102 | an action that is not READY, not a MARKER action, or a sample index update changes nothing and emits nothing |
| Markers.TrackStartsAPipeline | src/moebius/core/markers.py:268-269 | a track appends one pipeline for its payload, with no index yet, and emits nothing |
| Markers.UntrackStopsItsPipelines | src/moebius/core/markers.py:146-153 | an untrack stops exactly the pipelines of its payload, keeps the sources and emits nothing |
| Markers.UntrackAllStopsEverything | src/moebius/core/markers.py:150-153 | an untrack-all stops every pipeline and emits nothing |
| Markers.EmissionsComeFromPipelines | src/moebius/core/markers.py:259-272 | every emitted message comes from a live pipeline that has seen an index update |
| Markers.PipelineOutputsShape | src/moebius/core/markers.py:156-222 | a pipeline's output is addressed to its own id, and each tag's payload is the extraction from the latest values |
| Markers.OnlyLivePipelinesEmit | src/moebius/core/markers.py:174 | after any event, everything emitted belongs to a pipeline still live after it |
| Markers.IndexUpdateReachesItsMarker | src/moebius/core/markers.py:143-147 | an index update is recorded by exactly the pipelines of its id, and only that id's pipelines react |
| Markers.IndexUpdateEmitsOnce | src/moebius/core/markers.py:143-222 | on an index update, the number of messages emitted is the number of joins whose other input has a value, times the number of that id's pipelines |
| Markers.AddressedHoldUpdate | src/moebius/core/markers.py:143-147 | every pipeline an index update addresses holds that update as its latest index |
| Markers.IndexUpdateEmitsOncePerJoin | src/moebius/core/markers.py:156-222 | an index update for `id` makes each of `id`'s pipelines that has an index emit once per ready join, and no other pipeline emit |
| Markers.IndexOutputCount | src/moebius/core/markers.py:156-222 | one pipeline emits once per ready join on an index update for its own id, and nothing on one for another id |
| Markers.Addressed | src/moebius/core/markers.py:143-147 | the pipelines of one id that have seen an index update |
| Markers.SignalJoinUsesLatestValues | src/moebius/core/markers.py:172-175 | a signal is emitted only once a signals value exists, and it is extracted from the latest index and signals |
| Markers.NewSignalsEmitOncePerPipeline | src/moebius/core/markers.py:172-175 | new signals make every pipeline that has an index emit exactly one signal, plus one FFT when a sampling rate is known |
| Markers.WithIndex | src/moebius/core/markers.py:172-175 | the pipelines that have seen an index update |
| Markers.UntrackedMarkerStaysSilent | src/moebius/core/markers.py:146-222 | with two markers tracked and the first untracked, new energies reach only the second |
| StaticMarkers.BmSignalIdx | src/moebius/core/markers2.py:41-50 | `ValueError` iff the index is negative; otherwise READY with tag `MARKER_SIGNAL_IDX/<id>` and the index as payload |
| StaticMarkers.BmSampleIdx | src/moebius/core/markers2.py:54-59 | READY with tag `MARKER_SAMPLE_IDX/<id>` and the index as payload |
| StaticMarkers.BmStatus | src/moebius/core/markers2.py:62-71 | `ValueError` iff the status is neither ENABLE nor DISABLE; otherwise READY with tag `MARKER_STATUS/<id>` |
| StaticMarkers.LastSegment | src/moebius/core/markers2.py:129 | `split('/')[-1]` is a slash-free suffix of the tag, preceded by a slash when it is not the whole tag |
| StaticMarkers.SuffixOfTag | src/moebius/core/markers2.py:126-130 | the last segment of `prefix/id` is `id` when `id` has no slash |
| StaticMarkers.SuffixRouting | src/moebius/core/markers2.py:128-132 | a tag `prefix/id` is for marker `other` iff `other == id` |
| StaticMarkers.NDigits | src/moebius/core/markers2.py:195 | `floor(log10(n)) + 1` is the number of decimal digits of `n` |
| StaticMarkers.DecimalText | src/moebius/core/markers2.py:196 | the decimal text of `n` is made of digits, has `NDigits(n)` of them and denotes `n` |
| StaticMarkers.Zeros | src/moebius/core/markers2.py:196 | `k` zero digits denote 0 |
| StaticMarkers.LeadingZeros | src/moebius/core/markers2.py:196 | leading zeros do not change the value a digit text denotes |
| StaticMarkers.ZeroPadded | src/moebius/core/markers2.py:196 | `'{:0w}'.format(n)` denotes `n` and has width `w`, or more when `n` needs more digits |
| StaticMarkers.FewerDigits | src/moebius/core/markers2.py:195-196 | a number below `count` has no more digits than `count` |
| StaticMarkers.MarkerIds | src/moebius/core/markers2.py:195-196 | an error iff `count < 1` (log10 of 0 or less); otherwise `count` ids `#` + `i` padded to the digit width of `count` |
| StaticMarkers.MarkerIdsShape | src/moebius/core/markers2.py:195-197 | the ids are pairwise distinct, slash-free and all of length `1 + ndigits` |
| StaticMarkers.ExtractSignal | src/moebius/core/markers2.py:139-152 | READY `MARKER_SIGNAL/<id>` with the combined seeds; an index carries its row iff it is in range, otherwise NOT_AVAILABLE; a status payload used as an index also gives NOT_AVAILABLE |
| StaticMarkers.SetsIndexOfMeaning | src/moebius/core/markers2.py:128-134 | an action reaches a marker's index stream iff it is READY, starts with `MARKER_SIGNAL_IDX` and ends in that marker's id |
| StaticMarkers.StatusAndSampleAreInert | src/moebius/core/markers2.py:134-136 | status and sample index actions change no slot and make no marker emit |
| StaticMarkers.SignalIndexReachesItsMarker | src/moebius/core/markers2.py:125-134 | a signal index built for the k-th id reaches the k-th marker and no other |
| StaticMarkers.SignalIndexRouting | src/moebius/core/markers2.py:128-134 | a signal index for `id` reaches marker `other` iff `other == id` |
| StaticMarkers.MarkerBank.constructor | src/moebius/core/markers2.py:195-199 | the ids are `MarkerIds(count)`, and no marker has an index or signals yet |
| StaticMarkers.MarkerBank.Step | src/moebius/core/markers2.py:154-158 | on any action or signals event, each slot and the signals slot take their next value, and the markers emit `Outputs` in id order |
| Engine.SnakeIndices | src/moebius/core/engine.py:150-153 | a fresh `h x w` array whose cell `(r, c)` is the snake value: `r*w + c` on even rows, `r*w + w-1-c` on odd rows |
| Engine.FillRowMajor | src/moebius/core/engine.py:151 | `arange(h*w).reshape(h, w)`: cell `(r, c)` holds `r*w + c` |
| Engine.FlipRow | src/moebius/core/engine.py:152 | row `r` is reversed in place; every other row is unchanged |
| Engine.SnakeIsPermutation | src/moebius/core/engine.py:148-153 | the SNAKE grid holds every value `0 .. h*w-1` exactly once |
| Engine.SnakeCovers | src/moebius/core/engine.py:151-152 | every value below `h*w` is held by some cell of the `h x w` snake grid |
| Engine.SnakeCellBounds | src/moebius/core/engine.py:151-152 | the value of cell `(r, c)` lies in row band `[r*w, (r+1)*w)` |
| Engine.SameRowBand | src/moebius/core/engine.py:151-152 | two rows whose bands share a value are the same row |
| Engine.Compute | src/moebius/core/engine.py:148-155 | `NotImplementedError` iff the ordering is not SNAKE; otherwise an `h x w` grid of snake values |
| Engine.SnakeRows | src/moebius/core/engine.py:152 | even rows ascend and odd rows descend within their band |
| Engine.ComputeGrid | src/moebius/core/engine.py:148-155 | the in-place construction errs iff `Compute` does, and otherwise agrees with it cell by cell |
| Engine.Uv | src/moebius/core/engine.py:157-160 | the message keeps status and seeds, takes tag `UV` and the computed grid, or fails as `compute` does |
| Engine.Node | src/moebius/core/engine.py:167-184 | the loop emits no more messages than arguments, all with the tag and the combined seeds; a success is READY with its value; an error is an ERROR message and ends the stream; when the function succeeds on every argument there is one output per argument |
| Engine.NodeOutputs | src/moebius/core/engine.py:179-184 | the function applied to the payloads in order; every output carries the tag and the combined seeds; the stream ends with the first error, which becomes an ERROR message |
| Engine.Payloads | src/moebius/core/engine.py:172 | the payloads of the arguments, in order |
| Engine.AllSeeds | src/moebius/core/engine.py:170-171 | the seeds of the arguments, in order |
| Engine.NodeKeepsLineage | src/moebius/core/engine.py:169-184 | every output of a node, success or error, keeps every id of every argument's seeds |
| Engine.ComputeEnergy | src/moebius/core/engine.py:200-204 | one entry per column, the sum of the squares of that column |
| Engine.EnergyOfSilence | src/moebius/core/engine.py:204 | an energy is never negative, and an all-zero column has energy zero |
| Engine.EnergyAdditive | src/moebius/core/engine.py:204 | energies add up over a split of the rows |
| Quantities.Units | src/moebius/quantity.py:608 | each kind's unit tuple, never empty (the Frequency tuple is cited; the other kinds' tuples are at lines 655, 703, 752, 857 and 945) |
| Quantities.UnitsListed | src/moebius/quantity.py:34-37 | a unit is in a kind's tuple iff the kind accepts it |
| Quantities.DefaultUnit | src/moebius/quantity.py:625 | the default unit of each constructor is one it accepts |
| Quantities.Factor | src/moebius/quantity.py:609 | every factor of the unit tables is positive |
| Quantities.New | src/moebius/quantity.py:34-41 | `KeyError` iff a quantity class is given a unit outside its tuple; otherwise the instance keeps the value and the unit |
| Quantities.To | src/moebius/quantity.py:630-639 | `KeyError` iff the unit is not the kind's; the class is kept; converting into the current unit returns the receiver |
| Quantities.Update | src/moebius/quantity.py:156-169 | a new instance of the same class with the value and/or unit replaced, failing as the constructor does |
| Quantities.SumKind | src/moebius/quantity.py:203-217 | the class of a sum of two equal non-temperature classes is that class |
| Quantities.Add | src/moebius/quantity.py:203-209 | `TypeError` iff the classes differ (except Temperature + DTemperature); the result is in the left operand's unit |
| Quantities.Sub | src/moebius/quantity.py:211-217 | fails exactly when `+` does, and gives the class and unit that `+` gives |
| Quantities.Compare | src/moebius/quantity.py:234-254 | `TypeError` iff the classes differ |
| Quantities.FactorCompare | src/moebius/quantity.py:234-254 | a comparison of two factor-kind quantities compares the left value with the right value converted into the left unit |
| Quantities.ComparisonsAgree | src/moebius/quantity.py:234-254 | `<=` is `<` or `==`, `>=` is not `<`, and `>` is not `<=` |
| Quantities.Divide | src/moebius/quantity.py:309-333 | `ZeroDivisionError` iff the divisor is zero; `/` is the exact quotient and `//` its floor |
| Quantities.Wrap | src/moebius/quantity.py:309-333 | a division's result or error wrapped into the result class and unit |
| Quantities.FactorsCancel | src/moebius/quantity.py:635 | scaling by `f/g` and back by `g/f` restores the value |
| Quantities.FactorsCompose | src/moebius/quantity.py:635 | scaling by `f/g` then `g/h` is scaling by `f/h` |
| Quantities.FactorConversion | src/moebius/quantity.py:630-639 | a factor kind converts by `F[old] / F[new]` |
| Quantities.ConversionRoundTrip | src/moebius/quantity.py:630-639 | converting a factor-kind quantity into another unit and back restores it |
| Quantities.ConversionComposes | src/moebius/quantity.py:630-639 | two conversions in a row are one conversion |
| Quantities.ConversionKeepsEquality | src/moebius/quantity.py:175-200 | a factor-kind quantity equals its conversion into any of its units, and itself |
| Quantities.FactorEquality | src/moebius/quantity.py:175-200 | equality compares the right value converted into the left operand's unit |
| Quantities.FactorDifference | src/moebius/quantity.py:211-217 | the difference of two factor-kind quantities is the left value minus the right value converted, in the left unit |
| Quantities.FactorSum | src/moebius/quantity.py:203-209 | the sum of two factor-kind quantities is the left value plus the right value converted, in the left unit |
| Quantities.MulKinds | src/moebius/quantity.py:336-361 | Q×Q and Q×Undefined give Undefined; Q×Scalar and Q×number scale Q; Scalar×Q gives Q; Undefined×anything gives Undefined |
| Quantities.DivKinds | src/moebius/quantity.py:309-333 | Q/Q of one class gives a Scalar; Q/other Q gives Undefined; Q/Scalar and Q/number keep Q; Scalar/Q gives Undefined; Undefined/anything gives Undefined |
| Quantities.TemperatureArithmetic | src/moebius/quantity.py:892-913 | T±T gives a DTemperature, and T±ΔT and ΔT±T give a Temperature, in the left operand's unit |
| Quantities.TemperatureToAsWritten | src/moebius/quantity.py:916-929 | `to` into the other scale keeps the receiver's label, shifts the value by 273.15 and yields an unequal temperature |
| Quantities.DTemperatureAsWritten | src/moebius/quantity.py:965-997 | `to` gives an equal difference, and ΔT - ΔT adds the values |
| Quantities.SpeedTableAsWritten | src/moebius/quantity.py:753 | 1 m/s converts into 0.001 mm/s |
| Quantities.UpdateMatchesConstructor | src/moebius/quantity.py:156-169 | an update without arguments gives back the instance, and an update with both is the constructor |
| Constraints.NoConstraintVerify | src/moebius/constraint.py:57-62 | `True` for an object of exactly the class; `TypeError` otherwise |
| Constraints.ParseClosure | src/moebius/constraint.py:344-348 | exactly the four closure strings are accepted; `[` closes the low side and `]` the high side |
| Constraints.Abs | src/moebius/quantity.py:231-232 | same class and unit, with the absolute value |
| Constraints.MakeInterval | src/moebius/constraint.py:343-371 | `ValueError` for a bad closure; `TypeError` for bounds of two classes; otherwise the interval of the bounds' class, with bounds in increasing order and a missing bound open |
| Constraints.MakePoint | src/moebius/constraint.py:421-439 | `ValueError` without a quantity; `TypeError` for a tolerance of another class; otherwise the point with the absolute tolerance |
| Constraints.Include | src/moebius/constraint.py:374-395 | an interval without a class contains everything; a set of another class raises `TypeError`; a point without a tolerance tests equality |
| Constraints.Exclude | src/moebius/constraint.py:398-399 | the negation of `include`, with the same errors |
| Constraints.Build | src/moebius/constraint.py:487-530 | `qtype(v, unit)`: `KeyError` iff the class rejects the unit; the default unit when none is given |
| Constraints.BuildOption | src/moebius/constraint.py:487-510 | a missing number stays missing; a present one is built as `Build` builds it |
| Constraints.Make | src/moebius/constraint.py:487-530 | a point factory without a value raises `ValueError`; `KeyError` iff a unit is given that the class rejects and something is built; a made set has the requested class, except an interval without bounds |
| Constraints.MakeBuildsInterval | src/moebius/constraint.py:487-510 | an interval factory makes the interval of its bounds built in its unit (or the default unit), with its closure |
| Constraints.MakeBuildsPoint | src/moebius/constraint.py:513-530 | a point factory with a value makes the point at that value, with the absolute tolerance, both in its unit |
| Constraints.MadeIntervalMembership | src/moebius/constraint.py:374-395 | a quantity of the made interval's class and unit is in it iff it lies between the numbers given, strictly on an open side |
| Constraints.MadePointMembership | src/moebius/constraint.py:443-448 | a quantity of the made point's class and unit is in it iff it differs from the value by at most the tolerance |
| Constraints.NewConstraint | src/moebius/constraint.py:137-152 | `TypeError` unless the class is a quantity class and no test's set has another class; the result keeps class and tests |
| Constraints.Chain | src/moebius/constraint.py:182-211 | a set without a class leaves the constraint unchanged; a set of another class raises `TypeError`; otherwise the test is appended and the chain stays consistent |
| Constraints.Plus | src/moebius/constraint.py:241-254 | `+` and `-` make a factory into a set of the constraint's class, then chain it |
| Constraints.Verify | src/moebius/constraint.py:214-238 | `TypeError` for a quantity of another class; `True` for a constraint without tests |
| Constraints.RunTestsAll | src/moebius/constraint.py:234-238 | the tests pass iff every test passes |
| Constraints.RunTestsFirstFailure | src/moebius/constraint.py:234-238 | the tests fail without raising iff some test fails after all earlier ones passed |
| Constraints.RunTestsAppend | src/moebius/constraint.py:234-238 | one more test is run only when all earlier ones pass |
| Constraints.ChainThenVerify | src/moebius/constraint.py:182-238 | verifying after chaining a set of the right class runs the old tests, then the new one |
| Constraints.EmptyConstraintAccepts | src/moebius/constraint.py:137-238 | a constraint without tests accepts every quantity of its class |
| Constraints.UnboundedInterval | src/moebius/constraint.py:350-379 | an interval without bounds is open, has no class, contains everything and is not chained |
| Constraints.IntervalMembership | src/moebius/constraint.py:374-395 | a quantity is in an interval iff it is above the low bound and below the high bound, strictly on an open side |
| Constraints.IntervalRunsUpwards | src/moebius/constraint.py:366-367 | bounds given in decreasing order are swapped |
| Constraints.PointWithinTolerance | src/moebius/constraint.py:443-448 | a point with a tolerance holds the quantities within the tolerance |
| Constraints.TemperaturePointAsWritten | src/moebius/constraint.py:446-448 | a temperature point with a tolerance raises `TypeError` on every test |
| OptionTypes.CreateOption | src/moebius/option.py:94-103 | a string or a non-iterable becomes the single option; any other iterable becomes the tuple of its elements |
| OptionTypes.New | src/moebius/option.py:74-78 | `KeyError` iff the value is not an option; otherwise the instance holds the value |
| OptionTypes.Options | src/moebius/option.py:36-41 | the class's tuple, which holds the value of every instance |
| OptionTypes.Update | src/moebius/option.py:84-85 | a new instance of the same class, validated like the constructor |
| OptionTypes.ConstructedValue | src/moebius/option.py:80-82 | every option makes an instance, whose value is that option |
| OptionTypes.UpdateRoundTrip | src/moebius/option.py:84-85 | an update with the own value gives back the instance, and two updates are the last one |
| OptionTypes.StringIsOneOption | src/moebius/option.py:100-101 | a class made from a string accepts exactly that string |
| OptionTypes.IterableOptions | src/moebius/option.py:102-103 | a class made from an iterable accepts exactly its elements |
| Feedback.Step | roaming/rx_reminder/feedback.py:49-54 | the record holds the new item; it has an output iff there was a previous record |
| Feedback.Scan | roaming/rx_reminder/feedback.py:56-57 | one record per item, holding that item |
| Feedback.Outputs | roaming/rx_reminder/feedback.py:58-59 | no more outputs than records |
| Feedback.Pairwise | roaming/rx_reminder/feedback.py:22-25 | the selector on every pair of consecutive items (the reference definition) |
| Feedback.ScanFromPrevious | roaming/rx_reminder/feedback.py:49-60 | from a held item `p`, the outputs are the selector on consecutive pairs of `p` followed by the items |
| Feedback.ScanMap | roaming/rx_reminder/feedback.py:21-60 | the operator emits the selector on every pair of consecutive items, the seed (when given) coming first |
| Feedback.ScanMapWithoutSeed | roaming/rx_reminder/feedback.py:32-36 | without a seed, n items give the n-1 pairwise outputs |
| Feedback.ScanMapWithSeed | roaming/rx_reminder/feedback.py:38-47 | with a seed, n items give n outputs, the first being `selector(seed, x0)` |
| Feedback.ScanMapShortInputs | roaming/rx_reminder/feedback.py:46-60 | no items give nothing; a single item without a seed gives nothing |
| Feedback.RecordHoldsLatest | roaming/rx_reminder/feedback.py:49-54 | the k-th record pairs item k-1 with item k |
| MarkerSetReducer.Reduce | roaming/rx_reminder/rx_reminder_markers.py:52-72 | the DEFAULT state resets to empty; ADD inserts; REMOVE deletes or raises `KeyError` for an absent marker; REMOVE_ALL empties; anything else keeps the set; the tag becomes MARKERS |
| MarkerSetReducer.AddIsIdempotent | roaming/rx_reminder/rx_reminder_markers.py:60-62 | adding a present marker changes nothing |
| MarkerSetReducer.AddThenRemove | roaming/rx_reminder/rx_reminder_markers.py:60-66 | adding then removing a marker restores a set that lacked it |
| MarkerSetReducer.AddsAccumulate | roaming/rx_reminder/rx_reminder_markers.py:60-62 | a run of ADDs holds the old markers plus exactly the added ones |
| MarkerVectorReducer.IndexOf | roaming/rx_reminder/rx_reminder_scan_hot.py:38 | the index of the first occurrence, or the length when there is none |
| MarkerVectorReducer.RemoveFirst | roaming/rx_reminder/rx_reminder_scan_hot.py:38 | fails iff the marker is absent |
| MarkerVectorReducer.Reduce | roaming/rx_reminder/rx_reminder_scan_hot.py:24-45 | INIT gives the empty vector; ADD appends; REMOVE drops one occurrence or raises `ValueError`; REMOVE_ALL empties; anything else keeps the vector |
| MarkerVectorReducer.RemoveDeletesFirstOccurrence | roaming/rx_reminder/rx_reminder_scan_hot.py:37-39 | REMOVE deletes the first occurrence and keeps the rest in order |
| MarkerVectorReducer.FirstOccurrence | roaming/rx_reminder/rx_reminder_scan_hot.py:38 | removal cuts at the first occurrence |
| MarkerVectorReducer.AddThenRemove | roaming/rx_reminder/rx_reminder_scan_hot.py:33-39 | adding then removing an absent marker restores the vector |
| EnergyReducer.NewMarkers | roaming/rx_reminder/rxx_reminder_marker_reducer.py:48-51 | exactly the markers absent from the previous list, in order |
| EnergyReducer.FirstIfNew | roaming/rx_reminder/rxx_reminder_marker_reducer.py:49-54 | the output of a MARKERS step as written: at most the first marker, when it is new |
| EnergyReducer.Reduce | roaming/rx_reminder/rxx_reminder_marker_reducer.py:43-60 | as written: MARKERS stores the list and outputs `FirstIfNew` (an empty list keeps the old content); ENERGY outputs the content; anything else outputs nothing |
| EnergyReducer.ReduceIntended | roaming/rx_reminder/rxx_reminder_marker_reducer.py:43-60 | with the return after the loop: MARKERS stores the list and outputs every new marker |
| EnergyReducer.OnlyFirstMarkerExamined | roaming/rx_reminder/rxx_reminder_marker_reducer.py:49-54 | as written, the output is the intended output for the first marker alone |
| EnergyReducer.ReturnInsideLoop | roaming/rx_reminder/rxx_reminder_marker_reducer.py:53-54 | on two new markers, only the first is output as written, and both as intended |

## Left out

- Rx scheduling, threads and subscription timing are not modelled: `share_replay`'s reference counting, `take_until`, and the ordering of concurrent emissions. The pipelines are modelled as a sequential registry that reacts to one event at a time.
- Markers.MarkerRegistry.Step: an FFT computed in flight on a worker thread is not modelled. Its result is emitted as soon as the join fires. The source may still deliver a late FFT after an untrack, because `take_until` sits before `switch_latest`.
- Markers.FftPipe: the FFT numerics (`compute_fft`, numpy's `rfft`, `abs`, `angle` and `rfftfreq`) are an uninterpreted `Spectrum(row, rate)`.
- Markers.PipelineOutputsShape: at markers.py:219-220 and 252-253 the energy and resource joins call `combine_latest` on the energies and resources stream itself. That passes a third argument to the two-argument extractor. The model treats both joins as the intended two-input joins.
- Markers.MarkResource: the resource record is built with `api.Resource`, while `api.py` spells the type `Ressource`. The model uses one record type.
- Markers.WellFormed: a `MARKER_UPDATE_SIGNAL_IDX` action whose payload is not the marker-id map makes the source raise while filtering. The registry requires such payloads to be maps rather than modelling that exception.
- Markers.MarkColumns: the resource fields are taken to be numpy arrays. With tuple fields, `ri[None]` raises `TypeError`, which would end the stream; that is not modelled.
- Markers.ExtractSignal: the signals, energies and resource fields are numpy arrays; a slice, a boolean mask or a float used as an index is not modelled.
- StaticMarkers.MarkerBank.Step: the FFT branch of `create_markers` and its sampling-rate stream are not modelled. The energies, resources and positions streams it accepts are never joined by the source.
- StaticMarkers.MarkerIds: `print(mids)` is I/O and is not modelled.
- StaticMarkers.NDigits: the digit count is exact. The source computes it with floating-point `np.log10`, which rounds `log10(10**15 - 1)` up to 15, so for `count = 10**15 - 1` the source pads to 16 digits where the model pads to 15.
- StaticMarkers.ExtractSignal: the signals are a numpy array, so a string index raises `IndexError` and becomes NOT_AVAILABLE; a plain list of signals would raise `TypeError` instead.
- `NO_SEED` is imported from the messages module but is not defined there. Every default `seeds` argument is therefore modelled as a parameter.
- `propagates_seeds` is a stub that always raises and is not modelled.
- The `Engine` class (engine.py:31-63) is live Rx wiring, but it calls the `markers` function that lines 66-136 comment out, and is not modelled. Lines 139-140 sit at class-body indentation after that comment block, so their `return` is outside any function and the module does not compile as written. `uv`, `node` and `compute_energy` are modelled as the functions they are written as. `ENERGY_node` is a one-line use of `compute_energy` and is not modelled.
- Engine.Compute: the dimensions of a shape are `nat`, so numpy's `ValueError` on a negative height or width is not modelled.
- Engine.EnergyOfSilence: only silence ⇒ zero energy is proved. The converse (zero energy ⇒ silence) is not proved.
- Engine.ComputeEnergy: numpy arrays become sequences of rows of `real`. IEEE floating point, NaN and broadcasting are not modelled.
- Quantities.Equal, Quantities.Mul and Quantities.Div carry no `ensures` of their own. Their meaning is stated by `FactorEquality`, `ConversionKeepsEquality`, `MulKinds` and `DivKinds`.
- Quantities.Add: commutativity of `+` across units is not proved. Neither is the unit-independence of the ratio of two quantities. Both need products of unit factors that the solver does not settle within the resource limit.
- `auto`, `items`, `__len__`, `__repr__`, `symbol` and `tag` of the quantities (presentation and `log10`-based rescaling) are not modelled.
- `Angle` is not modelled: its conversions go through floating-point π.
- `__getitem__` (quantity.py:228-229) is modelled only inside `Quantities.Seen`, as `to(unit).value`.
- `__rmul__` and `Undefined(value)` given a quantity that is not Undefined are not modelled.
- Constraints.NewConstraint: a `qtype` that is the abstract `BaseQuantity` or `Quantity` class itself is not modelled. Only the concrete classes and non-quantity classes are.
- The `__repr__` methods of constraints and sets are not modelled.
- OptionTypes.CreateOption: the class is built by `exec` of a source template. The model gives its behaviour directly. `__repr__` is not modelled.
- The `Accumulator` helpers, the demo scripts of `roaming/` and the `ressource.py` file loader (I/O) are not modelled.
- The persistent containers of `pyrsistent` become Dafny `set`, `seq` and `map`. Their exceptions become error results.

## Findings

| source | as written | input that shows it | evidently intended | confidence | as-written member | corrected member |
|---|---|---|---|---|---|---|
| roaming/rx_reminder/rxx_reminder_marker_reducer.py:53-54 | the `return` is inside the `for` loop, so only the first marker of a MARKERS list is compared with the previous list | previous content `[]`, MARKERS payload `[1, 2]`: the output is `[1]` | the output lists every marker absent from the previous list (`[1, 2]`) | likely; not executed | EnergyReducer.ReturnInsideLoop | EnergyReducer.ReduceIntended |
