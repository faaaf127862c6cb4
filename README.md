# Temporal depth filter: state and persistence table

A Dafny model of the state half of librealsense's temporal depth filter,
the object `temporal_filter` in `src/proc/temporal-filter.cpp`. The per-pixel
smoothing itself is not part of this model. What is modelled:

- **The persistence look-up table** `_persistence_lut`: nine rows of 256
  bytes each, one row per hole-filling mode. Every byte is carried over
  exactly as written. Module `PersistenceTable` in `persistence_table.dfy`
  holds the table and the proofs about it. Each row is kept in the source's
  layout of sixteen lines of sixteen entries.
  - The "all-or-nothing" rows 0, 1, 4, 7 and 8 are proved to hold 0xFF
    exactly where the 8-bit validity history has enough set bits for that
    mode.
  - The mask rows 2, 3, 5 and 6 stay as the bytes they are.
- **The filter's fields and entry points**, in module `TemporalFilter`
  (`temporal_filter.dfy`):
  - a value `State` with the fields the entry points read and write;
  - one function `After...` per entry point, from the state before the call
    to the state after it;
  - lemmas about all sequences of calls.
  The entry points are the constructor, the three option handlers (the
  `on_set` lambdas and `on_set_persistence_control`, `on_set_alpha`,
  `on_set_delta`), `update_configuration` and `recalc_persistence_map`.
- **The object itself**: class `TemporalFilter.TemporalFilter`.
  - It has the source's fields as mutable fields, and `_persistence_map` as
    a 256-entry `array<bv8>`.
  - Each method is proved to change the fields exactly as its `After...`
    function does.
  - `recalc_persistence_map` renders its `fill(0)` and its row copy as two
    loops, `FillMap` and `CopyRow`.

Representation choices:

- `uint8_t` fields are the newtype `uint8`.
- `float` parameters are `real`. `static_cast<uint8_t>` of an in-range
  float is truncation (`TruncateToByte`).
- A stream profile is a class `StreamProfile`, compared by reference. Only
  that identity, not the profile's contents, decides whether
  `update_configuration` does anything.
- The table is a lookup function `PersistenceLut(mode)` over per-line
  constants, not one nested sequence constant. The rows are the same bytes.
- A rejected option value is a `Result` error for the value level and an
  `Outcome` for the class methods; in both cases the state is left as it
  was. `UnsupportedPersistence` and `UnsupportedDelta` carry the value their
  messages report, and `UnsupportedAlpha` carries the refused value.

Unlike the persistence and delta handlers, the alpha option's handler
(lines 256-259) has no range check of its own. The alpha option is created
with the range [0, 1] (lines 202-203, 250-255), and the model takes the
option object to refuse values outside that range. So `AfterSetAlphaOption`
refuses a value outside [0, 1] and leaves the state as it was, like the
other two options.

Observations about the program's behaviour, not bugs:

- `on_set_persistence_control` empties both buffers but leaves the frame
  index alone, while the alpha and delta setters reset it to 0.
- After an option value that passes its range check, a frame of the profile
  already seen leaves both buffers empty, although the geometry still says a frame has
  `pixels * bpp` bytes (`SameProfileAfterOptionKeepsBuffersEmpty`). The
  smoothing routine, which is not part of this model, has to cope with
  empty buffers.

## Model

| member | source | states |
|---|---|---|
| PersistenceTable.DisabledRow | src/proc/temporal-filter.cpp:21-37 | every one of the 256 entries of row 0 ("Disabled") is 0x00 |
| PersistenceTable.ValidInEightOfEightRow | src/proc/temporal-filter.cpp:40-56 | in row 1 ("Valid in 8/8") entry 255 is 0xFF and every other entry is 0x00 |
| PersistenceTable.ValidInTwoOfEightRow | src/proc/temporal-filter.cpp:99-115 | in row 4 ("Valid in 2/8") an entry is 0x00 exactly for the histories 0, 1, 2, 4, 8, 16, 32, 64, 128, and 0xFF for all others |
| PersistenceTable.ValidInOneOfEightRow | src/proc/temporal-filter.cpp:156-172 | in row 7 ("Valid in 1/8") entry 0 is 0x00 and every nonzero history maps to 0xFF |
| PersistenceTable.ValidInPreviousRow | src/proc/temporal-filter.cpp:175-191 | every entry of row 8 ("Valid in previous") is 0xFF |
| PersistenceTable.FlagRowsCountValidFrames | src/proc/temporal-filter.cpp:18-193 | rows 0, 1, 4, 7 and 8 hold 0xFF exactly where the history has at least 9, 8, 2, 1 or 0 set bits, i.e. the "valid in K of 8" reading of their mode names |
| PersistenceTable.FewerThanTwoValidBytes | src/proc/temporal-filter.cpp:99-115 | a history byte has fewer than two set bits exactly when it is 0 or a single bit, which is the set row 4 leaves at 0x00 |
| PersistenceTable.AllEightValid | src/proc/temporal-filter.cpp:40-56 | a history byte has all eight frames valid exactly when it is 255, the one entry row 1 sets |
| PersistenceTable.EmptyAndFullHistories | src/proc/temporal-filter.cpp:18-193 | in every mode the all-invalid history 0 is rejected except in mode 8, and the all-valid history 255 is accepted except in mode 0 |
| PersistenceTable.MaskRowEnds | src/proc/temporal-filter.cpp:60-153 | the per-bit mask rows 2, 3, 5 and 6 start with 0x00 and end with 0xFF |
| PersistenceTable.PersistenceLutLayout | src/proc/temporal-filter.cpp:18-193 | `_persistence_lut[mode]`, for each of the nine modes, holds entry k of the table's source line i of that row at index 16 * i + k, i.e. the lookup function is the table as written |
| PersistenceTable.FlattenIndex | src/proc/temporal-filter.cpp:18-193 | entry k of source line i of a row is entry 16 * i + k of the row |
| TemporalFilter.TruncateToByte | src/proc/temporal-filter.cpp:245 | `static_cast<uint8_t>` of an in-range value is the greatest byte not above it |
| TemporalFilter.TruncateTowardZero | src/proc/temporal-filter.cpp:243 | the `(int)` cast in the refusal message truncates toward zero, for negative values too |
| TemporalFilter.AcceptedValueTruncatesIntoRange | src/proc/temporal-filter.cpp:240-245 | a value that passes a byte option's range check is in the byte range, so its `static_cast<uint8_t>` is defined, and the truncated value stays inside the option's range |
| TemporalFilter.Resize | src/proc/temporal-filter.cpp:360-364 | `resize(n)` yields length n, keeps the old bytes that fit and pads with zero bytes |
| TemporalFilter.AfterRecalcPersistenceMap | src/proc/temporal-filter.cpp:378-382 | the active map becomes the table row of the current mode, and no other field changes |
| TemporalFilter.AfterOnSetPersistenceControl | src/proc/temporal-filter.cpp:312-319 | the mode is stored, the map is that mode's row, both buffers are empty, and every other field, the frame index included, is unchanged |
| TemporalFilter.AfterOnSetAlpha | src/proc/temporal-filter.cpp:321-329 | alpha is stored, the frame index is 0, both buffers are empty, and nothing else changes |
| TemporalFilter.AfterOnSetDelta | src/proc/temporal-filter.cpp:331-338 | delta is the truncated value, the frame index is 0, both buffers are empty, and nothing else changes |
| TemporalFilter.AfterSetPersistenceOption | src/proc/temporal-filter.cpp:238-246 | a value is accepted exactly when it lies in 0..8, and a refusal reports the value cast to `int`; an accepted value becomes the truncated mode with its row loaded and empty buffers, and every other field, the frame index included, is unchanged |
| TemporalFilter.AfterSetAlphaOption | src/proc/temporal-filter.cpp:250-259 | a value is accepted exactly when it lies in the option's range [0, 1], and a refusal reports it; an accepted value is stored as alpha, resets the frame index and both buffers, and nothing else changes |
| TemporalFilter.AfterSetDeltaOption | src/proc/temporal-filter.cpp:267-274 | a value is accepted exactly when it lies in 1..100, and a refusal reports that value; an accepted value is stored truncated, in 1..100, with the frame index 0 and empty buffers, and nothing else changes |
| TemporalFilter.AfterUpdateConfiguration | src/proc/temporal-filter.cpp:340-367 | the same profile changes nothing; a new profile becomes current, bpp is 4 for disparity and 2 otherwise, width and height are the profile's, stride is width * bpp, pixels is width * height, both buffers are pixels * bpp zero bytes, and no other field changes |
| TemporalFilter.Initial | src/proc/temporal-filter.cpp:213-219 | the initializer list sets mode 3, alpha 0.4, delta 20, no profile and zero geometry |
| TemporalFilter.Constructed | src/proc/temporal-filter.cpp:307-309 | after the constructor's calls of the three handlers with the defaults, the mode is 3 with row 3 loaded, delta is 20, alpha is 0.4, geometry is zero, buffers are empty, the frame index is 0, the invariant holds and the option values are in range |
| TemporalFilter.StepPreservesInv | src/proc/temporal-filter.cpp:238-367 | every entry point keeps the map equal to the mode's row and the geometry consistent with the profile |
| TemporalFilter.RunPreservesInv | src/proc/temporal-filter.cpp:238-382 | any sequence of option values and frames keeps that invariant |
| TemporalFilter.RunKeepsParamsInRange | src/proc/temporal-filter.cpp:196-211 | no sequence of calls moves the mode out of 0..8, alpha out of [0, 1] or delta out of 1..100 |
| TemporalFilter.Reachable | src/proc/temporal-filter.cpp:307-309 | every state reached from construction through the modelled entry points has its mode's row loaded, consistent geometry, and option values in range |
| TemporalFilter.UpdateConfigurationIdempotent | src/proc/temporal-filter.cpp:342 | feeding the same frame twice is the same as feeding it once |
| TemporalFilter.ReconfigurationForgetsFrameState | src/proc/temporal-filter.cpp:342-365 | on a profile change the result does not depend on the old geometry or the old buffers |
| TemporalFilter.RefusedOptionChangesNothing | src/proc/temporal-filter.cpp:238-274 | a value refused by any of the three options leaves every field as it was |
| TemporalFilter.SetPersistenceIdempotent | src/proc/temporal-filter.cpp:312-319 | setting an accepted persistence value twice is the same as setting it once |
| TemporalFilter.AcceptedOptionEmptiesBuffers | src/proc/temporal-filter.cpp:317-337 | every option value that passes its range check leaves both buffers empty |
| TemporalFilter.SameProfileAfterOptionKeepsBuffersEmpty | src/proc/temporal-filter.cpp:342 | after an option value that passes its range check, a frame of the same profile leaves both buffers empty while the geometry still counts pixels * bpp bytes |
| TemporalFilter.ActiveMapCountsValidFrames | src/proc/temporal-filter.cpp:378-382 | in a loaded state of an all-or-nothing mode, the active map accepts exactly the histories with enough valid frames |
| TemporalFilter.TemporalFilter.constructor | src/proc/temporal-filter.cpp:213-219 | the constructed object satisfies the invariant and its fields are those of `Constructed()` (lines 307-309) |
| TemporalFilter.TemporalFilter.FillMap | src/proc/temporal-filter.cpp:380 | `fill(v)` sets all 256 map entries to v |
| TemporalFilter.TemporalFilter.CopyRow | src/proc/temporal-filter.cpp:381 | copy assignment leaves the map equal to the row |
| TemporalFilter.TemporalFilter.RecalcPersistenceMap | src/proc/temporal-filter.cpp:378-382 | the map array ends equal to the current mode's row, and the fields change as `AfterRecalcPersistenceMap` says |
| TemporalFilter.TemporalFilter.OnSetPersistenceControl | src/proc/temporal-filter.cpp:312-319 | the fields change as `AfterOnSetPersistenceControl` says, and the invariant holds afterwards |
| TemporalFilter.TemporalFilter.OnSetAlpha | src/proc/temporal-filter.cpp:321-329 | the fields change as `AfterOnSetAlpha` says and the invariant is kept |
| TemporalFilter.TemporalFilter.OnSetDelta | src/proc/temporal-filter.cpp:331-338 | the fields change as `AfterOnSetDelta` says and the invariant is kept |
| TemporalFilter.TemporalFilter.SetPersistenceOption | src/proc/temporal-filter.cpp:238-246 | an out-of-range value is rejected and changes nothing; otherwise the fields become those of `AfterSetPersistenceOption` |
| TemporalFilter.TemporalFilter.SetAlphaOption | src/proc/temporal-filter.cpp:250-259 | a value outside [0, 1] is rejected and changes nothing; otherwise the fields become those of `AfterSetAlphaOption` |
| TemporalFilter.TemporalFilter.SetDeltaOption | src/proc/temporal-filter.cpp:267-274 | an out-of-range value is rejected and changes nothing; otherwise the fields become those of `AfterSetDeltaOption` |
| TemporalFilter.TemporalFilter.UpdateConfiguration | src/proc/temporal-filter.cpp:340-367 | the fields change as `AfterUpdateConfiguration` says and the invariant is kept |

## Left out

- `temp_jw_smooth` and the whole frame callback (lines 279-305) are left
  out: composite framesets, `prepare_target_frame` with its `memmove`, frame
  allocation and `frame_ready`. This is framework I/O, and the smoothing
  routine's body is in `temporal-filter.h`, which is not part of this
  model. Only the kind of frame it dispatches on is kept (`extension` and
  `bpp`). The modelled calls (`Step`, `Run`) therefore have no per-frame
  smoothing step: whatever it does to `_cur_frame_index` and the two
  buffers is outside `Reachable`.
- `_one_minus_alpha` and all float arithmetic are left out. Alpha is an
  opaque `real`, and 0.4f is the real 0.4.
- Option registration, the step values and the mode description strings
  (lines 221-237, 248, 276-277) are settings glue.
- `is_valid` and `ptr_option` come from `option.h`, which is not part of this
  model. Only the range test [min, max] is modelled. A non-integral value in
  range is therefore accepted and truncated, and the step test is left out.
- TemporalFilter.AfterSetAlphaOption: the refusal of a value outside [0, 1]
  stands for the option object's own range check. That check lives in
  `option.h`, which is not part of this model; the alpha handler at lines
  256-259 checks nothing itself.
- `TemporalFilter.AfterOnSetDelta` and `TemporalFilter.TemporalFilter.OnSetDelta`
  require a value in 0..255. The source takes any float, but a cast of an
  out-of-range float to `uint8_t` is undefined in C++, and both callers
  (the constructor and the checked handler) pass values in 1..100.
- The mutex (lines 281, 314, 323, 333) is left out. The model is
  sequential.
- The extrinsics registration (lines 347-349) and the clone of the target
  profile (line 345) are foreign calls. Width and height are taken to be
  those of the frame's own profile, which the clone copies.
- Arithmetic overflow of `size_t` in `width * height * bpp` is left out;
  integers are unbounded.
- `_cur_frame_index` and `_persistence_map` are declared in
  `temporal-filter.h`, which is not part of this model, so their initial
  values are unknown. `Initial` takes both as zero. The constructor's calls
  to `on_set_persistence_control` at line 307 and `on_set_delta` at line 308
  overwrite them in any case.
- `TemporalFilter.TemporalFilter.Valid` does not repeat that the map holds
  the mode's row. Each method instead ensures its fields are exactly those
  of its `After...` function, and `TemporalFilter.Reachable` proves the map
  is loaded in every state reached through the modelled entry points.
- The hardware test `unit-tests/algo/d2rgb/test-frame-drop.py` drives a
  real device and is not modelled.
