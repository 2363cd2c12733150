# Facepipe Bridge import path, modelled in Dafny

Facepipe Bridge is a Blender add-on. It imports a CSV export of facial-tracking
blend-shape weights as a shape-key animation. This project models the data path
of its import operator (`__init__.py`):

- **Channel names** (`names.dfy`, `strings.dfy`). Four names (`jawLeft`,
  `jawRight`, `mouthLeft`, `mouthRight`) are kept verbatim. Every other name gets
  each `"Left"` replaced by `"_L"` and then each `"Right"` replaced by `"_R"`.
  `Strings.Replace` follows Python's `str.replace`: one pass, left to right,
  non-overlapping. It is proved equal to an independent definition built from
  models of `str.split` and `str.join`, `new.join(s.split(old))`. Both copies
  of the per-name rule are modelled: the loop that normalises the header, and the loop in `create_shape_keys` that
  creates `"Basis"` and then normalises every name a second time.
- **Rate estimator** (`fps.dfy`). It takes the last field of every row, header
  included, and parses it. Fields that do not parse are skipped. The result is
  the mean of the values that parsed, or `None`. An empty row raises, because
  only the parse failure is caught.
- **Keyframe table** (`table.dfy`). For every channel `i` (outer loop) and data
  row `j` (inner loop), the builder reads `row[i]`, parses it, looks up the shape
  key by its once-normalised name, and keyframes the value at frame `j + 1`. The
  first iteration that raises decides the error (index, value or key error).
  Otherwise the keyframes form a map from (channel, frame) to value, and a later
  channel with the same name overwrites an earlier one.
- **Rescaler** (`bake.dfy`). It copies the action (a class whose f-curves own
  arrays of keyframes) and renames the copy `name + "_baked"`. In the copy, it
  multiplies the x coordinate of every keyframe point and of both handles by
  `scene_fps / average_fps`, in place.
- **Import guard** (`importer.dfy`). `execute` cancels when the rate is `None`,
  before the table is read or anything is created.

`float(...)` is the parameter `parse: string -> Option<real>`. Numbers are
`real`, so means and scale factors are exact.

The code does not have some behaviour a reader might expect from the tool's
description, and this model follows the code:

- The trailing rate column is not dropped. It becomes a channel like any other
  (`Importer.EyeBlinkKeys`).
- No rate appears in any action name.
- No check rejects a non-positive rate. The rescaler only needs a non-zero
  rate, so that it can divide.

## Model

| member | source | states |
|---|---|---|
| `Strings.ReplaceIsJoinOfSplit` | __init__.py:56 | the replacement scan equals `rep.join(s.split(pat))`, an independent split/join definition of the same replacement |
| `Strings.ReplaceAbsent` | __init__.py:56 | a string in which the pattern does not occur is returned unchanged |
| `Strings.ReplaceFirst` | __init__.py:56 | after a prefix without the pattern's first character, one occurrence is replaced and scanning resumes after it (non-overlapping) |
| `ShapeKeyNames.NormalizeHeader` | __init__.py:50-57 | the header loop yields one name per header field, entry `k` being the per-name rule applied to field `k` |
| `ShapeKeyNames.CreateShapeKeys` | __init__.py:39-46 | the keys created are "Basis" first, then each given name normalised again, in order: `len(names) + 1` keys |
| `ShapeKeyNames.NormalizeAllAt` | __init__.py:52-57 | normalising a name list keeps its length and order, entry by entry |
| `ShapeKeyNames.ExceptionsAreFixed` | __init__.py:42-43 | the four exception names survive one and two rounds of normalisation |
| `ShapeKeyNames.NormalizeUnmarked` | __init__.py:53-57 | a name containing neither "Left" nor "Right" is unchanged |
| `ShapeKeyNames.NormalizeWithoutCapitals` | __init__.py:53-57 | a name with no 'L' and no 'R' is unchanged |
| `ShapeKeyNames.NormalizeOneLeft` | __init__.py:56 | in a non-exception name whose only capital 'L' or 'R' is one "Left", that "Left" becomes "_L" wherever it stands, and nothing else changes |
| `ShapeKeyNames.NormalizeOneRight` | __init__.py:56 | in a non-exception name whose only capital 'L' or 'R' is one "Right", that "Right" becomes "_R" wherever it stands, and nothing else changes |
| `ShapeKeyNames.NormalizeMarkedTail` | __init__.py:56 | a non-exception name made of a part with no capital 'L' and no 'R', followed by the "_L" or "_R" the rule writes, is already normal (other names ending in "_L", such as "aLeft_L", are not) |
| `ShapeKeyNames.NormalizeBrowLeftDown` | __init__.py:56 | "browLeftDown" becomes "brow_LDown": the substitution is not anchored to the end |
| `ShapeKeyNames.NormalizeNotIdempotent` | __init__.py:45 | the rule is not idempotent: "LLefteft" becomes "L_Left", which becomes "L__L" |
| `ShapeKeyNames.KeysMatchLookupIff` | __init__.py:59 | the created keys after "Basis" equal the once-normalised lookup names iff the rule is idempotent on every once-normalised name |
| `ShapeKeyNames.NormalizeEyeBlinkHeader` | __init__.py:52-57 | `["eyeBlinkLeft","eyeBlinkRight","fps"]` normalises to `["eyeBlink_L","eyeBlink_R","fps"]`, which a second round leaves unchanged |
| `FpsEstimate.CalculateAverageFps` | __init__.py:22-37 | the loop and the mean compute `AverageFps`: an error at the first empty row, otherwise the mean of the parsed last fields, or `None` |
| `FpsEstimate.FirstEmptyRow` | __init__.py:28 | the reported row is empty and every row before it has a last field |
| `FpsEstimate.ParsedRatesMembers` | __init__.py:26-31 | a value is collected iff some row's last field, header included, parses to it |
| `FpsEstimate.ParsedRatesCountAndSum` | __init__.py:26-34 | each row whose last field parses, header included, contributes once: the collected values number as many as those rows and add up to their total, both counted row by row |
| `FpsEstimate.AverageFpsIsRatio` | __init__.py:33-37 | when no row is empty, the estimate is the total of the parsing last fields divided by their count, or `None` when the count is 0 |
| `FpsEstimate.NoRateIff` | __init__.py:33-37 | the estimate is `None` iff no row is empty and no row's last field parses |
| `FpsEstimate.MeanBounds` | __init__.py:33-35 | the mean of values within [lo, hi] lies within [lo, hi] |
| `FpsEstimate.PositiveRatesGivePositiveMean` | __init__.py:34 | if every last field that parses is positive, a non-`None` estimate is positive, so the later division is defined |
| `FpsEstimate.MixedTrailingColumn` | __init__.py:26-35 | last fields "x", "30", "x", "30.5", "abc" give 30.25; the unparsable ones, the header's included, are skipped |
| `FpsEstimate.EmptyRowRaises` | __init__.py:28-30 | an empty row raises even after rows that parsed: only the parse failure is caught |
| `KeyframeTable.BuildTable` | __init__.py:68-75 | the nested loops succeed iff every (channel, row) iteration succeeds, and then yield `Fill`; otherwise the error is that of the first failing iteration in loop order |
| `KeyframeTable.CreateShapeKeyAction` | __init__.py:48-75 | on an empty table, the header read raises; otherwise the keys are "Basis" plus the doubly-normalised header, and the keyframes or the first error are those of `BuildTable` over the once-normalised names and the data rows |
| `KeyframeTable.ColumnContents` | __init__.py:69-75 | channel `i` writes exactly frames 1 to `len(rows) - 1`, with frame `j + 1` holding row `j`'s value |
| `KeyframeTable.FillSlots` | __init__.py:68-75 | a keyframe exists at (c, f) iff `c` is a channel name and `1 <= f <= ` number of data rows |
| `KeyframeTable.FillLastWins` | __init__.py:68-75 | for duplicate names the later channel's sample is the one kept |
| `KeyframeTable.IdempotentNamesAreKeys` | __init__.py:39-46 | when the rule is idempotent on every name, each name is among the keys `create_shape_keys` creates for it |
| `KeyframeTable.IdempotentNamesAllFound` | __init__.py:73 | when the rule is idempotent on every name, every name is among the created keys, no iteration raises a key error, and the build fails only for short rows or non-numeric fields |
| `KeyframeTable.DoubleNormalizationLosesKey` | __init__.py:73 | a header "LLefteft" is looked up as "L_Left" but created as "L__L", so a numeric first row raises a key error |
| `Bake.Action.Copy` | __init__.py:78 | the copy is a fresh action with fresh f-curves and fresh keyframe arrays holding the same data paths and keyframes, curve by curve |
| `Bake.BakeActionToSceneFps` | __init__.py:77-89 | a fresh action named `name + "_baked"` whose f-curves and keyframe arrays are fresh (shared with nothing), with the same curves in order; each keyframe's three x values are scaled by `sceneFps / averageFps` and everything else is kept; the source action is untouched |
| `Bake.RescaleRoundTrip` | __init__.py:84-86 | baking from a to s and then from s to a restores every keyframe exactly |
| `Bake.RescaleCompose` | __init__.py:84-86 | two bakes in a row equal one bake by the product of the factors |
| `Bake.RescaleKeepsOrder` | __init__.py:84 | under a positive factor, the rescaled frames strictly increase exactly when the original frames do |
| `Bake.RescaleKeepsHandles` | __init__.py:85-86 | under a positive factor, each rescaled keyframe lies between its handles in time exactly when the original does |
| `Bake.RescaleKeepsShape` | __init__.py:84-86 | with positive rates the bake preserves frame order and handle bracketing, both ways |
| `Bake.ThirtyToTwentyFour` | __init__.py:84 | from 30 to 24 fps, frame 10 maps to frame 8 |
| `Bake.ThirtyToSixty` | __init__.py:84 | from 30 to 60 fps, frames 1 and 2 map to 2 and 4 |
| `Importer.Execute` | __init__.py:108-119 | cancels iff the estimate is `None`; an estimator error propagates; with a rate, the header row exists and the import is built iff every (channel, row) iteration succeeds, holding the rate, the keys and `Fill`'s keyframes; otherwise it raises the first failing iteration's error |
| `Importer.EyeBlinkRate` | __init__.py:22-37 | the three-column example table's rate is 30: the header's "fps" does not parse |
| `Importer.EyeBlinkKeys` | __init__.py:48-59 | the three-column example table has three channels, the rate column included, and keys "Basis" plus those three |
| `Importer.EyeBlinkTable` | __init__.py:68-75 | the three-column example table keyframes 0.1/0.5, 0.2/0.6 and 30/30 at frames 1/2 |

## Left out

- File opening and `csv.reader` quoting (`__init__.py:16-20`, `__init__.py:23-24`) are I/O through a library. Rows are given already split. Both reads of the file are assumed to see the same rows.
- `float(...)` is a parameter that may fail. IEEE parsing, rounding and the float sum are not modelled, so means and scale factors are exact reals.
- The Blender calls are foreign code:
  - `shape_key_add`'s suffixing of duplicate names with `.001` and its truncation of long names: a lookup succeeds when the full name is among the created keys, so a name Blender would truncate is found in the model but raises `KeyError` in Blender;
  - the shape-key slider range that may clamp `shape_key.value`;
  - the handle positions and interpolation that `keyframe_insert` chooses: handles are opaque inputs of the rescaler;
  - `animation_data_create`, the action assignments, and `use_fake_user` (lines 61-66, 88, 124);
  - which action receives the keyframes: `ShapeKeyAction` holds the created keys and the keyframes inserted through them (line 75) and no action name. The action named `"CSV_Shape_Key_Action"` (line 64) goes to the object's animation data (line 66). The bake (line 123) reads the action on the shape-key datablock, which Blender creates and names when the keyframes are inserted;
  - Blender's unique-name and name-length rules when an action is copied and renamed.
- The operator class, its error report, the temporary cube (`__init__.py:116-118`, `__init__.py:126-128`), the menu entry and `register`/`unregister` (`__init__.py:133-145`) are host plumbing.
- Importer.Execute: stops after building the shape keys and keyframes. The scene rate `fps / fps_base` (line 122) is read from Blender's scene and is only the parameter `sceneFps` of `Bake.BakeActionToSceneFps`, which models the bake call at line 123 on its own; the assignment of its result at line 124 is left out with the other action assignments. Blender builds the action's keyframes, so their handles are not known to the model.
- Importer.Execute: a `Built` outcome does not promise that the bake can run. A table with only a header row is `Built` with no keyframes; no `keyframe_insert` then creates animation data on the shape keys, so `temp_cube.data.shape_keys.animation_data.action` at line 123 would raise `AttributeError` on `None`, which the model does not show.
- Bake.BakeActionToSceneFps: requires `averageFps != 0`. The code has no guard. It divides at line 84 and raises `ZeroDivisionError` on the first keyframe when the rate is 0.
