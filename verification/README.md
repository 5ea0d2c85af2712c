# Construction completion tracker

A Dafny model of the logic in `script.js` of a small construction-progress
page. The user declares a number of buildings; for each building they pick
an infrastructure stage (foundation, super-structure, facade, interiors) and
submit. A mocked "image analysis" turns the stage into a fixed completion
percentage. The percentage is stored in the building's slot of a global array,
and the project's total completion is shown as the mean of that array.

Modules:

- `Options`: `Option`, standing for JavaScript's `undefined`.
- `Analysis`: `analyzeImage`. It covers the four select options as a datatype,
  the lookup table, and the function on arbitrary label strings. A lookup in
  the object literal yields one of three things: a table number, a property
  inherited from `Object.prototype`, or `undefined`.
- `Aggregate`: `calculateTotalPercentageOfCompletion`. The `reduce` becomes the
  left fold `Sum`. The division becomes `AverageOf`, which yields `NaN` for an
  empty array and otherwise an exact ratio (total, count) with its value as a
  `real`.
- `FormIds`: the form id `image-form-${i}`, the handler's
  `id.split('-')[2]`, and the array-key to index conversion that
  `completionPercentages[buildingIndex]` performs.
- `Tracker`: the global array as the `array<int>` field of a class. The class
  has the building-count handler (`Reset`), the slot write (`SetCompletion`), the
  average, and the whole per-building click handler (`SubmitBuilding`). The
  object invariant `Valid()` says that every entry is 0 or a stage percentage.
  `Reset` establishes it and every method keeps it, so it holds across any
  sequence of resets and submissions.

Where the doc comments and the code disagree, the model follows the code:

- The doc comment of `analyzeImage` (script.js:108) promises an error for an
  unknown infrastructure type. The code throws nothing. For most unknown
  labels the percentage is `undefined` (`Lookup.Undefined`). For a name that
  the object literal inherits from `Object.prototype`, such as "toString", the
  percentage is that inherited property (`Lookup.Inherited`).
- The doc comment of `calculateTotalPercentageOfCompletion`
  (script.js:146-147) promises an error for an empty array. The code divides
  0 by 0 and shows `"NaN"`, which `AverageOf` models as `Average.NaN`.

## Model

| member | source | states |
|---|---|---|
| `Analysis.InfrastructureType.Percentage` | script.js:121-126 | each stage's percentage is a positive multiple of 25, at most 100 |
| `Analysis.AnalyzeImage` | script.js:119-133 | both the activity and the stage echo the input label; the lookup finds a number exactly when the label is one of the four option labels, and the number is then 25, 50, 75 or 100; it finds an inherited non-number exactly when the label is an `Object.prototype` property name; nothing is thrown |
| `Analysis.AnalyzeUnknown` | script.js:128-132 | a label that is neither an option nor an inherited name gives an undefined percentage, and the label is still echoed twice |
| `Analysis.AnalyzeOption` | script.js:121-126 | foundation, super-structure, facade and interiors map to 25, 50, 75 and 100, and the label comes back as activity and stage |
| `Analysis.LabelInjective` | script.js:121-126 | the four option labels are pairwise distinct, so each label selects exactly one stage |
| `Analysis.FacadeExample` | script.js:110-117 | the documented example: "facade" gives activity "facade", stage "facade" and 75 percent |
| `Aggregate.AverageOf` | script.js:154-158 | the result is NaN exactly for the empty array; otherwise it is the fold's total over the array length |
| `Aggregate.SumBounds` | script.js:156 | the fold of entries in [0,100] lies between 0 and 100 times the length |
| `Aggregate.SumZeros` | script.js:14 | an array freshly filled with zeros sums to 0 |
| `Aggregate.SumUpdate` | script.js:56 | overwriting one slot changes the sum by the new value minus the old one |
| `Aggregate.AverageIsMean` | script.js:154-158 | for a non-empty array the average times the length is the sum of the entries |
| `Aggregate.AverageBounds` | script.js:154-158 | the average of entries in [0,100] lies in [0,100] |
| `Aggregate.AverageOfZeros` | script.js:157 | right after a reset with at least one building, the average is 0 |
| `Aggregate.DocExample` | script.js:149-153 | [80, 90, 100] averages to exactly 90 |
| `Aggregate.HalfFoundationExample` | script.js:154-158 | [25, 0] averages to exactly 12.5 |
| `FormIds.DecimalString` | script.js:21 | the rendered index is non-empty, all digits, has no leading zero, and is one character long exactly for indices below 10 |
| `FormIds.Split` | script.js:45 | splitting always yields at least one piece, and no piece contains the separator |
| `FormIds.JoinSplit` | script.js:45 | joining the pieces of a split with the separator gives the original text back |
| `FormIds.SplitPrefix` | script.js:45 | a separator-free prefix followed by the separator becomes the first piece, and the rest splits on its own |
| `FormIds.SplitWhole` | script.js:45 | text without the separator splits into itself alone |
| `FormIds.FormIndexKey` | script.js:45 | the third piece of the id is defined exactly when the split has more than two pieces |
| `FormIds.IndexOfKey` | script.js:56 | a key addresses an array element exactly when it is a canonical index string |
| `FormIds.DecimalRoundTrip` | script.js:21 | reading back the rendered decimal text of `i` gives `i` |
| `FormIds.CanonicalRoundTrip` | script.js:56 | every canonical index string is the rendered text of its own value |
| `FormIds.FormIdRoundTrip` | script.js:21-45 | the id of form `i` splits into "image", "form" and the text of `i`, and that text addresses array element `i` |
| `Tracker.OptionRecordable` | script.js:121-126 | the percentage of every select option is a value the tracker may store |
| `Tracker.RecordedInRange` | script.js:14-56 | every value the tracker may store, the reset's 0 included, lies in [0,100] |
| `Tracker.CompletionTracker.constructor` | script.js:5 | the tracker starts with an empty array and satisfies its invariant |
| `Tracker.CompletionTracker.Reset` | script.js:14 | after a reset with `n` buildings the array is fresh, has length `n`, holds only zeros, and satisfies the invariant |
| `Tracker.CompletionTracker.SetCompletion` | script.js:56 | slot `i` becomes the new percentage; the length and every other slot are unchanged; the sum moves by the difference; the invariant is kept |
| `Tracker.CompletionTracker.Average` | script.js:154-158 | the result is the exact mean of the current array; it is NaN exactly when there are no buildings, and otherwise lies in [0,100] |
| `Tracker.CompletionTracker.SubmitBuilding` | script.js:41-71 | submitting building `i` with a stage stores that stage's percentage in slot `i` and changes no other slot; it reports the label as activity and stage with the stage's percentage; it returns a project average in [0,100]; the invariant is kept |
| `Tracker.FoundationScenario` | script.js:7-71 | two buildings, the first submitted as foundation, give a project average of 12.5 |

## Left out

- DOM construction and event wiring are not modelled, because they carry no
  state of the model. This covers element lookups, the `innerHTML` templates,
  `appendChild`, the removal of the previous project result and
  `imageForm.reset()`.
- The uploaded image is not modelled. It is read but never used by
  `analyzeImage`.
- The building-count text is not parsed. `Reset` takes `n` as a natural
  number, so `parseInt` is left out. So is the loose comparison
  `i < numBuildings`. For a fractional count such as "2.5", one more form is
  built than the array has slots. For a count such as "1e1", `parseInt` gives
  1 while ten forms are built.
- Tracker.CompletionTracker.Reset: accepts every natural `n`. `new Array(n)`
  throws a RangeError for a negative or non-numeric count and for a count of
  2^32 or more. The model does not have those failures.
- Tracker.CompletionTracker.SetCompletion: requires `i` below the array
  length. For a natural count, forms exist only for indices below it. For a
  larger index JavaScript grows the array, and the model does not. An index
  equal to the length adds one slot; this is the "2.5" case, where the form at
  index 2 writes slot 2 of a 2-slot array. An index past the length also
  leaves holes. With "1e1", building 6 writes slot 5 of a 1-slot array.
- Tracker.CompletionTracker.SetCompletion: requires the stored value to be 0 or
  a stage percentage. The only caller stores `analyzeImage`'s percentage for
  one of the four select options. An unknown label, whose percentage is
  `undefined` or an inherited property, is not stored, because the select
  cannot produce one.
- Analysis.AnalyzeImage: an inherited `Object.prototype` property is modelled
  only as `Lookup.Inherited`. What it is (a function, or the prototype object
  for `__proto__`) is not modelled. The select never sends such a name.
- Aggregate.AverageOf: gives the exact mean (total, count), not the string
  the page shows. Two roundings are left out. First, the division
  `total / length` rounds to an IEEE-754 double. Second, `toFixed(2)` rounds
  that double. The two together can differ from rounding the exact mean. For
  example, 201 foundation buildings out of 5000 give an exact 1.005, which
  rounds to "1.01". The double just below 1.005 is shown as "1.00". The sum
  itself is exact, since it is an integer far below 2^53.
- FormIds.IndexOfKey: the array-index limit of 2^32 - 2 is not modelled.
  Integers are unbounded here.
