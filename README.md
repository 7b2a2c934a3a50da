# ConstraintImageView, modelled in Dafny

`ConstraintImageView` is an Android image view that sizes itself to a fixed
width-over-height ratio. It has two configuration fields:

- `constraintBy` says which measured dimension is authoritative. The values are
  0 (width, the default), 1 (height), 2 (the smaller of the two) and 3 (the
  larger of the two).
- `constraintRatio` is the ratio. It defaults to 1. It is read once, when the
  view is created, from a `"W:H"` attribute string.

On every measurement pass the view does three things:

1. It resolves "smaller" or "larger" to width or height by comparing the
   measured width and height. Ties go to height.
2. It writes that choice back into `constraintBy`, so later passes never
   resolve again.
3. It keeps the authoritative dimension and derives the other one from the
   ratio, truncated to an integer.

The project has three files:

- `wrappers.dfy`: the `Option` type.
- `ratio_attribute.dfy` (module `RatioAttribute`): parsing the ratio string,
  written as pure functions. It covers the full-string match of `\d+:\d+`, as
  an executable matcher proved equal to a reference predicate. It also covers
  Kotlin's `substringBefore` and `substringAfter`, the decimal value of a digit
  string, and the round trip from rendered numbers back to the ratio.
- `constraint_image_view.dfy` (module `ConstraintImageView`): the axis
  constants, the specification functions `ResolveAxis` and `MeasuredSize` with
  lemmas about them, and the class `ConstraintImageView`. The class has the two
  mutable fields, a constructor that reads the attributes, and `Measure`, which
  overwrites `constraintBy` in place and returns the final pair.

The ratio is the exact quotient `num / den` of the two numbers in the string.
Truncation of a non-negative quotient is Dafny's `/` on naturals.

### Notes on the code

- The comment at ConstraintImageView.kt:38-39 says invalid input keeps the
  ratio 1:1. Lines 44-48, however, divide whenever the pattern matches, so
  `"16:0"` is assigned `16f / 0f`, which is Infinity
  (`ParseZeroDenominator`). In the same way, `"0:5"` gives the ratio 0.
- Lines 62 and 69 overwrite `constraintBy`, so the first measurement pass
  decides the axis for good (`ResolveIsSticky`,
  `ConstraintImageView.ConstraintImageView.Measure`,
  `ConstraintImageView.MeasureTwice`).

## Model

| member | source | states |
|---|---|---|
| `RatioAttribute.IndexOf` | constraintimageview/src/main/java/com/samvd/constraintimageview/ConstraintImageView.kt:47-48 | The delimiter lookup behind `substringBefore` and `substringAfter`. A found index holds the character and no earlier position does. None means the character does not occur. |
| `RatioAttribute.SubstringBefore` | constraintimageview/src/main/java/com/samvd/constraintimageview/ConstraintImageView.kt:47 | The result is the longest prefix of the string free of the delimiter. It is followed by the delimiter unless it is the whole string. |
| `RatioAttribute.SubstringAfter` | constraintimageview/src/main/java/com/samvd/constraintimageview/ConstraintImageView.kt:47-48 | With a delimiter present, the string is the part before, then the delimiter, then the result. Without one, the result is the whole string. |
| `RatioAttribute.MatchesRatio` | constraintimageview/src/main/java/com/samvd/constraintimageview/ConstraintImageView.kt:43-44 | The matcher accepts a string exactly when some colon splits all of it into a non-empty digit run, the colon and a non-empty digit run. |
| `RatioAttribute.ParseRatio` | constraintimageview/src/main/java/com/samvd/constraintimageview/ConstraintImageView.kt:43-48 | A ratio is produced if and only if the whole string matches `\d+:\d+`. For every such split it is the number before the colon over the number after it. |
| `RatioAttribute.IsBlank` | constraintimageview/src/main/java/com/samvd/constraintimageview/ConstraintImageView.kt:42 | Kotlin's `isBlank`, with `Char.isWhitespace` as on the JVM: the empty string is blank, and a blank string holds neither a digit nor a colon. |
| `RatioAttribute.BlankNeverMatches` | constraintimageview/src/main/java/com/samvd/constraintimageview/ConstraintImageView.kt:42-44 | A blank string never matches the pattern. The blank test therefore rejects nothing the regex would accept. |
| `RatioAttribute.ConfiguredRatio` | constraintimageview/src/main/java/com/samvd/constraintimageview/ConstraintImageView.kt:41-53 | With no attribute, or one that does not match (blank included), the ratio is the default 1. A matching attribute gives its parsed ratio. |
| `RatioAttribute.ParseJoined` | constraintimageview/src/main/java/com/samvd/constraintimageview/ConstraintImageView.kt:46-48 | Any two digit runs joined by a colon parse to the value of the first over the value of the second. |
| `RatioAttribute.DecimalValue` | constraintimageview/src/main/java/com/samvd/constraintimageview/ConstraintImageView.kt:47-48 | The value of a digit string as `toFloat` reads it, without rounding. Leading zeros are allowed. The value is 0 exactly when every digit is 0. `Decimal` inverts it (`DecimalValueOfDecimal`). |
| `RatioAttribute.LeadingZero` | constraintimageview/src/main/java/com/samvd/constraintimageview/ConstraintImageView.kt:47-48 | A leading zero does not change the value of a digit string, as `toFloat` ignores it. |
| `RatioAttribute.DecimalValueOfDecimal` | constraintimageview/src/main/java/com/samvd/constraintimageview/ConstraintImageView.kt:47-48 | Reading back the decimal rendering of n, as `toFloat` reads a digit string but without rounding, gives n. |
| `RatioAttribute.ParseRenderedRatio` | constraintimageview/src/main/java/com/samvd/constraintimageview/ConstraintImageView.kt:43-48 | Round trip: the renderings of n and d joined by `:` parse back to exactly `Ratio(n, d)`. |
| `RatioAttribute.ParseSixteenToNine` | constraintimageview/src/main/java/com/samvd/constraintimageview/ConstraintImageView.kt:43-48 | `"16:9"` parses to 16/9. |
| `RatioAttribute.ParseLeadingZeros` | constraintimageview/src/main/java/com/samvd/constraintimageview/ConstraintImageView.kt:43-48 | `"007:3"` parses to 7/3, because leading zeros are digits. |
| `RatioAttribute.ParseZeroDenominator` | constraintimageview/src/main/java/com/samvd/constraintimageview/ConstraintImageView.kt:44-48 | `"16:0"` matches, so it is accepted with denominator 0 and does not fall back to the default. |
| `RatioAttribute.ParseRejectExamples` | constraintimageview/src/main/java/com/samvd/constraintimageview/ConstraintImageView.kt:43-44 | `"abc"`, `"16-9"` and `"16:9:1"` are rejected. |
| `ConstraintImageView.ResolveAxis` | constraintimageview/src/main/java/com/samvd/constraintimageview/ConstraintImageView.kt:61-74 | Any value in 0..3 resolves to width or height. "Smaller" gives width if and only if width < height, and "larger" gives width if and only if width > height, so ties go to height. Every other value, including those outside 0..3, stays as it is. The result is never "smaller" or "larger". |
| `ConstraintImageView.ResolveIsSticky` | constraintimageview/src/main/java/com/samvd/constraintimageview/ConstraintImageView.kt:61-74 | Resolving an already resolved axis, with any other dimensions, changes nothing. |
| `ConstraintImageView.MeasuredSize` | constraintimageview/src/main/java/com/samvd/constraintimageview/ConstraintImageView.kt:75-79 | By width, the width is kept and the height is the truncated quotient width / ratio, meaning h·num ≤ w·den < (h+1)·num. Any other axis keeps the height, and the width is the truncated product height × ratio, meaning w·den ≤ h·num < (w+1)·den. It requires only the part of the ratio that is divided by to be non-zero: the numerator by width, the denominator otherwise. |
| `ConstraintImageView.ZeroDenominatorByWidth` | constraintimageview/src/main/java/com/samvd/constraintimageview/ConstraintImageView.kt:75-76 | With any positive numerator over 0, a pass by width keeps the width and reports height 0, as width / Infinity truncates to 0. |
| `ConstraintImageView.SquareWhenRatioIsOne` | constraintimageview/src/main/java/com/samvd/constraintimageview/ConstraintImageView.kt:75-79 | With ratio 1, the result is a square whose side is the authoritative dimension. |
| `ConstraintImageView.SmallerKeepsShorterSide` | constraintimageview/src/main/java/com/samvd/constraintimageview/ConstraintImageView.kt:61-67 | "Smaller" keeps the width when it is strictly shorter, and otherwise keeps the height. |
| `ConstraintImageView.LargerKeepsLongerSide` | constraintimageview/src/main/java/com/samvd/constraintimageview/ConstraintImageView.kt:68-74 | "Larger" keeps the width when it is strictly longer, and otherwise keeps the height. |
| `ConstraintImageView.MeasureExamples` | constraintimageview/src/main/java/com/samvd/constraintimageview/ConstraintImageView.kt:57-80 | (200, 500) by width with ratio 2 gives (200, 100). (300, 100) by "smaller" with ratio 1 resolves to height and gives (100, 100). |
| `ConstraintImageView.ConstraintImageView.constructor` | constraintimageview/src/main/java/com/samvd/constraintimageview/ConstraintImageView.kt:25-53 | `constraintBy` is the attribute's value, or width when the attribute is absent. The ratio is the configured ratio, which is 1 when the ratio attribute is absent. |
| `ConstraintImageView.ConstraintImageView.Measure` | constraintimageview/src/main/java/com/samvd/constraintimageview/ConstraintImageView.kt:57-80 | The new `constraintBy` is the old one resolved against this pass's dimensions. The returned pair is the measured size for that axis. Nothing else changes. |
| `ConstraintImageView.MeasureTwice` | constraintimageview/src/main/java/com/samvd/constraintimageview/ConstraintImageView.kt:61-74 | Two passes on one view: the second keeps the axis the first chose, whatever it measures. That axis is width or height when the view started from a value in 0..3. |

## Left out

- Android attribute plumbing (`obtainStyledAttributes`, `getInt`, `getString`, `recycle`): the two attribute values are constructor parameters, with `None` for an absent attribute.
- The host measurement protocol: `super.onMeasure` and the measure specs become the measured width and height passed to `Measure`. `setMeasuredDimension` becomes the pair it returns.
- `Float` arithmetic: the ratio is the exact rational `num / den`. For ordinary sizes and ratios, the rounding of the division and of the multiplication can move the truncated result by about one. The gap grows once a number in the string, or the result, exceeds 2^24: `toFloat` rounds the number itself (`"16777217:1"` becomes 16777216), and such `Float` values are spaced more than one apart. The model does not capture any of this.
- ConstraintImageView.ConstraintImageView.Measure: requires the part of the ratio the resolved axis divides by to be non-zero. By width with a zero numerator (`"0:5"`), the view computes width / 0, which is Infinity, or NaN for a zero width. On any other axis with a zero denominator (`"16:0"`), the ratio is Infinity, or NaN for `"0:0"`. `toInt` then saturates or gives 0. Those outcomes are not modelled. The other zero cases are modelled, and they give 0 as the view does.
- ConstraintImageView.MeasuredSize: has the same requires, for the same reason.
- 32-bit `Int` bounds: measured sizes are unbounded naturals. Saturation of `Float.toInt` at `Int.MAX_VALUE` is not modelled.
- Very long numbers: a digit string too large for a `Float` becomes Infinity in the view. In the model every digit string has its exact value.
- RatioAttribute.MatchesRatio: `\d` is taken as the ASCII digits, as in `java.util.regex` on a desktop JVM. Android's ICU-backed regular expressions may also match other Unicode decimal digits, for example `"١٦:٩"`. `toFloat` would then throw, and the handler at lines 49-50 would keep the ratio 1. The model rejects such strings at the match instead, so the final ratio is the same, 1.
- The `NumberFormatException` handler and `logError`: they only log. With ASCII digits the handler cannot be reached, because a run of those digits always converts.
- Drawing and everything else inherited from `ShapeableImageView`, a library outside this model.
