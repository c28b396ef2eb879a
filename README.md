# Nitrate and cancer-rate map: classification and hexbin accumulation

This project models the part of the nitrates/cancer web map (`js/main.js`)
that has logic of its own. Everything else in that file is map, layer and
DOM plumbing, or calls into libraries.

- **Class breaks** (`getClassBreaks`). The census tracts' cancer rates
  (`canrate`) are collected in layer order. `ss.ckmeans(values, 5)` groups
  them into clusters, and each cluster becomes a `[low, high]` break: its first
  and last element. The clustering library is not modelled. Its result is an
  input, described by `IsCkmeansOf`: one to five non-empty sorted clusters,
  ascending from one cluster to the next, that together hold exactly the
  collected values.
- **Threshold classifier** (`getColor`). This is a first-match scan over the
  upper bounds of five classes. It returns the palette colour of the first
  class whose upper bound is at least the value. It returns `undefined`
  (`None`) when the value lies above the fifth bound. With fewer than five
  breaks, reading the missing break throws a TypeError, modelled as
  `Err(MissingBreak(n))`.
- **Legend swatches** (`drawLegend`). Each class's swatch is coloured with
  `getColor(breaks[i][0], breaks)`.
- **Hexbin accumulation** (`interpolateCancerRates`,
  `interpolateNitrateRates`). Each interpolated hexbin's property is pushed
  onto a module-level array that is never cleared. This is modelled as a class
  with two `seq<real>` fields. The hexbins that `turf.interpolate` returns are
  an input.

Values are `real`: the code only compares and copies them.

Modules: `Wrappers` (Option, Result), `Classification` (`getColor`, palette,
legend), `ClassBreaks` (`getClassBreaks` and its link to the classifier),
`Hexbins` (the accumulation arrays).

## Model

| member | source | states |
|---|---|---|
| Classification.Scan | js/main.js:277-296 | From class k on: the result is the first class whose upper bound is at least d. It is no class only when there are at least five breaks and d exceeds all the remaining ones. It faults, naming the missing index, only when the scan runs past the last of fewer than five breaks. |
| Classification.ClassOf | js/main.js:274-297 | Class i is returned exactly when i is the smallest index with d <= breaks[i][1]. No class is returned exactly when d exceeds all five upper bounds. A fault happens exactly when there are fewer than five breaks and d exceeds all of them. |
| Classification.GetColor | js/main.js:274-297 | The result is Palette[i] exactly when class i is the first match (the palette entries are distinct, so the colour identifies the class). It is undefined exactly above the fifth upper bound, and it faults exactly as ClassOf does. |
| Classification.ColorIgnoresLowerBounds | js/main.js:277-293 | Two break lists with equal lengths and equal upper bounds give the same class and colour for every value. The lower bounds never matter. |
| Classification.ClassOfMonotone | js/main.js:277-294 | If d1 <= d2 and d2 is classified without a fault, then d1 is also classified without a fault. If d2 gets class j, d1 gets a class i <= j. |
| Classification.FiveBreaksNeverFault | js/main.js:277-293 | With at least five breaks, getColor never throws. ckmeans(values, 5) supplies five breaks unless all rates are equal. For any number of clusters, ClassBreaks.TractColourMatchesLegendRange rules out a fault for every tract's rate. |
| Classification.ValueInRangeGetsClass | js/main.js:277-294 | A value at or below the upper bound of class i (i < 5) gets a class, and that class is at most i. |
| Classification.SwatchOfWellFormed | js/main.js:317-320 | If every break has low <= high, the legend's getColor(breaks[i][0], breaks) never throws. |
| Classification.SwatchOfSeparated | js/main.js:317-320 | If each class starts strictly above the previous class's upper bound, swatch i gets the i-th colour. A sixth or later break would get no colour. |
| Classification.SwatchOfAscending | js/main.js:317-320 | For well-formed, ascending breaks (ties allowed, as ckmeans may produce), swatch i (0 < i < 5) gets the i-th colour exactly when class i starts strictly above class i-1's upper bound. When the two touch, the swatch shows an earlier class's colour. |
| Classification.LegendSwatches | js/main.js:317-328 | The legend loop makes one swatch per break, in order, each getColor of the break's lower bound. It fails exactly when one of those calls throws. It never fails for well-formed breaks. For separated breaks the swatches are the palette in order. |
| ClassBreaks.CollectRates | js/main.js:250-258 | values holds one canrate per tract, in layer order. |
| ClassBreaks.BreaksOf | js/main.js:263-266 | There is one break per cluster, in cluster order: low is the cluster's first element and high its last. For ascending clusters each break has low <= high, and each break starts at or above the previous break's high. |
| ClassBreaks.GetClassBreaks | js/main.js:247-271 | Given ckmeans output for the collected rates: there are one to five breaks, each a non-empty range, ascending, from the first break's low up to the last break's high, and every tract's rate lies within that span. |
| ClassBreaks.RateInSomeBreak | js/main.js:260-266 | Every tract's rate belongs to some cluster, and it lies inside that cluster's [low, high]. |
| ClassBreaks.RateWithinBreaks | js/main.js:260-266 | Every tract's rate lies between breaks[0][0] and the last break's high. |
| ClassBreaks.TractColourMatchesLegendRange | js/main.js:168-176 | The fill colour drawCensusTracts gives each tract is always a palette colour: never undefined, never a TypeError, for one to five clusters. It is the colour of a class whose [low, high] contains the tract's rate. |
| Hexbins.PropertyValues | js/main.js:382-385 | There is one value per hexbin, in feature order: the hexbin's own property value. |
| Hexbins.PropertyValuesAppend | js/main.js:382-385 | Reading two batches of hexbins yields the first batch's values followed by the second's. |
| Hexbins.InterpolatedRates.constructor | js/main.js:25-28 | Both accumulation arrays start empty. |
| Hexbins.InterpolatedRates.InterpolateCancerRates | js/main.js:382-388 | The cancer array becomes its old contents followed by one canrate per hexbin, in order. It grows by the hexbin count, and the nitrate array is unchanged. |
| Hexbins.InterpolatedRates.InterpolateNitrateRates | js/main.js:433-439 | The nitrate array becomes its old contents followed by one nitr_ran per hexbin, in order. It grows by the hexbin count, and the cancer array is unchanged. |
| Hexbins.InterpolateCancerTwice | js/main.js:25-28 | Interpolating the same grid twice leaves every value in the array twice. For a non-empty grid the result differs from a single run, so the accumulation is not idempotent. |

## Left out

- `ss.ckmeans`: the optimal one-dimensional clustering is a library call whose code is not part of this model. Its output is a parameter constrained by `IsCkmeansOf`. Its own failure, thrown when there are fewer values than requested classes, is not modelled.
- `turf.interpolate`, `turf.point`, `turf.polygon`, `turf.centroid` and `turf.featureCollection` are library calls. The interpolated hexbins are an input to the accumulation methods, each carrying the interpolated property as `turf.interpolate` writes it.
- ClassBreaks.GetClassBreaks: `cluster.pop()` also shortens each cluster array that ckmeans returned. Those arrays are local and discarded, so the mutation is not modelled.
- Tract attributes other than `canrate` and hexbin geometry are not represented. Non-numeric, `NaN` or missing values are outside the model because every value is a real.
- The `getJSON` loading, the Leaflet layers, styles, popups, the layer list and the legend's HTML are I/O and rendering. The two loading callbacks run in an unordered asynchronous sequence.
- The `wellPointsArray` and `censusTractsArray` accumulation loops (js/main.js:119-144, js/main.js:195-214) only feed `turf.featureCollection` and are not modelled.
- Inverse-distance weighting, the spatial join, regression, residual bands and parameter validation do not appear in `js/main.js`, so they are not modelled. The interpolation parameters are hard-coded (weight 2, cell size 10).
