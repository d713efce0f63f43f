# House orientation geometry in Dafny

Three small Python scripts estimate which way a house faces. Each one produces a compass bearing (0° = north, clockwise) and one of the eight labels N, NE, E, SE, S, SW, W, NW.

- **`house_orientation.py`**: the user clicks points on a map image.
  - The two-click "vector" workflow takes the bearing from the house front toward the street.
  - The four-click "frontage" workflow builds the two normals of the clicked facade line. It keeps the normal that points more toward the clicked street.
- **`improved_orientation.py`**: geocodes an address and fetches nearby roads. It projects everything to Web Mercator, keeps the road nearest to the house and reports the bearing toward the nearest point on it.
- **`house_orientation_v2.py`**: reads the words of a street map by OCR.
  - The house is the mean position of the words equal to its number.
  - The road is the nearest word longer than four characters.
  - The bearing is that of the vector from the house to the road word.

This project models the geometry and selection logic of the three scripts over the reals and proves what they promise. It has five modules:

- `Plane` (`plane.dfy`): points and vectors, Python's floored `%` on floats, the compass table, and what the model assumes of `atan2` on the axes.
- `Selection` (`selection.dfy`):
  - list comprehensions with a filter;
  - "the first element of smallest key", which both Python's `min(key=...)` and a running-minimum loop with a strict `<` return.
- `HouseOrientation` (`house_orientation.dfy`): the click-driven script. It has the angle normalisation, the bearing and compass helpers, the vector helpers, and both workflows from clicked points to a bearing.
- `ImprovedOrientation` (`improved_orientation.dfy`):
  - the point-to-point bearing and its compass;
  - the nearest-road loop, as an imperative method with loop invariants;
  - the report the script returns.
- `HouseOrientationV2` (`house_orientation_v2.dfy`): the OCR script's bearing and compass, the two word filters, the mean, the nearest-candidate choice, and `find_orientation` with its two error outcomes.

Foreign numerics and services are parameters of the model, not definitions:

- `atan2Deg(y, x)` stands for `degrees(atan2(y, x))`. It is unconstrained, except where a lemma assumes the values on the four half-axes (`Plane.Atan2OnAxes`).
- `hypot` stands for `math.hypot`. It is constrained by `HouseOrientation.IsHypot`: non-negative, zero only at the zero vector, scaling with non-negative factors, and unchanged by a quarter turn.
- `norm` stands for `np.linalg.norm` and is unconstrained. Only its values are compared.
- `ImprovedOrientation.GeoOps` holds three services:
  - the EPSG:4326 → EPSG:3857 projection;
  - shapely's point-to-line distance;
  - shapely's nearest point on a line.

Two degenerate inputs raise no error in the scripts:

- When the two frontage clicks coincide, the script raises no error. `unit` returns (0, 0), every normal becomes (0, 0), and the zero vector's bearing is reported (`HouseOrientation.FacingDegenerate`, `HouseOrientation.WorkflowFrontageDegenerate`).
- When no road is found nearby, the script returns a report with no bearing and the note "No roads found nearby". It does not raise an error (`ImprovedOrientation.NearestRoadBearing`).

## Model

| member | source | states |
|---|---|---|
| `Plane.FloorMod` | house_orientation.py:14 | Python's `a % m` for m > 0 lies in [0, m) and differs from `a` by a whole multiple of m |
| `HouseOrientation.NormalizeAngleDeg` | house_orientation.py:12-17 | the result lies in [0, 360), differs from the input by whole turns, and equals the floored residue, so the `a < 0` correction never fires |
| `HouseOrientation.NormalizeAngleDegCharacterised` | house_orientation.py:12-17 | r is the normalised angle if and only if r is in [0, 360) and differs from the input by whole turns |
| `HouseOrientation.NormalizeAngleDegWholeTurns` | house_orientation.py:12-17 | an angle already in [0, 360), plus any whole number of turns, normalises back to itself |
| `HouseOrientation.NormalizeAngleDegIdempotent` | house_orientation.py:12-17 | normalising twice equals normalising once |
| `HouseOrientation.BearingFromVector` | house_orientation.py:19-30 | the image-plane bearing lies in [0, 360) for every angle atan2 returns |
| `HouseOrientation.BearingFromVectorCardinals` | house_orientation.py:19-30 | with atan2 exact on the axes, up, right, down and left in the image (y down) have bearings 0, 90, 180 and 270 |
| `HouseOrientation.Compass8` | house_orientation.py:32-36 | the label is always one of N, NE, E, SE, S, SW, W, NW |
| `HouseOrientation.Compass8Sector` | house_orientation.py:32-36 | every bearing in [45k − 22.5, 45k + 22.5) gets the label at index k mod 8; each sector includes its lower edge |
| `HouseOrientation.Compass8Examples` | house_orientation.py:32-36 | 22.5 is NE, 0 is N and 359.9 is N |
| `HouseOrientation.Compass8Periodic` | house_orientation.py:35 | adding 360 to a bearing does not change its label |
| `HouseOrientation.Compass8WholeTurns` | house_orientation.py:35 | adding any whole number of turns to a bearing does not change its label |
| `HouseOrientation.Compass8OfNormalized` | house_orientation.py:12-36 | normalising an angle before labelling it does not change the label |
| `HouseOrientation.Midpoint` | house_orientation.py:38-39 | the midpoint is as far from p1 as p2 is from it |
| `HouseOrientation.Subtract` | house_orientation.py:41-42 | p0 plus the difference is p1, and the difference is zero exactly when the points coincide |
| `HouseOrientation.Perp` | house_orientation.py:47-49 | the quarter turn is orthogonal to v, has v's squared length, and is zero exactly when v is |
| `HouseOrientation.PerpTurnsRightToDown` | house_orientation.py:47-49 | the quarter turn is clockwise on screen (y down): right turns into down, which fixes which normal is n_left |
| `HouseOrientation.PerpPerp` | house_orientation.py:47-49 | two quarter turns give −v |
| `HouseOrientation.DotPolarisation` | house_orientation.py:44-45 | dot is symmetric, and four times it is the squared length of u + v minus that of u − v |
| `HouseOrientation.ScaleProperties` | house_orientation.py:51-52 | the dot product of s·v with v is s times v's squared length, and s·v is zero exactly when s or v is |
| `HouseOrientation.DotReversed` | house_orientation.py:44-52 | scaling by −1 negates every dot product |
| `HouseOrientation.HypotReversed` | house_orientation.py:54-56 | reversing a vector keeps its hypot length |
| `HouseOrientation.Unit` | house_orientation.py:54-56 | unit(v) is (0, 0) exactly when v is; otherwise it has length one and is a positive multiple of v |
| `HouseOrientation.UnitIdempotent` | house_orientation.py:54-56 | unit of a unit vector (or of (0, 0)) returns it unchanged |
| `HouseOrientation.UnitReversed` | house_orientation.py:54-56 | unit(−v) is −unit(v) |
| `HouseOrientation.UnitPerp` | house_orientation.py:47-56 | unit(perp(v)) is perp(unit(v)) |
| `HouseOrientation.WorkflowVector` | house_orientation.py:89-95 | the bearing is bearing_from_vector of p1 − p0, so it lies in [0, 360), and the label is compass_8 of that bearing |
| `HouseOrientation.WorkflowVectorTranslation` | house_orientation.py:90-93 | moving both clicks by the same offset leaves the bearing and label unchanged |
| `HouseOrientation.PickFacing` | house_orientation.py:121 | the chosen normal is one of the two, its dot product with the street direction is at least both, and a tie picks n_left |
| `HouseOrientation.ResolveFacing` | house_orientation.py:107-121 | n_left is the quarter turn of f_u, n_right is −n_left, fm and sm are the two midpoints, and n_face is the max-dot choice between n_left and n_right |
| `HouseOrientation.FacingTowardStreet` | house_orientation.py:115-121 | the chosen normal's dot product with the direction to the street is never negative, and is positive unless n_left is perpendicular to that direction |
| `HouseOrientation.FacingTieIsLeft` | house_orientation.py:121 | the two normals tie exactly when the street direction is perpendicular to them, and a tie yields n_left |
| `HouseOrientation.FacingNamingIrrelevant` | house_orientation.py:112-121 | away from a tie, swapping which normal is called left does not change the choice |
| `HouseOrientation.FacingIsFrontageNormal` | house_orientation.py:107-121 | for distinct frontage clicks the chosen normal is perpendicular to the frontage and has length one |
| `HouseOrientation.FacingDegenerate` | house_orientation.py:108-121 | when the frontage clicks coincide, f_u, n_left, n_right and n_face are all (0, 0), and no error is raised |
| `HouseOrientation.WorkflowFrontageDegenerate` | house_orientation.py:107-125 | for coincident frontage clicks the workflow reports the bearing of the zero vector |
| `HouseOrientation.WorkflowFrontage` | house_orientation.py:107-125 | the bearing is bearing_from_vector of the chosen normal n_face, so it lies in [0, 360), and the label is compass_8 of that bearing |
| `HouseOrientation.FrontageFacingDown` | house_orientation.py:107-121 | a horizontal facade whose street midpoint lies lower in the image picks the normal pointing straight down the image |
| `HouseOrientation.FrontageFacingSouth` | house_orientation.py:107-125 | for that facade the frontage workflow reports (180, "S") |
| `Selection.FirstArgMin` | house_orientation_v2.py:45-46 | the index holds a smallest key, and every earlier key is strictly larger |
| `Selection.FirstArgMinUnique` | improved_orientation.py:83-85 | a minimum with only strictly larger keys before it is the index chosen, so ties go to the earliest |
| `Selection.FilterMap` | house_orientation_v2.py:35 | the comprehension is empty exactly when no element passes the filter; each output is the image of a kept input, and each kept input's image appears |
| `Selection.FilterMapAppend` | house_orientation_v2.py:41 | the comprehension keeps input order: filtering a concatenation concatenates the filtered parts |
| `Selection.FilterMapSingle` | house_orientation_v2.py:41 | a single element is kept exactly when the filter holds of it |
| `ImprovedOrientation.BearingFromPointToPoint` | improved_orientation.py:55-59 | the bearing lies in [0, 360) and differs from 90 − θ by whole turns |
| `ImprovedOrientation.BearingFromPointToPointTranslation` | improved_orientation.py:57-59 | translating both points by the same offset leaves the bearing unchanged |
| `ImprovedOrientation.BearingFromPointToPointCardinals` | improved_orientation.py:55-59 | with atan2 exact on the axes, a point due north, east, south or west has bearing 0, 90, 180 or 270 |
| `ImprovedOrientation.BearingToCompass` | improved_orientation.py:61-64 | the label is always one of N..NW |
| `ImprovedOrientation.BearingToCompassAgrees` | improved_orientation.py:61-64 | bearing_to_compass agrees with compass_8 on every bearing |
| `ImprovedOrientation.ProjectRoadAppend` | improved_orientation.py:81 | projecting a road vertex by vertex keeps the vertex order: a joined road projects to the joined projections |
| `ImprovedOrientation.RoadDistancesAppend` | improved_orientation.py:79-82 | the distances are taken road by road in list order: a joined road list gives the joined distance lists |
| `ImprovedOrientation.NearestRoad` | improved_orientation.py:77-85 | no road is chosen exactly when the list is empty; otherwise the chosen road and distance belong to the first road at minimum distance, best_dist is at most every road's distance, and every earlier road is strictly farther |
| `ImprovedOrientation.NearestRoadBearing` | improved_orientation.py:66-97 | with no roads the report has no bearing and the note "No roads found nearby"; otherwise its distance is the loop's minimum, its bearing is from the house to the nearest point of the first nearest road, in [0, 360), with its compass label, and the distance is non-negative whenever the distance service is |
| `HouseOrientationV2.BearingFromVec` | house_orientation_v2.py:6-8 | the bearing lies in [0, 360) and differs from the atan2 angle by whole turns |
| `HouseOrientationV2.BearingFromVecAgrees` | house_orientation_v2.py:6-8 | bearing_from_vec equals the frontage script's bearing_from_vector on every vector |
| `HouseOrientationV2.Compass8` | house_orientation_v2.py:10-12 | the label is always one of N..NW |
| `HouseOrientationV2.Compass8Agrees` | house_orientation_v2.py:10-12 | compass8 agrees with compass_8 on every bearing |
| `HouseOrientationV2.HousePoints` | house_orientation_v2.py:35 | the house points are empty exactly when no word equals the label; each is the centre of a matching word, and every matching word's centre is among them |
| `HouseOrientationV2.HousePointsAppend` | house_orientation_v2.py:35 | house points keep the page order of the words |
| `HouseOrientationV2.RoadCandidates` | house_orientation_v2.py:41 | the candidates are empty exactly when no word is longer than four characters, and they are exactly the words longer than four characters |
| `HouseOrientationV2.RoadCandidatesAppend` | house_orientation_v2.py:41 | candidates keep the page order of the words |
| `HouseOrientationV2.SumBounds` | house_orientation_v2.py:38 | a sum of n values in [lo, hi] lies in [n·lo, n·hi] |
| `HouseOrientationV2.Mean` | house_orientation_v2.py:38 | the mean times the number of points is the sum of each column |
| `HouseOrientationV2.MeanInBox` | house_orientation_v2.py:38 | the mean of the house points lies within any box that contains them all |
| `HouseOrientationV2.MeanOfRepeated` | house_orientation_v2.py:38 | when every matched label sits at one point, the house is that point |
| `HouseOrientationV2.DistanceKeysTranslation` | house_orientation_v2.py:45-46 | the `min` key depends only on each word's position relative to the house: moving the house and every word by one offset keeps every key |
| `HouseOrientationV2.NearestCandidate` | house_orientation_v2.py:45-46 | the chosen candidate is one of the candidates and no candidate is nearer to the house |
| `HouseOrientationV2.NearestCandidateIsFirst` | house_orientation_v2.py:45-46 | a candidate at minimum distance with only strictly farther candidates before it is the one chosen, so ties go to the earliest |
| `HouseOrientationV2.NearestCandidateAmongTexts` | house_orientation_v2.py:41-46 | the chosen word is at least as near as every word of the page longer than four characters |
| `HouseOrientationV2.FindOrientation` | house_orientation_v2.py:30-51 | the result is one of the two errors or Ok; the label-not-found error happens exactly when no word equals the label, the no-road error exactly when some word does but none is longer than four characters, and Ok exactly when both a matching word and a longer word exist; then the house is the mean of the matches, the road is the first nearest long word, the bearing is that of road − house, in [0, 360), and the label is its compass point |

## Left out

- **Interactive clicking and plotting** (`get_points`, `annotate_arrow`, the drawing in both workflows, and `main`'s argument parsing, image loading and saving) are UI. The workflows take the clicked points as parameters. The count check in `get_points` is therefore not modelled: each workflow receives exactly its two or four points.
- **Network calls** (`geocode`, `overpass`, `fetch_nearby_roads`) are HTTP clients, and the module-level call at the end of `improved_orientation.py` is I/O. The model receives the geocoded (lon, lat) and the fetched roads. `fetch_nearby_roads` drops elements without geometry and lines of fewer than two vertices; that filtering is not part of this model.
- **pyproj and shapely** are parameters in `GeoOps` with no properties assumed. Point-to-segment projection is not re-derived, and the only property used is that a non-negative distance service gives a non-negative reported distance.
- **OCR and display** (`get_text_boxes`, the cv2 arrow, text and window calls, and the final print) are image processing and I/O. `FindOrientation` takes the already stripped words and their box centres. The target label is passed as the string `str(target_label)`.
- **Floating point** is replaced by the reals. Rounding error, NaN, infinities and signed zeros are not modelled.
  - The bearing of the zero vector in the degenerate frontage case is therefore left as whatever `atan2Deg` gives at (0, 0). In Python the sign of the zero decides it.
  - `float("inf")` as the initial best distance is `None`.
- **atan2, degrees, hypot and np.linalg.norm** are abstract functions, as described above, so no lemma depends on their exact values beyond the listed assumptions.
- NearestRoadBearing: does not model `round(bearing, 2)` and `round(best_dist, 2)`. The report carries the unrounded bearing and distance, and the compass label is computed from the unrounded bearing, as in the script.
