/** The selection logic of the OCR-based script: among the words read off a
    street map, the house is the mean position of the words equal to its
    number, the road is the nearest word longer than four characters, and
    the house faces along the vector from the one to the other. */
module HouseOrientationV2 {
  import opened Plane
  import opened Selection
  import HouseOrientation

  /** bearing_from_vec: the image bearing of (dx, dy), y pointing down;
      `atan2Deg(y, x)` stands for degrees(atan2(y, x)). */
  function BearingFromVec(atan2Deg: (real, real) -> real, dx: real, dy: real): (b: real)
    ensures 0.0 <= b < 360.0
    ensures IsWhole((atan2Deg(dx, -dy) - b) / 360.0)
  {
    FloorMod(atan2Deg(dx, -dy), 360.0)
  }

  /** The same bearing as the frontage script's bearing_from_vector, which
      reduces the same angle through normalize_angle_deg. */
  lemma BearingFromVecAgrees(atan2Deg: (real, real) -> real, dx: real, dy: real)
    ensures BearingFromVec(atan2Deg, dx, dy) == HouseOrientation.BearingFromVector(atan2Deg, dx, dy)
  {
  }

  /** compass8: the eight-sector table indexed by floor((b + 22.5) / 45) mod 8. */
  function Compass8(b: real): (dir: string)
    ensures dir in CompassPoints
  {
    CompassPoints[((b + 22.5) / 45.0).Floor % 8]
  }

  /** It agrees with the frontage script's compass_8 on every input. */
  lemma Compass8Agrees(b: real)
    ensures Compass8(b) == HouseOrientation.Compass8(b)
  {
  }

  /** One recognised word and the centre of its bounding box, in pixels. */
  datatype Word = Word(text: string, center: Vec)

  /** The two ValueErrors find_orientation raises. */
  datatype OrientationError =
    | LabelNotFound(target: string)
    | NoRoadLabel

  datatype Result<T, E> = Ok(value: T) | Err(error: E)

  /** What find_orientation reports: the house position, the chosen road
      word and its position, the bearing and its compass label. */
  datatype Orientation = Orientation(house: Vec, road: string, roadPoint: Vec,
                                     bearing: real, dir8: string)

  /** Road names are told apart from house numbers by length alone: a road
      label is strictly longer than this (so at least five characters). */
  const RoadLabelLengthThreshold := 4

  /** `[p for t, p in texts if t == target]`. */
  function HousePoints(texts: seq<Word>, target: string): (pts: seq<Vec>)
    ensures pts == [] <==> forall i :: 0 <= i < |texts| ==> texts[i].text != target
    ensures forall j :: 0 <= j < |pts| ==>
      exists i :: 0 <= i < |texts| && texts[i].text == target && pts[j] == texts[i].center
    ensures forall i :: 0 <= i < |texts| && texts[i].text == target ==> texts[i].center in pts
  {
    FilterMap(texts, (w: Word) => w.text == target, (w: Word) => w.center)
  }

  /** The matches keep the page order: those of a concatenation are the
      matches of the first part followed by those of the second. */
  lemma HousePointsAppend(a: seq<Word>, b: seq<Word>, target: string)
    ensures HousePoints(a + b, target) == HousePoints(a, target) + HousePoints(b, target)
  {
    FilterMapAppend(a, b, (w: Word) => w.text == target, (w: Word) => w.center);
  }

  /** `[(t, p) for t, p in texts if len(t) > 4]`. */
  function RoadCandidates(texts: seq<Word>): (cands: seq<Word>)
    ensures cands == [] <==> forall i :: 0 <= i < |texts| ==> |texts[i].text| <= RoadLabelLengthThreshold
    ensures forall c :: c in cands <==> c in texts && |c.text| > RoadLabelLengthThreshold
  {
    var r := FilterMap(texts, (w: Word) => |w.text| > RoadLabelLengthThreshold, (w: Word) => w);
    forall c | c in texts && |c.text| > RoadLabelLengthThreshold
      ensures c in r
    {
      var i :| 0 <= i < |texts| && texts[i] == c;
    }
    r
  }

  /** The candidates keep the page order. */
  lemma RoadCandidatesAppend(a: seq<Word>, b: seq<Word>)
    ensures RoadCandidates(a + b) == RoadCandidates(a) + RoadCandidates(b)
  {
    FilterMapAppend(a, b, (w: Word) => |w.text| > RoadLabelLengthThreshold, (w: Word) => w);
  }

  /** One column of a list of points: every x, or every y, in order. */
  function Column(pts: seq<Vec>, takeX: bool): seq<real> {
    seq(|pts|, i requires 0 <= i < |pts| => if takeX then pts[i].x else pts[i].y)
  }

  function Sum(xs: seq<real>): real
    decreases |xs|
  {
    if xs == [] then 0.0 else Sum(xs[..|xs| - 1]) + xs[|xs| - 1]
  }

  /** `np.mean(pts, axis=0)`: the arithmetic mean of each column. */
  function Mean(pts: seq<Vec>): (m: Vec)
    requires |pts| > 0
    ensures |pts| as real * m.x == Sum(Column(pts, true))
    ensures |pts| as real * m.y == Sum(Column(pts, false))
  {
    var n := |pts| as real;
    Vec(Sum(Column(pts, true)) / n, Sum(Column(pts, false)) / n)
  }

  /** A sum of n values in [lo, hi] lies in [n * lo, n * hi]. */
  lemma {:induction false} SumBounds(xs: seq<real>, lo: real, hi: real)
    requires forall i :: 0 <= i < |xs| ==> lo <= xs[i] <= hi
    ensures |xs| as real * lo <= Sum(xs) <= |xs| as real * hi
    decreases |xs|
  {
    if xs != [] {
      var n := |xs|;
      var init := xs[..n - 1];
      assert forall i :: 0 <= i < |init| ==> init[i] == xs[i];
      SumBounds(init, lo, hi);
      StepBounds((n - 1) as real, n as real, lo, hi, Sum(init), xs[n - 1]);
    }
  }

  /** One more value inside [lo, hi] keeps the running sum within bounds. */
  lemma StepBounds(m: real, k: real, lo: real, hi: real, s: real, p: real)
    requires k == m + 1.0
    requires m * lo <= s <= m * hi && lo <= p <= hi
    ensures k * lo <= s + p <= k * hi
  {
    assert k * lo == m * lo + lo;
    assert k * hi == m * hi + hi;
  }

  /** lo <= s / n <= hi from n * lo <= s <= n * hi, for n > 0. */
  lemma DivBounds(s: real, n: real, lo: real, hi: real)
    requires n > 0.0 && n * lo <= s <= n * hi
    ensures lo <= s / n <= hi
  {
    var q := s / n;
    assert s == n * q;
    if q < lo {
      MulPositive(n, lo - q);
    }
    if q > hi {
      MulPositive(n, q - hi);
    }
  }

  /** The house point lies within the bounding box of the matched labels:
      averaging never moves it outside the region where the label was read. */
  lemma MeanInBox(pts: seq<Vec>, lo: Vec, hi: Vec)
    requires |pts| > 0
    requires forall i :: 0 <= i < |pts| ==> lo.x <= pts[i].x <= hi.x && lo.y <= pts[i].y <= hi.y
    ensures lo.x <= Mean(pts).x <= hi.x && lo.y <= Mean(pts).y <= hi.y
  {
    ColumnMeanInRange(Column(pts, true), lo.x, hi.x);
    ColumnMeanInRange(Column(pts, false), lo.y, hi.y);
  }

  /** The mean of values in [lo, hi] lies in [lo, hi]. */
  lemma ColumnMeanInRange(xs: seq<real>, lo: real, hi: real)
    requires |xs| > 0
    requires forall i :: 0 <= i < |xs| ==> lo <= xs[i] <= hi
    ensures lo <= Sum(xs) / |xs| as real <= hi
  {
    SumBounds(xs, lo, hi);
    DivBounds(Sum(xs), |xs| as real, lo, hi);
  }

  /** When every matched label sits at the same point, the house is that point. */
  lemma MeanOfRepeated(pts: seq<Vec>, c: Vec)
    requires |pts| > 0
    requires forall i :: 0 <= i < |pts| ==> pts[i] == c
    ensures Mean(pts) == c
  {
    MeanInBox(pts, c, c);
  }

  /** The distance key of `min`: the length of (word centre - house). */
  function DistanceKeys(norm: Vec -> real, cands: seq<Word>, house: Vec): seq<real> {
    seq(|cands|, i requires 0 <= i < |cands| =>
      norm(HouseOrientation.Subtract(cands[i].center, house)))
  }

  /** The key depends only on where a word sits relative to the house:
      moving the house and every word by the same offset keeps every key. */
  lemma DistanceKeysTranslation(norm: Vec -> real, cands: seq<Word>, house: Vec, o: Vec)
    ensures DistanceKeys(norm, Translated(cands, o), Vec(house.x + o.x, house.y + o.y))
         == DistanceKeys(norm, cands, house)
  {
    var moved := Translated(cands, o);
    var h := Vec(house.x + o.x, house.y + o.y);
    forall i | 0 <= i < |cands|
      ensures HouseOrientation.Subtract(moved[i].center, h) == HouseOrientation.Subtract(cands[i].center, house)
    {
    }
  }

  /** Every word moved by the offset o. */
  function Translated(ws: seq<Word>, o: Vec): seq<Word> {
    seq(|ws|, i requires 0 <= i < |ws| => Word(ws[i].text, Vec(ws[i].center.x + o.x, ws[i].center.y + o.y)))
  }

  /** `min(cands, key=...)`: the first candidate of smallest distance. */
  function NearestCandidate(norm: Vec -> real, cands: seq<Word>, house: Vec): (w: Word)
    requires |cands| > 0
    ensures w in cands
    ensures forall c :: c in cands ==>
      norm(HouseOrientation.Subtract(w.center, house)) <= norm(HouseOrientation.Subtract(c.center, house))
  {
    var keys := DistanceKeys(norm, cands, house);
    var k := FirstArgMin(keys);
    assert forall j :: 0 <= j < |cands| ==>
      keys[j] == norm(HouseOrientation.Subtract(cands[j].center, house));
    assert forall c :: c in cands ==> exists j :: 0 <= j < |cands| && cands[j] == c;
    cands[k]
  }

  /** Any candidate closer than all earlier ones and no farther than the
      rest is the one `min` picks. */
  lemma NearestCandidateIsFirst(norm: Vec -> real, cands: seq<Word>, house: Vec, k: nat)
    requires k < |cands|
    requires forall j :: 0 <= j < |cands| ==>
      norm(HouseOrientation.Subtract(cands[k].center, house)) <= norm(HouseOrientation.Subtract(cands[j].center, house))
    requires forall j :: 0 <= j < k ==>
      norm(HouseOrientation.Subtract(cands[k].center, house)) < norm(HouseOrientation.Subtract(cands[j].center, house))
    ensures NearestCandidate(norm, cands, house) == cands[k]
  {
    var keys := DistanceKeys(norm, cands, house);
    FirstArgMinUnique(keys, k);
  }

  /** The chosen word is at least as close as every long word of the page. */
  lemma NearestCandidateAmongTexts(norm: Vec -> real, texts: seq<Word>, house: Vec)
    requires RoadCandidates(texts) != []
    ensures forall i :: 0 <= i < |texts| && |texts[i].text| > RoadLabelLengthThreshold ==>
      norm(HouseOrientation.Subtract(NearestCandidate(norm, RoadCandidates(texts), house).center, house))
        <= norm(HouseOrientation.Subtract(texts[i].center, house))
  {
    var cands := RoadCandidates(texts);
    forall i | 0 <= i < |texts| && |texts[i].text| > RoadLabelLengthThreshold
      ensures texts[i] in cands
    {
    }
  }

  /** find_orientation after OCR: `target` is str(target_label), `norm` the
      Euclidean length np.linalg.norm. */
  function FindOrientation(norm: Vec -> real, atan2Deg: (real, real) -> real,
                           texts: seq<Word>, target: string): (r: Result<Orientation, OrientationError>)
    ensures r == Err(LabelNotFound(target)) <==> forall i :: 0 <= i < |texts| ==> texts[i].text != target
    ensures r == Err(NoRoadLabel) <==>
      && (exists i :: 0 <= i < |texts| && texts[i].text == target)
      && (forall i :: 0 <= i < |texts| ==> |texts[i].text| <= RoadLabelLengthThreshold)
    ensures r.Ok? <==>
      && (exists i :: 0 <= i < |texts| && texts[i].text == target)
      && (exists i :: 0 <= i < |texts| && |texts[i].text| > RoadLabelLengthThreshold)
    ensures r.Err? ==> r == Err(LabelNotFound(target)) || r == Err(NoRoadLabel)
    ensures r.Ok? ==>
      var o := r.value;
      && o.house == Mean(HousePoints(texts, target))
      && Word(o.road, o.roadPoint) == NearestCandidate(norm, RoadCandidates(texts), o.house)
      && Word(o.road, o.roadPoint) in texts
      && |o.road| > RoadLabelLengthThreshold
      && (forall i :: 0 <= i < |texts| && |texts[i].text| > RoadLabelLengthThreshold ==>
            norm(HouseOrientation.Subtract(o.roadPoint, o.house))
              <= norm(HouseOrientation.Subtract(texts[i].center, o.house)))
      && (var d := HouseOrientation.Subtract(o.roadPoint, o.house);
          o.bearing == BearingFromVec(atan2Deg, d.x, d.y))
      && 0.0 <= o.bearing < 360.0
      && o.dir8 == Compass8(o.bearing)
  {
    var housePoints := HousePoints(texts, target);
    if housePoints == [] then Err(LabelNotFound(target))
    else
      var house := Mean(housePoints);
      var cands := RoadCandidates(texts);
      if cands == [] then Err(NoRoadLabel)
      else
        var w := NearestCandidate(norm, cands, house);
        var d := HouseOrientation.Subtract(w.center, house);
        var b := BearingFromVec(atan2Deg, d.x, d.y);
        NearestCandidateAmongTexts(norm, texts, house);
        Ok(Orientation(house, w.text, w.center, b, Compass8(b)))
  }
}
