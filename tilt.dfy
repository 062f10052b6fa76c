/** The tilt classifier of `reactToSurfaceChange`: from the screen
    orientation and the surface angle to a falling category and a signed
    speed, or the "unregistered" sentinel when no angular band matches. */
module Tilt {
  import opened AgentConstants

  /** Anything the host reports other than portrait takes the landscape branch. */
  datatype Orientation = Portrait | Landscape

  /** The pair of locals `category` and `speed` once the band tests ran. */
  datatype Reaction = Reaction(category: string, speed: int)

  /** The value both locals start from and keep when no band matches. */
  const Unmatched := Reaction("", UNREGISTERED_CATEGORY_RESOURCE)

  /** The source's own test `speed != -999`. */
  predicate Matched(r: Reaction) { r.speed != UNREGISTERED_CATEGORY_RESOURCE }

  /** The band tests in the order the source makes them. All bounds are
      exclusive. */
  function Classify(orientation: Orientation, angle: int): (r: Reaction)
    ensures !Matched(r) <==> r == Unmatched
    ensures Matched(r) ==>
              || (r.category == ON_FALLING_RIGHT && 0 < r.speed < 60)
              || (r.category == ON_FALLING_LEFT && -60 < r.speed < 0)
  {
    if orientation == Portrait then
      if 10 < angle < 70 then Reaction(ON_FALLING_RIGHT, angle - 10)
      else if 290 < angle < 350 then Reaction(ON_FALLING_LEFT, angle - 350)
      else Unmatched
    else
      if 280 < angle < 340 then Reaction(ON_FALLING_RIGHT, angle - 280)
      else if 200 < angle < 260 then Reaction(ON_FALLING_LEFT, angle - 260)
      else if 100 < angle < 160 then Reaction(ON_FALLING_RIGHT, angle - 100)
      else if 20 < angle < 80 then Reaction(ON_FALLING_LEFT, angle - 80)
      else Unmatched
  }

  // ---------------------------------------------------------------------
  // An independent description of the same classifier: a table of bands.

  /** An open interval of angles, the category it selects, and the origin
      the speed is measured from (`speed = angle - origin`). */
  datatype Band = Band(low: int, high: int, origin: int, category: string)

  predicate InBand(b: Band, angle: int) { b.low < angle < b.high }

  function BandReaction(b: Band, angle: int): Reaction
  {
    Reaction(b.category, angle - b.origin)
  }

  /** A band 60 degrees wide; falling right measures from its low end (so
      the speed is positive), falling left from its high end (negative). */
  predicate WellFormed(b: Band)
  {
    && b.high - b.low == 60
    && ((b.category == ON_FALLING_RIGHT && b.origin == b.low)
        || (b.category == ON_FALLING_LEFT && b.origin == b.high))
  }

  predicate Disjoint(a: Band, b: Band)
  {
    a.high <= b.low || b.high <= a.low
  }

  /** A table whose bands are well formed and pairwise disjoint. */
  predicate GoodTable(t: seq<Band>)
  {
    && (forall i :: 0 <= i < |t| ==> WellFormed(t[i]))
    && (forall i, j :: 0 <= i < j < |t| ==> Disjoint(t[i], t[j]))
  }

  function Bands(orientation: Orientation): seq<Band>
  {
    if orientation == Portrait then
      [Band(10, 70, 10, ON_FALLING_RIGHT), Band(290, 350, 350, ON_FALLING_LEFT)]
    else
      [Band(280, 340, 280, ON_FALLING_RIGHT), Band(200, 260, 260, ON_FALLING_LEFT),
       Band(100, 160, 100, ON_FALLING_RIGHT), Band(20, 80, 80, ON_FALLING_LEFT)]
  }

  /** The first band of the table that holds the angle. */
  function FirstMatch(t: seq<Band>, angle: int): Reaction
    decreases |t|
  {
    if t == [] then Unmatched
    else if InBand(t[0], angle) then BandReaction(t[0], angle)
    else FirstMatch(t[1..], angle)
  }

  lemma BandsAreGood(orientation: Orientation)
    ensures GoodTable(Bands(orientation))
  {
  }

  /** The if/else chain of the source is a first-match search of the table. */
  lemma ClassifyIsFirstMatch(orientation: Orientation, angle: int)
    ensures Classify(orientation, angle) == FirstMatch(Bands(orientation), angle)
  {
    var t := Bands(orientation);
    if orientation == Portrait {
      var t1 := t[1..];
      assert t1[1..] == [];
      assert FirstMatch(t1, angle) == (if InBand(t[1], angle) then BandReaction(t[1], angle) else Unmatched);
    } else {
      var t1, t2, t3 := t[1..], t[1..][1..], t[1..][1..][1..];
      assert t3[1..] == [];
      assert FirstMatch(t3, angle) == (if InBand(t[3], angle) then BandReaction(t[3], angle) else Unmatched);
      assert FirstMatch(t2, angle) == (if InBand(t[2], angle) then BandReaction(t[2], angle) else FirstMatch(t3, angle));
      assert FirstMatch(t1, angle) == (if InBand(t[1], angle) then BandReaction(t[1], angle) else FirstMatch(t2, angle));
    }
  }

  /** In a good table the first match is the only match, so the order in
      which the bands are tested does not matter. */
  lemma {:induction false} FirstMatchIsAnyMatch(t: seq<Band>, k: int, angle: int)
    requires GoodTable(t)
    requires 0 <= k < |t| && InBand(t[k], angle)
    ensures FirstMatch(t, angle) == BandReaction(t[k], angle)
    decreases |t|
  {
    if k > 0 {
      assert Disjoint(t[0], t[k]);
      assert GoodTable(t[1..]) by {
        forall i, j | 0 <= i < j < |t[1..]| ensures Disjoint(t[1..][i], t[1..][j]) {
          assert t[1..][i] == t[i + 1] && t[1..][j] == t[j + 1];
        }
      }
      FirstMatchIsAnyMatch(t[1..], k - 1, angle);
    }
  }

  /** With no band holding the angle, the sentinel survives. */
  lemma {:induction false} FirstMatchMissesAll(t: seq<Band>, angle: int)
    requires forall i :: 0 <= i < |t| ==> !InBand(t[i], angle)
    ensures FirstMatch(t, angle) == Unmatched
    decreases |t|
  {
    if t != [] {
      assert forall i :: 0 <= i < |t[1..]| ==> t[1..][i] == t[i + 1];
      FirstMatchMissesAll(t[1..], angle);
    }
  }

  /** The classifier, band by band: the band holding the angle decides the
      category and the speed; with none, the sentinel `-999` is kept. So
      `speed != -999` holds exactly when some band matched. */
  lemma ClassifyByBands(orientation: Orientation, angle: int)
    ensures forall k :: 0 <= k < |Bands(orientation)| && InBand(Bands(orientation)[k], angle) ==>
              Classify(orientation, angle) == BandReaction(Bands(orientation)[k], angle)
    ensures (forall k :: 0 <= k < |Bands(orientation)| ==> !InBand(Bands(orientation)[k], angle)) ==>
              Classify(orientation, angle) == Unmatched
    ensures Matched(Classify(orientation, angle)) <==>
              exists k :: 0 <= k < |Bands(orientation)| && InBand(Bands(orientation)[k], angle)
  {
    var t := Bands(orientation);
    ClassifyIsFirstMatch(orientation, angle);
    BandsAreGood(orientation);
    forall k | 0 <= k < |t| && InBand(t[k], angle)
      ensures Classify(orientation, angle) == BandReaction(t[k], angle)
    {
      FirstMatchIsAnyMatch(t, k, angle);
    }
    if forall k :: 0 <= k < |t| ==> !InBand(t[k], angle) {
      FirstMatchMissesAll(t, angle);
    } else {
      var k :| 0 <= k < |t| && InBand(t[k], angle);
      FirstMatchIsAnyMatch(t, k, angle);
      assert WellFormed(t[k]);
    }
  }

  /** Sample readings: one inside every band, one outside every band, and
      two on band edges. */
  lemma ClassifyExamples()
    ensures Classify(Portrait, 40) == Reaction(ON_FALLING_RIGHT, 30)
    ensures Classify(Portrait, 320) == Reaction(ON_FALLING_LEFT, -30)
    ensures Classify(Landscape, 300) == Reaction(ON_FALLING_RIGHT, 20)
    ensures Classify(Landscape, 230) == Reaction(ON_FALLING_LEFT, -30)
    ensures Classify(Landscape, 130) == Reaction(ON_FALLING_RIGHT, 30)
    ensures Classify(Landscape, 50) == Reaction(ON_FALLING_LEFT, -30)
    // 0 lies outside every band; 70 and 340 are band edges.
    ensures !Matched(Classify(Portrait, 0)) && !Matched(Classify(Landscape, 0))
    ensures !Matched(Classify(Portrait, 70)) && !Matched(Classify(Landscape, 340))
  {
  }
}
