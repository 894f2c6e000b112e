/** The state the function finder's mouse clicks change: the two reference
    points and the converters built from them, and the placed points kept
    in three parallel lists plus the saved settings. */
module FinderSession {
  import opened Wrappers
  import opened Coordinates
  import opened Lists

  /** A reference point `settings["coord1"]` or `settings["coord2"]`:
      canvas pixel `(x, y)` and the user coordinates `(ux, uy)` it stands for. */
  datatype Reference = Reference(x: real, y: real, ux: real, uy: real)

  /** Canvas coordinates of an oval, as `canvas.coords` returns them. */
  datatype Box = Box(x0: real, y0: real, x1: real, y1: real)

  /** Radius of a placed point. */
  const PointSize: real := 8.0

  /** The canvas y axis points down; converters work with it flipped. */
  function Pixel(r: Reference, height: real): Point {
    Point(r.x, height - r.y)
  }

  function User(r: Reference): Point {
    Point(r.ux, r.uy)
  }

  /** The oval `drawPoint` creates around a click. */
  function Around(c: Point, size: real): Box {
    Box(c.x - size, c.y - size, c.x + size, c.y + size)
  }

  function Centre(b: Box): Point {
    Point((b.x0 + b.x1) / 2.0, (b.y0 + b.y1) / 2.0)
  }

  predicate Contains(b: Box, p: Point) {
    b.x0 <= p.x <= b.x1 && b.y0 <= p.y <= b.y1
  }

  /** The first box holding the click, if any. */
  function FirstHit(boxes: seq<Box>, p: Point): (r: Option<nat>)
    ensures r.Some? ==> r.value < |boxes| && Contains(boxes[r.value], p)
    ensures r.Some? ==> forall k :: 0 <= k < r.value ==> !Contains(boxes[k], p)
    ensures r.None? ==> forall k :: 0 <= k < |boxes| ==> !Contains(boxes[k], p)
  {
    if |boxes| == 0 then None
    else if Contains(boxes[0], p) then Some(0)
    else match FirstHit(boxes[1..], p)
      case None => None
      case Some(i) => Some(i + 1)
  }

  /** The first index holding `p`, if any. */
  function FirstEqual(ps: seq<Point>, p: Point): (r: Option<nat>)
    ensures r.Some? ==> r.value < |ps| && ps[r.value] == p
    ensures r.Some? ==> forall k :: 0 <= k < r.value ==> ps[k] != p
    ensures r.None? ==> p !in ps
  {
    if |ps| == 0 then None
    else if ps[0] == p then Some(0)
    else match FirstEqual(ps[1..], p)
      case None => None
      case Some(i) => Some(i + 1)
  }

  /** The deletion loop over `settings["points"]`: the first entry equal
      to `p` goes, and nothing else changes when there is none. */
  function RemoveFirst(ps: seq<Point>, p: Point): (r: seq<Point>)
    ensures FirstEqual(ps, p).None? ==> r == ps
    ensures FirstEqual(ps, p).Some? ==> r == RemoveAt(ps, FirstEqual(ps, p).value)
  {
    match FirstEqual(ps, p)
    case None => ps
    case Some(j) => RemoveAt(ps, j)
  }

  /** Every placed point's oval is centred on its saved click. */
  predicate Aligned(boxes: seq<Box>, saved: seq<Point>) {
    |boxes| == |saved| && forall k :: 0 <= k < |boxes| ==> boxes[k] == Around(saved[k], PointSize)
  }

  /** When ovals and saved clicks are aligned, the saved entry the remove
      click deletes is the one at the index of the oval it deletes: a
      duplicate earlier click would have been hit first. */
  lemma HitIndexIsSavedIndex(boxes: seq<Box>, saved: seq<Point>, p: Point)
    requires Aligned(boxes, saved)
    requires FirstHit(boxes, p).Some?
    ensures FirstEqual(saved, Centre(boxes[FirstHit(boxes, p).value])) == FirstHit(boxes, p)
  {
    var i := FirstHit(boxes, p).value;
    assert Centre(boxes[i]) == saved[i];
  }

  /** Removing entry `i` from aligned lists keeps them aligned. */
  lemma RemoveKeepsAligned(boxes: seq<Box>, saved: seq<Point>, i: nat)
    requires Aligned(boxes, saved) && i < |boxes|
    ensures Aligned(RemoveAt(boxes, i), RemoveAt(saved, i))
  {
  }

  /** A click away from every placed point, followed by a remove click at
      the same place, removes exactly the point just added. */
  lemma AddThenRemove(boxes: seq<Box>, saved: seq<Point>, p: Point)
    requires Aligned(boxes, saved)
    requires FirstHit(boxes, p).None?
    ensures FirstHit(boxes + [Around(p, PointSize)], p) == Some(|boxes|)
    ensures RemoveAt(boxes + [Around(p, PointSize)], |boxes|) == boxes
    ensures RemoveFirst(saved + [p], Centre(Around(p, PointSize))) == saved
  {
    var b := boxes + [Around(p, PointSize)];
    var s := saved + [p];
    assert Aligned(b, s);
    assert Contains(b[|boxes|], p);
    assert forall k :: 0 <= k < |boxes| ==> b[k] == boxes[k] && !Contains(b[k], p);
    assert FirstHit(b, p) == Some(|boxes|);
    HitIndexIsSavedIndex(b, s, p);
    assert RemoveAt(s, |saved|) == saved;
  }

  /** The ovals `drawPoint` creates for the saved clicks. */
  function Ovals(saved: seq<Point>): (r: seq<Box>)
    ensures Aligned(r, saved)
  {
    seq(|saved|, k requires 0 <= k < |saved| => Around(saved[k], PointSize))
  }

  /** The user coordinates `drawPoint` computes for the saved clicks. */
  function UserPoints(toUser: Converter, height: real, saved: seq<Point>): (r: seq<Point>)
    ensures |r| == |saved|
    ensures forall k :: 0 <= k < |saved| ==> r[k] == Convert(toUser, Point(saved[k].x, height - saved[k].y))
  {
    seq(|saved|, k requires 0 <= k < |saved| => Convert(toUser, Point(saved[k].x, height - saved[k].y)))
  }

  /** Python's `round(r, 2)`: the nearest multiple of 0.01, and the even
      one of the two on a tie. */
  function Round2(r: real): (q: real)
    ensures -0.005 <= q - r <= 0.005
    ensures (q * 100.0).Floor as real == q * 100.0
    ensures (q - r == 0.005 || q - r == -0.005) ==> (q * 100.0).Floor % 2 == 0
  {
    var y := r * 100.0;
    var f := y.Floor;
    var n := if y - f as real < 0.5 then f
             else if y - f as real > 0.5 then f + 1
             else if f % 2 == 0 then f else f + 1;
    assert -0.5 <= n as real - y <= 0.5;
    assert (n as real / 100.0) * 100.0 == n as real;
    n as real / 100.0
  }

  function Rounded(p: Point): Point {
    Point(Round2(p.x), Round2(p.y))
  }

  /** What `updateText` stores for an oval: its centre, y flipped,
      converted and rounded to two decimals. */
  function CentreUser(toUser: Converter, height: real, b: Box): Point {
    var c := Centre(b);
    Rounded(Convert(toUser, Point(c.x, height - c.y)))
  }

  /** `pointsUserCoordinates` after `updateText` has run for every oval. */
  function Refreshed(toUser: Converter, height: real, boxes: seq<Box>): (r: seq<Point>)
    ensures |r| == |boxes|
  {
    seq(|boxes|, k requires 0 <= k < |boxes| => CentreUser(toUser, height, boxes[k]))
  }

  /** For ovals drawn around the saved clicks, the refreshed coordinates
      are the start-up coordinates of those clicks, rounded, and each is
      within 0.005 of the exact one in both axes. */
  lemma RefreshedRoundsUserPoints(toUser: Converter, height: real, boxes: seq<Box>, saved: seq<Point>)
    requires Aligned(boxes, saved)
    ensures |Refreshed(toUser, height, boxes)| == |UserPoints(toUser, height, saved)|
    ensures forall k :: 0 <= k < |boxes| ==>
      Refreshed(toUser, height, boxes)[k] == Rounded(UserPoints(toUser, height, saved)[k])
    ensures forall k :: 0 <= k < |boxes| ==>
      -0.005 <= Refreshed(toUser, height, boxes)[k].x - UserPoints(toUser, height, saved)[k].x <= 0.005 &&
      -0.005 <= Refreshed(toUser, height, boxes)[k].y - UserPoints(toUser, height, saved)[k].y <= 0.005
  {
    forall k | 0 <= k < |boxes|
      ensures Refreshed(toUser, height, boxes)[k] == Rounded(UserPoints(toUser, height, saved)[k])
    {
      assert Centre(boxes[k]) == saved[k];
    }
  }

  /** The start-up loop over `settings["points"]`: one oval and one pair
      of user coordinates per saved click, in order. */
  method Replay(toUser: Converter, height: real, saved: seq<Point>) returns (boxes: seq<Box>, users: seq<Point>)
    ensures boxes == Ovals(saved) && users == UserPoints(toUser, height, saved)
  {
    boxes, users := [], [];
    for k := 0 to |saved|
      invariant boxes == Ovals(saved[..k]) && users == UserPoints(toUser, height, saved[..k])
    {
      boxes := boxes + [Around(saved[k], PointSize)];
      users := users + [Convert(toUser, Point(saved[k].x, height - saved[k].y))];
    }
    assert saved[..|saved|] == saved;
  }

  /** How a reference click ends: the point moved and everything was
      redrawn; a converter could not be built (the new pixel equals the
      other reference pixel, a ZeroDivisionError); or `updateFunction`
      raised after the converters and coordinates were already rebuilt. */
  datatype Outcome = Moved | Unbuilt | FitFailed

  class Session {
    /** `canvasHeight`. */
    const height: real
    /** `settings["coord1"]` and `settings["coord2"]`. */
    var coord1: Reference
    var coord2: Reference
    /** `tkinterToUser` and `userToTkinter`. */
    var toUser: Converter
    var toCanvas: Converter
    /** `points` (the ovals, by their coordinates), `texts` (their label
        items) and `pointsUserCoordinates`. */
    var boxes: seq<Box>
    var texts: seq<nat>
    var userPoints: seq<Point>
    /** `settings["points"]`: the saved clicks. */
    var savedPoints: seq<Point>

    /** The three parallel lists have one entry per placed point, each oval
        centred on its saved click. */
    predicate Valid()
      reads this
    {
      |boxes| == |texts| == |userPoints| && Aligned(boxes, savedPoints)
    }

    /** The converters are the ones reference points `c1` and `c2` build. */
    predicate BuiltFrom(c1: Reference, c2: Reference)
      reads this
    {
      NewConverter(Pixel(c1, height), User(c1), Pixel(c2, height), User(c2)) == Some(toUser) &&
      NewConverter(User(c1), Pixel(c1, height), User(c2), Pixel(c2, height)) == Some(toCanvas)
    }

    /** The converters are the ones the current reference points build. */
    predicate InSync()
      reads this
    {
      BuiltFrom(coord1, coord2)
    }

    /** Start-up: the converters are built from the saved reference points,
        then every saved click is drawn again as a placed point, with the
        label item `labels[k]` for click `k`; the saved clicks themselves
        are kept as they were. */
    constructor (height: real, c1: Reference, c2: Reference, saved: seq<Point>, labels: seq<nat>)
      requires Pixel(c1, height) != Pixel(c2, height) && User(c1) != User(c2)
      requires |labels| == |saved|
      ensures this.height == height && coord1 == c1 && coord2 == c2
      ensures boxes == Ovals(saved) && texts == labels && savedPoints == saved
      ensures userPoints == UserPoints(toUser, height, saved)
      ensures Valid() && InSync()
    {
      var u := NewConverter(Pixel(c1, height), User(c1), Pixel(c2, height), User(c2)).value;
      var b, p := Replay(u, height, saved);
      this.height := height;
      coord1 := c1;
      coord2 := c2;
      toUser := u;
      toCanvas := NewConverter(User(c1), Pixel(c1, height), User(c2), Pixel(c2, height)).value;
      boxes := b;
      texts := labels;
      userPoints := p;
      savedPoints := saved;
    }

    /** `buildCoordinateConverters`: `tkinterToUser` is assigned first, so
        when only the second construction fails the first one has already
        been replaced. */
    method BuildCoordinateConverters() returns (ok: bool)
      modifies this
      ensures var t := NewConverter(Pixel(coord1, height), User(coord1), Pixel(coord2, height), User(coord2));
        var u := NewConverter(User(coord1), Pixel(coord1, height), User(coord2), Pixel(coord2, height));
        ok == (t.Some? && u.Some?) &&
        toUser == (if t.Some? then t.value else old(toUser)) &&
        toCanvas == (if ok then u.value else old(toCanvas))
      ensures ok ==> InSync()
      ensures coord1 == old(coord1) && coord2 == old(coord2)
      ensures boxes == old(boxes) && texts == old(texts)
      ensures userPoints == old(userPoints) && savedPoints == old(savedPoints)
    {
      var t := NewConverter(Pixel(coord1, height), User(coord1), Pixel(coord2, height), User(coord2));
      if t.None? {
        return false;
      }
      toUser := t.value;
      var u := NewConverter(User(coord1), Pixel(coord1, height), User(coord2), Pixel(coord2, height));
      if u.None? {
        return false;
      }
      toCanvas := u.value;
      ok := true;
    }

    /** The loop `for i in range(len(points)): updateText(points[i], texts[i])`:
        every placed point's user coordinates are recomputed from its oval
        with the current `tkinterToUser`, rounded to two decimals.  Canvas
        items are unique, so `updateText` for oval `i` writes entry `i`. */
    method RefreshUserPoints()
      requires |boxes| == |texts| == |userPoints|
      modifies this
      ensures userPoints == Refreshed(toUser, height, boxes)
      ensures coord1 == old(coord1) && coord2 == old(coord2)
      ensures toUser == old(toUser) && toCanvas == old(toCanvas)
      ensures boxes == old(boxes) && texts == old(texts) && savedPoints == old(savedPoints)
    {
      for i := 0 to |boxes|
        invariant coord1 == old(coord1) && coord2 == old(coord2)
        invariant toUser == old(toUser) && toCanvas == old(toCanvas)
        invariant boxes == old(boxes) && texts == old(texts) && savedPoints == old(savedPoints)
        invariant |userPoints| == |boxes|
        invariant forall k :: 0 <= k < i ==> userPoints[k] == CentreUser(toUser, height, boxes[k])
      {
        userPoints := userPoints[i := CentreUser(toUser, height, boxes[i])];
      }
    }

    /** A click in "coord1" or "coord2" mode moves that reference point to
        the click, keeping its user coordinates, rebuilds the converters and
        refreshes every placed point's user coordinates, then refits the
        function; `fitFails` says whether `updateFunction` raises.  Any
        exception puts the old reference point back, but nothing else: after
        a failed fit the converters and coordinates stay those of the
        rejected click.  From a synchronised state, a click that cannot
        build a converter changes nothing at all. */
    method ReferenceClick(second: bool, x: real, y: real, fitFails: bool) returns (outcome: Outcome)
      requires |boxes| == |texts| == |userPoints|
      modifies this
      ensures var r := if second then coord2 else coord1;
        var was := if second then old(coord2) else old(coord1);
        r == (if outcome == Moved then Reference(x, y, was.ux, was.uy) else was)
      ensures second ==> coord1 == old(coord1)
      ensures !second ==> coord2 == old(coord2)
      ensures boxes == old(boxes) && texts == old(texts) && savedPoints == old(savedPoints)
      ensures outcome == Unbuilt ==> userPoints == old(userPoints)
      ensures outcome != Unbuilt ==> userPoints == Refreshed(toUser, height, boxes)
      ensures outcome != Unbuilt ==> (outcome == FitFailed <==> fitFails)
      ensures outcome == Moved ==> InSync()
      ensures outcome == FitFailed ==>
        var was := if second then old(coord2) else old(coord1);
        var moved := Reference(x, y, was.ux, was.uy);
        BuiltFrom(if second then coord1 else moved, if second then moved else coord2)
      ensures outcome == Unbuilt ==>
        var was := if second then old(coord2) else old(coord1);
        var moved := Reference(x, y, was.ux, was.uy);
        var c1 := if second then old(coord1) else moved;
        var c2 := if second then moved else old(coord2);
        var t := NewConverter(Pixel(c1, height), User(c1), Pixel(c2, height), User(c2));
        toCanvas == old(toCanvas) && toUser == (if t.Some? then t.value else old(toUser))
      ensures old(InSync()) && outcome == Unbuilt ==>
        InSync() && toUser == old(toUser) && toCanvas == old(toCanvas)
      ensures old(InSync()) ==>
        (outcome != Unbuilt <==> Point(x, height - y) != Pixel(if second then old(coord1) else old(coord2), height))
      ensures old(Valid()) ==> Valid()
    {
      var was := if second then coord2 else coord1;
      var moved := Reference(x, y, was.ux, was.uy);
      if second {
        coord2 := moved;
      } else {
        coord1 := moved;
      }
      var built := BuildCoordinateConverters();
      if !built || fitFails {
        if built {
          RefreshUserPoints();
        }
        if second {
          coord2 := was;
        } else {
          coord1 := was;
        }
        return if built then FitFailed else Unbuilt;
      }
      RefreshUserPoints();
      outcome := Moved;
    }

    /** A click in "point" mode places a point: its oval, its label item
        and its user coordinates are appended, then the function is refit.
        The click is saved only when `updateFunction` does not raise
        (`fitFails`), so a failed fit leaves it out of the saved clicks. */
    method AddPointClick(x: real, y: real, text: nat, fitFails: bool)
      modifies this
      ensures boxes == old(boxes) + [Around(Point(x, y), PointSize)]
      ensures texts == old(texts) + [text]
      ensures userPoints == old(userPoints) + [Convert(toUser, Point(x, height - y))]
      ensures savedPoints == old(savedPoints) + (if fitFails then [] else [Point(x, y)])
      ensures coord1 == old(coord1) && coord2 == old(coord2)
      ensures toUser == old(toUser) && toCanvas == old(toCanvas)
      ensures old(Valid()) && !fitFails ==> Valid()
      ensures old(Valid()) && fitFails ==> |boxes| == |savedPoints| + 1
    {
      boxes := boxes + [Around(Point(x, y), PointSize)];
      texts := texts + [text];
      userPoints := userPoints + [Convert(toUser, Point(x, height - y))];
      if !fitFails {
        savedPoints := savedPoints + [Point(x, y)];
      }
    }

    /** A click in "remove" mode deletes the first placed point whose oval
        holds the click from the three lists, refits the function and, when
        `updateFunction` does not raise (`fitFails`), deletes the first saved
        click at that oval's centre; with no such point nothing changes. */
    method RemovePointClick(x: real, y: real, fitFails: bool) returns (removed: bool)
      requires |boxes| == |texts| == |userPoints|
      modifies this
      ensures var hit := FirstHit(old(boxes), Point(x, y));
        removed == hit.Some? &&
        (hit.None? ==> boxes == old(boxes) && texts == old(texts) &&
                       userPoints == old(userPoints) && savedPoints == old(savedPoints)) &&
        (hit.Some? ==> boxes == RemoveAt(old(boxes), hit.value) &&
                       texts == RemoveAt(old(texts), hit.value) &&
                       userPoints == RemoveAt(old(userPoints), hit.value) &&
                       savedPoints == (if fitFails then old(savedPoints)
                                       else RemoveFirst(old(savedPoints), Centre(old(boxes)[hit.value]))))
      ensures coord1 == old(coord1) && coord2 == old(coord2)
      ensures toUser == old(toUser) && toCanvas == old(toCanvas)
      ensures old(Valid()) && (removed ==> !fitFails) ==> Valid()
      ensures old(Valid()) && removed && fitFails ==> |boxes| + 1 == |savedPoints|
    {
      var click := Point(x, y);
      var i := 0;
      while i < |boxes|
        invariant 0 <= i <= |boxes|
        invariant forall k :: 0 <= k < i ==> !Contains(boxes[k], click)
        invariant unchanged(this)
      {
        if Contains(boxes[i], click) {
          var centre := Centre(boxes[i]);
          assert FirstHit(boxes, click) == Some(i);
          ghost var wasValid := Valid();
          if wasValid {
            HitIndexIsSavedIndex(boxes, savedPoints, click);
            RemoveKeepsAligned(boxes, savedPoints, i);
          }
          boxes := RemoveAt(boxes, i);
          texts := RemoveAt(texts, i);
          userPoints := RemoveAt(userPoints, i);
          if fitFails {
            return true;
          }
          var j := 0;
          while j < |savedPoints|
            invariant 0 <= j <= |savedPoints|
            invariant forall k :: 0 <= k < j ==> savedPoints[k] != centre
            invariant savedPoints == old(savedPoints)
          {
            if savedPoints[j] == centre {
              assert FirstEqual(savedPoints, centre) == Some(j);
              savedPoints := RemoveAt(savedPoints, j);
              break;
            }
            j := j + 1;
          }
          return true;
        }
        i := i + 1;
      }
      return false;
    }
  }
}
