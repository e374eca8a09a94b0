/** Clients of the container, after may_be_usage_example.cpp: a point type and
    the three factory functions, and the copy and reset scenarios. */
module Usage {
  import opened Wrappers
  import L = Lifecycle
  import opened Optional

  /** `Point`, with its coordinates as reals. */
  datatype Point = Point(x: real, y: real)

  /** `Point()`: the default point. */
  const Origin := Point(0.0, 0.0)

  /** `f1`: returns `MayBeEmpty`. */
  method F1() returns (m: MayBe<Point>)
    ensures fresh(m) && m.Valid() && !m.initialized
  {
    m := new MayBe.Empty();
  }

  /** `f2`: returns `MayBeDefault`. */
  method F2() returns (m: MayBe<Point>)
    ensures fresh(m) && m.Valid() && m.storage == Some(Origin)
  {
    m := new MayBe.Default(Origin);
  }

  /** `f3`: returns `CreateMayBe(7)`. */
  method F3() returns (m: MayBe<int>)
    ensures fresh(m) && m.Valid() && m.storage == Some(7)
  {
    m := CreateMayBe(7);
  }

  /** An empty point reports nothing, holds `Point(1, 2)` after `MAYBE_INIT`,
      and at the end of its scope the destructor has destroyed every point that
      was built: one construction, one destruction. */
  method InitThenDestroy() returns (before: Option<Point>, during: Option<Point>, ghost built: nat, ghost killed: nat)
    ensures before == None && during == Some(Point(1.0, 2.0))
    ensures built == 1 && killed == 1
  {
    var point := new MayBe<Point>();
    before := point.Get();
    MaybeInit(point, Point(1.0, 2.0));
    during := point.Get();
    point.Destroy();
    built, killed := point.constructed, point.destroyed;
  }

  /** An empty point holds the default point after `ResetDefault()`. */
  method DefaultInit() returns (before: Option<Point>, during: Option<Point>)
    ensures before == None && during == Some(Origin)
  {
    var point := new MayBe<Point>();
    before := point.Get();
    point.ResetDefault(Origin);
    during := point.Get();
    point.Destroy();
  }

  /** A container holds 7 after `Reset(7)` and nothing again after `Reset()`. */
  method ResetScenario() returns (during: Option<int>, after: Option<int>)
    ensures during == Some(7) && after == None
  {
    var c := new MayBe<int>();
    c.ResetTo(7);
    during := c.Get();
    c.Reset();
    after := c.Get();
  }

  /** `CreateMayBe(existing)` holds a copy of `existing`, and the safe-bool
      conversion and `Get()` agree that it is engaged. */
  method CopyExisting() returns (engaged: bool, got: Option<Point>)
    ensures engaged && got == Some(Point(3.0, 4.0))
  {
    var existing := Point(3.0, 4.0);
    var point := CreateMayBe(existing);
    got := point.Get();
    engaged := point.IsEngaged();
  }

  /** A copy holds its own point: changing the copy's `x` to 9 leaves the
      original's `x` at 1. */
  method CopyIsIndependent() returns (originalX: real, copyX: real)
    ensures originalX == 1.0 && copyX == 9.0
  {
    var d := CreateMayBe(Point(1.0, 2.0));
    var e := new MayBe.Copy(d);
    var p := e.Value();
    e.AssignThrough(p.(x := 9.0));
    var q := d.Value();
    var r := e.Value();
    originalX, copyX := q.x, r.x;
  }

  /** Assigning an engaged container over an empty one constructs one object in
      the target and no destruction, and leaves the target holding the source's
      point, which it keeps when the source is changed afterwards. */
  method AssignOverEmpty() returns (target: Point, source: Point, ghost built: nat, ghost killed: nat)
    ensures target == Point(3.0, 4.0) && source == Point(5.0, 4.0)
    ensures built == 1 && killed == 0
  {
    var src := CreateMayBe(Point(3.0, 4.0));
    var dst := new MayBe<Point>();
    dst.Assign(src);
    built, killed := dst.constructed, dst.destroyed;
    src.AssignThrough(Point(5.0, 4.0));
    target := dst.Value();
    source := src.Value();
  }
}
