/** Placing the desktop window: which monitor it calls home, how it is pulled inside
    a work area, and where it goes as its views expand and collapse. */
module Window {
  import opened Prelude

  const I32_MAX := 0x7fff_ffff
  const I32_MIN := -0x8000_0000

  datatype Position = Position(x: int, y: int)
  datatype Size = Size(width: nat, height: nat)

  /** `n as i32` of an unsigned 32-bit size. */
  function AsI32(n: nat): int {
    var m := n % 0x1_0000_0000;
    if m <= I32_MAX then m else m - 0x1_0000_0000
  }

  /** The same number modulo two to the 32, as a signed one. */
  lemma AsI32Wraps(n: nat)
    ensures I32_MIN <= AsI32(n) <= I32_MAX && (n - AsI32(n)) % 0x1_0000_0000 == 0
  {
  }

  function Saturated(v: int): int {
    if v < I32_MIN then I32_MIN else if v > I32_MAX then I32_MAX else v
  }

  datatype Rect = Rect(x: int, y: int, width: nat, height: nat) {
    function Right(): int { Saturated(x + AsI32(width)) }

    function Bottom(): int { Saturated(y + AsI32(height)) }

    predicate Contains(px: int, py: int) {
      x <= px < Right() && y <= py < Bottom()
    }
  }

  /** A rectangle whose edges are 32-bit coordinates: nothing wraps or saturates. */
  predicate Sane(r: Rect) {
    && I32_MIN <= r.x && I32_MIN <= r.y && r.width <= I32_MAX && r.height <= I32_MAX
    && r.x + r.width <= I32_MAX && r.y + r.height <= I32_MAX
  }

  lemma SaneEdges(r: Rect)
    requires Sane(r)
    ensures r.Right() == r.x + r.width && r.Bottom() == r.y + r.height
  {
  }

  /** Edges past the 32-bit coordinates stop at the last one. */
  lemma EdgesStop(r: Rect)
    ensures var right, bottom := r.x + AsI32(r.width), r.y + AsI32(r.height);
      && (I32_MIN <= right <= I32_MAX ==> r.Right() == right) && (I32_MIN <= bottom <= I32_MAX ==> r.Bottom() == bottom)
      && (right > I32_MAX ==> r.Right() == I32_MAX) && (bottom > I32_MAX ==> r.Bottom() == I32_MAX)
      && (right < I32_MIN ==> r.Right() == I32_MIN) && (bottom < I32_MIN ==> r.Bottom() == I32_MIN)
  {
  }

  function RectAt(p: Position, size: Size): Rect {
    Rect(p.x, p.y, size.width, size.height)
  }

  function Min(a: int, b: int): int { if a <= b then a else b }

  function Max(a: int, b: int): int { if a >= b then a else b }

  function Distance(a: int, b: int): nat { if a <= b then b - a else a - b }

  // ------------------------------------------------------------ home monitor

  function Span(low: int, high: int, low': int, high': int): nat {
    Max(Min(high, high') - Max(low, low'), 0)
  }

  function OverlapArea(a: Rect, b: Rect): nat {
    Span(a.x, a.Right(), b.x, b.Right()) * Span(a.y, a.Bottom(), b.y, b.Bottom())
  }

  /** The largest overlap, if there is a monitor at all. */
  function MaxOverlap(window: Rect, monitors: seq<Rect>): Option<nat> {
    if monitors == [] then None
    else
      var here := OverlapArea(window, monitors[0]);
      match MaxOverlap(window, monitors[1..])
      case None => Some(here)
      case Some(rest) => Some(Max(here, rest))
  }

  function Overlapping(window: Rect, area: nat): Rect -> bool {
    m => OverlapArea(window, m) == area
  }

  function Containing(window: Rect): Rect -> bool {
    (m: Rect) => m.Contains(window.x, window.y)
  }

  /** `select_home_area`. */
  function HomeArea(window: Rect, monitors: seq<Rect>, fallback: Rect): Rect {
    var most := MaxOverlap(window, monitors);
    if most.None? then fallback
    else
      var candidates := Filter(monitors, Overlapping(window, most.value));
      if |candidates| == 1 then candidates[0]
      else
        var containing := Filter(candidates, Containing(window));
        if |containing| == 1 then containing[0] else fallback
  }

  lemma {:induction false} MaxOverlapIsMax(window: Rect, monitors: seq<Rect>)
    ensures var most := MaxOverlap(window, monitors);
      && (most.None? <==> monitors == [])
      && (most.Some? ==> forall m :: m in monitors ==> OverlapArea(window, m) <= most.value)
      && (most.Some? ==> exists m :: m in monitors && OverlapArea(window, m) == most.value)
  {
    if monitors != [] {
      MaxOverlapIsMax(window, monitors[1..]);
      assert monitors == [monitors[0]] + monitors[1..];
    }
  }

  /** Whatever the layout, the choice is the fallback or a monitor no other monitor
      overlaps more. */
  lemma HomeAreaIsBest(window: Rect, monitors: seq<Rect>, fallback: Rect)
    ensures var home := HomeArea(window, monitors, fallback);
      home == fallback ||
      (home in monitors && forall m :: m in monitors ==> OverlapArea(window, m) <= OverlapArea(window, home))
  {
    MaxOverlapIsMax(window, monitors);
    var most := MaxOverlap(window, monitors);
    if most.Some? {
      var candidates := Filter(monitors, Overlapping(window, most.value));
      var containing := Filter(candidates, Containing(window));
      if |candidates| == 1 {
        assert candidates[0] in candidates;
      } else if |containing| == 1 {
        assert containing[0] in containing && containing[0] in candidates;
      }
    }
  }

  /** `inner` lies wholly inside `outer`. */
  predicate Inside(inner: Rect, outer: Rect) {
    && outer.x <= inner.x && inner.x + inner.width <= outer.x + outer.width
    && outer.y <= inner.y && inner.y + inner.height <= outer.y + outer.height
  }

  predicate Apart(a: Rect, b: Rect) { OverlapArea(a, b) == 0 }

  /** A desktop whose monitors do not overlap. */
  ghost predicate Tiled(monitors: seq<Rect>) {
    && (forall m :: m in monitors ==> Sane(m))
    && (forall i, j :: 0 <= i < j < |monitors| ==> Apart(monitors[i], monitors[j]))
  }

  lemma ProductZero(a: nat, b: nat)
    ensures a * b == 0 <==> a == 0 || b == 0
  {
  }

  lemma InsideOverlap(window: Rect, m: Rect)
    requires Sane(window) && Sane(m) && Inside(window, m)
    ensures OverlapArea(window, m) == window.width * window.height
  {
    SaneEdges(window);
    SaneEdges(m);
  }

  lemma InsideApart(window: Rect, m: Rect, other: Rect)
    requires Sane(window) && Sane(m) && Sane(other) && Inside(window, m)
    requires Apart(m, other) || Apart(other, m)
    ensures OverlapArea(window, other) == 0
  {
    SaneEdges(window);
    SaneEdges(m);
    SaneEdges(other);
    ProductZero(Span(m.x, m.Right(), other.x, other.Right()), Span(m.y, m.Bottom(), other.y, other.Bottom()));
    ProductZero(Span(other.x, other.Right(), m.x, m.Right()), Span(other.y, other.Bottom(), m.y, m.Bottom()));
    ProductZero(Span(window.x, window.Right(), other.x, other.Right()),
                Span(window.y, window.Bottom(), other.y, other.Bottom()));
  }

  /** A window wholly inside one monitor of a tiled desktop is at home there. */
  lemma HomeIsWhereItLies(window: Rect, monitors: seq<Rect>, fallback: Rect, k: nat)
    requires Tiled(monitors) && k < |monitors| && Sane(window) && Inside(window, monitors[k])
    requires window.width > 0 && window.height > 0
    ensures HomeArea(window, monitors, fallback) == monitors[k]
  {
    var area := window.width * window.height;
    ProductZero(window.width, window.height);
    forall i | 0 <= i < |monitors|
      ensures OverlapArea(window, monitors[i]) == if i == k then area else 0
    {
      assert monitors[i] in monitors && monitors[k] in monitors;
      if i == k {
        InsideOverlap(window, monitors[k]);
      } else {
        InsideApart(window, monitors[k], monitors[i]);
      }
    }
    MaxOverlapIsMax(window, monitors);
    OnlyOne(monitors, Overlapping(window, area), k);
  }

  lemma {:induction false} OnlyOne(xs: seq<Rect>, p: Rect -> bool, k: nat)
    requires k < |xs| && forall i :: 0 <= i < |xs| ==> (p(xs[i]) <==> i == k)
    ensures Filter(xs, p) == [xs[k]]
  {
    if k == 0 {
      assert xs == [xs[0]] + xs[1..];
      FilterNone(xs[1..], p);
    } else {
      OnlyOne(xs[1..], p, k - 1);
    }
  }

  // ---------------------------------------------------------------- clamping

  function Clamped(v: int, low: int, high: int): int
    requires low <= high
  {
    if v < low then low else if v > high then high else v
  }

  /** `clamp_rect`: pull the window inside, keeping the top-left edge if it fits. */
  function ClampRect(desired: Position, size: Size, area: Rect): Position {
    var maxX := Max(area.Right() - AsI32(size.width), area.x);
    var maxY := Max(area.Bottom() - AsI32(size.height), area.y);
    Position(Clamped(desired.x, area.x, maxX), Clamped(desired.y, area.y, maxY))
  }

  predicate Fits(size: Size, area: Rect) {
    size.width <= area.width && size.height <= area.height
  }

  predicate Extent(size: Size) {
    size.width <= I32_MAX && size.height <= I32_MAX
  }

  /** A window that fits ends up wholly inside, and no placement inside is nearer
      in either direction; one that does not fit starts at the area's edge. */
  lemma ClampIsNearest(desired: Position, size: Size, area: Rect, other: Position)
    requires Sane(area) && Extent(size)
    ensures var placed := ClampRect(desired, size, area);
      && (Inside(RectAt(placed, size), area) <==> Fits(size, area))
      && (Inside(RectAt(other, size), area) ==>
            Distance(placed.x, desired.x) <= Distance(other.x, desired.x) &&
            Distance(placed.y, desired.y) <= Distance(other.y, desired.y))
      && (size.width > area.width ==> placed.x == area.x)
      && (size.height > area.height ==> placed.y == area.y)
  {
    SaneEdges(area);
  }

  /** A window already inside stays where it is, and no other place does. */
  lemma ClampKeeps(desired: Position, size: Size, area: Rect)
    requires Sane(area) && Extent(size) && Fits(size, area)
    ensures ClampRect(desired, size, area) == desired <==> Inside(RectAt(desired, size), area)
  {
    SaneEdges(area);
  }

  // ------------------------------------------------------------ the protocol

  /** What the operating system reports during one command: the monitors, the
      primary one, the one the window sits on. */
  datatype Desktop = Desktop(monitors: seq<Rect>, primary: Option<Rect>, current: Option<Rect>)

  /** One `resize_window` command: the view's size in pixels, its name, and whether
      the window's position and size could be read. */
  datatype View = View(target: Size, mode: string, seen: bool, sized: bool, desktop: Desktop)

  datatype Shell = Shell(position: Position, size: Size, mode: string,
                         anchor: Option<Position>, home: Option<Rect>, applied: Option<Position>)

  const MINI := "mini"

  /** `work_area_for`. */
  function WorkAreaFor(d: Desktop, window: Rect): Option<Rect> {
    var fallback := if d.primary.Some? then d.primary else if d.monitors != [] then Some(d.monitors[0]) else None;
    if fallback.None? then None else Some(HomeArea(window, d.monitors, fallback.value))
  }

  function CurrentWorkArea(d: Desktop): Option<Rect> {
    if d.current.Some? then d.current else d.primary
  }

  /** Where a collapsed window at `p` belongs. */
  function HomeOf(d: Desktop, window: Rect): Rect {
    WorkAreaFor(d, window).GetOr(window)
  }

  function Landing(p: Position, size: Size, d: Desktop): Position {
    ClampRect(p, size, HomeOf(d, RectAt(p, size)))
  }

  function Collapsed(s: Shell, v: View): Shell {
    var moved := !v.seen || s.applied != Some(s.position);
    var desired := if !moved && s.anchor.Some? then s.anchor.value else s.position;
    if !v.seen then s.(mode := MINI)
    else
      var placed := Landing(desired, v.target, v.desktop);
      Shell(placed, v.target, MINI, Some(placed), Some(HomeOf(v.desktop, RectAt(desired, v.target))), Some(placed))
  }

  /** Expanding from `mini` remembers where the collapsed window was. */
  function Anchored(s: Shell, v: View): Shell {
    if s.mode == MINI && v.seen && v.sized then
      s.(anchor := Some(s.position), home := Some(HomeOf(v.desktop, RectAt(s.position, s.size))))
    else s
  }

  function ViewHome(s: Shell, v: View): Option<Rect> {
    if s.mode != MINI && CurrentWorkArea(v.desktop).Some? then CurrentWorkArea(v.desktop) else Anchored(s, v).home
  }

  function Expanded(s: Shell, v: View): Shell {
    var home := ViewHome(s, v);
    var t := Anchored(s, v).(size := v.target, mode := v.mode);
    if home.None? || !v.seen then t
    else
      var placed := ClampRect(s.position, v.target, home.value);
      if placed == s.position then t else t.(position := placed, applied := Some(placed))
  }

  /** `resize_window`. */
  function Resized(s: Shell, v: View): Shell {
    if v.mode == MINI then Collapsed(s, v) else Expanded(s, v)
  }

  /** The user drags the window. */
  function Dragged(s: Shell, p: Position): Shell {
    s.(position := p)
  }

  function Resizes(s: Shell, views: seq<View>): Shell {
    if views == [] then s else Resized(Resizes(s, views[..|views| - 1]), views[|views| - 1])
  }

  /** The application state and the window it drives. */
  class WindowShell {
    var position: Position
    var size: Size
    var windowMode: string
    var miniAnchor: Option<Position>
    var miniHome: Option<Rect>
    var appliedPosition: Option<Position>

    ghost function State(): Shell
      reads this
    {
      Shell(position, size, windowMode, miniAnchor, miniHome, appliedPosition)
    }

    constructor (position: Position, size: Size)
      ensures State() == Shell(position, size, MINI, None, None, None)
    {
      this.position, this.size, windowMode := position, size, MINI;
      miniAnchor, miniHome, appliedPosition := None, None, None;
    }

    method ResizeWindow(v: View)
      modifies this
      ensures State() == Resized(old(State()), v)
    {
      if v.mode == MINI {
        Collapse(v);
        return;
      }
      var wasMini := windowMode == MINI;
      var home;
      if wasMini {
        if v.seen && v.sized {
          var rect := RectAt(position, size);
          miniAnchor := Some(position);
          miniHome := Some(HomeOf(v.desktop, rect));
        }
        home := miniHome;
      } else {
        home := CurrentWorkArea(v.desktop);
        if home.None? {
          home := miniHome;
        }
      }
      size := v.target;
      if home.Some? && v.seen {
        var placed := ClampRect(position, v.target, home.value);
        if placed != position {
          position := placed;
          appliedPosition := Some(placed);
        }
      }
      windowMode := v.mode;
    }

    method Collapse(v: View)
      modifies this
      ensures State() == Collapsed(old(State()), v)
    {
      if !v.seen {
        windowMode := MINI;
        return;
      }
      var moved := appliedPosition != Some(position);
      var desired := if moved || miniAnchor.None? then position else miniAnchor.value;
      var home := HomeOf(v.desktop, RectAt(desired, v.target));
      var placed := ClampRect(desired, v.target, home);
      size := v.target;
      position := placed;
      miniAnchor, miniHome, appliedPosition := Some(placed), Some(home), Some(placed);
      windowMode := MINI;
    }
  }

  // ------------------------------------------------------ where views are put

  /** `k` is the only monitor with this property. */
  ghost predicate Only(monitors: seq<Rect>, p: Rect -> bool, k: int) {
    0 <= k < |monitors| && forall i :: 0 <= i < |monitors| ==> (p(monitors[i]) <==> i == k)
  }

  /** The monitor at `k` shares as much area with the window as any. */
  predicate Most(window: Rect, monitors: seq<Rect>, m: Rect) {
    forall other :: other in monitors ==> OverlapArea(window, other) <= OverlapArea(window, m)
  }

  function MostOverlapped(window: Rect, monitors: seq<Rect>): Rect -> bool {
    m => Most(window, monitors, m)
  }

  function MostAtCorner(window: Rect, monitors: seq<Rect>): Rect -> bool {
    m => Most(window, monitors, m) && UnderCorner(window, m)
  }

  /** The window's top-left corner lies on the monitor, whose right and bottom edges are
      not part of it. */
  predicate UnderCorner(window: Rect, m: Rect) {
    m.x <= window.x && window.x < m.Right() && m.y <= window.y && window.y < m.Bottom()
  }

  lemma MostIsMax(window: Rect, monitors: seq<Rect>, m: Rect)
    requires m in monitors
    ensures Most(window, monitors, m) <==> Some(OverlapArea(window, m)) == MaxOverlap(window, monitors)
  {
    MaxOverlapIsMax(window, monitors);
  }

  lemma {:induction false} OneLeft(xs: seq<Rect>, p: Rect -> bool) returns (k: nat)
    requires |Filter(xs, p)| == 1
    ensures Only(xs, p, k) && Filter(xs, p) == [xs[k]]
  {
    if p(xs[0]) {
      k := 0;
      forall i | 0 < i < |xs| ensures !p(xs[i]) {
        assert xs[i] == xs[1..][i - 1] && xs[i] in xs[1..];
      }
    } else {
      var j := OneLeft(xs[1..], p);
      k := j + 1;
      forall i | 0 <= i < |xs| ensures p(xs[i]) <==> i == k {
        if i > 0 {
          assert xs[i] == xs[1..][i - 1];
        }
      }
    }
  }

  /** `m` is the one monitor with this property. */
  ghost predicate Alone(monitors: seq<Rect>, p: Rect -> bool, m: Rect) {
    exists k :: Only(monitors, p, k) && monitors[k] == m
  }

  lemma AloneFilter(monitors: seq<Rect>, p: Rect -> bool, m: Rect)
    ensures Alone(monitors, p, m) <==> Filter(monitors, p) == [m]
  {
    if Alone(monitors, p, m) {
      var k :| Only(monitors, p, k) && monitors[k] == m;
      OnlyOne(monitors, p, k);
    }
    if Filter(monitors, p) == [m] {
      var k := OneLeft(monitors, p);
    }
  }

  lemma BestAgree(window: Rect, monitors: seq<Rect>, most: nat)
    requires MaxOverlap(window, monitors) == Some(most)
    ensures var best := Filter(monitors, Overlapping(window, most));
      && best == Filter(monitors, MostOverlapped(window, monitors))
      && Filter(best, Containing(window)) == Filter(monitors, MostAtCorner(window, monitors))
  {
    forall m | m in monitors ensures Overlapping(window, most)(m) == MostOverlapped(window, monitors)(m) {
      MostIsMax(window, monitors, m);
    }
    FilterAgree(monitors, Overlapping(window, most), MostOverlapped(window, monitors));
    FilterCompose(monitors, Containing(window), MostOverlapped(window, monitors), MostAtCorner(window, monitors));
  }

  lemma HomeOfFilters(window: Rect, monitors: seq<Rect>, fallback: Rect)
    ensures var best := Filter(monitors, MostOverlapped(window, monitors));
      var corner := Filter(monitors, MostAtCorner(window, monitors));
      HomeArea(window, monitors, fallback) ==
        if |best| == 1 then best[0] else if |corner| == 1 then corner[0] else fallback
  {
    MaxOverlapIsMax(window, monitors);
    if monitors != [] {
      BestAgree(window, monitors, MaxOverlap(window, monitors).value);
    }
  }

  /** The choice, exactly: the monitor the window overlaps most, if that is one; of
      several the one under its top-left corner, if that is one; else the fallback. */
  lemma HomeAreaExactly(window: Rect, monitors: seq<Rect>, fallback: Rect, home: Rect)
    requires home == HomeArea(window, monitors, fallback)
    ensures forall m :: Alone(monitors, MostOverlapped(window, monitors), m) ==> home == m
    ensures (forall m :: !Alone(monitors, MostOverlapped(window, monitors), m)) ==>
              forall m :: Alone(monitors, MostAtCorner(window, monitors), m) ==> home == m
    ensures (forall m :: !Alone(monitors, MostOverlapped(window, monitors), m) &&
                         !Alone(monitors, MostAtCorner(window, monitors), m)) ==> home == fallback
  {
    HomeOfFilters(window, monitors, fallback);
    forall m ensures Alone(monitors, MostOverlapped(window, monitors), m) <==>
                     Filter(monitors, MostOverlapped(window, monitors)) == [m] {
      AloneFilter(monitors, MostOverlapped(window, monitors), m);
    }
    forall m ensures Alone(monitors, MostAtCorner(window, monitors), m) <==>
                     Filter(monitors, MostAtCorner(window, monitors)) == [m] {
      AloneFilter(monitors, MostAtCorner(window, monitors), m);
    }
    OfOne(Filter(monitors, MostOverlapped(window, monitors)));
    OfOne(Filter(monitors, MostAtCorner(window, monitors)));
  }

  lemma OfOne(xs: seq<Rect>)
    ensures |xs| == 1 ==> xs == [xs[0]]
  {
  }

  /** The work area a view change keeps the window in: expanding from the collapsed view,
      the one the collapsed window called home, or if the window cannot be measured the
      one remembered; while expanded the current monitor's, else the primary's, else the
      one remembered. */
  predicate Holds(s: Shell, v: View, area: Rect) {
    if s.mode == "mini" then
      if v.seen && v.sized then area == HomeOf(v.desktop, RectAt(s.position, s.size)) else s.home == Some(area)
    else if v.desktop.current.Some? then v.desktop.current == Some(area)
    else if v.desktop.primary.Some? then v.desktop.primary == Some(area)
    else s.home == Some(area)
  }

  /** A change to an expanded view has the target's size and mode, and puts the window
      wholly inside its work area if and only if it fits, no place inside being nearer;
      it stays put if and only if it was inside already. */
  lemma ViewPlaced(s: Shell, v: View, area: Rect, other: Position)
    requires v.mode != "mini" && v.seen && Holds(s, v, area) && Sane(area) && Extent(v.target)
    ensures var t := Resizes(s, [v]);
      && t.size == v.target && t.mode == v.mode
      && (Inside(RectAt(t.position, t.size), area) <==> Fits(v.target, area))
      && (Fits(v.target, area) ==> (t.position == s.position <==> Inside(RectAt(s.position, v.target), area)))
      && (Inside(RectAt(other, v.target), area) ==>
            Distance(t.position.x, s.position.x) <= Distance(other.x, s.position.x) &&
            Distance(t.position.y, s.position.y) <= Distance(other.y, s.position.y))
      && (v.target.width > area.width ==> t.position.x == area.x)
      && (v.target.height > area.height ==> t.position.y == area.y)
  {
    OneView(s, v);
    ClampIsNearest(s.position, v.target, area, other);
    if Fits(v.target, area) {
      ClampKeeps(s.position, v.target, area);
    }
  }

  lemma OneView(s: Shell, v: View)
    ensures Resizes(s, [v]) == Resized(s, v)
  {
    assert [v][..0] == [] && Resizes(s, []) == s;
  }

  /** What it remembers: from the collapsed view, where that window was and its home; and
      where it put the window, if it moved it. */
  lemma ViewRemembers(s: Shell, v: View)
    requires v.mode != "mini"
    ensures var t := Resizes(s, [v]);
      && (s.mode == "mini" && v.seen && v.sized ==>
            t.anchor == Some(s.position) && t.home == Some(HomeOf(v.desktop, RectAt(s.position, s.size))))
      && (s.mode != "mini" || !v.seen || !v.sized ==> t.anchor == s.anchor && t.home == s.home)
      && (t.position != s.position ==> t.applied == Some(t.position))
      && (t.position == s.position ==> t.applied == s.applied)
  {
    OneView(s, v);
  }

  /** A window whose place cannot be read, or that has no work area, is only resized. */
  lemma ViewUnplaced(s: Shell, v: View)
    requires v.mode != "mini" && (!v.seen || forall area :: !Holds(s, v, area))
    ensures var t := Resizes(s, [v]);
      t.position == s.position && t.size == v.target && t.mode == v.mode && t.applied == s.applied
  {
    OneView(s, v);
    if v.seen && ViewHome(s, v).Some? {
      assert Holds(s, v, ViewHome(s, v).value);
    }
  }

  /** Where a collapse wants the window: back where it was anchored, if the window is
      where the program last put it, else where it is now. */
  predicate Wants(s: Shell, p: Position) {
    p == if s.applied == Some(s.position) && s.anchor.Some? then s.anchor.value else s.position
  }

  /** Collapsing gives the window its size and puts it, from where it wants to be, wholly
      inside its work area there if and only if it fits, no place inside being nearer; it
      is anchored where it is put. */
  lemma CollapsePlaced(s: Shell, v: View, p: Position, other: Position)
    requires v.mode == "mini" && v.seen && Wants(s, p)
    requires Sane(HomeOf(v.desktop, RectAt(p, v.target))) && Extent(v.target)
    ensures var t, area := Resizes(s, [v]), HomeOf(v.desktop, RectAt(p, v.target));
      && t.size == v.target && t.mode == "mini" && t.home == Some(area)
      && t.anchor == Some(t.position) && t.applied == Some(t.position)
      && (Inside(RectAt(t.position, t.size), area) <==> Fits(v.target, area))
      && (Fits(v.target, area) ==> (t.position == p <==> Inside(RectAt(p, v.target), area)))
      && (Inside(RectAt(other, v.target), area) ==>
            Distance(t.position.x, p.x) <= Distance(other.x, p.x) &&
            Distance(t.position.y, p.y) <= Distance(other.y, p.y))
  {
    var area := HomeOf(v.desktop, RectAt(p, v.target));
    OneView(s, v);
    ClampIsNearest(p, v.target, area, other);
    if Fits(v.target, area) {
      ClampKeeps(p, v.target, area);
    }
  }

  /** A window whose place cannot be read only becomes the collapsed view by name. */
  lemma CollapseUnseen(s: Shell, v: View)
    requires v.mode == "mini" && !v.seen
    ensures Resizes(s, [v]) == s.(mode := "mini")
  {
    OneView(s, v);
  }

  /** The home of a window on a desktop: the chosen monitor, the primary or else the first
      one falling back; without monitors the window's own place. */
  lemma HomeOnDesktop(d: Desktop, window: Rect)
    ensures d.primary.Some? ==> HomeOf(d, window) == HomeArea(window, d.monitors, d.primary.value)
    ensures d.primary.None? && d.monitors != [] ==> HomeOf(d, window) == HomeArea(window, d.monitors, d.monitors[0])
    ensures d.primary.None? && d.monitors == [] ==> HomeOf(d, window) == window
  {
  }

  // ---------------------------------------------------------------- theorems

  /** While expanded from a collapsed window at `p`: the anchor is `p`, and the
      window is at `p` or where a view change last put it. */
  predicate Away(s: Shell, p: Position) {
    s.mode != MINI && s.anchor == Some(p) && (s.position == p || s.applied == Some(s.position))
  }

  /** Collapsed at `p`, and if a command put it there, anchored there. */
  predicate Rested(s: Shell, p: Position) {
    s.mode == MINI && s.position == p && (s.applied == Some(p) && s.anchor.Some? ==> s.anchor == Some(p))
  }

  /** The collapsed window of this command's size has a place at `p` in its work area. */
  predicate Fitting(p: Position, v: View) {
    var window := RectAt(p, v.target);
    Sane(HomeOf(v.desktop, window)) && Extent(v.target) && Inside(window, HomeOf(v.desktop, window))
  }

  /** A command that leaves a window at home at `p` at home there: expanding from the
      collapsed view can read the window, and collapsing finds that it fits at `p`. */
  predicate Keeps(s: Shell, v: View, p: Position) {
    if v.mode == MINI then v.seen && Fitting(p, v) && (s.mode == MINI ==> Rested(s, p))
    else s.mode == MINI ==> v.seen && v.sized
  }

  predicate AllKeep(s: Shell, views: seq<View>, p: Position) {
    views == [] ||
    (AllKeep(s, views[..|views| - 1], p) && Keeps(Resizes(s, views[..|views| - 1]), views[|views| - 1], p))
  }

  lemma FittingLands(p: Position, v: View)
    requires Fitting(p, v)
    ensures Landing(p, v.target, v.desktop) == p
  {
    ClampKeeps(p, v.target, HomeOf(v.desktop, RectAt(p, v.target)));
  }

  lemma {:induction false} StaysHome(s: Shell, views: seq<View>, p: Position)
    requires s.mode == MINI && s.position == p && AllKeep(s, views, p)
    ensures var t := Resizes(s, views);
      Away(t, p) || (if views == [] then t == s else Rested(t, p))
  {
    if views != [] {
      var rest, v := views[..|views| - 1], views[|views| - 1];
      StaysHome(s, rest, p);
      if v.mode == MINI {
        FittingLands(p, v);
      }
    }
  }

  /** Collapsing after any commands without a drag, among them collapses to sizes that
      fit, lands where the collapsed window would be placed now, had it never moved. */
  lemma ReturnsToAnchor(s: Shell, views: seq<View>, v: View)
    requires s.mode == MINI && AllKeep(s, views, s.position) && (views == [] ==> Rested(s, s.position))
    requires v.mode == MINI && v.seen
    ensures var t := Resized(Resizes(s, views), v);
      t.position == Landing(s.position, v.target, v.desktop) && t.anchor == Some(t.position) && Rested(t, t.position)
  {
    StaysHome(s, views, s.position);
  }

  /** It comes back to the exact place it expanded from if and only if it lies wholly
      inside its work area there, on any desktop whose work area it fits. */
  lemma ReturnsHome(s: Shell, views: seq<View>, v: View)
    requires s.mode == MINI && AllKeep(s, views, s.position) && (views == [] ==> Rested(s, s.position))
    requires v.mode == MINI && v.seen
    requires var home := HomeOf(v.desktop, RectAt(s.position, v.target));
      Sane(home) && Extent(v.target) && Fits(v.target, home)
    ensures Resized(Resizes(s, views), v).position == s.position <==>
            Inside(RectAt(s.position, v.target), HomeOf(v.desktop, RectAt(s.position, v.target)))
  {
    ReturnsToAnchor(s, views, v);
    ClampKeeps(s.position, v.target, HomeOf(v.desktop, RectAt(s.position, v.target)));
  }

  /** In particular a window wholly inside one monitor of a desktop whose monitors do not
      overlap always does. */
  lemma ReturnsToMonitor(s: Shell, views: seq<View>, v: View, k: nat)
    requires s.mode == MINI && AllKeep(s, views, s.position) && (views == [] ==> Rested(s, s.position))
    requires v.mode == MINI && v.seen
    requires Tiled(v.desktop.monitors) && k < |v.desktop.monitors|
    requires Sane(RectAt(s.position, v.target)) && v.target.width > 0 && v.target.height > 0
    requires Inside(RectAt(s.position, v.target), v.desktop.monitors[k])
    ensures Resized(Resizes(s, views), v).position == s.position
  {
    var window, m := RectAt(s.position, v.target), v.desktop.monitors[k];
    assert m in v.desktop.monitors;
    var fallback := if v.desktop.primary.Some? then v.desktop.primary.value else v.desktop.monitors[0];
    HomeIsWhereItLies(window, v.desktop.monitors, fallback, k);
    ReturnsHome(s, views, v);
  }

  /** No view change after the drag had to pull the window back inside. */
  predicate LeftAlone(s: Shell, v: View) {
    var home := if CurrentWorkArea(v.desktop).Some? then CurrentWorkArea(v.desktop) else s.home;
    home.None? || !v.seen || ClampRect(s.position, v.target, home.value) == s.position
  }

  predicate AllLeftAlone(s: Shell, views: seq<View>) {
    forall v :: v in views ==> LeftAlone(s, v)
  }

  lemma {:induction false} AfterDrag(s: Shell, views: seq<View>)
    requires s.mode != MINI && s.applied != Some(s.position) && forall v :: v in views ==> v.mode != MINI
    ensures var t := Resizes(s, views);
      && t.mode != MINI && t.anchor == s.anchor && t.home == s.home
      && (AllLeftAlone(s, views) ==> t.position == s.position && t.applied == s.applied)
      && (!AllLeftAlone(s, views) ==> t.applied == Some(t.position))
  {
    if views != [] {
      var rest, v := views[..|views| - 1], views[|views| - 1];
      assert views == rest + [v] && v in views;
      AfterDrag(s, rest);
      assert AllLeftAlone(s, views) <==> AllLeftAlone(s, rest) && LeftAlone(s, v);
    }
  }

  /** A drag while expanded wins over the remembered place exactly when no later view
      change had to move the window; one that did makes the collapse forget the drag. */
  lemma DragOutcome(s: Shell, p: Position, views: seq<View>, v: View)
    requires s.mode != MINI && s.anchor.Some? && s.applied != Some(p)
    requires (forall u :: u in views ==> u.mode != MINI) && v.mode == MINI && v.seen
    ensures var dragged := Dragged(s, p);
      Resized(Resizes(dragged, views), v).position ==
        Landing(if AllLeftAlone(dragged, views) then p else s.anchor.value, v.target, v.desktop)
  {
    AfterDrag(Dragged(s, p), views);
  }
}
