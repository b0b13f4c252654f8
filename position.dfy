/**
 * The position mapper (updateTrolleyPosition in script.js): a pure map from the
 * trolley's progress, the viewport size, the trolley element's size and the
 * direction settings to the pixel offset written to the element's left/top.
 *
 * Progress is counted in eighths of a percent (0..Max), directions in
 * hundredths (DIRECTION_Y = 0.65 is 65), and Math.round is modelled exactly
 * on rationals as rounding to the nearest integer with ties upward.
 */
module Position {
  import opened Wrappers
  import opened Progress
  /** The denominator of a direction weight: directions are in hundredths. */
  const DirScale: int := 100

  /** DIRECTION_X, DIRECTION_Y (hundredths) and START_X, START_Y (pixels). */
  datatype Config = Config(dirX: int, dirY: int, startX: int, startY: int)

  /** The settings at the top of the script: right, 0.65 down, starting at (0, 50). */
  const Default := Config(100, 65, 0, 50)

  datatype Size = Size(width: int, height: int)
  datatype Offset = Offset(left: int, top: int)

  /** What updateTrolleyPosition reads from the page: the window size and the
      trolley element's bounding box, absent when the element does not exist. */
  datatype Page = Page(viewport: Size, trolley: Option<Size>)

  /** Math.round(n / d): the nearest integer to n / d, halves rounded upward. */
  function RoundDiv(n: int, d: int): (r: int)
    requires d > 0
    ensures 2 * d * r <= 2 * n + d < 2 * d * r + 2 * d
  {
    (2 * n + d) / (2 * d)
  }

  /** Multiplying by a non-negative factor keeps an inequality. */
  lemma MulLe(k: int, a: int, b: int)
    requires k >= 0 && a <= b
    ensures k * a <= k * b
  {
  }

  /** Only one integer lies within half a unit (ties upward) of n / d. */
  lemma RoundUnique(n: int, d: int, r: int)
    requires d > 0
    requires 2 * d * r <= 2 * n + d < 2 * d * r + 2 * d
    ensures r == RoundDiv(n, d)
  {
    var q := RoundDiv(n, d);
    if r < q {
      MulLe(2 * d, r + 1, q);
    } else if r > q {
      MulLe(2 * d, q + 1, r);
    }
  }

  /** Rounding does not reverse the order of its arguments. */
  lemma RoundMonotone(n1: int, n2: int, d: int)
    requires d > 0 && n1 <= n2
    ensures RoundDiv(n1, d) <= RoundDiv(n2, d)
  {
    var r1, r2 := RoundDiv(n1, d), RoundDiv(n2, d);
    if r1 > r2 {
      MulLe(2 * d, r2 + 1, r1);
    }
  }

  /** Scaling numerator and denominator alike does not change the rounded quotient. */
  lemma RoundScale(n: int, d: int, k: int)
    requires d > 0 && k > 0
    ensures RoundDiv(k * n, k * d) == RoundDiv(n, d)
  {
    var r := RoundDiv(n, d);
    assert k * (2 * d * r) <= k * (2 * n + d);
    assert k * (2 * n + d) < k * (2 * d * r + 2 * d);
    RoundUnique(k * n, k * d, r);
  }

  /** maxTravelX / maxTravelY: the room left in the direction of travel when the
      direction is positive, and the start offset itself otherwise. */
  function MaxTravel(dir: int, track: int, elem: int, start: int): int
  {
    if dir > 0 then track - elem - start else start
  }

  /** One coordinate: start + Math.round((progress / 100) * maxTravel * direction). */
  function AxisOffset(progress: int, dir: int, track: int, elem: int, start: int): int
  {
    start + RoundDiv(progress * MaxTravel(dir, track, elem, start) * dir, Max * DirScale)
  }

  /** The offset computed by updateTrolleyPosition for a trolley element of the given size. */
  function TrolleyOffset(cfg: Config, progress: int, viewport: Size, trolley: Size): Offset
  {
    Offset(AxisOffset(progress, cfg.dirX, viewport.width, trolley.width, cfg.startX),
           AxisOffset(progress, cfg.dirY, viewport.height, trolley.height, cfg.startY))
  }

  /** updateTrolleyPosition: no offset at all when the trolley element is missing. */
  function UpdateTrolleyPosition(cfg: Config, progress: int, page: Page): (r: Option<Offset>)
    ensures r.None? <==> page.trolley.None?
    ensures r.Some? ==> r.value == TrolleyOffset(cfg, progress, page.viewport, page.trolley.value)
  {
    match page.trolley
    case None => None
    case Some(t) => Some(TrolleyOffset(cfg, progress, page.viewport, t))
  }

  /** At progress 0 the trolley sits exactly at its start offset. */
  lemma OffsetAtStart(dir: int, track: int, elem: int, start: int)
    ensures AxisOffset(0, dir, track, elem, start) == start
  {
    RoundUnique(0, Max * DirScale, 0);
  }

  /** At progress 100 the offset is start + Math.round(maxTravel * direction). */
  lemma OffsetAtFull(dir: int, track: int, elem: int, start: int)
    ensures AxisOffset(Max, dir, track, elem, start)
         == start + RoundDiv(MaxTravel(dir, track, elem, start) * dir, DirScale)
  {
    var m := MaxTravel(dir, track, elem, start);
    assert Max * m * dir == Max * (m * dir);
    RoundScale(m * dir, DirScale, Max);
  }

  /** With a positive direction and room to travel, more progress never moves the trolley back. */
  lemma OffsetMonotone(p1: int, p2: int, dir: int, track: int, elem: int, start: int)
    requires 0 <= p1 <= p2
    requires dir > 0 && MaxTravel(dir, track, elem, start) >= 0
    ensures AxisOffset(p1, dir, track, elem, start) <= AxisOffset(p2, dir, track, elem, start)
  {
    var m := MaxTravel(dir, track, elem, start);
    assert p1 * m <= p2 * m;
    assert p1 * m * dir <= p2 * m * dir;
    RoundMonotone(p1 * m * dir, p2 * m * dir, Max * DirScale);
  }

  /** p · m · dir lies between 0 and m times the full scale when progress is in
      [0, 100] and the direction in (0, 1]. */
  lemma TravelProductBounds(p: int, m: int, dir: int)
    requires 0 <= p <= Max && m >= 0 && 0 < dir <= DirScale
    ensures 0 <= p * m * dir <= (Max * DirScale) * m
  {
    MulLe(m, p, Max);
    assert p * m <= Max * m;
    MulLe(dir, p * m, Max * m);
    assert p * m * dir <= Max * m * dir;
    MulLe(Max * m, dir, DirScale);
    assert Max * m * dir <= Max * m * DirScale;
  }

  /** With a direction in (0, 1] and a trolley that fits, every progress in
      [0, 100] keeps the coordinate between the start and the far edge of the
      viewport less the trolley's size. */
  lemma OffsetWithinTrack(p: int, dir: int, track: int, elem: int, start: int)
    requires 0 <= p <= Max
    requires 0 < dir <= DirScale
    requires track - elem - start >= 0
    ensures start <= AxisOffset(p, dir, track, elem, start) <= track - elem
  {
    var m, d := track - elem - start, Max * DirScale;
    TravelProductBounds(p, m, dir);
    RoundMonotone(0, p * m * dir, d);
    RoundUnique(0, d, 0);
    RoundMonotone(p * m * dir, d * m, d);
    RoundUnique(d * m, d, m);
  }

  /** p · start · dir lies between -start times the full scale and 0 when
      progress is in [0, 100] and the direction in [-1, 0]. */
  lemma BackwardProductBounds(p: int, start: int, dir: int)
    requires 0 <= p <= Max && start >= 0 && -DirScale <= dir <= 0
    ensures -(Max * DirScale) * start <= p * start * dir <= 0
  {
    var a := p * start;
    MulLe(start, p, Max);
    assert 0 <= a <= Max * start;
    MulLe(a, -dir, DirScale);
    assert a * -dir <= a * DirScale;
    MulLe(DirScale, a, Max * start);
    assert a * DirScale <= Max * start * DirScale;
    assert a * dir == -(a * -dir);
  }

  /** With a direction in [-1, 0] (left, up or no movement), max travel is the
      start offset itself, and every progress in [0, 100] keeps the coordinate
      between 0 and the start. */
  lemma OffsetWithinStart(p: int, dir: int, track: int, elem: int, start: int)
    requires 0 <= p <= Max
    requires -DirScale <= dir <= 0
    requires start >= 0
    ensures 0 <= AxisOffset(p, dir, track, elem, start) <= start
  {
    var n, d := p * start * dir, Max * DirScale;
    BackwardProductBounds(p, start, dir);
    RoundMonotone(n, 0, d);
    RoundUnique(0, d, 0);
    RoundMonotone(-d * start, n, d);
    RoundUnique(-d * start, d, -start);
  }

  /** The script's own settings: whenever the trolley fits below and right of
      its start, it stays on screen for all progress in [0, 100]. */
  lemma DefaultStaysOnScreen(p: int, viewport: Size, trolley: Size)
    requires 0 <= p <= Max
    requires viewport.width - trolley.width >= Default.startX
    requires viewport.height - trolley.height >= Default.startY
    ensures var o := TrolleyOffset(Default, p, viewport, trolley);
      Default.startX <= o.left <= viewport.width - trolley.width &&
      Default.startY <= o.top <= viewport.height - trolley.height
  {
    OffsetWithinTrack(p, Default.dirX, viewport.width, trolley.width, Default.startX);
    OffsetWithinTrack(p, Default.dirY, viewport.height, trolley.height, Default.startY);
  }
}
