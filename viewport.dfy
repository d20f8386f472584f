/** The viewport sizer: canvas dimensions from the window size and the device
    class (`setCanvasSize`), and the per-entity repositioning that follows a
    resize (`updateGamePositions`).

    `canvas.width` and `canvas.height` are integer attributes of an HTML
    canvas: a fractional value assigned to them is truncated. The window
    dimensions are integers too. */
module Viewport {
  import opened Entities

  /** What the host window reports: `innerWidth`, `innerHeight`, and whether
      the user agent looks like a mobile device. */
  datatype Host = Host(innerWidth: nat, innerHeight: nat, isMobile: bool)

  datatype Size = Size(width: int, height: int)

  const MaxDesktopWidth: real := 1200.0
  const MaxDesktopHeight: real := 600.0

  function Min(a: real, b: real): real {
    if a <= b then a else b
  }

  /** Truncation of a non-negative number, as an assignment to a canvas dimension does. */
  function Truncate(r: real): (n: int)
    requires r >= 0.0
    ensures 0 <= n && n as real <= r < n as real + 1.0
  {
    r.Floor
  }

  /** `setCanvasSize`: mobile landscape takes the window as it is, mobile portrait
      is twice as wide as the window is high, and a desktop canvas fits in 90% by
      80% of the window, at most 1200 by 600, at a 2:1 ratio up to the pixel
      lost to truncation. */
  function CanvasSize(host: Host): (s: Size)
    ensures 0 <= s.width && 0 <= s.height
    ensures host.isMobile && host.innerWidth > host.innerHeight ==>
      s == Size(host.innerWidth, host.innerHeight)
    ensures host.isMobile && host.innerWidth <= host.innerHeight ==>
      s.width == 2 * host.innerHeight && s.height == host.innerHeight
    ensures !host.isMobile ==>
      s.width as real <= MaxDesktopWidth && s.height as real <= MaxDesktopHeight
      && s.width as real <= host.innerWidth as real * 0.9
      && s.height as real <= host.innerHeight as real * 0.8
      && 2 * s.height <= s.width <= 2 * s.height + 1
    ensures !host.isMobile ==>
      var maxWidth := Min(host.innerWidth as real * 0.9, MaxDesktopWidth);
      var maxHeight := Min(host.innerHeight as real * 0.8, MaxDesktopHeight);
      maxWidth < s.width as real + 1.0 || maxHeight < s.height as real + 1.0
  {
    if host.isMobile then
      if host.innerWidth > host.innerHeight then
        Size(host.innerWidth, host.innerHeight)
      else
        Size(host.innerHeight * 2, host.innerHeight)
    else
      var maxWidth := Min(host.innerWidth as real * 0.9, MaxDesktopWidth);
      var maxHeight := Min(host.innerHeight as real * 0.8, MaxDesktopHeight);
      // `maxWidth / maxHeight > 2`; with maxHeight == 0 the JavaScript quotient
      // is Infinity (true) or NaN (false) exactly when maxWidth > 0 or not.
      if maxWidth > 2.0 * maxHeight then
        DoubleFloor(maxHeight);
        Size(Truncate(maxHeight * 2.0), Truncate(maxHeight))
      else
        HalfFloor(maxWidth);
        Size(Truncate(maxWidth), Truncate(maxWidth / 2.0))
  }

  lemma DoubleFloor(m: real)
    requires m >= 0.0
    ensures 2 * m.Floor <= (m * 2.0).Floor <= 2 * m.Floor + 1
  {
  }

  lemma HalfFloor(m: real)
    requires m >= 0.0
    ensures 2 * (m / 2.0).Floor <= m.Floor <= 2 * (m / 2.0).Floor + 1
  {
  }

  /** A 1010 by 1000 desktop window gives a 909 by 454 canvas: the 2:1 ratio of
      the desktop branch is off by the truncated half pixel. */
  lemma DesktopRatioOffByOne()
    ensures CanvasSize(Host(1010, 1000, false)) == Size(909, 454)
  {
  }

  /** The two draws a cloud may take when a resize moves it. */
  datatype Reloc = Reloc(rx: real, ry: real) {
    predicate Valid() {
      Unit(rx) && Unit(ry)
    }
  }

  /** One step of the cloud `forEach` in `updateGamePositions`: a cloud right of
      the new canvas is put back within 500 pixels of its right edge, and a cloud
      below the upper half is put back into it; nothing else about it changes. */
  function Relocate(c: Cloud, size: Size, d: Reloc): (r: Cloud)
    requires d.Valid() && size.width >= 0 && size.height >= 0
    ensures r.width == c.width && r.height == c.height && r.speed == c.speed
    ensures c.x <= size.width as real ==> r.x == c.x
    ensures c.x > size.width as real ==> size.width as real <= r.x < size.width as real + 500.0
    ensures c.y <= size.height as real * 0.5 ==> r.y == c.y
    ensures c.y > size.height as real * 0.5 ==> 0.0 <= r.y <= size.height as real * 0.5
  {
    var half := size.height as real * 0.5;
    var x := if c.x > size.width as real then size.width as real + d.rx * 500.0 else c.x;
    assert d.ry * half <= half;
    var y := if c.y > half then d.ry * half else c.y;
    c.(x := x, y := y)
  }

  /** One step of the obstacle `forEach`: the obstacle is stood on the new ground line. */
  function Reground(o: Obstacle, groundY: real): (r: Obstacle)
    ensures r.y + r.height == groundY
    ensures r.x == o.x && r.width == o.width && r.height == o.height
  {
    o.(y := groundY - o.height)
  }
}
