/**
 * The window settings (next/settings.h, next/settings.cpp) and the two
 * functions of the C API that store and read them
 * (next/legacy/toggl_api_settings.cc). A `void *context` of the C API is
 * modelled by the settings object of that context, or null.
 */
module WindowSettings {
  import opened Wrappers

  /** `int64_t`. */
  newtype int64 = x: int | -0x8000_0000_0000_0000 <= x < 0x8000_0000_0000_0000

  /** The position and size of the main window. Setters store any value, unclamped. */
  class Settings {
    var windowX: int64
    var windowY: int64
    var windowHeight: int64
    var windowWidth: int64

    /** A new settings object: the window at (100, 100), 300 high and 100 wide. */
    constructor()
      ensures windowX == 100 && windowY == 100 && windowHeight == 300 && windowWidth == 100
    {
      windowX, windowY, windowHeight, windowWidth := 100, 100, 300, 100;
    }

    function WindowX(): int64
      reads this
    {
      windowX
    }

    function WindowY(): int64
      reads this
    {
      windowY
    }

    function WindowHeight(): int64
      reads this
    {
      windowHeight
    }

    function WindowWidth(): int64
      reads this
    {
      windowWidth
    }

    /** `SetWindowX`: the getter returns `value`, and no other setting changes. */
    method SetWindowX(value: int64)
      modifies this`windowX
      ensures WindowX() == value
    {
      windowX := value;
    }

    /** `SetWindowY`: the getter returns `value`, and no other setting changes. */
    method SetWindowY(value: int64)
      modifies this`windowY
      ensures WindowY() == value
    {
      windowY := value;
    }

    /** `SetWindowHeight`: the getter returns `value`, and no other setting changes. */
    method SetWindowHeight(value: int64)
      modifies this`windowHeight
      ensures WindowHeight() == value
    {
      windowHeight := value;
    }

    /** `SetWindowWidth`: the getter returns `value`, and no other setting changes. */
    method SetWindowWidth(value: int64)
      modifies this`windowWidth
      ensures WindowWidth() == value
    {
      windowWidth := value;
    }
  }

  /** The stored height after a request: a height that is not positive is ignored. */
  function StoredHeight(current: int64, requested: int64): (r: int64)
    ensures requested > 0 ==> r == requested
    ensures requested <= 0 ==> r == current
    ensures r > 0 || r == current
  {
    if requested > 0 then requested else current
  }

  /** The stored width after a request: only a zero width is ignored; a negative one is stored. */
  function StoredWidth(current: int64, requested: int64): (r: int64)
    ensures requested != 0 ==> r == requested
    ensures requested == 0 ==> r == current
    ensures r != 0 || current == 0
  {
    if requested != 0 then requested else current
  }

  /**
   * `toggl_set_window_settings`: with a context, the position is always
   * stored, the height only when positive and the width whenever it is not
   * zero. Without a context nothing changes. Either way it reports success.
   */
  method SetWindowSettings(ctx: Settings?, x: int64, y: int64, height: int64, width: int64) returns (ok: bool)
    modifies ctx
    ensures ok
    ensures ctx != null ==>
              ctx.WindowX() == x && ctx.WindowY() == y
              && ctx.WindowHeight() == StoredHeight(old(ctx.WindowHeight()), height)
              && ctx.WindowWidth() == StoredWidth(old(ctx.WindowWidth()), width)
  {
    if ctx != null {
      ctx.SetWindowX(x);
      ctx.SetWindowY(y);
      if height > 0 {
        ctx.SetWindowHeight(height);
      }
      if width != 0 {
        ctx.SetWindowWidth(width);
      }
    }
    return true;
  }

  /**
   * `toggl_window_settings`: each output whose pointer is given (the `want`
   * flags) receives the stored setting; without a context or without a
   * pointer that output is not written (None). It always reports success
   * and changes nothing.
   */
  method ReadWindowSettings(ctx: Settings?, wantX: bool, wantY: bool, wantHeight: bool, wantWidth: bool)
    returns (ok: bool, x: Option<int64>, y: Option<int64>, height: Option<int64>, width: Option<int64>)
    ensures ok
    ensures x.Some? <==> ctx != null && wantX
    ensures y.Some? <==> ctx != null && wantY
    ensures height.Some? <==> ctx != null && wantHeight
    ensures width.Some? <==> ctx != null && wantWidth
    ensures x.Some? ==> x.value == ctx.WindowX()
    ensures y.Some? ==> y.value == ctx.WindowY()
    ensures height.Some? ==> height.value == ctx.WindowHeight()
    ensures width.Some? ==> width.value == ctx.WindowWidth()
  {
    x, y, height, width := None, None, None, None;
    if ctx != null && wantX {
      x := Some(ctx.WindowX());
    }
    if ctx != null && wantY {
      y := Some(ctx.WindowY());
    }
    if ctx != null && wantHeight {
      height := Some(ctx.WindowHeight());
    }
    if ctx != null && wantWidth {
      width := Some(ctx.WindowWidth());
    }
    return true, x, y, height, width;
  }

  /**
   * Storing the window settings and reading them back through every
   * pointer gives the stored position, and the requested size where the
   * request was honoured.
   */
  method StoreThenRead(ctx: Settings, x: int64, y: int64, height: int64, width: int64)
    returns (rx: int64, ry: int64, rh: int64, rw: int64)
    modifies ctx
    ensures rx == x && ry == y
    ensures height > 0 ==> rh == height
    ensures width != 0 ==> rw == width
    ensures height <= 0 ==> rh == old(ctx.WindowHeight())
    ensures width == 0 ==> rw == old(ctx.WindowWidth())
  {
    var _ := SetWindowSettings(ctx, x, y, height, width);
    var ok, ox, oy, oh, ow := ReadWindowSettings(ctx, true, true, true, true);
    rx, ry, rh, rw := ox.value, oy.value, oh.value, ow.value;
  }

  /**
   * Every other `toggl_set_settings_*` function and `toggl_set_proxy_settings`:
   * not implemented in this API; they report failure and change nothing.
   */
  method SetUnsupportedSetting(ctx: Settings?) returns (ok: bool)
    ensures !ok
  {
    return false;
  }
}
