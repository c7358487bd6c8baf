/**
 * The stage's configuration: the defaults the constructor merges the
 * caller's options over, and the values `_applyConfig` and the
 * visibility timers derive from it.
 */
module StageConfig {
  import opened Wrappers
  import opened Helpers

  /** A JavaScript number: a finite value, or NaN / an infinity. */
  datatype JsNumber = Finite(value: real) | NonFinite

  /** `FACE_GUARD_PCT`, which the face guard only uses when it is of type number. */
  datatype PctSetting = Number(n: JsNumber) | NotNumber

  /** The merged configuration, one field per recognised key. */
  datatype Config = Config(
    railMaxVh: real,          // RAIL_MAX_VH
    railWidthMax: real,       // RAIL_WIDTH_MAX
    railChromeless: bool,     // RAIL_CHROMELESS
    visibilityMode: string,   // VISIBILITY_MODE
    idleDimSeconds: real,     // IDLE_DIM_SECONDS
    fadeMs: real,             // FADE_MS
    faceGuardPct: PctSetting, // FACE_GUARD_PCT
    blurEnabled: bool         // BLUR_ENABLED
  )

  /** The caller's options; `None` is a key the caller did not pass. */
  datatype UserOptions = UserOptions(
    railMaxVh: Option<real>,
    railWidthMax: Option<real>,
    railChromeless: Option<bool>,
    visibilityMode: Option<string>,
    idleDimSeconds: Option<real>,
    fadeMs: Option<real>,
    faceGuardPct: Option<PctSetting>,
    blurEnabled: Option<bool>
  )

  const NoOptions: UserOptions := UserOptions(None, None, None, None, None, None, None, None)

  /** The constructor's defaults. */
  const Defaults: Config := Config(38.0, 880.0, true, "auto", 2.0, 180.0, Number(Finite(0.25)), true)

  /** `{ ...defaults, ...config }`: every key the caller passed wins over its default. */
  function Merge(user: UserOptions): (c: Config)
    ensures user == NoOptions ==> c == Defaults
    ensures user.railMaxVh.Some? ==> c.railMaxVh == user.railMaxVh.value
    ensures user.railMaxVh.None? ==> c.railMaxVh == Defaults.railMaxVh
    ensures user.railWidthMax.Some? ==> c.railWidthMax == user.railWidthMax.value
    ensures user.railWidthMax.None? ==> c.railWidthMax == Defaults.railWidthMax
    ensures user.railChromeless.Some? ==> c.railChromeless == user.railChromeless.value
    ensures user.railChromeless.None? ==> c.railChromeless == Defaults.railChromeless
    ensures user.visibilityMode.Some? ==> c.visibilityMode == user.visibilityMode.value
    ensures user.visibilityMode.None? ==> c.visibilityMode == Defaults.visibilityMode
    ensures user.idleDimSeconds.Some? ==> c.idleDimSeconds == user.idleDimSeconds.value
    ensures user.idleDimSeconds.None? ==> c.idleDimSeconds == Defaults.idleDimSeconds
    ensures user.fadeMs.Some? ==> c.fadeMs == user.fadeMs.value
    ensures user.fadeMs.None? ==> c.fadeMs == Defaults.fadeMs
    ensures user.faceGuardPct.Some? ==> c.faceGuardPct == user.faceGuardPct.value
    ensures user.faceGuardPct.None? ==> c.faceGuardPct == Defaults.faceGuardPct
    ensures user.blurEnabled.Some? ==> c.blurEnabled == user.blurEnabled.value
    ensures user.blurEnabled.None? ==> c.blurEnabled == Defaults.blurEnabled
  {
    Config(
      user.railMaxVh.GetOr(Defaults.railMaxVh),
      user.railWidthMax.GetOr(Defaults.railWidthMax),
      user.railChromeless.GetOr(Defaults.railChromeless),
      user.visibilityMode.GetOr(Defaults.visibilityMode),
      user.idleDimSeconds.GetOr(Defaults.idleDimSeconds),
      user.fadeMs.GetOr(Defaults.fadeMs),
      user.faceGuardPct.GetOr(Defaults.faceGuardPct),
      user.blurEnabled.GetOr(Defaults.blurEnabled))
  }

  /** `value || fallback` on a number: zero is falsy and gives the fallback. */
  function OrDefault(value: real, fallback: real): (r: real)
    requires fallback != 0.0
    ensures r != 0.0
    ensures value != 0.0 ==> r == value
    ensures value == 0.0 ==> r == fallback
  {
    if value != 0.0 then value else fallback
  }

  /** Only the mode named exactly "auto" runs the idle timers. */
  predicate AutoMode(cfg: Config) {
    cfg.visibilityMode == "auto"
  }

  /**
   * `Math.max(1, IDLE_DIM_SECONDS || 2) * 1000`: the idle delay in
   * milliseconds, two seconds when unset (zero), never below one second.
   */
  function IdleMs(cfg: Config): (r: real)
    ensures r >= 1000.0
    ensures cfg.idleDimSeconds >= 1.0 ==> r == cfg.idleDimSeconds * 1000.0
    ensures cfg.idleDimSeconds == 0.0 ==> r == 2000.0
    ensures cfg.idleDimSeconds != 0.0 && cfg.idleDimSeconds < 1.0 ==> r == 1000.0
  {
    var seconds := OrDefault(cfg.idleDimSeconds, 2.0);
    (if seconds < 1.0 then 1.0 else seconds) * 1000.0
  }

  /** The face-guard fraction: `FACE_GUARD_PCT` when it is a number, else 0.25. */
  function FaceGuardFraction(cfg: Config): JsNumber {
    match cfg.faceGuardPct
    case Number(n) => n
    case NotNumber => Finite(0.25)
  }

  /** What `_applyConfig` writes on the root: CSS variables and data attributes, as numbers and flags. */
  datatype RootStyle = RootStyle(
    railMaxHeightVh: real,  // --live2d-rail-max-height
    railWidthMaxPx: real,   // --live2d-rail-width, min(<this>px, 96vw)
    transitionMs: real,     // --live2d-rail-transition
    chromeless: bool,       // data-rail-chromeless present
    blur: bool              // data-blur "true" / "false"
  )

  /** `_applyConfig`, given whether the browser supports a backdrop blur. */
  function ApplyConfig(cfg: Config, blurSupported: bool): (r: RootStyle)
    ensures 30.0 <= r.railMaxHeightVh <= 50.0
    ensures 30.0 <= cfg.railMaxVh <= 50.0 ==> r.railMaxHeightVh == cfg.railMaxVh
    ensures r.railWidthMaxPx != 0.0 && (cfg.railWidthMax != 0.0 ==> r.railWidthMaxPx == cfg.railWidthMax)
    ensures r.transitionMs != 0.0 && (cfg.fadeMs != 0.0 ==> r.transitionMs == cfg.fadeMs)
    ensures r.chromeless == cfg.railChromeless
    ensures r.blur <==> cfg.blurEnabled && blurSupported
  {
    RootStyle(
      Clamp(cfg.railMaxVh, 30.0, 50.0),
      OrDefault(cfg.railWidthMax, 880.0),
      OrDefault(cfg.fadeMs, 180.0),
      cfg.railChromeless,
      cfg.blurEnabled && blurSupported)
  }

  /**
   * With no options the stage runs in auto mode, dims after two seconds,
   * guards a quarter of the canvas, and the rail is 38vh, 880px, 180ms.
   */
  lemma DefaultsApplied(blurSupported: bool)
    ensures AutoMode(Merge(NoOptions))
    ensures IdleMs(Merge(NoOptions)) == 2000.0
    ensures FaceGuardFraction(Merge(NoOptions)) == Finite(0.25)
    ensures ApplyConfig(Merge(NoOptions), blurSupported) == RootStyle(38.0, 880.0, 180.0, true, blurSupported)
  {
  }
}
