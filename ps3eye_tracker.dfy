/**
 * PSMoveTracker/PS3EyeTracker: the tracker's history of poll states, its
 * look-back query, the field-of-view option, the configuration record and
 * its key/value persistence, and the frame stride.
 *
 * The OpenCV capture is reduced to whether it is open and whether a frame was
 * grabbed; the property tree is a map from keys to typed values.
 */
module PS3EyeTracker {
  import opened Wrappers

  /** PS3EYE_STATE_BUFFER_MAX */
  const StateBufferMax: nat := 16

  /** PS3EyeTrackerConfig::CONFIG_VERSION */
  const ConfigVersion: int := 7

  /** OPTION_FOV_SETTING */
  const OptionFovSetting: string := "FOV Setting"

  /** eFOVSetting: RedDot, BlueDot, then MAX_FOV_SETTINGS (the order the option strings are listed in). */
  const RedDot: int := 0
  const BlueDot: int := 1
  const MaxFovSettings: int := 2

  /** OpenCV's capture modes. */
  const CapModeBgr: int := 0
  const CapModeRgb: int := 1
  const CapModeGray: int := 2
  const CapModeYuyv: int := 3
  const UnknownFormat: int := -1

  datatype PollResult = PollFailure | PollSuccessNoData | PollSuccessNewData

  /** PS3EyeTrackerState: only the sequence number is filled in by poll. */
  datatype TrackerState = TrackerState(pollSequenceNumber: int)

  /** The outcomes of getState as written: an entry, null, or the range error of vector::at. */
  datatype StateLookup = Found(state: TrackerState) | NoState | OutOfRange

  /** A stored pose: orientation quaternion and position. */
  datatype Pose = Pose(ow: real, ox: real, oy: real, oz: real, px: real, py: real, pz: real)

  /** The persisted fields of PS3EyeTrackerConfig (the colour presets are not part of this model). */
  datatype Settings = Settings(
    isValid: bool, maxPollFailureCount: int, exposure: real, gain: real,
    focalLengthX: real, focalLengthY: real, principalX: real, principalY: real,
    hfov: real, vfov: real, zNear: real, zFar: real, fovSetting: int, pose: Pose)

  /** A property-tree leaf. */
  datatype Value = BoolValue(b: bool) | IntValue(i: int) | RealValue(r: real)

  /** The property-tree paths the configuration uses. */
  datatype Key =
    | IsValidKey | VersionKey | MaxPollFailureCountKey | ExposureKey | GainKey
    | FocalLengthXKey | FocalLengthYKey | PrincipalXKey | PrincipalYKey
    | HfovKey | VfovKey | ZNearKey | ZFarKey | FovSettingKey
    | OrientationWKey | OrientationXKey | OrientationYKey | OrientationZKey
    | PositionXKey | PositionYKey | PositionZKey

  /** The path text of each key. */
  function KeyPath(k: Key): string
  {
    match k
      case IsValidKey => "is_valid"
      case VersionKey => "version"
      case MaxPollFailureCountKey => "max_poll_failure_count"
      case ExposureKey => "exposure"
      case GainKey => "gain"
      case FocalLengthXKey => "focalLengthX"
      case FocalLengthYKey => "focalLengthY"
      case PrincipalXKey => "principalX"
      case PrincipalYKey => "principalY"
      case HfovKey => "hfov"
      case VfovKey => "vfov"
      case ZNearKey => "zNear"
      case ZFarKey => "zFar"
      case FovSettingKey => "fovSetting"
      case OrientationWKey => "pose.orientation.w"
      case OrientationXKey => "pose.orientation.x"
      case OrientationYKey => "pose.orientation.y"
      case OrientationZKey => "pose.orientation.z"
      case PositionXKey => "pose.position.x"
      case PositionYKey => "pose.position.y"
      case PositionZKey => "pose.position.z"
  }

  type Tree = map<Key, Value>

  /** The defaults ptree2config falls back on for a missing or unreadable key. */
  const DefaultSettings: Settings := Settings(
    false, 100, 32.0, 32.0, 554.2563, 554.2563, 320.0, 240.0,
    60.0, 45.0, 10.0, 200.0, BlueDot, Pose(1.0, 0.0, 0.0, 0.0, 0.0, 0.0, 0.0))

  function GetBool(pt: Tree, key: Key, default: bool): (r: bool)
    ensures key in pt && pt[key].BoolValue? ==> r == pt[key].b
    ensures !(key in pt && pt[key].BoolValue?) ==> r == default
  {
    if key in pt && pt[key].BoolValue? then pt[key].b else default
  }

  function GetInt(pt: Tree, key: Key, default: int): (r: int)
    ensures key in pt && pt[key].IntValue? ==> r == pt[key].i
    ensures !(key in pt && pt[key].IntValue?) ==> r == default
  {
    if key in pt && pt[key].IntValue? then pt[key].i else default
  }

  /** A real-valued read also accepts an integer leaf. */
  function GetReal(pt: Tree, key: Key, default: real): (r: real)
    ensures key in pt && pt[key].RealValue? ==> r == pt[key].r
    ensures key in pt && pt[key].IntValue? ==> r == pt[key].i as real
    ensures !(key in pt && (pt[key].RealValue? || pt[key].IntValue?)) ==> r == default
  {
    if key in pt && pt[key].RealValue? then pt[key].r
    else if key in pt && pt[key].IntValue? then pt[key].i as real
    else default
  }

  const AllKeys: set<Key> := {
    IsValidKey, VersionKey, MaxPollFailureCountKey, ExposureKey, GainKey,
    FocalLengthXKey, FocalLengthYKey, PrincipalXKey, PrincipalYKey,
    HfovKey, VfovKey, ZNearKey, ZFarKey, FovSettingKey,
    OrientationWKey, OrientationXKey, OrientationYKey, OrientationZKey,
    PositionXKey, PositionYKey, PositionZKey }

  /** The value config2ptree puts under each key; the version is always the current one. */
  function WrittenValue(s: Settings, k: Key): Value
  {
    match k
      case IsValidKey => BoolValue(s.isValid)
      case VersionKey => IntValue(ConfigVersion)
      case MaxPollFailureCountKey => IntValue(s.maxPollFailureCount)
      case ExposureKey => RealValue(s.exposure)
      case GainKey => RealValue(s.gain)
      case FocalLengthXKey => RealValue(s.focalLengthX)
      case FocalLengthYKey => RealValue(s.focalLengthY)
      case PrincipalXKey => RealValue(s.principalX)
      case PrincipalYKey => RealValue(s.principalY)
      case HfovKey => RealValue(s.hfov)
      case VfovKey => RealValue(s.vfov)
      case ZNearKey => RealValue(s.zNear)
      case ZFarKey => RealValue(s.zFar)
      case FovSettingKey => IntValue(s.fovSetting)
      case OrientationWKey => RealValue(s.pose.ow)
      case OrientationXKey => RealValue(s.pose.ox)
      case OrientationYKey => RealValue(s.pose.oy)
      case OrientationZKey => RealValue(s.pose.oz)
      case PositionXKey => RealValue(s.pose.px)
      case PositionYKey => RealValue(s.pose.py)
      case PositionZKey => RealValue(s.pose.pz)
  }

  /** config2ptree: every field under its key, and the current version. */
  function WriteTree(s: Settings): (pt: Tree)
    ensures pt.Keys == AllKeys
  {
    map k | k in AllKeys :: WrittenValue(s, k)
  }

  /** The fields ptree2config reads when the version matches. */
  function ReadSettings(pt: Tree): Settings
  {
    Settings(
      GetBool(pt, IsValidKey, false),
      GetInt(pt, MaxPollFailureCountKey, 100),
      GetReal(pt, ExposureKey, 32.0),
      GetReal(pt, GainKey, 32.0),
      GetReal(pt, FocalLengthXKey, 554.2563),
      GetReal(pt, FocalLengthYKey, 554.2563),
      GetReal(pt, PrincipalXKey, 320.0),
      GetReal(pt, PrincipalYKey, 240.0),
      GetReal(pt, HfovKey, 60.0),
      GetReal(pt, VfovKey, 45.0),
      GetReal(pt, ZNearKey, 10.0),
      GetReal(pt, ZFarKey, 200.0),
      GetInt(pt, FovSettingKey, BlueDot),
      Pose(
        GetReal(pt, OrientationWKey, 1.0),
        GetReal(pt, OrientationXKey, 0.0),
        GetReal(pt, OrientationYKey, 0.0),
        GetReal(pt, OrientationZKey, 0.0),
        GetReal(pt, PositionXKey, 0.0),
        GetReal(pt, PositionYKey, 0.0),
        GetReal(pt, PositionZKey, 0.0)))
  }

  /** Writing a configuration and reading it back restores every field. */
  lemma RoundTrip(s: Settings)
    ensures GetInt(WriteTree(s), VersionKey, 0) == ConfigVersion
    ensures ReadSettings(WriteTree(s)) == s
  {
    var pt := WriteTree(s);
    assert GetBool(pt, IsValidKey, false) == s.isValid;
    assert GetInt(pt, MaxPollFailureCountKey, 100) == s.maxPollFailureCount;
    assert GetInt(pt, FovSettingKey, BlueDot) == s.fovSetting;
    assert GetReal(pt, ExposureKey, 32.0) == s.exposure;
    assert GetReal(pt, GainKey, 32.0) == s.gain;
    assert GetReal(pt, FocalLengthXKey, 554.2563) == s.focalLengthX;
    assert GetReal(pt, FocalLengthYKey, 554.2563) == s.focalLengthY;
    assert GetReal(pt, PrincipalXKey, 320.0) == s.principalX;
    assert GetReal(pt, PrincipalYKey, 240.0) == s.principalY;
    assert GetReal(pt, HfovKey, 60.0) == s.hfov;
    assert GetReal(pt, VfovKey, 45.0) == s.vfov;
    assert GetReal(pt, ZNearKey, 10.0) == s.zNear;
    assert GetReal(pt, ZFarKey, 200.0) == s.zFar;
    assert GetReal(pt, OrientationWKey, 1.0) == s.pose.ow;
    assert GetReal(pt, OrientationXKey, 0.0) == s.pose.ox;
    assert GetReal(pt, OrientationYKey, 0.0) == s.pose.oy;
    assert GetReal(pt, OrientationZKey, 0.0) == s.pose.oz;
    assert GetReal(pt, PositionXKey, 0.0) == s.pose.px;
    assert GetReal(pt, PositionYKey, 0.0) == s.pose.py;
    assert GetReal(pt, PositionZKey, 0.0) == s.pose.pz;
  }

  /** Keys that are absent fall back on the defaults. */
  lemma MissingKeysGiveDefaults()
    ensures ReadSettings(map[VersionKey := IntValue(ConfigVersion)]) == DefaultSettings
  {
  }

  class TrackerConfig {
    /** The version the last load found (0 when absent). */
    var version: int
    var settings: Settings

    constructor ()
      ensures version == ConfigVersion && settings == DefaultSettings
    {
      version := ConfigVersion;
      settings := DefaultSettings;
    }

    /** config2ptree */
    function ToTree(): (pt: Tree)
      reads this
      ensures pt.Keys >= {VersionKey, IsValidKey, FovSettingKey}
      ensures pt[VersionKey] == IntValue(ConfigVersion)
    {
      WriteTree(settings)
    }

    /**
     * ptree2config: the version is always taken from the tree; the fields are
     * read only when it equals the current version, otherwise they are kept.
     */
    method FromTree(pt: Tree)
      modifies this
      ensures version == GetInt(pt, VersionKey, 0)
      ensures version == ConfigVersion ==> settings == ReadSettings(pt)
      ensures version != ConfigVersion ==> settings == old(settings)
    {
      version := GetInt(pt, VersionKey, 0);
      if version == ConfigVersion {
        settings := ReadSettings(pt);
      }
    }
  }

  /** A saved configuration loads back into any configuration object unchanged. */
  method SaveThenLoad(saved: TrackerConfig, target: TrackerConfig)
    modifies target
    ensures target.settings == saved.settings && target.version == ConfigVersion
  {
    RoundTrip(saved.settings);
    target.FromTree(saved.ToTree());
  }

  /** The erase poll makes before its push: keep only the newest PS3EYE_STATE_BUFFER_MAX entries. */
  function TrimAsWritten(states: seq<TrackerState>): (r: seq<TrackerState>)
    ensures |r| <= StateBufferMax && |r| <= |states|
    ensures r == states[|states| - |r|..]
    ensures |states| <= StateBufferMax ==> r == states
  {
    if |states| >= StateBufferMax then states[|states| - StateBufferMax..] else states
  }

  /** The erase that leaves room for the push: keep the newest PS3EYE_STATE_BUFFER_MAX - 1 entries. */
  function TrimCorrected(states: seq<TrackerState>): (r: seq<TrackerState>)
    ensures |r| < StateBufferMax && |r| <= |states|
    ensures r == states[|states| - |r|..]
    ensures |states| < StateBufferMax ==> r == states
  {
    if |states| >= StateBufferMax then states[|states| - (StateBufferMax - 1)..] else states
  }

  /** A full buffer plus one push holds one entry more than PS3EYE_STATE_BUFFER_MAX. */
  lemma AsWrittenBufferExceedsMax(states: seq<TrackerState>, newState: TrackerState)
    requires |states| >= StateBufferMax
    ensures |TrimAsWritten(states) + [newState]| == StateBufferMax + 1
    ensures |TrimCorrected(states) + [newState]| == StateBufferMax
  {
  }

  /** Consecutive sequence numbers ending just below `next`. */
  ghost predicate Consecutive(states: seq<TrackerState>, next: int)
  {
    forall i :: 0 <= i < |states| ==> states[i].pollSequenceNumber == next - |states| + i
  }

  /** Dropping the oldest entries keeps the newest ones consecutive. */
  lemma SuffixConsecutive(states: seq<TrackerState>, next: int, k: nat)
    requires Consecutive(states, next) && k <= |states|
    ensures Consecutive(states[k..], next)
  {
  }

  /** Pushing the next sequence number after dropping the oldest entries keeps the history consecutive. */
  lemma PushKeepsConsecutive(states: seq<TrackerState>, kept: seq<TrackerState>, next: int)
    requires Consecutive(states, next) && |kept| <= |states| && kept == states[|states| - |kept|..]
    ensures Consecutive(kept + [TrackerState(next)], next + 1)
  {
    SuffixConsecutive(states, next, |states| - |kept|);
  }

  /** The stored state `lookBack` polls back, when there is one (getState with the negative case excluded). */
  function NewestFirst(states: seq<TrackerState>, lookBack: int): (r: Option<TrackerState>)
    ensures r.Some? <==> 0 <= lookBack < |states|
    ensures r.Some? ==> r.value == states[|states| - 1 - lookBack]
  {
    if 0 <= lookBack < |states| then Some(states[|states| - 1 - lookBack]) else None
  }

  /** In a consecutive history, looking back k polls finds sequence number next-1-k. */
  lemma LookBackFindsSequence(states: seq<TrackerState>, next: int, lookBack: int)
    requires Consecutive(states, next) && 0 <= lookBack < |states|
    ensures NewestFirst(states, lookBack) == Some(TrackerState(next - 1 - lookBack))
  {
  }

  /** getVideoFrameDimensions' bytes per pixel; another format leaves it unset. */
  function BytesPerPixel(format: int): (r: Option<int>)
    ensures r.Some? <==> format in {CapModeBgr, CapModeRgb, CapModeYuyv, CapModeGray, UnknownFormat}
    ensures r.Some? ==> 1 <= r.value <= 3
    ensures r == Some(3) <==> format in {CapModeBgr, CapModeRgb, UnknownFormat}
  {
    if format == UnknownFormat then Some(3)
    else if format == CapModeBgr || format == CapModeRgb then Some(3)
    else if format == CapModeYuyv then Some(2)
    else if format == CapModeGray then Some(1)
    else None
  }

  /** The stride getVideoFrameDimensions reports: bytes per pixel times the frame width. */
  function Stride(format: int, width: int): (r: Option<int>)
    ensures r.Some? <==> BytesPerPixel(format).Some?
    ensures r.Some? ==> r.value == BytesPerPixel(format).value * width
    ensures r.Some? && width >= 0 ==> width <= r.value <= 3 * width
  {
    match BytesPerPixel(format)
      case None => None
      case Some(bpp) => Some(bpp * width)
  }

  class Tracker {
    /** VideoCapture != nullptr */
    var captureOpen: bool
    /** TrackerStates, oldest first */
    var states: seq<TrackerState>
    /** NextPollSequenceNumber */
    var nextPollSequenceNumber: int
    const cfg: TrackerConfig

    /** The history poll maintains: consecutive sequence numbers, at most one over the maximum. */
    ghost predicate Valid()
      reads this
    {
      && |states| <= StateBufferMax + 1
      && Consecutive(states, nextPollSequenceNumber)
    }

    constructor ()
      ensures Valid() && !captureOpen && states == [] && nextPollSequenceNumber == 0
      ensures fresh(cfg) && cfg.settings == DefaultSettings
    {
      captureOpen := false;
      states := [];
      nextPollSequenceNumber := 0;
      cfg := new TrackerConfig();
    }

    /**
     * open: an open tracker stays open; otherwise the capture opens when
     * `openOk`. Every successful open, including one on an already open
     * tracker, rebuilds the configuration with its defaults and loads it:
     * `stored` is the saved tree when there is one. Setting exposure and gain
     * from the loaded values then leaves the configuration as loaded.
     */
    method Open(openOk: bool, stored: Option<Tree>) returns (success: bool)
      modifies this`captureOpen, cfg
      ensures success == (old(captureOpen) || openOk) && captureOpen == success
      ensures success && stored.None? ==> cfg.version == ConfigVersion && cfg.settings == DefaultSettings
      ensures success && stored.Some? ==> cfg.version == GetInt(stored.value, VersionKey, 0)
      ensures success && stored.Some? ==>
        cfg.settings == if cfg.version == ConfigVersion then ReadSettings(stored.value) else DefaultSettings
      ensures !success ==> cfg.version == old(cfg.version) && cfg.settings == old(cfg.settings)
    {
      if captureOpen {
        success := true;
      } else {
        captureOpen := openOk;
        success := openOk;
      }
      if success {
        cfg.version := ConfigVersion;
        cfg.settings := DefaultSettings;
        if stored.Some? {
          cfg.FromTree(stored.value);
        }
      }
    }

    /** close */
    method Close()
      modifies this`captureOpen
      ensures !captureOpen
    {
      captureOpen := false;
    }

    /**
     * poll: on an open tracker, one new state carrying the next sequence
     * number is appended after trimming the history; a closed tracker fails
     * and nothing changes.
     */
    method Poll(grabOk: bool) returns (result: PollResult)
      requires Valid()
      modifies this`states, this`nextPollSequenceNumber
      ensures Valid()
      ensures !captureOpen ==> result == PollFailure && states == old(states)
                               && nextPollSequenceNumber == old(nextPollSequenceNumber)
      ensures captureOpen ==> result == (if grabOk then PollSuccessNewData else PollSuccessNoData)
      ensures captureOpen ==> nextPollSequenceNumber == old(nextPollSequenceNumber) + 1
                              && states == TrimAsWritten(old(states)) + [TrackerState(old(nextPollSequenceNumber))]
    {
      result := PollFailure;
      if captureOpen {
        result := if grabOk then PollSuccessNewData else PollSuccessNoData;
        var newState := TrackerState(nextPollSequenceNumber);
        var kept := TrimAsWritten(states);
        PushKeepsConsecutive(states, kept, nextPollSequenceNumber);
        states := kept + [newState];
        nextPollSequenceNumber := nextPollSequenceNumber + 1;
      }
    }

    /** poll with the history kept within PS3EYE_STATE_BUFFER_MAX entries. */
    method PollCorrected(grabOk: bool) returns (result: PollResult)
      requires Valid() && |states| <= StateBufferMax
      modifies this`states, this`nextPollSequenceNumber
      ensures Valid() && |states| <= StateBufferMax
      ensures !captureOpen ==> result == PollFailure && states == old(states)
                               && nextPollSequenceNumber == old(nextPollSequenceNumber)
      ensures captureOpen ==> result == (if grabOk then PollSuccessNewData else PollSuccessNoData)
      ensures captureOpen ==> nextPollSequenceNumber == old(nextPollSequenceNumber) + 1
                              && states == TrimCorrected(old(states)) + [TrackerState(old(nextPollSequenceNumber))]
    {
      result := PollFailure;
      if captureOpen {
        result := if grabOk then PollSuccessNewData else PollSuccessNoData;
        var newState := TrackerState(nextPollSequenceNumber);
        var kept := TrimCorrected(states);
        PushKeepsConsecutive(states, kept, nextPollSequenceNumber);
        states := kept + [newState];
        nextPollSequenceNumber := nextPollSequenceNumber + 1;
      }
    }

    /**
     * getState as written: the test `lookBack < size` lets a negative
     * look-back through to vector::at with an index at or past the end.
     */
    function GetStateAsWritten(lookBack: int): (r: StateLookup)
      reads this
      ensures r.Found? <==> 0 <= lookBack < |states|
      ensures r.Found? ==> r.state == states[|states| - 1 - lookBack]
      ensures r.NoState? <==> lookBack >= |states|
      ensures r.OutOfRange? <==> lookBack < 0 && lookBack < |states|
    {
      var queueSize := |states|;
      if lookBack < queueSize then
        var index := queueSize - lookBack - 1;
        if 0 <= index < queueSize then Found(states[index]) else OutOfRange
      else NoState
    }

    /** getState with the negative look-back answered by null. */
    function GetState(lookBack: int): (r: Option<TrackerState>)
      reads this
      ensures r == NewestFirst(states, lookBack)
      ensures r.Some? <==> GetStateAsWritten(lookBack).Found?
    {
      if 0 <= lookBack < |states| then Some(states[|states| - lookBack - 1]) else None
    }

    /** setOptionIndex: only the FOV option with an index in [0, MAX_FOV_SETTINGS) is accepted. */
    method SetOptionIndex(optionName: string, optionIndex: int) returns (validOption: bool)
      modifies cfg
      ensures validOption <==> optionName == OptionFovSetting && 0 <= optionIndex < MaxFovSettings
      ensures validOption ==> cfg.settings == old(cfg.settings).(fovSetting := optionIndex)
                              && GetOptionIndex(optionName) == Some(optionIndex)
      ensures !validOption ==> cfg.settings == old(cfg.settings)
      ensures cfg.version == old(cfg.version)
    {
      validOption := false;
      if optionName == OptionFovSetting && optionIndex >= 0 && optionIndex < MaxFovSettings {
        cfg.settings := cfg.settings.(fovSetting := optionIndex);
        validOption := true;
      }
    }

    /** getOptionIndex: the FOV option answers its setting, any other name fails. */
    function GetOptionIndex(optionName: string): (r: Option<int>)
      reads this, cfg
      ensures r.Some? <==> optionName == OptionFovSetting
      ensures r.Some? ==> r.value == cfg.settings.fovSetting
    {
      if optionName == OptionFovSetting then Some(cfg.settings.fovSetting) else None
    }
  }

  /**
   * A field-of-view option set on an open tracker and saved survives a second
   * open: the reload reads back the tree the save wrote. Without a saved tree
   * the reload restores the default.
   */
  method ReopenKeepsSavedOption(index: int) returns (kept: Option<int>, unsaved: Option<int>)
    requires 0 <= index < MaxFovSettings
    ensures kept == Some(index)
    ensures unsaved == Some(DefaultSettings.fovSetting)
  {
    var t := new Tracker();
    var ok := t.Open(true, None);
    var valid := t.SetOptionIndex(OptionFovSetting, index);
    var saved := t.cfg.ToTree();
    RoundTrip(t.cfg.settings);
    ok := t.Open(true, Some(saved));
    kept := t.GetOptionIndex(OptionFovSetting);
    valid := t.SetOptionIndex(OptionFovSetting, index);
    ok := t.Open(true, None);
    unsaved := t.GetOptionIndex(OptionFovSetting);
  }

  /** A negative look-back on a non-empty history reaches the range error. */
  lemma NegativeLookBackIsOutOfRange(t: Tracker)
    requires |t.states| > 0
    ensures t.GetStateAsWritten(-1).OutOfRange?
    ensures t.GetState(-1).None?
  {
  }

  /** Seventeen polls of an open tracker leave seventeen states; the corrected poll keeps sixteen. */
  method SeventeenPolls() returns (asWritten: nat, corrected: nat)
    ensures asWritten == StateBufferMax + 1 && corrected == StateBufferMax
  {
    var t := new Tracker();
    var u := new Tracker();
    var ok := t.Open(true, None);
    ok := u.Open(true, None);
    var i := 0;
    while i < StateBufferMax + 1
      invariant 0 <= i <= StateBufferMax + 1
      invariant t.Valid() && u.Valid() && t.captureOpen && u.captureOpen
      invariant |t.states| == if i <= StateBufferMax then i else StateBufferMax + 1
      invariant |u.states| == if i <= StateBufferMax then i else StateBufferMax
      invariant t != u
    {
      var r := t.Poll(true);
      r := u.PollCorrected(true);
      i := i + 1;
    }
    asWritten := |t.states|;
    corrected := |u.states|;
  }
}
