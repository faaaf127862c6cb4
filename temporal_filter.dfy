/**
 * The temporal depth filter (src/proc/temporal-filter.cpp) without its
 * per-pixel smoothing. The first part describes the filter's fields as a
 * value, `State`, and each entry point as a function `After...` from the
 * state before the call to the state after it. The second part is the
 * `temporal_filter` object itself, a class whose every method is proved to
 * change its fields exactly as the matching `After...` function says.
 */
module TemporalFilter {
  import opened PersistenceTable

  /** The source's `uint8_t` fields. */
  newtype uint8 = x: int | 0 <= x < 256

  // ---------------------------------------------------------------------
  // Option bounds and defaults
  // ---------------------------------------------------------------------

  const PersistenceMin: uint8 := 0
  const PersistenceMax: uint8 := (PersistenceMapNum - 1) as uint8
  /** Mode 3, "Valid in 2/last 4". */
  const PersistenceDefault: uint8 := 3

  const AlphaMin: real := 0.0
  const AlphaMax: real := 1.0
  const AlphaDefault: real := 0.4

  const DeltaMin: uint8 := 1
  const DeltaMax: uint8 := 100
  const DeltaDefault: uint8 := 20

  /** `sizeof(float)` and `sizeof(uint16_t)`. */
  const SizeOfFloat: nat := 4
  const SizeOfUint16: nat := 2

  // ---------------------------------------------------------------------
  // Frames and stream profiles
  // ---------------------------------------------------------------------

  /** The kind of frame being filtered. */
  datatype Extension = DepthFrame | DisparityFrame

  /** A stream profile. The filter tells profiles apart only by identity,
      so a profile is an object compared by reference; width and height
      are those of its video stream. */
  class StreamProfile {
    const width: nat
    const height: nat

    constructor (width: nat, height: nat)
      ensures this.width == width && this.height == height
    {
      this.width := width;
      this.height := height;
    }
  }

  /** What the filter reads of an incoming frame: its profile and whether
      it is a disparity frame. */
  datatype Frame = Frame(profile: StreamProfile, isDisparity: bool)

  /** Bytes per sample: a disparity frame holds floats, any other frame
      16-bit depth. */
  function BytesPerSample(extension: Extension): nat
  {
    match extension
    case DisparityFrame => SizeOfFloat
    case DepthFrame => SizeOfUint16
  }

  /** A freshly resized vector: `n` zero bytes. */
  function Zeros(n: nat): (z: seq<bv8>)
    ensures |z| == n && forall i :: 0 <= i < n ==> z[i] == 0
  {
    seq(n, _ => 0)
  }

  /** `std::vector::resize` on a byte vector: keep the first `n` bytes, and
      pad with zero bytes up to `n`. */
  function Resize(v: seq<bv8>, n: nat): (r: seq<bv8>)
    ensures |r| == n
    ensures forall i :: 0 <= i < n && i < |v| ==> r[i] == v[i]
    ensures forall i :: |v| <= i < n ==> r[i] == 0
  {
    if n <= |v| then v[..n] else v + Zeros(n - |v|)
  }

  /** Resizing a cleared vector gives zeros only. */
  lemma ResizeCleared(n: nat)
    ensures Resize([], n) == Zeros(n)
  {
  }

  // ---------------------------------------------------------------------
  // The filter's state
  // ---------------------------------------------------------------------

  /** The fields of the filter that the entry points read and write. */
  datatype State = State(
    persistence: uint8,
    alpha: real,
    delta: uint8,
    curFrameIndex: nat,
    width: nat,
    height: nat,
    stride: nat,
    bpp: nat,
    extension: Extension,
    pixels: nat,
    sourceProfile: StreamProfile?,
    lastFrame: seq<bv8>,
    history: seq<bv8>,
    persistenceMap: seq<bv8>)

  /** The active map is the table row of the current persistence mode. */
  predicate MapLoaded(s: State)
  {
    s.persistence as nat < PersistenceMapNum && s.persistenceMap == PersistenceLut(s.persistence as nat)
  }

  /** The frame geometry agrees with the last profile seen (all zero before
      the first frame), and the two buffers are either both empty or both
      hold one frame's worth of bytes. */
  predicate GeometryConsistent(s: State)
  {
    && s.stride == s.width * s.bpp
    && s.pixels == s.width * s.height
    && (s.sourceProfile == null ==>
          s.width == 0 && s.height == 0 && s.bpp == 0 && s.extension == DepthFrame)
    && (s.sourceProfile != null ==>
          && s.bpp == BytesPerSample(s.extension)
          && s.width == s.sourceProfile.width
          && s.height == s.sourceProfile.height)
    && |s.lastFrame| == |s.history|
    && (|s.lastFrame| == 0 || |s.lastFrame| == s.pixels * s.bpp)
  }

  /** The invariant every entry point keeps. */
  predicate Inv(s: State)
  {
    MapLoaded(s) && GeometryConsistent(s)
  }

  /** The option values are inside the ranges the options advertise. */
  predicate ParamsInRange(s: State)
  {
    && PersistenceMin <= s.persistence <= PersistenceMax
    && AlphaMin <= s.alpha <= AlphaMax
    && DeltaMin <= s.delta <= DeltaMax
  }

  // ---------------------------------------------------------------------
  // Entry points, as functions of the state
  // ---------------------------------------------------------------------

  /** `static_cast<uint8_t>` of a float in the byte range: truncation. */
  function TruncateToByte(val: real): (b: uint8)
    requires 0.0 <= val < 256.0
    ensures b as real <= val < b as real + 1.0
  {
    val.Floor as uint8
  }

  /** The `(int)` cast of a float: truncation toward zero. */
  function TruncateTowardZero(val: real): (i: int)
    ensures 0.0 <= val ==> i as real <= val < i as real + 1.0
    ensures val < 0.0 ==> i as real - 1.0 < val <= i as real
  {
    if 0.0 <= val then val.Floor else -((-val).Floor)
  }

  /** `recalc_persistence_map`: the active map becomes the row of the
      current mode; nothing else changes. */
  function AfterRecalcPersistenceMap(s: State): (r: State)
    requires s.persistence as nat < PersistenceMapNum
    ensures MapLoaded(r)
    ensures r.(persistenceMap := s.persistenceMap) == s
  {
    s.(persistenceMap := PersistenceLut(s.persistence as nat))
  }

  /** `on_set_persistence_control`: store the mode, reload the map and empty
      both buffers. The frame index is left as it is. */
  function AfterOnSetPersistenceControl(s: State, val: uint8): (r: State)
    requires val as nat < PersistenceMapNum
    ensures r.persistence == val && MapLoaded(r)
    ensures r.lastFrame == [] && r.history == []
    ensures r.(persistenceMap := s.persistenceMap, lastFrame := s.lastFrame, history := s.history)
            == s.(persistence := val)
  {
    AfterRecalcPersistenceMap(s.(persistence := val)).(lastFrame := [], history := [])
  }

  /** `on_set_alpha`: store the weight, restart the frame index and empty
      both buffers. There is no range check on this path. */
  function AfterOnSetAlpha(s: State, val: real): (r: State)
    ensures r.alpha == val && r.curFrameIndex == 0
    ensures r.lastFrame == [] && r.history == []
    ensures r.(curFrameIndex := s.curFrameIndex, lastFrame := s.lastFrame, history := s.history)
            == s.(alpha := val)
  {
    s.(alpha := val, curFrameIndex := 0, lastFrame := [], history := [])
  }

  /** `on_set_delta`: store the truncated threshold, restart the frame index
      and empty both buffers. */
  function AfterOnSetDelta(s: State, val: real): (r: State)
    requires 0.0 <= val < 256.0
    ensures r.delta as real <= val < r.delta as real + 1.0
    ensures r.curFrameIndex == 0 && r.lastFrame == [] && r.history == []
    ensures r.(curFrameIndex := s.curFrameIndex, lastFrame := s.lastFrame, history := s.history)
            == s.(delta := r.delta)
  {
    s.(delta := TruncateToByte(val), curFrameIndex := 0, lastFrame := [], history := [])
  }

  /** Why an option refused a value. The persistence message prints the
      value through an `(int)` cast; the alpha and delta ones carry it as
      given. */
  datatype OptionError =
    | UnsupportedPersistence(reported: int)
    | UnsupportedAlpha(alpha: real)
    | UnsupportedDelta(delta: real)

  datatype Result<T> = Ok(value: T) | Err(error: OptionError)

  /** The range check of an option: inside [lo, hi]. */
  predicate InRange(val: real, lo: real, hi: real)
  {
    lo <= val <= hi
  }

  /** A value that passes the persistence or delta range check also fits
      the `static_cast<uint8_t>` of its handler, and lands in the range. */
  lemma AcceptedValueTruncatesIntoRange(val: real, lo: uint8, hi: uint8)
    requires InRange(val, lo as real, hi as real)
    ensures 0.0 <= val < 256.0
    ensures lo <= TruncateToByte(val) <= hi
  {
  }

  /** The persistence option's handler: a value outside 0..8 is refused
      before anything is touched; otherwise the truncated value becomes the
      mode. */
  function AfterSetPersistenceOption(s: State, val: real): (r: Result<State>)
    ensures r.Ok? <==> InRange(val, PersistenceMin as real, PersistenceMax as real)
    ensures r.Err? ==> r.error == UnsupportedPersistence(TruncateTowardZero(val))
    ensures r.Ok? ==>
              && r.value.persistence as real <= val < r.value.persistence as real + 1.0
              && MapLoaded(r.value)
              && r.value.lastFrame == [] && r.value.history == []
    ensures r.Ok? ==>
              r.value.(persistence := s.persistence, persistenceMap := s.persistenceMap,
                       lastFrame := s.lastFrame, history := s.history) == s
  {
    if !InRange(val, PersistenceMin as real, PersistenceMax as real) then
      Err(UnsupportedPersistence(TruncateTowardZero(val)))
    else
      Ok(AfterOnSetPersistenceControl(s, TruncateToByte(val)))
  }

  /** The alpha option: its handler adds no check of its own, and the option
      object keeps the value inside its declared range [0, 1]. */
  function AfterSetAlphaOption(s: State, val: real): (r: Result<State>)
    ensures r.Ok? <==> InRange(val, AlphaMin, AlphaMax)
    ensures r.Err? ==> r.error == UnsupportedAlpha(val)
    ensures r.Ok? ==>
              && r.value.alpha == val
              && r.value.curFrameIndex == 0 && r.value.lastFrame == [] && r.value.history == []
    ensures r.Ok? ==>
              r.value.(alpha := s.alpha, curFrameIndex := s.curFrameIndex,
                       lastFrame := s.lastFrame, history := s.history) == s
  {
    if !InRange(val, AlphaMin, AlphaMax) then
      Err(UnsupportedAlpha(val))
    else
      Ok(AfterOnSetAlpha(s, val))
  }

  /** The delta option's handler: a value outside 1..100 is refused before
      anything is touched; otherwise it goes to `on_set_delta`. */
  function AfterSetDeltaOption(s: State, val: real): (r: Result<State>)
    ensures r.Ok? <==> InRange(val, DeltaMin as real, DeltaMax as real)
    ensures r.Err? ==> r.error == UnsupportedDelta(val)
    ensures r.Ok? ==>
              && DeltaMin <= r.value.delta <= DeltaMax
              && r.value.delta as real <= val < r.value.delta as real + 1.0
              && r.value.curFrameIndex == 0
              && r.value.lastFrame == [] && r.value.history == []
    ensures r.Ok? ==>
              r.value.(delta := s.delta, curFrameIndex := s.curFrameIndex,
                       lastFrame := s.lastFrame, history := s.history) == s
  {
    if !InRange(val, DeltaMin as real, DeltaMax as real) then
      Err(UnsupportedDelta(val))
    else
      Ok(AfterOnSetDelta(s, val))
  }

  /** `update_configuration`: a frame whose profile is the one already seen
      changes nothing. A frame of another profile makes it the current one,
      takes the sample size from the frame kind and the geometry from the
      profile, and replaces both buffers by zeroed ones sized for a frame. */
  function AfterUpdateConfiguration(s: State, f: Frame): (r: State)
    ensures s.sourceProfile == f.profile ==> r == s
    ensures s.sourceProfile != f.profile ==>
              && r.sourceProfile == f.profile
              && r.extension == (if f.isDisparity then DisparityFrame else DepthFrame)
              && r.bpp == (if f.isDisparity then SizeOfFloat else SizeOfUint16)
              && r.width == f.profile.width && r.height == f.profile.height
              && r.stride == r.width * r.bpp
              && r.pixels == r.width * r.height
              && |r.lastFrame| == r.pixels * r.bpp && |r.history| == r.pixels * r.bpp
              && (forall i :: 0 <= i < |r.lastFrame| ==> r.lastFrame[i] == 0)
              && (forall i :: 0 <= i < |r.history| ==> r.history[i] == 0)
    ensures r.(width := s.width, height := s.height, stride := s.stride, bpp := s.bpp,
               extension := s.extension, pixels := s.pixels, sourceProfile := s.sourceProfile,
               lastFrame := s.lastFrame, history := s.history) == s
  {
    if f.profile == s.sourceProfile then
      s
    else
      var extension := if f.isDisparity then DisparityFrame else DepthFrame;
      var bpp := BytesPerSample(extension);
      var width := f.profile.width;
      var height := f.profile.height;
      var pixels := width * height;
      s.(sourceProfile := f.profile, extension := extension, bpp := bpp,
         width := width, height := height, stride := width * bpp, pixels := pixels,
         lastFrame := Zeros(pixels * bpp), history := Zeros(pixels * bpp))
  }

  /** The fields as the constructor's initializer list leaves them, before
      its body runs. The map and the frame index are declared in
      temporal-filter.h, which is not part of this model; they are taken as
      zero here, and both are overwritten before the constructor returns. */
  function Initial(): (s: State)
    ensures s.persistence == PersistenceDefault && s.delta == DeltaDefault && s.alpha == AlphaDefault
    ensures s.sourceProfile == null && GeometryConsistent(s)
  {
    State(PersistenceDefault, AlphaDefault, DeltaDefault, 0,
          0, 0, 0, 0, DepthFrame, 0, null, [], [], Zeros(LutSize))
  }

  /** The state after construction: the body ends by handing the three
      defaults to the persistence, delta and alpha handlers, in that order.
      That leaves mode 3 with its table row loaded, delta 20, alpha 0.4, no
      profile or geometry, empty buffers and the frame index at 0. */
  function Constructed(): (s: State)
    ensures Inv(s) && ParamsInRange(s)
    ensures s.persistence == 3 && s.persistenceMap == PersistenceLut(3)
    ensures s.delta == 20 && s.alpha == 0.4
    ensures s.width == 0 && s.height == 0
    ensures s.stride == 0 && s.bpp == 0 && s.pixels == 0
    ensures s.extension == DepthFrame && s.sourceProfile == null
    ensures s.lastFrame == [] && s.history == []
    ensures s.curFrameIndex == 0
  {
    AfterOnSetAlpha(AfterOnSetDelta(AfterOnSetPersistenceControl(Initial(), PersistenceDefault), DeltaDefault as real), AlphaDefault)
  }

  // ---------------------------------------------------------------------
  // Sequences of calls
  // ---------------------------------------------------------------------

  /** One call into the filter from outside. */
  datatype Call =
    | SetPersistence(val: real)
    | SetAlpha(val: real)
    | SetDelta(val: real)
    | Reconfigure(frame: Frame)

  /** The state after one call; a refused option value leaves it as it was. */
  function Step(s: State, c: Call): State
  {
    match c
    case SetPersistence(v) => (var r := AfterSetPersistenceOption(s, v); if r.Ok? then r.value else s)
    case SetAlpha(v) => (var r := AfterSetAlphaOption(s, v); if r.Ok? then r.value else s)
    case SetDelta(v) => (var r := AfterSetDeltaOption(s, v); if r.Ok? then r.value else s)
    case Reconfigure(f) => AfterUpdateConfiguration(s, f)
  }

  /** The option call passes its option's range check. */
  predicate Accepts(c: Call)
  {
    || (c.SetPersistence? && InRange(c.val, PersistenceMin as real, PersistenceMax as real))
    || (c.SetAlpha? && InRange(c.val, AlphaMin, AlphaMax))
    || (c.SetDelta? && InRange(c.val, DeltaMin as real, DeltaMax as real))
  }

  /** The state after a sequence of calls, first to last. */
  function Run(s: State, calls: seq<Call>): State
    decreases |calls|
  {
    if calls == [] then s else Run(Step(s, calls[0]), calls[1..])
  }

  // ---------------------------------------------------------------------
  // Properties
  // ---------------------------------------------------------------------

  lemma StepPreservesInv(s: State, c: Call)
    requires Inv(s)
    ensures Inv(Step(s, c))
  {
    match c
    case SetPersistence(v) =>
    case SetAlpha(v) =>
    case SetDelta(v) =>
    case Reconfigure(f) =>
      if f.profile != s.sourceProfile {
        var r := AfterUpdateConfiguration(s, f);
        assert r.bpp == BytesPerSample(r.extension);
      }
  }

  /** Every entry point keeps the invariant, whatever the calls. */
  lemma {:induction false} RunPreservesInv(s: State, calls: seq<Call>)
    requires Inv(s)
    ensures Inv(Run(s, calls))
    decreases |calls|
  {
    if calls != [] {
      StepPreservesInv(s, calls[0]);
      RunPreservesInv(Step(s, calls[0]), calls[1..]);
    }
  }

  /** The option handlers never let a value outside its range in. */
  lemma {:induction false} RunKeepsParamsInRange(s: State, calls: seq<Call>)
    requires ParamsInRange(s)
    ensures ParamsInRange(Run(s, calls))
    decreases |calls|
  {
    if calls != [] {
      var t := Step(s, calls[0]);
      match calls[0] {
        case SetPersistence(v) =>
          if InRange(v, PersistenceMin as real, PersistenceMax as real) {
            AcceptedValueTruncatesIntoRange(v, PersistenceMin, PersistenceMax);
          }
        case SetDelta(v) =>
          if InRange(v, DeltaMin as real, DeltaMax as real) {
            AcceptedValueTruncatesIntoRange(v, DeltaMin, DeltaMax);
          }
        case SetAlpha(_) =>
        case Reconfigure(_) =>
      }
      assert ParamsInRange(t);
      RunKeepsParamsInRange(t, calls[1..]);
    }
  }

  /** In every state the filter reaches from construction through the
      modelled entry points, the active map is the table row of its mode and
      the option values are in range. */
  lemma Reachable(calls: seq<Call>)
    ensures Inv(Run(Constructed(), calls)) && ParamsInRange(Run(Constructed(), calls))
  {
    RunPreservesInv(Constructed(), calls);
    RunKeepsParamsInRange(Constructed(), calls);
  }

  /** Feeding the same frame twice is the same as feeding it once. */
  lemma UpdateConfigurationIdempotent(s: State, f: Frame)
    ensures AfterUpdateConfiguration(AfterUpdateConfiguration(s, f), f) == AfterUpdateConfiguration(s, f)
  {
  }

  /** On a profile change, nothing of the old buffers or the old geometry
      survives: the result depends only on the frame and the other fields. */
  lemma ReconfigurationForgetsFrameState(s: State, t: State, f: Frame)
    requires s.sourceProfile != f.profile && t.sourceProfile != f.profile
    requires s.(width := t.width, height := t.height, stride := t.stride, bpp := t.bpp,
                extension := t.extension, pixels := t.pixels, sourceProfile := t.sourceProfile,
                lastFrame := t.lastFrame, history := t.history) == t
    ensures AfterUpdateConfiguration(s, f) == AfterUpdateConfiguration(t, f)
  {
  }

  /** A refused option value leaves every field as it was. */
  lemma RefusedOptionChangesNothing(s: State, c: Call)
    requires !c.Reconfigure? && !Accepts(c)
    ensures Step(s, c) == s
  {
  }

  /** Setting the same persistence twice is the same as setting it once. */
  lemma SetPersistenceIdempotent(s: State, val: real)
    requires AfterSetPersistenceOption(s, val).Ok?
    ensures AfterSetPersistenceOption(AfterSetPersistenceOption(s, val).value, val) == AfterSetPersistenceOption(s, val)
  {
  }

  /** Every option value that passes its range check empties both buffers. */
  lemma AcceptedOptionEmptiesBuffers(s: State, c: Call)
    requires Accepts(c)
    ensures Step(s, c).lastFrame == [] && Step(s, c).history == []
  {
  }

  /** The buffers are refilled only by a change of profile: after an
      option value that passes its range check, a frame of the profile
      already seen leaves them empty even though the geometry says a frame
      has `pixels * bpp` bytes. */
  lemma SameProfileAfterOptionKeepsBuffersEmpty(s: State, c: Call, f: Frame)
    requires Inv(s) && s.sourceProfile == f.profile && Accepts(c)
    ensures AfterUpdateConfiguration(Step(s, c), f).lastFrame == []
    ensures AfterUpdateConfiguration(Step(s, c), f).history == []
    ensures AfterUpdateConfiguration(Step(s, c), f).pixels * AfterUpdateConfiguration(Step(s, c), f).bpp
            == f.profile.width * f.profile.height * BytesPerSample(s.extension)
  {
    AcceptedOptionEmptiesBuffers(s, c);
  }

  /** The active map of a reachable state in an all-or-nothing mode flags
      exactly the histories with enough valid frames. */
  lemma ActiveMapCountsValidFrames(s: State, h: nat)
    requires MapLoaded(s) && s.persistence in {0, 1, 4, 7, 8} && h < LutSize
    ensures s.persistenceMap[h] == Flag(BitCount(h) >= ValidFramesNeeded(s.persistence as nat))
  {
    FlagRowsCountValidFrames(s.persistence as nat, h);
  }

  // ---------------------------------------------------------------------
  // The filter object
  // ---------------------------------------------------------------------

  /** What an option handler reports to its caller: the value was taken, or
      the `invalid_value_exception` it throws. */
  datatype Outcome = Accepted | Rejected(error: OptionError)

  class TemporalFilter {
    var persistence: uint8
    var alpha: real
    var delta: uint8
    var curFrameIndex: nat
    var width: nat
    var height: nat
    var stride: nat
    var bpp: nat
    var extension: Extension
    var pixels: nat
    var sourceProfile: StreamProfile?
    var lastFrame: seq<bv8>
    var history: seq<bv8>
    /** `_persistence_map`: one decision byte per history byte. */
    const persistenceMap: array<bv8>

    /** The fields, read as a value. */
    function Model(): State
      reads this, persistenceMap
    {
      State(persistence, alpha, delta, curFrameIndex, width, height, stride, bpp,
            extension, pixels, sourceProfile, lastFrame, history, persistenceMap[..])
    }

    /** The object invariant: a map of one entry per history byte, a mode
        that selects a table row, and consistent frame geometry. That the map
        also holds the row of the mode (`MapLoaded`) is not repeated here: it
        follows from each method changing the fields exactly as its `After...`
        function does, by `Reachable`. */
    predicate Valid()
      reads this, persistenceMap
    {
      && persistenceMap.Length == LutSize
      && persistence as nat < PersistenceMapNum
      && GeometryConsistent(Model())
    }

    /** The initializer list, then the three option handlers with the
        default values. */
    constructor ()
      ensures Valid() && fresh(persistenceMap)
      ensures Model() == Constructed()
    {
      persistence := PersistenceDefault;
      alpha := AlphaDefault;
      delta := DeltaDefault;
      curFrameIndex := 0;
      width, height, stride, bpp := 0, 0, 0, 0;
      extension := DepthFrame;
      pixels := 0;
      sourceProfile := null;
      lastFrame, history := [], [];
      persistenceMap := new bv8[LutSize](_ => 0);
      new;
      assert Model() == Initial();
      OnSetPersistenceControl(persistence);
      OnSetDelta(delta as real);
      OnSetAlpha(alpha);
    }

    /** `std::array::fill` on the map. */
    method FillMap(v: bv8)
      requires persistenceMap.Length == LutSize
      modifies persistenceMap
      ensures forall h :: 0 <= h < LutSize ==> persistenceMap[h] == v
    {
      for i := 0 to persistenceMap.Length
        invariant forall h :: 0 <= h < i ==> persistenceMap[h] == v
      {
        persistenceMap[i] := v;
      }
    }

    /** Copy assignment of a table row to the map. */
    method CopyRow(row: Row)
      requires persistenceMap.Length == LutSize
      modifies persistenceMap
      ensures persistenceMap[..] == row
    {
      for i := 0 to persistenceMap.Length
        invariant forall h :: 0 <= h < i ==> persistenceMap[h] == row[h]
      {
        persistenceMap[i] := row[i];
      }
      assert persistenceMap[..] == row;
    }

    /** `recalc_persistence_map`: zero the map, then copy in the row of the
        current mode. */
    method RecalcPersistenceMap()
      requires persistenceMap.Length == LutSize && persistence as nat < PersistenceMapNum
      modifies persistenceMap
      ensures persistenceMap[..] == PersistenceLut(persistence as nat)
      ensures Model() == AfterRecalcPersistenceMap(old(Model()))
    {
      FillMap(0);
      CopyRow(PersistenceLut(persistence as nat));
    }

    /** `on_set_persistence_control`. The map need not be loaded yet: the
        constructor calls this to load it. */
    method OnSetPersistenceControl(val: uint8)
      requires persistenceMap.Length == LutSize && GeometryConsistent(Model())
      requires val as nat < PersistenceMapNum
      modifies this, persistenceMap
      ensures Valid()
      ensures Model() == AfterOnSetPersistenceControl(old(Model()), val)
    {
      persistence := val;
      RecalcPersistenceMap();
      lastFrame := [];
      history := [];
    }

    /** `on_set_alpha`. */
    method OnSetAlpha(val: real)
      requires Valid()
      modifies this
      ensures Valid()
      ensures Model() == AfterOnSetAlpha(old(Model()), val)
    {
      alpha := val;
      curFrameIndex := 0;
      lastFrame := [];
      history := [];
    }

    /** `on_set_delta`. */
    method OnSetDelta(val: real)
      requires Valid()
      requires 0.0 <= val < 256.0
      modifies this
      ensures Valid()
      ensures Model() == AfterOnSetDelta(old(Model()), val)
    {
      delta := TruncateToByte(val);
      curFrameIndex := 0;
      lastFrame := [];
      history := [];
    }

    /** The handler installed on the persistence option. */
    method SetPersistenceOption(val: real) returns (outcome: Outcome)
      requires Valid()
      modifies this, persistenceMap
      ensures Valid()
      ensures match AfterSetPersistenceOption(old(Model()), val)
              case Ok(s) => outcome == Accepted && Model() == s
              case Err(e) => outcome == Rejected(e) && Model() == old(Model())
    {
      if !InRange(val, PersistenceMin as real, PersistenceMax as real) {
        return Rejected(UnsupportedPersistence(TruncateTowardZero(val)));
      }
      OnSetPersistenceControl(TruncateToByte(val));
      outcome := Accepted;
    }

    /** The alpha option: its range check, then the handler installed on it. */
    method SetAlphaOption(val: real) returns (outcome: Outcome)
      requires Valid()
      modifies this
      ensures Valid()
      ensures match AfterSetAlphaOption(old(Model()), val)
              case Ok(s) => outcome == Accepted && Model() == s
              case Err(e) => outcome == Rejected(e) && Model() == old(Model())
    {
      if !InRange(val, AlphaMin, AlphaMax) {
        return Rejected(UnsupportedAlpha(val));
      }
      OnSetAlpha(val);
      outcome := Accepted;
    }

    /** The handler installed on the delta option. */
    method SetDeltaOption(val: real) returns (outcome: Outcome)
      requires Valid()
      modifies this
      ensures Valid()
      ensures match AfterSetDeltaOption(old(Model()), val)
              case Ok(s) => outcome == Accepted && Model() == s
              case Err(e) => outcome == Rejected(e) && Model() == old(Model())
    {
      if !InRange(val, DeltaMin as real, DeltaMax as real) {
        return Rejected(UnsupportedDelta(val));
      }
      OnSetDelta(val);
      outcome := Accepted;
    }

    /** `update_configuration`: on a new profile, recompute the geometry and
        clear and resize both buffers. */
    method UpdateConfiguration(f: Frame)
      requires Valid()
      modifies this
      ensures Valid()
      ensures Model() == AfterUpdateConfiguration(old(Model()), f)
    {
      if f.profile != sourceProfile {
        var ext := if f.isDisparity then DisparityFrame else DepthFrame;
        var b := if ext == DisparityFrame then SizeOfFloat else SizeOfUint16;
        var w, h := f.profile.width, f.profile.height;
        var n := w * h;
        var buffer := Resize([], n * b);
        ResizeCleared(n * b);
        sourceProfile, extension, bpp, width, height, stride, pixels := f.profile, ext, b, w, h, w * b, n;
        lastFrame, history := buffer, buffer;
      }
    }
  }
}
