/**
 * The off-board telemetry recorder: it listens to the robot's network-table updates, decodes
 * the field-management control word into a match mode, records every drivetrain telemetry
 * value, and stops recording for good once the mode goes from autonomous to disabled.
 */
module TelemetryLogger {
  import opened Wrappers
  import opened Numerics

  const ENABLED_BIT: nat := 0
  const AUTO_BIT: nat := 1
  const TEST_BIT: nat := 2
  const EMERGENCY_STOP_BIT: nat := 3
  const FMS_ATTACHED_BIT: nat := 4
  const DS_ATTACHED_BIT: nat := 5

  const CONTROL_DATA_KEY: string := "/FMSInfo/FMSControlData"
  const DRIVETRAIN_KEY: string := "/RobotTelemetry/Drivetrain"

  function Pow2(k: nat): (p: int)
    ensures p >= 1
  {
    if k == 0 then 1 else 2 * Pow2(k - 1)
  }

  /** `w & (1 << k) != 0` on Python's unbounded two's-complement integers. */
  predicate Bit(w: int, k: nat)
  {
    (w / Pow2(k)) % 2 == 1
  }

  /** The mode named by a control word. */
  function ModeOfWord(w: int): (mode: string)
    ensures mode == "disabled" <==> !Bit(w, ENABLED_BIT)
    ensures mode == "auto" <==> Bit(w, ENABLED_BIT) && Bit(w, AUTO_BIT)
    ensures mode == "test" <==> Bit(w, ENABLED_BIT) && !Bit(w, AUTO_BIT) && Bit(w, TEST_BIT)
    ensures mode == "teleop" <==> Bit(w, ENABLED_BIT) && !Bit(w, AUTO_BIT) && !Bit(w, TEST_BIT)
  {
    if !Bit(w, ENABLED_BIT) then "disabled"
    else if Bit(w, AUTO_BIT) then "auto"
    else if Bit(w, TEST_BIT) then "test"
    else "teleop"
  }

  /** `translate_control_word`: the number is first truncated toward zero. */
  function TranslateControlWord(value: real): (mode: string)
    ensures mode == ModeOfWord(Truncate(value))
    ensures mode in {"disabled", "auto", "test", "teleop"}
  {
    ModeOfWord(Truncate(value))
  }

  lemma LowBitsOf(q: int, r: int, d: int)
    requires d in {1, 2, 4} && 0 <= r < 8
    ensures (8 * q + r) / d == (8 / d) * q + r / d
  {
    var m := 8 / d;
    assert 8 * q + r == d * (m * q) + r;
    assert r == d * (r / d) + r % d;
    assert 8 * q + r == d * (m * q + r / d) + r % d;
  }

  /** Only the enabled, auto and test bits decide the mode. */
  lemma {:induction false} OnlyLowBitsMatter(w: int)
    ensures ModeOfWord(w) == ModeOfWord(w % 8)
  {
    var q, r := w / 8, w % 8;
    assert w == 8 * q + r;
    LowBitsOf(q, r, 1);
    LowBitsOf(q, r, 2);
    LowBitsOf(q, r, 4);
    assert Pow2(0) == 1 && Pow2(1) == 2 && Pow2(2) == 4;
    assert Bit(w, 0) == Bit(r, 0);
    assert Bit(w, 1) == Bit(r, 1);
    assert Bit(w, 2) == Bit(r, 2);
  }

  /** Words seen with the driver station and field attached. */
  lemma ControlWordExamples()
    ensures TranslateControlWord(48.0) == "disabled"
    ensures TranslateControlWord(51.0) == "auto"
    ensures TranslateControlWord(55.0) == "auto"
    ensures TranslateControlWord(53.0) == "test"
    ensures TranslateControlWord(49.0) == "teleop"
    ensures TranslateControlWord(-0.5) == "disabled"
  {
    assert Pow2(0) == 1 && Pow2(1) == 2 && Pow2(2) == 4;
    assert Truncate(48.0) == 48 && Truncate(51.0) == 51 && Truncate(55.0) == 55;
    assert Truncate(53.0) == 53 && Truncate(49.0) == 49 && Truncate(-0.5) == 0;
  }

  /** A network-table value: the kinds the listener can be handed. */
  datatype NtValue =
    | NtNumber(number: real)
    | NtBoolean(flag: bool)
    | NtString(text: string)
    | NtArray(items: seq<NtValue>)

  /** Python's `int()` on the value, or nothing where it raises. */
  function IntOf(value: NtValue): (r: Option<real>)
    ensures r.Some? <==> value.NtNumber? || value.NtBoolean?
  {
    match value
    case NtNumber(n) => Some(n)
    case NtBoolean(b) => Some(if b then 1.0 else 0.0)
    case _ => None
  }

  /** The decoded modes, oldest first, contain an "auto" immediately followed by "disabled". */
  ghost predicate EndedAuto(modes: seq<string>)
  {
    |modes| >= 2 &&
    (EndedAuto(modes[..|modes| - 1]) || (modes[|modes| - 2] == "auto" && modes[|modes| - 1] == "disabled"))
  }

  class Logger {
    var data: seq<NtValue>
    var finalized: bool
    var mode: string
    /** Every mode held so far, starting with the initial empty one. */
    ghost var modes: seq<string>

    ghost predicate Valid()
      reads this
    {
      |modes| >= 1 && mode == modes[|modes| - 1] && finalized == EndedAuto(modes)
    }

    constructor ()
      ensures Valid() && data == [] && !finalized && mode == "" && modes == [""]
    {
      data := [];
      finalized := false;
      mode := "";
      modes := [""];
    }

    /**
     * The listener callback. `ok` is false when decoding the control word raises, in which
     * case nothing changes.
     */
    method ValueChanged(key: string, value: NtValue) returns (ok: bool)
      requires Valid()
      modifies this
      ensures Valid()
      ensures !ok <==> key == CONTROL_DATA_KEY && IntOf(value).None?
      ensures key == CONTROL_DATA_KEY && ok ==>
        && mode == TranslateControlWord(IntOf(value).value)
        && modes == old(modes) + [mode]
        && finalized == (old(finalized) || (old(mode) == "auto" && mode == "disabled"))
        && data == old(data)
      ensures key == DRIVETRAIN_KEY ==>
        && data == (if old(finalized) then old(data) else old(data) + [value])
        && mode == old(mode) && finalized == old(finalized) && modes == old(modes)
      ensures (key != CONTROL_DATA_KEY && key != DRIVETRAIN_KEY) || !ok ==>
        data == old(data) && mode == old(mode) && finalized == old(finalized) && modes == old(modes)
    {
      ok := true;
      if key == CONTROL_DATA_KEY {
        var word := IntOf(value);
        if word.None? {
          ok := false;
          return;
        }
        var newMode := TranslateControlWord(word.value);
        if mode == "auto" && newMode == "disabled" {
          finalized := true;
        }
        mode := newMode;
        modes := modes + [newMode];
        assert modes[..|modes| - 1] == old(modes);
      }
      if key == DRIVETRAIN_KEY && !finalized {
        data := data + [value];
      }
    }
  }

  /** Once autonomous has ended, every longer mode history still has: the latch never resets. */
  lemma {:induction false} FinalizedStays(modes: seq<string>, more: seq<string>)
    requires EndedAuto(modes)
    ensures EndedAuto(modes + more)
    decreases |more|
  {
    if more != [] {
      var init := modes + more[..|more| - 1];
      FinalizedStays(modes, more[..|more| - 1]);
      assert (modes + more)[..|modes + more| - 1] == init;
    } else {
      assert modes + more == modes;
    }
  }

  /** An autonomous period, its end, and the telemetry around it. */
  method RecordAutonomous(sample1: NtValue, sample2: NtValue) returns (data: seq<NtValue>, finalized: bool)
    ensures data == [sample1] && finalized
  {
    ControlWordExamples();
    var logger := new Logger();
    var ok := logger.ValueChanged(CONTROL_DATA_KEY, NtNumber(51.0));
    ok := logger.ValueChanged(DRIVETRAIN_KEY, sample1);
    ok := logger.ValueChanged(CONTROL_DATA_KEY, NtNumber(48.0));
    ok := logger.ValueChanged(DRIVETRAIN_KEY, sample2);
    data, finalized := logger.data, logger.finalized;
  }
}
