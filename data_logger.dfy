/**
 * The on-robot elevator logger: three lists of timestamped entries (measured state, reference,
 * voltages) that grow together, one entry each per append, but only while logging is enabled.
 */
module ElevatorLogging {

  datatype StateEntry = StateEntry(time: real, pos: real, vel: real)
  datatype RefEntry = RefEntry(time: real, posRef: real, velRef: real)
  datatype VoltageEntry = VoltageEntry(time: real, outVolts: real, dsVolts: real)

  /** One append call's three entries. */
  datatype Row = Row(state: StateEntry, ref: RefEntry, voltage: VoltageEntry)

  class DataLogger {
    var states: seq<StateEntry>
    var refs: seq<RefEntry>
    var volts: seq<VoltageEntry>
    var enabled: bool
    /** The recorded appends, in order. */
    ghost var rows: seq<Row>

    /** Position i of the three lists holds the entries of the i-th recorded append. */
    ghost predicate Valid()
      reads this
    {
      && |states| == |rows| && |refs| == |rows| && |volts| == |rows|
      && forall i :: 0 <= i < |rows| ==> rows[i] == Row(states[i], refs[i], volts[i])
    }

    constructor ()
      ensures Valid() && !enabled
      ensures states == [] && refs == [] && volts == [] && rows == []
    {
      states := [];
      refs := [];
      volts := [];
      enabled := false;
      rows := [];
    }

    method SetEnabled(value: bool)
      requires Valid()
      modifies this
      ensures Valid() && enabled == value
      ensures states == old(states) && refs == old(refs) && volts == old(volts) && rows == old(rows)
    {
      enabled := value;
    }

    method Append(state: StateEntry, ref: RefEntry, voltage: VoltageEntry)
      requires Valid()
      modifies this
      ensures Valid() && enabled == old(enabled)
      ensures !enabled ==> states == old(states) && refs == old(refs) && volts == old(volts) && rows == old(rows)
      ensures enabled ==> && states == old(states) + [state]
                          && refs == old(refs) + [ref]
                          && volts == old(volts) + [voltage]
                          && rows == old(rows) + [Row(state, ref, voltage)]
    {
      if enabled {
        states := states + [state];
        refs := refs + [ref];
        volts := volts + [voltage];
        rows := rows + [Row(state, ref, voltage)];
      }
    }
  }

  /** Appends before logging is enabled leave nothing behind; the first one after does. */
  method EnableThenAppend(row1: Row, row2: Row) returns (states: seq<StateEntry>, refs: seq<RefEntry>, volts: seq<VoltageEntry>)
    ensures states == [row2.state] && refs == [row2.ref] && volts == [row2.voltage]
  {
    var logger := new DataLogger();
    logger.Append(row1.state, row1.ref, row1.voltage);
    logger.SetEnabled(true);
    logger.Append(row2.state, row2.ref, row2.voltage);
    states, refs, volts := logger.states, logger.refs, logger.volts;
  }
}
