/** The hardware driver collaborator. Bus transactions are outside the model;
    what the core does to a driver is call its configuration entry points,
    which this class records in order. Reads are modelled where they happen,
    as a function parameter standing for the driver's answers. */
module Drivers {
  import opened Values

  /** One invocation `config(bus_no, selector)` of a configuration entry point. */
  datatype ConfigCall = ConfigCall(fn: Callable, busNo: Value, selector: Value)

  class Driver {
    var configured: seq<ConfigCall>

    constructor ()
      ensures configured == []
    {
      configured := [];
    }

    method Configure(fn: Callable, busNo: Value, selector: Value)
      modifies this
      ensures configured == old(configured) + [ConfigCall(fn, busNo, selector)]
    {
      configured := configured + [ConfigCall(fn, busNo, selector)];
    }
  }
}
