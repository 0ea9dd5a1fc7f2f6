/** The sensor builder: it holds one device object and writes configuration
    fields into it one at a time, each into the base object when the base
    already has an attribute of that name and into the device object
    otherwise. */
module Builders {
  import opened Values
  import opened SensorBase
  import opened SensorDevices

  /** The effect of writing one field. */
  function Routed(s: Sensor, name: string, v: Value): Sensor {
    if name in Attrs(s.base) then s.(base := SetAttr(s.base, name, v))
    else s.(dev := s.dev[name := v])
  }

  /** Routing never changes which names the base has, so a later field is
      routed the same way whatever was written before it. */
  lemma RoutedKeepsScopes(s: Sensor, name: string, v: Value)
    ensures Routed(s, name, v).cls == s.cls
    ensures Attrs(Routed(s, name, v).base) == Attrs(s.base)
    ensures s.dev.Keys <= Routed(s, name, v).dev.Keys
  {
  }

  /** A name the base already has is written to the base and the device
      object is untouched; any other name is written to the device object
      and the base is untouched. */
  lemma RoutedWrites(s: Sensor, name: string, v: Value)
    ensures name in Attrs(s.base) ==>
      && Routed(s, name, v).dev == s.dev
      && GetAttr(Routed(s, name, v).base, name) == Some(v)
      && forall n :: n != name ==> GetAttr(Routed(s, name, v).base, n) == GetAttr(s.base, n)
    ensures name !in Attrs(s.base) ==>
      && Routed(s, name, v).base == s.base
      && name in Routed(s, name, v).dev && Routed(s, name, v).dev[name] == v
      && forall n :: n != name && n in s.dev ==> n in Routed(s, name, v).dev && Routed(s, name, v).dev[n] == s.dev[n]
  {
  }

  /** The last write to a name wins. */
  lemma RoutedLastWriteWins(s: Sensor, name: string, v1: Value, v2: Value)
    ensures Routed(Routed(s, name, v1), name, v2) == Routed(s, name, v2)
  {
    if name in Attrs(s.base) {
      AttrsDetermine(SetAttr(SetAttr(s.base, name, v1), name, v2), SetAttr(s.base, name, v2));
    }
  }

  /** Writes to two different names commute. */
  lemma RoutedCommutes(s: Sensor, a: string, x: Value, b: string, y: Value)
    requires a != b
    ensures Routed(Routed(s, a, x), b, y) == Routed(Routed(s, b, y), a, x)
  {
    if a in Attrs(s.base) && b in Attrs(s.base) {
      AttrsDetermine(SetAttr(SetAttr(s.base, a, x), b, y), SetAttr(SetAttr(s.base, b, y), a, x));
    }
  }

  /** UART `bus_no` exists in both scopes; the base is asked first, so the
      configured bus number lands on the base and the device's own `bus_no`
      stays `None`. */
  lemma UartBusNoGoesToBase(v: Value)
    ensures Routed(Fresh(Uart), "bus_no", v).base.busNo == v
    ensures Routed(Fresh(Uart), "bus_no", v).dev == Fresh(Uart).dev
    ensures "bus_no" in Fresh(Uart).dev && Fresh(Uart).dev["bus_no"] == Null
  {
  }

  /** Every field of `fields` written at once (see `AppliedWrites`). */
  function Applied(s: Sensor, fields: map<string, Value>): Sensor {
    Sensor(s.cls, Overlay(s.base, fields), s.dev + Spilled(fields, Attrs(s.base)))
  }

  /** Writing a batch of fields, in any order: base attributes overwritten,
      all other names set on the device object, nothing else changed. */
  lemma AppliedWrites(s: Sensor, fields: map<string, Value>)
    ensures var r := Applied(s, fields);
      && r.cls == s.cls
      && Attrs(r.base) == Attrs(s.base)
      && (forall n :: n in fields && n in Attrs(s.base) ==> GetAttr(r.base, n) == Some(fields[n]))
      && (forall n :: n in fields && n !in Attrs(s.base) ==> n in r.dev && r.dev[n] == fields[n])
      && (forall n :: n !in fields ==> GetAttr(r.base, n) == GetAttr(s.base, n))
      && (forall n :: n !in fields || n in Attrs(s.base) ==>
            (n in r.dev <==> n in s.dev) && (n in s.dev ==> r.dev[n] == s.dev[n]))
  {
  }

  /** The fields that do not name a base attribute. */
  function Spilled(fields: map<string, Value>, attrs: set<string>): map<string, Value> {
    map n | n in fields && n !in attrs :: fields[n]
  }

  lemma SpilledStep(m: map<string, Value>, attrs: set<string>, k: string, v: Value)
    requires k !in m
    ensures k in attrs ==> Spilled(m[k := v], attrs) == Spilled(m, attrs)
    ensures k !in attrs ==> Spilled(m[k := v], attrs) == Spilled(m, attrs)[k := v]
  {
  }

  lemma AppliedNothing(s: Sensor)
    ensures Applied(s, map[]) == s
  {
    AttrsDetermine(Applied(s, map[]).base, s.base);
  }

  /** Writing one more field after a batch is the same as writing the
      enlarged batch. */
  lemma AppliedStep(s: Sensor, m: map<string, Value>, k: string, v: Value)
    requires k !in m
    ensures Routed(Applied(s, m), k, v) == Applied(s, m[k := v])
  {
    OverlayStep(s.base, m, k, v);
    SpilledStep(m, Attrs(s.base), k, v);
    var a := Applied(s, m);
    if k !in Attrs(s.base) {
      assert a.dev[k := v] == s.dev + Spilled(m, Attrs(s.base))[k := v];
    }
  }

  /** Whether a name is in neither scope of the object. */
  predicate NewName(s: Sensor, name: string) {
    name !in Attrs(s.base) && name !in s.dev
  }

  /** The warning test of `with_field` as written: it asks whether the name
      is missing from the device object's attribute dictionary, but that
      dictionary is the live one, read after the field was written into it. */
  predicate WarnsAsWritten(s: Sensor, name: string, v: Value) {
    name !in Attrs(s.base) && name !in Routed(s, name, v).dev
  }

  /** The test as written never fires. */
  lemma AsWrittenNeverWarns(s: Sensor, name: string, v: Value)
    ensures !WarnsAsWritten(s, name, v)
  {
  }

  /** Writing `clk_speed` into a fresh I2C device adds an attribute the class
      does not have, yet the test as written does not warn. */
  lemma ClkSpeedNotWarned(v: Value)
    ensures NewName(Fresh(I2c), "clk_speed")
    ensures !WarnsAsWritten(Fresh(I2c), "clk_speed", v)
  {
  }

  /** The builder of `sensor_builder.py`. `warnings` records the names
      warned about: `WithField`, as written, never adds one, and
      `WithFieldWarned` adds each name that was in neither scope. */
  class SensorBuilder {
    var obj: Sensor
    var warnings: seq<string>

    constructor (instance: Sensor)
      ensures obj == instance && warnings == []
    {
      obj := instance;
      warnings := [];
    }

    /** `with_field`: the field is routed as `Routed` says (see
        `RoutedWrites`). The warning test runs after the write, on the
        updated attribute dictionary, so no warning is ever recorded.
        Returns the builder itself, for chaining. */
    method WithField(name: string, value: Value) returns (self: SensorBuilder)
      requires name != "base"
      modifies this
      ensures self == this
      ensures obj == Routed(old(obj), name, value)
      ensures warnings == old(warnings)
    {
      if name !in Attrs(obj.base) {
        obj := obj.(dev := obj.dev[name := value]);
        if name !in obj.dev {
          assert false;
        }
      } else {
        obj := obj.(base := SetAttr(obj.base, name, value));
      }
      self := this;
    }

    /** The intended `with_field`: the same write, with a warning exactly when
        the name was in neither scope before the write. */
    method WithFieldWarned(name: string, value: Value) returns (self: SensorBuilder)
      requires name != "base"
      modifies this
      ensures self == this
      ensures obj == Routed(old(obj), name, value)
      ensures warnings == old(warnings) + if NewName(old(obj), name) then [name] else []
    {
      if name !in Attrs(obj.base) {
        var isNew := name !in obj.dev;
        obj := obj.(dev := obj.dev[name := value]);
        if isNew {
          warnings := warnings + [name];
        }
      } else {
        obj := obj.(base := SetAttr(obj.base, name, value));
      }
      self := this;
    }

    /** `build`: the object being built. */
    method Build() returns (s: Sensor)
      ensures s == obj
    {
      s := obj;
    }
  }
}
