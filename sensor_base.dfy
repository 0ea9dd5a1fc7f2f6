/** The base attribute records: `ExternalBase` for sensors attached to a bus
    (the only base the registry builds) and `InternalBase` for MCU/SoC-internal
    peripherals. Both are built once by a constructor function and carry no
    behaviour of their own. */
module SensorBase {
  import opened Values

  /** The class-level table naming each bus kind's first bus property. */
  const BusProperty1: map<string, Value> :=
    map["i2c" := Str("bus-address"), "spi" := Str("ChipSelect-number"), "uart" := Str("baud_rate")]

  /** The attributes every constructed external base has. */
  const BaseAttrNames: set<string> :=
    {"config", "read", "type_name", "bus_no", "dev_name", "alias", "bus_prop1"}

  /** An external sensor's base attributes. `uuid` is `None` when the
      attribute does not exist at all; nothing in the core ever creates it. */
  datatype ExternalBase = ExternalBase(
    config: Value,
    read: Value,
    typeName: Value,
    busNo: Value,
    devName: Value,
    alias: Value,
    busProp1: Value,
    uuid: Option<Value>)

  /** The attribute names of a base object (its `__dict__` keys). */
  function Attrs(b: ExternalBase): set<string> {
    BaseAttrNames + (if b.uuid.Some? then {"uuid"} else {})
  }

  /** Attribute lookup by name; `None` for a name the object does not have. */
  function GetAttr(b: ExternalBase, name: string): (r: Option<Value>)
    ensures r.Some? <==> name in Attrs(b)
  {
    match name
    case "config" => Some(b.config)
    case "read" => Some(b.read)
    case "type_name" => Some(b.typeName)
    case "bus_no" => Some(b.busNo)
    case "dev_name" => Some(b.devName)
    case "alias" => Some(b.alias)
    case "bus_prop1" => Some(b.busProp1)
    case "uuid" => b.uuid
    case _ => None
  }

  /** Overwrite one existing attribute. */
  function SetAttr(b: ExternalBase, name: string, v: Value): (r: ExternalBase)
    requires name in Attrs(b)
    ensures Attrs(r) == Attrs(b)
    ensures GetAttr(r, name) == Some(v)
    ensures forall n :: n != name ==> GetAttr(r, n) == GetAttr(b, n)
  {
    match name
    case "config" => b.(config := v)
    case "read" => b.(read := v)
    case "type_name" => b.(typeName := v)
    case "bus_no" => b.(busNo := v)
    case "dev_name" => b.(devName := v)
    case "alias" => b.(alias := v)
    case "bus_prop1" => b.(busProp1 := v)
    case _ => b.(uuid := Some(v))
  }

  /** Two bases with the same attributes are the same base. */
  lemma AttrsDetermine(b1: ExternalBase, b2: ExternalBase)
    requires forall n :: GetAttr(b1, n) == GetAttr(b2, n)
    ensures b1 == b2
  {
    assert GetAttr(b1, "config") == GetAttr(b2, "config");
    assert GetAttr(b1, "read") == GetAttr(b2, "read");
    assert GetAttr(b1, "type_name") == GetAttr(b2, "type_name");
    assert GetAttr(b1, "bus_no") == GetAttr(b2, "bus_no");
    assert GetAttr(b1, "dev_name") == GetAttr(b2, "dev_name");
    assert GetAttr(b1, "alias") == GetAttr(b2, "alias");
    assert GetAttr(b1, "bus_prop1") == GetAttr(b2, "bus_prop1");
    assert GetAttr(b1, "uuid") == GetAttr(b2, "uuid");
  }

  function Pick(f: map<string, Value>, name: string, default: Value): Value {
    if name in f then f[name] else default
  }

  /** Overwrite, all at once, every existing attribute that `f` names. */
  function Overlay(b: ExternalBase, f: map<string, Value>): (r: ExternalBase)
    ensures Attrs(r) == Attrs(b)
    ensures forall n :: GetAttr(r, n) == if n in Attrs(b) && n in f then Some(f[n]) else GetAttr(b, n)
  {
    ExternalBase(
      Pick(f, "config", b.config),
      Pick(f, "read", b.read),
      Pick(f, "type_name", b.typeName),
      Pick(f, "bus_no", b.busNo),
      Pick(f, "dev_name", b.devName),
      Pick(f, "alias", b.alias),
      Pick(f, "bus_prop1", b.busProp1),
      if b.uuid.Some? && "uuid" in f then Some(f["uuid"]) else b.uuid)
  }

  /** Overlaying one more field is overwriting that attribute, or nothing when
      the base lacks it. */
  lemma OverlayStep(b: ExternalBase, f: map<string, Value>, k: string, v: Value)
    requires k !in f
    ensures k in Attrs(b) ==> Overlay(b, f[k := v]) == SetAttr(Overlay(b, f), k, v)
    ensures k !in Attrs(b) ==> Overlay(b, f[k := v]) == Overlay(b, f)
  {
    if k in Attrs(b) {
      AttrsDetermine(Overlay(b, f[k := v]), SetAttr(Overlay(b, f), k, v));
    } else {
      AttrsDetermine(Overlay(b, f[k := v]), Overlay(b, f));
    }
  }

  /** The name defaulting of both constructors: a falsy name becomes "none". */
  function OrNone(v: Value): (r: Value)
    ensures Truthy(r)
    ensures Truthy(v) ==> r == v
    ensures !Truthy(v) ==> r == Str("none")
  {
    if Truthy(v) then v else Str("none")
  }

  /** The `bus_property1[type_name]` lookup. */
  function LookupBusProperty(typeName: Value): (r: Result<Value>)
    ensures r.Ok? <==> typeName in {Str("i2c"), Str("spi"), Str("uart")}
    ensures r.Err? ==> r.error == if Hashable(typeName) then KeyError(typeName) else TypeError("unhashable type")
  {
    if !Hashable(typeName) then Err(TypeError("unhashable type"))
    else if typeName.Str? && typeName.s in BusProperty1 then Ok(BusProperty1[typeName.s])
    else Err(KeyError(typeName))
  }

  /** `ExternalSensorBase(...)`: stores config, read, kind and bus number as
      given, defaults falsy names to "none", and looks up the kind's bus
      property, which fails for anything but the three kind strings (the
      default `None` included). The new object has exactly the seven base
      attributes: no uuid and no power-control flag. */
  function NewExternalBase(
    typeName: Value := Null, busNo: Value := Null, devName: Value := Null,
    alias: Value := Null, config: Value := Null, read: Value := Null): (r: Result<ExternalBase>)
    ensures r.Ok? <==> typeName in {Str("i2c"), Str("spi"), Str("uart")}
    ensures r.Err? ==> r.error == if Hashable(typeName) then KeyError(typeName) else TypeError("unhashable type")
    ensures r.Ok? ==> Attrs(r.value) == BaseAttrNames
    ensures r.Ok? ==> && r.value.config == config && r.value.read == read
                      && r.value.typeName == typeName && r.value.busNo == busNo
    ensures r.Ok? ==> r.value.devName == OrNone(devName) && r.value.alias == OrNone(alias)
    ensures r.Ok? ==> r.value.busProp1 == BusProperty1[typeName.s]
  {
    var prop1 :- LookupBusProperty(typeName);
    Ok(ExternalBase(config, read, typeName, busNo, OrNone(devName), OrNone(alias), prop1, None))
  }

  /** An internal peripheral's base attributes. */
  datatype InternalBase = InternalBase(
    read: Value,
    typeName: Value,
    devNo: Value,
    devAddr: Value,
    devName: Value,
    alias: Value,
    useIrq: Value)

  /** `InternalSensorBase(...)`: everything stored as given except the names,
      which default to "none" when falsy; `use_irq` defaults to False. */
  function NewInternalBase(
    typeName: Value := Null, devNo: Value := Null, devAddr: Value := Null,
    devName: Value := Null, useIrq: Value := Bool(false), alias: Value := Null,
    read: Value := Null): (b: InternalBase)
    ensures b.devName == OrNone(devName) && b.alias == OrNone(alias)
    ensures b.read == read && b.typeName == typeName && b.devNo == devNo
    ensures b.devAddr == devAddr && b.useIrq == useIrq
  {
    InternalBase(read, typeName, devNo, devAddr, OrNone(devName), OrNone(alias), useIrq)
  }

  lemma InternalDefaults()
    ensures NewInternalBase() == InternalBase(Null, Null, Null, Null, Str("none"), Str("none"), Bool(false))
  {
  }

  /** Built with every argument defaulted, an external base fails: `None` is
      not a key of the bus-property table. */
  lemma ExternalDefaultsFail()
    ensures NewExternalBase() == Err(KeyError(Null))
  {
  }
}
