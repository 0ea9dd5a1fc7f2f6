/** The three bus-specific sensor classes and the table that selects one by
    the configuration's sensor-type string. A constructed device object holds
    its own attributes and an external base built for its kind; I2C and SPI
    devices configure the hardware once while being constructed. */
module SensorDevices {
  import opened Values
  import opened SensorBase
  import opened Drivers
  import SensorProps

  /** The device classes `I2cSensor`, `SpiSensor` and `UartSensor`. */
  datatype Kind = I2c | Spi | Uart

  function KindName(k: Kind): string {
    match k
    case I2c => "i2c"
    case Spi => "spi"
    case Uart => "uart"
  }

  /** `sensor_type_map`: sensor-type string to device class. */
  const SensorTypeMap: map<string, Kind> := map["i2c" := I2c, "spi" := Spi, "uart" := Uart]

  /** The table has exactly the three kind names, maps each to its own
      class, and has the same keys as the device-schema table. */
  lemma SensorTypeMapTable()
    ensures SensorTypeMap.Keys == {"i2c", "spi", "uart"} == SensorProps.DevSchemas.Keys
    ensures forall k :: KindName(k) in SensorTypeMap && SensorTypeMap[KindName(k)] == k
    ensures forall n :: n in SensorTypeMap ==> KindName(SensorTypeMap[n]) == n
  {
    forall n | n in SensorTypeMap ensures KindName(SensorTypeMap[n]) == n {
      assert n == "i2c" || n == "spi" || n == "uart";
    }
  }

  /** `sensor_type_map[name]`: the class of a kind name, `None` where the
      lookup raises. */
  function LookupKind(name: string): (r: Option<Kind>)
    ensures r.Some? <==> name in SensorTypeMap
    ensures forall k :: r == Some(k) <==> KindName(k) == name
  {
    SensorTypeMapTable();
    if name in SensorTypeMap then Some(SensorTypeMap[name]) else None
  }

  /** A device object: its class, its base object, and its own attributes
      (its `__dict__` apart from the reference to the base). */
  datatype Sensor = Sensor(cls: Kind, base: ExternalBase, dev: map<string, Value>)

  /** The device attributes a constructor sets before building the base. */
  function InitialDev(k: Kind): map<string, Value> {
    match k
    case I2c => map["type_name" := Str("i2c"), "i2c_addr" := Null]
    case Spi => map["type_name" := Str("spi"), "cs_no" := Null]
    case Uart => map["type_name" := Str("uart"), "bus_no" := Null, "baud_rate" := Null]
  }

  /** The configuration entry point a class hands to its base; the UART class
      hands none. */
  function ConfigOf(k: Kind): Value {
    match k
    case I2c => Fn(ConfigureI2c)
    case Spi => Fn(ConfigureSpi)
    case Uart => Null
  }

  function ReadOf(k: Kind): Value {
    match k
    case I2c => Fn(GetI2cVal)
    case Spi => Fn(GetSpiVal)
    case Uart => Fn(GetUartVal)
  }

  /** The shape every device object of the registry keeps: the base and the
      device agree on the kind, the driver entry points and the bus-property
      name are those of the kind, there is no base uuid, and the device still
      has all the attributes its constructor set. */
  predicate WellFormed(s: Sensor) {
    && s.base.typeName == Str(KindName(s.cls))
    && s.base.config == ConfigOf(s.cls)
    && s.base.read == ReadOf(s.cls)
    && KindName(s.cls) in BusProperty1 && s.base.busProp1 == BusProperty1[KindName(s.cls)]
    && s.base.uuid.None?
    && InitialDev(s.cls).Keys <= s.dev.Keys
    && s.dev["type_name"] == Str(KindName(s.cls))
    && "base" !in s.dev
  }

  /** The object a constructor yields when given `ExternalSensorBase`: base
      built with only the kind, config and read, so bus number and names are
      still unset; device fields all `None`. */
  function Fresh(k: Kind): (s: Sensor)
    ensures WellFormed(s) && s.cls == k
    ensures s.base.busNo == Null && s.base.devName == Str("none") && s.base.alias == Str("none")
    ensures Attrs(s.base) == BaseAttrNames
    ensures s.dev.Keys == InitialDev(k).Keys
    ensures forall n :: n in s.dev && n != "type_name" ==> s.dev[n] == Null
  {
    var b := NewExternalBase(Str(KindName(k)), config := ConfigOf(k), read := ReadOf(k));
    Sensor(k, b.value, InitialDev(k))
  }

  /** The configuration calls a constructor makes: one call with the
      (still unset) bus number and selector for I2C and SPI, none for UART. */
  function ConfigCalls(k: Kind): seq<ConfigCall> {
    match k
    case I2c => [ConfigCall(ConfigureI2c, Null, Null)]
    case Spi => [ConfigCall(ConfigureSpi, Null, Null)]
    case Uart => []
  }

  /** The base class handed to a device constructor. */
  datatype BaseClass = ExternalClass | InternalClass

  /** `sensor_type_map[kind](base_type=baseType)`. Only the external base
      works: a missing base class is not callable, the internal base takes no
      `config` argument (I2C, SPI) or has no `config` attribute (UART). */
  method NewDevice(k: Kind, baseType: Option<BaseClass>, driver: Driver) returns (r: Result<Sensor>)
    modifies driver
    ensures baseType == Some(ExternalClass) ==> r == Ok(Fresh(k))
    ensures baseType == Some(ExternalClass) ==> driver.configured == old(driver.configured) + ConfigCalls(k)
    ensures baseType != Some(ExternalClass) ==> r.Err? && driver.configured == old(driver.configured)
  {
    var dev := InitialDev(k);
    if baseType.None? {
      return Err(TypeError("'NoneType' object is not callable"));
    }
    if baseType == Some(InternalClass) {
      if k == Uart {
        return Err(AttributeError("config"));
      }
      return Err(TypeError("unexpected keyword argument 'config'"));
    }
    assert baseType.Some?;
    assert baseType.value != InternalClass;
    assert baseType.value == ExternalClass;
    var made := NewExternalBase(Str(KindName(k)), config := ConfigOf(k), read := ReadOf(k));
    var base := made.value;
    if base.config.Fn? {
      var selector := if k == I2c then "i2c_addr" else "cs_no";
      driver.Configure(base.config.f, base.busNo, dev[selector]);
    }
    r := Ok(Sensor(k, base, dev));
  }
}
