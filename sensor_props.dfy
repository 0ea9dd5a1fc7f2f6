/** The static sensor data of the system: bound constants, the value shapes a
    sensor read can produce, and the four JSON schemas (one base schema shared
    by every external sensor, one per bus kind). */
module SensorProps {
  import opened Values

  // Bounds on device parameters. They are declared only: nothing in the core
  // compares a configuration value against them.
  const MaxBaudRate: int := 921400
  const MinBaudRate: int := 2400
  const MaxCsVal: int := 7
  const MaxI2cAddr: int := 127

  /** A triggered-channel reading. The defaults are those of the Python
      class: not triggered, channel -1, channel value 0.0. */
  datatype ComplexValue = ComplexValue(
    triggered: Value := Bool(false),
    channel: Value := Int(-1),
    chVal: Value := Float(0, 0))

  /** What a driver read returns: one float, a list of samples, a complex
      value, or anything else (which the read loop only reports). */
  datatype Reading =
    | Scalar(x: Value)
    | Samples(items: seq<Value>)
    | Complex(c: ComplexValue)
    | Other(v: Value)

  /** The primitive type names used by the schemas. The schemas write the
      boolean type as "bool"; it is taken to mean JSON boolean here. */
  datatype JsonType = Integer | String | Boolean

  /** An object schema: the required property names, in the order of the
      schema's `required` list,
      and the declared properties with their types (a JSON object, so
      unordered). Every schema of the system also states that the instance is
      an object. */
  datatype Schema = Schema(required: seq<string>, properties: map<string, JsonType>)

  function Required(s: Schema): set<string> {
    set n | n in s.required
  }

  function Declared(s: Schema): set<string> {
    s.properties.Keys
  }

  const BaseSchema: Schema := Schema(
    ["sensor_type", "bus_no", "dev_name", "alias"],
    map[
      "uuid" := Integer,
      "sensor_type" := String,
      "bus_no" := Integer,
      "dev_name" := String,
      "alias" := String,
      "pwr_control" := Boolean])

  const I2cSchema: Schema := Schema(
    ["i2c_addr"],
    map["i2c_addr" := Integer, "clk_speed" := Integer])

  const SpiSchema: Schema := Schema(
    ["cs_no"],
    map[
      "cs_no" := Integer,
      "data_bits" := Integer,
      "spi_mode" := Integer,
      "clk_speed" := Integer,
      "msb_first" := Boolean,
      "cs_toggle" := Boolean,
      "cycles_before" := Integer,
      "cycles_after" := Integer])

  const UartSchema: Schema := Schema(
    ["baud_rate"],
    map["baud_rate" := Integer, "data_bits" := Integer, "parity" := Boolean, "stop_bits" := Integer])

  /** The device schema for each sensor-type string. */
  const DevSchemas: map<string, Schema> :=
    map["i2c" := I2cSchema, "spi" := SpiSchema, "uart" := UartSchema]

  lemma BoundConstants()
    ensures MaxBaudRate == 921400 && MinBaudRate == 2400
    ensures MaxCsVal == 7 && MaxI2cAddr == 127
    ensures MinBaudRate < MaxBaudRate
  {
  }

  lemma ComplexValueDefaults()
    ensures ComplexValue() == ComplexValue(Bool(false), Int(-1), Float(0, 0))
    ensures !Truthy(ComplexValue().triggered) && !Truthy(ComplexValue().chVal)
  {
  }

  /** The base schema requires kind, bus number, device name and alias; the
      identifier and the power-control flag are declared but optional. */
  lemma BaseSchemaShape()
    ensures Required(BaseSchema) == {"sensor_type", "bus_no", "dev_name", "alias"}
    ensures Declared(BaseSchema) == Required(BaseSchema) + {"uuid", "pwr_control"}
    ensures "uuid" !in Required(BaseSchema) && "pwr_control" !in Required(BaseSchema)
  {
  }

  /** The declared property names of each schema. */
  lemma DeclaredSets()
    ensures Declared(BaseSchema) == {"uuid", "sensor_type", "bus_no", "dev_name", "alias", "pwr_control"}
    ensures Declared(I2cSchema) == {"i2c_addr", "clk_speed"}
    ensures Declared(SpiSchema) ==
      {"cs_no", "data_bits", "spi_mode", "clk_speed", "msb_first", "cs_toggle", "cycles_before", "cycles_after"}
    ensures Declared(UartSchema) == {"baud_rate", "data_bits", "parity", "stop_bits"}
  {
  }

  /** Each device schema requires exactly one identifying field, which it
      declares as an integer. */
  lemma DeviceSchemasRequireOneField()
    ensures I2cSchema.required == ["i2c_addr"] && I2cSchema.properties["i2c_addr"] == Integer
    ensures SpiSchema.required == ["cs_no"] && SpiSchema.properties["cs_no"] == Integer
    ensures UartSchema.required == ["baud_rate"] && UartSchema.properties["baud_rate"] == Integer
  {
  }

  lemma DevSchemasTable()
    ensures DevSchemas.Keys == {"i2c", "spi", "uart"}
    ensures DevSchemas["i2c"] == I2cSchema && DevSchemas["spi"] == SpiSchema
    ensures DevSchemas["uart"] == UartSchema
  {
  }

  /** The clock speed is an I2C and SPI setting, the data width an SPI and
      UART setting. */
  lemma SharedDeviceSettings()
    ensures "clk_speed" in Declared(I2cSchema) && "clk_speed" in Declared(SpiSchema)
    ensures "clk_speed" !in Declared(UartSchema)
    ensures "data_bits" in Declared(SpiSchema) && "data_bits" in Declared(UartSchema)
    ensures "data_bits" !in Declared(I2cSchema)
  {
  }

  /** "clock_speed" (a misspelling of "clk_speed") is declared by no schema. */
  lemma ClockSpeedUndeclared()
    ensures "clock_speed" !in Declared(BaseSchema)
    ensures forall name :: name in DevSchemas ==> "clock_speed" !in Declared(DevSchemas[name])
  {
  }
}
