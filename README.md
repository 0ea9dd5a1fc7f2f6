# py_sensors: the sensor registry and its validated add pipeline

This project models the core of `py_sensors`, a registry of hardware sensors on
I2C, SPI and UART buses. A `Sensors` object holds a list of device objects, and
that list grows only through `add_sensor`, which runs these stages in order:

1. It checks the parsed JSON configuration against the base schema.
2. It looks up the device class of the configured `sensor_type`.
3. It checks the configuration against that kind's device schema.
4. It rejects any key that neither schema declares.
5. It builds the device object through a `SensorBuilder`. Each field goes to the
   base object if the base already has an attribute of that name, and to the
   device object otherwise.
6. It runs the kind's conflict rule against the sensors already registered.
7. It appends the new object.

Around the pipeline sit:

- the kind filters;
- the reads;
- the lookups by alias and by uuid;
- the schemas and bound constants of `sensor_props.py`;
- the JSON validator;
- the base classes;
- the three device classes with their type table.

The modules follow the source files:

- `Values`: Python values, `Option`, `Result` and the exceptions.
- `SensorProps` (`sensor_props.py`).
- `JsonUtils` (`json_utils.py`).
- `SensorBase` (`sensor_base.py`).
- `Drivers`: the hardware driver the device classes call.
- `SensorDevices` (`sensor_devices.py`).
- `Builders` (`sensor_builder.py`).
- `PySensors` (`py_sensors.py`).

The builder and the registry update state in place, so they are classes:

- `SensorBuilder` has the fields `obj` and `warnings`.
- `Sensors` has the field `sensors`.
- `Driver` has the field `configured`, the log of configuration calls.

The methods that loop in the source are methods with loops here:

- the filters;
- the conflict rules;
- the builder loop of `build_sensor`;
- the reads;
- the lookups.

Most of these methods are proved against a specification function:

- `GetSensorsOfKind` against `FilterKind`;
- the validators against `Conflicts`;
- the builder loop against `Applied`;
- `AddSensor` against `Admission`;
- the two uuid lookups against `BaseUuidLookup` and `DevUuidLookup`.

The lemmas about those functions state the properties the system promises.

The reads and the alias lookup have no such function. Their postconditions
are quantified statements about positions in the registry:

- `ReadSensors` gives the reading of each sensor, or the error of the first
  sensor whose read raises (`FirstReadError`).
- `GetSensorData` gives the pair of each sensor up to the first read that is
  not callable.
- `GetSensorByAlias` gives the first sensor in registration order with the
  alias (`FirstWithAlias`).

`with_field` is meant to warn about a name that is in neither scope. The
test, however, reads the device object's attribute dictionary after the field
has been written into it, so the warning never prints (see Findings).
`WithField` models the code as written, and it is the one the build loop
calls. `WithFieldWarned` is the intended version. Both write the same object;
they differ only in the warning log.

The registry invariant is `PySensors.Registered`:

- every record is well formed;
- no record clashes with a same-kind record registered before it.

`AddSensor` keeps this invariant. `RegisteredPairwise` turns it into the
per-kind uniqueness of I2C addresses, SPI bus and chip-select pairs, and UART
ports.

`add_sensor` returns `AddOutcome`:

- `Added(record)` stands for `True`;
- `Rejected(stage)` stands for `False` and also names the stage that turned the
  configuration down;
- `Raised(error)` is an exception that escapes the call. The source lets the
  `KeyError` for an unsupported `sensor_type` escape (`py_sensors.py:110`,
  outside the `try`).

`py_sensors.py` imports `check_for_unknown_properties` from `json_utils.py` and
calls it with the configuration text, but `json_utils.py` does not define it.
Its body is therefore not part of this model. What the call site relies on is
modelled as `HasUnknownProperty`: a key of the parsed configuration is unknown
exactly when none of the given schemas declares it, that is, when it lies
outside the union of their declared names.

## Model

| member | source | states |
|---|---|---|
| SensorProps.BoundConstants | sensor_properties/sensor_props.py:4-7 | the baud-rate, chip-select and I2C-address bounds have their values, and the minimum baud rate is below the maximum |
| SensorProps.ComplexValueDefaults | sensor_properties/sensor_props.py:12-16 | a default complex value is not triggered, has channel -1 and a zero (falsy) channel value |
| SensorProps.BaseSchemaShape | sensor_properties/sensor_props.py:25-36 | the base schema requires the kind, bus number, device name and alias, and declares the uuid and power-control flag as optional |
| SensorProps.DeclaredSets | sensor_properties/sensor_props.py:25-72 | the exact property names each of the four schemas declares |
| SensorProps.DeviceSchemasRequireOneField | sensor_properties/sensor_props.py:39-72 | each device schema requires exactly one identifying field (address, chip select, baud rate), typed integer |
| SensorProps.DevSchemasTable | sensor_properties/sensor_props.py:78-82 | the device-schema table maps exactly "i2c", "spi" and "uart" to their schemas |
| SensorProps.SharedDeviceSettings | sensor_properties/sensor_props.py:39-72 | clock speed is an I2C and SPI setting but not UART, and data width is SPI and UART but not I2C |
| SensorProps.ClockSpeedUndeclared | sensor_properties/sensor_props.py:25-72 | the misspelling "clock_speed" is declared by no schema |
| JsonUtils.Violations | sensor_utils/json_utils.py:22-34 | a non-object yields only the object error; otherwise there is one required-error per missing required key and one type-error per present declared key of the wrong type; there are no errors exactly when the value conforms |
| JsonUtils.JsonValidator.Check | sensor_utils/json_utils.py:17-46 | true exactly when the input conforms to the schema, so a missing input and any reported error give false; the formal re-check and debug flag never change the verdict |
| JsonUtils.ExtraKeysIgnored | sensor_utils/json_utils.py:22-34 | adding a key the schema does not declare never makes a passing check fail |
| JsonUtils.DeclaredUnion | py_sensors.py:123 | a name is in the union exactly when some schema of the list declares it |
| JsonUtils.HasUnknownProperty | py_sensors.py:123 | true exactly when some key of the configuration is declared by none of the schemas |
| JsonUtils.UnknownOfPair | py_sensors.py:123 | for the base and device schema, the scan reports exactly the keys outside both declared sets |
| SensorBase.GetAttr | sensor_types/sensor_base.py:12-26 | a base has an attribute exactly for the seven names its constructor sets, plus uuid when present |
| SensorBase.SetAttr | sensor_utils/sensor_builder.py:19-20 | overwriting an existing base attribute sets that one, keeps the others, and keeps the attribute names |
| SensorBase.Overlay | py_sensors.py:80-87 | writing a batch of fields into a base overwrites exactly the existing attributes the batch names |
| SensorBase.OverlayStep | py_sensors.py:80-87 | one more field in the batch is one more single overwrite, or nothing when the base lacks that name |
| SensorBase.OrNone | sensor_types/sensor_base.py:16-24 | a truthy name is kept, a falsy name becomes "none", and the result is always truthy |
| SensorBase.LookupBusProperty | sensor_types/sensor_base.py:26 | the bus-property lookup succeeds exactly for the three kind strings; otherwise KeyError, or TypeError for an unhashable key |
| SensorBase.NewExternalBase | sensor_types/sensor_base.py:10-26 | construction succeeds exactly for the three kinds; the base has exactly the seven attributes, stores config, read, kind and bus number as given, stores each name as given when truthy and as "none" when falsy, and takes the kind's bus property |
| SensorBase.ExternalDefaultsFail | sensor_types/sensor_base.py:10-26 | an external base built with every argument defaulted raises KeyError(None) |
| SensorBase.NewInternalBase | sensor_types/sensor_base.py:46-62 | an internal base stores its arguments as given, except that each name is kept when truthy and becomes "none" when falsy |
| SensorBase.InternalDefaults | sensor_types/sensor_base.py:46-62 | all defaults give None fields, "none" names and use_irq False |
| Drivers.Driver.Configure | sensor_types/sensor_devices.py:34-37 | one configuration call with the bus number and selector is appended to the driver's log |
| SensorDevices.SensorTypeMapTable | sensor_types/sensor_devices.py:73 | the type table maps exactly the three kind names, each to its own class, with the same keys as the device-schema table |
| SensorDevices.LookupKind | py_sensors.py:110 | the lookup finds a class exactly for a name in the table, and that class is the one named |
| SensorDevices.Fresh | sensor_types/sensor_devices.py:24-70 | a device constructed on the external base is well formed, with bus number None, names "none", the seven base attributes, and its own attributes all None except type_name |
| SensorDevices.NewDevice | sensor_types/sensor_devices.py:24-70 | on the external base: the fresh device, with one config call for I2C and SPI and none for UART; on a missing or internal base class: an exception and no config call |
| Builders.RoutedWrites | sensor_utils/sensor_builder.py:10-22 | a name the base has is written to the base and the device object is untouched; any other name is written to the device object and the base is untouched |
| Builders.RoutedKeepsScopes | sensor_utils/sensor_builder.py:10-22 | a write never changes the class or the base's attribute names, and never removes a device attribute |
| Builders.RoutedLastWriteWins | sensor_utils/sensor_builder.py:10-22 | writing a name twice is the same as writing only the second value |
| Builders.RoutedCommutes | sensor_utils/sensor_builder.py:10-22 | writes to two different names give the same object in either order |
| Builders.UartBusNoGoesToBase | sensor_utils/sensor_builder.py:14-20 | a UART bus number lands on the base, and the device's own bus_no stays None |
| Builders.AppliedWrites | py_sensors.py:80-87 | writing a batch in any order writes base names to the base and all other names to the device object, and changes nothing else |
| Builders.AppliedStep | py_sensors.py:80-87 | one more write after a batch equals the enlarged batch, whatever the order |
| Builders.SensorBuilder.constructor | sensor_utils/sensor_builder.py:7-8 | the builder holds the given object and has no warnings |
| Builders.AsWrittenNeverWarns | sensor_utils/sensor_builder.py:12-18 | the warning test as written, run on the device dictionary after the write, never fires, for any object, name or value |
| Builders.ClkSpeedNotWarned | sensor_utils/sensor_builder.py:14-18 | clk_speed is in neither scope of a fresh I2C device, yet the test as written does not warn about it |
| Builders.SensorBuilder.WithField | sensor_utils/sensor_builder.py:10-22 | the object becomes the routed write; the warning log is unchanged, because the test runs after the write; the builder itself is returned |
| Builders.SensorBuilder.WithFieldWarned | sensor_utils/sensor_builder.py:10-22 | the same write, with a warning recorded exactly when the name was in neither scope before the write; the builder itself is returned |
| Builders.SensorBuilder.Build | sensor_utils/sensor_builder.py:24-25 | returns the object being built |
| PySensors.FilterKind | py_sensors.py:192-211 | the result holds exactly the registered sensors whose base kind name matches, and is no longer than the registry |
| PySensors.FilterKindAppend | py_sensors.py:192-211 | the filter of a concatenation is the concatenation of the filters, so registration order is kept |
| PySensors.FilterKindExtremes | py_sensors.py:192-211 | a list all of one kind filters to itself, and a list with none of that kind filters to nothing |
| PySensors.ConflictsViaFilter | py_sensors.py:41-65 | a conflict is exactly a clash with some sensor of the filtered same-kind list |
| PySensors.RegisteredPairwise | py_sensors.py:131-136 | in a registry, no two I2C sensors share an address, no two SPI sensors share bus and chip select, and no two UART sensors share a port |
| PySensors.AppendKeepsRegistered | py_sensors.py:131-133 | appending a well-formed record that clashes with nothing keeps the registry invariant |
| PySensors.DevSchemaOfTable | sensor_properties/sensor_props.py:78-82 | the device schema of a kind is the one the table holds under the kind's name |
| PySensors.Screen | py_sensors.py:101-125 | a configuration passes exactly when it is admissible: both schemas conform, the named kind exists, and no key is outside both schemas |
| PySensors.ScreenBase | py_sensors.py:101-106 | a base-schema failure stops the pipeline at the first stage |
| PySensors.ScreenTypeName | py_sensors.py:108-110 | past the base schema, the configuration is a dictionary with a string sensor_type, and an unknown kind stops the pipeline |
| PySensors.ScreenKind | py_sensors.py:112-125 | for a known kind, the device schema decides, then the unknown-field scan |
| PySensors.PipelineNames | sensor_properties/sensor_props.py:25-72 | no schema declares config, read, bus_prop1, type_name or base, so a configuration cannot overwrite them |
| PySensors.AdmissibleShape | py_sensors.py:101-125 | an admitted configuration has bus number, names and its kind's identifying field, and of the base attributes it names only bus number and the two names |
| PySensors.AppliedToFresh | py_sensors.py:75-89 | writing fields into a fresh device keeps it well formed and of its kind: bus number and names are written or defaulted, other fields land on the device object, and nothing else appears |
| PySensors.CandidateReflectsConfig | py_sensors.py:127-129 | the record built from an admitted configuration has the configured bus number, names and identifying field, and every other configured key except sensor_type as a device attribute; a UART device's bus_no stays None |
| PySensors.CandidateWellFormed | py_sensors.py:127-131 | the built record is well formed, of its kind, and has the attribute its kind's rule compares |
| PySensors.AdmissionStages | py_sensors.py:93-142 | base-schema rejection happens exactly when the base schema fails; an admissible configuration is added exactly when it conflicts with nothing; an unknown kind raises KeyError of the kind |
| PySensors.AdmissionOfAdmissible | py_sensors.py:127-142 | for an admissible configuration only the conflict rule decides between added and rejected |
| PySensors.AdmittedKeepsRegistered | py_sensors.py:127-136 | appending the record of an added configuration keeps the registry invariant |
| PySensors.RegisteredReadable | py_sensors.py:159-160 | every registered sensor's read is its kind's driver entry point |
| PySensors.RegisteredReadErrors | py_sensors.py:159-168 | in a registry a read raises only for a list reading with an item that `%d` cannot format |
| PySensors.BaseUuidLookup | py_sensors.py:242-245 | the lookup as written returns a registered sensor when it finds one |
| PySensors.UuidLookupRaises | py_sensors.py:243 | the lookup as written raises AttributeError on every non-empty registry, whatever the uuid |
| PySensors.DevUuidLookup | py_sensors.py:230-246 | the corrected lookup finds a registered sensor whose device uuid is the argument, or none exactly when no sensor has it |
| PySensors.DevUuidLookupFirst | py_sensors.py:241-245 | the sensor the corrected lookup finds is the first in registration order whose device uuid is the argument |
| PySensors.CandidateUuid | sensor_utils/sensor_builder.py:14-16 | a configured uuid becomes a device attribute of the record with the configured value |
| PySensors.UuidLandsOnDevice | py_sensors.py:243 | after adding a configuration with a uuid, the corrected lookup finds a sensor with it while the lookup as written raises |
| PySensors.I2cSpecConforms | tests/test_py_sensors.py:29-35 | the test's I2C configuration conforms to the base and I2C schemas |
| PySensors.I2cSpecDeclared | tests/test_py_sensors.py:29-35 | every key of the test's I2C configuration is declared by one of the two schemas |
| PySensors.I2cSpecAdmitted | tests/test_py_sensors.py:29-35 | the I2C configuration is admissible and is added to an empty registry |
| PySensors.I2cSameAddressRejected | tests/test_py_sensors.py:82-93 | after an I2C sensor is added, a second I2C configuration with the same address is rejected by the conflict rule, whatever its bus |
| PySensors.SpiSameSelectRejected | py_sensors.py:50-57 | after an SPI sensor is added, a second one with the same bus and chip select is rejected |
| PySensors.UartSamePortRejected | py_sensors.py:59-65 | after a UART sensor is added, a second one on the same port is rejected, whatever the baud rate |
| PySensors.OtherKindsIgnored | py_sensors.py:41-65 | a registered sensor of another kind never changes whether a candidate conflicts |
| PySensors.MissingBaseFieldRejected | tests/test_py_sensors.py:95-102 | the configuration without dev_name is rejected by the base-schema stage on any registry |
| PySensors.NoAddrSpecConforms | tests/test_py_sensors.py:104-111 | the configuration without i2c_addr passes the base schema and fails the I2C schema |
| PySensors.MissingDeviceFieldRejected | tests/test_py_sensors.py:104-111 | the configuration without i2c_addr is rejected by the device-schema stage on any registry |
| PySensors.MisspeltSpecConforms | py_sensors.py:313 | the configuration with "clock_speed" passes both schemas |
| PySensors.MisspeltFieldRejected | py_sensors.py:313 | the configuration with "clock_speed" is rejected by the unknown-field stage on any registry |
| PySensors.Sensors.constructor | py_sensors.py:38-39 | the registry holds the given list, which satisfies the registry invariant |
| PySensors.Sensors.GetSensorsOfKind | py_sensors.py:192-211 | the loop returns the kind filter of the registry |
| PySensors.Sensors.NoClash | py_sensors.py:41-65 | the validator returns true exactly when the candidate conflicts with no registered sensor of the kind |
| PySensors.Sensors.ClashFree | py_sensors.py:41-65 | the loop the three validators share returns false exactly when some sensor of the same-kind list clashes with the candidate under the kind's rule |
| PySensors.Sensors.I2cValidate | py_sensors.py:41-48 | false exactly when a registered I2C sensor has the candidate's address, on any bus |
| PySensors.Sensors.SpiValidate | py_sensors.py:50-57 | false exactly when a registered SPI sensor has the candidate's bus number and chip select |
| PySensors.Sensors.UartValidate | py_sensors.py:59-65 | false exactly when a registered UART sensor has the candidate's bus number |
| PySensors.Sensors.Validate | py_sensors.py:131-132 | the validator selected by the record's kind name accepts exactly when the record conflicts with nothing of its kind |
| PySensors.Sensors.BuildSensor | py_sensors.py:67-91 | None when an argument is missing; an exception on a non-external base class, a non-dictionary, or a dictionary with nothing but sensor_type; otherwise the fresh device with every key but sensor_type written, after the constructor's config calls |
| PySensors.Sensors.WriteNext | py_sensors.py:83-87 | the first write goes through the builder and each later one through the builder the previous write returned, which is the same builder; each is the routed write |
| PySensors.Sensors.WriteFields | py_sensors.py:80-87 | the loop writes every key but sensor_type through the builder, and the builder variable stays unbound exactly when there is no such key |
| PySensors.Sensors.AddSensor | py_sensors.py:93-142 | the outcome is the admission of the configuration; only an added record is appended, at the end; the registry invariant is kept; the config calls happen for every configuration that reaches the build |
| PySensors.Sensors.BuildAndAppend | py_sensors.py:127-140 | for an admissible configuration, the record is built, checked by its kind's rule, and appended exactly when the rule accepts |
| PySensors.Sensors.ReadSensors | py_sensors.py:155-183 | one reading per registered sensor, in registration order, from its own entry point, exactly when no read raises; otherwise the error of the first sensor whose read raises: TypeError for a non-callable read, or for a list reading with an item that `%d` cannot format |
| PySensors.Sensors.GetSensorData | py_sensors.py:185-190 | (alias, reading) pairs in registration order, up to the first sensor whose read raises |
| PySensors.Sensors.GetSensorByAlias | py_sensors.py:213-228 | the first sensor in registration order whose alias matches; None for a miss or a None argument |
| PySensors.Sensors.GetSensorByUuid | py_sensors.py:230-246 | the loop computes the lookup as written: None for a None argument, else the base-uuid scan, which raises at the first base without a uuid |
| PySensors.Sensors.FindSensorByUuid | py_sensors.py:230-246 | the corrected loop returns the device-uuid lookup: the first sensor in registration order whose device uuid is the argument, None when no sensor has it, and None for a None argument |

## Left out

- JSON text parsing. `add_sensor` takes the parsed value, so the exception `json.loads` raises on malformed text is not modelled.
- Printing and the diagnostic messages. This covers `list_sensors`, `get_info`, the text of every message, and the `%d` formatting in the validator messages, which could itself raise for a non-integer. The one formatting that is modelled is the `%d` of each item of a list reading, because `read_sensors` raises through it.
- `sensor_utils/db_utils.py`, the persistence collaborator. It is not part of this model.
- What the drivers do. Bus transactions and reading values are outside the model. The reads are a parameter `sample`, which stands for each entry point's answer. A configuration entry point that raises is not modelled.
- Floating-point values. A float is kept as a literal and never computed with.
- The schemas' type name "bool". JSON Schema draft 4 has no such type, and the library would raise on it. It is taken as boolean.
- `JsonUtils.JsonValidator.Check`: a validator constructed without a schema is not modelled. Its `check` would fail with an attribute error.
- Python equality across types (`1 == True`, `1 == 1.0`). Values of different constructors are never equal here.
- Object identity and aliasing. Records are values, so a change to a sensor after registration, made through another reference, is not modelled.
- `Builders.SensorBuilder.WithField` requires the name to differ from `base`. Writing `base` would replace the device object's reference to its base. No schema declares `base`, so the unknown-field scan rejects it before the build.
- `PySensors.Sensors.constructor` requires the initial list to satisfy the registry invariant. The source accepts any list, and shares one mutable default list across instances; that sharing is not modelled.
- `PySensors.Sensors.I2cValidate` and `PySensors.Sensors.SpiValidate` require the candidate to have the attribute they compare. The source would raise `AttributeError` otherwise, which cannot happen for a record built by `add_sensor`.
- `PySensors.Sensors.NoClash` and the three validators require the registry invariant.
- `PySensors.Sensors.ClashFree` requires the candidate and every sensor of the list to have the attribute the kind compares. In a registry this holds, as `RegisteredFilterFields` shows; otherwise the source would raise `AttributeError`.
- The bound constants. Nothing in the source compares a configuration value against them.
- `PySensors.Sensors.GetSensorData`: the generator's laziness is not modelled. The model produces the pairs up to the first read that raises, as a consumer driving the generator to the end would see them.
- The internal base class. Building a device on it always fails. The model gives only that error.

## Findings

| source | as written | input that shows it | evidently intended | confidence | as-written member | corrected member |
|---|---|---|---|---|---|---|
| py_sensors.py:243 | `get_sensor_by_uuid` compares the argument with `sensor.base.uuid`. No base object has a `uuid` attribute: the constructor never sets one, and the builder puts a configured `uuid` on the device object (sensor_utils/sensor_builder.py:14-16). | Any non-`None` uuid on a registry holding one sensor, e.g. after adding `{"sensor_type": "i2c", "bus_no": 2, "i2c_addr": 78, "dev_name": "BM280", "alias": "RHT-sensor1", "uuid": 7}`. The lookup raises `AttributeError` instead of finding the sensor. | Compare with the uuid the sensor carries, which is the device object's `uuid` attribute. | not executed | PySensors.UuidLookupRaises | PySensors.UuidLandsOnDevice |
| sensor_utils/sensor_builder.py:17 | `with_field` writes a new name into the device object's attribute dictionary (line 16) and only then tests whether the name is missing from it. `existing_dev_props` is that same live dictionary (line 12), so the test is always false and the warning of line 18 never prints. | `with_field("clk_speed", 100000)` on a fresh `I2cSensor`: the name is in neither the base nor the device object, yet no warning prints. | Warn when the name was in neither scope before the write. | not executed | Builders.ClkSpeedNotWarned | Builders.SensorBuilder.WithFieldWarned |
