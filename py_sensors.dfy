/** The sensor registry of `py_sensors.py`: a list of device objects that
    grows only through the validated `add_sensor` pipeline (base schema,
    device schema, unknown-field scan, build, per-kind conflict rule, append),
    the per-kind filters and conflict rules, the reads, and the lookups by
    alias and by uuid. */
module PySensors {
  import opened Values
  import opened SensorProps
  import opened JsonUtils
  import opened SensorBase
  import opened Drivers
  import opened SensorDevices
  import opened Builders

  // ---------------------------------------------------------------------
  // Kind filters

  /** The filters select by the base's `type_name`. */
  predicate OfKind(s: Sensor, k: Kind) {
    s.base.typeName == Str(KindName(k))
  }

  /** `get_i2c_sensors`, `get_spi_sensors`, `get_uart_sensors`: the
      registered sensors of one kind, in registration order. */
  function FilterKind(ss: seq<Sensor>, k: Kind): (r: seq<Sensor>)
    ensures |r| <= |ss|
    ensures forall s :: s in r <==> s in ss && OfKind(s, k)
  {
    if ss == [] then []
    else (if OfKind(ss[0], k) then [ss[0]] else []) + FilterKind(ss[1..], k)
  }

  /** Filtering keeps the relative order: the filter of a concatenation is
      the concatenation of the filters. */
  lemma {:induction false} FilterKindAppend(a: seq<Sensor>, b: seq<Sensor>, k: Kind)
    ensures FilterKind(a + b, k) == FilterKind(a, k) + FilterKind(b, k)
  {
    if a == [] {
      assert a + b == b;
    } else {
      assert (a + b)[1..] == a[1..] + b;
      FilterKindAppend(a[1..], b, k);
    }
  }

  /** Filtering one more sensor of a prefix appends it when it is of the
      kind. */
  lemma FilterKindSnoc(ss: seq<Sensor>, i: int, k: Kind)
    requires 0 <= i < |ss|
    ensures FilterKind(ss[..i + 1], k) == FilterKind(ss[..i], k) + if OfKind(ss[i], k) then [ss[i]] else []
  {
    FilterKindAppend(ss[..i], [ss[i]], k);
    assert ss[..i + 1] == ss[..i] + [ss[i]];
  }

  /** A list of sensors all of one kind filters to itself; one with none of
      that kind filters to nothing. */
  lemma {:induction false} FilterKindExtremes(ss: seq<Sensor>, k: Kind)
    ensures (forall i :: 0 <= i < |ss| ==> OfKind(ss[i], k)) ==> FilterKind(ss, k) == ss
    ensures (forall i :: 0 <= i < |ss| ==> !OfKind(ss[i], k)) ==> FilterKind(ss, k) == []
  {
    if ss != [] {
      FilterKindExtremes(ss[1..], k);
      if forall i :: 0 <= i < |ss| ==> OfKind(ss[i], k) {
        assert forall i :: 0 <= i < |ss[1..]| ==> OfKind(ss[1..][i], k) by {
          forall i | 0 <= i < |ss[1..]| ensures OfKind(ss[1..][i], k) {
            assert ss[1..][i] == ss[i + 1];
          }
        }
        assert ss == [ss[0]] + ss[1..];
      }
      if forall i :: 0 <= i < |ss| ==> !OfKind(ss[i], k) {
        assert forall i :: 0 <= i < |ss[1..]| ==> !OfKind(ss[1..][i], k) by {
          forall i | 0 <= i < |ss[1..]| ensures !OfKind(ss[1..][i], k) {
            assert ss[1..][i] == ss[i + 1];
          }
        }
        assert !OfKind(ss[0], k);
      }
    }
  }

  // ---------------------------------------------------------------------
  // Conflict rules

  /** Both objects have the device attribute `key` and it is equal. */
  predicate SameField(a: Sensor, b: Sensor, key: string) {
    key in a.dev && key in b.dev && a.dev[key] == b.dev[key]
  }

  /** The clash a registered sensor of kind `k` has with a candidate: the
      same I2C address (on any bus), the same SPI bus and chip select, or
      the same UART port (at any baud rate). */
  predicate Clash(k: Kind, existing: Sensor, cand: Sensor) {
    match k
    case I2c => SameField(cand, existing, "i2c_addr")
    case Spi => cand.base.busNo == existing.base.busNo && SameField(cand, existing, "cs_no")
    case Uart => cand.base.busNo == existing.base.busNo
  }

  /** The candidate clashes with some registered sensor of kind `k`. */
  predicate Conflicts(k: Kind, registered: seq<Sensor>, cand: Sensor) {
    exists t :: t in registered && OfKind(t, k) && Clash(k, t, cand)
  }

  /** The conflict rules depend only on the sensors of the candidate's kind. */
  lemma ConflictsViaFilter(k: Kind, registered: seq<Sensor>, cand: Sensor)
    ensures Conflicts(k, registered, cand) <==> exists t :: t in FilterKind(registered, k) && Clash(k, t, cand)
  {
  }

  // ---------------------------------------------------------------------
  // The registry invariant

  /** What every registry built by `add_sensor` satisfies: each record is
      well formed and did not clash with any same-kind record registered
      before it. */
  ghost predicate Registered(ss: seq<Sensor>) {
    forall i :: 0 <= i < |ss| ==> WellFormed(ss[i]) && !Conflicts(ss[i].cls, ss[..i], ss[i])
  }

  /** A registered sensor the filter selects is of that kind and has the
      attribute the kind's rule compares. */
  lemma RegisteredKind(ss: seq<Sensor>, t: Sensor, k: Kind)
    requires Registered(ss) && t in ss && OfKind(t, k)
    ensures t.cls == k && WellFormed(t)
    ensures k == I2c ==> "i2c_addr" in t.dev
    ensures k == Spi ==> "cs_no" in t.dev
  {
    var i :| 0 <= i < |ss| && ss[i] == t;
    assert WellFormed(ss[i]);
    assert Str(KindName(t.cls)) == Str(KindName(k));
  }

  /** The sensor has the device attribute the rule of kind `k` compares. */
  predicate HasRuleField(t: Sensor, k: Kind) {
    && (k == I2c ==> "i2c_addr" in t.dev)
    && (k == Spi ==> "cs_no" in t.dev)
  }

  /** Every registered sensor the filter of kind `k` selects has the
      attribute that kind's rule compares. */
  lemma RegisteredFilterFields(ss: seq<Sensor>, k: Kind)
    requires Registered(ss)
    ensures forall t :: t in FilterKind(ss, k) ==> HasRuleField(t, k)
  {
    forall t | t in FilterKind(ss, k) ensures HasRuleField(t, k) {
      RegisteredKind(ss, t, k);
    }
  }

  /** In a registry no two I2C sensors share an address, no two SPI sensors
      share a bus and chip select, and no two UART sensors share a port. */
  lemma RegisteredPairwise(ss: seq<Sensor>)
    requires Registered(ss)
    ensures forall i, j :: 0 <= i < j < |ss| && ss[i].cls == I2c && ss[j].cls == I2c ==>
      ss[i].dev["i2c_addr"] != ss[j].dev["i2c_addr"]
    ensures forall i, j :: 0 <= i < j < |ss| && ss[i].cls == Spi && ss[j].cls == Spi ==>
      (ss[i].base.busNo, ss[i].dev["cs_no"]) != (ss[j].base.busNo, ss[j].dev["cs_no"])
    ensures forall i, j :: 0 <= i < j < |ss| && ss[i].cls == Uart && ss[j].cls == Uart ==>
      ss[i].base.busNo != ss[j].base.busNo
  {
    forall i, j | 0 <= i < j < |ss| && ss[i].cls == ss[j].cls
      ensures !Clash(ss[j].cls, ss[i], ss[j])
    {
      assert WellFormed(ss[i]) && WellFormed(ss[j]);
      assert ss[i] in ss[..j];
      assert !Conflicts(ss[j].cls, ss[..j], ss[j]);
    }
  }

  /** Appending a well-formed record that clashes with nothing keeps the
      invariant. */
  lemma AppendKeepsRegistered(ss: seq<Sensor>, s: Sensor)
    requires Registered(ss) && WellFormed(s) && !Conflicts(s.cls, ss, s)
    ensures Registered(ss + [s])
  {
    var ss' := ss + [s];
    forall i | 0 <= i < |ss'|
      ensures WellFormed(ss'[i]) && !Conflicts(ss'[i].cls, ss'[..i], ss'[i])
    {
      if i < |ss| {
        assert ss'[..i] == ss[..i];
      } else {
        assert ss'[..i] == ss;
      }
    }
  }

  // ---------------------------------------------------------------------
  // Screening and admission

  /** The stage of `add_sensor` that turned a configuration down. */
  datatype Stage = BaseSchemaCheck | DeviceSchemaCheck | UnknownFieldCheck | ConflictCheck

  /** The outcome of the checks that run before anything is built. */
  datatype Screened =
    | Fail(stage: Stage)
    | Unsupported(name: string)
    | Pass(kind: Kind, fields: map<string, Value>)

  /** The device schema of a kind. */
  function DevSchemaOf(k: Kind): Schema {
    match k
    case I2c => I2cSchema
    case Spi => SpiSchema
    case Uart => UartSchema
  }

  /** It is the schema `json_dev_schemas` holds under the kind's name. */
  lemma DevSchemaOfTable(k: Kind)
    ensures KindName(k) in DevSchemas && DevSchemaOf(k) == DevSchemas[KindName(k)]
  {
  }

  /** A configuration that passes every check before the build: it conforms
      to the base schema and to the schema of the kind it names, and has no
      key that neither schema declares. */
  ghost predicate Admissible(k: Kind, spec: Value) {
    && Conforms(BaseSchema, spec)
    && spec.fields["sensor_type"] == Str(KindName(k))
    && Conforms(DevSchemaOf(k), spec)
    && spec.fields.Keys <= Declared(BaseSchema) + Declared(DevSchemaOf(k))
  }

  /** The checks of `add_sensor` up to the build, in their order: base schema,
      then the type-map lookup (which raises for an unknown kind), then the
      kind's schema, then the unknown-field scan. */
  ghost function Screen(spec: Value): (r: Screened)
    ensures r.Pass? ==> spec == Object(r.fields) && Admissible(r.kind, spec)
    ensures forall k :: Admissible(k, spec) ==> r == Pass(k, spec.fields)
  {
    if !Conforms(BaseSchema, spec) then Fail(BaseSchemaCheck)
    else
      assert "sensor_type" in BaseSchema.required && BaseSchema.properties["sensor_type"] == String;
      var name := spec.fields["sensor_type"].s;
      match LookupKind(name)
      case None => Unsupported(name)
      case Some(k) =>
        if !Conforms(DevSchemaOf(k), spec) then Fail(DeviceSchemaCheck)
        else if !(spec.fields.Keys <= Declared(BaseSchema) + Declared(DevSchemaOf(k))) then Fail(UnknownFieldCheck)
        else Pass(k, spec.fields)
  }

  /** The first stage alone decides a base-schema rejection. */
  lemma ScreenBase(spec: Value)
    requires !Conforms(BaseSchema, spec)
    ensures Screen(spec) == Fail(BaseSchemaCheck)
  {
  }

  /** Past the base schema the configuration is a dictionary with a string
      `sensor_type`, and an unsupported kind stops the pipeline. */
  lemma ScreenTypeName(spec: Value)
    requires Conforms(BaseSchema, spec)
    ensures spec.Object? && "sensor_type" in spec.fields && spec.fields["sensor_type"].Str?
    ensures LookupKind(spec.fields["sensor_type"].s).None? ==>
      Screen(spec) == Unsupported(spec.fields["sensor_type"].s)
  {
    assert "sensor_type" in BaseSchema.required && BaseSchema.properties["sensor_type"] == String;
  }

  /** For a supported kind, the device schema and then the unknown-field scan
      decide. */
  lemma ScreenKind(spec: Value, k: Kind)
    requires Conforms(BaseSchema, spec) && spec.Object? && "sensor_type" in spec.fields
    requires spec.fields["sensor_type"] == Str(KindName(k))
    ensures Screen(spec) ==
      if !Conforms(DevSchemaOf(k), spec) then Fail(DeviceSchemaCheck)
      else if !(spec.fields.Keys <= Declared(BaseSchema) + Declared(DevSchemaOf(k))) then Fail(UnknownFieldCheck)
      else Pass(k, spec.fields)
  {
  }

  /** The record `build_sensor` makes from an admitted configuration: a fresh
      external device object of the kind with every key but `sensor_type`
      written through the builder. */
  function Candidate(k: Kind, fields: map<string, Value>): Sensor {
    Applied(Fresh(k), fields - {"sensor_type"})
  }

  /** What `add_sensor` does. `Added` is `True` with the record appended,
      `Rejected` is `False` (a check failed, or the conflict rule), `Raised`
      is the exception that escapes the call. */
  datatype AddOutcome = Added(record: Sensor) | Rejected(stage: Stage) | Raised(error: PyError)

  ghost function Admission(registered: seq<Sensor>, spec: Value): AddOutcome {
    match Screen(spec)
    case Fail(stage) => Rejected(stage)
    case Unsupported(name) => Raised(KeyError(Str(name)))
    case Pass(k, fields) => Decide(registered, k, fields)
  }

  /** The last step of `add_sensor` for a configuration that passed every
      check: the conflict rule of its kind, against the registered sensors,
      decides between rejecting it and appending its record. */
  ghost function Decide(registered: seq<Sensor>, k: Kind, fields: map<string, Value>): AddOutcome {
    var cand := Candidate(k, fields);
    if Conflicts(k, registered, cand) then Rejected(ConflictCheck) else Added(cand)
  }

  /** The names an admitted configuration can carry: those of the base schema
      and of the kind's schema. Of the base attributes only the bus number
      and the two names are among them, and neither `base` nor `type_name`
      is. */
  lemma PipelineNames(k: Kind)
    ensures var declared := Declared(BaseSchema) + Declared(DevSchemaOf(k));
      && "config" !in declared && "read" !in declared && "bus_prop1" !in declared
      && "type_name" !in declared && "base" !in declared
  {
    BaseDeclaresNoInternalName();
    DevDeclaresNoInternalName(k);
  }

  /** Whether a schema declares none of the internal names. */
  predicate DeclaresNoInternalName(s: Schema) {
    && "config" !in s.properties && "read" !in s.properties && "bus_prop1" !in s.properties
    && "type_name" !in s.properties && "base" !in s.properties
  }

  lemma BaseDeclaresNoInternalName()
    ensures DeclaresNoInternalName(BaseSchema)
  {
  }

  lemma DevDeclaresNoInternalName(k: Kind)
    ensures DeclaresNoInternalName(DevSchemaOf(k))
  {
    match k {
      case I2c =>
      case Spi =>
      case Uart =>
    }
  }

  /** Writing configuration fields into a fresh device object keeps it well
      formed as long as the only base attributes they name are the bus number
      and the two names: those land on the base, everything else on the
      device object. */
  lemma AppliedToFresh(k: Kind, f: map<string, Value>)
    requires f.Keys * BaseAttrNames <= {"bus_no", "dev_name", "alias"}
    requires "type_name" !in f && "base" !in f
    ensures var c := Applied(Fresh(k), f);
      && WellFormed(c) && c.cls == k && OfKind(c, k)
      && c.base.busNo == (if "bus_no" in f then f["bus_no"] else Null)
      && c.base.devName == (if "dev_name" in f then f["dev_name"] else Str("none"))
      && c.base.alias == (if "alias" in f then f["alias"] else Str("none"))
      && (forall n :: n in f && n !in BaseAttrNames ==> n in c.dev && c.dev[n] == f[n])
      && (forall n :: n in c.dev <==> n in Fresh(k).dev || (n in f && n !in BaseAttrNames))
  {
    AppliedToFreshBase(k, f);
    AppliedToFreshDev(k, f);
  }

  /** The base half of `AppliedToFresh`: the kind, the entry points, the
      bus property and the missing uuid are kept; the bus number and the two
      names are the written ones where written. */
  lemma AppliedToFreshBase(k: Kind, f: map<string, Value>)
    requires f.Keys * BaseAttrNames <= {"bus_no", "dev_name", "alias"}
    requires "type_name" !in f
    ensures var b := Applied(Fresh(k), f).base;
      && b.typeName == Str(KindName(k)) && b.config == ConfigOf(k) && b.read == ReadOf(k)
      && KindName(k) in BusProperty1 && b.busProp1 == BusProperty1[KindName(k)] && b.uuid.None?
      && b.busNo == (if "bus_no" in f then f["bus_no"] else Null)
      && b.devName == (if "dev_name" in f then f["dev_name"] else Str("none"))
      && b.alias == (if "alias" in f then f["alias"] else Str("none"))
  {
    var raw := Fresh(k);
    assert Applied(raw, f).base == Overlay(raw.base, f);
    forall n | n in {"config", "read", "bus_prop1"} ensures n !in f {
      assert n in BaseAttrNames && n !in {"bus_no", "dev_name", "alias"};
      assert n !in f.Keys * BaseAttrNames;
    }
  }

  /** The device half of `AppliedToFresh`: every written name that is not a
      base attribute is a device attribute with the written value, and the
      constructor's attributes are still there. */
  lemma AppliedToFreshDev(k: Kind, f: map<string, Value>)
    requires "type_name" !in f && "base" !in f
    ensures var d := Applied(Fresh(k), f).dev;
      && InitialDev(k).Keys <= d.Keys && d["type_name"] == Str(KindName(k)) && "base" !in d
      && (forall n :: n in f && n !in BaseAttrNames ==> n in d && d[n] == f[n])
      && (forall n :: n in d <==> n in Fresh(k).dev || (n in f && n !in BaseAttrNames))
  {
    var raw := Fresh(k);
    assert Applied(raw, f).dev == raw.dev + Spilled(f, BaseAttrNames);
  }

  /** An admitted configuration yields a well-formed record of the named kind
      whose bus number, device name and alias are the configured ones (not
      defaulted), whose other configured keys (`uuid` and `pwr_control`
      included) are device attributes, and whose UART device `bus_no` stays
      `None`. */
  lemma CandidateReflectsConfig(k: Kind, spec: Value)
    requires Admissible(k, spec)
    ensures var c := Candidate(k, spec.fields);
      && WellFormed(c) && c.cls == k && OfKind(c, k)
      && c.base.busNo == spec.fields["bus_no"]
      && c.base.devName == spec.fields["dev_name"]
      && c.base.alias == spec.fields["alias"]
      && (forall n :: n in spec.fields && n !in BaseAttrNames && n != "sensor_type" ==>
            n in c.dev && c.dev[n] == spec.fields[n])
      && "sensor_type" !in c.dev
      && (k == I2c ==> c.dev["i2c_addr"] == spec.fields["i2c_addr"])
      && (k == Spi ==> c.dev["cs_no"] == spec.fields["cs_no"])
      && (k == Uart ==> c.dev["baud_rate"] == spec.fields["baud_rate"] && c.dev["bus_no"] == Null)
  {
    AdmissibleShape(k, spec);
    CandidateBase(k, spec.fields);
    CandidateDev(k, spec.fields);
    DeviceNames(k);
  }

  /** The base half of `CandidateReflectsConfig`. */
  lemma CandidateBase(k: Kind, fields: map<string, Value>)
    requires "bus_no" in fields && "dev_name" in fields && "alias" in fields
    requires (fields.Keys - {"sensor_type"}) * BaseAttrNames <= {"bus_no", "dev_name", "alias"}
    requires "type_name" !in fields && "base" !in fields
    ensures var c := Candidate(k, fields);
      && WellFormed(c) && c.cls == k && OfKind(c, k)
      && c.base.busNo == fields["bus_no"]
      && c.base.devName == fields["dev_name"]
      && c.base.alias == fields["alias"]
  {
    AppliedToFresh(k, fields - {"sensor_type"});
  }

  /** The device half of `CandidateReflectsConfig`. */
  lemma CandidateDev(k: Kind, fields: map<string, Value>)
    requires (fields.Keys - {"sensor_type"}) * BaseAttrNames <= {"bus_no", "dev_name", "alias"}
    requires "type_name" !in fields && "base" !in fields
    ensures var c := Candidate(k, fields);
      && (forall n :: n in fields && n !in BaseAttrNames && n != "sensor_type" ==>
            n in c.dev && c.dev[n] == fields[n])
      && "sensor_type" !in c.dev
      && (k == Uart ==> c.dev["bus_no"] == Null)
  {
    AppliedToFreshDev(k, fields - {"sensor_type"});
    DeviceNames(k);
  }

  /** The identifying device attributes are not base attributes, and
      `sensor_type` is neither a base nor an initial device attribute. */
  lemma DeviceNames(k: Kind)
    ensures "i2c_addr" !in BaseAttrNames && "cs_no" !in BaseAttrNames && "baud_rate" !in BaseAttrNames
    ensures "sensor_type" !in BaseAttrNames && "sensor_type" !in InitialDev(k)
    ensures "uuid" !in BaseAttrNames && "pwr_control" !in BaseAttrNames
    ensures "bus_no" in BaseAttrNames
  {
  }

  /** The keys an admitted configuration is guaranteed to have, and the
      names it cannot have. */
  lemma AdmissibleShape(k: Kind, spec: Value)
    requires Admissible(k, spec)
    ensures spec.Object?
    ensures "bus_no" in spec.fields && "dev_name" in spec.fields && "alias" in spec.fields
    ensures k == I2c ==> "i2c_addr" in spec.fields
    ensures k == Spi ==> "cs_no" in spec.fields
    ensures k == Uart ==> "baud_rate" in spec.fields
    ensures (spec.fields.Keys - {"sensor_type"}) * BaseAttrNames <= {"bus_no", "dev_name", "alias"}
    ensures "type_name" !in spec.fields && "base" !in spec.fields
  {
    AdmissibleRequired(k, spec);
    AdmissibleNames(k, spec.fields);
  }

  /** The required keys of both schemas are present. */
  lemma AdmissibleRequired(k: Kind, spec: Value)
    requires Admissible(k, spec)
    ensures spec.Object?
    ensures "bus_no" in spec.fields && "dev_name" in spec.fields && "alias" in spec.fields
    ensures k == I2c ==> "i2c_addr" in spec.fields
    ensures k == Spi ==> "cs_no" in spec.fields
    ensures k == Uart ==> "baud_rate" in spec.fields
  {
    assert "bus_no" in BaseSchema.required && "dev_name" in BaseSchema.required;
    assert "alias" in BaseSchema.required;
    match k {
      case I2c =>
        assert "i2c_addr" in I2cSchema.required;
      case Spi =>
        assert "cs_no" in SpiSchema.required;
      case Uart =>
        assert "baud_rate" in UartSchema.required;
    }
  }

  /** Of the base attributes, only the bus number and the two names can be
      configured; `type_name` and `base` cannot. */
  lemma AdmissibleNames(k: Kind, fields: map<string, Value>)
    requires fields.Keys <= Declared(BaseSchema) + Declared(DevSchemaOf(k))
    ensures (fields.Keys - {"sensor_type"}) * BaseAttrNames <= {"bus_no", "dev_name", "alias"}
    ensures "type_name" !in fields && "base" !in fields
  {
    PipelineNames(k);
    forall n | n in (fields.Keys - {"sensor_type"}) * BaseAttrNames
      ensures n in {"bus_no", "dev_name", "alias"}
    {
      assert n == "config" || n == "read" || n == "type_name" || n == "bus_no" || n == "dev_name"
        || n == "alias" || n == "bus_prop1";
    }
  }

  /** The outcome of `add_sensor` in terms of the stages: a configuration that
      passes every check is added exactly when its record clashes with
      nothing; the base schema alone decides the first rejection; an
      unsupported kind raises `KeyError`. */
  lemma AdmissionStages(registered: seq<Sensor>, spec: Value)
    ensures Admission(registered, spec) == Rejected(BaseSchemaCheck) <==> !Conforms(BaseSchema, spec)
    ensures forall k :: Admissible(k, spec) ==>
      Admission(registered, spec) ==
        if Conflicts(k, registered, Candidate(k, spec.fields)) then Rejected(ConflictCheck)
        else Added(Candidate(k, spec.fields))
    ensures Admission(registered, spec).Added? || Admission(registered, spec) == Rejected(ConflictCheck) ==>
      Admissible(Screen(spec).kind, spec)
    ensures Admission(registered, spec).Raised? ==>
      && Conforms(BaseSchema, spec) && spec.fields["sensor_type"].s !in SensorTypeMap
      && Admission(registered, spec).error == KeyError(spec.fields["sensor_type"])
  {
    if !Conforms(BaseSchema, spec) {
      ScreenBase(spec);
    } else {
      ScreenTypeName(spec);
      var found := LookupKind(spec.fields["sensor_type"].s);
      if found.Some? {
        ScreenKind(spec, found.value);
      }
    }
  }

  /** For an admissible configuration only the conflict rule decides. */
  lemma AdmissionOfAdmissible(registered: seq<Sensor>, spec: Value, k: Kind)
    requires Admissible(k, spec)
    ensures Screen(spec) == Pass(k, spec.fields)
    ensures Admission(registered, spec) ==
      if Conflicts(k, registered, Candidate(k, spec.fields)) then Rejected(ConflictCheck)
      else Added(Candidate(k, spec.fields))
  {
    var screened := Screen(spec);
    assert screened == Pass(k, spec.fields);
  }

  /** The record of an admissible configuration is well formed and of its
      kind. */
  lemma CandidateWellFormed(k: Kind, spec: Value)
    requires Admissible(k, spec)
    ensures var c := Candidate(k, spec.fields);
      && WellFormed(c) && c.cls == k && OfKind(c, k)
      && (k == I2c ==> "i2c_addr" in c.dev)
      && (k == Spi ==> "cs_no" in c.dev)
  {
    CandidateReflectsConfig(k, spec);
  }

  /** A record `add_sensor` admits can be appended: it is well formed and,
      by the conflict check, clashes with no registered sensor of its kind. */
  lemma AdmittedKeepsRegistered(registered: seq<Sensor>, spec: Value)
    requires Registered(registered) && Admission(registered, spec).Added?
    ensures Registered(registered + [Admission(registered, spec).record])
  {
    AdmissionStages(registered, spec);
    var k := Screen(spec).kind;
    AdmissionOfAdmissible(registered, spec, k);
    var c := Candidate(k, spec.fields);
    CandidateWellFormed(k, spec);
    AppendKeepsRegistered(registered, c);
  }

  // ---------------------------------------------------------------------
  // Reads

  /** Every registered sensor has a readable driver entry point. */
  lemma RegisteredReadable(ss: seq<Sensor>)
    requires Registered(ss)
    ensures forall i :: 0 <= i < |ss| ==> ss[i].base.read.Fn? && ss[i].base.read == ReadOf(ss[i].cls)
  {
    forall i | 0 <= i < |ss| ensures ss[i].base.read == ReadOf(ss[i].cls) {
      assert WellFormed(ss[i]);
    }
  }

  /** What `%d` accepts: an integer, a float or a boolean. */
  predicate FormatsAsInteger(v: Value) {
    v.Int? || v.Float? || v.Bool?
  }

  /** The read loop prints a list reading item by item with `%d`; every
      other reading is printed without `%d`. */
  predicate Printable(r: Reading) {
    r.Samples? ==> forall k :: 0 <= k < |r.items| ==> FormatsAsInteger(r.items[k])
  }

  /** The exception the read loop raises at sensor `s`, the `i`-th: its
      `read` is not callable, or the reading is a list with an item `%d`
      rejects. */
  function ReadError(s: Sensor, i: nat, sample: (nat, Callable) -> Reading): Option<PyError> {
    if !s.base.read.Fn? then Some(TypeError("object is not callable"))
    else if !Printable(sample(i, s.base.read.f)) then Some(TypeError("%d format: a real number is required"))
    else None
  }

  /** Position `i` holds the first sensor whose read raises. */
  predicate FirstReadError(ss: seq<Sensor>, i: int, sample: (nat, Callable) -> Reading) {
    && 0 <= i < |ss|
    && ReadError(ss[i], i, sample).Some?
    && forall j :: 0 <= j < i ==> ReadError(ss[j], j, sample).None?
  }

  /** A registered sensor's read fails only on a list reading that `%d`
      cannot print. */
  lemma RegisteredReadErrors(ss: seq<Sensor>, sample: (nat, Callable) -> Reading)
    requires Registered(ss)
    ensures forall i :: 0 <= i < |ss| ==>
      ReadError(ss[i], i, sample) == if Printable(sample(i, ReadOf(ss[i].cls).f)) then None
                                     else Some(TypeError("%d format: a real number is required"))
  {
    RegisteredReadable(ss);
  }

  // ---------------------------------------------------------------------
  // Lookup by alias

  /** Position `i` holds the first sensor whose base alias is `alias`. */
  predicate FirstWithAlias(ss: seq<Sensor>, i: int, alias: Value) {
    && 0 <= i < |ss|
    && ss[i].base.alias == alias
    && forall j :: 0 <= j < i ==> ss[j].base.alias != alias
  }

  // ---------------------------------------------------------------------
  // Lookup by uuid

  /** `get_sensor_by_uuid` as written: it reads `base.uuid`, which raises
      `AttributeError` at the first sensor whose base has no uuid. */
  function BaseUuidLookup(ss: seq<Sensor>, uuid: Value): (r: Result<Option<Sensor>>)
    ensures r.Ok? && r.value.Some? ==> r.value.value in ss
  {
    if ss == [] then Ok(None)
    else if ss[0].base.uuid.None? then Err(AttributeError("uuid"))
    else if uuid == ss[0].base.uuid.value then Ok(Some(ss[0]))
    else BaseUuidLookup(ss[1..], uuid)
  }

  /** Since no record of a registry has a base uuid, the lookup as written
      raises on every non-empty registry, whatever uuid is asked for. */
  lemma UuidLookupRaises(ss: seq<Sensor>, uuid: Value)
    requires Registered(ss) && ss != []
    ensures BaseUuidLookup(ss, uuid) == Err(AttributeError("uuid"))
  {
    assert WellFormed(ss[0]);
  }

  /** The lookup the uuid scheme calls for: the builder puts a configured
      `uuid` on the device object, so the first sensor whose device `uuid`
      equals the argument. */
  function DevUuidLookup(ss: seq<Sensor>, uuid: Value): (r: Option<Sensor>)
    ensures r.Some? ==> r.value in ss && "uuid" in r.value.dev && r.value.dev["uuid"] == uuid
    ensures r.None? <==> forall i :: 0 <= i < |ss| ==> !("uuid" in ss[i].dev && ss[i].dev["uuid"] == uuid)
  {
    if ss == [] then None
    else if "uuid" in ss[0].dev && ss[0].dev["uuid"] == uuid then Some(ss[0])
    else
      var rest := DevUuidLookup(ss[1..], uuid);
      assert rest.None? <==> forall i :: 1 <= i < |ss| ==> !("uuid" in ss[i].dev && ss[i].dev["uuid"] == uuid) by {
        if rest.None? {
          forall i | 1 <= i < |ss| ensures !("uuid" in ss[i].dev && ss[i].dev["uuid"] == uuid) {
            assert ss[1..][i - 1] == ss[i];
          }
        } else {
          var t := rest.value;
          var j :| 0 <= j < |ss[1..]| && ss[1..][j] == t;
          assert ss[j + 1] == t;
        }
      }
      rest
  }

  /** The record carries `uuid` as a device attribute. */
  predicate HasDevUuid(s: Sensor, uuid: Value) {
    "uuid" in s.dev && s.dev["uuid"] == uuid
  }

  /** Position `i` holds the first sensor whose device uuid is `uuid`. */
  predicate FirstWithUuid(ss: seq<Sensor>, i: int, uuid: Value) {
    && 0 <= i < |ss|
    && HasDevUuid(ss[i], uuid)
    && forall j :: 0 <= j < i ==> !HasDevUuid(ss[j], uuid)
  }

  /** A first match in the tail, behind a head that does not match, is the
      first match of the whole list. */
  lemma FirstWithUuidBehind(ss: seq<Sensor>, i: int, uuid: Value)
    requires ss != [] && !HasDevUuid(ss[0], uuid) && FirstWithUuid(ss[1..], i, uuid)
    ensures FirstWithUuid(ss, i + 1, uuid) && ss[i + 1] == ss[1..][i]
  {
    forall j | 0 < j < i + 1 ensures !HasDevUuid(ss[j], uuid) {
      assert ss[j] == ss[1..][j - 1];
    }
  }

  /** The corrected lookup returns the first match in registration order. */
  lemma {:induction false} DevUuidLookupFirst(ss: seq<Sensor>, uuid: Value)
    ensures DevUuidLookup(ss, uuid).Some? ==>
      exists i :: FirstWithUuid(ss, i, uuid) && ss[i] == DevUuidLookup(ss, uuid).value
  {
    if ss == [] {
    } else if HasDevUuid(ss[0], uuid) {
      assert FirstWithUuid(ss, 0, uuid);
    } else {
      var r := DevUuidLookup(ss[1..], uuid);
      assert DevUuidLookup(ss, uuid) == r;
      if r.Some? {
        DevUuidLookupFirst(ss[1..], uuid);
        var i :| FirstWithUuid(ss[1..], i, uuid) && ss[1..][i] == r.value;
        FirstWithUuidBehind(ss, i, uuid);
      }
    }
  }

  /** A configured uuid is a device attribute of the record. */
  lemma CandidateUuid(k: Kind, spec: Value)
    requires Admissible(k, spec) && "uuid" in spec.fields
    ensures "uuid" in Candidate(k, spec.fields).dev
    ensures Candidate(k, spec.fields).dev["uuid"] == spec.fields["uuid"]
  {
    CandidateReflectsConfig(k, spec);
    DeviceNames(k);
  }

  /** A configured uuid ends up on the device object: once the sensor is
      added, the device-scope lookup finds a sensor with that uuid, while the
      lookup as written raises. */
  lemma UuidLandsOnDevice(ss: seq<Sensor>, spec: Value)
    requires Registered(ss) && Admission(ss, spec).Added?
    requires spec.Object? && "uuid" in spec.fields
    ensures var rec := Admission(ss, spec).record;
      && "uuid" in rec.dev && rec.dev["uuid"] == spec.fields["uuid"]
      && DevUuidLookup(ss + [rec], spec.fields["uuid"]).Some?
      && BaseUuidLookup(ss + [rec], spec.fields["uuid"]) == Err(AttributeError("uuid"))
  {
    AdmissionStages(ss, spec);
    var k := Screen(spec).kind;
    AdmissionOfAdmissible(ss, spec, k);
    var rec := Candidate(k, spec.fields);
    CandidateUuid(k, spec);
    AdmittedKeepsRegistered(ss, spec);
    UuidLookupRaises(ss + [rec], spec.fields["uuid"]);
    assert (ss + [rec])[|ss|] == rec;
  }

  // ---------------------------------------------------------------------
  // Scenarios of the demonstration and the tests

  /** `{"sensor_type": "i2c", "bus_no": bus, "i2c_addr": addr,
      "dev_name": "BM280", "alias": alias}`. */
  function I2cSpec(bus: int, addr: int, alias: string): Value {
    Object(map["sensor_type" := Str("i2c"), "bus_no" := Int(bus), "i2c_addr" := Int(addr),
               "dev_name" := Str("BM280"), "alias" := Str(alias)])
  }

  lemma I2cSpecConforms(bus: int, addr: int, alias: string)
    ensures Conforms(BaseSchema, I2cSpec(bus, addr, alias))
    ensures Conforms(I2cSchema, I2cSpec(bus, addr, alias))
  {
  }

  lemma I2cSpecDeclared(bus: int, addr: int, alias: string)
    ensures I2cSpec(bus, addr, alias).fields.Keys <= Declared(BaseSchema) + Declared(I2cSchema)
  {
    DeclaredSets();
  }

  /** Such a configuration passes every check before the build, so on an
      empty registry it is added (tests/test_py_sensors.py:29-35). */
  lemma I2cSpecAdmitted(bus: int, addr: int, alias: string)
    ensures Admissible(I2c, I2cSpec(bus, addr, alias))
    ensures Admission([], I2cSpec(bus, addr, alias)) == Added(Candidate(I2c, I2cSpec(bus, addr, alias).fields))
  {
    var spec := I2cSpec(bus, addr, alias);
    I2cSpecConforms(bus, addr, alias);
    I2cSpecDeclared(bus, addr, alias);
    AdmissionOfAdmissible([], spec, I2c);
  }

  lemma CandidateI2cAddr(spec: Value)
    requires Admissible(I2c, spec)
    ensures "i2c_addr" in spec.fields
    ensures var c := Candidate(I2c, spec.fields);
      OfKind(c, I2c) && "i2c_addr" in c.dev && c.dev["i2c_addr"] == spec.fields["i2c_addr"]
  {
    CandidateReflectsConfig(I2c, spec);
    AdmissibleShape(I2c, spec);
  }

  /** Once an I2C sensor is added, a later I2C configuration with the same
      address is rejected by the conflict rule, whatever its bus number
      (tests/test_py_sensors.py:82-93). */
  lemma I2cSameAddressRejected(ss: seq<Sensor>, spec1: Value, spec2: Value)
    requires Admissible(I2c, spec1) && Admissible(I2c, spec2)
    requires "i2c_addr" in spec1.fields && "i2c_addr" in spec2.fields
    requires spec2.fields["i2c_addr"] == spec1.fields["i2c_addr"]
    requires Admission(ss, spec1).Added?
    ensures Admission(ss + [Admission(ss, spec1).record], spec2) == Rejected(ConflictCheck)
  {
    AdmissionOfAdmissible(ss, spec1, I2c);
    var rec := Candidate(I2c, spec1.fields);
    var cand := Candidate(I2c, spec2.fields);
    CandidateI2cAddr(spec1);
    CandidateI2cAddr(spec2);
    assert rec in ss + [rec] && OfKind(rec, I2c) && Clash(I2c, rec, cand);
    AdmissionOfAdmissible(ss + [rec], spec2, I2c);
  }

  lemma CandidateSpiSelect(spec: Value)
    requires Admissible(Spi, spec)
    ensures "cs_no" in spec.fields && "bus_no" in spec.fields
    ensures var c := Candidate(Spi, spec.fields);
      && OfKind(c, Spi) && "cs_no" in c.dev && c.dev["cs_no"] == spec.fields["cs_no"]
      && c.base.busNo == spec.fields["bus_no"]
  {
    CandidateReflectsConfig(Spi, spec);
    AdmissibleShape(Spi, spec);
  }

  /** Once an SPI sensor is added, a later SPI configuration with the same
      bus number and chip select is rejected. */
  lemma SpiSameSelectRejected(ss: seq<Sensor>, spec1: Value, spec2: Value)
    requires Admissible(Spi, spec1) && Admissible(Spi, spec2)
    requires "cs_no" in spec1.fields && "cs_no" in spec2.fields
    requires "bus_no" in spec1.fields && "bus_no" in spec2.fields
    requires spec2.fields["cs_no"] == spec1.fields["cs_no"]
    requires spec2.fields["bus_no"] == spec1.fields["bus_no"]
    requires Admission(ss, spec1).Added?
    ensures Admission(ss + [Admission(ss, spec1).record], spec2) == Rejected(ConflictCheck)
  {
    AdmissionOfAdmissible(ss, spec1, Spi);
    var rec := Candidate(Spi, spec1.fields);
    var cand := Candidate(Spi, spec2.fields);
    CandidateSpiSelect(spec1);
    CandidateSpiSelect(spec2);
    assert rec in ss + [rec] && OfKind(rec, Spi) && Clash(Spi, rec, cand);
    AdmissionOfAdmissible(ss + [rec], spec2, Spi);
  }

  lemma CandidateUartPort(spec: Value)
    requires Admissible(Uart, spec)
    ensures "bus_no" in spec.fields
    ensures var c := Candidate(Uart, spec.fields);
      OfKind(c, Uart) && c.base.busNo == spec.fields["bus_no"]
  {
    CandidateReflectsConfig(Uart, spec);
    AdmissibleShape(Uart, spec);
  }

  /** Once a UART sensor is added, a later UART configuration on the same
      port is rejected, whatever its baud rate. */
  lemma UartSamePortRejected(ss: seq<Sensor>, spec1: Value, spec2: Value)
    requires Admissible(Uart, spec1) && Admissible(Uart, spec2)
    requires "bus_no" in spec1.fields && "bus_no" in spec2.fields
    requires spec2.fields["bus_no"] == spec1.fields["bus_no"]
    requires Admission(ss, spec1).Added?
    ensures Admission(ss + [Admission(ss, spec1).record], spec2) == Rejected(ConflictCheck)
  {
    AdmissionOfAdmissible(ss, spec1, Uart);
    var rec := Candidate(Uart, spec1.fields);
    var cand := Candidate(Uart, spec2.fields);
    CandidateUartPort(spec1);
    CandidateUartPort(spec2);
    assert rec in ss + [rec] && OfKind(rec, Uart) && Clash(Uart, rec, cand);
    AdmissionOfAdmissible(ss + [rec], spec2, Uart);
  }

  /** A registered sensor of another kind never causes a conflict. */
  lemma OtherKindsIgnored(ss: seq<Sensor>, s: Sensor, k: Kind, cand: Sensor)
    requires !OfKind(s, k)
    ensures Conflicts(k, ss + [s], cand) <==> Conflicts(k, ss, cand)
  {
    if Conflicts(k, ss + [s], cand) {
      var t :| t in ss + [s] && OfKind(t, k) && Clash(k, t, cand);
      assert t in ss;
    }
    if Conflicts(k, ss, cand) {
      var t :| t in ss && OfKind(t, k) && Clash(k, t, cand);
      assert t in ss + [s];
    }
  }

  /** `{"sensor_type": "i2c", "bus_no": 2, "i2c_addr": 81,
      "alias": "json-error-sensor"}`: no device name. */
  function NoDevNameSpec(): Value {
    Object(map["sensor_type" := Str("i2c"), "bus_no" := Int(2), "i2c_addr" := Int(81),
               "alias" := Str("json-error-sensor")])
  }

  /** Without `dev_name` the base schema rejects the configuration
      (tests/test_py_sensors.py:95-102). */
  lemma MissingBaseFieldRejected(registered: seq<Sensor>)
    ensures Admission(registered, NoDevNameSpec()) == Rejected(BaseSchemaCheck)
  {
    assert "dev_name" in BaseSchema.required && "dev_name" !in NoDevNameSpec().fields;
    ScreenBase(NoDevNameSpec());
  }

  /** `{"sensor_type": "i2c", "bus_no": 2, "clk_speed": 100000,
      "dev_name": "BM281", "alias": "sensor2F"}`: no I2C address. */
  function NoAddrSpec(): Value {
    Object(map["sensor_type" := Str("i2c"), "bus_no" := Int(2), "clk_speed" := Int(100000),
               "dev_name" := Str("BM281"), "alias" := Str("sensor2F")])
  }

  lemma NoAddrSpecConforms()
    ensures Conforms(BaseSchema, NoAddrSpec())
    ensures !Conforms(I2cSchema, NoAddrSpec())
  {
    assert "i2c_addr" in I2cSchema.required && "i2c_addr" !in NoAddrSpec().fields;
  }

  /** Without `i2c_addr` the I2C schema rejects the configuration
      (tests/test_py_sensors.py:104-111). */
  lemma MissingDeviceFieldRejected(registered: seq<Sensor>)
    ensures Admission(registered, NoAddrSpec()) == Rejected(DeviceSchemaCheck)
  {
    NoAddrSpecConforms();
    ScreenKind(NoAddrSpec(), I2c);
  }

  /** `{"sensor_type": "i2c", "bus_no": 2, "i2c_addr": 79,
      "clock_speed": 100000, "dev_name": "BM281", "alias": "sensor2F"}`:
      the clock speed under a misspelt name. */
  function MisspeltSpec(): Value {
    Object(map["sensor_type" := Str("i2c"), "bus_no" := Int(2), "i2c_addr" := Int(79),
               "clock_speed" := Int(100000), "dev_name" := Str("BM281"), "alias" := Str("sensor2F")])
  }

  lemma MisspeltSpecConforms()
    ensures Conforms(BaseSchema, MisspeltSpec()) && Conforms(I2cSchema, MisspeltSpec())
    ensures "clock_speed" in MisspeltSpec().fields
  {
    assert Conforms(BaseSchema, MisspeltSpec());
  }

  /** With the misspelt `clock_speed` the configuration gets past both
      schemas (an undeclared key is not looked at) and the unknown-field scan
      rejects it. */
  lemma MisspeltFieldRejected(registered: seq<Sensor>)
    ensures Admission(registered, MisspeltSpec()) == Rejected(UnknownFieldCheck)
  {
    MisspeltSpecConforms();
    ClockSpeedUndeclared();
    assert "clock_speed" !in Declared(BaseSchema) + Declared(I2cSchema);
    ScreenKind(MisspeltSpec(), I2c);
  }

  // ---------------------------------------------------------------------
  // The registry

  /** A configuration with a bus number has a key besides `sensor_type`. */
  lemma KeysBeyondType(fields: map<string, Value>)
    requires "bus_no" in fields
    ensures !(fields.Keys <= {"sensor_type"})
  {
    assert "bus_no" !in {"sensor_type"};
  }

  /** The fields the builder loop has written while `todo` is still to be
      visited: every visited key but `sensor_type`. */
  function Written(fields: map<string, Value>, todo: set<string>): map<string, Value> {
    fields - (todo + {"sensor_type"})
  }

  /** Before the loop nothing is written; after it, every key but
      `sensor_type`, which is nothing exactly when there is no other key. */
  lemma WrittenEnds(fields: map<string, Value>)
    ensures Written(fields, fields.Keys) == map[]
    ensures Written(fields, {}) == fields - {"sensor_type"}
    ensures Written(fields, {}) == map[] <==> fields.Keys <= {"sensor_type"}
  {
    if !(fields.Keys <= {"sensor_type"}) {
      var n :| n in fields && n != "sensor_type";
      assert n in Written(fields, {});
    }
  }

  /** Visiting one more key writes it, unless it is `sensor_type`. */
  lemma WrittenStep(fields: map<string, Value>, todo: set<string>, name: string)
    requires name in todo && name in fields
    ensures name != "sensor_type" ==>
      && name !in Written(fields, todo)
      && Written(fields, todo - {name}) == Written(fields, todo)[name := fields[name]]
    ensures name == "sensor_type" ==> Written(fields, todo - {name}) == Written(fields, todo)
  {
  }

  /** The `Sensors` class. */
  class Sensors {
    var sensors: seq<Sensor>

    ghost predicate Valid()
      reads this
    {
      Registered(sensors)
    }

    /** `Sensors(sensors)`: a registry over the given list, which must itself
        satisfy the registry invariant. */
    constructor (initial: seq<Sensor>)
      requires Registered(initial)
      ensures sensors == initial && Valid()
    {
      sensors := initial;
    }

    /** `get_i2c_sensors` / `get_spi_sensors` / `get_uart_sensors`. */
    method GetSensorsOfKind(k: Kind) returns (r: seq<Sensor>)
      ensures r == FilterKind(sensors, k)
    {
      r := [];
      var i := 0;
      while i < |sensors|
        invariant 0 <= i <= |sensors|
        invariant r == FilterKind(sensors[..i], k)
      {
        FilterKindSnoc(sensors, i, k);
        if sensors[i].base.typeName == Str(KindName(k)) {
          r := r + [sensors[i]];
        }
        i := i + 1;
      }
      assert sensors[..i] == sensors;
    }

    /** The shared loop of the three validators: false at the first sensor of
        the filtered list that clashes with the candidate. */
    method NoClash(k: Kind, sensor: Sensor) returns (ok: bool)
      requires Valid()
      requires HasRuleField(sensor, k)
      ensures ok <==> !Conflicts(k, sensors, sensor)
    {
      var same := GetSensorsOfKind(k);
      RegisteredFilterFields(sensors, k);
      ok := ClashFree(k, same, sensor);
      ConflictsViaFilter(k, sensors, sensor);
    }

    /** The loop the three validators share: false at the first sensor of
        `same` whose compared attributes equal the candidate's. */
    static method ClashFree(k: Kind, same: seq<Sensor>, sensor: Sensor) returns (ok: bool)
      requires forall t :: t in same ==> HasRuleField(t, k)
      requires HasRuleField(sensor, k)
      ensures ok <==> !exists t :: t in same && Clash(k, t, sensor)
    {
      var i := 0;
      while i < |same|
        invariant 0 <= i <= |same|
        invariant forall j :: 0 <= j < i ==> !Clash(k, same[j], sensor)
      {
        assert same[i] in same;
        var clash := match k
          case I2c => sensor.dev["i2c_addr"] == same[i].dev["i2c_addr"]
          case Spi => sensor.base.busNo == same[i].base.busNo && sensor.dev["cs_no"] == same[i].dev["cs_no"]
          case Uart => sensor.base.busNo == same[i].base.busNo;
        if clash {
          return false;
        }
        i := i + 1;
      }
      return true;
    }

    /** `i2c_validate`: false iff a registered I2C sensor has the candidate's
        address, whatever its bus. */
    method I2cValidate(sensor: Sensor) returns (ok: bool)
      requires Valid() && "i2c_addr" in sensor.dev
      ensures ok <==> !Conflicts(I2c, sensors, sensor)
      ensures ok <==> !exists t :: t in sensors && OfKind(t, I2c) && SameField(sensor, t, "i2c_addr")
    {
      ok := NoClash(I2c, sensor);
    }

    /** `spi_validate`: false iff a registered SPI sensor has the candidate's
        bus number and chip select. */
    method SpiValidate(sensor: Sensor) returns (ok: bool)
      requires Valid() && "cs_no" in sensor.dev
      ensures ok <==> !Conflicts(Spi, sensors, sensor)
      ensures ok <==> !exists t :: t in sensors && OfKind(t, Spi) &&
                         t.base.busNo == sensor.base.busNo && SameField(sensor, t, "cs_no")
    {
      ok := NoClash(Spi, sensor);
    }

    /** `uart_validate`: false iff a registered UART sensor has the
        candidate's bus number, whatever the baud rates. */
    method UartValidate(sensor: Sensor) returns (ok: bool)
      requires Valid()
      ensures ok <==> !Conflicts(Uart, sensors, sensor)
      ensures ok <==> !exists t :: t in sensors && OfKind(t, Uart) && t.base.busNo == sensor.base.busNo
    {
      ok := NoClash(Uart, sensor);
    }

    /** `validators[sensor.base.type_name](sensor)`: the validator of the
        record's own kind, selected by its base's kind name. */
    method Validate(sensor: Sensor) returns (ok: bool)
      requires Valid() && WellFormed(sensor)
      ensures ok <==> !Conflicts(sensor.cls, sensors, sensor)
    {
      if sensor.base.typeName == Str("i2c") {
        ok := I2cValidate(sensor);
      } else if sensor.base.typeName == Str("spi") {
        ok := SpiValidate(sensor);
      } else {
        ok := UartValidate(sensor);
      }
    }

    /** `build_sensor`: `None` when an argument is missing; otherwise the
        device object of the class built on the base class, with every key
        but `sensor_type` written through a builder. A failing device
        constructor raises; so does a configuration that is not a
        dictionary, and one with no key besides `sensor_type` (the builder
        variable is then never bound). */
    static method BuildSensor(cls: Option<Kind>, baseCls: Option<BaseClass>, props: Value, driver: Driver)
      returns (r: Result<Option<Sensor>>)
      requires props.Object? ==> "base" !in props.fields
      modifies driver
      ensures cls.None? || baseCls.None? || props.Null? ==>
        r == Ok(None) && driver.configured == old(driver.configured)
      ensures cls.Some? && baseCls.Some? && !props.Null? && baseCls != Some(ExternalClass) ==>
        r.Err? && driver.configured == old(driver.configured)
      ensures cls.Some? && baseCls == Some(ExternalClass) && !props.Null? ==>
        && driver.configured == old(driver.configured) + ConfigCalls(cls.value)
        && r == if !props.Object? then Err(AttributeError("items"))
                else if props.fields.Keys <= {"sensor_type"} then Err(NameError("tmp"))
                else Ok(Some(Candidate(cls.value, props.fields)))
    {
      if cls.None? || baseCls.None? || props.Null? {
        return Ok(None);
      }
      var raw :- NewDevice(cls.value, baseCls, driver);
      if !props.Object? {
        return Err(AttributeError("items"));
      }
      var builder := new SensorBuilder(raw);
      var tmp := WriteFields(builder, props.fields);
      if tmp == null {
        return Err(NameError("tmp"));
      }
      var sensor := tmp.Build();
      return Ok(Some(sensor));
    }

    /** The loop of `build_sensor`: every key but `sensor_type` written
        through the builder, in any order. The result is the builder the
        last write returned, or `null` when nothing was written. */
    static method WriteFields(builder: SensorBuilder, fields: map<string, Value>) returns (tmp: SensorBuilder?)
      requires "base" !in fields
      modifies builder
      ensures tmp == null <==> fields.Keys <= {"sensor_type"}
      ensures tmp != null ==> tmp == builder
      ensures builder.obj == Applied(old(builder.obj), fields - {"sensor_type"})
    {
      ghost var raw := builder.obj;
      tmp := null;
      var todo := fields.Keys;
      WrittenEnds(fields);
      AppliedNothing(raw);
      while todo != {}
        invariant todo <= fields.Keys
        invariant tmp == null <==> Written(fields, todo) == map[]
        invariant tmp != null ==> tmp == builder
        invariant builder.obj == Applied(raw, Written(fields, todo))
        decreases todo
      {
        var name :| name in todo;
        WrittenStep(fields, todo, name);
        if name != "sensor_type" {
          var value := fields[name];
          AppliedStep(raw, Written(fields, todo), name, value);
          tmp := WriteNext(builder, tmp, name, value);
        }
        todo := todo - {name};
      }
    }

    /** One step of the `build_sensor` loop: the first write goes through the
        builder, every later one through the builder the previous write
        returned. */
    static method WriteNext(builder: SensorBuilder, tmp: SensorBuilder?, name: string, value: Value)
      returns (next: SensorBuilder)
      requires name != "base"
      requires tmp != null ==> tmp == builder
      modifies builder
      ensures next == builder
      ensures builder.obj == Routed(old(builder.obj), name, value)
    {
      if tmp == null {
        next := builder.WithField(name, value);
      } else {
        next := tmp.WithField(name, value);
      }
    }

    /** `add_sensor`: the outcome is `Admission` of the configuration against
        the registry; only an admitted record is appended, at the end, and the
        registry invariant is kept. The device constructor configures the
        hardware for every configuration that reaches the build, including
        one the conflict rule then rejects. */
    method AddSensor(spec: Value, driver: Driver) returns (r: AddOutcome)
      requires Valid()
      modifies this, driver
      ensures Valid()
      ensures r == Admission(old(sensors), spec)
      ensures r.Added? ==> sensors == old(sensors) + [r.record]
      ensures !r.Added? ==> sensors == old(sensors)
      ensures driver.configured == old(driver.configured) +
        if Screen(spec).Pass? then ConfigCalls(Screen(spec).kind) else []
    {
      var baseValidator := JsonValidator(BaseSchema);
      if !baseValidator.Check(spec) {
        ScreenBase(spec);
        return Rejected(BaseSchemaCheck);
      }
      ScreenTypeName(spec);
      var sensorType := spec.fields["sensor_type"].s;
      var found := LookupKind(sensorType);
      if found.None? {
        return Raised(KeyError(Str(sensorType)));
      }
      var kind := found.value;
      ScreenKind(spec, kind);
      DevSchemaOfTable(kind);
      var devSchema := DevSchemas[sensorType];
      var devValidator := JsonValidator(devSchema);
      if !devValidator.Check(spec) {
        return Rejected(DeviceSchemaCheck);
      }
      UnknownOfPair(BaseSchema, devSchema, spec.fields);
      if HasUnknownProperty([BaseSchema, devSchema], spec.fields) {
        return Rejected(UnknownFieldCheck);
      }
      assert Admissible(kind, spec);
      r := BuildAndAppend(kind, spec, driver);
    }

    /** The rest of the `try` block of `add_sensor`, for a configuration
        that passed every check: build the record (which configures the
        hardware), run the validator of its kind, append it when that
        accepts. */
    method BuildAndAppend(kind: Kind, spec: Value, driver: Driver) returns (r: AddOutcome)
      requires Valid() && Admissible(kind, spec)
      modifies this, driver
      ensures Valid()
      ensures r == Admission(old(sensors), spec)
      ensures r.Added? ==> sensors == old(sensors) + [r.record]
      ensures !r.Added? ==> sensors == old(sensors)
      ensures driver.configured == old(driver.configured) + ConfigCalls(kind)
    {
      AdmissibleShape(kind, spec);
      KeysBeyondType(spec.fields);
      var built := BuildSensor(Some(kind), Some(ExternalClass), spec, driver);
      var sensor := built.value.value;
      CandidateWellFormed(kind, spec);
      AdmissionOfAdmissible(sensors, spec, kind);
      var ok := Validate(sensor);
      if !ok {
        return Rejected(ConflictCheck);
      }
      AppendKeepsRegistered(sensors, sensor);
      sensors := sensors + [sensor];
      return Added(sensor);
    }

    /** `read_sensors`: one driver read per registered sensor, in registration
        order. `sample(i, f)` stands for what entry point `f` answers to the
        read made for the sensor at position `i`. The first sensor whose read
        is not callable, or whose list reading has an item `%d` rejects,
        raises, and the readings gathered so far are lost. */
    method ReadSensors(sample: (nat, Callable) -> Reading) returns (r: Result<seq<Reading>>)
      ensures r.Ok? <==> forall i :: 0 <= i < |sensors| ==> ReadError(sensors[i], i, sample).None?
      ensures r.Ok? ==> |r.value| == |sensors|
      ensures r.Ok? ==> forall i :: 0 <= i < |sensors| ==> r.value[i] == sample(i, sensors[i].base.read.f)
      ensures r.Err? ==> exists i :: FirstReadError(sensors, i, sample) && ReadError(sensors[i], i, sample) == Some(r.error)
    {
      var values: seq<Reading> := [];
      var i := 0;
      while i < |sensors|
        invariant 0 <= i <= |sensors|
        invariant forall j :: 0 <= j < i ==> ReadError(sensors[j], j, sample).None?
        invariant |values| == i
        invariant forall j :: 0 <= j < i ==> values[j] == sample(j, sensors[j].base.read.f)
      {
        var read := sensors[i].base.read;
        if !read.Fn? {
          return Err(TypeError("object is not callable"));
        }
        var val := sample(i, read.f);
        values := values + [val];
        if val.Samples? {
          var k := 0;
          while k < |val.items|
            invariant 0 <= k <= |val.items|
            invariant forall m :: 0 <= m < k ==> FormatsAsInteger(val.items[m])
          {
            if !FormatsAsInteger(val.items[k]) {
              return Err(TypeError("%d format: a real number is required"));
            }
            k := k + 1;
          }
        }
        i := i + 1;
      }
      return Ok(values);
    }

    /** `get_sensor_data`: the (alias, reading) pairs in registration order,
        up to the first sensor whose read raises (then `failure` is that
        exception). */
    method GetSensorData(sample: (nat, Callable) -> Reading) returns (pairs: seq<(Value, Reading)>, failure: Option<PyError>)
      ensures |pairs| <= |sensors|
      ensures forall i :: 0 <= i < |pairs| ==>
        sensors[i].base.read.Fn? && pairs[i] == (sensors[i].base.alias, sample(i, sensors[i].base.read.f))
      ensures failure.None? <==> |pairs| == |sensors|
      ensures failure.Some? ==> !sensors[|pairs|].base.read.Fn? && failure.value == TypeError("object is not callable")
    {
      pairs := [];
      var i := 0;
      while i < |sensors|
        invariant 0 <= i <= |sensors|
        invariant |pairs| == i
        invariant forall j :: 0 <= j < i ==>
          sensors[j].base.read.Fn? && pairs[j] == (sensors[j].base.alias, sample(j, sensors[j].base.read.f))
      {
        var read := sensors[i].base.read;
        if !read.Fn? {
          return pairs, Some(TypeError("object is not callable"));
        }
        pairs := pairs + [(sensors[i].base.alias, sample(i, read.f))];
        i := i + 1;
      }
      return pairs, None;
    }

    /** `get_sensor_by_alias`: the first registered sensor whose base alias
        equals the argument; `None` for a miss or a `None` argument. */
    method GetSensorByAlias(alias: Value) returns (r: Option<Sensor>)
      ensures alias.Null? ==> r.None?
      ensures !alias.Null? && r.None? ==> forall i :: 0 <= i < |sensors| ==> sensors[i].base.alias != alias
      ensures r.Some? ==> exists i :: 0 <= i < |sensors| && sensors[i] == r.value && FirstWithAlias(sensors, i, alias)
    {
      if alias.Null? {
        return None;
      }
      var i := 0;
      while i < |sensors|
        invariant 0 <= i <= |sensors|
        invariant forall j :: 0 <= j < i ==> sensors[j].base.alias != alias
      {
        if alias == sensors[i].base.alias {
          return Some(sensors[i]);
        }
        i := i + 1;
      }
      return None;
    }

    /** `get_sensor_by_uuid` as written: it compares with `base.uuid`. */
    method GetSensorByUuid(uuid: Value) returns (r: Result<Option<Sensor>>)
      ensures r == if uuid.Null? then Ok(None) else BaseUuidLookup(sensors, uuid)
    {
      if uuid.Null? {
        return Ok(None);
      }
      var i := 0;
      while i < |sensors|
        invariant 0 <= i <= |sensors|
        invariant BaseUuidLookup(sensors, uuid) == BaseUuidLookup(sensors[i..], uuid)
      {
        var base := sensors[i].base;
        if base.uuid.None? {
          return Err(AttributeError("uuid"));
        }
        if uuid == base.uuid.value {
          return Ok(Some(sensors[i]));
        }
        assert sensors[i..][1..] == sensors[i + 1..];
        i := i + 1;
      }
      return Ok(None);
    }

    /** The corrected lookup: the first registered sensor whose device
        `uuid` equals the argument; `None` for a miss or a `None` argument. */
    method FindSensorByUuid(uuid: Value) returns (r: Option<Sensor>)
      ensures r == if uuid.Null? then None else DevUuidLookup(sensors, uuid)
      ensures r.Some? ==> exists i :: FirstWithUuid(sensors, i, uuid) && sensors[i] == r.value
      ensures !uuid.Null? && r.None? ==> forall i :: 0 <= i < |sensors| ==> !HasDevUuid(sensors[i], uuid)
    {
      if !uuid.Null? {
        DevUuidLookupFirst(sensors, uuid);
      }
      if uuid.Null? {
        return None;
      }
      var i := 0;
      while i < |sensors|
        invariant 0 <= i <= |sensors|
        invariant DevUuidLookup(sensors, uuid) == DevUuidLookup(sensors[i..], uuid)
      {
        if "uuid" in sensors[i].dev && sensors[i].dev["uuid"] == uuid {
          return Some(sensors[i]);
        }
        assert sensors[i..][1..] == sensors[i + 1..];
        i := i + 1;
      }
      return None;
    }
  }
}
