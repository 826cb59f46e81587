/**
 The exact mapping between Arrow types and the protocol's field types
 (crates/loadsmith-arrow/src/schema.rs). Types without parameters are kept
 apart from those with parameters; names are byte strings.
 */
module Schema {
  import opened Wrappers
  import opened Fnv

  datatype TimeUnit = Second | Millisecond | Microsecond | Nanosecond
  datatype IntervalUnit = YearMonth | DayTime | MonthDayNano
  datatype Width = W32 | W64 | W128 | W256

  // ----- Arrow -----------------------------------------------------------------

  datatype ArrowPlain =
    | ANull | ABoolean | AInt8 | AInt16 | AInt32 | AInt64 | AUInt8 | AUInt16 | AUInt32 | AUInt64
    | AFloat16 | AFloat32 | AFloat64 | AUtf8 | ALargeUtf8 | AUtf8View
    | ABinary | ALargeBinary | ABinaryView | ADate32 | ADate64

  /** The Arrow types outside the protocol's vocabulary. */
  datatype Outside = AUnion | ARunEndEncoded | AListView | ALargeListView

  datatype DataType =
    | APlain(plain: ArrowPlain)
    | ADecimal(width: Width, precision: int, scale: int)
    | AFixedSizeBinary(byteWidth: int)
    | ATime32(unit: TimeUnit)
    | ATime64(unit: TimeUnit)
    | ATimestamp(unit: TimeUnit, zone: Option<Bytes>)
    | ADuration(unit: TimeUnit)
    | AInterval(layout: IntervalUnit)
    | AList(item: ArrowField)
    | ALargeList(item: ArrowField)
    | AFixedSizeList(item: ArrowField, size: int)
    | AStruct(fields: seq<ArrowField>)
    | AMap(entries: ArrowField, sorted: bool)
    | ADictionary(index: DataType, value: DataType)
    | AOutside(outside: Outside)

  datatype ArrowField = ArrowField(name: Bytes, dataType: DataType, nullable: bool)

  // ----- the protocol ------------------------------------------------------------

  datatype Plain =
    | Null | Bool | Int8 | Int16 | Int32 | Int64 | UInt8 | UInt16 | UInt32 | UInt64
    | Float16 | Float32 | Float64 | Utf8 | LargeUtf8 | Utf8View
    | Binary | LargeBinary | BinaryView | Date32 | Date64

  datatype FieldType =
    | PlainType(plain: Plain)
    | Decimal(width: Width, precision: int, scale: int)
    | FixedSizeBinary(byteWidth: int)
    | Time32(unit: TimeUnit)
    | Time64(unit: TimeUnit)
    | Timestamp(unit: TimeUnit, zone: Option<Bytes>)
    | Duration(unit: TimeUnit)
    | Interval(layout: IntervalUnit)
    | List(item: Field)
    | LargeList(item: Field)
    | FixedSizeList(item: Field, size: int)
    | Struct(fields: seq<Field>)
    | Map(key: Field, value: Field, keysSorted: bool)
    | Dictionary(index: FieldType, valueType: FieldType)
    | Unknown(name: Bytes)

  datatype Field = Field(name: Bytes, fieldType: FieldType, nullable: bool)

  // ----- Arrow to protocol: total -------------------------------------------------

  function PlainFromArrow(p: ArrowPlain): Plain {
    match p
    case ANull => Null
    case ABoolean => Bool
    case AInt8 => Int8
    case AInt16 => Int16
    case AInt32 => Int32
    case AInt64 => Int64
    case AUInt8 => UInt8
    case AUInt16 => UInt16
    case AUInt32 => UInt32
    case AUInt64 => UInt64
    case AFloat16 => Float16
    case AFloat32 => Float32
    case AFloat64 => Float64
    case AUtf8 => Utf8
    case ALargeUtf8 => LargeUtf8
    case AUtf8View => Utf8View
    case ABinary => Binary
    case ALargeBinary => LargeBinary
    case ABinaryView => BinaryView
    case ADate32 => Date32
    case ADate64 => Date64
  }

  function OutsideName(o: Outside): Bytes {
    match o
    case AUnion => "union"
    case ARunEndEncoded => "run_end_encoded"
    case AListView => "list_view"
    case ALargeListView => "large_list_view"
  }

  function ProtocolField(f: ArrowField): Field
    decreases f
  {
    Field(f.name, ProtocolType(f.dataType), f.nullable)
  }

  function ProtocolFields(fs: seq<ArrowField>): (r: seq<Field>)
    ensures |r| == |fs|
    decreases fs
  {
    if fs == [] then [] else [ProtocolField(fs[0])] + ProtocolFields(fs[1..])
  }

  function ProtocolType(t: DataType): FieldType
    decreases t
  {
    match t
    case APlain(p) => PlainType(PlainFromArrow(p))
    case ADecimal(w, p, s) => Decimal(w, p, s)
    case AFixedSizeBinary(w) => FixedSizeBinary(w)
    case ATime32(u) => Time32(u)
    case ATime64(u) => Time64(u)
    case ATimestamp(u, zone) => Timestamp(u, zone)
    case ADuration(u) => Duration(u)
    case AInterval(l) => Interval(l)
    case AList(item) => List(ProtocolField(item))
    case ALargeList(item) => LargeList(ProtocolField(item))
    case AFixedSizeList(item, size) => FixedSizeList(ProtocolField(item), size)
    case AStruct(fields) => Struct(ProtocolFields(fields))
    case AMap(entries, sorted) =>
      if entries.dataType.AStruct? && |entries.dataType.fields| == 2
      then Map(ProtocolField(entries.dataType.fields[0]), ProtocolField(entries.dataType.fields[1]), sorted)
      else Unknown("map")
    case ADictionary(index, value) => Dictionary(ProtocolType(index), ProtocolType(value))
    case AOutside(o) => Unknown(OutsideName(o))
  }

  // ----- protocol to Arrow: none for an unknown type --------------------------------

  function PlainToArrow(p: Plain): ArrowPlain {
    match p
    case Null => ANull
    case Bool => ABoolean
    case Int8 => AInt8
    case Int16 => AInt16
    case Int32 => AInt32
    case Int64 => AInt64
    case UInt8 => AUInt8
    case UInt16 => AUInt16
    case UInt32 => AUInt32
    case UInt64 => AUInt64
    case Float16 => AFloat16
    case Float32 => AFloat32
    case Float64 => AFloat64
    case Utf8 => AUtf8
    case LargeUtf8 => ALargeUtf8
    case Utf8View => AUtf8View
    case Binary => ABinary
    case LargeBinary => ALargeBinary
    case BinaryView => ABinaryView
    case Date32 => ADate32
    case Date64 => ADate64
  }

  function ArrowOfField(f: Field): Option<ArrowField>
    decreases f
  {
    match ArrowType(f.fieldType)
    case None => None
    case Some(t) => Some(ArrowField(f.name, t, f.nullable))
  }

  function ArrowOfFields(fs: seq<Field>): (r: Option<seq<ArrowField>>)
    ensures r.Some? ==> |r.value| == |fs|
    decreases fs
  {
    if fs == [] then Some([])
    else
      match (ArrowOfField(fs[0]), ArrowOfFields(fs[1..]))
      case (Some(f), Some(rest)) => Some([f] + rest)
      case _ => None
  }

  function ArrowType(t: FieldType): Option<DataType>
    decreases t
  {
    match t
    case PlainType(p) => Some(APlain(PlainToArrow(p)))
    case Decimal(w, p, s) => Some(ADecimal(w, p, s))
    case FixedSizeBinary(w) => Some(AFixedSizeBinary(w))
    case Time32(u) => Some(ATime32(u))
    case Time64(u) => Some(ATime64(u))
    case Timestamp(u, zone) => Some(ATimestamp(u, zone))
    case Duration(u) => Some(ADuration(u))
    case Interval(l) => Some(AInterval(l))
    case List(item) => (match ArrowOfField(item) case None => None case Some(f) => Some(AList(f)))
    case LargeList(item) => (match ArrowOfField(item) case None => None case Some(f) => Some(ALargeList(f)))
    case FixedSizeList(item, size) =>
      (match ArrowOfField(item) case None => None case Some(f) => Some(AFixedSizeList(f, size)))
    case Struct(fields) => (match ArrowOfFields(fields) case None => None case Some(fs) => Some(AStruct(fs)))
    case Map(key, value, sorted) =>
      (match (ArrowOfField(key), ArrowOfField(value))
       case (Some(k), Some(v)) => Some(AMap(ArrowField("entries", AStruct([k, v]), false), sorted))
       case _ => None)
    case Dictionary(index, value) =>
      (match (ArrowType(index), ArrowType(value))
       case (Some(i), Some(v)) => Some(ADictionary(i, v))
       case _ => None)
    case Unknown(_) => None
  }

  // ----- round trips --------------------------------------------------------------

  /** No unknown type inside. */
  predicate KnownType(t: FieldType)
    decreases t
  {
    match t
    case List(item) => KnownType(item.fieldType)
    case LargeList(item) => KnownType(item.fieldType)
    case FixedSizeList(item, _) => KnownType(item.fieldType)
    case Struct(fields) => Known(fields)
    case Map(key, value, _) => KnownType(key.fieldType) && KnownType(value.fieldType)
    case Dictionary(index, value) => KnownType(index) && KnownType(value)
    case Unknown(_) => false
    case _ => true
  }

  predicate Known(fs: seq<Field>)
    decreases fs
  {
    fs == [] || (KnownType(fs[0].fieldType) && Known(fs[1..]))
  }

  /** Inside the vocabulary, and every map's entries are the one struct the
      protocol implies: named `entries`, not nullable, of a key and a value. */
  predicate CanonicalType(t: DataType)
    decreases t
  {
    match t
    case AList(item) => CanonicalType(item.dataType)
    case ALargeList(item) => CanonicalType(item.dataType)
    case AFixedSizeList(item, _) => CanonicalType(item.dataType)
    case AStruct(fields) => Canonical(fields)
    case AMap(entries, _) =>
      && entries.name == "entries" && !entries.nullable
      && entries.dataType.AStruct? && |entries.dataType.fields| == 2 && CanonicalType(entries.dataType)
    case ADictionary(index, value) => CanonicalType(index) && CanonicalType(value)
    case AOutside(_) => false
    case _ => true
  }

  predicate Canonical(fs: seq<ArrowField>)
    decreases fs
  {
    fs == [] || (CanonicalType(fs[0].dataType) && Canonical(fs[1..]))
  }

  lemma PlainRoundTrip(p: Plain)
    ensures PlainFromArrow(PlainToArrow(p)) == p
  {
    match p { case _ => }
  }

  lemma ArrowPlainRoundTrip(a: ArrowPlain)
    ensures PlainToArrow(PlainFromArrow(a)) == a
  {
    match a { case _ => }
  }

  /** Protocol to Arrow and back is the identity, on every known type; an
      unknown one has no Arrow equivalent. */
  lemma {:induction false} ProtocolRoundTrip(t: FieldType)
    ensures ArrowType(t).Some? <==> KnownType(t)
    ensures ArrowType(t).Some? ==> ProtocolType(ArrowType(t).value) == t && CanonicalType(ArrowType(t).value)
    decreases t, 1
  {
    hide PlainToArrow, PlainFromArrow;
    match t {
      case List(item) => ProtocolRoundTrip(item.fieldType);
      case LargeList(item) => ProtocolRoundTrip(item.fieldType);
      case FixedSizeList(item, _) => ProtocolRoundTrip(item.fieldType);
      case Struct(fields) => FieldsRoundTrip(fields);
      case Map(_, _, _) => MapRoundTrip(t);
      case Dictionary(index, value) =>
        ProtocolRoundTrip(index);
        ProtocolRoundTrip(value);
      case PlainType(p) => PlainRoundTrip(p);
      case _ =>
    }
  }

  lemma {:induction false} MapRoundTrip(t: FieldType)
    requires t.Map?
    ensures ArrowType(t).Some? <==> KnownType(t)
    ensures ArrowType(t).Some? ==> ProtocolType(ArrowType(t).value) == t && CanonicalType(ArrowType(t).value)
    decreases t, 0
  {
    ProtocolRoundTrip(t.key.fieldType);
    ProtocolRoundTrip(t.value.fieldType);
    if KnownType(t) {
      CanonicalPair([ArrowOfField(t.key).value, ArrowOfField(t.value).value]);
    }
  }

  lemma {:induction false} FieldsRoundTrip(fs: seq<Field>)
    ensures ArrowOfFields(fs).Some? <==> Known(fs)
    ensures ArrowOfFields(fs).Some? ==> ProtocolFields(ArrowOfFields(fs).value) == fs && Canonical(ArrowOfFields(fs).value)
    decreases fs, 1
  {
    if fs != [] {
      ProtocolRoundTrip(fs[0].fieldType);
      FieldsRoundTrip(fs[1..]);
      if Known(fs) {
        var rest := ArrowOfFields(fs[1..]).value;
        assert ([ArrowOfField(fs[0]).value] + rest)[1..] == rest;
      }
    }
  }

  lemma CanonicalPair(kv: seq<ArrowField>)
    requires |kv| == 2
    ensures kv == [kv[0], kv[1]]
    ensures Canonical(kv) <==> CanonicalType(kv[0].dataType) && CanonicalType(kv[1].dataType)
  {
    assert kv[1..][1..] == [];
    assert Canonical(kv[1..][1..]);
    assert Canonical(kv[1..]) <==> CanonicalType(kv[1].dataType);
  }

  /** Arrow to protocol and back is the identity exactly on canonical types. */
  lemma {:induction false} ArrowRoundTrip(t: DataType)
    ensures ArrowType(ProtocolType(t)) == Some(t) <==> CanonicalType(t)
    decreases t, 1
  {
    hide PlainToArrow, PlainFromArrow;
    match t {
      case AList(item) => ArrowRoundTrip(item.dataType);
      case ALargeList(item) => ArrowRoundTrip(item.dataType);
      case AFixedSizeList(item, _) => ArrowRoundTrip(item.dataType);
      case AStruct(fields) => ArrowFieldsRoundTrip(fields);
      case AMap(_, _) => ArrowMapRoundTrip(t);
      case ADictionary(index, value) =>
        ArrowRoundTrip(index);
        ArrowRoundTrip(value);
      case APlain(p) => ArrowPlainRoundTrip(p);
      case _ =>
    }
  }

  lemma {:induction false} ArrowMapRoundTrip(t: DataType)
    requires t.AMap?
    ensures ArrowType(ProtocolType(t)) == Some(t) <==> CanonicalType(t)
    decreases t, 0
  {
    var inner := t.entries.dataType;
    if inner.AStruct? && |inner.fields| == 2 {
      ArrowRoundTrip(inner.fields[0].dataType);
      ArrowRoundTrip(inner.fields[1].dataType);
      CanonicalPair(inner.fields);
    }
  }

  lemma {:induction false} ArrowFieldsRoundTrip(fs: seq<ArrowField>)
    ensures ArrowOfFields(ProtocolFields(fs)) == Some(fs) <==> Canonical(fs)
    decreases fs, 1
  {
    if fs != [] {
      ArrowRoundTrip(fs[0].dataType);
      ArrowFieldsRoundTrip(fs[1..]);
      var p := ProtocolFields(fs);
      assert p[1..] == ProtocolFields(fs[1..]);
      assert fs == [fs[0]] + fs[1..];
      if ArrowOfFields(p) == Some(fs) {
        var rest := ArrowOfFields(p[1..]).value;
        assert ([ArrowOfField(p[0]).value] + rest)[1..] == rest;
      }
    }
  }

  // ----- what a type is, on either side ---------------------------------------------

  /** How the values of a column without parameters are laid out. */
  datatype Offsets = Small | Large | View
  datatype Layout =
    | Nothing | Truth | Integer(signed: bool, bits: nat) | Floating(bits: nat)
    | Characters(offsets: Offsets) | Octets(offsets: Offsets) | Days(bits: nat)

  function ArrowLayout(a: ArrowPlain): Layout {
    match a
    case ANull => Nothing
    case ABoolean => Truth
    case AInt8 => Integer(true, 8)
    case AInt16 => Integer(true, 16)
    case AInt32 => Integer(true, 32)
    case AInt64 => Integer(true, 64)
    case AUInt8 => Integer(false, 8)
    case AUInt16 => Integer(false, 16)
    case AUInt32 => Integer(false, 32)
    case AUInt64 => Integer(false, 64)
    case AFloat16 => Floating(16)
    case AFloat32 => Floating(32)
    case AFloat64 => Floating(64)
    case AUtf8 => Characters(Small)
    case ALargeUtf8 => Characters(Large)
    case AUtf8View => Characters(View)
    case ABinary => Octets(Small)
    case ALargeBinary => Octets(Large)
    case ABinaryView => Octets(View)
    case ADate32 => Days(32)
    case ADate64 => Days(64)
  }

  function PlainLayout(p: Plain): Layout {
    match p
    case Null => Nothing
    case Bool => Truth
    case Int8 => Integer(true, 8)
    case Int16 => Integer(true, 16)
    case Int32 => Integer(true, 32)
    case Int64 => Integer(true, 64)
    case UInt8 => Integer(false, 8)
    case UInt16 => Integer(false, 16)
    case UInt32 => Integer(false, 32)
    case UInt64 => Integer(false, 64)
    case Float16 => Floating(16)
    case Float32 => Floating(32)
    case Float64 => Floating(64)
    case Utf8 => Characters(Small)
    case LargeUtf8 => Characters(Large)
    case Utf8View => Characters(View)
    case Binary => Octets(Small)
    case LargeBinary => Octets(Large)
    case BinaryView => Octets(View)
    case Date32 => Days(32)
    case Date64 => Days(64)
  }

  lemma LayoutIsKeptIff(a: ArrowPlain, p: Plain)
    ensures ArrowLayout(a) == PlainLayout(p) <==> p == PlainFromArrow(a)
  {
  }

  /** An Arrow type and a protocol type that say the same: the same layout or
      parameters, and the same children under the same names. A map's protocol
      type names the key and the value its entries hold, in that order. */
  predicate SameType(t: DataType, p: FieldType)
    decreases t
  {
    match t
    case APlain(a) => p.PlainType? && ArrowLayout(a) == PlainLayout(p.plain)
    case ADecimal(w, n, s) => p.Decimal? && p.width == w && p.precision == n && p.scale == s
    case AFixedSizeBinary(n) => p.FixedSizeBinary? && p.byteWidth == n
    case ATime32(u) => p.Time32? && p.unit == u
    case ATime64(u) => p.Time64? && p.unit == u
    case ATimestamp(u, zone) => p.Timestamp? && p.unit == u && p.zone == zone
    case ADuration(u) => p.Duration? && p.unit == u
    case AInterval(l) => p.Interval? && p.layout == l
    case AList(item) => p.List? && SameField(item, p.item)
    case ALargeList(item) => p.LargeList? && SameField(item, p.item)
    case AFixedSizeList(item, size) => p.FixedSizeList? && p.size == size && SameField(item, p.item)
    case AStruct(fields) => p.Struct? && SameFields(fields, p.fields)
    case AMap(entries, sorted) =>
      && p.Map? && p.keysSorted == sorted && entries.dataType.AStruct? && |entries.dataType.fields| == 2
      && SameField(entries.dataType.fields[0], p.key) && SameField(entries.dataType.fields[1], p.value)
    case ADictionary(index, value) => p.Dictionary? && SameType(index, p.index) && SameType(value, p.valueType)
    case AOutside(_) => false
  }

  predicate SameField(f: ArrowField, g: Field)
    decreases f
  {
    f.name == g.name && f.nullable == g.nullable && SameType(f.dataType, g.fieldType)
  }

  predicate SameFields(fs: seq<ArrowField>, gs: seq<Field>)
    decreases fs
  {
    |fs| == |gs| && (fs != [] ==> SameField(fs[0], gs[0]) && SameFields(fs[1..], gs[1..]))
  }

  /** The mapping is the one that keeps what a type says: a protocol type says
      the same as an Arrow type exactly when it is the one mapped to, and known. */
  lemma {:induction false} MappedIffSame(t: DataType, p: FieldType)
    ensures SameType(t, p) <==> p == ProtocolType(t) && KnownType(p)
    decreases t
  {
    hide PlainFromArrow, ArrowLayout, PlainLayout, SameField, SameFields, ProtocolField, ProtocolFields, Known;
    match t {
      case APlain(a) => if p.PlainType? { LayoutIsKeptIff(a, p.plain); }
      case AList(item) => if p.List? { FieldMappedIffSame(item, p.item); }
      case ALargeList(item) => if p.LargeList? { FieldMappedIffSame(item, p.item); }
      case AFixedSizeList(item, _) => if p.FixedSizeList? { FieldMappedIffSame(item, p.item); }
      case AStruct(fields) => if p.Struct? { FieldsMappedIffSame(fields, p.fields); }
      case AMap(entries, _) =>
        if p.Map? && entries.dataType.AStruct? && |entries.dataType.fields| == 2 {
          FieldMappedIffSame(entries.dataType.fields[0], p.key);
          FieldMappedIffSame(entries.dataType.fields[1], p.value);
        }
      case ADictionary(index, value) =>
        if p.Dictionary? {
          MappedIffSame(index, p.index);
          MappedIffSame(value, p.valueType);
        }
      case _ =>
    }
  }

  lemma {:induction false} FieldMappedIffSame(f: ArrowField, g: Field)
    ensures SameField(f, g) <==> g == ProtocolField(f) && KnownType(g.fieldType)
    decreases f
  {
    MappedIffSame(f.dataType, g.fieldType);
  }

  lemma {:induction false} FieldsMappedIffSame(fs: seq<ArrowField>, gs: seq<Field>)
    ensures SameFields(fs, gs) <==> gs == ProtocolFields(fs) && Known(gs)
    decreases fs
  {
    if fs != [] && |gs| == |fs| {
      FieldMappedIffSame(fs[0], gs[0]);
      FieldsMappedIffSame(fs[1..], gs[1..]);
      assert gs == [gs[0]] + gs[1..];
      assert ProtocolFields(fs)[1..] == ProtocolFields(fs[1..]);
    }
  }
}
