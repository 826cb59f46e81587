/**
 The schema fingerprint (crates/loadsmith-core/src/state.rs,
 `schema_fingerprint`): a schema as a sequence of tokens, and a decoder that
 reads them back, so that no two schemas share a stream, as long as every map
 is one of pairs.
 */
module Fingerprint {
  import opened Wrappers
  import opened Fnv
  import opened Schema
  import opened Text

  // ----- names -----------------------------------------------------------------

  /** What a type's first token tells. */
  datatype Head =
    | HPlain(plain: Plain) | HDecimal(width: Width)
    | HFixedSizeBinary | HTime32 | HTime64 | HTimestamp | HDuration | HInterval
    | HList | HLargeList | HFixedSizeList | HStruct | HMap | HDictionary

  function PlainName(p: Plain): Bytes {
    match p
    case Null => "null"
    case Bool => "bool"
    case Int8 => "int8"
    case Int16 => "int16"
    case Int32 => "int32"
    case Int64 => "int64"
    case UInt8 => "uint8"
    case UInt16 => "uint16"
    case UInt32 => "uint32"
    case UInt64 => "uint64"
    case Float16 => "float16"
    case Float32 => "float32"
    case Float64 => "float64"
    case Utf8 => "utf8"
    case LargeUtf8 => "large_utf8"
    case Utf8View => "utf8_view"
    case Binary => "binary"
    case LargeBinary => "large_binary"
    case BinaryView => "binary_view"
    case Date32 => "date32"
    case Date64 => "date64"
  }

  function HeadName(h: Head): Bytes {
    match h
    case HPlain(p) => PlainName(p)
    case HDecimal(W32) => "decimal32"
    case HDecimal(W64) => "decimal64"
    case HDecimal(W128) => "decimal128"
    case HDecimal(W256) => "decimal256"
    case HFixedSizeBinary => "fixed_size_binary"
    case HTime32 => "time32"
    case HTime64 => "time64"
    case HTimestamp => "timestamp"
    case HDuration => "duration"
    case HInterval => "interval"
    case HList => "list"
    case HLargeList => "large_list"
    case HFixedSizeList => "fixed_size_list"
    case HStruct => "struct"
    case HMap => "map"
    case HDictionary => "dictionary"
  }

  function PlainNamed(name: Bytes): Option<Plain> {
    if name == "null" then Some(Null) else if name == "bool" then Some(Bool)
    else if name == "int8" then Some(Int8) else if name == "int16" then Some(Int16)
    else if name == "int32" then Some(Int32) else if name == "int64" then Some(Int64)
    else if name == "uint8" then Some(UInt8) else if name == "uint16" then Some(UInt16)
    else if name == "uint32" then Some(UInt32) else if name == "uint64" then Some(UInt64)
    else if name == "float16" then Some(Float16) else if name == "float32" then Some(Float32)
    else if name == "float64" then Some(Float64) else if name == "utf8" then Some(Utf8)
    else if name == "large_utf8" then Some(LargeUtf8) else if name == "utf8_view" then Some(Utf8View)
    else if name == "binary" then Some(Binary) else if name == "large_binary" then Some(LargeBinary)
    else if name == "binary_view" then Some(BinaryView) else if name == "date32" then Some(Date32)
    else if name == "date64" then Some(Date64) else None
  }

  function HeadNamed(name: Bytes): Option<Head> {
    if PlainNamed(name).Some? then Some(HPlain(PlainNamed(name).value)) else HeadWithParameters(name)
  }

  function HeadWithParameters(name: Bytes): Option<Head> {
    if name == "decimal32" then Some(HDecimal(W32)) else if name == "decimal64" then Some(HDecimal(W64))
    else if name == "decimal128" then Some(HDecimal(W128)) else if name == "decimal256" then Some(HDecimal(W256))
    else if name == "fixed_size_binary" then Some(HFixedSizeBinary)
    else if name == "time32" then Some(HTime32) else if name == "time64" then Some(HTime64)
    else if name == "timestamp" then Some(HTimestamp) else if name == "duration" then Some(HDuration)
    else if name == "interval" then Some(HInterval)
    else if name == "list" then Some(HList) else if name == "large_list" then Some(HLargeList)
    else if name == "fixed_size_list" then Some(HFixedSizeList) else if name == "struct" then Some(HStruct)
    else if name == "map" then Some(HMap) else if name == "dictionary" then Some(HDictionary) else None
  }

  function WithOffsets(name: Bytes, o: Offsets): Bytes {
    match o
    case Small => name
    case Large => "large_" + name
    case View => name + "_view"
  }

  /** A name made of what a type holds and its width. */
  function NameOf(l: Layout): Bytes {
    match l
    case Nothing => "null"
    case Truth => "bool"
    case Integer(signed, bits) => (if signed then "int" else "uint") + Digits(bits)
    case Floating(bits) => "float" + Digits(bits)
    case Characters(o) => WithOffsets("utf8", o)
    case Octets(o) => WithOffsets("binary", o)
    case Days(bits) => "date" + Digits(bits)
  }

  lemma WidthsInDecimal()
    ensures Digits(8) == "8" && Digits(16) == "16" && Digits(32) == "32" && Digits(64) == "64"
  {
  }

  /** Each plain type is named after its layout. */
  lemma PlainNameTells(p: Plain)
    ensures PlainName(p) == NameOf(PlainLayout(p))
  {
    WidthsInDecimal();
    hide Digits;
    match p { case _ => }
  }

  lemma PlainNameIsRead(p: Plain)
    ensures PlainNamed(PlainName(p)) == Some(p)
  {
    match p { case _ => }
  }

  lemma NoPlainName(h: Head)
    requires !h.HPlain?
    ensures PlainNamed(HeadName(h)).None?
  {
    hide PlainName, HeadWithParameters;
    match h {
      case HDecimal(w) => match w { case _ => }
      case _ =>
    }
  }

  lemma ParametersNameIsRead(h: Head)
    requires !h.HPlain?
    ensures HeadWithParameters(HeadName(h)) == Some(h)
  {
    hide PlainName, PlainNamed;
    match h {
      case HDecimal(w) => match w { case _ => }
      case _ =>
    }
  }

  /** Every known type has its own name. */
  lemma HeadNameIsRead(h: Head)
    ensures HeadNamed(HeadName(h)) == Some(h)
  {
    hide PlainNamed, HeadWithParameters;
    if h.HPlain? {
      PlainNameIsRead(h.plain);
    } else {
      NoPlainName(h);
      ParametersNameIsRead(h);
    }
  }

  /** The names of the types outside the vocabulary. */
  predicate OutsideNamed(name: Bytes) { exists o :: name == OutsideName(o) }

  /** They are no known type's, unlike that of a map whose entries are no pair. */
  lemma OutsideIsNoHead(o: Outside)
    ensures HeadNamed(OutsideName(o)).None?
  {
    match o { case _ => }
  }

  /** No name is ambiguous: an unknown type inside is one of the types outside. */
  predicate Legible(t: FieldType)
    decreases t
  {
    match t
    case List(item) => Legible(item.fieldType)
    case LargeList(item) => Legible(item.fieldType)
    case FixedSizeList(item, _) => Legible(item.fieldType)
    case Struct(fields) => LegibleFields(fields)
    case Map(key, value, _) => Legible(key.fieldType) && Legible(value.fieldType)
    case Dictionary(index, value) => Legible(index) && Legible(value)
    case Unknown(name) => OutsideNamed(name)
    case _ => true
  }

  predicate LegibleFields(fs: seq<Field>)
    decreases fs
  {
    fs == [] || (Legible(fs[0].fieldType) && LegibleFields(fs[1..]))
  }

  /** Every map's entries are a struct of two fields, as the Arrow format has it. */
  predicate PairedType(t: DataType)
    decreases t
  {
    match t
    case AList(item) => PairedType(item.dataType)
    case ALargeList(item) => PairedType(item.dataType)
    case AFixedSizeList(item, _) => PairedType(item.dataType)
    case AStruct(fields) => Paired(fields)
    case AMap(entries, _) => entries.dataType.AStruct? && |entries.dataType.fields| == 2 && PairedType(entries.dataType)
    case ADictionary(index, value) => PairedType(index) && PairedType(value)
    case _ => true
  }

  predicate Paired(fs: seq<ArrowField>)
    decreases fs
  {
    fs == [] || (PairedType(fs[0].dataType) && Paired(fs[1..]))
  }

  lemma MapIsNotOutside()
    ensures !OutsideNamed("map")
  {
  }

  /** Exactly such types arrive legible. */
  lemma {:induction false} PairedIsLegible(t: DataType)
    ensures PairedType(t) <==> Legible(ProtocolType(t))
    decreases t, 1
  {
    hide PlainFromArrow, OutsideNamed, OutsideName;
    match t {
      case AList(item) => PairedIsLegible(item.dataType);
      case ALargeList(item) => PairedIsLegible(item.dataType);
      case AFixedSizeList(item, _) => PairedIsLegible(item.dataType);
      case AStruct(fields) => PairedFieldsAreLegible(fields);
      case AMap(_, _) => PairedMapIsLegible(t);
      case ADictionary(index, value) =>
        PairedIsLegible(index);
        PairedIsLegible(value);
      case AOutside(o) => assert OutsideNamed(OutsideName(o)) by { OutsideIsNamed(o); }
      case _ =>
    }
  }

  lemma OutsideIsNamed(o: Outside)
    ensures OutsideNamed(OutsideName(o))
  {
  }

  lemma {:induction false} PairedMapIsLegible(t: DataType)
    requires t.AMap?
    ensures PairedType(t) <==> Legible(ProtocolType(t))
    decreases t, 0
  {
    MapIsNotOutside();
    var inner := t.entries.dataType;
    if inner.AStruct? && |inner.fields| == 2 {
      var kv := inner.fields;
      PairedIsLegible(kv[0].dataType);
      PairedIsLegible(kv[1].dataType);
      BothArePaired(kv);
    }
  }

  lemma BothArePaired(kv: seq<ArrowField>)
    requires |kv| == 2
    ensures Paired(kv) <==> PairedType(kv[0].dataType) && PairedType(kv[1].dataType)
  {
    assert kv[1..][1..] == [];
    assert Paired(kv[1..][1..]);
    assert Paired(kv[1..]) <==> PairedType(kv[1].dataType);
  }

  lemma {:induction false} PairedFieldsAreLegible(fs: seq<ArrowField>)
    ensures Paired(fs) <==> LegibleFields(ProtocolFields(fs))
    decreases fs, 1
  {
    if fs != [] {
      PairedIsLegible(fs[0].dataType);
      PairedFieldsAreLegible(fs[1..]);
      assert ProtocolFields(fs)[1..] == ProtocolFields(fs[1..]);
    }
  }

  function UnitName(u: TimeUnit): Bytes {
    match u
    case Second => "s"
    case Millisecond => "ms"
    case Microsecond => "us"
    case Nanosecond => "ns"
  }

  function UnitNamed(name: Bytes): Option<TimeUnit> {
    if name == "s" then Some(Second) else if name == "ms" then Some(Millisecond)
    else if name == "us" then Some(Microsecond) else if name == "ns" then Some(Nanosecond) else None
  }

  function LayoutName(l: IntervalUnit): Bytes {
    match l
    case YearMonth => "year_month"
    case DayTime => "day_time"
    case MonthDayNano => "month_day_nano"
  }

  function LayoutNamed(name: Bytes): Option<IntervalUnit> {
    if name == "year_month" then Some(YearMonth) else if name == "day_time" then Some(DayTime)
    else if name == "month_day_nano" then Some(MonthDayNano) else None
  }

  /** A time zone as `=<tz>`, or `-` when there is none. */
  function ZoneToken(zone: Option<Bytes>): Bytes { if zone.Some? then "=" + zone.value else "-" }

  function ZoneOf(token: Bytes): Option<Bytes> { if token != [] && token[0] == '=' then Some(token[1..]) else None }

  // ----- numbers in decimal --------------------------------------------------------

  function Number(n: int): Bytes { if n < 0 then "-" + Digits(-n) else Digits(n) }

  function NumberOf(text: Bytes): int { if text != [] && text[0] == '-' then -NatOf(text[1..]) else NatOf(text) }

  lemma NumberIsRead(n: int)
    ensures NumberOf(Number(n)) == n
  {
    if n < 0 {
      assert Number(n)[1..] == Digits(-n);
      DigitsAreRead(-n);
    } else {
      DigitsAreRead(n);
    }
  }

  // ----- the encoding ----------------------------------------------------------------

  function FlagToken(yes: bool, a: Bytes, b: Bytes): Bytes { if yes then a else b }

  function FieldTokens(f: Field): (r: seq<Bytes>)
    ensures |r| >= 3
    decreases f, 0
  {
    [f.name, FlagToken(f.nullable, "nullable", "required")] + TypeTokens(f.fieldType)
  }

  function FieldsTokens(fs: seq<Field>): (r: seq<Bytes>)
    decreases fs, 0
  {
    if fs == [] then [] else FieldTokens(fs[0]) + FieldsTokens(fs[1..])
  }

  /** The type's name, then its parameters in a fixed order. */
  function TypeTokens(t: FieldType): (r: seq<Bytes>)
    ensures |r| >= 1
    decreases t, 0
  {
    match t
    case PlainType(p) => [PlainName(p)]
    case Decimal(w, p, s) => [HeadName(HDecimal(w)), Number(p), Number(s)]
    case FixedSizeBinary(w) => [HeadName(HFixedSizeBinary), Number(w)]
    case Time32(u) => [HeadName(HTime32), UnitName(u)]
    case Time64(u) => [HeadName(HTime64), UnitName(u)]
    case Timestamp(u, zone) => [HeadName(HTimestamp), UnitName(u), ZoneToken(zone)]
    case Duration(u) => [HeadName(HDuration), UnitName(u)]
    case Interval(l) => [HeadName(HInterval), LayoutName(l)]
    case List(item) => [HeadName(HList)] + FieldTokens(item)
    case LargeList(item) => [HeadName(HLargeList)] + FieldTokens(item)
    case FixedSizeList(item, size) => [HeadName(HFixedSizeList)] + FieldTokens(item) + [Number(size)]
    case Struct(fields) => [HeadName(HStruct), Number(|fields|)] + FieldsTokens(fields)
    case Map(key, value, sorted) =>
      [HeadName(HMap)] + FieldTokens(key) + FieldTokens(value) + [FlagToken(sorted, "sorted", "unsorted")]
    case Dictionary(index, value) => [HeadName(HDictionary)] + TypeTokens(index) + TypeTokens(value)
    case Unknown(name) => [name]
  }

  function SchemaTokens(fs: seq<Field>): seq<Bytes> { [Number(|fs|)] + FieldsTokens(fs) }

  // ----- the decoder ------------------------------------------------------------------

  datatype Read<T> = Read(value: T, rest: seq<Bytes>)

  function ReadField(ts: seq<Bytes>): (r: Option<Read<Field>>)
    ensures r.Some? ==> |r.value.rest| < |ts|
    decreases |ts|, 0
  {
    if |ts| < 3 then None
    else
      match ReadType(ts[2..])
      case None => None
      case Some(t) => Some(Read(Field(ts[0], t.value, ts[1] == "nullable"), t.rest))
  }

  function ReadFields(n: nat, ts: seq<Bytes>): (r: Option<Read<seq<Field>>>)
    ensures r.Some? ==> |r.value.rest| <= |ts|
    decreases |ts|, 1
  {
    if n == 0 then Some(Read([], ts))
    else
      match ReadField(ts)
      case None => None
      case Some(f) =>
        match ReadFields(n - 1, f.rest)
        case None => None
        case Some(fs) => Some(Read([f.value] + fs.value, fs.rest))
  }

  function ReadType(ts: seq<Bytes>): (r: Option<Read<FieldType>>)
    ensures r.Some? ==> |r.value.rest| < |ts|
    decreases |ts|, 2
  {
    if ts == [] then None
    else if HeadNamed(ts[0]).None? then (if OutsideNamed(ts[0]) then Some(Read(Unknown(ts[0]), ts[1..])) else None)
    else
      var rest := ts[1..];
      match HeadNamed(ts[0]).value
      case HPlain(p) => Some(Read(PlainType(p), rest))
      case HDecimal(w) => if |rest| < 2 then None else Some(Read(Decimal(w, NumberOf(rest[0]), NumberOf(rest[1])), rest[2..]))
      case HFixedSizeBinary => if rest == [] then None else Some(Read(FixedSizeBinary(NumberOf(rest[0])), rest[1..]))
      case HTime32 => if rest == [] || UnitNamed(rest[0]).None? then None else Some(Read(Time32(UnitNamed(rest[0]).value), rest[1..]))
      case HTime64 => if rest == [] || UnitNamed(rest[0]).None? then None else Some(Read(Time64(UnitNamed(rest[0]).value), rest[1..]))
      case HTimestamp =>
        if |rest| < 2 || UnitNamed(rest[0]).None? then None
        else Some(Read(Timestamp(UnitNamed(rest[0]).value, ZoneOf(rest[1])), rest[2..]))
      case HDuration => if rest == [] || UnitNamed(rest[0]).None? then None else Some(Read(Duration(UnitNamed(rest[0]).value), rest[1..]))
      case HInterval => if rest == [] || LayoutNamed(rest[0]).None? then None else Some(Read(Interval(LayoutNamed(rest[0]).value), rest[1..]))
      case HList => (match ReadField(rest) case None => None case Some(f) => Some(Read(List(f.value), f.rest)))
      case HLargeList => (match ReadField(rest) case None => None case Some(f) => Some(Read(LargeList(f.value), f.rest)))
      case HFixedSizeList =>
        (match ReadField(rest)
         case None => None
         case Some(f) => if f.rest == [] then None else Some(Read(FixedSizeList(f.value, NumberOf(f.rest[0])), f.rest[1..])))
      case HStruct =>
        if rest == [] || NumberOf(rest[0]) < 0 then None
        else (match ReadFields(NumberOf(rest[0]), rest[1..]) case None => None case Some(fs) => Some(Read(Struct(fs.value), fs.rest)))
      case HMap =>
        (match ReadField(rest)
         case None => None
         case Some(k) =>
           match ReadField(k.rest)
           case None => None
           case Some(v) => if v.rest == [] then None else Some(Read(Map(k.value, v.value, v.rest[0] == "sorted"), v.rest[1..])))
      case HDictionary =>
        (match ReadType(rest)
         case None => None
         case Some(i) => (match ReadType(i.rest) case None => None case Some(v) => Some(Read(Dictionary(i.value, v.value), v.rest))))
  }

  // ----- reading back what was written --------------------------------------------------

  lemma {:induction false} FieldIsRead(f: Field, rest: seq<Bytes>)
    requires Legible(f.fieldType)
    ensures ReadField(FieldTokens(f) + rest) == Some(Read(f, rest))
    decreases f, 0
  {
    hide TypeTokens, ReadType;
    TypeIsRead(f.fieldType, rest);
    var body := TypeTokens(f.fieldType) + rest;
    var flag := FlagToken(f.nullable, "nullable", "required");
    assert FieldTokens(f) + rest == [f.name, flag] + body;
    assert ([f.name, flag] + body)[2..] == body;
  }

  lemma {:induction false} FieldsAreRead(fs: seq<Field>, rest: seq<Bytes>)
    requires LegibleFields(fs)
    ensures ReadFields(|fs|, FieldsTokens(fs) + rest) == Some(Read(fs, rest))
    decreases fs, 0
  {
    hide FieldTokens, ReadField;
    if fs == [] {
      assert FieldsTokens(fs) + rest == rest;
    } else {
      var more := FieldsTokens(fs[1..]) + rest;
      FieldIsRead(fs[0], more);
      FieldsAreRead(fs[1..], rest);
      assert FieldsTokens(fs) + rest == FieldTokens(fs[0]) + more;
      FirstFieldIsRead(|fs|, FieldsTokens(fs) + rest, fs[0], more, fs[1..], rest);
      assert [fs[0]] + fs[1..] == fs;
    }
  }

  lemma FirstFieldIsRead(n: nat, ts: seq<Bytes>, f: Field, more: seq<Bytes>, fs: seq<Field>, rest: seq<Bytes>)
    requires n > 0 && ReadField(ts) == Some(Read(f, more)) && ReadFields(n - 1, more) == Some(Read(fs, rest))
    ensures ReadFields(n, ts) == Some(Read([f] + fs, rest))
  {
    hide ReadField;
  }

  /** The first token of an encoded type, before its parameters. */
  lemma HeadIsRead(h: Head, body: seq<Bytes>)
    ensures var ts := [HeadName(h)] + body;
            ts != [] && HeadNamed(ts[0]) == Some(h) && ts[1..] == body
  {
    HeadNameIsRead(h);
  }

  lemma PlainIsRead(p: Plain, rest: seq<Bytes>)
    ensures ReadType(TypeTokens(PlainType(p)) + rest) == Some(Read(PlainType(p), rest))
  {
    hide HeadNamed, PlainName, ReadField, ReadFields;
    PlainNameIsHead(p);
    HeadIsRead(HPlain(p), rest);
  }

  lemma PlainNameIsHead(p: Plain)
    ensures HeadName(HPlain(p)) == PlainName(p)
  {
  }

  lemma OutsideIsRead(name: Bytes, rest: seq<Bytes>)
    requires OutsideNamed(name)
    ensures ReadType(TypeTokens(Unknown(name)) + rest) == Some(Read(Unknown(name), rest))
  {
    hide HeadNamed, OutsideName, ReadField, ReadFields;
    var o :| name == OutsideName(o);
    OutsideIsNoHead(o);
    assert ([name] + rest)[1..] == rest;
  }

  lemma DecimalIsRead(w: Width, p: int, s: int, rest: seq<Bytes>)
    ensures ReadType(TypeTokens(Decimal(w, p, s)) + rest) == Some(Read(Decimal(w, p, s), rest))
  {
    hide HeadNamed, HeadName, Number, NumberOf, ReadField, ReadFields;
    var body := [Number(p), Number(s)] + rest;
    HeadIsRead(HDecimal(w), body);
    assert TypeTokens(Decimal(w, p, s)) + rest == [HeadName(HDecimal(w))] + body;
    NumberIsRead(p);
    NumberIsRead(s);
    assert body[2..] == rest;
  }

  lemma WidthOrLayoutIsRead(t: FieldType, rest: seq<Bytes>)
    requires t.FixedSizeBinary? || t.Interval?
    ensures ReadType(TypeTokens(t) + rest) == Some(Read(t, rest))
  {
    hide HeadNamed, HeadName, Number, NumberOf, LayoutName, LayoutNamed, ReadField, ReadFields;
    var h := if t.Interval? then HInterval else HFixedSizeBinary;
    var body := [if t.Interval? then LayoutName(t.layout) else Number(t.byteWidth)] + rest;
    assert TypeTokens(t) + rest == [HeadName(h)] + body;
    HeadIsRead(h, body);
    assert body[1..] == rest;
    if t.Interval? { LayoutIsRead(t.layout); } else { NumberIsRead(t.byteWidth); }
  }

  lemma TimeIsRead(t: FieldType, rest: seq<Bytes>)
    requires t.Time32? || t.Time64? || t.Duration?
    ensures ReadType(TypeTokens(t) + rest) == Some(Read(t, rest))
  {
    hide HeadNamed, HeadName, UnitName, UnitNamed, ReadField, ReadFields;
    var h := if t.Time32? then HTime32 else if t.Time64? then HTime64 else HDuration;
    var body := [UnitName(t.unit)] + rest;
    assert TypeTokens(t) + rest == [HeadName(h)] + body;
    HeadIsRead(h, body);
    assert body[1..] == rest;
    UnitIsRead(t.unit);
  }

  lemma UnitIsRead(u: TimeUnit)
    ensures UnitNamed(UnitName(u)) == Some(u)
  {
  }

  lemma LayoutIsRead(l: IntervalUnit)
    ensures LayoutNamed(LayoutName(l)) == Some(l)
  {
  }

  lemma TimestampIsRead(u: TimeUnit, zone: Option<Bytes>, rest: seq<Bytes>)
    ensures ReadType(TypeTokens(Timestamp(u, zone)) + rest) == Some(Read(Timestamp(u, zone), rest))
  {
    hide HeadNamed, HeadName, UnitName, UnitNamed, ZoneToken, ZoneOf, ReadField, ReadFields;
    var body := [UnitName(u), ZoneToken(zone)] + rest;
    HeadIsRead(HTimestamp, body);
    assert TypeTokens(Timestamp(u, zone)) + rest == [HeadName(HTimestamp)] + body;
    assert body[2..] == rest;
    UnitIsRead(u);
    ZoneIsRead(zone);
  }

  lemma ZoneIsRead(zone: Option<Bytes>)
    ensures ZoneOf(ZoneToken(zone)) == zone
  {
    if zone.Some? {
      assert ZoneToken(zone)[1..] == zone.value;
    }
  }

  lemma {:induction false} ListIsRead(item: Field, large: bool, rest: seq<Bytes>)
    requires Legible(item.fieldType)
    ensures var t := if large then LargeList(item) else List(item); ReadType(TypeTokens(t) + rest) == Some(Read(t, rest))
    decreases item, 1
  {
    hide HeadNamed, HeadName, FieldTokens, ReadField, ReadFields;
    var t, h := if large then LargeList(item) else List(item), if large then HLargeList else HList;
    var body := FieldTokens(item) + rest;
    HeadIsRead(h, body);
    assert TypeTokens(t) + rest == [HeadName(h)] + body;
    FieldIsRead(item, rest);
  }

  lemma {:induction false} FixedSizeListIsRead(item: Field, size: int, rest: seq<Bytes>)
    requires Legible(item.fieldType)
    ensures ReadType(TypeTokens(FixedSizeList(item, size)) + rest) == Some(Read(FixedSizeList(item, size), rest))
    decreases item, 1
  {
    hide HeadNamed, HeadName, FieldTokens, ReadField, ReadFields, Number, NumberOf;
    var more := [Number(size)] + rest;
    var body := FieldTokens(item) + more;
    HeadIsRead(HFixedSizeList, body);
    assert TypeTokens(FixedSizeList(item, size)) + rest == [HeadName(HFixedSizeList)] + body;
    FieldIsRead(item, more);
    NumberIsRead(size);
    assert more[1..] == rest;
  }

  lemma {:induction false} StructIsRead(fields: seq<Field>, rest: seq<Bytes>)
    requires LegibleFields(fields)
    ensures ReadType(TypeTokens(Struct(fields)) + rest) == Some(Read(Struct(fields), rest))
    decreases fields, 1
  {
    hide HeadNamed, HeadName, FieldsTokens, ReadField, ReadFields, Number, NumberOf;
    var more := FieldsTokens(fields) + rest;
    var body := [Number(|fields|)] + more;
    HeadIsRead(HStruct, body);
    assert TypeTokens(Struct(fields)) + rest == [HeadName(HStruct)] + body;
    NumberIsRead(|fields|);
    assert body[1..] == more;
    FieldsAreRead(fields, rest);
  }

  lemma {:induction false} MapIsRead(t: FieldType, rest: seq<Bytes>)
    requires t.Map? && Legible(t)
    ensures ReadType(TypeTokens(t) + rest) == Some(Read(t, rest))
    decreases t, 1
  {
    hide HeadNamed, HeadName, FieldTokens, ReadField, ReadFields;
    var flag := FlagToken(t.keysSorted, "sorted", "unsorted");
    var last := [flag] + rest;
    var more := FieldTokens(t.value) + last;
    var body := FieldTokens(t.key) + more;
    HeadIsRead(HMap, body);
    MapTokens(t, rest);
    FieldIsRead(t.key, more);
    FieldIsRead(t.value, last);
    assert last[0] == flag && last[1..] == rest;
  }

  lemma MapTokens(t: FieldType, rest: seq<Bytes>)
    requires t.Map?
    ensures TypeTokens(t) + rest
            == [HeadName(HMap)] + (FieldTokens(t.key) + (FieldTokens(t.value) + ([FlagToken(t.keysSorted, "sorted", "unsorted")] + rest)))
  {
    hide HeadName, FieldTokens, FlagToken;
  }

  lemma {:induction false} DictionaryIsRead(t: FieldType, rest: seq<Bytes>)
    requires t.Dictionary? && Legible(t)
    ensures ReadType(TypeTokens(t) + rest) == Some(Read(t, rest))
    decreases t, 1
  {
    hide HeadNamed, HeadName, ReadField, ReadFields;
    var more := TypeTokens(t.valueType) + rest;
    var body := TypeTokens(t.index) + more;
    HeadIsRead(HDictionary, body);
    assert TypeTokens(t) + rest == [HeadName(HDictionary)] + body;
    TypeIsRead(t.index, more);
    TypeIsRead(t.valueType, rest);
  }

  lemma {:induction false} TypeIsRead(t: FieldType, rest: seq<Bytes>)
    requires Legible(t)
    ensures ReadType(TypeTokens(t) + rest) == Some(Read(t, rest))
    decreases t, 2
  {
    hide ReadType, TypeTokens;
    match t {
      case PlainType(p) => PlainIsRead(p, rest);
      case Decimal(w, p, s) => DecimalIsRead(w, p, s, rest);
      case Timestamp(u, zone) => TimestampIsRead(u, zone, rest);
      case List(item) => ListIsRead(item, false, rest);
      case LargeList(item) => ListIsRead(item, true, rest);
      case FixedSizeList(item, size) => FixedSizeListIsRead(item, size, rest);
      case Struct(fields) => StructIsRead(fields, rest);
      case Map(_, _, _) => MapIsRead(t, rest);
      case Dictionary(_, _) => DictionaryIsRead(t, rest);
      case FixedSizeBinary(_) => WidthOrLayoutIsRead(t, rest);
      case Interval(_) => WidthOrLayoutIsRead(t, rest);
      case Time32(_) => TimeIsRead(t, rest);
      case Time64(_) => TimeIsRead(t, rest);
      case Duration(_) => TimeIsRead(t, rest);
      case Unknown(name) => OutsideIsRead(name, rest);
    }
  }

  // ----- the fingerprint ------------------------------------------------------------

  /** What the hasher is fed for a schema. */
  function SchemaStream(schema: seq<ArrowField>): Bytes { Stream(SchemaTokens(ProtocolFields(schema))) }

  function FingerprintOf(schema: seq<ArrowField>): nat { Fold(OFFSET, SchemaStream(schema)) }

  lemma TokensTellSchemasApart(a: seq<Field>, b: seq<Field>)
    requires LegibleFields(a) && LegibleFields(b) && SchemaTokens(a) == SchemaTokens(b)
    ensures a == b
  {
    NumberIsRead(|a|);
    NumberIsRead(|b|);
    assert SchemaTokens(a)[0] == Number(|a|) && SchemaTokens(b)[0] == Number(|b|);
    assert SchemaTokens(a)[1..] == FieldsTokens(a) + [] && SchemaTokens(b)[1..] == FieldsTokens(b) + [];
    FieldsAreRead(a, []);
    FieldsAreRead(b, []);
  }

  /** Two schemas whose maps are pairs feed the hasher the same bytes exactly
      when they are the same to the protocol, and canonical ones exactly when
      they are the same. */
  lemma SameStreamIffSameSchema(a: seq<ArrowField>, b: seq<ArrowField>)
    requires Paired(a) && Paired(b)
    requires Sized(SchemaTokens(ProtocolFields(a))) && Sized(SchemaTokens(ProtocolFields(b)))
    ensures SchemaStream(a) == SchemaStream(b) <==> ProtocolFields(a) == ProtocolFields(b)
    ensures Canonical(a) && Canonical(b) ==> (SchemaStream(a) == SchemaStream(b) <==> a == b)
  {
    hide SchemaTokens, ProtocolFields, Stream, Paired, LegibleFields, Canonical;
    PairedFieldsAreLegible(a);
    PairedFieldsAreLegible(b);
    if SchemaStream(a) == SchemaStream(b) {
      StreamIsInjective(SchemaTokens(ProtocolFields(a)), SchemaTokens(ProtocolFields(b)));
      TokensTellSchemasApart(ProtocolFields(a), ProtocolFields(b));
    }
    ArrowFieldsRoundTrip(a);
    ArrowFieldsRoundTrip(b);
  }

  /** A map whose entries are no pair, and one that holds two fields. */
  const ODD_MAP: DataType := AMap(ArrowField("entries", APlain(ANull), false), false)

  function PairMap(key: ArrowField, value: ArrowField): DataType {
    AMap(ArrowField("entries", AStruct([key, value]), false), false)
  }

  /** Without that they need not: an odd map hashes like the beginning of a map
      of pairs, so a map around a struct and the columns beside it can change
      places. Whatever the three fields, these two schemas of two columns each
      are different to the protocol and have one fingerprint. */
  lemma OddMapsCollide(n: Bytes, m: Bytes, o: Bytes, x: ArrowField, y: ArrowField, z: ArrowField)
    ensures var a := [ArrowField(n, PairMap(ArrowField(m, AStruct([ArrowField(o, ODD_MAP, true), x]), true), y), true), z];
            var b := [ArrowField(n, ODD_MAP, true), ArrowField(m, AStruct([ArrowField(o, PairMap(x, y), true), z]), true)];
            ProtocolFields(a) != ProtocolFields(b) && SchemaStream(a) == SchemaStream(b) && FingerprintOf(a) == FingerprintOf(b)
  {
    var a := [ArrowField(n, PairMap(ArrowField(m, AStruct([ArrowField(o, ODD_MAP, true), x]), true), y), true), z];
    var b := [ArrowField(n, ODD_MAP, true), ArrowField(m, AStruct([ArrowField(o, PairMap(x, y), true), z]), true)];
    var px, py, pz := ProtocolField(x), ProtocolField(y), ProtocolField(z);
    var pa := [Field(n, Map(Field(m, Struct([Field(o, Unknown("map"), true), px]), true), py, false), true), pz];
    var pb := [Field(n, Unknown("map"), true), Field(m, Struct([Field(o, Map(px, py, false), true), pz]), true)];
    OddProtocol(n, m, o, x, y, z);
    OddTokens(n, m, o, px, py, pz);
    hide ProtocolFields, SchemaTokens, Stream, Fold;
  }

  lemma ProtocolOfTwo(a: ArrowField, b: ArrowField)
    ensures ProtocolFields([a, b]) == [ProtocolField(a), ProtocolField(b)]
  {
    assert [a, b][1..] == [b] && [b][1..] == [];
    assert ProtocolFields([b]) == [ProtocolField(b)] by { assert ProtocolFields([]) == []; }
  }

  lemma OddProtocol(n: Bytes, m: Bytes, o: Bytes, x: ArrowField, y: ArrowField, z: ArrowField)
    ensures var px, py, pz := ProtocolField(x), ProtocolField(y), ProtocolField(z);
            && ProtocolFields([ArrowField(n, PairMap(ArrowField(m, AStruct([ArrowField(o, ODD_MAP, true), x]), true), y), true), z])
               == [Field(n, Map(Field(m, Struct([Field(o, Unknown("map"), true), px]), true), py, false), true), pz]
            && ProtocolFields([ArrowField(n, ODD_MAP, true), ArrowField(m, AStruct([ArrowField(o, PairMap(x, y), true), z]), true)])
               == [Field(n, Unknown("map"), true), Field(m, Struct([Field(o, Map(px, py, false), true), pz]), true)]
  {
    hide ProtocolFields;
    var odd := ArrowField(o, ODD_MAP, true);
    var outer := ArrowField(m, AStruct([odd, x]), true);
    ProtocolOfTwo(odd, x);
    assert ProtocolField(odd) == Field(o, Unknown("map"), true);
    assert ProtocolField(outer) == Field(m, Struct([Field(o, Unknown("map"), true), ProtocolField(x)]), true);
    ProtocolOfPair(n, outer, y);
    ProtocolOfTwo(ArrowField(n, PairMap(outer, y), true), z);
    var pair := ArrowField(o, PairMap(x, y), true);
    ProtocolOfPair(o, x, y);
    ProtocolOfTwo(pair, z);
    ProtocolOfTwo(ArrowField(n, ODD_MAP, true), ArrowField(m, AStruct([pair, z]), true));
  }

  lemma ProtocolOfPair(name: Bytes, key: ArrowField, value: ArrowField)
    ensures ProtocolField(ArrowField(name, PairMap(key, value), true))
            == Field(name, Map(ProtocolField(key), ProtocolField(value), false), true)
  {
  }

  lemma TokensOfTwo(a: Field, b: Field)
    ensures FieldsTokens([a, b]) == FieldTokens(a) + FieldTokens(b)
  {
    TokensOfConcat([a], [b]);
    TokensOfOne(a);
    TokensOfOne(b);
    assert [a] + [b] == [a, b];
  }

  lemma OddTokens(n: Bytes, m: Bytes, o: Bytes, x: Field, y: Field, z: Field)
    ensures SchemaTokens([Field(n, Map(Field(m, Struct([Field(o, Unknown("map"), true), x]), true), y, false), true), z])
            == SchemaTokens([Field(n, Unknown("map"), true), Field(m, Struct([Field(o, Map(x, y, false), true), z]), true)])
  {
    hide FieldsTokens, Number;
    var inner, outer := Field(o, Unknown("map"), true), Field(m, Struct([Field(o, Unknown("map"), true), x]), true);
    var pair, right := Field(o, Map(x, y, false), true), Field(m, Struct([Field(o, Map(x, y, false), true), z]), true);
    var left := Field(n, Map(outer, y, false), true);
    TokensOfTwo(inner, x);
    TokensOfTwo(left, z);
    TokensOfTwo(pair, z);
    TokensOfTwo(Field(n, Unknown("map"), true), right);
    hide TypeTokens;
    OddFields(n, m, o, x, y, z);
  }

  /** The tokens of both, field by field. */
  lemma OddFields(n: Bytes, m: Bytes, o: Bytes, x: Field, y: Field, z: Field)
    ensures FieldTokens(Field(n, Map(Field(m, Struct([Field(o, Unknown("map"), true), x]), true), y, false), true)) + FieldTokens(z)
            == FieldTokens(Field(n, Unknown("map"), true)) + FieldTokens(Field(m, Struct([Field(o, Map(x, y, false), true), z]), true))
  {
    hide FieldsTokens, TypeTokens, Number;
    var tx, ty, tz := FieldTokens(x), FieldTokens(y), FieldTokens(z);
    var inner, pair := Field(o, Unknown("map"), true), Field(o, Map(x, y, false), true);
    TokensOfTwo(inner, x);
    TokensOfTwo(pair, z);
    StructTokens(m, inner, x);
    StructTokens(m, pair, z);
    MapFieldTokens(n, Field(m, Struct([inner, x]), true), y);
    MapFieldTokens(o, x, y);
    OddMapTokens(n);
    OddMapTokens(o);
    hide FieldTokens;
    Regrouped([n, "nullable", "map"], [m, "nullable", "struct", Number(2)], [o, "nullable", "map"], tx, ty, ["unsorted"], tz);
  }

  lemma OddMapTokens(name: Bytes)
    ensures FieldTokens(Field(name, Unknown("map"), true)) == [name, "nullable", "map"]
  {
  }

  lemma Regrouped(a: seq<Bytes>, b: seq<Bytes>, c: seq<Bytes>, x: seq<Bytes>, y: seq<Bytes>, u: seq<Bytes>, z: seq<Bytes>)
    ensures a + (b + (c + x)) + y + u + z == a + (b + ((c + x + y + u) + z))
  {
  }

  lemma StructTokens(name: Bytes, a: Field, b: Field)
    ensures FieldTokens(Field(name, Struct([a, b]), true)) == [name, "nullable", "struct", Number(2)] + FieldsTokens([a, b])
  {
    hide FieldsTokens, Number;
  }

  lemma MapFieldTokens(name: Bytes, key: Field, value: Field)
    ensures FieldTokens(Field(name, Map(key, value, false), true))
            == [name, "nullable", "map"] + FieldTokens(key) + FieldTokens(value) + ["unsorted"]
  {
    var kt, vt := FieldTokens(key), FieldTokens(value);
    assert TypeTokens(Map(key, value, false)) == ["map"] + kt + vt + ["unsorted"];
  }

  lemma {:induction false} TokensOfConcat(a: seq<Field>, b: seq<Field>)
    ensures FieldsTokens(a + b) == FieldsTokens(a) + FieldsTokens(b)
    decreases |a|
  {
    if a == [] {
      assert a + b == b;
    } else {
      assert (a + b)[0] == a[0] && (a + b)[1..] == a[1..] + b;
      TokensOfConcat(a[1..], b);
    }
  }

  lemma {:induction false} ProtocolOfConcat(a: seq<ArrowField>, b: seq<ArrowField>)
    ensures ProtocolFields(a + b) == ProtocolFields(a) + ProtocolFields(b)
    decreases |a|
  {
    if a == [] {
      assert a + b == b;
    } else {
      assert (a + b)[0] == a[0] && (a + b)[1..] == a[1..] + b;
      ProtocolOfConcat(a[1..], b);
    }
  }

  /** The tokens before and after one column's name. */
  function Before(before: seq<ArrowField>, after: seq<ArrowField>): seq<Bytes> {
    [Number(|before| + 1 + |after|)] + FieldsTokens(ProtocolFields(before))
  }

  function After(dataType: DataType, nullable: bool, after: seq<ArrowField>): seq<Bytes> {
    [FlagToken(nullable, "nullable", "required")] + TypeTokens(ProtocolType(dataType)) + FieldsTokens(ProtocolFields(after))
  }

  lemma TokensAroundName(before: seq<ArrowField>, column: ArrowField, after: seq<ArrowField>)
    ensures SchemaTokens(ProtocolFields(before + [column] + after))
            == Before(before, after) + ([column.name] + After(column.dataType, column.nullable, after))
  {
    var p := ProtocolField(column);
    var pb, pa := ProtocolFields(before), ProtocolFields(after);
    ProtocolAround(before, column, after);
    TokensAround(pb, p, pa);
    hide FieldsTokens, ProtocolFields, TypeTokens, Number, ProtocolType;
    assert FieldTokens(p) == [column.name] + ([FlagToken(column.nullable, "nullable", "required")] + TypeTokens(p.fieldType));
    assert SchemaTokens(pb + [p] + pa) == [Number(|before| + 1 + |after|)] + (FieldsTokens(pb) + FieldTokens(p) + FieldsTokens(pa));
  }

  lemma ProtocolAround(before: seq<ArrowField>, column: ArrowField, after: seq<ArrowField>)
    ensures ProtocolFields(before + [column] + after) == ProtocolFields(before) + [ProtocolField(column)] + ProtocolFields(after)
  {
    var one := [column];
    ProtocolOfConcat(before + one, after);
    ProtocolOfConcat(before, one);
    assert ProtocolFields(one) == [ProtocolField(column)] by { assert one[1..] == []; }
  }

  lemma TokensAround(before: seq<Field>, f: Field, after: seq<Field>)
    ensures FieldsTokens(before + [f] + after) == FieldsTokens(before) + FieldTokens(f) + FieldsTokens(after)
  {
    TokensOfConcat(before + [f], after);
    TokensOfConcat(before, [f]);
    TokensOfOne(f);
  }

  lemma StreamAroundName(before: seq<ArrowField>, column: ArrowField, after: seq<ArrowField>)
    ensures SchemaStream(before + [column] + after)
            == Stream(Before(before, after)) + LittleEndian(|column.name|, 8) + column.name
               + Stream(After(column.dataType, column.nullable, after))
  {
    hide Before, After, SchemaTokens, Stream;
    var head, tail := Before(before, after), After(column.dataType, column.nullable, after);
    TokensAroundName(before, column, after);
    StreamConcat(head, [column.name] + tail);
    StreamConcat([column.name], tail);
    StreamOfOne(column.name);
  }

  /** A column renamed in one letter is always noticed: the fingerprints differ. */
  lemma OneLetterRenameIsNoticed(before: seq<ArrowField>, left: Bytes, a: byte, b: byte, right: Bytes,
                                 dataType: DataType, nullable: bool, after: seq<ArrowField>)
    requires a != b
    ensures FingerprintOf(before + [ArrowField(left + [a] + right, dataType, nullable)] + after)
            != FingerprintOf(before + [ArrowField(left + [b] + right, dataType, nullable)] + after)
  {
    var x, y := ArrowField(left + [a] + right, dataType, nullable), ArrowField(left + [b] + right, dataType, nullable);
    hide SchemaStream, Stream, Before, After, LittleEndian, Fold;
    StreamAroundName(before, x, after);
    StreamAroundName(before, y, after);
    var head, tail := Stream(Before(before, after)), Stream(After(dataType, nullable, after));
    var prefix := head + LittleEndian(|x.name|, 8) + left;
    assert SchemaStream(before + [x] + after) == prefix + [a] + (right + tail);
    assert SchemaStream(before + [y] + after) == prefix + [b] + (right + tail);
    OneByteDifferentNeverCollides(OFFSET, prefix, a, b, right + tail);
  }

  // ----- in place ------------------------------------------------------------------

  lemma Joined(state: nat, a: seq<Bytes>, b: seq<Bytes>)
    ensures Fold(Fold(state, Stream(a)), Stream(b)) == Fold(state, Stream(a + b))
  {
    StreamConcat(a, b);
    FoldConcat(state, Stream(a), Stream(b));
  }

  lemma StreamOfOne(token: Bytes)
    ensures Stream([token]) == Prefixed(token)
  {
    var one := [token];
    assert one[1..] == [];
  }

  method HashToken(h: Fnv1a64, token: Bytes)
    modifies h
    ensures h.state == Fold(old(h.state), Stream([token]))
  {
    StreamOfOne(token);
    h.WritePrefixed(token);
  }

  method HashField(h: Fnv1a64, f: Field)
    modifies h
    ensures h.state == Fold(old(h.state), Stream(FieldTokens(f)))
    decreases f, 0
  {
    hide Fold, Stream, TypeTokens;
    var flag: Bytes := if f.nullable then "nullable" else "required";
    HashToken(h, f.name);
    HashToken(h, flag);
    HashType(h, f.fieldType);
    Joined(old(h.state), [f.name], [flag]);
    Joined(old(h.state), [f.name] + [flag], TypeTokens(f.fieldType));
    assert FieldTokens(f) == [f.name] + [flag] + TypeTokens(f.fieldType);
  }

  method HashFields(h: Fnv1a64, fs: seq<Field>)
    modifies h
    ensures h.state == Fold(old(h.state), Stream(FieldsTokens(fs)))
    decreases fs, 1
  {
    for i := 0 to |fs|
      invariant h.state == Fold(old(h.state), Stream(FieldsTokens(fs[..i])))
    {
      assert fs[..i + 1] == fs[..i] + [fs[i]];
      TokensOfConcat(fs[..i], [fs[i]]);
      TokensOfOne(fs[i]);
      Joined(old(h.state), FieldsTokens(fs[..i]), FieldTokens(fs[i]));
      HashField(h, fs[i]);
    }
    assert fs[..|fs|] == fs;
  }

  lemma TokensOfOne(f: Field)
    ensures FieldsTokens([f]) == FieldTokens(f)
  {
    var one := [f];
    assert one[1..] == [];
  }

  method HashType(h: Fnv1a64, t: FieldType)
    modifies h
    ensures h.state == Fold(old(h.state), Stream(TypeTokens(t)))
    decreases t, 2
  {
    hide Fold, Stream, FieldTokens, FieldsTokens, Number, HeadName, PlainName;
    ghost var start := h.state;
    match t {
      case PlainType(p) => HashToken(h, PlainName(p));
      case Unknown(name) => HashToken(h, name);
      case Decimal(w, p, s) =>
        HashToken(h, HeadName(HDecimal(w)));
        HashToken(h, Number(p));
        HashToken(h, Number(s));
        Joined(start, [HeadName(HDecimal(w))], [Number(p)]);
        Joined(start, [HeadName(HDecimal(w))] + [Number(p)], [Number(s)]);
        assert TypeTokens(t) == [HeadName(HDecimal(w))] + [Number(p)] + [Number(s)];
      case FixedSizeBinary(w) => HashTwo(h, HeadName(HFixedSizeBinary), Number(w));
      case Time32(u) => HashTwo(h, HeadName(HTime32), UnitName(u));
      case Time64(u) => HashTwo(h, HeadName(HTime64), UnitName(u));
      case Duration(u) => HashTwo(h, HeadName(HDuration), UnitName(u));
      case Interval(l) => HashTwo(h, HeadName(HInterval), LayoutName(l));
      case Timestamp(u, zone) =>
        HashTwo(h, HeadName(HTimestamp), UnitName(u));
        HashToken(h, ZoneToken(zone));
        Joined(start, [HeadName(HTimestamp), UnitName(u)], [ZoneToken(zone)]);
        assert TypeTokens(t) == [HeadName(HTimestamp), UnitName(u)] + [ZoneToken(zone)];
      case List(item) =>
        HashToken(h, HeadName(HList));
        HashField(h, item);
        Joined(start, [HeadName(HList)], FieldTokens(item));
      case LargeList(item) =>
        HashToken(h, HeadName(HLargeList));
        HashField(h, item);
        Joined(start, [HeadName(HLargeList)], FieldTokens(item));
      case FixedSizeList(item, size) =>
        HashToken(h, HeadName(HFixedSizeList));
        HashField(h, item);
        HashToken(h, Number(size));
        Joined(start, [HeadName(HFixedSizeList)], FieldTokens(item));
        Joined(start, [HeadName(HFixedSizeList)] + FieldTokens(item), [Number(size)]);
      case Struct(fields) =>
        HashTwo(h, HeadName(HStruct), Number(|fields|));
        HashFields(h, fields);
        Joined(start, [HeadName(HStruct), Number(|fields|)], FieldsTokens(fields));
      case Map(key, value, sorted) =>
        var flag: Bytes := if sorted then "sorted" else "unsorted";
        HashToken(h, HeadName(HMap));
        HashField(h, key);
        HashField(h, value);
        HashToken(h, flag);
        Joined(start, [HeadName(HMap)], FieldTokens(key));
        Joined(start, [HeadName(HMap)] + FieldTokens(key), FieldTokens(value));
        Joined(start, [HeadName(HMap)] + FieldTokens(key) + FieldTokens(value), [flag]);
      case Dictionary(index, value) =>
        HashToken(h, HeadName(HDictionary));
        HashType(h, index);
        HashType(h, value);
        Joined(start, [HeadName(HDictionary)], TypeTokens(index));
        Joined(start, [HeadName(HDictionary)] + TypeTokens(index), TypeTokens(value));
    }
  }

  method HashTwo(h: Fnv1a64, a: Bytes, b: Bytes)
    modifies h
    ensures h.state == Fold(old(h.state), Stream([a, b]))
  {
    HashToken(h, a);
    HashToken(h, b);
    Joined(old(h.state), [a], [b]);
    assert [a] + [b] == [a, b];
  }

  /** The fingerprint of an Arrow schema, token by token. */
  method SchemaFingerprint(schema: seq<ArrowField>) returns (hash: nat)
    ensures hash == FingerprintOf(schema)
  {
    var h := new Fnv1a64();
    var fields := ProtocolFields(schema);
    HashToken(h, Number(|fields|));
    HashFields(h, fields);
    Joined(OFFSET, [Number(|fields|)], FieldsTokens(fields));
    hash := h.state;
  }
}
