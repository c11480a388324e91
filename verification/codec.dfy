/** The schema-driven binary codec of arrayBufferSchema.ts: one descriptor tree,
    one encoder (`AddSchema`, the source's addSchemaBuffer) and one decoder
    (`ReadSchema`, the source's readSchemaBuffer).

    The byte builder and reader are not part of this model: a buffer is a
    sequence of scalar tokens, one per builder call. Integer writes keep only
    the low bits of their width (the wrap-around of a typed-array store);
    floats are opaque payloads. */
module Codec {
  import opened Wrappers

  // ---------------------------------------------------------------------
  // Descriptors
  // ---------------------------------------------------------------------

  /** The scalar names a descriptor leaf may carry (readerScalarLookup). */
  datatype ScalarKind =
    | UInt8 | UInt16 | UInt32
    | Int8 | Int16 | Int32
    | Float32 | Float64
    | Boolean | Str
    | Int32Optional | Int8Optional

  /** Width of an array's element count: 'array-uint8' or 'array-uint16'. */
  datatype CountWidth = CountU8 | CountU16

  /** Which key a tagged union dispatches on: 'type-lookup' or 'entity-type-lookup'. */
  datatype TagKey = TypeTag | EntityTypeTag

  /** A descriptor node. Records list their keys in key order; the `flag`
      marker of enums and bitmasks is not one of their codes. */
  datatype Schema =
    | Scalar(kind: ScalarKind)
    | Record(fields: seq<Field>)
    | Enum(codes: seq<Code>)
    | Bitmask(bits: seq<Code>)
    | Array(width: CountWidth, elements: Schema)
    | Lookup(on: TagKey, variants: seq<Variant>)

  /** A key of an enum (its byte code) or of a bitmask (the bit it reads). */
  datatype Code = Code(key: string, code: int)

  /** One key of a record. A number literal (`type: 3`) is a union tag. */
  datatype Field = Field(key: string, spec: Spec)
  datatype Spec = Desc(schema: Schema) | Literal(n: int)

  /** One variant of a tagged union: its key in `elements` and its record. */
  datatype Variant = Variant(key: string, fields: seq<Field>)

  // ---------------------------------------------------------------------
  // Values and tokens
  // ---------------------------------------------------------------------

  /** An opaque floating-point payload. */
  datatype Float = Float(bits: int)

  /** A decoded (or to-be-encoded) value: the JavaScript values the codec
      produces, with `undefined` explicit. Objects keep their keys in order. */
  datatype Value =
    | VInt(i: int)
    | VFloat(f: Float)
    | VBool(b: bool)
    | VStr(s: string)
    | VOpt(o: Option<int>)
    | VUndefined
    | VObj(entries: seq<Entry>)
    | VArr(items: seq<Value>)

  datatype Entry = Entry(key: string, value: Value)

  /** One builder call's worth of buffer. */
  datatype Token =
    | TU8(n: int) | TU16(n: int) | TU32(n: int)
    | TI8(n: int) | TI16(n: int) | TI32(n: int)
    | TF32(f: Float) | TF64(f: Float)
    | TBool(b: bool) | TStr(s: string)
    | TI32Opt(o: Option<int>) | TI8Opt(o: Option<int>)
    | TBits(bits: seq<bool>)

  datatype CodecError =
    | ShapeMismatch                            // the source throws a TypeError (a property of undefined, a non-iterable)
    | Unmodelled                               // what the builder writes for this value is not part of this model
    | NotEncodable                             // addSchemaBuffer has no case for this node
    | SchemaNotFound(on: TagKey, tag: int)     // 'Schema not found: Type ...'
    | Malformed                                // the buffer ends early, holds another token kind, or decodes to no typed value

  type Decoded = Result<(Value, seq<Token>), CodecError>

  // ---------------------------------------------------------------------
  // Integer widths
  // ---------------------------------------------------------------------

  const TWO_8: int := 0x100
  const TWO_16: int := 0x1_0000
  const TWO_32: int := 0x1_0000_0000

  /** Keeps the low bits of `n` as an unsigned integer below `m`. */
  function WrapUnsigned(n: int, m: int): (r: int)
    requires m > 0
    ensures 0 <= r < m
    ensures 0 <= n < m ==> r == n
  {
    n % m
  }

  /** Keeps the low bits of `n` as a two's-complement integer in [-m/2, m/2). */
  function WrapSigned(n: int, m: int): (r: int)
    requires m >= 2 && m % 2 == 0
    ensures -(m / 2) <= r < m / 2
    ensures -(m / 2) <= n < m / 2 ==> r == n
  {
    (n + m / 2) % m - m / 2
  }

  predicate InUnsigned(n: int, m: int) { 0 <= n < m }
  predicate InSigned(n: int, m: int) { -(m / 2) <= n < m / 2 }

  // ---------------------------------------------------------------------
  // Scalars
  // ---------------------------------------------------------------------

  /** The values a scalar leaf can carry without loss. */
  predicate ScalarConforms(k: ScalarKind, v: Value) {
    match k
    case UInt8 => v.VInt? && InUnsigned(v.i, TWO_8)
    case UInt16 => v.VInt? && InUnsigned(v.i, TWO_16)
    case UInt32 => v.VInt? && InUnsigned(v.i, TWO_32)
    case Int8 => v.VInt? && InSigned(v.i, TWO_8)
    case Int16 => v.VInt? && InSigned(v.i, TWO_16)
    case Int32 => v.VInt? && InSigned(v.i, TWO_32)
    case Float32 => v.VFloat?
    case Float64 => v.VFloat?
    case Boolean => v.VBool?
    case Str => v.VStr?
    case Int32Optional => v.VOpt? && (v.o.Some? ==> InSigned(v.o.value, TWO_32))
    case Int8Optional => v.VOpt? && (v.o.Some? ==> InSigned(v.o.value, TWO_8))
  }

  function WrapOpt(o: Option<int>, m: int): Option<int>
    requires m >= 2 && m % 2 == 0
  {
    if o.Some? then Some(WrapSigned(o.value, m)) else None
  }

  /** The integer a typed-array integer store receives for a value, where the
      model states it: a number as itself, a boolean as 1 or 0, and undefined
      (an absent key) as NaN, which the store turns into 0. */
  function StoredInt(v: Value): (r: Option<int>)
    ensures v.VInt? ==> r == Some(v.i)
    ensures v.VUndefined? ==> r == Some(0)
  {
    match v
    case VInt(i) => Some(i)
    case VBool(b) => Some(if b then 1 else 0)
    case VUndefined => Some(0)
    case VOpt(o) => Some(if o.Some? then o.value else 0)
    case _ => None
  }

  /** The builder call a scalar field makes (addUint8, addInt32, ...). The
      value is `value[key]`, so an absent key arrives as undefined. */
  function WriteScalar(k: ScalarKind, v: Value): (r: Result<Token, CodecError>)
    ensures ScalarConforms(k, v) ==> r.Ok?
    ensures IntKind(k) && v.VUndefined? ==> r.Ok? && TokenInt(r.value) == Some(0)
  {
    match k
    case UInt8 => if StoredInt(v).Some? then Ok(TU8(WrapUnsigned(StoredInt(v).value, TWO_8))) else Err(Unmodelled)
    case UInt16 => if StoredInt(v).Some? then Ok(TU16(WrapUnsigned(StoredInt(v).value, TWO_16))) else Err(Unmodelled)
    case UInt32 => if StoredInt(v).Some? then Ok(TU32(WrapUnsigned(StoredInt(v).value, TWO_32))) else Err(Unmodelled)
    case Int8 => if StoredInt(v).Some? then Ok(TI8(WrapSigned(StoredInt(v).value, TWO_8))) else Err(Unmodelled)
    case Int16 => if StoredInt(v).Some? then Ok(TI16(WrapSigned(StoredInt(v).value, TWO_16))) else Err(Unmodelled)
    case Int32 => if StoredInt(v).Some? then Ok(TI32(WrapSigned(StoredInt(v).value, TWO_32))) else Err(Unmodelled)
    case Float32 => if v.VFloat? then Ok(TF32(v.f)) else Err(Unmodelled)
    case Float64 => if v.VFloat? then Ok(TF64(v.f)) else Err(Unmodelled)
    case Boolean => if v.VBool? then Ok(TBool(v.b)) else Err(Unmodelled)
    case Str => if v.VStr? then Ok(TStr(v.s)) else Err(Unmodelled)
    case Int32Optional => if v.VOpt? then Ok(TI32Opt(WrapOpt(v.o, TWO_32))) else Err(Unmodelled)
    case Int8Optional => if v.VOpt? then Ok(TI8Opt(WrapOpt(v.o, TWO_8))) else Err(Unmodelled)
  }

  /** The six plain integer kinds, whose stores follow typed-array semantics. */
  predicate IntKind(k: ScalarKind) {
    k.UInt8? || k.UInt16? || k.UInt32? || k.Int8? || k.Int16? || k.Int32?
  }

  /** The integer an integer token carries. */
  function TokenInt(t: Token): Option<int> {
    match t
    case TU8(n) => Some(n)
    case TU16(n) => Some(n)
    case TU32(n) => Some(n)
    case TI8(n) => Some(n)
    case TI16(n) => Some(n)
    case TI32(n) => Some(n)
    case _ => None
  }

  /** The reader call for a scalar leaf (readerScalarLookup). */
  function ReadScalar(k: ScalarKind, toks: seq<Token>): (r: Decoded)
    ensures r.Ok? ==> |toks| > 0 && r.value.1 == toks[1..]
  {
    if |toks| == 0 then Err(Malformed)
    else
      var t := toks[0];
      var v :- match k
        case UInt8 => if t.TU8? then Ok(VInt(t.n)) else Err(Malformed)
        case UInt16 => if t.TU16? then Ok(VInt(t.n)) else Err(Malformed)
        case UInt32 => if t.TU32? then Ok(VInt(t.n)) else Err(Malformed)
        case Int8 => if t.TI8? then Ok(VInt(t.n)) else Err(Malformed)
        case Int16 => if t.TI16? then Ok(VInt(t.n)) else Err(Malformed)
        case Int32 => if t.TI32? then Ok(VInt(t.n)) else Err(Malformed)
        case Float32 => if t.TF32? then Ok(VFloat(t.f)) else Err(Malformed)
        case Float64 => if t.TF64? then Ok(VFloat(t.f)) else Err(Malformed)
        case Boolean => if t.TBool? then Ok(VBool(t.b)) else Err(Malformed)
        case Str => if t.TStr? then Ok(VStr(t.s)) else Err(Malformed)
        case Int32Optional => if t.TI32Opt? then Ok(VOpt(t.o)) else Err(Malformed)
        case Int8Optional => if t.TI8Opt? then Ok(VOpt(t.o)) else Err(Malformed)
      ;
      Ok((v, toks[1..]))
  }

  function ReadU8(toks: seq<Token>): (r: Result<(int, seq<Token>), CodecError>)
    ensures r.Ok? ==> |toks| > 0 && toks[0] == TU8(r.value.0) && r.value.1 == toks[1..]
  {
    if |toks| > 0 && toks[0].TU8? then Ok((toks[0].n, toks[1..])) else Err(Malformed)
  }

  function CountToken(w: CountWidth, n: int): Token {
    match w
    case CountU8 => TU8(WrapUnsigned(n, TWO_8))
    case CountU16 => TU16(WrapUnsigned(n, TWO_16))
  }

  function CountLimit(w: CountWidth): int {
    match w
    case CountU8 => TWO_8
    case CountU16 => TWO_16
  }

  function ReadCount(w: CountWidth, toks: seq<Token>): (r: Result<(nat, seq<Token>), CodecError>)
    ensures r.Ok? ==> |toks| > 0 && r.value.1 == toks[1..] && r.value.0 < CountLimit(w)
  {
    if |toks| == 0 then Err(Malformed)
    else match w
      case CountU8 =>
        if toks[0].TU8? && 0 <= toks[0].n < TWO_8 then Ok((toks[0].n, toks[1..])) else Err(Malformed)
      case CountU16 =>
        if toks[0].TU16? && 0 <= toks[0].n < TWO_16 then Ok((toks[0].n, toks[1..])) else Err(Malformed)
  }

  // ---------------------------------------------------------------------
  // Lookups by key
  // ---------------------------------------------------------------------

  /** `value[key]`: the first entry with that key, or undefined. */
  function Get(es: seq<Entry>, key: string): (r: Option<Value>)
    ensures r.Some? <==> exists i :: 0 <= i < |es| && es[i].key == key
    ensures r.Some? ==> Entry(key, r.value) in es
  {
    if |es| == 0 then None
    else if es[0].key == key then Some(es[0].value)
    else Get(es[1..], key)
  }

  function TagName(on: TagKey): string {
    match on
    case TypeTag => "type"
    case EntityTypeTag => "entityType"
  }

  /** Keys the record walk skips, on both the write and the read side. */
  predicate IsTagKey(key: string) {
    key == "type" || key == "entityType"
  }

  /** `elements[key].type` (or `.entityType`): the variant's numeric tag, if its
      record holds a number under that key. */
  function VariantTag(vr: Variant, on: TagKey): Option<int> {
    FieldLiteral(vr.fields, TagName(on))
  }

  function FieldLiteral(fields: seq<Field>, key: string): Option<int> {
    if |fields| == 0 then None
    else if fields[0].key == key then
      (if fields[0].spec.Literal? then Some(fields[0].spec.n) else None)
    else FieldLiteral(fields[1..], key)
  }

  /** `elements[key]` among the variants' own keys only. */
  function FindVariant(vs: seq<Variant>, key: string): (r: Option<Variant>)
    ensures r.Some? ==> r.value in vs && r.value.key == key
    ensures r.None? ==> forall v :: v in vs ==> v.key != key
  {
    if |vs| == 0 then None
    else if vs[0].key == key then Some(vs[0])
    else FindVariant(vs[1..], key)
  }

  /** The decoder's search: the first variant (in key order) whose tag is `tag`. */
  function FindTag(vs: seq<Variant>, on: TagKey, tag: int): (r: Option<Variant>)
    ensures r.Some? ==> r.value in vs && VariantTag(r.value, on) == Some(tag)
    ensures r.None? ==> forall v :: v in vs ==> VariantTag(v, on) != Some(tag)
  {
    if |vs| == 0 then None
    else if VariantTag(vs[0], on) == Some(tag) then Some(vs[0])
    else FindTag(vs[1..], on, tag)
  }

  /** `schema[value]` for an enum: the code stored under a key. */
  function CodeOf(codes: seq<Code>, key: string): (r: Option<int>)
    ensures r.Some? ==> Code(key, r.value) in codes
    ensures r.None? ==> forall c :: c in codes ==> c.key != key
  {
    if |codes| == 0 then None
    else if codes[0].key == key then Some(codes[0].code)
    else CodeOf(codes[1..], key)
  }

  /** The enum reader's `Object.keys(schema).find(...)`: the first key with that code. */
  function KeyOf(codes: seq<Code>, code: int): (r: Option<string>)
    ensures r.Some? ==> Code(r.value, code) in codes
    ensures r.None? ==> forall c :: c in codes ==> c.code != code
  {
    if |codes| == 0 then None
    else if codes[0].code == code then Some(codes[0].key)
    else KeyOf(codes[1..], code)
  }

  // ---------------------------------------------------------------------
  // Encoder: addSchemaBuffer and writerFlagLookup
  // ---------------------------------------------------------------------

  /** addSchemaBuffer: arrays, tagged unions and plain records. Any other node
      (a bare scalar, an enum, a bitmask) has no case there: the source
      recurses into the characters of the scalar name until it throws.

      A union value is written with `elements[value.type].type` as its tag
      byte. A variant whose record holds no number under that key gives
      undefined, which the byte store writes as 0; the fields follow as
      usual. A key naming no variant makes the source read `.type` of
      undefined and throw, except for the names of properties inherited from
      `Object.prototype` (`toString`, say): there the source finds a function
      and writes the byte 0 alone, which this model does not follow and
      reports as the same error. */
  function AddSchema(s: Schema, v: Value): (r: Result<seq<Token>, CodecError>)
    decreases s, 1
  {
    match s
    case Array(w, el) =>
      if v.VStr? then Err(Unmodelled)
      else if !v.VArr? then Err(ShapeMismatch)
      else
        var body :- AddItems(el, v.items);
        Ok([CountToken(w, |v.items|)] + body)
    case Lookup(on, variants) =>
      if v.VUndefined? then Err(ShapeMismatch)
      else if !v.VObj? then Err(Unmodelled)
      else
        var key :- PropertyKey(Get(v.entries, TagName(on)));
        var vr := FindVariant(variants, key);
        if vr.None? then Err(ShapeMismatch)
        else
          var tag := VariantTag(vr.value, on);
          var body :- AddFields(vr.value.fields, v.entries);
          Ok([TU8(if tag.Some? then WrapUnsigned(tag.value, TWO_8) else 0)] + body)
    case Record(fields) =>
      if v.VUndefined? then Err(ShapeMismatch)
      else if !v.VObj? then Err(Unmodelled)
      else AddFields(fields, v.entries)
    case _ => Err(NotEncodable)
  }

  /** The property name a value selects when used as `obj[value]`: a string as
      itself, undefined (or an absent key) as "undefined", a boolean as
      "true" or "false". Other values are not modelled. */
  function PropertyKey(x: Option<Value>): (r: Result<string, CodecError>)
    ensures x.Some? && x.value.VStr? ==> r == Ok(x.value.s)
    ensures (x.None? || x.value.VUndefined?) ==> r == Ok("undefined")
  {
    if x.None? then Ok("undefined")
    else match x.value
      case VStr(s) => Ok(s)
      case VUndefined => Ok("undefined")
      case VBool(b) => Ok(if b then "true" else "false")
      case _ => Err(Unmodelled)
  }

  /** The loop over array elements. */
  function AddItems(el: Schema, items: seq<Value>): (r: Result<seq<Token>, CodecError>)
    decreases el, |items| + 2
  {
    if |items| == 0 then Ok([])
    else
      var head :- AddSchema(el, items[0]);
      var tail :- AddItems(el, items[1..]);
      Ok(head + tail)
  }

  /** The loop over a record's keys in key order, skipping `type` and `entityType`. */
  function AddFields(fields: seq<Field>, env: seq<Entry>): (r: Result<seq<Token>, CodecError>)
    decreases fields
  {
    if |fields| == 0 then Ok([])
    else
      var head :- if IsTagKey(fields[0].key) then Ok([])
                  else AddField(fields[0].spec, Get(env, fields[0].key));
      var tail :- AddFields(fields[1..], env);
      Ok(head + tail)
  }

  /** One record key: a scalar through the scalar lookup, anything else through
      writerFlagLookup. A number literal has no keys and writes nothing. The
      value is `value[key]`: an absent key is undefined. An enum writes
      `schema[value]`, which is undefined, so 0, for a value naming no key. */
  function AddField(spec: Spec, x: Option<Value>): (r: Result<seq<Token>, CodecError>)
    decreases spec
  {
    match spec
    case Literal(_) => Ok([])
    case Desc(s) =>
      var v := if x.Some? then x.value else VUndefined;
      match s
        case Scalar(k) =>
          var t :- WriteScalar(k, v);
          Ok([t])
        case Enum(codes) =>
          var key :- PropertyKey(Some(v));
          var c := CodeOf(codes, key);
          Ok([TU8(if c.Some? then WrapUnsigned(c.value, TWO_8) else 0)])
        case Bitmask(bits) =>
          if v.VUndefined? then Err(ShapeMismatch)
          else if !v.VObj? then Err(Unmodelled)
          else
            var flags :- MaskBits(bits, v.entries);
            Ok([TBits(flags)])
        case _ => AddSchema(s, v)
  }

  /** What the bit packer stores for one pushed `value[maskKey]`: a boolean as
      itself, undefined (an absent key) as a clear bit. Other values are not
      modelled. */
  function Flag(x: Option<Value>): Option<bool> {
    if x.None? then Some(false)
    else match x.value
      case VBool(b) => Some(b)
      case VUndefined => Some(false)
      case _ => None
  }

  /** The bitmask writer: `value[maskKey]` for every key, in key order. */
  function MaskBits(bits: seq<Code>, env: seq<Entry>): (r: Result<seq<bool>, CodecError>)
    ensures r.Ok? ==> |r.value| == |bits|
    ensures r.Ok? ==> forall i :: 0 <= i < |bits| ==> (r.value[i] <==> Get(env, bits[i].key) == Some(VBool(true)))
    ensures r.Err? <==> exists i :: 0 <= i < |bits| && Flag(Get(env, bits[i].key)).None?
  {
    if |bits| == 0 then Ok([])
    else
      var x := Flag(Get(env, bits[0].key));
      if x.None? then Err(Unmodelled)
      else
        var tail :- MaskBits(bits[1..], env);
        Ok([x.value] + tail)
  }

  // ---------------------------------------------------------------------
  // Decoder: readSchemaBuffer and readerFlagLookup
  // ---------------------------------------------------------------------

  /** readSchemaBuffer. Every successful read consumes a prefix of the buffer. */
  function ReadSchema(s: Schema, toks: seq<Token>): (r: Decoded)
    ensures r.Ok? ==> |r.value.1| <= |toks|
    decreases s, 1
  {
    match s
    case Scalar(k) => ReadScalar(k, toks)
    case Record(fields) =>
      var (es, rest) :- ReadFields(fields, toks);
      Ok((VObj(es), rest))
    case Enum(codes) =>
      var (n, rest) :- ReadU8(toks);
      var k := KeyOf(codes, n);
      Ok((if k.Some? then VStr(k.value) else VUndefined, rest))
    case Bitmask(bits) =>
      if |toks| > 0 && toks[0].TBits? then Ok((VObj(UnmaskBits(bits, toks[0].bits)), toks[1..]))
      else Err(Malformed)
    case Array(w, el) =>
      var (n, rest) :- ReadCount(w, toks);
      var (items, rest') :- ReadItems(el, n, rest);
      Ok((VArr(items), rest'))
    case Lookup(on, variants) =>
      var (tag, rest) :- ReadU8(toks);
      var vr := FindTag(variants, on, tag);
      if vr.None? then Err(SchemaNotFound(on, tag))
      else
        var (es, rest') :- ReadFields(vr.value.fields, rest);
        Ok((VObj([Entry(TagName(on), VStr(vr.value.key))] + es), rest'))
  }

  /** The bitmask reader: each key reads bit number `schema[key]`, or undefined
      when there is no such bit. */
  function UnmaskBits(bits: seq<Code>, flags: seq<bool>): (r: seq<Entry>)
    ensures |r| == |bits|
    ensures forall i :: 0 <= i < |bits| ==> r[i] == Entry(bits[i].key, BitAt(flags, bits[i].code))
  {
    if |bits| == 0 then []
    else [Entry(bits[0].key, BitAt(flags, bits[0].code))] + UnmaskBits(bits[1..], flags)
  }

  /** `bits[index]` on the array readBits returns. */
  function BitAt(flags: seq<bool>, index: int): Value {
    if 0 <= index < |flags| then VBool(flags[index]) else VUndefined
  }

  /** The array reader's loop: exactly `n` elements, no terminator. */
  function ReadItems(el: Schema, n: nat, toks: seq<Token>): (r: Result<(seq<Value>, seq<Token>), CodecError>)
    ensures r.Ok? ==> |r.value.1| <= |toks| && |r.value.0| == n
    decreases el, n + 2
  {
    if n == 0 then Ok(([], toks))
    else
      var (head, rest) :- ReadSchema(el, toks);
      var (tail, rest') :- ReadItems(el, n - 1, rest);
      Ok(([head] + tail, rest'))
  }

  /** The record reader's loop over keys, skipping `type` and `entityType`. */
  function ReadFields(fields: seq<Field>, toks: seq<Token>): (r: Result<(seq<Entry>, seq<Token>), CodecError>)
    ensures r.Ok? ==> |r.value.1| <= |toks|
    decreases fields
  {
    if |fields| == 0 then Ok(([], toks))
    else if IsTagKey(fields[0].key) then ReadFields(fields[1..], toks)
    else
      var (v, rest) :- ReadSpec(fields[0].spec, toks);
      var (tail, rest') :- ReadFields(fields[1..], rest);
      Ok(([Entry(fields[0].key, v)] + tail, rest'))
  }

  /** One record key on the read side. A number literal reads as an empty object. */
  function ReadSpec(spec: Spec, toks: seq<Token>): (r: Decoded)
    ensures r.Ok? ==> |r.value.1| <= |toks|
    decreases spec
  {
    match spec
    case Literal(_) => Ok((VObj([]), toks))
    case Desc(s) => ReadSchema(s, toks)
  }
}
