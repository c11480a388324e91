/** What the codec of arrayBufferSchema.ts promises: which descriptors are well
    formed, which values fit a descriptor, and the round trip
    ReadSchema(AddSchema(v)) == v with the places where it breaks. */
module CodecProofs {
  import opened Wrappers
  import opened Codec
  import opened Seqs

  // ---------------------------------------------------------------------
  // Well-formed descriptors
  // ---------------------------------------------------------------------

  /** The nodes addSchemaBuffer can write at top level (and as array elements). */
  predicate Encodable(s: Schema) {
    s.Record? || s.Array? || s.Lookup?
  }

  predicate DistinctFieldKeys(fields: seq<Field>) {
    forall i, j :: 0 <= i < j < |fields| ==> fields[i].key != fields[j].key
  }

  predicate DistinctCodeKeys(codes: seq<Code>) {
    forall i, j :: 0 <= i < j < |codes| ==> codes[i].key != codes[j].key
  }

  predicate DistinctCodes(codes: seq<Code>) {
    forall i, j :: 0 <= i < j < |codes| ==> codes[i].code != codes[j].code
  }

  /** Every bitmask key reads the bit at its own position. */
  predicate Positional(bits: seq<Code>) {
    forall i :: 0 <= i < |bits| ==> bits[i].code == i
  }

  predicate DistinctVariantKeys(vs: seq<Variant>) {
    forall i, j :: 0 <= i < j < |vs| ==> vs[i].key != vs[j].key
  }

  predicate DistinctTags(on: TagKey, vs: seq<Variant>) {
    forall i, j :: 0 <= i < j < |vs| ==> VariantTag(vs[i], on) != VariantTag(vs[j], on)
  }

  predicate WellFormed(s: Schema)
    decreases s, 1
  {
    match s
    case Scalar(_) => true
    case Record(fields) => FieldsWellFormed(fields)
    case Enum(codes) =>
      DistinctCodeKeys(codes) && DistinctCodes(codes)
      && forall i :: 0 <= i < |codes| ==> 0 <= codes[i].code < TWO_8
    case Bitmask(bits) => DistinctCodeKeys(bits) && Positional(bits)
    case Array(_, el) => Encodable(el) && WellFormed(el)
    case Lookup(on, vs) => DistinctVariantKeys(vs) && DistinctTags(on, vs) && VariantsWellFormed(on, vs)
  }

  predicate FieldsWellFormed(fields: seq<Field>)
    decreases fields, 1
  {
    DistinctFieldKeys(fields) && SpecsWellFormed(fields)
  }

  predicate SpecsWellFormed(fields: seq<Field>)
    decreases fields, 0
  {
    |fields| == 0
    || ((fields[0].spec.Desc? ==> WellFormed(fields[0].spec.schema)) && SpecsWellFormed(fields[1..]))
  }

  /** Every variant carries a byte-sized numeric tag and a well-formed record. */
  predicate VariantsWellFormed(on: TagKey, vs: seq<Variant>)
    decreases vs
  {
    |vs| == 0
    || (&& VariantTag(vs[0], on).Some?
        && 0 <= VariantTag(vs[0], on).value < TWO_8
        && FieldsWellFormed(vs[0].fields)
        && VariantsWellFormed(on, vs[1..]))
  }

  /** One variant as VariantsWellFormed wants it: a tag byte and well-formed fields. */
  predicate VariantOk(on: TagKey, v: Variant) {
    VariantTag(v, on).Some? && 0 <= VariantTag(v, on).value < TWO_8 && FieldsWellFormed(v.fields)
  }

  lemma {:induction false} EachVariantOk(on: TagKey, vs: seq<Variant>)
    requires forall k :: 0 <= k < |vs| ==> VariantOk(on, vs[k])
    ensures VariantsWellFormed(on, vs)
    decreases |vs|
  {
    if |vs| > 0 {
      assert forall k :: 0 <= k < |vs[1..]| ==> vs[1..][k] == vs[k + 1];
      EachVariantOk(on, vs[1..]);
      assert VariantOk(on, vs[0]);
    }
  }

  // ---------------------------------------------------------------------
  // Values that fit a descriptor
  // ---------------------------------------------------------------------

  /** `v` is a value of descriptor `s` in the shape the decoder produces. */
  predicate Conforms(s: Schema, v: Value)
    decreases s, 1
  {
    match s
    case Scalar(k) => ScalarConforms(k, v)
    case Record(fields) => v.VObj? && FieldsConform(fields, v.entries)
    case Enum(codes) => v.VStr? && CodeOf(codes, v.s).Some?
    case Bitmask(bits) => v.VObj? && MaskConforms(bits, v.entries)
    case Array(w, el) =>
      v.VArr? && |v.items| < CountLimit(w) && forall i :: 0 <= i < |v.items| ==> Conforms(el, v.items[i])
    case Lookup(on, vs) =>
      && v.VObj?
      && |v.entries| > 0
      && v.entries[0].key == TagName(on)
      && v.entries[0].value.VStr?
      && VariantConforms(vs, v.entries[0].value.s, v.entries[1..])
  }

  predicate VariantConforms(vs: seq<Variant>, key: string, es: seq<Entry>)
    decreases vs, 2
  {
    exists i :: 0 <= i < |vs| && vs[i].key == key && FindVariant(vs, key) == Some(vs[i]) && FieldsConform(vs[i].fields, es)
  }

  /** The entries of a record value: one per non-tag key, in key order. */
  predicate FieldsConform(fields: seq<Field>, es: seq<Entry>)
    decreases fields, 1
  {
    if |fields| == 0 then es == []
    else if IsTagKey(fields[0].key) then FieldsConform(fields[1..], es)
    else
      && |es| > 0
      && es[0].key == fields[0].key
      && SpecConforms(fields[0].spec, es[0].value)
      && FieldsConform(fields[1..], es[1..])
  }

  predicate SpecConforms(spec: Spec, v: Value)
    decreases spec
  {
    match spec
    case Literal(_) => v == VObj([])
    case Desc(s) => Conforms(s, v)
  }

  predicate MaskConforms(bits: seq<Code>, es: seq<Entry>) {
    |es| == |bits| && forall i :: 0 <= i < |bits| ==> es[i].key == bits[i].key && es[i].value.VBool?
  }

  // ---------------------------------------------------------------------
  // Key lookups
  // ---------------------------------------------------------------------

  predicate DistinctEntryKeys(es: seq<Entry>) {
    forall i, j :: 0 <= i < j < |es| ==> es[i].key != es[j].key
  }

  /** Looking up each entry's own key in `env` finds that entry's value. */
  predicate Agrees(es: seq<Entry>, env: seq<Entry>) {
    forall i :: 0 <= i < |es| ==> Get(env, es[i].key) == Some(es[i].value)
  }

  lemma {:induction false} GetFirst(es: seq<Entry>, i: nat)
    requires i < |es| && DistinctEntryKeys(es)
    ensures Get(es, es[i].key) == Some(es[i].value)
    decreases i
  {
    if i > 0 {
      GetFirst(es[1..], i - 1);
    }
  }

  lemma AgreesSelf(es: seq<Entry>)
    requires DistinctEntryKeys(es)
    ensures Agrees(es, es)
  {
    forall i | 0 <= i < |es|
      ensures Get(es, es[i].key) == Some(es[i].value)
    {
      GetFirst(es, i);
    }
  }

  /** The keys of a record value are non-tag keys of its descriptor, each once. */
  lemma {:induction false} ConformKeys(fields: seq<Field>, es: seq<Entry>)
    requires FieldsConform(fields, es) && DistinctFieldKeys(fields)
    ensures DistinctEntryKeys(es)
    ensures forall i :: 0 <= i < |es| ==> !IsTagKey(es[i].key) && exists j :: 0 <= j < |fields| && fields[j].key == es[i].key
    decreases fields
  {
    if |fields| > 0 {
      if IsTagKey(fields[0].key) {
        ConformKeys(fields[1..], es);
        forall i | 0 <= i < |es|
          ensures exists j :: 0 <= j < |fields| && fields[j].key == es[i].key
        {
          var j :| 0 <= j < |fields[1..]| && fields[1..][j].key == es[i].key;
          assert fields[j + 1].key == es[i].key;
        }
      } else {
        ConformKeys(fields[1..], es[1..]);
        forall i | 0 <= i < |es|
          ensures !IsTagKey(es[i].key) && exists j :: 0 <= j < |fields| && fields[j].key == es[i].key
        {
          if i > 0 {
            var j :| 0 <= j < |fields[1..]| && fields[1..][j].key == es[1..][i - 1].key;
            assert fields[j + 1].key == es[i].key;
          } else {
            assert fields[0].key == es[0].key;
          }
        }
        forall a, b | 0 <= a < b < |es|
          ensures es[a].key != es[b].key
        {
          if a == 0 {
            var j :| 0 <= j < |fields[1..]| && fields[1..][j].key == es[1..][b - 1].key;
            assert fields[j + 1].key == es[b].key;
          } else {
            assert es[1..][a - 1].key != es[1..][b - 1].key;
          }
        }
      }
    }
  }

  lemma AgreesAfterTag(head: Entry, es: seq<Entry>)
    requires IsTagKey(head.key) && Agrees(es, es)
    requires forall i :: 0 <= i < |es| ==> !IsTagKey(es[i].key)
    ensures Agrees(es, [head] + es)
  {
    forall i | 0 <= i < |es|
      ensures Get([head] + es, es[i].key) == Some(es[i].value)
    {
      assert ([head] + es)[1..] == es;
    }
  }

  // ---------------------------------------------------------------------
  // The readers consume a prefix
  // ---------------------------------------------------------------------

  lemma SuffixTrans<T>(a: seq<T>, b: seq<T>, c: seq<T>)
    requires IsSuffix(a, b) && IsSuffix(b, c)
    ensures IsSuffix(a, c)
  {
    assert c[|c| - |b|..][|b| - |a|..] == c[|c| - |a|..];
  }

  lemma TailIsSuffix<T>(xs: seq<T>)
    requires |xs| > 0
    ensures IsSuffix(xs[1..], xs)
  {
  }

  /** Every successful read leaves a suffix of its input: the readers only
      ever move forward in the buffer. */
  lemma {:induction false} SchemaConsumesPrefix(s: Schema, toks: seq<Token>)
    ensures ReadSchema(s, toks).Ok? ==> IsSuffix(ReadSchema(s, toks).value.1, toks)
    decreases s, 1
  {
    if ReadSchema(s, toks).Ok? {
      if s.Record? {
        FieldsConsumePrefix(s.fields, toks);
      } else if s.Array? {
        ArrayConsumesPrefix(s.width, s.elements, toks);
      } else if s.Lookup? {
        LookupConsumesPrefix(s.on, s.variants, toks);
      } else {
        LeafConsumesOne(s, toks);
      }
    }
  }

  /** A scalar, enum or bitmask reads exactly one token. */
  lemma LeafConsumesOne(s: Schema, toks: seq<Token>)
    requires s.Scalar? || s.Enum? || s.Bitmask?
    requires ReadSchema(s, toks).Ok?
    ensures IsSuffix(ReadSchema(s, toks).value.1, toks)
    decreases s, 0
  {
    TailIsSuffix(toks);
  }

  lemma ArrayConsumesPrefix(w: CountWidth, el: Schema, toks: seq<Token>)
    requires ReadSchema(Array(w, el), toks).Ok?
    ensures IsSuffix(ReadSchema(Array(w, el), toks).value.1, toks)
    decreases Array(w, el), 0
  {
    var n := ReadCount(w, toks).value.0;
    var mid := toks[1..];
    assert ReadItems(el, n, mid).Ok? && ReadItems(el, n, mid).value.1 == ReadSchema(Array(w, el), toks).value.1;
    ItemsConsumePrefix(el, n, mid);
    SuffixTrans(ReadItems(el, n, mid).value.1, mid, toks);
  }

  lemma LookupConsumesPrefix(on: TagKey, vs: seq<Variant>, toks: seq<Token>)
    requires ReadSchema(Lookup(on, vs), toks).Ok?
    ensures IsSuffix(ReadSchema(Lookup(on, vs), toks).value.1, toks)
    decreases Lookup(on, vs), 0
  {
    var tag := ReadU8(toks).value.0;
    var mid := toks[1..];
    var fields := FindTag(vs, on, tag).value.fields;
    assert ReadFields(fields, mid).Ok? && ReadFields(fields, mid).value.1 == ReadSchema(Lookup(on, vs), toks).value.1;
    FieldsConsumePrefix(fields, mid);
    SuffixTrans(ReadFields(fields, mid).value.1, mid, toks);
  }

  lemma {:induction false} FieldsConsumePrefix(fields: seq<Field>, toks: seq<Token>)
    ensures ReadFields(fields, toks).Ok? ==> IsSuffix(ReadFields(fields, toks).value.1, toks)
    decreases fields
  {
    if |fields| > 0 && ReadFields(fields, toks).Ok? {
      if IsTagKey(fields[0].key) {
        FieldsConsumePrefix(fields[1..], toks);
      } else {
        var mid := ReadSpec(fields[0].spec, toks).value.1;
        SpecConsumesPrefix(fields[0].spec, toks);
        FieldsConsumePrefix(fields[1..], mid);
        SuffixTrans(ReadFields(fields, toks).value.1, mid, toks);
      }
    }
  }

  lemma {:induction false} ItemsConsumePrefix(el: Schema, n: nat, toks: seq<Token>)
    ensures ReadItems(el, n, toks).Ok? ==> IsSuffix(ReadItems(el, n, toks).value.1, toks)
    decreases el, n + 2
  {
    if n > 0 && ReadItems(el, n, toks).Ok? {
      var mid := ReadSchema(el, toks).value.1;
      SchemaConsumesPrefix(el, toks);
      ItemsConsumePrefix(el, n - 1, mid);
      SuffixTrans(ReadItems(el, n, toks).value.1, mid, toks);
    }
  }

  lemma {:induction false} SpecConsumesPrefix(spec: Spec, toks: seq<Token>)
    ensures ReadSpec(spec, toks).Ok? ==> IsSuffix(ReadSpec(spec, toks).value.1, toks)
    decreases spec
  {
    if spec.Desc? {
      SchemaConsumesPrefix(spec.schema, toks);
    }
  }

  // ---------------------------------------------------------------------
  // Round trips
  // ---------------------------------------------------------------------

  /** Decoding what was encoded gives the value back and leaves the rest of the
      buffer untouched, for every well-formed writable descriptor and every value
      that fits it: records key by key, arrays of up to 255 / 65535 elements
      (the empty one included), and each union variant with its key re-attached. */
  lemma {:induction false} RoundTrip(s: Schema, v: Value, rest: seq<Token>)
    requires WellFormed(s) && Encodable(s) && Conforms(s, v)
    ensures AddSchema(s, v).Ok?
    ensures ReadSchema(s, AddSchema(s, v).value + rest) == Ok((v, rest))
    decreases s, 2
  {
    match s
    case Record(fields) =>
      ConformKeys(fields, v.entries);
      AgreesSelf(v.entries);
      RoundTripFields(fields, v.entries, v.entries, rest);
    case Array(w, el) =>
      RoundTripArray(w, el, v.items, rest);
    case Lookup(on, vs) =>
      RoundTripLookup(on, vs, v, rest);
  }

  lemma {:induction false} RoundTripArray(w: CountWidth, el: Schema, items: seq<Value>, rest: seq<Token>)
    requires WellFormed(el) && Encodable(el) && |items| < CountLimit(w)
    requires forall i :: 0 <= i < |items| ==> Conforms(el, items[i])
    ensures AddSchema(Array(w, el), VArr(items)).Ok?
    ensures ReadSchema(Array(w, el), AddSchema(Array(w, el), VArr(items)).value + rest) == Ok((VArr(items), rest))
    decreases el, |items| + 4
  {
    RoundTripItems(el, items, rest);
    var body := AddItems(el, items).value;
    ArrayWriteStep(w, el, items, body);
    ArrayReadStep(w, el, |items|, body + rest, items, rest);
    Assoc([CountToken(w, |items|)], body, rest);
  }

  lemma ArrayWriteStep(w: CountWidth, el: Schema, items: seq<Value>, body: seq<Token>)
    requires AddItems(el, items) == Ok(body)
    ensures AddSchema(Array(w, el), VArr(items)) == Ok([CountToken(w, |items|)] + body)
  {
  }

  lemma ArrayReadStep(w: CountWidth, el: Schema, n: nat, toks: seq<Token>, items: seq<Value>, rest: seq<Token>)
    requires n < CountLimit(w) && ReadItems(el, n, toks) == Ok((items, rest))
    ensures ReadSchema(Array(w, el), [CountToken(w, n)] + toks) == Ok((VArr(items), rest))
  {
    assert ReadCount(w, [CountToken(w, n)] + toks) == Ok((n, toks));
  }

  lemma {:induction false} RoundTripLookup(on: TagKey, vs: seq<Variant>, v: Value, rest: seq<Token>)
    requires WellFormed(Lookup(on, vs)) && Conforms(Lookup(on, vs), v)
    ensures AddSchema(Lookup(on, vs), v).Ok?
    ensures ReadSchema(Lookup(on, vs), AddSchema(Lookup(on, vs), v).value + rest) == Ok((v, rest))
    decreases vs, 3
  {
    var head := v.entries[0];
    var es := v.entries[1..];
    assert v.entries == [head] + es;
    var i :| 0 <= i < |vs| && vs[i].key == head.value.s && FindVariant(vs, head.value.s) == Some(vs[i])
             && FieldsConform(vs[i].fields, es);
    VariantFacts(on, vs, i);
    var tag := VariantTag(vs[i], on).value;
    FindTagUnique(on, vs, i);
    ConformKeys(vs[i].fields, es);
    AgreesSelf(es);
    AgreesAfterTag(head, es);
    RoundTripFields(vs[i].fields, es, v.entries, rest);
    var body := AddFields(vs[i].fields, v.entries).value;
    LookupWriteStep(on, vs, v, vs[i], tag, body);
    LookupReadStep(on, vs, tag, vs[i], body + rest, es, rest);
    Assoc([TU8(tag)], body, rest);
    assert v == VObj([Entry(TagName(on), VStr(vs[i].key))] + es);
  }

  lemma LookupWriteStep(on: TagKey, vs: seq<Variant>, v: Value, vr: Variant, tag: int, body: seq<Token>)
    requires v.VObj? && |v.entries| > 0 && v.entries[0] == Entry(TagName(on), VStr(vr.key))
    requires FindVariant(vs, vr.key) == Some(vr) && VariantTag(vr, on) == Some(tag) && 0 <= tag < TWO_8
    requires AddFields(vr.fields, v.entries) == Ok(body)
    ensures AddSchema(Lookup(on, vs), v) == Ok([TU8(tag)] + body)
  {
    assert Get(v.entries, TagName(on)) == Some(VStr(vr.key));
  }

  lemma LookupReadStep(on: TagKey, vs: seq<Variant>, tag: int, vr: Variant, toks: seq<Token>, es: seq<Entry>, rest: seq<Token>)
    requires FindTag(vs, on, tag) == Some(vr) && ReadFields(vr.fields, toks) == Ok((es, rest))
    ensures ReadSchema(Lookup(on, vs), [TU8(tag)] + toks) == Ok((VObj([Entry(TagName(on), VStr(vr.key))] + es), rest))
  {
    var t := [TU8(tag)] + toks;
    DropCons(TU8(tag), toks);
    assert ReadU8(t) == Ok((tag, toks));
    assert FindTag(vs, on, tag).Some?;
  }

  /** The loop over a record's keys: fields come back in key order. */
  lemma {:induction false} RoundTripFields(fields: seq<Field>, es: seq<Entry>, env: seq<Entry>, rest: seq<Token>)
    requires SpecsWellFormed(fields) && FieldsConform(fields, es) && Agrees(es, env)
    ensures AddFields(fields, env).Ok?
    ensures ReadFields(fields, AddFields(fields, env).value + rest) == Ok((es, rest))
    decreases fields, 2
  {
    if |fields| == 0 {
      assert [] + rest == rest;
    } else {
      if IsTagKey(fields[0].key) {
        RoundTripFields(fields[1..], es, env, rest);
        FieldsSkipStep(fields, env, AddFields(fields[1..], env).value + rest);
      } else {
        assert Agrees(es[1..], env) by {
          forall i | 0 <= i < |es[1..]|
            ensures Get(env, es[1..][i].key) == Some(es[1..][i].value)
          {
            assert es[1..][i] == es[i + 1];
          }
        }
        RoundTripFields(fields[1..], es[1..], env, rest);
        var tail := AddFields(fields[1..], env).value;
        RoundTripSpec(fields[0].spec, es[0].value, tail + rest);
        var head := AddField(fields[0].spec, Some(es[0].value)).value;
        FieldsConsStep(fields, env, head, tail, es[0].value, es[1..], rest);
        assert [Entry(fields[0].key, es[0].value)] + es[1..] == es;
      }
    }
  }

  lemma FieldsSkipStep(fields: seq<Field>, env: seq<Entry>, toks: seq<Token>)
    requires |fields| > 0 && IsTagKey(fields[0].key)
    ensures AddFields(fields, env) == AddFields(fields[1..], env)
    ensures ReadFields(fields, toks) == ReadFields(fields[1..], toks)
  {
    if AddFields(fields[1..], env).Ok? {
      assert [] + AddFields(fields[1..], env).value == AddFields(fields[1..], env).value;
    }
  }

  lemma FieldsConsStep(fields: seq<Field>, env: seq<Entry>, head: seq<Token>, tail: seq<Token>,
                       v: Value, es: seq<Entry>, rest: seq<Token>)
    requires |fields| > 0 && !IsTagKey(fields[0].key)
    requires AddField(fields[0].spec, Get(env, fields[0].key)) == Ok(head) && AddFields(fields[1..], env) == Ok(tail)
    requires ReadSpec(fields[0].spec, head + (tail + rest)) == Ok((v, tail + rest))
    requires ReadFields(fields[1..], tail + rest) == Ok((es, rest))
    ensures AddFields(fields, env) == Ok(head + tail)
    ensures ReadFields(fields, (head + tail) + rest) == Ok(([Entry(fields[0].key, v)] + es, rest))
  {
    Assoc(head, tail, rest);
  }

  /** One record key on its own. */
  lemma {:induction false} RoundTripSpec(spec: Spec, v: Value, rest: seq<Token>)
    requires (spec.Desc? ==> WellFormed(spec.schema)) && SpecConforms(spec, v)
    ensures AddField(spec, Some(v)).Ok?
    ensures ReadSpec(spec, AddField(spec, Some(v)).value + rest) == Ok((v, rest))
    decreases spec
  {
    match spec
    case Literal(_) =>
      assert [] + rest == rest;
    case Desc(s) =>
      match s
      case Scalar(k) =>
        RoundTripScalar(k, v, rest);
      case Enum(codes) =>
        RoundTripEnum(codes, v, rest);
      case Bitmask(bits) =>
        RoundTripBitmask(bits, v, rest);
      case _ =>
        RoundTrip(s, v, rest);
  }

  /** The leaf descriptors a field names directly: one token each. */
  lemma RoundTripScalar(k: ScalarKind, v: Value, rest: seq<Token>)
    requires SpecConforms(Desc(Scalar(k)), v)
    ensures AddField(Desc(Scalar(k)), Some(v)).Ok?
    ensures ReadSpec(Desc(Scalar(k)), AddField(Desc(Scalar(k)), Some(v)).value + rest) == Ok((v, rest))
  {
    assert AddField(Desc(Scalar(k)), Some(v)).value + rest == [WriteScalar(k, v).value] + rest;
  }

  lemma RoundTripEnum(codes: seq<Code>, v: Value, rest: seq<Token>)
    requires WellFormed(Enum(codes)) && SpecConforms(Desc(Enum(codes)), v)
    ensures AddField(Desc(Enum(codes)), Some(v)).Ok?
    ensures ReadSpec(Desc(Enum(codes)), AddField(Desc(Enum(codes)), Some(v)).value + rest) == Ok((v, rest))
  {
    var c := CodeOf(codes, v.s).value;
    EnumKeyOfCode(codes, v.s);
    assert AddField(Desc(Enum(codes)), Some(v)).value + rest == [TU8(c)] + rest;
  }

  lemma RoundTripBitmask(bits: seq<Code>, v: Value, rest: seq<Token>)
    requires WellFormed(Bitmask(bits)) && SpecConforms(Desc(Bitmask(bits)), v)
    ensures AddField(Desc(Bitmask(bits)), Some(v)).Ok?
    ensures ReadSpec(Desc(Bitmask(bits)), AddField(Desc(Bitmask(bits)), Some(v)).value + rest) == Ok((v, rest))
  {
    ConformMaskKeys(bits, v.entries);
    AgreesSelf(v.entries);
    var flags := MaskBits(bits, v.entries).value;
    assert AddField(Desc(Bitmask(bits)), Some(v)).value + rest == [TBits(flags)] + rest;
    assert UnmaskBits(bits, flags) == v.entries;
  }

  /** The array loops: exactly as many elements come back as were written. */
  lemma {:induction false} RoundTripItems(el: Schema, items: seq<Value>, rest: seq<Token>)
    requires WellFormed(el) && Encodable(el)
    requires forall i :: 0 <= i < |items| ==> Conforms(el, items[i])
    ensures AddItems(el, items).Ok?
    ensures ReadItems(el, |items|, AddItems(el, items).value + rest) == Ok((items, rest))
    decreases el, |items| + 3
  {
    if |items| == 0 {
      assert [] + rest == rest;
    } else {
      assert forall i :: 0 <= i < |items[1..]| ==> items[1..][i] == items[i + 1];
      RoundTripItems(el, items[1..], rest);
      ItemsCons(el, items, rest);
    }
  }

  lemma ItemsCons(el: Schema, items: seq<Value>, rest: seq<Token>)
    requires WellFormed(el) && Encodable(el) && |items| > 0 && Conforms(el, items[0])
    requires AddItems(el, items[1..]).Ok?
    requires ReadItems(el, |items| - 1, AddItems(el, items[1..]).value + rest) == Ok((items[1..], rest))
    ensures AddItems(el, items).Ok?
    ensures ReadItems(el, |items|, AddItems(el, items).value + rest) == Ok((items, rest))
    decreases el, |items| + 2
  {
    var tail := AddItems(el, items[1..]).value;
    RoundTrip(el, items[0], tail + rest);
    var head := AddSchema(el, items[0]).value;
    AddItemsStep(el, items, head, tail);
    ItemsChain(el, items, head, tail, rest);
  }

  lemma ItemsChain(el: Schema, items: seq<Value>, head: seq<Token>, tail: seq<Token>, rest: seq<Token>)
    requires |items| > 0
    requires ReadSchema(el, head + (tail + rest)) == Ok((items[0], tail + rest))
    requires ReadItems(el, |items| - 1, tail + rest) == Ok((items[1..], rest))
    ensures ReadItems(el, |items|, (head + tail) + rest) == Ok((items, rest))
  {
    ReadItemsStep(el, |items|, head + (tail + rest), items[0], tail + rest, items[1..], rest);
    Assoc(head, tail, rest);
    HeadTail(items);
  }

  lemma AddItemsStep(el: Schema, items: seq<Value>, head: seq<Token>, tail: seq<Token>)
    requires |items| > 0 && AddSchema(el, items[0]) == Ok(head) && AddItems(el, items[1..]) == Ok(tail)
    ensures AddItems(el, items) == Ok(head + tail)
  {
  }

  lemma ReadItemsStep(el: Schema, n: nat, toks: seq<Token>, x: Value, mid: seq<Token>, xs: seq<Value>, rest: seq<Token>)
    requires n > 0 && ReadSchema(el, toks) == Ok((x, mid)) && ReadItems(el, n - 1, mid) == Ok((xs, rest))
    ensures ReadItems(el, n, toks) == Ok(([x] + xs, rest))
  {
  }

  // ---------------------------------------------------------------------
  // Helpers for enums, bitmasks and unions
  // ---------------------------------------------------------------------

  /** With distinct codes the enum reader finds the key the writer looked up. */
  lemma EnumKeyOfCode(codes: seq<Code>, key: string)
    requires DistinctCodes(codes) && CodeOf(codes, key).Some?
    ensures KeyOf(codes, CodeOf(codes, key).value) == Some(key)
  {
    var c := CodeOf(codes, key).value;
    var k := KeyOf(codes, c);
    assert Code(key, c) in codes;
    var i :| 0 <= i < |codes| && codes[i] == Code(key, c);
    assert k.Some?;
    var j :| 0 <= j < |codes| && codes[j] == Code(k.value, c);
    assert i == j;
  }

  lemma ConformMaskKeys(bits: seq<Code>, es: seq<Entry>)
    requires DistinctCodeKeys(bits) && MaskConforms(bits, es)
    ensures DistinctEntryKeys(es)
  {
  }

  lemma VariantFacts(on: TagKey, vs: seq<Variant>, i: nat)
    requires i < |vs| && VariantsWellFormed(on, vs)
    ensures VariantTag(vs[i], on).Some? && 0 <= VariantTag(vs[i], on).value < TWO_8
    ensures FieldsWellFormed(vs[i].fields)
    decreases i
  {
    if i > 0 {
      VariantFacts(on, vs[1..], i - 1);
    }
  }

  /** With distinct tags the decoder's search finds the variant the encoder used. */
  lemma FindTagUnique(on: TagKey, vs: seq<Variant>, i: nat)
    requires i < |vs| && DistinctTags(on, vs) && VariantTag(vs[i], on).Some?
    ensures FindTag(vs, on, VariantTag(vs[i], on).value) == Some(vs[i])
  {
    var r := FindTag(vs, on, VariantTag(vs[i], on).value);
    assert r.Some?;
    var j :| 0 <= j < |vs| && vs[j] == r.value;
    if j != i {
      assert VariantTag(vs[i], on) == VariantTag(vs[j], on);
    }
  }
}
