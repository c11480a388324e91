/** The places where the codec of arrayBufferSchema.ts does something other than
    a clean round trip: enum bytes with no key, union tags with no variant,
    bitmask keys that do not sit at their own position, descriptor nodes the
    writer has no case for, and array counts that do not fit their width. */
module CodecQuirks {
  import opened Wrappers
  import opened Codec
  import opened CodecProofs

  // ---------------------------------------------------------------------
  // Enums and unions on bytes nobody wrote
  // ---------------------------------------------------------------------

  /** The enum reader never fails on a byte: it yields the first key carrying
      that code, and undefined exactly when no key carries it. */
  lemma EnumDecode(codes: seq<Code>, n: int, rest: seq<Token>)
    ensures ReadSchema(Enum(codes), [TU8(n)] + rest).Ok?
    ensures ReadSchema(Enum(codes), [TU8(n)] + rest).value.1 == rest
    ensures ReadSchema(Enum(codes), [TU8(n)] + rest).value.0 == VUndefined
            <==> forall c :: c in codes ==> c.code != n
    ensures ReadSchema(Enum(codes), [TU8(n)] + rest).value.0 != VUndefined
            ==> Code(ReadSchema(Enum(codes), [TU8(n)] + rest).value.0.s, n) in codes
  {
    assert ReadU8([TU8(n)] + rest) == Ok((n, rest));
  }

  /** A union tag byte that no variant carries is an error ('Schema not found'),
      unlike the enum reader above. */
  lemma UnknownTagFails(on: TagKey, vs: seq<Variant>, tag: int, rest: seq<Token>)
    requires forall v :: v in vs ==> VariantTag(v, on) != Some(tag)
    ensures ReadSchema(Lookup(on, vs), [TU8(tag)] + rest) == Err(SchemaNotFound(on, tag))
  {
    assert ReadU8([TU8(tag)] + rest) == Ok((tag, rest));
  }

  /** A union tag that some variant carries selects the first such variant and
      labels the result with that variant's key. */
  lemma KnownTagSelects(on: TagKey, vs: seq<Variant>, i: nat, rest: seq<Token>)
    requires i < |vs| && DistinctTags(on, vs) && VariantTag(vs[i], on).Some?
    ensures var r := ReadSchema(Lookup(on, vs), [TU8(VariantTag(vs[i], on).value)] + rest);
            r.Ok? ==> && r.value.0.VObj?
                      && |r.value.0.entries| > 0
                      && r.value.0.entries[0] == Entry(TagName(on), VStr(vs[i].key))
  {
    FindTagUnique(on, vs, i);
    assert ReadU8([TU8(VariantTag(vs[i], on).value)] + rest) == Ok((VariantTag(vs[i], on).value, rest));
  }

  // ---------------------------------------------------------------------
  // Bitmasks: the writer goes by position, the reader by code
  // ---------------------------------------------------------------------

  /** Encode then decode of a bitmask value with nothing after it. */
  predicate MaskRoundTrips(bits: seq<Code>, es: seq<Entry>) {
    && AddField(Desc(Bitmask(bits)), Some(VObj(es))).Ok?
    && ReadSchema(Bitmask(bits), AddField(Desc(Bitmask(bits)), Some(VObj(es))).value) == Ok((VObj(es), []))
  }

  /** The value that sets only the flag of key `i`. */
  function OneHot(bits: seq<Code>, i: int): (r: seq<Entry>)
    ensures |r| == |bits|
    ensures forall j :: 0 <= j < |bits| ==> r[j] == Entry(bits[j].key, VBool(j == i))
    decreases |bits|
  {
    if |bits| == 0 then [] else [Entry(bits[0].key, VBool(0 == i))] + OneHot(bits[1..], i - 1)
  }

  /** Every bitmask value round-trips exactly when each key's code is its position. */
  lemma BitmaskRoundTripIff(bits: seq<Code>)
    requires DistinctCodeKeys(bits)
    ensures Positional(bits) <==> forall es :: MaskConforms(bits, es) ==> MaskRoundTrips(bits, es)
  {
    if Positional(bits) {
      forall es | MaskConforms(bits, es)
        ensures MaskRoundTrips(bits, es)
      {
        RoundTripSpec(Desc(Bitmask(bits)), VObj(es), []);
        assert AddField(Desc(Bitmask(bits)), Some(VObj(es))).value + [] == AddField(Desc(Bitmask(bits)), Some(VObj(es))).value;
      }
    } else {
      var i :| 0 <= i < |bits| && bits[i].code != i;
      OneHotBreaks(bits, i);
    }
  }

  /** The counterexample: one flag set at a key whose code is not its position
      comes back cleared (or undefined). */
  lemma {:induction false} OneHotBreaks(bits: seq<Code>, i: int)
    requires DistinctCodeKeys(bits) && 0 <= i < |bits| && bits[i].code != i
    ensures MaskConforms(bits, OneHot(bits, i))
    ensures AddField(Desc(Bitmask(bits)), Some(VObj(OneHot(bits, i)))).Ok?
    ensures ReadSchema(Bitmask(bits), AddField(Desc(Bitmask(bits)), Some(VObj(OneHot(bits, i)))).value)
            != Ok((VObj(OneHot(bits, i)), []))
  {
    var es := OneHot(bits, i);
    MaskBitsOk(bits, es);
    var flags := MaskBits(bits, es).value;
    BitmaskRead(bits, flags);
    UnmaskOneHot(bits, flags, i);
  }

  /** A conforming bitmask value is written as the flags of its keys, in order. */
  lemma MaskBitsOk(bits: seq<Code>, es: seq<Entry>)
    requires DistinctCodeKeys(bits) && MaskConforms(bits, es)
    ensures MaskBits(bits, es).Ok?
    ensures forall j :: 0 <= j < |bits| ==> es[j].value == VBool(MaskBits(bits, es).value[j])
    ensures AddField(Desc(Bitmask(bits)), Some(VObj(es))) == Ok([TBits(MaskBits(bits, es).value)])
  {
    ConformMaskKeys(bits, es);
    AgreesSelf(es);
  }

  lemma BitmaskRead(bits: seq<Code>, flags: seq<bool>)
    ensures ReadSchema(Bitmask(bits), [TBits(flags)]) == Ok((VObj(UnmaskBits(bits, flags)), []))
  {
  }

  /** With only flag `i` set, key `i` reads back as something other than true
      when its code is not `i`. */
  lemma UnmaskOneHot(bits: seq<Code>, flags: seq<bool>, i: int)
    requires 0 <= i < |bits| && bits[i].code != i
    requires forall j :: 0 <= j < |flags| ==> flags[j] == (j == i)
    ensures UnmaskBits(bits, flags)[i].value != VBool(true)
  {
    var c := bits[i].code;
    if 0 <= c < |flags| {
      assert !flags[c];
    }
  }

  // ---------------------------------------------------------------------
  // What addSchemaBuffer cannot write
  // ---------------------------------------------------------------------

  /** A bare scalar, enum or bitmask has no case in the writer. */
  lemma BareNodeNotEncodable(s: Schema, v: Value)
    requires !Encodable(s)
    ensures AddSchema(s, v) == Err(NotEncodable)
  {
  }

  /** So an array of bare scalars (or enums, or bitmasks) is writable only while
      it is empty. */
  lemma BareArrayNotEncodable(w: CountWidth, el: Schema, items: seq<Value>)
    requires !Encodable(el)
    ensures AddSchema(Array(w, el), VArr(items)).Ok? <==> |items| == 0
    ensures |items| == 0 ==> AddSchema(Array(w, el), VArr(items)) == Ok([CountToken(w, 0)])
  {
    if |items| > 0 {
      BareNodeNotEncodable(el, items[0]);
    } else {
      assert [CountToken(w, 0)] + [] == [CountToken(w, 0)];
    }
  }

  /** A uint8-counted array of 256 elements writes the count 0, so the reader
      sees an empty array and leaves every element's tokens unread. */
  lemma ArrayCountWraps(el: Schema, items: seq<Value>)
    requires |items| == TWO_8 && AddSchema(Array(CountU8, el), VArr(items)).Ok?
    ensures AddSchema(Array(CountU8, el), VArr(items)).value[0] == TU8(0)
    ensures var buf := AddSchema(Array(CountU8, el), VArr(items)).value;
            ReadSchema(Array(CountU8, el), buf) == Ok((VArr([]), buf[1..]))
  {
  }

  // ---------------------------------------------------------------------
  // The keys `type` and `entityType`
  // ---------------------------------------------------------------------

  /** A record descriptor without its tag keys. */
  function NonTagFields(fields: seq<Field>): (r: seq<Field>)
    ensures |r| <= |fields|
    ensures forall i :: 0 <= i < |r| ==> !IsTagKey(r[i].key) && r[i] in fields
  {
    if |fields| == 0 then []
    else if IsTagKey(fields[0].key) then NonTagFields(fields[1..])
    else [fields[0]] + NonTagFields(fields[1..])
  }

  /** The writer and the reader treat every `type`/`entityType` key of a record
      as if it were not there. */
  lemma {:induction false} TagKeysSkipped(fields: seq<Field>, env: seq<Entry>, toks: seq<Token>)
    ensures AddFields(fields, env) == AddFields(NonTagFields(fields), env)
    ensures ReadFields(fields, toks) == ReadFields(NonTagFields(fields), toks)
    decreases fields
  {
    if |fields| > 0 {
      TagKeysSkipped(fields[1..], env, toks);
      if IsTagKey(fields[0].key) {
        FieldsSkipStep(fields, env, toks);
      } else {
        var nt := NonTagFields(fields);
        assert nt[0] == fields[0] && nt[1..] == NonTagFields(fields[1..]);
        forall rest | true
          ensures ReadFields(fields[1..], rest) == ReadFields(nt[1..], rest)
        {
          TagKeysSkipped(fields[1..], env, rest);
        }
      }
    }
  }

  /** What the record reader returns never holds a tag key, and the value of
      a tag key in the written object never reaches the buffer. */
  lemma {:induction false} ReadFieldsNoTagKeys(fields: seq<Field>, toks: seq<Token>)
    ensures ReadFields(fields, toks).Ok? ==>
      forall i :: 0 <= i < |ReadFields(fields, toks).value.0| ==> !IsTagKey(ReadFields(fields, toks).value.0[i].key)
    decreases fields
  {
    if |fields| > 0 && ReadFields(fields, toks).Ok? {
      if IsTagKey(fields[0].key) {
        ReadFieldsNoTagKeys(fields[1..], toks);
      } else {
        var (v, rest) := ReadSpec(fields[0].spec, toks).value;
        ReadFieldsNoTagKeys(fields[1..], rest);
      }
    }
  }

  lemma {:induction false} TagEntryIgnored(fields: seq<Field>, e: Entry, env: seq<Entry>)
    requires IsTagKey(e.key)
    ensures AddFields(fields, [e] + env) == AddFields(fields, env)
    decreases fields
  {
    if |fields| > 0 {
      TagEntryIgnored(fields[1..], e, env);
      if !IsTagKey(fields[0].key) {
        assert ([e] + env)[1..] == env;
        assert Get([e] + env, fields[0].key) == Get(env, fields[0].key);
      }
    }
  }
}
