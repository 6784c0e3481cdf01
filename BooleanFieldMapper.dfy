/**
 * The boolean field mapper: booleans are indexed as the one-letter terms
 * "T" and "F", with an optional value standing in for JSON null.
 */
module BooleanFieldMapper {
  import opened Wrappers
  import opened AbstractFieldMapper
  import TypeParsers

  const ContentType := "boolean"
  const MapperClass := "BooleanFieldMapper"

  /** A boolean field's builder defaults to omitting norms. */
  const DefaultOmitNormsBoolean := true

  /** Reading the first character of an empty string. */
  datatype IndexError = StringIndexOutOfBounds

  /** A boolean field's builder: the common builder plus the null value. */
  class Builder {
    const base: AbstractFieldMapper.Builder
    var nullValue: Option<bool>

    constructor(name: string)
      ensures fresh(base)
      ensures base.Value() == DefaultBuilderState(name).(omitNorms := DefaultOmitNormsBoolean)
      ensures nullValue.None?
    {
      base := new AbstractFieldMapper.Builder(name);
      new;
      base.SetOmitNorms(DefaultOmitNormsBoolean);
      nullValue := None;
    }

    method NullValue(v: bool)
      modifies this
      ensures nullValue == Some(v)
    {
      nullValue := Some(v);
    }

    /** Builds the mapper; both of its analyzers are the keyword analyzer. */
    method Build(context: BuilderContext) returns (m: BooleanFieldMapper)
      ensures fresh(m) && fresh(m.base)
      ensures m.nullValue == nullValue
      ensures m.base.Value() == BuiltValue(base.Value(), context)
    {
      var b := base.Value();
      m := new BooleanFieldMapper(BuildNames(b, context), b.index, b.tokenize, b.store,
        b.storeTermVectors, b.storeTermVectorOffsets, b.storeTermVectorPositions,
        b.boost, b.omitNorms, b.indexOptions, nullValue);
    }
  }

  /** The mapper a boolean builder in state `b` builds. */
  function BuiltValue(b: BuilderState, context: BuilderContext): (v: MapperValue)
    ensures v.indexAnalyzer == Some(KeywordAnalyzer) && v.searchAnalyzer == Some(KeywordAnalyzer)
    ensures v.names == BuildNames(b, context) && v.contentType == ContentType
  {
    MapperValue(MapperClass, ContentType, BuildNames(b, context), b.index, b.tokenize, b.store,
      b.storeTermVectors, b.storeTermVectorOffsets, b.storeTermVectorPositions, b.boost,
      b.omitNorms, b.indexOptions, Some(KeywordAnalyzer), Some(KeywordAnalyzer))
  }

  class BooleanFieldMapper {
    const base: FieldMapper
    const nullValue: Option<bool>

    constructor(names: Names, index: bool, tokenize: bool, store: bool,
                storeTermVectors: bool, storeTermVectorOffsets: bool, storeTermVectorPositions: bool,
                boost: real, omitNorms: bool, indexOptions: IndexOptions, nullValue: Option<bool>)
      ensures fresh(base)
      ensures base.Value() == MapperValue(MapperClass, ContentType, names, index, tokenize, store,
        storeTermVectors, storeTermVectorOffsets, storeTermVectorPositions, boost, omitNorms,
        indexOptions, Some(KeywordAnalyzer), Some(KeywordAnalyzer))
      ensures this.nullValue == nullValue
    {
      base := new FieldMapper(MapperClass, ContentType, names, index, tokenize, store,
        storeTermVectors, storeTermVectorOffsets, storeTermVectorPositions, boost, omitNorms,
        indexOptions, Some(KeywordAnalyzer), Some(KeywordAnalyzer));
      this.nullValue := nullValue;
    }

    /** The filter matching documents whose value was null: absent when no null value is configured. */
    function NullValueFilter(): (f: Option<TermFilter>)
      ensures f.None? <==> nullValue.None?
      ensures f.Some? ==> f.value == TermFilter(base.names.indexName, EncodeBool(nullValue.value))
    {
      match nullValue
      case None => None
      case Some(v) => Some(TermFilter(base.names.indexName, EncodeBool(v)))
    }

    /**
     * The field for the current token (`token` is the parser's current
     * token): none when the field is neither indexed nor stored, none for a
     * null token without a null value, the parser's exception when the
     * token cannot be read as a boolean; otherwise "T" or "F".
     */
    function ParseCreateField(token: Token): (f: Result<Option<LuceneField>, MappingError>)
      ensures !base.index && !base.store ==> f == Ok(None)
      ensures f.Err? <==> (base.index || base.store) && token.UnreadableToken?
      ensures f.Err? ==> f.error == IOException
      ensures (base.index || base.store) && token.NullToken? ==>
        f == Ok(if nullValue.None? then None
                else Some(LuceneField(base.names.indexName, EncodeBool(nullValue.value), base.GetFieldType(), 1.0)))
      ensures (base.index || base.store) && token.BoolToken? ==>
        f == Ok(Some(LuceneField(base.names.indexName, EncodeBool(token.value), base.GetFieldType(), 1.0)))
      ensures f.Ok? && f.value.Some? ==> f.value.value.value in {"T", "F"}
    {
      if !base.index && !base.store then Ok(None)
      else if token.UnreadableToken? then Err(IOException)
      else
        var value: Option<string> :=
          if token.NullToken? then (if nullValue.Some? then Some(if nullValue.value then "T" else "F") else None)
          else Some(if token.value then "T" else "F");
        if value.None? then Ok(None)
        else Ok(Some(LuceneField(base.names.indexName, value.value, base.GetFieldType(), 1.0)))
    }

    /**
     * `parse` of the common mapper, with the field this mapper creates; the
     * boost is always the mapper's, and a token that cannot be read fails
     * the parse with the mapper's parsing exception.
     */
    method Parse(token: Token, approve: LuceneField -> bool, doc: Document) returns (r: Outcome<MappingError>)
      modifies doc
      ensures r.Fail? <==> ParseCreateField(token).Err?
      ensures r.Fail? ==> r.error == ParseFailure(base.names) && doc.fields == old(doc.fields)
      ensures ParseCreateField(token) == Ok(None) ==> doc.fields == old(doc.fields)
      ensures ParseCreateField(token).Ok? && ParseCreateField(token).value.Some? ==>
        var f := ParseCreateField(token).value.value.(boost := base.boost);
        doc.fields == old(doc.fields) + (if approve(f) then [f] else [])
    {
      r := base.Parse(ParseCreateField(token), false, approve, doc);
    }
  }

  /**
   * The current token of the document parser: null, a value read as a
   * boolean, or a value whose `booleanValue()` read throws.
   */
  datatype Token = NullToken | BoolToken(value: bool) | UnreadableToken

  /** A filter on one term of a field. */
  datatype TermFilter = TermFilter(field: string, text: string)

  function EncodeBool(b: bool): (s: string)
    ensures s == "T" || s == "F"
    ensures b <==> s == "T"
  {
    if b then "T" else "F"
  }

  /**
   * The term a query value is indexed as: "T" when `parseBoolean(value,
   * false)` holds (`parseBoolean` is the helper of that name), "F" for
   * null, the empty string, "F" and everything else.
   */
  function IndexedValue(value: Option<string>, parseBoolean: string -> bool): (s: string)
    ensures s == "T" || s == "F"
    ensures value.None? || value == Some("") || value == Some("F") ==> s == "F"
    ensures value.Some? && value.value != "" && value.value != "F" ==> (s == "T" <==> parseBoolean(value.value))
  {
    if value.None? || |value.value| == 0 then "F"
    else if |value.value| == 1 && value.value[0] == 'F' then "F"
    else if parseBoolean(value.value) then "T"
    else "F"
  }

  /** The stored text of a boolean field read back: TRUE iff it starts with 'T'; empty text fails. */
  function ValueFromString(value: string): (r: Result<bool, IndexError>)
    ensures r.Err? <==> value == ""
    ensures r.Ok? ==> (r.value <==> value[0] == 'T')
  {
    if |value| == 0 then Err(StringIndexOutOfBounds) else Ok(value[0] == 'T')
  }

  /** `value(field)`: the same reading of the field's stored text. */
  function Value(field: LuceneField): (r: Result<bool, IndexError>)
    ensures r == ValueFromString(field.value)
  {
    if |field.value| == 0 then Err(StringIndexOutOfBounds) else Ok(field.value[0] == 'T')
  }

  /** The text shown for a stored field: "true" iff the stored text starts with 'T'. */
  function ValueAsString(field: LuceneField): (r: Result<string, IndexError>)
    ensures r.Err? <==> field.value == ""
    ensures r.Ok? ==> (r.value == "true" <==> field.value[0] == 'T')
    ensures r.Ok? ==> r.value in {"true", "false"}
  {
    if |field.value| == 0 then Err(StringIndexOutOfBounds)
    else if field.value[0] == 'T' then Ok("true") else Ok("false")
  }

  /** Reading back an indexed value gives TRUE exactly when the indexed term is "T". */
  lemma IndexedValueRoundTrip(value: Option<string>, parseBoolean: string -> bool)
    ensures ValueFromString(IndexedValue(value, parseBoolean)) == Ok(IndexedValue(value, parseBoolean) == "T")
  {
  }

  /** Encoding a boolean and reading it back gives the boolean. */
  lemma EncodeBoolRoundTrip(b: bool, field: string, ft: FieldType, boost: real)
    ensures ValueFromString(EncodeBool(b)) == Ok(b)
    ensures ValueAsString(LuceneField(field, EncodeBool(b), ft, boost)) == Ok(if b then "true" else "false")
  {
  }

  /** Every field a boolean mapper creates reads back as the boolean it was created from. */
  lemma CreatedFieldReadsBack(m: BooleanFieldMapper, token: Token)
    requires m.ParseCreateField(token).Ok? && m.ParseCreateField(token).value.Some?
    ensures Value(m.ParseCreateField(token).value.value) ==
      Ok(if token.BoolToken? then token.value else m.nullValue.value)
  {
  }

  /**
   * The mapper's type parser: the common options, then `null_value`; a
   * failure of the common options is raised before `null_value` is read,
   * and a `null_value` that cannot be converted raises in turn.
   */
  method Parse(ctx: TypeParsers.ParserContext, name: string, entries: TypeParsers.Entries)
    returns (builder: Builder, r: Outcome<MappingError>)
    ensures fresh(builder) && fresh(builder.base)
    ensures var spec := TypeParsers.ParseFieldSpec(ctx,
        DefaultBuilderState(name).(omitNorms := DefaultOmitNormsBoolean), name, entries);
      builder.base.Value() == spec.0
      && (spec.1.Fail? ==> r == spec.1 && builder.nullValue.None?)
      && (spec.1.Pass? ==> match NullValueOf(ctx, entries, None)
            case Ok(v) => r == Pass && builder.nullValue == v
            case Err(e) => r == Fail(e))
  {
    builder := new Builder(name);
    r := TypeParsers.ParseField(ctx, builder.base, name, entries);
    if r.Fail? {
      return;
    }
    var i := 0;
    while i < |entries|
      invariant 0 <= i <= |entries|
      invariant builder.base.Value() == TypeParsers.ParseFieldSpec(ctx,
        DefaultBuilderState(name).(omitNorms := DefaultOmitNormsBoolean), name, entries).0
      invariant r == Pass
      invariant NullValueOf(ctx, entries, None) == NullValueOf(ctx, entries[i..], builder.nullValue)
    {
      assert entries[i..][1..] == entries[i + 1..];
      var propName := ctx.underscore(entries[i].0);
      if propName == "null_value" {
        var v := ctx.nodeBoolean(entries[i].1);
        if v.Err? {
          r := Fail(v.error);
          return;
        }
        builder.NullValue(v.value);
      }
      i := i + 1;
    }
  }

  /**
   * The null value after the `null_value` entries of `entries`, from
   * `current`, or the exception of the first value `nodeBooleanValue`
   * cannot convert.
   */
  function NullValueOf(ctx: TypeParsers.ParserContext, entries: TypeParsers.Entries, current: Option<bool>):
    Result<Option<bool>, MappingError>
    decreases |entries|
  {
    if entries == [] then Ok(current)
    else if ctx.underscore(entries[0].0) == "null_value" then
      match ctx.nodeBoolean(entries[0].1)
      case Ok(v) => NullValueOf(ctx, entries[1..], Some(v))
      case Err(e) => Err(e)
    else NullValueOf(ctx, entries[1..], current)
  }

  /** A `null_value` entry whose value `nodeBooleanValue` cannot convert. */
  predicate UnconvertibleNullValue(ctx: TypeParsers.ParserContext, entry: (string, TypeParsers.PropNode))
  {
    ctx.underscore(entry.0) == "null_value" && ctx.nodeBoolean(entry.1).Err?
  }

  /** Reading the null value raises exactly when some `null_value` entry cannot be converted. */
  lemma {:induction false} NullValueRaisesIff(ctx: TypeParsers.ParserContext, entries: TypeParsers.Entries, current: Option<bool>)
    ensures NullValueOf(ctx, entries, current).Err? <==>
      exists i :: 0 <= i < |entries| && UnconvertibleNullValue(ctx, entries[i])
    decreases |entries|
  {
    if entries != [] {
      var next := if ctx.underscore(entries[0].0) == "null_value" && ctx.nodeBoolean(entries[0].1).Ok?
        then Some(ctx.nodeBoolean(entries[0].1).value) else current;
      NullValueRaisesIff(ctx, entries[1..], next);
      if exists i :: 0 <= i < |entries| && UnconvertibleNullValue(ctx, entries[i]) {
        var i :| 0 <= i < |entries| && UnconvertibleNullValue(ctx, entries[i]);
        if i != 0 {
          assert entries[1..][i - 1] == entries[i];
        }
      }
      if exists i :: 0 <= i < |entries[1..]| && UnconvertibleNullValue(ctx, entries[1..][i]) {
        var i :| 0 <= i < |entries[1..]| && UnconvertibleNullValue(ctx, entries[1..][i]);
        assert entries[1..][i] == entries[i + 1];
      }
    }
  }

  predicate NoNullValueEntry(ctx: TypeParsers.ParserContext, entries: TypeParsers.Entries)
  {
    forall i :: 0 <= i < |entries| ==> ctx.underscore(entries[i].0) != "null_value"
  }

  /** Without a `null_value` entry the null value stays as it was. */
  lemma {:induction false} NullValueUnset(ctx: TypeParsers.ParserContext, entries: TypeParsers.Entries, current: Option<bool>)
    requires NoNullValueEntry(ctx, entries)
    ensures NullValueOf(ctx, entries, current) == Ok(current)
    decreases |entries|
  {
    if entries != [] {
      assert entries[1..] == entries[1..];
      assert forall j :: 0 <= j < |entries[1..]| ==> entries[1..][j] == entries[j + 1];
      NullValueUnset(ctx, entries[1..], current);
    }
  }

  lemma {:induction false} NullValueSplit(ctx: TypeParsers.ParserContext, a: TypeParsers.Entries, b: TypeParsers.Entries, current: Option<bool>)
    ensures NullValueOf(ctx, a + b, current) ==
      match NullValueOf(ctx, a, current)
      case Ok(v) => NullValueOf(ctx, b, v)
      case Err(e) => Err(e)
    decreases |a|
  {
    if a != [] {
      assert (a + b)[0] == a[0];
      assert (a + b)[1..] == a[1..] + b;
      if ctx.underscore(a[0].0) == "null_value" {
        if ctx.nodeBoolean(a[0].1).Ok? {
          NullValueSplit(ctx, a[1..], b, Some(ctx.nodeBoolean(a[0].1).value));
        }
      } else {
        NullValueSplit(ctx, a[1..], b, current);
      }
    } else {
      assert a + b == b;
    }
  }

  /** When every value converts, the last `null_value` entry decides the null value. */
  lemma NullValueLastWins(ctx: TypeParsers.ParserContext, entries: TypeParsers.Entries, i: int, current: Option<bool>)
    requires 0 <= i < |entries| && ctx.underscore(entries[i].0) == "null_value"
    requires NoNullValueEntry(ctx, entries[i + 1..])
    requires NullValueOf(ctx, entries, current).Ok?
    ensures ctx.nodeBoolean(entries[i].1).Ok?
    ensures NullValueOf(ctx, entries, current) == Ok(Some(ctx.nodeBoolean(entries[i].1).value))
  {
    assert entries == entries[..i] + ([entries[i]] + entries[i + 1..]);
    NullValueSplit(ctx, entries[..i], [entries[i]] + entries[i + 1..], current);
    assert ([entries[i]] + entries[i + 1..])[0] == entries[i];
    assert ([entries[i]] + entries[i + 1..])[1..] == entries[i + 1..];
    if ctx.nodeBoolean(entries[i].1).Ok? {
      NullValueUnset(ctx, entries[i + 1..], Some(ctx.nodeBoolean(entries[i].1).value));
    }
  }

  /**
   * A conversion that raises on null (as `nodeBooleanValue` does, through
   * `node.toString()`) makes `"null_value": null` raise.
   */
  lemma NullNullValueRaises(ctx: TypeParsers.ParserContext, key: string, more: TypeParsers.Entries, current: Option<bool>)
    requires ctx.underscore(key) == "null_value" && ctx.nodeBoolean(TypeParsers.NullNode).Err?
    ensures NullValueOf(ctx, [(key, TypeParsers.NullNode)] + more, current) == Err(ctx.nodeBoolean(TypeParsers.NullNode).error)
  {
    assert ([(key, TypeParsers.NullNode)] + more)[0] == (key, TypeParsers.NullNode);
  }
}
