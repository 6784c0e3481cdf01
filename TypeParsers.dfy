/**
 * The parsers of the common mapping options of a field: the value parsers
 * for term vectors, index, tokenize, store and path type, and `parseField`,
 * which walks the entries of a field's mapping and sets the builder.
 *
 * A property value is known by its text (`toString()`), or is null.
 */
module TypeParsers {
  import opened Wrappers
  import opened AbstractFieldMapper

  /** A property value of a mapping: null, or a value with its text. */
  datatype PropNode = NullNode | Node(text: string)

  /**
   * The helpers the parsers call and that are not part of this model:
   * `Strings.toUnderscoreCase`, the `XContentMapValues.node*Value`
   * conversions and the analysis service's analyzer lookup. A conversion
   * may raise (on a null value, or on text that is not a number), which is
   * its `Err`.
   */
  datatype ParserContext = ParserContext(
    underscore: string -> string,
    nodeBoolean: PropNode -> Result<bool, MappingError>,
    nodeFloat: PropNode -> Result<real, MappingError>,
    nodeInteger: PropNode -> Result<int, MappingError>,
    analyzer: string -> Option<NamedAnalyzer>)

  datatype PathType = JustName | Full

  const FalseWords: set<string> := {"no", "false"}
  const TrueWords: set<string> := {"yes", "true"}
  const TermVectorTrue: set<string> := TrueWords + {"with_offsets", "with_positions", "with_positions_offsets"}
  const OffsetWords: set<string> := TrueWords + {"with_offsets", "with_positions_offsets"}
  const PositionWords: set<string> := TrueWords + {"with_positions", "with_positions_offsets"}

  function ParseStoreTermVector(ctx: ParserContext, fieldName: string, termVector: string): (r: Result<bool, MappingError>)
    ensures var tv := ctx.underscore(termVector);
      && (r == Ok(false) <==> tv in FalseWords)
      && (r == Ok(true) <==> tv in TermVectorTrue)
      && (r.Err? <==> tv !in FalseWords + TermVectorTrue)
  {
    var tv := ctx.underscore(termVector);
    if tv == "no" || tv == "false" then Ok(false)
    else if tv == "yes" || tv == "true" then Ok(true)
    else if tv == "with_offsets" then Ok(true)
    else if tv == "with_positions" then Ok(true)
    else if tv == "with_positions_offsets" then Ok(true)
    else Err(MapperParsingException("Wrong value for termVector [" + tv + "] for field [" + fieldName + "]"))
  }

  /** Never fails; true exactly for the words that store offsets. */
  function ParseStoreTermVectorOffsets(ctx: ParserContext, fieldName: string, termVector: string): (b: bool)
    ensures b <==> ctx.underscore(termVector) in OffsetWords
  {
    var tv := ctx.underscore(termVector);
    if tv == "no" then false
    else if tv == "yes" || tv == "true" then true
    else if tv == "with_offsets" then true
    else if tv == "with_positions_offsets" then true
    else false
  }

  /** Never fails; true exactly for the words that store positions. */
  function ParseStoreTermVectorPositions(ctx: ParserContext, fieldName: string, termVector: string): (b: bool)
    ensures b <==> ctx.underscore(termVector) in PositionWords
  {
    var tv := ctx.underscore(termVector);
    if tv == "no" then false
    else if tv == "yes" || tv == "true" then true
    else if tv == "with_positions" then true
    else if tv == "with_positions_offsets" then true
    else false
  }

  function ParseIndex(ctx: ParserContext, fieldName: string, index: string): (r: Result<bool, MappingError>)
    ensures var v := ctx.underscore(index);
      && (r == Ok(false) <==> v in FalseWords)
      && (r == Ok(true) <==> v in TrueWords + {"not_analyzed"})
      && (r.Err? <==> v !in FalseWords + TrueWords + {"not_analyzed"})
  {
    var v := ctx.underscore(index);
    if v == "no" || v == "false" then Ok(false)
    else if v == "yes" || v == "true" || v == "not_analyzed" then Ok(true)
    else Err(MapperParsingException("Wrong value for index [" + v + "] for field [" + fieldName + "]"))
  }

  function ParseTokenize(ctx: ParserContext, fieldName: string, tokenize: string): (r: Result<bool, MappingError>)
    ensures var v := ctx.underscore(tokenize);
      && (r == Ok(false) <==> v in FalseWords)
      && (r == Ok(true) <==> v in TrueWords)
      && (r.Err? <==> v !in FalseWords + TrueWords)
  {
    var v := ctx.underscore(tokenize);
    if v == "no" || v == "false" then Ok(false)
    else if v == "yes" || v == "true" then Ok(true)
    else Err(MapperParsingException("Wrong value for index [" + v + "] for field [" + fieldName + "]"))
  }

  /**
   * "no" and "yes" are read directly (without underscoring); anything else
   * goes to `nodeBooleanValue`, whose exception is passed on.
   */
  function ParseStore(ctx: ParserContext, fieldName: string, store: string): (b: Result<bool, MappingError>)
    ensures store == "no" ==> b == Ok(false)
    ensures store == "yes" ==> b == Ok(true)
    ensures store != "no" && store != "yes" ==> b == ctx.nodeBoolean(Node(store))
  {
    if store == "no" then Ok(false)
    else if store == "yes" then Ok(true)
    else ctx.nodeBoolean(Node(store))
  }

  function ParsePathType(ctx: ParserContext, name: string, path: string): (r: Result<PathType, MappingError>)
    ensures r == Ok(JustName) <==> ctx.underscore(path) == "just_name"
    ensures r == Ok(Full) <==> ctx.underscore(path) == "full"
    ensures r.Err? <==> ctx.underscore(path) !in {"just_name", "full"}
  {
    var p := ctx.underscore(path);
    if p == "just_name" then Ok(JustName)
    else if p == "full" then Ok(Full)
    else Err(MapperParsingException("Wrong value for pathType [" + p + "] for object [" + name + "]"))
  }

  /** A term-vector value that stores offsets or positions always stores term vectors. */
  lemma TermVectorFlagsImplyStored(ctx: ParserContext, fieldName: string, tv: string)
    requires ParseStoreTermVectorOffsets(ctx, fieldName, tv) || ParseStoreTermVectorPositions(ctx, fieldName, tv)
    ensures ParseStoreTermVector(ctx, fieldName, tv) == Ok(true)
  {
  }

  /** A value that disables term vectors disables offsets and positions too. */
  lemma TermVectorOffImpliesFlagsOff(ctx: ParserContext, fieldName: string, tv: string)
    requires ParseStoreTermVector(ctx, fieldName, tv) == Ok(false)
    ensures !ParseStoreTermVectorOffsets(ctx, fieldName, tv)
    ensures !ParseStoreTermVectorPositions(ctx, fieldName, tv)
  {
  }

  /** `parseIndex` agrees with `parseTokenize` wherever the latter succeeds, and accepts "not_analyzed" besides. */
  lemma IndexExtendsTokenize(ctx: ParserContext, fieldName: string, v: string)
    ensures ParseTokenize(ctx, fieldName, v).Ok? ==> ParseIndex(ctx, fieldName, v) == ParseTokenize(ctx, fieldName, v)
    ensures ParseIndex(ctx, fieldName, v).Ok? && ParseTokenize(ctx, fieldName, v).Err? <==>
      ctx.underscore(v) == "not_analyzed"
  {
  }

  /**
   * The effect of one mapping entry on the builder, or the exception it
   * raises (then the builder is left as it was for that entry). Entries
   * whose name is not one of the options leave the builder unchanged.
   */
  function ApplyProp(ctx: ParserContext, b: BuilderState, name: string, key: string, node: PropNode):
    Result<BuilderState, MappingError>
  {
    var p := ctx.underscore(key);
    if p == "index_name" then
      if node.NullNode? then Err(NullPointerException) else Ok(b.(indexName := Some(node.text)))
    else if p == "store" then
      if node.NullNode? then Err(NullPointerException)
      else match ParseStore(ctx, name, node.text)
        case Ok(v) => Ok(b.(store := v))
        case Err(e) => Err(e)
    else if p == "index" then
      IndexOption(ctx, b, name, node)
    else if p == "tokenize" then
      if node.NullNode? then Err(NullPointerException)
      else match ParseTokenize(ctx, name, node.text)
        case Ok(v) => Ok(b.(tokenize := v))
        case Err(e) => Err(e)
    else if p == "term_vector" then
      TermVectorOption(ctx, b, name, node)
    else if p == "term_vector_offsets" then
      if node.NullNode? then Err(NullPointerException)
      else Ok(b.(storeTermVectorOffsets := ParseStoreTermVectorOffsets(ctx, name, node.text)))
    else if p == "term_vector_positions" then
      if node.NullNode? then Err(NullPointerException)
      else Ok(b.(storeTermVectorPositions := ParseStoreTermVectorPositions(ctx, name, node.text)))
    else if p == "boost" then
      match ctx.nodeFloat(node)
      case Ok(v) => Ok(b.(boost := v))
      case Err(e) => Err(e)
    else if p == "omit_norms" then
      match ctx.nodeBoolean(node)
      case Ok(v) => Ok(b.(omitNorms := v))
      case Err(e) => Err(e)
    else if p == "omit_term_freq_and_positions" then
      match ctx.nodeBoolean(node)
      case Ok(v) => Ok(b.(indexOptions := if v then DocsOnly else DocsAndFreqsAndPositions))
      case Err(e) => Err(e)
    else if p in AnalyzerKeys && node.Node? then
      AnalyzerOption(ctx, b, name, p, node.text)
    else if p == "include_in_all" then
      match ctx.nodeBoolean(node)
      case Ok(v) => Ok(b.(includeInAll := Some(v)))
      case Err(e) => Err(e)
    else
      Ok(b)
  }

  const AnalyzerKeys: set<string> := {"analyzer", "index_analyzer", "search_analyzer"}

  /** The `index` option: a shorthand for index and tokenize, or a `parseIndex` value. */
  function IndexOption(ctx: ParserContext, b: BuilderState, name: string, node: PropNode): Result<BuilderState, MappingError>
  {
    if node.NullNode? then Err(NullPointerException)
    else if node.text == "tokenized" || node.text == "analyzed" then Ok(b.(index := true, tokenize := true))
    else if node.text == "not_analyzed" then Ok(b.(index := true, tokenize := false))
    else match ParseIndex(ctx, name, node.text)
      case Ok(v) => Ok(b.(index := v))
      case Err(e) => Err(e)
  }

  /** The `term_vector` option; offsets and positions follow it only for a "with_" value. */
  function TermVectorOption(ctx: ParserContext, b: BuilderState, name: string, node: PropNode): Result<BuilderState, MappingError>
  {
    if node.NullNode? then Err(NullPointerException)
    else match ParseStoreTermVector(ctx, name, node.text)
      case Err(e) => Err(e)
      case Ok(v) =>
        var b1 := b.(storeTermVectors := v);
        if StartsWith(node.text, "with_") then
          Ok(b1.(storeTermVectorOffsets := ParseStoreTermVectorOffsets(ctx, name, node.text),
                 storeTermVectorPositions := ParseStoreTermVectorPositions(ctx, name, node.text)))
        else Ok(b1)
  }

  /** The `analyzer`, `index_analyzer` and `search_analyzer` options, given a non-null value. */
  function AnalyzerOption(ctx: ParserContext, b: BuilderState, name: string, p: string, text: string): Result<BuilderState, MappingError>
  {
    match ctx.analyzer(text)
    case None => Err(AnalyzerNotFound(text, name))
    case Some(a) =>
      if p == "analyzer" then Ok(WithIndexAnalyzer(b, Some(a)).(searchAnalyzer := Some(a)))
      else if p == "index_analyzer" then Ok(WithIndexAnalyzer(b, Some(a)))
      else Ok(b.(searchAnalyzer := Some(a)))
  }

  /** A method step `r` that took the builder from `before` to `after` did what `expected` says. */
  predicate Did(expected: Result<BuilderState, MappingError>, r: Outcome<MappingError>, before: BuilderState, after: BuilderState)
  {
    match expected
    case Ok(b) => r == Pass && after == b
    case Err(e) => r == Fail(e) && after == before
  }

  function AnalyzerNotFound(analyzerName: string, fieldName: string): MappingError
  {
    MapperParsingException("Analyzer [" + analyzerName + "] not found for field [" + fieldName + "]")
  }

  /** The Java map of a mapping node, as its entries in iteration order. */
  type Entries = seq<(string, PropNode)>

  /**
   * `parseField` over `entries` from builder state `b`: the builder after the
   * entries up to the first failing one, and that failure (if any).
   */
  function ParseFieldSpec(ctx: ParserContext, b: BuilderState, name: string, entries: Entries):
    (BuilderState, Outcome<MappingError>)
    decreases |entries|
  {
    if entries == [] then (b, Pass)
    else match ApplyProp(ctx, b, name, entries[0].0, entries[0].1)
      case Err(e) => (b, Fail(e))
      case Ok(b1) => ParseFieldSpec(ctx, b1, name, entries[1..])
  }

  /** Applies one entry to the builder through its setters. */
  method ApplyEntry(ctx: ParserContext, builder: Builder, name: string, key: string, node: PropNode)
    returns (r: Outcome<MappingError>)
    modifies builder
    ensures Did(ApplyProp(ctx, old(builder.Value()), name, key, node), r, old(builder.Value()), builder.Value())
  {
    var propName := ctx.underscore(key);
    r := Pass;
    if propName == "index_name" {
      if node.NullNode? { return Fail(NullPointerException); }
      builder.SetIndexName(Some(node.text));
    } else if propName == "store" {
      if node.NullNode? { return Fail(NullPointerException); }
      var v := ParseStore(ctx, name, node.text);
      if v.Err? { return Fail(v.error); }
      builder.SetStore(v.value);
    } else if propName == "index" {
      r := SetIndexOption(ctx, builder, name, node);
    } else if propName == "tokenize" {
      if node.NullNode? { return Fail(NullPointerException); }
      var v := ParseTokenize(ctx, name, node.text);
      if v.Err? { return Fail(v.error); }
      builder.SetTokenize(v.value);
    } else if propName == "term_vector" {
      r := SetTermVectorOption(ctx, builder, name, node);
    } else if propName == "term_vector_offsets" {
      if node.NullNode? { return Fail(NullPointerException); }
      builder.SetStoreTermVectorOffsets(ParseStoreTermVectorOffsets(ctx, name, node.text));
    } else if propName == "term_vector_positions" {
      if node.NullNode? { return Fail(NullPointerException); }
      builder.SetStoreTermVectorPositions(ParseStoreTermVectorPositions(ctx, name, node.text));
    } else if propName == "boost" {
      var v := ctx.nodeFloat(node);
      if v.Err? { return Fail(v.error); }
      builder.SetBoost(v.value);
    } else if propName == "omit_norms" {
      var v := ctx.nodeBoolean(node);
      if v.Err? { return Fail(v.error); }
      builder.SetOmitNorms(v.value);
    } else if propName == "omit_term_freq_and_positions" {
      var omit := ctx.nodeBoolean(node);
      if omit.Err? { return Fail(omit.error); }
      if omit.value {
        builder.SetIndexOptions(DocsOnly);
      } else {
        builder.SetIndexOptions(DocsAndFreqsAndPositions);
      }
    } else if propName in AnalyzerKeys && node.Node? {
      r := SetAnalyzerOption(ctx, builder, name, propName, node.text);
    } else if propName == "include_in_all" {
      var v := ctx.nodeBoolean(node);
      if v.Err? { return Fail(v.error); }
      builder.SetIncludeInAll(Some(v.value));
    }
  }

  method SetIndexOption(ctx: ParserContext, builder: Builder, name: string, node: PropNode)
    returns (r: Outcome<MappingError>)
    modifies builder
    ensures Did(IndexOption(ctx, old(builder.Value()), name, node), r, old(builder.Value()), builder.Value())
  {
    if node.NullNode? { return Fail(NullPointerException); }
    var value := node.text;
    if value == "tokenized" {
      builder.SetIndex(true);
      builder.SetTokenize(true);
    } else if value == "analyzed" {
      builder.SetIndex(true);
      builder.SetTokenize(true);
    } else if value == "not_analyzed" {
      builder.SetIndex(true);
      builder.SetTokenize(false);
    } else {
      var v := ParseIndex(ctx, name, value);
      if v.Err? { return Fail(v.error); }
      builder.SetIndex(v.value);
    }
    return Pass;
  }

  method SetTermVectorOption(ctx: ParserContext, builder: Builder, name: string, node: PropNode)
    returns (r: Outcome<MappingError>)
    modifies builder
    ensures Did(TermVectorOption(ctx, old(builder.Value()), name, node), r, old(builder.Value()), builder.Value())
  {
    if node.NullNode? { return Fail(NullPointerException); }
    var tvtype := node.text;
    var v := ParseStoreTermVector(ctx, name, tvtype);
    if v.Err? { return Fail(v.error); }
    builder.SetStoreTermVectors(v.value);
    if StartsWith(tvtype, "with_") {
      builder.SetStoreTermVectorOffsets(ParseStoreTermVectorOffsets(ctx, name, tvtype));
      builder.SetStoreTermVectorPositions(ParseStoreTermVectorPositions(ctx, name, tvtype));
    }
    return Pass;
  }

  method SetAnalyzerOption(ctx: ParserContext, builder: Builder, name: string, propName: string, text: string)
    returns (r: Outcome<MappingError>)
    modifies builder
    ensures Did(AnalyzerOption(ctx, old(builder.Value()), name, propName, text), r, old(builder.Value()), builder.Value())
  {
    var analyzer := ctx.analyzer(text);
    if analyzer.None? { return Fail(AnalyzerNotFound(text, name)); }
    if propName == "analyzer" {
      builder.SetIndexAnalyzer(analyzer);
      builder.SetSearchAnalyzer(analyzer);
    } else if propName == "index_analyzer" {
      builder.SetIndexAnalyzer(analyzer);
    } else {
      builder.SetSearchAnalyzer(analyzer);
    }
    return Pass;
  }

  /** Walks the mapping entries in order, stopping at the first exception. */
  method ParseField(ctx: ParserContext, builder: Builder, name: string, entries: Entries)
    returns (r: Outcome<MappingError>)
    modifies builder
    ensures (builder.Value(), r) == ParseFieldSpec(ctx, old(builder.Value()), name, entries)
  {
    var i := 0;
    while i < |entries|
      invariant 0 <= i <= |entries|
      invariant ParseFieldSpec(ctx, old(builder.Value()), name, entries)
             == ParseFieldSpec(ctx, builder.Value(), name, entries[i..])
    {
      assert entries[i..][1..] == entries[i + 1..];
      var step := ApplyEntry(ctx, builder, name, entries[i].0, entries[i].1);
      if step.Fail? {
        return step;
      }
      i := i + 1;
    }
    return Pass;
  }

  // What single entries do to the builder.

  /** "analyzed" and "tokenized" index and tokenize; "not_analyzed" indexes without tokenizing; any other value goes through `parseIndex` and sets only `index`. */
  lemma IndexEntry(ctx: ParserContext, b: BuilderState, name: string, key: string, v: string)
    requires ctx.underscore(key) == "index"
    ensures v in {"analyzed", "tokenized"} ==> ApplyProp(ctx, b, name, key, Node(v)) == Ok(b.(index := true, tokenize := true))
    ensures v == "not_analyzed" ==> ApplyProp(ctx, b, name, key, Node(v)) == Ok(b.(index := true, tokenize := false))
    ensures v !in {"analyzed", "tokenized", "not_analyzed"} ==>
      match ParseIndex(ctx, name, v)
      case Ok(x) => ApplyProp(ctx, b, name, key, Node(v)) == Ok(b.(index := x))
      case Err(e) => ApplyProp(ctx, b, name, key, Node(v)) == Err(e)
  {
  }

  /** `term_vector` always sets `storeTermVectors`; offsets and positions change only for a value starting with "with_". */
  lemma TermVectorEntry(ctx: ParserContext, b: BuilderState, name: string, key: string, v: string)
    requires ctx.underscore(key) == "term_vector"
    requires ParseStoreTermVector(ctx, name, v).Ok?
    ensures var r := ApplyProp(ctx, b, name, key, Node(v));
      && r.Ok?
      && r.value.storeTermVectors == ParseStoreTermVector(ctx, name, v).value
      && (StartsWith(v, "with_") ==>
            r.value.storeTermVectorOffsets == ParseStoreTermVectorOffsets(ctx, name, v)
            && r.value.storeTermVectorPositions == ParseStoreTermVectorPositions(ctx, name, v))
      && (!StartsWith(v, "with_") ==>
            r.value.storeTermVectorOffsets == b.storeTermVectorOffsets
            && r.value.storeTermVectorPositions == b.storeTermVectorPositions)
      && r.value.(storeTermVectors := b.storeTermVectors, storeTermVectorOffsets := b.storeTermVectorOffsets,
                  storeTermVectorPositions := b.storeTermVectorPositions) == b
  {
  }

  /** "with_positions_offsets" (already in underscore form) turns on all three term-vector flags. */
  lemma WithPositionsOffsets(ctx: ParserContext, b: BuilderState, name: string, key: string)
    requires ctx.underscore(key) == "term_vector"
    requires ctx.underscore("with_positions_offsets") == "with_positions_offsets"
    ensures var r := ApplyProp(ctx, b, name, key, Node("with_positions_offsets"));
      r.Ok? && r.value.storeTermVectors && r.value.storeTermVectorOffsets && r.value.storeTermVectorPositions
  {
    assert StartsWith("with_positions_offsets", "with_");
  }

  /** `analyzer` sets both analyzers to the one found; an unknown name under any analyzer key fails. */
  lemma AnalyzerEntry(ctx: ParserContext, b: BuilderState, name: string, key: string, v: string)
    requires ctx.underscore(key) in AnalyzerKeys
    ensures ctx.analyzer(v).None? ==> ApplyProp(ctx, b, name, key, Node(v)) == Err(AnalyzerNotFound(v, name))
    ensures ctx.analyzer(v).Some? && ctx.underscore(key) == "analyzer" ==>
      var r := ApplyProp(ctx, b, name, key, Node(v));
      r.Ok? && r.value == b.(indexAnalyzer := ctx.analyzer(v), searchAnalyzer := ctx.analyzer(v))
  {
  }

  /** A null analyzer value is ignored. */
  lemma NullAnalyzerIgnored(ctx: ParserContext, b: BuilderState, name: string, key: string)
    requires ctx.underscore(key) in AnalyzerKeys
    ensures ApplyProp(ctx, b, name, key, NullNode) == Ok(b)
  {
  }

  /** `omit_term_freq_and_positions` chooses between documents only and documents, frequencies and positions. */
  lemma OmitTermFreqEntry(ctx: ParserContext, b: BuilderState, name: string, key: string, node: PropNode)
    requires ctx.underscore(key) == "omit_term_freq_and_positions"
    ensures ApplyProp(ctx, b, name, key, node) ==
      match ctx.nodeBoolean(node)
      case Ok(v) => Ok(b.(indexOptions := if v then DocsOnly else DocsAndFreqsAndPositions))
      case Err(e) => Err(e)
  {
  }

  /** Entries that name no option leave the whole builder as it was. */
  lemma UnknownEntriesIgnored(ctx: ParserContext, b: BuilderState, name: string, entries: Entries)
    requires forall i :: 0 <= i < |entries| ==> ctx.underscore(entries[i].0) !in OptionNames
    ensures ParseFieldSpec(ctx, b, name, entries) == (b, Pass)
    decreases |entries|
  {
    if entries != [] {
      UnknownEntriesIgnored(ctx, b, name, entries[1..]);
    }
  }

  const OptionNames: set<string> := {"index_name", "store", "index", "tokenize", "term_vector",
    "term_vector_offsets", "term_vector_positions", "boost", "omit_norms", "omit_term_freq_and_positions",
    "analyzer", "index_analyzer", "search_analyzer", "include_in_all"}

  /** A failing entry stops the walk: entries after it have no effect. */
  lemma ParseFieldStopsAtFailure(ctx: ParserContext, b: BuilderState, name: string, entries: Entries, more: Entries)
    requires ParseFieldSpec(ctx, b, name, entries).1.Fail?
    ensures ParseFieldSpec(ctx, b, name, entries + more) == ParseFieldSpec(ctx, b, name, entries)
    decreases |entries|
  {
    assert entries != [];
    assert (entries + more)[0] == entries[0];
    assert (entries + more)[1..] == entries[1..] + more;
    match ApplyProp(ctx, b, name, entries[0].0, entries[0].1)
    case Err(e) =>
    case Ok(b1) => ParseFieldStopsAtFailure(ctx, b1, name, entries[1..], more);
  }

  /**
   * Whether one mapping entry raises, stated on its own: a null value where
   * the option reads its text, a value the option's parser rejects, a
   * conversion that raises, or an analyzer name that is not found.
   */
  predicate EntryRaises(ctx: ParserContext, name: string, key: string, node: PropNode)
  {
    var p := ctx.underscore(key);
    if p in TextKeys && node.NullNode? then true
    else if p == "store" then ParseStore(ctx, name, node.text).Err?
    else if p == "index" then node.text !in {"tokenized", "analyzed", "not_analyzed"} && ParseIndex(ctx, name, node.text).Err?
    else if p == "tokenize" then ParseTokenize(ctx, name, node.text).Err?
    else if p == "term_vector" then ParseStoreTermVector(ctx, name, node.text).Err?
    else if p == "boost" then ctx.nodeFloat(node).Err?
    else if p in {"omit_norms", "omit_term_freq_and_positions", "include_in_all"} then ctx.nodeBoolean(node).Err?
    else if p in AnalyzerKeys && node.Node? then ctx.analyzer(node.text).None?
    else false
  }

  /** The options that read the text of their value (`propNode.toString()`). */
  const TextKeys: set<string> := {"index_name", "store", "index", "tokenize", "term_vector",
    "term_vector_offsets", "term_vector_positions"}

  /** An entry raises exactly as `EntryRaises` says, whatever the builder holds. */
  lemma ApplyPropRaises(ctx: ParserContext, b: BuilderState, name: string, key: string, node: PropNode)
    ensures ApplyProp(ctx, b, name, key, node).Err? <==> EntryRaises(ctx, name, key, node)
  {
  }

  /** `parseField` raises exactly when one of the entries raises. */
  lemma {:induction false} ParseFieldRaisesIff(ctx: ParserContext, b: BuilderState, name: string, entries: Entries)
    ensures ParseFieldSpec(ctx, b, name, entries).1.Fail? <==>
      exists i :: 0 <= i < |entries| && EntryRaises(ctx, name, entries[i].0, entries[i].1)
    decreases |entries|
  {
    if entries != [] {
      ApplyPropRaises(ctx, b, name, entries[0].0, entries[0].1);
      match ApplyProp(ctx, b, name, entries[0].0, entries[0].1)
      case Err(e) =>
      case Ok(b1) =>
        ParseFieldRaisesIff(ctx, b1, name, entries[1..]);
        assert forall i :: 1 <= i < |entries| ==> entries[1..][i - 1] == entries[i];
        if exists i :: 0 <= i < |entries| && EntryRaises(ctx, name, entries[i].0, entries[i].1) {
          var i :| 0 <= i < |entries| && EntryRaises(ctx, name, entries[i].0, entries[i].1);
          assert i != 0;
          assert EntryRaises(ctx, name, entries[1..][i - 1].0, entries[1..][i - 1].1);
        }
    }
  }

  /**
   * A conversion that raises on null (as `nodeFloatValue` does, through
   * `node.toString()`) makes `"boost": null` raise, and the walk stops there.
   */
  lemma NullBoostRaises(ctx: ParserContext, b: BuilderState, name: string, key: string, more: Entries)
    requires ctx.underscore(key) == "boost" && ctx.nodeFloat(NullNode).Err?
    ensures ParseFieldSpec(ctx, b, name, [(key, NullNode)] + more) == (b, Fail(ctx.nodeFloat(NullNode).error))
  {
    assert ([(key, NullNode)] + more)[0] == (key, NullNode);
  }

  // parseNumberField

  /** The options of a number field's builder beyond the common ones. */
  datatype NumberOptions = NumberOptions(precisionStep: int, fuzzyFactor: string, ignoreMalformed: bool)

  /** A number field's builder: the common builder and the number options. */
  class NumberBuilder {
    const base: Builder
    var precisionStep: int
    var fuzzyFactor: string
    var ignoreMalformed: bool

    function Options(): NumberOptions
      reads this
    {
      NumberOptions(precisionStep, fuzzyFactor, ignoreMalformed)
    }

    /** The initial number options are the number mapper's defaults, given here. */
    constructor(name: string, defaults: NumberOptions)
      ensures fresh(base) && base.Value() == DefaultBuilderState(name) && Options() == defaults
    {
      base := new Builder(name);
      precisionStep := defaults.precisionStep;
      fuzzyFactor := defaults.fuzzyFactor;
      ignoreMalformed := defaults.ignoreMalformed;
    }
  }

  function ApplyNumberProp(ctx: ParserContext, o: NumberOptions, key: string, node: PropNode):
    Result<NumberOptions, MappingError>
  {
    var p := ctx.underscore(key);
    if p == "precision_step" then
      match ctx.nodeInteger(node)
      case Ok(v) => Ok(o.(precisionStep := v))
      case Err(e) => Err(e)
    else if p == "fuzzy_factor" then
      if node.NullNode? then Err(NullPointerException) else Ok(o.(fuzzyFactor := node.text))
    else if p == "ignore_malformed" then
      match ctx.nodeBoolean(node)
      case Ok(v) => Ok(o.(ignoreMalformed := v))
      case Err(e) => Err(e)
    else Ok(o)
  }

  function NumberFieldSpec(ctx: ParserContext, o: NumberOptions, entries: Entries): (NumberOptions, Outcome<MappingError>)
    decreases |entries|
  {
    if entries == [] then (o, Pass)
    else match ApplyNumberProp(ctx, o, entries[0].0, entries[0].1)
      case Err(e) => (o, Fail(e))
      case Ok(o1) => NumberFieldSpec(ctx, o1, entries[1..])
  }

  /** Whether one entry raises in the number-option walk. */
  predicate NumberEntryRaises(ctx: ParserContext, key: string, node: PropNode)
  {
    var p := ctx.underscore(key);
    || (p == "precision_step" && ctx.nodeInteger(node).Err?)
    || (p == "fuzzy_factor" && node.NullNode?)
    || (p == "ignore_malformed" && ctx.nodeBoolean(node).Err?)
  }

  /** The number-option walk raises exactly when one of the entries raises. */
  lemma {:induction false} NumberFieldRaisesIff(ctx: ParserContext, o: NumberOptions, entries: Entries)
    ensures NumberFieldSpec(ctx, o, entries).1.Fail? <==>
      exists i :: 0 <= i < |entries| && NumberEntryRaises(ctx, entries[i].0, entries[i].1)
    decreases |entries|
  {
    if entries != [] {
      match ApplyNumberProp(ctx, o, entries[0].0, entries[0].1)
      case Err(e) =>
      case Ok(o1) =>
        NumberFieldRaisesIff(ctx, o1, entries[1..]);
        if exists i :: 0 <= i < |entries| && NumberEntryRaises(ctx, entries[i].0, entries[i].1) {
          var i :| 0 <= i < |entries| && NumberEntryRaises(ctx, entries[i].0, entries[i].1);
          assert i != 0;
          assert entries[1..][i - 1] == entries[i];
        }
    }
  }

  /** Entries that name no number option leave the number options as they were. */
  lemma {:induction false} NumberUnknownEntriesIgnored(ctx: ParserContext, o: NumberOptions, entries: Entries)
    requires forall i :: 0 <= i < |entries| ==> ctx.underscore(entries[i].0) !in {"precision_step", "fuzzy_factor", "ignore_malformed"}
    ensures NumberFieldSpec(ctx, o, entries) == (o, Pass)
    decreases |entries|
  {
    if entries != [] {
      assert forall i :: 0 <= i < |entries[1..]| ==> entries[1..][i] == entries[i + 1];
      NumberUnknownEntriesIgnored(ctx, o, entries[1..]);
    }
  }

  /**
   * The common options first; if they all parse, a second walk over the
   * same entries reads precision_step, fuzzy_factor and ignore_malformed.
   */
  method ParseNumberField(ctx: ParserContext, builder: NumberBuilder, name: string, entries: Entries)
    returns (r: Outcome<MappingError>)
    modifies builder, builder.base
    ensures builder.base.Value() == ParseFieldSpec(ctx, old(builder.base.Value()), name, entries).0
    ensures ParseFieldSpec(ctx, old(builder.base.Value()), name, entries).1.Fail? ==>
      r == ParseFieldSpec(ctx, old(builder.base.Value()), name, entries).1 && builder.Options() == old(builder.Options())
    ensures ParseFieldSpec(ctx, old(builder.base.Value()), name, entries).1.Pass? ==>
      (builder.Options(), r) == NumberFieldSpec(ctx, old(builder.Options()), entries)
  {
    var common := ParseField(ctx, builder.base, name, entries);
    if common.Fail? {
      return common;
    }
    var i := 0;
    while i < |entries|
      invariant 0 <= i <= |entries|
      invariant builder.base.Value() == ParseFieldSpec(ctx, old(builder.base.Value()), name, entries).0
      invariant NumberFieldSpec(ctx, old(builder.Options()), entries) == NumberFieldSpec(ctx, builder.Options(), entries[i..])
    {
      assert entries[i..][1..] == entries[i + 1..];
      var propName := ctx.underscore(entries[i].0);
      var propNode := entries[i].1;
      if propName == "precision_step" {
        var v := ctx.nodeInteger(propNode);
        if v.Err? { return Fail(v.error); }
        builder.precisionStep := v.value;
      } else if propName == "fuzzy_factor" {
        if propNode.NullNode? { return Fail(NullPointerException); }
        builder.fuzzyFactor := propNode.text;
      } else if propName == "ignore_malformed" {
        var v := ctx.nodeBoolean(propNode);
        if v.Err? { return Fail(v.error); }
        builder.ignoreMalformed := v.value;
      }
      i := i + 1;
    }
    return Pass;
  }
}
