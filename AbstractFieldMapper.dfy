/**
 * The shared part of every core field mapper: the builder with its
 * defaults and setters, the names a mapper is known by, the keyword-analyzer
 * defaulting of the constructor, the Lucene field type, `parse`, `merge`
 * and the common part of the mapping's XContent body.
 */
module AbstractFieldMapper {
  import opened Wrappers
  import opened XContent

  /** An analyzer registered under a name; only its name is observable here. */
  datatype NamedAnalyzer = NamedAnalyzer(name: string)

  /** The analyzer that emits its whole input as one token. */
  const KeywordAnalyzer: NamedAnalyzer := NamedAnalyzer("_keyword")

  datatype IndexOptions =
    | DocsOnly
    | DocsAndFreqs
    | DocsAndFreqsAndPositions
    | DocsAndFreqsAndPositionsAndOffsets

  /** Exceptions the mapping code raises. */
  datatype MappingError =
    | MapperParsingException(message: string)
    | NullPointerException
    | IOException

  // Defaults of a field mapper.
  const DefaultIndex := true
  const DefaultStoreTermVector := false
  const DefaultStoreTermVectorOffsets := false
  const DefaultStoreTermVectorPositions := false
  const DefaultStore := false
  const DefaultTokenize := true
  const DefaultBoost: real := 1.0
  const DefaultOmitNorms := false
  const DefaultIndexOptions := DocsAndFreqsAndPositions

  /** Everything a builder has collected so far. */
  datatype BuilderState = BuilderState(
    name: string,
    index: bool,
    store: bool,
    tokenize: bool,
    storeTermVectors: bool,
    storeTermVectorOffsets: bool,
    storeTermVectorPositions: bool,
    boost: real,
    omitNorms: bool,
    indexOptions: IndexOptions,
    indexName: Option<string>,
    indexAnalyzer: Option<NamedAnalyzer>,
    searchAnalyzer: Option<NamedAnalyzer>,
    includeInAll: Option<bool>)

  /** A fresh builder for a field called `name`. */
  function DefaultBuilderState(name: string): (b: BuilderState)
    ensures b.name == name && b.indexName.None? && b.includeInAll.None?
    ensures b.indexAnalyzer.None? && b.searchAnalyzer.None?
  {
    BuilderState(name, DefaultIndex, DefaultStore, DefaultTokenize,
      DefaultStoreTermVector, DefaultStoreTermVectorOffsets, DefaultStoreTermVectorPositions,
      DefaultBoost, DefaultOmitNorms, DefaultIndexOptions, None, None, None, None)
  }

  /**
   * The builder after `indexAnalyzer(a)`: the index analyzer becomes `a`,
   * and so does the search analyzer if none was set yet.
   */
  function WithIndexAnalyzer(b: BuilderState, a: Option<NamedAnalyzer>): (r: BuilderState)
    ensures r.indexAnalyzer == a
    ensures b.searchAnalyzer.Some? ==> r.searchAnalyzer == b.searchAnalyzer
    ensures b.searchAnalyzer.None? ==> r.searchAnalyzer == a
    ensures r.(indexAnalyzer := b.indexAnalyzer, searchAnalyzer := b.searchAnalyzer) == b
  {
    var b1 := b.(indexAnalyzer := a);
    if b1.searchAnalyzer.None? then b1.(searchAnalyzer := a) else b1
  }

  /** A builder: one mutable field per option, with fluent setters. */
  class Builder {
    const name: string
    var index: bool
    var store: bool
    var tokenize: bool
    var storeTermVectors: bool
    var storeTermVectorOffsets: bool
    var storeTermVectorPositions: bool
    var boost: real
    var omitNorms: bool
    var indexOptions: IndexOptions
    var indexName: Option<string>
    var indexAnalyzer: Option<NamedAnalyzer>
    var searchAnalyzer: Option<NamedAnalyzer>
    var includeInAll: Option<bool>

    /** The builder's fields as one value. */
    function Value(): BuilderState
      reads this
    {
      BuilderState(name, index, store, tokenize, storeTermVectors, storeTermVectorOffsets,
        storeTermVectorPositions, boost, omitNorms, indexOptions, indexName,
        indexAnalyzer, searchAnalyzer, includeInAll)
    }

    constructor(name: string)
      ensures Value() == DefaultBuilderState(name)
    {
      this.name := name;
      index := DefaultIndex;
      store := DefaultStore;
      tokenize := DefaultTokenize;
      storeTermVectors := DefaultStoreTermVector;
      storeTermVectorOffsets := DefaultStoreTermVectorOffsets;
      storeTermVectorPositions := DefaultStoreTermVectorPositions;
      boost := DefaultBoost;
      omitNorms := DefaultOmitNorms;
      indexOptions := DefaultIndexOptions;
      indexName := None;
      indexAnalyzer := None;
      searchAnalyzer := None;
      includeInAll := None;
    }

    method SetIndex(v: bool)
      modifies this
      ensures Value() == old(Value()).(index := v)
    {
      index := v;
    }

    method SetStore(v: bool)
      modifies this
      ensures Value() == old(Value()).(store := v)
    {
      store := v;
    }

    method SetTokenize(v: bool)
      modifies this
      ensures Value() == old(Value()).(tokenize := v)
    {
      tokenize := v;
    }

    method SetStoreTermVectors(v: bool)
      modifies this
      ensures Value() == old(Value()).(storeTermVectors := v)
    {
      storeTermVectors := v;
    }

    method SetStoreTermVectorOffsets(v: bool)
      modifies this
      ensures Value() == old(Value()).(storeTermVectorOffsets := v)
    {
      storeTermVectorOffsets := v;
    }

    method SetStoreTermVectorPositions(v: bool)
      modifies this
      ensures Value() == old(Value()).(storeTermVectorPositions := v)
    {
      storeTermVectorPositions := v;
    }

    method SetBoost(v: real)
      modifies this
      ensures Value() == old(Value()).(boost := v)
    {
      boost := v;
    }

    method SetOmitNorms(v: bool)
      modifies this
      ensures Value() == old(Value()).(omitNorms := v)
    {
      omitNorms := v;
    }

    method SetIndexOptions(v: IndexOptions)
      modifies this
      ensures Value() == old(Value()).(indexOptions := v)
    {
      indexOptions := v;
    }

    method SetIndexName(v: Option<string>)
      modifies this
      ensures Value() == old(Value()).(indexName := v)
    {
      indexName := v;
    }

    /** Sets the index analyzer, and the search analyzer too while that is unset. */
    method SetIndexAnalyzer(a: Option<NamedAnalyzer>)
      modifies this
      ensures Value() == WithIndexAnalyzer(old(Value()), a)
    {
      indexAnalyzer := a;
      if searchAnalyzer.None? {
        searchAnalyzer := a;
      }
    }

    method SetSearchAnalyzer(a: Option<NamedAnalyzer>)
      modifies this
      ensures Value() == old(Value()).(searchAnalyzer := a)
    {
      searchAnalyzer := a;
    }

    method SetIncludeInAll(v: Option<bool>)
      modifies this
      ensures Value() == old(Value()).(includeInAll := v)
    {
      includeInAll := v;
    }
  }

  /** The part of a builder context the names are built from (its content path). */
  datatype BuilderContext = BuilderContext(
    pathAsText: string -> string,
    fullPathAsText: string -> string,
    sourcePath: string)

  /** The names a mapper is known by. */
  datatype Names = Names(
    name: string,
    indexName: string,
    indexNameClean: string,
    fullName: string,
    sourcePath: string)

  /** The index name before the path prefix is applied: `indexName` when set, else `name`. */
  function ActualIndexName(b: BuilderState): (n: string)
    ensures b.indexName.Some? ==> n == b.indexName.value
    ensures b.indexName.None? ==> n == b.name
  {
    if b.indexName.None? then b.name else b.indexName.value
  }

  function BuildNames(b: BuilderState, context: BuilderContext): (n: Names)
    ensures n.name == b.name
    ensures n.indexNameClean == ActualIndexName(b)
    ensures n.indexName == context.pathAsText(n.indexNameClean)
    ensures n.fullName == context.fullPathAsText(b.name)
    ensures n.sourcePath == context.sourcePath
  {
    var actual := ActualIndexName(b);
    Names(b.name, context.pathAsText(actual), actual, context.fullPathAsText(b.name), context.sourcePath)
  }

  /** A builder that never set an index name has index name `name`, whatever else was set. */
  lemma IndexNameDefaultsToName(name: string, b: BuilderState, context: BuilderContext)
    requires b.name == name && b.indexName.None?
    ensures BuildNames(b, context).indexNameClean == name
    ensures BuildNames(b, context).indexName == context.pathAsText(name)
  {
  }

  /** Lucene's field type: the indexing attributes of a field. */
  datatype FieldType = FieldType(
    indexed: bool,
    tokenized: bool,
    stored: bool,
    storeTermVectors: bool,
    storeTermVectorOffsets: bool,
    storeTermVectorPositions: bool,
    omitNorms: bool,
    indexOptions: IndexOptions)

  /** A Lucene field to be added to a document. */
  datatype LuceneField = LuceneField(name: string, value: string, fieldType: FieldType, boost: real)

  /** The field type every field starts from: nothing enabled, positions indexed. */
  const DefaultFieldType := FieldType(false, false, false, false, false, false, false, DocsAndFreqsAndPositions)

  /**
   * The analyzer a mapper ends up with: the keyword analyzer when none was
   * given and the field is indexed but not tokenized, else the given one.
   */
  function KeywordDefault(given: Option<NamedAnalyzer>, index: bool, tokenize: bool): (a: Option<NamedAnalyzer>)
    ensures given.Some? ==> a == given
    ensures given.None? && index && !tokenize ==> a == Some(KeywordAnalyzer)
    ensures given.None? && !(index && !tokenize) ==> a.None?
  {
    if given.None? && index && !tokenize then Some(KeywordAnalyzer) else given
  }

  /** An analyzer is absent after construction only if it was absent and the keyword rule did not apply. */
  lemma KeywordDefaultAbsent(given: Option<NamedAnalyzer>, index: bool, tokenize: bool)
    ensures KeywordDefault(given, index, tokenize).None? <==> given.None? && (!index || tokenize)
  {
  }

  /** A mapper's observable state. */
  datatype MapperValue = MapperValue(
    mapperClass: string,
    contentType: string,
    names: Names,
    index: bool,
    tokenize: bool,
    store: bool,
    storeTermVectors: bool,
    storeTermVectorOffsets: bool,
    storeTermVectorPositions: bool,
    boost: real,
    omitNorms: bool,
    indexOptions: IndexOptions,
    indexAnalyzer: Option<NamedAnalyzer>,
    searchAnalyzer: Option<NamedAnalyzer>)

  /** What `merge` is handed: another field mapper, or a mapper of some other kind. */
  datatype MergeWith =
    | FieldMapperArg(mapper: FieldMapper)
    | OtherMapper(simpleName: string)

  /** The state of a merge: whether it only simulates, and the conflicts found so far. */
  class MergeContext {
    const simulate: bool
    var conflicts: seq<string>

    constructor(simulate: bool)
      ensures this.simulate == simulate && conflicts == []
    {
      this.simulate := simulate;
      conflicts := [];
    }

    method AddConflict(c: string)
      modifies this
      ensures conflicts == old(conflicts) + [c]
    {
      conflicts := conflicts + [c];
    }
  }

  /** The document being built by a parse. */
  class Document {
    var fields: seq<LuceneField>

    constructor()
      ensures fields == []
    {
      fields := [];
    }

    method Add(f: LuceneField)
      modifies this
      ensures fields == old(fields) + [f]
    {
      fields := fields + [f];
    }
  }

  /**
   * A field mapper. `mapperClass` stands for the Java class (it decides
   * whether two mappers may be merged) and `contentType` for
   * `contentType()`, which subclasses define.
   */
  class FieldMapper {
    const mapperClass: string
    const contentType: string
    const names: Names
    const index: bool
    const tokenize: bool
    const store: bool
    const storeTermVectors: bool
    const storeTermVectorOffsets: bool
    const storeTermVectorPositions: bool
    var boost: real
    const omitNorms: bool
    const indexOptions: IndexOptions
    const indexAnalyzer: Option<NamedAnalyzer>
    const searchAnalyzer: Option<NamedAnalyzer>

    function Value(): MapperValue
      reads this
    {
      MapperValue(mapperClass, contentType, names, index, tokenize, store, storeTermVectors,
        storeTermVectorOffsets, storeTermVectorPositions, boost, omitNorms, indexOptions,
        indexAnalyzer, searchAnalyzer)
    }

    /** Each analyzer independently falls back to the keyword analyzer (`KeywordDefault`). */
    constructor(mapperClass: string, contentType: string, names: Names,
                index: bool, tokenize: bool, store: bool,
                storeTermVectors: bool, storeTermVectorOffsets: bool, storeTermVectorPositions: bool,
                boost: real, omitNorms: bool, indexOptions: IndexOptions,
                indexAnalyzer: Option<NamedAnalyzer>, searchAnalyzer: Option<NamedAnalyzer>)
      ensures Value() == MapperValue(mapperClass, contentType, names, index, tokenize, store,
        storeTermVectors, storeTermVectorOffsets, storeTermVectorPositions, boost, omitNorms,
        indexOptions, KeywordDefault(indexAnalyzer, index, tokenize),
        KeywordDefault(searchAnalyzer, index, tokenize))
    {
      this.mapperClass := mapperClass;
      this.contentType := contentType;
      this.names := names;
      this.index := index;
      this.tokenize := tokenize;
      this.store := store;
      this.storeTermVectors := storeTermVectors;
      this.storeTermVectorOffsets := storeTermVectorOffsets;
      this.storeTermVectorPositions := storeTermVectorPositions;
      this.omitNorms := omitNorms;
      this.indexOptions := indexOptions;
      this.boost := boost;
      if indexAnalyzer.None? && index && !tokenize {
        this.indexAnalyzer := Some(KeywordAnalyzer);
      } else {
        this.indexAnalyzer := indexAnalyzer;
      }
      if searchAnalyzer.None? && index && !tokenize {
        this.searchAnalyzer := Some(KeywordAnalyzer);
      } else {
        this.searchAnalyzer := searchAnalyzer;
      }
    }

    /** The Lucene field type: the default type with every attribute taken from this mapper. */
    function GetFieldType(): (ft: FieldType)
      ensures ft.indexed == index && ft.tokenized == tokenize && ft.stored == store
      ensures ft.storeTermVectors == storeTermVectors
      ensures ft.storeTermVectorOffsets == storeTermVectorOffsets
      ensures ft.storeTermVectorPositions == storeTermVectorPositions
      ensures ft.omitNorms == omitNorms && ft.indexOptions == indexOptions
    {
      DefaultFieldType.(indexed := index, tokenized := tokenize, stored := store,
        storeTermVectors := storeTermVectors, storeTermVectorOffsets := storeTermVectorOffsets,
        storeTermVectorPositions := storeTermVectorPositions, omitNorms := omitNorms,
        indexOptions := indexOptions)
    }

    /**
     * Adds the field `parseCreateField` produced (`created`: the field, no
     * field, or the exception it threw) to `doc`: its boost is set to the
     * mapper's boost unless the subclass sets boosts itself (`customBoost`,
     * its `customBoost()`), and the field is
     * added only if the parse listener (`approve`) lets it through. Any
     * exception comes out as a MapperParsingException naming the field.
     */
    method Parse(created: Result<Option<LuceneField>, MappingError>, customBoost: bool,
                 approve: LuceneField -> bool, doc: Document)
      returns (r: Outcome<MappingError>)
      modifies doc
      ensures created.Err? ==> r == Fail(ParseFailure(names)) && doc.fields == old(doc.fields)
      ensures created == Ok(None) ==> r == Pass && doc.fields == old(doc.fields)
      ensures created.Ok? && created.value.Some? ==>
        var f := if customBoost then created.value.value else created.value.value.(boost := boost);
        r == Pass && doc.fields == old(doc.fields) + (if approve(f) then [f] else [])
    {
      if created.Err? {
        return Fail(ParseFailure(names));
      }
      if created.value.None? {
        return Pass;
      }
      var field := created.value.value;
      if !customBoost {
        field := field.(boost := boost);
      }
      if approve(field) {
        doc.Add(field);
      }
      return Pass;
    }

    /**
     * Merges `mergeWith` into this mapper: a mapper of another class is one
     * conflict and nothing else; otherwise every difference `MergeConflicts`
     * finds is a conflict, and the boost is taken over unless simulating.
     */
    method Merge(mergeWith: MergeWith, context: MergeContext)
      modifies this, context
      ensures !SameClass(mergeWith) ==>
        context.conflicts == old(context.conflicts) + [DifferentTypeConflict(Value(), MergedType(mergeWith))]
        && boost == old(boost)
      ensures SameClass(mergeWith) ==>
        context.conflicts == old(context.conflicts) + MergeConflicts(old(Value()), old(mergeWith.mapper.Value()))
        && boost == (if context.simulate then old(boost) else old(mergeWith.mapper.boost))
    {
      if !SameClass(mergeWith) {
        var mergedType := MergedType(mergeWith);
        context.AddConflict(DifferentTypeConflict(Value(), mergedType));
        return;
      }
      var other := mergeWith.mapper;
      var fullName := names.fullName;
      AddFlagConflicts(Value(), other.Value(), context);
      AddAnalyzerConflict(indexAnalyzer, other.indexAnalyzer,
        ConflictMessage(fullName, "index_analyzer"), context);
      AddAnalyzerConflict(searchAnalyzer, other.searchAnalyzer,
        ConflictMessage(fullName, "search_analyzer"), context);
      if !context.simulate {
        boost := other.boost;
      }
    }

    /** Whether `mergeWith` is a field mapper of this mapper's class. */
    predicate SameClass(mergeWith: MergeWith)
    {
      mergeWith.FieldMapperArg? && mergeWith.mapper.mapperClass == mapperClass
    }
  }

  /** The flag comparisons of `merge`, one conflict per differing flag. */
  method AddFlagConflicts(a: MapperValue, b: MapperValue, context: MergeContext)
    modifies context
    ensures context.conflicts == old(context.conflicts) + FlagConflicts(a, b)
  {
    var fullName := a.names.fullName;
    ghost var x1 := ConflictIf(a.index != b.index, ConflictMessage(fullName, "index values"));
    ghost var x2 := ConflictIf(a.tokenize != b.tokenize, ConflictMessage(fullName, "tokenize values"));
    ghost var x3 := ConflictIf(a.store != b.store, ConflictMessage(fullName, "store values"));
    ghost var x4 := ConflictIf(a.storeTermVectorOffsets != b.storeTermVectorOffsets,
      ConflictMessage(fullName, "term_vector offset values"));
    ghost var x5 := ConflictIf(a.storeTermVectorPositions != b.storeTermVectorPositions,
      ConflictMessage(fullName, "term_vector positions values"));
    ghost var c0 := context.conflicts;
    if a.index != b.index {
      context.AddConflict(ConflictMessage(fullName, "index values"));
    }
    assert context.conflicts == c0 + x1;
    if a.tokenize != b.tokenize {
      context.AddConflict(ConflictMessage(fullName, "tokenize values"));
    }
    Associative(c0, x1, x2);
    assert context.conflicts == c0 + (x1 + x2);
    if a.store != b.store {
      context.AddConflict(ConflictMessage(fullName, "store values"));
    }
    Associative(c0, x1 + x2, x3);
    assert context.conflicts == c0 + (x1 + x2 + x3);
    if a.storeTermVectorOffsets != b.storeTermVectorOffsets {
      context.AddConflict(ConflictMessage(fullName, "term_vector offset values"));
    }
    Associative(c0, x1 + x2 + x3, x4);
    assert context.conflicts == c0 + (x1 + x2 + x3 + x4);
    if a.storeTermVectorPositions != b.storeTermVectorPositions {
      context.AddConflict(ConflictMessage(fullName, "term_vector positions values"));
    }
    Associative(c0, x1 + x2 + x3 + x4, x5);
    assert FlagConflicts(a, b) == x1 + x2 + x3 + x4 + x5;
  }

  lemma Associative(a: seq<string>, b: seq<string>, c: seq<string>)
    ensures (a + b) + c == a + (b + c)
  {
  }

  /** One analyzer comparison of `merge`: a conflict when exactly one is absent or the names differ. */
  method AddAnalyzerConflict(mine: Option<NamedAnalyzer>, theirs: Option<NamedAnalyzer>, message: string, context: MergeContext)
    modifies context
    ensures context.conflicts == old(context.conflicts) + (if SameAnalyzer(mine, theirs) then [] else [message])
  {
    if mine.None? {
      if theirs.Some? {
        context.AddConflict(message);
      }
    } else if theirs.None? {
      context.AddConflict(message);
    } else if mine.value.name != theirs.value.name {
      context.AddConflict(message);
    }
  }

  /** The type named in a different-type conflict: the content type of a field mapper, else the class name. */
  function MergedType(mergeWith: MergeWith): (t: string)
  {
    match mergeWith
    case FieldMapperArg(m) => m.contentType
    case OtherMapper(simpleName) => simpleName
  }

  function DifferentTypeConflict(v: MapperValue, mergedType: string): string
  {
    "mapper [" + v.names.fullName + "] of different type, current_type [" + v.contentType
      + "], merged_type [" + mergedType + "]"
  }

  function ParseFailure(names: Names): MappingError
  {
    MapperParsingException("Failed to parse [" + names.fullName + "]")
  }

  /** Two analyzer settings agree when both are absent or both name the same analyzer. */
  predicate SameAnalyzer(x: Option<NamedAnalyzer>, y: Option<NamedAnalyzer>)
  {
    (x.None? && y.None?) || (x.Some? && y.Some? && x.value.name == y.value.name)
  }

  function ConflictMessage(fullName: string, what: string): string
  {
    "mapper [" + fullName + "] has different " + what
  }

  /** `[message]` when `differs`, else nothing. */
  function ConflictIf(differs: bool, message: string): seq<string>
  {
    if differs then [message] else []
  }

  /** One conflict per differing flag: index, tokenize, store, term-vector offsets, term-vector positions. */
  function FlagConflicts(a: MapperValue, b: MapperValue): seq<string>
  {
    var fn := a.names.fullName;
    ConflictIf(a.index != b.index, ConflictMessage(fn, "index values"))
    + ConflictIf(a.tokenize != b.tokenize, ConflictMessage(fn, "tokenize values"))
    + ConflictIf(a.store != b.store, ConflictMessage(fn, "store values"))
    + ConflictIf(a.storeTermVectorOffsets != b.storeTermVectorOffsets,
        ConflictMessage(fn, "term_vector offset values"))
    + ConflictIf(a.storeTermVectorPositions != b.storeTermVectorPositions,
        ConflictMessage(fn, "term_vector positions values"))
  }

  /** The conflicts of merging `b` into `a`, two mappers of the same class. */
  function MergeConflicts(a: MapperValue, b: MapperValue): seq<string>
  {
    var fn := a.names.fullName;
    FlagConflicts(a, b)
    + (if SameAnalyzer(a.indexAnalyzer, b.indexAnalyzer) then []
       else [ConflictMessage(fn, "index_analyzer")])
    + (if SameAnalyzer(a.searchAnalyzer, b.searchAnalyzer) then []
       else [ConflictMessage(fn, "search_analyzer")])
  }

  function B2I(b: bool): nat
  {
    if b then 1 else 0
  }

  /** Exactly one conflict per differing flag and per disagreeing analyzer. */
  lemma MergeConflictCount(a: MapperValue, b: MapperValue)
    ensures |MergeConflicts(a, b)| ==
      B2I(a.index != b.index) + B2I(a.tokenize != b.tokenize) + B2I(a.store != b.store)
      + B2I(a.storeTermVectorOffsets != b.storeTermVectorOffsets)
      + B2I(a.storeTermVectorPositions != b.storeTermVectorPositions)
      + B2I(!SameAnalyzer(a.indexAnalyzer, b.indexAnalyzer))
      + B2I(!SameAnalyzer(a.searchAnalyzer, b.searchAnalyzer))
  {
  }

  /** A merge is conflict-free iff the five flags agree and both analyzers agree. */
  lemma MergeNoConflictIff(a: MapperValue, b: MapperValue)
    ensures MergeConflicts(a, b) == [] <==>
      a.index == b.index && a.tokenize == b.tokenize && a.store == b.store
      && a.storeTermVectorOffsets == b.storeTermVectorOffsets
      && a.storeTermVectorPositions == b.storeTermVectorPositions
      && SameAnalyzer(a.indexAnalyzer, b.indexAnalyzer)
      && SameAnalyzer(a.searchAnalyzer, b.searchAnalyzer)
  {
    MergeConflictCount(a, b);
  }

  /** Merging a mapper with one of identical settings raises no conflict, whatever the boosts. */
  lemma MergeWithSelfNoConflict(a: MapperValue, b: MapperValue)
    requires b == a.(boost := b.boost)
    ensures MergeConflicts(a, b) == []
  {
    MergeNoConflictIff(a, b);
  }

  /** The number of conflicts does not depend on the direction of the merge. */
  lemma MergeConflictsSymmetric(a: MapperValue, b: MapperValue)
    ensures |MergeConflicts(a, b)| == |MergeConflicts(b, a)|
  {
    MergeConflictCount(a, b);
    MergeConflictCount(b, a);
  }

  /** An analyzer name the mapping output shows: not internal (leading `_`) and not "default". */
  predicate Emitted(a: NamedAnalyzer)
  {
    !StartsWith(a.name, "_") && a.name != "default"
  }

  /** The common part of a mapper's XContent body. */
  function DoXContentBody(m: MapperValue): seq<XEvent>
  {
    [Field("type", XStr(m.contentType))]
    + (if m.names.name != m.names.indexNameClean then [Field("index_name", XStr(m.names.indexNameClean))] else [])
    + (if m.boost != 1.0 then [Field("boost", XNumber(m.boost))] else [])
    + AnalyzerBody(m.indexAnalyzer, m.searchAnalyzer)
  }

  function AnalyzerBody(ia: Option<NamedAnalyzer>, sa: Option<NamedAnalyzer>): seq<XEvent>
  {
    if ia.Some? && sa.Some? && ia.value.name == sa.value.name && Emitted(ia.value) then
      [Field("analyzer", XStr(ia.value.name))]
    else
      (if ia.Some? && Emitted(ia.value) then [Field("index_analyzer", XStr(ia.value.name))] else [])
      + (if sa.Some? && Emitted(sa.value) then [Field("search_analyzer", XStr(sa.value.name))] else [])
  }

  lemma BodyKeys(m: MapperValue)
    ensures Keys(DoXContentBody(m)) ==
      ["type"] + (if m.names.name != m.names.indexNameClean then ["index_name"] else [])
      + (if m.boost != 1.0 then ["boost"] else [])
      + Keys(AnalyzerBody(m.indexAnalyzer, m.searchAnalyzer))
  {
    var e1: seq<XEvent> := [Field("type", XStr(m.contentType))];
    var e2: seq<XEvent> := if m.names.name != m.names.indexNameClean then [Field("index_name", XStr(m.names.indexNameClean))] else [];
    var e3: seq<XEvent> := if m.boost != 1.0 then [Field("boost", XNumber(m.boost))] else [];
    var e4 := AnalyzerBody(m.indexAnalyzer, m.searchAnalyzer);
    assert DoXContentBody(m) == e1 + e2 + e3 + e4;
    KeysAppend(e1 + e2 + e3, e4);
    KeysAppend(e1 + e2, e3);
    KeysAppend(e1, e2);
  }

  /**
   * The body holds a single "analyzer" key exactly when both analyzers are
   * set, share a name and that name is shown; otherwise separate keys, one
   * for each analyzer whose name is shown.
   */
  lemma AnalyzerOutput(m: MapperValue)
    ensures var ia, sa := m.indexAnalyzer, m.searchAnalyzer;
      var shared := ia.Some? && sa.Some? && ia.value.name == sa.value.name && Emitted(ia.value);
      && ("analyzer" in Keys(DoXContentBody(m)) <==> shared)
      && ("index_analyzer" in Keys(DoXContentBody(m)) <==> !shared && ia.Some? && Emitted(ia.value))
      && ("search_analyzer" in Keys(DoXContentBody(m)) <==> !shared && sa.Some? && Emitted(sa.value))
  {
    BodyKeys(m);
    var ia, sa := m.indexAnalyzer, m.searchAnalyzer;
    if !(ia.Some? && sa.Some? && ia.value.name == sa.value.name && Emitted(ia.value)) {
      var x: seq<XEvent> := if ia.Some? && Emitted(ia.value) then [Field("index_analyzer", XStr(ia.value.name))] else [];
      var y: seq<XEvent> := if sa.Some? && Emitted(sa.value) then [Field("search_analyzer", XStr(sa.value.name))] else [];
      KeysAppend(x, y);
    }
  }

  /** Every analyzer name in the body is a shown name: never internal, never "default". */
  lemma EmittedAnalyzerNames(m: MapperValue, e: XEvent)
    requires e in DoXContentBody(m) && e.Field? && e.key in {"analyzer", "index_analyzer", "search_analyzer"}
    ensures e.value.XStr? && Emitted(NamedAnalyzer(e.value.s))
  {
  }
}
