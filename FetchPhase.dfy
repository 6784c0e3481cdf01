/**
 * The fetch phase of a search: which stored fields to load for the hits
 * (the field selector), which requested fields are extracted from the
 * source instead, and how the loaded fields of a document are grouped into
 * the hit's fields.
 */
module FetchPhase {
  import opened Wrappers

  const UidName := "_uid"
  const SourceName := "_source"
  const RoutingName := "_routing"
  const ParentName := "_parent"
  const AllStored := "*"

  /** What the search asked for. `fieldNames` is None when the request named no fields at all. */
  datatype FetchRequest = FetchRequest(
    fieldNames: Option<seq<string>>,
    hasPartialFields: bool,
    hasScriptFields: bool)

  /**
   * The outcome of the selector computation. A `selector` of None loads
   * every stored field; `extract` is None when no field is extracted from
   * the source.
   */
  datatype Selection = Selection(
    selector: Option<set<string>>,
    extract: Option<seq<string>>,
    sourceRequested: bool)

  /** A requested name that is a stored, mapped field (`storedMapped` tells which names are). */
  predicate IsStoredRequest(n: string, storedMapped: string -> bool)
  {
    n != AllStored && n != SourceName && storedMapped(n)
  }

  /** A requested name that has to be extracted from the source. */
  predicate IsExtractRequest(n: string, storedMapped: string -> bool)
  {
    n != AllStored && n != SourceName && !storedMapped(n)
  }

  function StoredRequests(names: seq<string>, storedMapped: string -> bool): set<string>
  {
    set n | n in names && IsStoredRequest(n, storedMapped)
  }

  /** The names to extract, in request order. */
  function ExtractRequests(names: seq<string>, storedMapped: string -> bool): (e: seq<string>)
    ensures forall n :: n in e <==> n in names && IsExtractRequest(n, storedMapped)
    decreases |names|
  {
    if names == [] then []
    else
      var last := names[|names| - 1];
      assert names == names[..|names| - 1] + [last];
      ExtractRequests(names[..|names| - 1], storedMapped) + (if IsExtractRequest(last, storedMapped) then [last] else [])
  }

  function OptionalList(s: seq<string>): Option<seq<string>>
  {
    if s == [] then None else Some(s)
  }

  /**
   * What the selector computation promises for a request: the selector,
   * the extract list and whether the source is returned.
   */
  predicate SelectionOf(request: FetchRequest, storedMapped: string -> bool, sel: Selection)
  {
    match request.fieldNames
    case None =>
      // partial fields need the source without returning it; script fields need no source
      && sel.extract.None?
      && (if request.hasPartialFields then sel.selector == Some({UidName, SourceName, RoutingName}) && !sel.sourceRequested
          else if request.hasScriptFields then sel.selector == Some({UidName, RoutingName}) && !sel.sourceRequested
          else sel.selector == Some({UidName, SourceName, RoutingName}) && sel.sourceRequested)
    case Some(names) =>
      if names == [] then sel == Selection(Some({UidName}), None, false)
      else
        var stored := StoredRequests(names, storedMapped);
        && sel.sourceRequested == (SourceName in names)
        && sel.extract == OptionalList(ExtractRequests(names, storedMapped))
        && sel.selector ==
          (if AllStored in names then
             (if sel.sourceRequested || sel.extract.Some? then None else Some({}))
           else if stored != {} then
             Some(stored + {UidName, RoutingName} + (if sel.extract.Some? then {SourceName} else {}))
           else if sel.extract.Some? || sel.sourceRequested then
             Some({UidName, SourceName, RoutingName})
           else
             Some({UidName, RoutingName}))
  }

  lemma ExtractRequestsSnoc(names: seq<string>, n: string, storedMapped: string -> bool)
    ensures ExtractRequests(names + [n], storedMapped)
      == ExtractRequests(names, storedMapped) + (if IsExtractRequest(n, storedMapped) then [n] else [])
  {
    var t := names + [n];
    assert t[..|t| - 1] == names;
    assert t[|t| - 1] == n;
  }

  lemma StoredRequestsSnoc(names: seq<string>, n: string, storedMapped: string -> bool)
    ensures StoredRequests(names + [n], storedMapped)
      == StoredRequests(names, storedMapped) + (if IsStoredRequest(n, storedMapped) then {n} else {})
  {
    var l := StoredRequests(names + [n], storedMapped);
    var r := StoredRequests(names, storedMapped) + (if IsStoredRequest(n, storedMapped) then {n} else {});
    forall x | x in l ensures x in r {
      assert x in names + [n];
    }
    forall x | x in r ensures x in l {
      assert x in names ==> x in names + [n];
    }
  }

  /**
   * Computes the field selector, the names extracted from the source and
   * whether the source is returned; `storedMapped(n)` says whether `n`
   * names a mapped field that is stored.
   */
  method ComputeSelection(request: FetchRequest, storedMapped: string -> bool) returns (sel: Selection)
    ensures SelectionOf(request, storedMapped, sel)
  {
    var extract: Option<seq<string>> := None;
    var fieldSelector: set<string> := {};
    var sourceRequested := false;
    if request.fieldNames.None? {
      if request.hasPartialFields {
        fieldSelector := fieldSelector + {UidName, SourceName, RoutingName};
        sourceRequested := false;
      } else if request.hasScriptFields {
        fieldSelector := fieldSelector + {UidName, RoutingName};
        sourceRequested := false;
      } else {
        fieldSelector := fieldSelector + {UidName, SourceName, RoutingName};
        sourceRequested := true;
      }
      return Selection(Some(fieldSelector), extract, sourceRequested);
    }
    var names := request.fieldNames.value;
    if names == [] {
      fieldSelector := fieldSelector + {UidName};
      assert fieldSelector == {UidName};
      return Selection(Some(fieldSelector), extract, false);
    }
    var loadAllStored;
    loadAllStored, sourceRequested, fieldSelector, extract := ScanNames(names, storedMapped);
    if loadAllStored {
      if sourceRequested || extract.Some? {
        return Selection(None, extract, sourceRequested);
      } else {
        return Selection(Some({}), extract, sourceRequested);
      }
    } else if |fieldSelector| > 0 {
      ghost var stored := fieldSelector;
      fieldSelector := fieldSelector + {UidName, RoutingName};
      if extract.Some? {
        fieldSelector := fieldSelector + {SourceName};
      }
      assert fieldSelector == stored + {UidName, RoutingName} + (if extract.Some? then {SourceName} else {});
    } else if extract.Some? || sourceRequested {
      assert fieldSelector == {};
      fieldSelector := fieldSelector + {UidName, SourceName, RoutingName};
    } else {
      assert fieldSelector == {};
      fieldSelector := fieldSelector + {UidName, RoutingName};
    }
    return Selection(Some(fieldSelector), extract, sourceRequested);
  }

  /** The loop over an explicit list of names: load-all, source requested, stored fields, extract list. */
  method ScanNames(names: seq<string>, storedMapped: string -> bool)
    returns (loadAllStored: bool, sourceRequested: bool, fieldSelector: set<string>, extract: Option<seq<string>>)
    ensures loadAllStored == (AllStored in names)
    ensures sourceRequested == (SourceName in names)
    ensures fieldSelector == StoredRequests(names, storedMapped)
    ensures extract == OptionalList(ExtractRequests(names, storedMapped))
  {
    extract := None;
    fieldSelector := {};
    sourceRequested := false;
    loadAllStored := false;
    var i := 0;
    while i < |names|
      invariant 0 <= i <= |names|
      invariant loadAllStored == (AllStored in names[..i])
      invariant sourceRequested == (SourceName in names[..i])
      invariant fieldSelector == StoredRequests(names[..i], storedMapped)
      invariant extract == OptionalList(ExtractRequests(names[..i], storedMapped))
    {
      var fieldName := names[i];
      assert names[..i + 1] == names[..i] + [fieldName];
      assert names[..i + 1][..i] == names[..i];
      StoredRequestsSnoc(names[..i], fieldName, storedMapped);
      ExtractRequestsSnoc(names[..i], fieldName, storedMapped);
      ghost var before := ExtractRequests(names[..i], storedMapped);
      assert before + [] == before;
      if fieldName == AllStored {
        loadAllStored := true;
      } else if fieldName == SourceName {
        sourceRequested := true;
      } else if storedMapped(fieldName) {
        fieldSelector := fieldSelector + {fieldName};
      } else {
        if extract.None? {
          extract := Some([]);
        }
        assert extract.value == before;
        extract := Some(extract.value + [fieldName]);
        assert extract == OptionalList(before + [fieldName]);
      }
      i := i + 1;
    }
    assert names[..i] == names;
  }

  /** Whether the document loader reads the stored field `n`: an absent or empty selector reads them all. */
  predicate Loads(selector: Option<set<string>>, n: string)
  {
    selector.None? || selector.value == {} || n in selector.value
  }

  /** Whatever the request, the uid is loaded. */
  lemma UidAlwaysLoaded(request: FetchRequest, storedMapped: string -> bool, sel: Selection)
    requires SelectionOf(request, storedMapped, sel)
    ensures Loads(sel.selector, UidName)
  {
  }

  /** Whenever fields are extracted from the source, the source is loaded. */
  lemma ExtractionLoadsSource(request: FetchRequest, storedMapped: string -> bool, sel: Selection)
    requires SelectionOf(request, storedMapped, sel)
    requires sel.extract.Some?
    ensures Loads(sel.selector, SourceName)
  {
  }

  /**
   * As written, asking for `_source` together with a stored field does not
   * load the source, so the hit comes back without the source it asked for.
   */
  lemma SourceRequestedButNotLoaded(sel: Selection)
    requires SelectionOf(FetchRequest(Some([SourceName, "title"]), false, false), (n: string) => n == "title", sel)
    ensures sel.sourceRequested && !Loads(sel.selector, SourceName)
  {
    var names := [SourceName, "title"];
    var storedMapped := (n: string) => n == "title";
    ExtractRequestsSnoc([], SourceName, storedMapped);
    ExtractRequestsSnoc([SourceName], "title", storedMapped);
    assert [SourceName] + ["title"] == names;
    assert ExtractRequests(names, storedMapped) == [];
    assert "title" in StoredRequests(names, storedMapped);
    assert SourceName !in StoredRequests(names, storedMapped);
  }

  /** The selector as evidently intended: a requested source is loaded along with specific stored fields. */
  function CorrectedSelection(sel: Selection): (r: Selection)
    ensures r.extract == sel.extract && r.sourceRequested == sel.sourceRequested
    ensures forall n :: Loads(sel.selector, n) ==> Loads(r.selector, n)
  {
    if sel.sourceRequested && sel.selector.Some? && sel.selector.value != {}
    then sel.(selector := Some(sel.selector.value + {SourceName}))
    else sel
  }

  /** With the correction, the source is loaded whenever it is returned or fields are extracted from it. */
  lemma CorrectedLoadsSource(request: FetchRequest, storedMapped: string -> bool, sel: Selection)
    requires SelectionOf(request, storedMapped, sel)
    requires sel.sourceRequested || sel.extract.Some?
    ensures Loads(CorrectedSelection(sel).selector, SourceName)
  {
  }

  /**
   * Every requested name other than "*" and "_source" is extracted exactly
   * when it is not a stored mapped field, and stored mapped ones are loaded.
   */
  lemma RequestedNamesCovered(request: FetchRequest, storedMapped: string -> bool, sel: Selection, n: string)
    requires SelectionOf(request, storedMapped, sel)
    requires request.fieldNames.Some? && n in request.fieldNames.value && n != AllStored && n != SourceName
    ensures (sel.extract.Some? && n in sel.extract.value) <==> !storedMapped(n)
    ensures storedMapped(n) ==> Loads(sel.selector, n)
  {
    var names := request.fieldNames.value;
    if !storedMapped(n) {
      assert n in ExtractRequests(names, storedMapped);
    } else {
      assert n in StoredRequests(names, storedMapped);
    }
  }

  // Grouping the loaded fields of a document into hit fields.

  /** A stored field as loaded: its index name and its string or binary value (one of them set). */
  datatype StoredField = StoredField(name: string, stringValue: Option<string>, binaryValue: Option<seq<bv8>>)

  /** A value of a hit field. */
  datatype HitValue =
    | SearchValue(v: string)        // what the field's mapper shows for it
    | BytesValue(bytes: seq<bv8>)   // the raw stored bytes
    | StringValue(s: string)        // the raw stored string
    | RoutingValue(routing: Option<string>)
    | SourceValue(v: string)        // a value extracted from the source

  /** A field mapper as the fetch phase uses it: its full name and what it shows for a field (None for null). */
  datatype MapperView = MapperView(fullName: string, valueForSearch: StoredField -> Option<string>)

  /** The hit fields: one list of values per field name. */
  type HitFields = map<string, seq<HitValue>>

  /** Appends `v` to the hit field `name`, creating it when missing. */
  function AddValue(fields: HitFields, name: string, v: HitValue): (r: HitFields)
    ensures r.Keys == fields.Keys + {name}
    ensures r[name] == (if name in fields then fields[name] else []) + [v]
    ensures forall k :: k in fields && k != name ==> r[k] == fields[k]
  {
    fields[name := (if name in fields then fields[name] else []) + [v]]
  }

  predicate Internal(name: string)
  {
    name == UidName || name == SourceName || name == RoutingName
  }

  /** The name a loaded field is shown under: its mapper's full name, else its index name. */
  function ShownName(f: StoredField, mappers: string -> Option<MapperView>): string
  {
    match mappers(f.name)
    case Some(m) => m.fullName
    case None => f.name
  }

  /**
   * The value a loaded field shows, as the evidently intended code reads:
   * the mapper's value; failing that the raw bytes; failing those the
   * string.
   */
  function ShownValue(f: StoredField, mappers: string -> Option<MapperView>): HitValue
  {
    var mapped := match mappers(f.name) case Some(m) => m.valueForSearch(f) case None => None;
    if mapped.Some? then SearchValue(mapped.value)
    else if f.binaryValue.Some? then BytesValue(f.binaryValue.value)
    else StringValue(if f.stringValue.Some? then f.stringValue.value else "")
  }

  /**
   * The value as the code is written: without a mapper value it always
   * reads the binary value, and a field with only a string value makes
   * that read throw (the string fallback after it can never be reached).
   */
  function ShownValueAsWritten(f: StoredField, mappers: string -> Option<MapperView>): Result<HitValue, FetchError>
  {
    var mapped := match mappers(f.name) case Some(m) => m.valueForSearch(f) case None => None;
    if mapped.Some? then Ok(SearchValue(mapped.value))
    else if f.binaryValue.Some? then Ok(BytesValue(f.binaryValue.value))
    else Err(NullPointer)
  }

  datatype FetchError =
    | NullPointer
    | FetchFailed(docId: int)                 // reading the stored fields failed
    | MissingUid(fieldNames: seq<string>)     // the loaded document has no `_uid`
    | TypeMissing(typeName: string)

  /** The hit fields made from a document's loaded fields, in document order. */
  function GroupSpec(fields: HitFields, docFields: seq<StoredField>, mappers: string -> Option<MapperView>): HitFields
    decreases |docFields|
  {
    if docFields == [] then fields
    else
      var f := docFields[0];
      var next := if Internal(f.name) then fields
                  else AddValue(fields, ShownName(f, mappers), ShownValue(f, mappers));
      GroupSpec(next, docFields[1..], mappers)
  }

  /** The values shown under `name` by the non-internal fields of `docFields`, in order. */
  function ValuesNamed(docFields: seq<StoredField>, name: string, mappers: string -> Option<MapperView>): seq<HitValue>
    decreases |docFields|
  {
    if docFields == [] then []
    else
      var f := docFields[0];
      (if !Internal(f.name) && ShownName(f, mappers) == name then [ShownValue(f, mappers)] else [])
      + ValuesNamed(docFields[1..], name, mappers)
  }

  /**
   * Grouping skips `_uid`, `_source` and `_routing` and appends each value,
   * in document order, to the one hit field of its shown name.
   */
  lemma {:induction false} GroupCollectsInOrder(fields: HitFields, docFields: seq<StoredField>,
      mappers: string -> Option<MapperView>, name: string)
    ensures var g := GroupSpec(fields, docFields, mappers);
      && (name in g <==> name in fields || ValuesNamed(docFields, name, mappers) != [])
      && (name in g ==> g[name] == (if name in fields then fields[name] else []) + ValuesNamed(docFields, name, mappers))
    decreases |docFields|
  {
    if docFields != [] {
      var f := docFields[0];
      var next := if Internal(f.name) then fields
                  else AddValue(fields, ShownName(f, mappers), ShownValue(f, mappers));
      GroupCollectsInOrder(next, docFields[1..], mappers, name);
      var head: seq<HitValue> := if !Internal(f.name) && ShownName(f, mappers) == name then [ShownValue(f, mappers)] else [];
      assert ValuesNamed(docFields, name, mappers) == head + ValuesNamed(docFields[1..], name, mappers);
      if name in next {
        assert next[name] == (if name in fields then fields[name] else []) + head;
      } else {
        assert head == [];
      }
    }
  }

  /** Internal fields never become hit fields of their own. */
  lemma {:induction false} InternalFieldsSkipped(docFields: seq<StoredField>, mappers: string -> Option<MapperView>, name: string)
    requires forall f :: f in docFields && ShownName(f, mappers) == name ==> Internal(f.name)
    ensures ValuesNamed(docFields, name, mappers) == []
    decreases |docFields|
  {
    if docFields != [] {
      assert forall f :: f in docFields[1..] ==> f in docFields;
      InternalFieldsSkipped(docFields[1..], mappers, name);
    }
  }

  /** Groups the loaded fields of a document into hit fields. */
  method GroupFields(docFields: seq<StoredField>, mappers: string -> Option<MapperView>) returns (fields: HitFields)
    ensures fields == GroupSpec(map[], docFields, mappers)
  {
    fields := map[];
    var i := 0;
    while i < |docFields|
      invariant 0 <= i <= |docFields|
      invariant GroupSpec(map[], docFields, mappers) == GroupSpec(fields, docFields[i..], mappers)
    {
      assert docFields[i..][1..] == docFields[i + 1..];
      var field := docFields[i];
      var name := field.name;
      if !Internal(name) {
        var value: Option<HitValue> := None;
        var m := mappers(field.name);
        if m.Some? {
          name := m.value.fullName;
          var v := m.value.valueForSearch(field);
          if v.Some? {
            value := Some(SearchValue(v.value));
          }
        }
        if value.None? && field.binaryValue.Some? {
          value := Some(BytesValue(field.binaryValue.value));
        }
        if value.None? {
          value := Some(StringValue(if field.stringValue.Some? then field.stringValue.value else ""));
        }
        fields := AddValue(fields, name, value.value);
      }
      i := i + 1;
    }
  }

  /** The grouping as written: the first loaded field without a mapper value or bytes raises. */
  function GroupAsWritten(fields: HitFields, docFields: seq<StoredField>, mappers: string -> Option<MapperView>):
    Result<HitFields, FetchError>
    decreases |docFields|
  {
    if docFields == [] then Ok(fields)
    else
      var f := docFields[0];
      if Internal(f.name) then GroupAsWritten(fields, docFields[1..], mappers)
      else match ShownValueAsWritten(f, mappers)
        case Err(e) => Err(e)
        case Ok(v) => GroupAsWritten(AddValue(fields, ShownName(f, mappers), v), docFields[1..], mappers)
  }

  /** Where the code as written succeeds, it agrees with the intended grouping. */
  lemma {:induction false} AsWrittenAgrees(fields: HitFields, docFields: seq<StoredField>, mappers: string -> Option<MapperView>)
    requires GroupAsWritten(fields, docFields, mappers).Ok?
    ensures GroupAsWritten(fields, docFields, mappers).value == GroupSpec(fields, docFields, mappers)
    decreases |docFields|
  {
    if docFields != [] {
      var f := docFields[0];
      if Internal(f.name) {
        AsWrittenAgrees(fields, docFields[1..], mappers);
      } else {
        AsWrittenAgrees(AddValue(fields, ShownName(f, mappers), ShownValue(f, mappers)), docFields[1..], mappers);
      }
    }
  }

  /**
   * A document with one unmapped stored string field: the code as written
   * throws, where the intended code shows the string.
   */
  lemma UnmappedStringFieldThrows()
    ensures var doc := [StoredField("title", Some("hello"), None)];
      var noMappers := (n: string) => None;
      GroupAsWritten(map[], doc, noMappers) == Err(NullPointer)
      && GroupSpec(map[], doc, noMappers) == map["title" := [StringValue("hello")]]
  {
    var f := StoredField("title", Some("hello"), None);
    var doc := [f];
    var noMappers: string -> Option<MapperView> := (n: string) => None;
    assert !Internal("title");
    assert doc[1..] == [];
    assert ShownName(f, noMappers) == "title";
    assert ShownValue(f, noMappers) == StringValue("hello");
    assert ShownValueAsWritten(f, noMappers) == Err(NullPointer);
    var empty: seq<HitValue> := [];
    assert empty + [StringValue("hello")] == [StringValue("hello")];
    assert GroupSpec(map[], doc, noMappers) == GroupSpec(map["title" := [StringValue("hello")]], [], noMappers);
  }

  /**
   * The values extracted from the source, added after the stored ones:
   * `_parent` first gets the routing, then every name the source has a
   * value for gets that value (`extractValue`, the source lookup).
   */
  function ExtractSpec(fields: HitFields, names: seq<string>, routing: Option<string>,
      extractValue: string -> Option<string>): HitFields
    decreases |names|
  {
    if names == [] then fields
    else
      var n := names[0];
      var withRouting := if n == ParentName then AddValue(fields, n, RoutingValue(routing)) else fields;
      var withValue := match extractValue(n)
        case Some(v) => AddValue(withRouting, n, SourceValue(v))
        case None => withRouting;
      ExtractSpec(withValue, names[1..], routing, extractValue)
  }

  method ExtractFields(fields0: HitFields, names: seq<string>, routing: Option<string>,
      extractValue: string -> Option<string>) returns (fields: HitFields)
    ensures fields == ExtractSpec(fields0, names, routing, extractValue)
  {
    fields := fields0;
    var i := 0;
    while i < |names|
      invariant 0 <= i <= |names|
      invariant ExtractSpec(fields0, names, routing, extractValue) == ExtractSpec(fields, names[i..], routing, extractValue)
    {
      assert names[i..][1..] == names[i + 1..];
      var name := names[i];
      if name == ParentName {
        fields := AddValue(fields, name, RoutingValue(routing));
      }
      var value := extractValue(name);
      if value.Some? {
        fields := AddValue(fields, name, SourceValue(value.value));
      }
      i := i + 1;
    }
  }

  /** Extraction only adds: every hit field keeps its earlier values as a prefix. */
  lemma {:induction false} ExtractOnlyAppends(fields: HitFields, names: seq<string>, routing: Option<string>,
      extractValue: string -> Option<string>, k: string)
    requires k in fields
    ensures var r := ExtractSpec(fields, names, routing, extractValue);
      k in r && fields[k] <= r[k]
    decreases |names|
  {
    if names != [] {
      var n := names[0];
      var withRouting := if n == ParentName then AddValue(fields, n, RoutingValue(routing)) else fields;
      var withValue := match extractValue(n)
        case Some(v) => AddValue(withRouting, n, SourceValue(v))
        case None => withRouting;
      assert fields[k] <= withValue[k];
      ExtractOnlyAppends(withValue, names[1..], routing, extractValue, k);
    }
  }

  // Building the hits.

  datatype Uid = Uid(typeName: string, id: string)

  /** The part of a document mapper the fetch phase uses: field mappers by index name, and the source's native bytes. */
  datatype DocumentMapper = DocumentMapper(
    mappers: string -> Option<MapperView>,
    sourceNative: StoredField -> seq<bv8>)

  /**
   * The search context as the hit loop needs it: the stored fields of a
   * doc id (None when reading them fails), the uid parser, the mapper of
   * each type and the source lookup of a document.
   */
  datatype HitContext = HitContext(
    storedFields: int -> Option<seq<StoredField>>,
    createUid: string -> Uid,
    documentMapper: string -> Option<DocumentMapper>,
    extractValue: (int, string) -> Option<string>)

  datatype Hit = Hit(docId: int, id: string, typeName: string, source: Option<seq<bv8>>, fields: HitFields)

  /** The fields of `doc` whose names are in `names`, in order. */
  function Selected(doc: seq<StoredField>, names: set<string>): (r: seq<StoredField>)
    ensures forall f :: f in r <==> f in doc && f.name in names
    decreases |doc|
  {
    if doc == [] then []
    else
      assert forall f :: f in doc ==> f == doc[0] || f in doc[1..];
      (if doc[0].name in names then [doc[0]] else []) + Selected(doc[1..], names)
  }

  /** The document as loaded with a field selector: all stored fields when the selector is absent or empty. */
  function LoadDocument(ctx: HitContext, selector: Option<set<string>>, docId: int): (r: Result<seq<StoredField>, FetchError>)
    ensures r.Ok? <==> ctx.storedFields(docId).Some?
    ensures r.Ok? ==> forall f :: f in r.value <==> f in ctx.storedFields(docId).value && Loads(selector, f.name)
  {
    match ctx.storedFields(docId)
    case None => Err(FetchFailed(docId))
    case Some(all) =>
      if selector.None? || selector.value == {} then Ok(all) else Ok(Selected(all, selector.value))
  }

  /** `doc.get(name)`: the string value of the first field called `name` that has one. */
  function Get(doc: seq<StoredField>, name: string): (r: Option<string>)
    ensures r.Some? <==> exists f :: f in doc && f.name == name && f.stringValue.Some?
    decreases |doc|
  {
    if doc == [] then None
    else if doc[0].name == name && doc[0].stringValue.Some? then doc[0].stringValue
    else
      assert forall f :: f in doc ==> f == doc[0] || f in doc[1..];
      Get(doc[1..], name)
  }

  /** `doc.getField(name)`: the first field called `name`. */
  function FirstNamed(doc: seq<StoredField>, name: string): (r: Option<StoredField>)
    ensures r.Some? ==> r.value in doc && r.value.name == name
    ensures r.None? ==> forall f :: f in doc ==> f.name != name
    decreases |doc|
  {
    if doc == [] then None
    else if doc[0].name == name then Some(doc[0])
    else FirstNamed(doc[1..], name)
  }

  function FieldNames(doc: seq<StoredField>): (r: seq<string>)
    ensures |r| == |doc| && forall i :: 0 <= i < |doc| ==> r[i] == doc[i].name
  {
    seq(|doc|, i requires 0 <= i < |doc| => doc[i].name)
  }

  /** The routing of a document: `_routing`, else `_parent`. */
  function RoutingOf(doc: seq<StoredField>): Option<string>
  {
    if Get(doc, RoutingName).Some? then Get(doc, RoutingName) else Get(doc, ParentName)
  }

  /** The hit for one document id, or the exception the loop raises for it. */
  function HitFor(ctx: HitContext, sel: Selection, docId: int): Result<Hit, FetchError>
  {
    match LoadDocument(ctx, sel.selector, docId)
    case Err(e) => Err(e)
    case Ok(doc) =>
      match Get(doc, UidName)
      case None => Err(MissingUid(FieldNames(doc)))
      case Some(sUid) =>
        var uid := ctx.createUid(sUid);
        match ctx.documentMapper(uid.typeName)
        case None => Err(TypeMissing(uid.typeName))
        case Some(dm) =>
          var source := match FirstNamed(doc, SourceName) case Some(f) => Some(dm.sourceNative(f)) case None => None;
          var stored := GroupSpec(map[], doc, dm.mappers);
          var fields := if sel.extract.Some?
            then ExtractSpec(stored, sel.extract.value, RoutingOf(doc), (n: string) => ctx.extractValue(docId, n))
            else stored;
          Ok(Hit(docId, uid.id, uid.typeName, if sel.sourceRequested then source else None, fields))
  }

  /**
   * The hit as the code is written: the same steps as `HitFor`, with the
   * grouping that raises on a loaded field holding neither a mapper value
   * nor bytes.
   */
  function HitForAsWritten(ctx: HitContext, sel: Selection, docId: int): Result<Hit, FetchError>
  {
    match LoadDocument(ctx, sel.selector, docId)
    case Err(e) => Err(e)
    case Ok(doc) =>
      match Get(doc, UidName)
      case None => Err(MissingUid(FieldNames(doc)))
      case Some(sUid) =>
        var uid := ctx.createUid(sUid);
        match ctx.documentMapper(uid.typeName)
        case None => Err(TypeMissing(uid.typeName))
        case Some(dm) =>
          var source := match FirstNamed(doc, SourceName) case Some(f) => Some(dm.sourceNative(f)) case None => None;
          match GroupAsWritten(map[], doc, dm.mappers)
          case Err(e) => Err(e)
          case Ok(stored) =>
            var fields := if sel.extract.Some?
              then ExtractSpec(stored, sel.extract.value, RoutingOf(doc), (n: string) => ctx.extractValue(docId, n))
              else stored;
            Ok(Hit(docId, uid.id, uid.typeName, if sel.sourceRequested then source else None, fields))
  }

  /**
   * The hit loop follows the corrected grouping: wherever the code as
   * written makes a hit it makes the same one, and it differs only where
   * the code as written raises the NullPointerException.
   */
  lemma HitForRefinesAsWritten(ctx: HitContext, sel: Selection, docId: int)
    ensures HitForAsWritten(ctx, sel, docId).Ok? ==> HitFor(ctx, sel, docId) == HitForAsWritten(ctx, sel, docId)
    ensures HitFor(ctx, sel, docId) != HitForAsWritten(ctx, sel, docId) ==>
      HitForAsWritten(ctx, sel, docId) == Err(NullPointer) && HitFor(ctx, sel, docId).Ok?
  {
    match LoadDocument(ctx, sel.selector, docId)
    case Err(_) =>
    case Ok(doc) =>
      match Get(doc, UidName)
      case None =>
      case Some(sUid) =>
        var uid := ctx.createUid(sUid);
        match ctx.documentMapper(uid.typeName)
        case None =>
        case Some(dm) =>
          GroupAsWrittenOnlyNullPointer(map[], doc, dm.mappers);
          if GroupAsWritten(map[], doc, dm.mappers).Ok? {
            AsWrittenAgrees(map[], doc, dm.mappers);
          }
  }

  /** The only exception the grouping as written raises is the NullPointerException. */
  lemma {:induction false} GroupAsWrittenOnlyNullPointer(fields: HitFields, docFields: seq<StoredField>,
      mappers: string -> Option<MapperView>)
    ensures GroupAsWritten(fields, docFields, mappers).Err? ==> GroupAsWritten(fields, docFields, mappers).error == NullPointer
    decreases |docFields|
  {
    if docFields != [] {
      var f := docFields[0];
      if Internal(f.name) {
        GroupAsWrittenOnlyNullPointer(fields, docFields[1..], mappers);
      } else if ShownValueAsWritten(f, mappers).Ok? {
        GroupAsWrittenOnlyNullPointer(AddValue(fields, ShownName(f, mappers), ShownValueAsWritten(f, mappers).value),
          docFields[1..], mappers);
      }
    }
  }

  /** A hit returns its source only when the source was requested. */
  lemma {:induction false} SourceOnlyWhenRequested(ctx: HitContext, sel: Selection, docId: int)
    requires HitFor(ctx, sel, docId).Ok?
    ensures HitFor(ctx, sel, docId).value.docId == docId
    ensures HitFor(ctx, sel, docId).value.source.Some? ==> sel.sourceRequested
  {
  }

  /** A hit is made only for a document whose uid was loaded and whose type has a mapper. */
  lemma HitNeedsUidAndType(ctx: HitContext, sel: Selection, docId: int)
    requires HitFor(ctx, sel, docId).Ok?
    ensures var doc := LoadDocument(ctx, sel.selector, docId);
      doc.Ok? && Get(doc.value, UidName).Some?
      && ctx.createUid(Get(doc.value, UidName).value) == Uid(HitFor(ctx, sel, docId).value.typeName, HitFor(ctx, sel, docId).value.id)
      && ctx.documentMapper(HitFor(ctx, sel, docId).value.typeName).Some?
  {
  }

  /**
   * Fills the hits for the `size` document ids starting at `from`: hit `i`
   * is the hit of `docIds[from + i]`; the first failing document ends the
   * loop with its exception.
   */
  method BuildHits(ctx: HitContext, sel: Selection, docIds: seq<int>, from: nat, size: nat)
    returns (hits: array<Hit>, error: Option<FetchError>)
    requires from + size <= |docIds|
    ensures fresh(hits) && hits.Length == size
    ensures var ids := docIds[from..from + size];
      error.None? ==> forall i :: 0 <= i < size ==> HitFor(ctx, sel, ids[i]) == Ok(hits[i])
    ensures var ids := docIds[from..from + size];
      error.Some? ==> exists i :: 0 <= i < size && FirstFailure(ctx, sel, ids, i, error.value)
  {
    ghost var ids := docIds[from..from + size];
    hits := new Hit[size];
    var index := 0;
    while index < size
      invariant 0 <= index <= size
      invariant forall i :: 0 <= i < index ==> HitFor(ctx, sel, ids[i]) == Ok(hits[i])
    {
      var docId := docIds[from + index];
      assert docId == ids[index];
      var hit := BuildHit(ctx, sel, docId);
      if hit.Err? {
        assert FirstFailure(ctx, sel, ids, index, hit.error);
        return hits, Some(hit.error);
      }
      hits[index] := hit.value;
      index := index + 1;
    }
    return hits, None;
  }

  /** Document `ids[i]` fails with `e`, and every document before it makes a hit. */
  predicate FirstFailure(ctx: HitContext, sel: Selection, ids: seq<int>, i: nat, e: FetchError)
    requires i < |ids|
  {
    HitFor(ctx, sel, ids[i]) == Err(e) && forall j :: 0 <= j < i ==> HitFor(ctx, sel, ids[j]).Ok?
  }

  method BuildHit(ctx: HitContext, sel: Selection, docId: int) returns (r: Result<Hit, FetchError>)
    ensures r == HitFor(ctx, sel, docId)
  {
    var loaded := LoadDocument(ctx, sel.selector, docId);
    if loaded.Err? {
      return Err(loaded.error);
    }
    var doc := loaded.value;
    var sUid := Get(doc, UidName);
    if sUid.None? {
      return Err(MissingUid(FieldNames(doc)));
    }
    var uid := ctx.createUid(sUid.value);
    var routing := RoutingOf(doc);
    var documentMapper := ctx.documentMapper(uid.typeName);
    if documentMapper.None? {
      return Err(TypeMissing(uid.typeName));
    }
    var sourceField := FirstNamed(doc, SourceName);
    var source: Option<seq<bv8>> := None;
    if sourceField.Some? {
      source := Some(documentMapper.value.sourceNative(sourceField.value));
    }
    var fields := GroupFields(doc, documentMapper.value.mappers);
    if sel.extract.Some? {
      fields := ExtractFields(fields, sel.extract.value, routing, (n: string) => ctx.extractValue(docId, n));
    }
    return Ok(Hit(docId, uid.id, uid.typeName, if sel.sourceRequested then source else None, fields));
  }
}
