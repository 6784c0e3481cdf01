/**
 * The highlight part of a search request: the fields to highlight, each
 * with optional fragment settings, and the tag and order options, written
 * out as a "highlight" object.
 */
module HighlightBuilder {
  import opened Wrappers
  import XContent

  /** A fragment setting that was never given. */
  const Unset: int := -1

  /** A field to highlight and its fragment settings (-1 when not given). */
  datatype HighlightField = HighlightField(name: string, fragmentSize: int, fragmentOffset: int, numOfFragments: int)

  /** A new field: every fragment setting unset. */
  function NewField(name: string): (f: HighlightField)
    ensures f.name == name && f.fragmentSize == Unset && f.fragmentOffset == Unset && f.numOfFragments == Unset
  {
    HighlightField(name, Unset, Unset, Unset)
  }

  /** The whole state of a highlight builder; None stands for a null field. */
  datatype HighlightState = HighlightState(
    fields: Option<seq<HighlightField>>,
    tagsSchema: Option<string>,
    preTags: Option<seq<string>>,
    postTags: Option<seq<string>>,
    order: Option<string>,
    encoder: Option<string>)

  /** The field list after appending `f`, creating it when missing. */
  function Appended(fields: Option<seq<HighlightField>>, f: HighlightField): (r: Option<seq<HighlightField>>)
    ensures r.Some? && |r.value| >= 1 && r.value[|r.value| - 1] == f
    ensures fields.Some? ==> r.value[..|r.value| - 1] == fields.value
    ensures fields.None? ==> r.value == [f]
  {
    Some((if fields.None? then [] else fields.value) + [f])
  }

  class HighlightBuilder {
    var fields: Option<seq<HighlightField>>
    var tagsSchema: Option<string>
    var preTags: Option<seq<string>>
    var postTags: Option<seq<string>>
    var order: Option<string>
    var encoder: Option<string>

    function Value(): HighlightState
      reads this
    {
      HighlightState(fields, tagsSchema, preTags, postTags, order, encoder)
    }

    /** The field list exists only once a field was added. */
    predicate Valid()
      reads this
    {
      fields.None? || |fields.value| >= 1
    }

    constructor()
      ensures Valid() && Value() == HighlightState(None, None, None, None, None, None)
    {
      fields := None;
      tagsSchema := None;
      preTags := None;
      postTags := None;
      order := None;
      encoder := None;
    }

    /** `field(name)`: appends a field with every setting unset. */
    method AddField(name: string)
      modifies this
      requires Valid()
      ensures Valid() && Value() == old(Value()).(fields := Appended(old(fields), NewField(name)))
    {
      if fields.None? {
        fields := Some([]);
      }
      fields := Some(fields.value + [NewField(name)]);
    }

    /** `field(name, fragmentSize)`: only the fragment size is set. */
    method AddFieldWithSize(name: string, fragmentSize: int)
      modifies this
      requires Valid()
      ensures Valid() && Value() == old(Value()).(fields := Appended(old(fields), NewField(name).(fragmentSize := fragmentSize)))
    {
      if fields.None? {
        fields := Some([]);
      }
      fields := Some(fields.value + [NewField(name).(fragmentSize := fragmentSize)]);
    }

    /** `field(name, fragmentSize, numberOfFragments)`. */
    method AddFieldWithFragments(name: string, fragmentSize: int, numberOfFragments: int)
      modifies this
      requires Valid()
      ensures Valid() && Value() == old(Value()).(fields := Appended(old(fields),
        NewField(name).(fragmentSize := fragmentSize, numOfFragments := numberOfFragments)))
    {
      if fields.None? {
        fields := Some([]);
      }
      fields := Some(fields.value + [NewField(name).(fragmentSize := fragmentSize, numOfFragments := numberOfFragments)]);
    }

    /** `field(name, fragmentSize, numberOfFragments, fragmentOffset)`. */
    method AddFieldWithOffset(name: string, fragmentSize: int, numberOfFragments: int, fragmentOffset: int)
      modifies this
      requires Valid()
      ensures Valid() && Value() == old(Value()).(fields := Appended(old(fields),
        HighlightField(name, fragmentSize, fragmentOffset, numberOfFragments)))
    {
      if fields.None? {
        fields := Some([]);
      }
      fields := Some(fields.value + [NewField(name).(fragmentSize := fragmentSize, numOfFragments := numberOfFragments)
        .(fragmentOffset := fragmentOffset)]);
    }

    method SetTagsSchema(schemaName: Option<string>)
      modifies this
      requires Valid()
      ensures Valid() && Value() == old(Value()).(tagsSchema := schemaName)
    {
      tagsSchema := schemaName;
    }

    method SetEncoder(encoder: Option<string>)
      modifies this
      requires Valid()
      ensures Valid() && Value() == old(Value()).(encoder := encoder)
    {
      this.encoder := encoder;
    }

    method SetPreTags(preTags: Option<seq<string>>)
      modifies this
      requires Valid()
      ensures Valid() && Value() == old(Value()).(preTags := preTags)
    {
      this.preTags := preTags;
    }

    method SetPostTags(postTags: Option<seq<string>>)
      modifies this
      requires Valid()
      ensures Valid() && Value() == old(Value()).(postTags := postTags)
    {
      this.postTags := postTags;
    }

    method SetOrder(order: Option<string>)
      modifies this
      requires Valid()
      ensures Valid() && Value() == old(Value()).(order := order)
    {
      this.order := order;
    }

    /** The options that are set, in their fixed order. */
    method WriteOptions() returns (opts: seq<XContent.XEvent>)
      ensures opts == Options(Value())
    {
      var schema: seq<XContent.XEvent> := [];
      if tagsSchema.Some? {
        schema := [XContent.Field("tags_schema", XContent.XStr(tagsSchema.value))];
      }
      var pre: seq<XContent.XEvent> := [];
      if preTags.Some? {
        pre := [XContent.Field("pre_tags", XContent.XStrArray(preTags.value))];
      }
      var post: seq<XContent.XEvent> := [];
      if postTags.Some? {
        post := [XContent.Field("post_tags", XContent.XStrArray(postTags.value))];
      }
      var ord: seq<XContent.XEvent> := [];
      if order.Some? {
        ord := [XContent.Field("order", XContent.XStr(order.value))];
      }
      var enc: seq<XContent.XEvent> := [];
      if encoder.Some? {
        enc := [XContent.Field("encoder", XContent.XStr(encoder.value))];
      }
      opts := schema + pre + post + ord + enc;
    }

    /** `toXContent`: the "highlight" object, its options, then one object per field. */
    method ToXContent() returns (events: seq<XContent.XEvent>)
      ensures events == Render(Value())
    {
      var opts := WriteOptions();
      var fieldsObject := [];
      if fields.Some? {
        var body := WriteFields(fields.value);
        fieldsObject := [XContent.StartObject("fields")] + body + [XContent.EndObject];
      }
      events := [XContent.StartObject("highlight")] + opts + fieldsObject + [XContent.EndObject];
    }
  }

  /** The objects of the fields, one after the other. */
  method WriteFields(fs: seq<HighlightField>) returns (body: seq<XContent.XEvent>)
    ensures body == FieldsBody(fs)
  {
    body := [];
    var i := 0;
    while i < |fs|
      invariant 0 <= i <= |fs|
      invariant body + FieldsBody(fs[i..]) == FieldsBody(fs)
    {
      assert fs[i..][1..] == fs[i + 1..];
      var one := WriteField(fs[i]);
      Associative(body, one, FieldsBody(fs[i + 1..]));
      body := body + one;
      i := i + 1;
    }
    assert fs[i..] == [];
    assert body + [] == body;
  }

  /** The object of one field, leaving out the settings that are -1. */
  method WriteField(field: HighlightField) returns (one: seq<XContent.XEvent>)
    ensures one == FieldBody(field)
  {
    one := [XContent.StartObject(field.name)];
    if field.fragmentSize != Unset {
      one := one + [XContent.Field("fragment_size", XContent.XInt(field.fragmentSize))];
    }
    if field.numOfFragments != Unset {
      one := one + [XContent.Field("number_of_fragments", XContent.XInt(field.numOfFragments))];
    }
    if field.fragmentOffset != Unset {
      one := one + [XContent.Field("fragment_offset", XContent.XInt(field.fragmentOffset))];
    }
    one := one + [XContent.EndObject];
  }

  lemma Associative(a: seq<XContent.XEvent>, b: seq<XContent.XEvent>, c: seq<XContent.XEvent>)
    ensures (a + b) + c == a + (b + c)
  {
  }

  /** A field entry, if present. */
  function Opt(key: string, v: Option<XContent.XValue>): seq<XContent.XEvent>
  {
    if v.Some? then [XContent.Field(key, v.value)] else []
  }

  function MapStr(s: Option<string>): Option<XContent.XValue>
  {
    if s.Some? then Some(XContent.XStr(s.value)) else None
  }

  function MapArr(s: Option<seq<string>>): Option<XContent.XValue>
  {
    if s.Some? then Some(XContent.XStrArray(s.value)) else None
  }

  /** The top-level options, each only when set, in their fixed order. */
  function Options(s: HighlightState): seq<XContent.XEvent>
  {
    Opt("tags_schema", MapStr(s.tagsSchema)) + Opt("pre_tags", MapArr(s.preTags)) + Opt("post_tags", MapArr(s.postTags))
    + Opt("order", MapStr(s.order)) + Opt("encoder", MapStr(s.encoder))
  }

  /** A fragment setting, omitted when unset. */
  function Setting(key: string, v: int): seq<XContent.XEvent>
  {
    if v != Unset then [XContent.Field(key, XContent.XInt(v))] else []
  }

  /** The object of one field: its settings that are not -1. */
  function FieldBody(f: HighlightField): seq<XContent.XEvent>
  {
    [XContent.StartObject(f.name)]
    + Setting("fragment_size", f.fragmentSize) + Setting("number_of_fragments", f.numOfFragments)
    + Setting("fragment_offset", f.fragmentOffset)
    + [XContent.EndObject]
  }

  function FieldsBody(fs: seq<HighlightField>): seq<XContent.XEvent>
    decreases |fs|
  {
    if fs == [] then [] else FieldBody(fs[0]) + FieldsBody(fs[1..])
  }

  /** The "highlight" object a builder state is written as. */
  function Render(s: HighlightState): seq<XContent.XEvent>
  {
    [XContent.StartObject("highlight")] + Options(s)
    + (if s.fields.Some? then [XContent.StartObject("fields")] + FieldsBody(s.fields.value) + [XContent.EndObject] else [])
    + [XContent.EndObject]
  }

  /** The names of the objects opened in a sequence of events, in order. */
  function ObjectNames(events: seq<XContent.XEvent>): seq<string>
    decreases |events|
  {
    if events == [] then []
    else (if events[0].StartObject? then [events[0].name] else []) + ObjectNames(events[1..])
  }

  lemma {:induction false} ObjectNamesAppend(a: seq<XContent.XEvent>, b: seq<XContent.XEvent>)
    ensures ObjectNames(a + b) == ObjectNames(a) + ObjectNames(b)
    decreases |a|
  {
    if a == [] {
      assert a + b == b;
    } else {
      assert (a + b)[0] == a[0];
      assert (a + b)[1..] == a[1..] + b;
      ObjectNamesAppend(a[1..], b);
    }
  }

  function Names(fs: seq<HighlightField>): (ns: seq<string>)
    ensures |ns| == |fs| && forall i :: 0 <= i < |fs| ==> ns[i] == fs[i].name
  {
    seq(|fs|, i requires 0 <= i < |fs| => fs[i].name)
  }

  /** A field's object opens exactly one object, named after the field. */
  lemma FieldBodyObjects(f: HighlightField)
    ensures ObjectNames(FieldBody(f)) == [f.name]
  {
    var settings := Setting("fragment_size", f.fragmentSize) + Setting("number_of_fragments", f.numOfFragments)
      + Setting("fragment_offset", f.fragmentOffset);
    assert FieldBody(f) == [XContent.StartObject(f.name)] + (settings + [XContent.EndObject]);
    ObjectNamesAppend([XContent.StartObject(f.name)], settings + [XContent.EndObject]);
    ObjectNamesAppend(settings, [XContent.EndObject]);
    ObjectNamesAppend(Setting("fragment_size", f.fragmentSize) + Setting("number_of_fragments", f.numOfFragments),
      Setting("fragment_offset", f.fragmentOffset));
    ObjectNamesAppend(Setting("fragment_size", f.fragmentSize), Setting("number_of_fragments", f.numOfFragments));
  }

  lemma {:induction false} FieldsBodyObjects(fs: seq<HighlightField>)
    ensures ObjectNames(FieldsBody(fs)) == Names(fs)
    decreases |fs|
  {
    if fs != [] {
      ObjectNamesAppend(FieldBody(fs[0]), FieldsBody(fs[1..]));
      FieldBodyObjects(fs[0]);
      FieldsBodyObjects(fs[1..]);
      assert Names(fs) == [fs[0].name] + Names(fs[1..]);
    }
  }

  lemma OptionsOpenNothing(s: HighlightState)
    ensures ObjectNames(Options(s)) == []
  {
    var a := Opt("tags_schema", MapStr(s.tagsSchema));
    var b := Opt("pre_tags", MapArr(s.preTags));
    var c := Opt("post_tags", MapArr(s.postTags));
    var d := Opt("order", MapStr(s.order));
    var e := Opt("encoder", MapStr(s.encoder));
    OptOpensNothing("tags_schema", MapStr(s.tagsSchema));
    OptOpensNothing("pre_tags", MapArr(s.preTags));
    OptOpensNothing("post_tags", MapArr(s.postTags));
    OptOpensNothing("order", MapStr(s.order));
    OptOpensNothing("encoder", MapStr(s.encoder));
    ObjectNamesAppend(a, b);
    ObjectNamesAppend(a + b, c);
    ObjectNamesAppend(a + b + c, d);
    ObjectNamesAppend(a + b + c + d, e);
  }

  lemma OptOpensNothing(key: string, v: Option<XContent.XValue>)
    ensures ObjectNames(Opt(key, v)) == []
  {
    if v.Some? {
      assert Opt(key, v)[1..] == [];
    }
  }

  /**
   * The objects written: "highlight", then "fields" exactly when a field
   * was added, holding one object per field in the order they were added.
   */
  lemma RenderObjects(s: HighlightState)
    ensures ObjectNames(Render(s)) ==
      ["highlight"] + (if s.fields.Some? then ["fields"] + Names(s.fields.value) else [])
  {
    var fieldsPart := if s.fields.Some? then [XContent.StartObject("fields")] + FieldsBody(s.fields.value) + [XContent.EndObject] else [];
    ObjectNamesAppend([XContent.StartObject("highlight")] + Options(s) + fieldsPart, [XContent.EndObject]);
    ObjectNamesAppend([XContent.StartObject("highlight")] + Options(s), fieldsPart);
    ObjectNamesAppend([XContent.StartObject("highlight")], Options(s));
    OptionsOpenNothing(s);
    if s.fields.Some? {
      ObjectNamesAppend([XContent.StartObject("fields")] + FieldsBody(s.fields.value), [XContent.EndObject]);
      ObjectNamesAppend([XContent.StartObject("fields")], FieldsBody(s.fields.value));
      FieldsBodyObjects(s.fields.value);
    }
  }

  lemma KeysOpt(key: string, v: Option<XContent.XValue>)
    ensures XContent.Keys(Opt(key, v)) == (if v.Some? then [key] else [])
  {
  }

  /** The keys of the top-level options: those set, in the order tags_schema, pre_tags, post_tags, order, encoder. */
  lemma OptionKeys(s: HighlightState)
    ensures XContent.Keys(Options(s)) ==
      (if s.tagsSchema.Some? then ["tags_schema"] else []) + (if s.preTags.Some? then ["pre_tags"] else [])
      + (if s.postTags.Some? then ["post_tags"] else []) + (if s.order.Some? then ["order"] else [])
      + (if s.encoder.Some? then ["encoder"] else [])
  {
    var a := Opt("tags_schema", MapStr(s.tagsSchema));
    var b := Opt("pre_tags", MapArr(s.preTags));
    var c := Opt("post_tags", MapArr(s.postTags));
    var d := Opt("order", MapStr(s.order));
    var e := Opt("encoder", MapStr(s.encoder));
    XContent.KeysAppend(a + b + c + d, e);
    XContent.KeysAppend(a + b + c, d);
    XContent.KeysAppend(a + b, c);
    XContent.KeysAppend(a, b);
    KeysOpt("tags_schema", MapStr(s.tagsSchema));
    KeysOpt("pre_tags", MapArr(s.preTags));
    KeysOpt("post_tags", MapArr(s.postTags));
    KeysOpt("order", MapStr(s.order));
    KeysOpt("encoder", MapStr(s.encoder));
  }

  /** A field's object carries exactly the settings that are not -1, in the order size, number, offset. */
  lemma FieldKeys(f: HighlightField)
    ensures XContent.Keys(FieldBody(f)) ==
      (if f.fragmentSize != Unset then ["fragment_size"] else [])
      + (if f.numOfFragments != Unset then ["number_of_fragments"] else [])
      + (if f.fragmentOffset != Unset then ["fragment_offset"] else [])
  {
    var a := Setting("fragment_size", f.fragmentSize);
    var b := Setting("number_of_fragments", f.numOfFragments);
    var c := Setting("fragment_offset", f.fragmentOffset);
    KeysWrapped(f.name, a, b, c);
    SettingKeys("fragment_size", f.fragmentSize);
    SettingKeys("number_of_fragments", f.numOfFragments);
    SettingKeys("fragment_offset", f.fragmentOffset);
  }

  lemma KeysWrapped(name: string, a: seq<XContent.XEvent>, b: seq<XContent.XEvent>, c: seq<XContent.XEvent>)
    ensures XContent.Keys([XContent.StartObject(name)] + a + b + c + [XContent.EndObject])
      == XContent.Keys(a) + XContent.Keys(b) + XContent.Keys(c)
  {
    var start := [XContent.StartObject(name)];
    var end := [XContent.EndObject];
    assert start + a + b + c + end == start + (a + b + c + end);
    XContent.KeysAppend(start, a + b + c + end);
    XContent.KeysAppend(a + b + c, end);
    XContent.KeysAppend(a + b, c);
    XContent.KeysAppend(a, b);
  }

  lemma SettingKeys(key: string, v: int)
    ensures XContent.Keys(Setting(key, v)) == (if v != Unset then [key] else [])
  {
    if v != Unset {
      assert Setting(key, v)[1..] == [];
    }
  }

  /** A field added by name alone, or with a size only, writes no setting besides the given one. */
  lemma DefaultFieldsWriteNoSettings(name: string, size: int)
    ensures XContent.Keys(FieldBody(NewField(name))) == []
    ensures XContent.Keys(FieldBody(NewField(name).(fragmentSize := size))) == (if size != Unset then ["fragment_size"] else [])
  {
    FieldKeys(NewField(name));
    FieldKeys(NewField(name).(fragmentSize := size));
  }
}
