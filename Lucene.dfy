/**
 * Lucene helpers: version parsing, the stream encodings of top docs and
 * explanations, and the exists collector.
 *
 * A stream is a sequence of typed tokens, one per `write*` call; the byte
 * formats of the tokens are not modelled and floats are carried as reals.
 */
module Lucene {
  import opened Wrappers

  /** `Lucene.NO_DOC`. */
  const NoDoc: int := -1
  /** `Lucene.BATCH_ENUM_DOCS`. */
  const BatchEnumDocs: int := 32

  // Versions.

  datatype LuceneVersion = Lucene30 | Lucene31 | Lucene32 | Lucene33 | Lucene34 | Lucene35 | Lucene36 | Lucene40

  /** The version the code runs with, also the analyzer and query-parser version. */
  const CurrentVersion := Lucene36

  /** The text that names each version. */
  function VersionName(v: LuceneVersion): string
  {
    match v
    case Lucene30 => "3.0"
    case Lucene31 => "3.1"
    case Lucene32 => "3.2"
    case Lucene33 => "3.3"
    case Lucene34 => "3.4"
    case Lucene35 => "3.5"
    case Lucene36 => "3.6"
    case Lucene40 => "4.0"
  }

  /** The version a setting names; the default when it is absent or names no version. */
  function ParseVersion(version: Option<string>, defaultVersion: LuceneVersion): (v: LuceneVersion)
    ensures version.None? ==> v == defaultVersion
    ensures version.Some? && v != defaultVersion ==> VersionName(v) == version.value
  {
    if version.None? then defaultVersion
    else if version.value == "3.6" then Lucene36
    else if version.value == "3.5" then Lucene35
    else if version.value == "3.4" then Lucene34
    else if version.value == "3.3" then Lucene33
    else if version.value == "3.2" then Lucene32
    else if version.value == "3.1" then Lucene31
    else if version.value == "3.0" then Lucene30
    else if version.value == "4.0" then Lucene40
    else defaultVersion
  }

  /** Every version's name parses back to that version, whatever the default. */
  lemma ParseVersionRoundTrip(v: LuceneVersion, defaultVersion: LuceneVersion)
    ensures ParseVersion(Some(VersionName(v)), defaultVersion) == v
  {
  }

  /** Text that names no version gives the default. */
  lemma ParseVersionUnknown(s: string, defaultVersion: LuceneVersion)
    requires forall v: LuceneVersion :: VersionName(v) != s
    ensures ParseVersion(Some(s), defaultVersion) == defaultVersion
  {
    assert VersionName(Lucene30) != s && VersionName(Lucene31) != s && VersionName(Lucene32) != s;
    assert VersionName(Lucene33) != s && VersionName(Lucene34) != s && VersionName(Lucene35) != s;
    assert VersionName(Lucene36) != s && VersionName(Lucene40) != s;
  }

  // Stream tokens.

  /** One `write*` call on a stream. */
  datatype Tok =
    | TBool(b: bool)
    | TVInt(n: int)
    | TFloat(f: real)
    | TUTF(s: string)
    | TByte(y: int)
    | TInt(i: int)
    | TLong(l: int)
    | TDouble(d: real)
    | TShort(h: int)

  datatype ReadError =
    | EndOfStream
    | UnexpectedToken(pos: nat)
    | UnknownSortValueTag(tag: int)   // "Can't match type [tag]"
    | NegativeArraySize(size: int)

  /** Writing a sort value of a class the stream cannot carry. */
  datatype WriteError = UnsupportedSortValue(className: string)

  /** A value read from position p, with the position after it. */
  type Read<T> = Result<(T, nat), ReadError>

  function Next(toks: seq<Tok>, p: nat): (r: Read<Tok>)
    ensures r.Ok? <==> p < |toks|
    ensures r.Ok? ==> r.value == (toks[p], p + 1)
  {
    if p < |toks| then Ok((toks[p], p + 1)) else Err(EndOfStream)
  }

  function ReadBool(toks: seq<Tok>, p: nat): (r: Read<bool>)
    ensures r.Ok? ==> r.value.1 == p + 1 <= |toks|
  {
    if p >= |toks| then Err(EndOfStream) else if toks[p].TBool? then Ok((toks[p].b, p + 1)) else Err(UnexpectedToken(p))
  }

  function ReadVInt(toks: seq<Tok>, p: nat): (r: Read<int>)
    ensures r.Ok? ==> r.value.1 == p + 1 <= |toks|
  {
    if p >= |toks| then Err(EndOfStream) else if toks[p].TVInt? then Ok((toks[p].n, p + 1)) else Err(UnexpectedToken(p))
  }

  function ReadFloat(toks: seq<Tok>, p: nat): (r: Read<real>)
    ensures r.Ok? ==> r.value.1 == p + 1 <= |toks|
  {
    if p >= |toks| then Err(EndOfStream) else if toks[p].TFloat? then Ok((toks[p].f, p + 1)) else Err(UnexpectedToken(p))
  }

  function ReadUTF(toks: seq<Tok>, p: nat): (r: Read<string>)
    ensures r.Ok? ==> r.value.1 == p + 1 <= |toks|
  {
    if p >= |toks| then Err(EndOfStream) else if toks[p].TUTF? then Ok((toks[p].s, p + 1)) else Err(UnexpectedToken(p))
  }

  // Sort values and sort fields.

  /** A sort value of a field doc, by its Java class. */
  datatype SortValue =
    | NullValue
    | StringValue(s: string)
    | IntValue(i: int)
    | LongValue(l: int)
    | FloatValue(f: real)
    | DoubleValue(d: real)
    | ByteValue(y: int)
    | ShortValue(h: int)
    | BoolValue(b: bool)
    | OtherValue(className: string)

  /** The tag written before a sort value. */
  function Tag(v: SortValue): (t: int)
    requires !v.OtherValue?
    ensures 0 <= t <= 8
  {
    match v
    case NullValue => 0
    case StringValue(_) => 1
    case IntValue(_) => 2
    case LongValue(_) => 3
    case FloatValue(_) => 4
    case DoubleValue(_) => 5
    case ByteValue(_) => 6
    case ShortValue(_) => 7
    case BoolValue(_) => 8
  }

  function EncodeSortValue(v: SortValue): (r: Result<seq<Tok>, WriteError>)
    ensures r.Ok? <==> !v.OtherValue?
    ensures r.Ok? ==> |r.value| >= 1 && r.value[0] == TByte(Tag(v))
  {
    match v
    case NullValue => Ok([TByte(0)])
    case StringValue(s) => Ok([TByte(1), TUTF(s)])
    case IntValue(i) => Ok([TByte(2), TInt(i)])
    case LongValue(l) => Ok([TByte(3), TLong(l)])
    case FloatValue(f) => Ok([TByte(4), TFloat(f)])
    case DoubleValue(d) => Ok([TByte(5), TDouble(d)])
    case ByteValue(y) => Ok([TByte(6), TByte(y)])
    case ShortValue(h) => Ok([TByte(7), TShort(h)])
    case BoolValue(b) => Ok([TByte(8), TBool(b)])
    case OtherValue(c) => Err(UnsupportedSortValue(c))
  }

  /** Reads the payload of a sort value once its tag is known. */
  function DecodeTagged(toks: seq<Tok>, tag: int, p: nat): (r: Read<SortValue>)
    requires p <= |toks|
    ensures r.Ok? ==> r.value.1 <= |toks| && p <= r.value.1 <= p + 1
  {
    if tag == 0 then Ok((NullValue, p))
    else if p >= |toks| then (if 1 <= tag <= 8 then Err(EndOfStream) else Err(UnknownSortValueTag(tag)))
    else
      var t := toks[p];
      if tag == 1 then (if t.TUTF? then Ok((StringValue(t.s), p + 1)) else Err(UnexpectedToken(p)))
      else if tag == 2 then (if t.TInt? then Ok((IntValue(t.i), p + 1)) else Err(UnexpectedToken(p)))
      else if tag == 3 then (if t.TLong? then Ok((LongValue(t.l), p + 1)) else Err(UnexpectedToken(p)))
      else if tag == 4 then (if t.TFloat? then Ok((FloatValue(t.f), p + 1)) else Err(UnexpectedToken(p)))
      else if tag == 5 then (if t.TDouble? then Ok((DoubleValue(t.d), p + 1)) else Err(UnexpectedToken(p)))
      else if tag == 6 then (if t.TByte? then Ok((ByteValue(t.y), p + 1)) else Err(UnexpectedToken(p)))
      else if tag == 7 then (if t.TShort? then Ok((ShortValue(t.h), p + 1)) else Err(UnexpectedToken(p)))
      else if tag == 8 then (if t.TBool? then Ok((BoolValue(t.b), p + 1)) else Err(UnexpectedToken(p)))
      else Err(UnknownSortValueTag(tag))
  }

  function DecodeSortValue(toks: seq<Tok>, p: nat): (r: Read<SortValue>)
    ensures r.Ok? ==> p < r.value.1 <= |toks|
  {
    if p >= |toks| then Err(EndOfStream)
    else if !toks[p].TByte? then Err(UnexpectedToken(p))
    else DecodeTagged(toks, toks[p].y, p + 1)
  }

  /** `toks` holds `e` at position p. */
  predicate At(toks: seq<Tok>, p: nat, e: seq<Tok>)
  {
    p + |e| <= |toks| && toks[p..p + |e|] == e
  }

  lemma AtSplit(toks: seq<Tok>, p: nat, e1: seq<Tok>, e2: seq<Tok>)
    requires At(toks, p, e1 + e2)
    ensures At(toks, p, e1) && At(toks, p + |e1|, e2)
  {
    assert toks[p..p + |e1|] == (e1 + e2)[..|e1|];
    assert toks[p + |e1|..p + |e1| + |e2|] == (e1 + e2)[|e1|..];
  }

  lemma AtToken(toks: seq<Tok>, p: nat, e: seq<Tok>, i: nat)
    requires At(toks, p, e) && i < |e|
    ensures p + i < |toks| && toks[p + i] == e[i]
  {
    assert toks[p..p + |e|][i] == e[i];
  }

  /** A written sort value reads back as the same value, of the same kind. */
  lemma SortValueRoundTrip(v: SortValue, toks: seq<Tok>, p: nat)
    requires EncodeSortValue(v).Ok? && At(toks, p, EncodeSortValue(v).value)
    ensures DecodeSortValue(toks, p) == Ok((v, p + |EncodeSortValue(v).value|))
  {
    var e := EncodeSortValue(v).value;
    AtToken(toks, p, e, 0);
    if |e| > 1 {
      AtToken(toks, p, e, 1);
    }
  }

  /** A tag outside 0..8 fails to read. */
  lemma UnknownTagFails(toks: seq<Tok>, p: nat)
    requires p < |toks| && toks[p].TByte? && !(0 <= toks[p].y <= 8)
    ensures DecodeSortValue(toks, p) == Err(UnknownSortValueTag(toks[p].y))
  {
  }

  /** Lucene's sort types, in ordinal order. */
  datatype SortType = Score | Doc | String | Int | Float | Long | Double | Short | Custom | Byte | StringVal | Bytes | Rewriteable

  function Ordinal(t: SortType): (n: int)
    ensures 0 <= n <= 12
  {
    match t
    case Score => 0
    case Doc => 1
    case String => 2
    case Int => 3
    case Float => 4
    case Long => 5
    case Double => 6
    case Short => 7
    case Custom => 8
    case Byte => 9
    case StringVal => 10
    case Bytes => 11
    case Rewriteable => 12
  }

  /** The sort type a read ordinal names; SCORE for an unknown one. */
  function SortTypeOf(n: int): (t: SortType)
    ensures !(0 <= n <= 12) ==> t == Score
  {
    if n == 1 then Doc
    else if n == 2 then String
    else if n == 3 then Int
    else if n == 4 then Float
    else if n == 5 then Long
    else if n == 6 then Double
    else if n == 7 then Short
    else if n == 8 then Custom
    else if n == 9 then Byte
    else if n == 10 then StringVal
    else if n == 11 then Bytes
    else if n == 12 then Rewriteable
    else Score
  }

  /** Reading a written ordinal gives back the sort type; the ordinals 0..12 are exactly the sort types. */
  lemma SortTypeRoundTrip(t: SortType, n: int)
    ensures SortTypeOf(Ordinal(t)) == t
    ensures 0 <= n <= 12 ==> Ordinal(SortTypeOf(n)) == n
  {
  }

  /**
   * A sort field: the field (None for a score or doc sort), its type, the
   * direction, and the reduced type of its comparator source when it has
   * one.
   */
  datatype SortField = SortField(field: Option<string>, sortType: SortType, reverse: bool, reducedType: Option<SortType>)

  /** The type a sort field is written with: its comparator's reduced type, else its own. */
  function WrittenType(sf: SortField): SortType
  {
    if sf.reducedType.Some? then sf.reducedType.value else sf.sortType
  }

  function EncodeSortField(sf: SortField): (e: seq<Tok>)
    ensures |e| >= 3
  {
    (if sf.field.None? then [TBool(false)] else [TBool(true), TUTF(sf.field.value)])
    + [TVInt(Ordinal(WrittenType(sf))), TBool(sf.reverse)]
  }

  function DecodeSortField(toks: seq<Tok>, p: nat): (r: Read<SortField>)
    ensures r.Ok? ==> p < r.value.1 <= |toks|
  {
    match ReadBool(toks, p)
    case Err(e) => Err(e)
    case Ok((hasField, p1)) =>
      var f := if hasField then ReadUTF(toks, p1) else Ok(("", p1));
      match f
      case Err(e) => Err(e)
      case Ok((name, p2)) =>
        match ReadVInt(toks, p2)
        case Err(e) => Err(e)
        case Ok((typeInt, p3)) =>
          match ReadBool(toks, p3)
          case Err(e) => Err(e)
          case Ok((reverse, p4)) =>
            Ok((SortField(if hasField then Some(name) else None, SortTypeOf(typeInt), reverse, None), p4))
  }

  /** What a sort field reads back as: the written type, no comparator source. */
  function AsRead(sf: SortField): SortField
  {
    SortField(sf.field, WrittenType(sf), sf.reverse, None)
  }

  lemma SortFieldRoundTrip(sf: SortField, toks: seq<Tok>, p: nat)
    requires At(toks, p, EncodeSortField(sf))
    ensures DecodeSortField(toks, p) == Ok((AsRead(sf), p + |EncodeSortField(sf)|))
  {
    var e := EncodeSortField(sf);
    AtToken(toks, p, e, 0);
    AtToken(toks, p, e, 1);
    AtToken(toks, p, e, 2);
    if sf.field.Some? {
      AtToken(toks, p, e, 3);
      assert ReadUTF(toks, p + 1) == Ok((sf.field.value, p + 2));
      assert ReadVInt(toks, p + 2) == Ok((Ordinal(WrittenType(sf)), p + 3));
      assert ReadBool(toks, p + 3) == Ok((sf.reverse, p + 4));
    } else {
      assert ReadVInt(toks, p + 1) == Ok((Ordinal(WrittenType(sf)), p + 2));
      assert ReadBool(toks, p + 2) == Ok((sf.reverse, p + 3));
    }
    SortTypeRoundTrip(WrittenType(sf), 0);
  }

  // Lists read with a count.

  /** Puts `x` in front of the list a read produced. */
  function Cons<T>(x: T, r: Read<seq<T>>): Read<seq<T>>
  {
    match r
    case Err(e) => Err(e)
    case Ok((xs, q)) => Ok(([x] + xs, q))
  }

  /** Puts `acc` in front of the list a read produced. */
  function PrependAll<T>(acc: seq<T>, r: Read<seq<T>>): Read<seq<T>>
  {
    match r
    case Err(e) => Err(e)
    case Ok((xs, q)) => Ok((acc + xs, q))
  }

  lemma PrependCons<T>(acc: seq<T>, x: T, r: Read<seq<T>>)
    ensures PrependAll(acc, Cons(x, r)) == PrependAll(acc + [x], r)
  {
    if r.Ok? {
      assert acc + ([x] + r.value.0) == (acc + [x]) + r.value.0;
    }
  }

  lemma WithPrefixEmpty(r: Result<seq<Tok>, WriteError>)
    ensures WithPrefix([], r) == r
  {
    if r.Ok? {
      assert [] + r.value == r.value;
    }
  }

  lemma PrependNone<T>(r: Read<seq<T>>)
    ensures PrependAll([], r) == r
  {
    if r.Ok? {
      assert [] + r.value.0 == r.value.0;
    }
  }

  /** Writes each element in turn; the first element that cannot be written fails the whole list. */
  function EncodeList<T>(enc: T -> Result<seq<Tok>, WriteError>, xs: seq<T>): Result<seq<Tok>, WriteError>
    decreases |xs|
  {
    if xs == [] then Ok([])
    else match enc(xs[0])
      case Err(e) => Err(e)
      case Ok(e0) =>
        match EncodeList(enc, xs[1..])
        case Err(e) => Err(e)
        case Ok(rest) => Ok(e0 + rest)
  }

  /** `n` elements read in turn from position p; a negative count is a negative array size. */
  function DecodeList<T>(dec: (seq<Tok>, nat) -> Read<T>, toks: seq<Tok>, p: nat, n: int): (r: Read<seq<T>>)
    ensures r.Ok? ==> n >= 0 && |r.value.0| == n
    decreases if n < 0 then 0 else n
  {
    if n < 0 then Err(NegativeArraySize(n))
    else if n == 0 then Ok(([], p))
    else match dec(toks, p)
      case Err(e) => Err(e)
      case Ok((x, q)) => Cons(x, DecodeList(dec, toks, q, n - 1))
  }

  /**
   * When every element written at any position reads back as itself, so
   * does every list of them: the count-prefixed reader takes back exactly
   * what the writer put out.
   */
  lemma {:induction false} ListRoundTrip<T>(enc: T -> Result<seq<Tok>, WriteError>, dec: (seq<Tok>, nat) -> Read<T>,
                                            xs: seq<T>, toks: seq<Tok>, p: nat)
    requires forall x: T, t: seq<Tok>, q: nat {:trigger At(t, q, enc(x).value)} :: enc(x).Ok? && At(t, q, enc(x).value) ==> dec(t, q) == Ok((x, q + |enc(x).value|))
    requires EncodeList(enc, xs).Ok? && At(toks, p, EncodeList(enc, xs).value)
    ensures DecodeList(dec, toks, p, |xs|) == Ok((xs, p + |EncodeList(enc, xs).value|))
    decreases |xs|
  {
    if xs != [] {
      var e0 := enc(xs[0]).value;
      var rest := EncodeList(enc, xs[1..]).value;
      AtSplit(toks, p, e0, rest);
      ListRoundTrip(enc, dec, xs[1..], toks, p + |e0|);
      assert dec(toks, p) == Ok((xs[0], p + |e0|));
      assert DecodeList(dec, toks, p, |xs|) == Cons(xs[0], DecodeList(dec, toks, p + |e0|, |xs| - 1));
      assert [xs[0]] + xs[1..] == xs;
      assert Cons(xs[0], DecodeList(dec, toks, p + |e0|, |xs| - 1)) == Ok((xs, p + |e0| + |rest|));
      assert |EncodeList(enc, xs).value| == |e0| + |rest|;
    }
  }

  /** `n` sort values from position p; a negative count is a negative array size. */
  function DecodeSortValues(toks: seq<Tok>, p: nat, n: int): (r: Read<seq<SortValue>>)
    ensures r.Ok? ==> n >= 0 && |r.value.0| == n && p <= r.value.1 <= |toks| + (if n == 0 then p else 0)
    decreases if n < 0 then 0 else n
  {
    if n < 0 then Err(NegativeArraySize(n))
    else if n == 0 then Ok(([], p))
    else match DecodeSortValue(toks, p)
      case Err(e) => Err(e)
      case Ok((v, q)) => Cons(v, DecodeSortValues(toks, q, n - 1))
  }

  datatype ScoreDoc = ScoreDoc(doc: int, score: real)
  datatype FieldDoc = FieldDoc(doc: int, score: real, values: seq<SortValue>)

  /** Top docs: plain, or sorted by fields. */
  datatype TopDocs =
    | PlainTopDocs(totalHits: int, scoreDocs: seq<ScoreDoc>, maxScore: real)
    | TopFieldDocs(totalHits: int, fieldDocs: seq<FieldDoc>, sortFields: seq<SortField>, maxScore: real)
  {
    function Length(): nat
    {
      if PlainTopDocs? then |scoreDocs| else |fieldDocs|
    }
  }

  function EncodeScoreDoc(d: ScoreDoc): seq<Tok>
  {
    [TVInt(d.doc), TFloat(d.score)]
  }

  function DecodeScoreDoc(toks: seq<Tok>, p: nat): (r: Read<ScoreDoc>)
    ensures r.Ok? ==> r.value.1 == p + 2 <= |toks|
  {
    match ReadVInt(toks, p)
    case Err(e) => Err(e)
    case Ok((doc, p1)) =>
      match ReadFloat(toks, p1)
      case Err(e) => Err(e)
      case Ok((score, p2)) => Ok((ScoreDoc(doc, score), p2))
  }

  function EncodeValues(vs: seq<SortValue>): (r: Result<seq<Tok>, WriteError>)
    decreases |vs|
  {
    if vs == [] then Ok([])
    else
      match EncodeSortValue(vs[0])
      case Err(e) => Err(e)
      case Ok(e0) =>
        match EncodeValues(vs[1..])
        case Err(e) => Err(e)
        case Ok(rest) => Ok(e0 + rest)
  }

  /** Writing sort values fails exactly when one of them is of an unsupported class. */
  lemma {:induction false} ValuesFail(vs: seq<SortValue>)
    ensures EncodeValues(vs).Ok? <==> forall v :: v in vs ==> !v.OtherValue?
    decreases |vs|
  {
    if vs != [] {
      assert forall v :: v in vs ==> v == vs[0] || v in vs[1..];
      ValuesFail(vs[1..]);
    }
  }

  function EncodeFieldDoc(d: FieldDoc): Result<seq<Tok>, WriteError>
  {
    match EncodeValues(d.values)
    case Err(e) => Err(e)
    case Ok(vs) => Ok([TVInt(|d.values|)] + vs + [TVInt(d.doc), TFloat(d.score)])
  }

  function DecodeFieldDoc(toks: seq<Tok>, p: nat): (r: Read<FieldDoc>)
    ensures r.Ok? ==> p < r.value.1 <= |toks|
  {
    match ReadVInt(toks, p)
    case Err(e) => Err(e)
    case Ok((n, p1)) =>
      match DecodeSortValues(toks, p1, n)
      case Err(e) => Err(e)
      case Ok((vs, p2)) =>
        match DecodeScoreDoc(toks, p2)
        case Err(e) => Err(e)
        case Ok((d, p3)) => Ok((FieldDoc(d.doc, d.score, vs), p3))
  }

  lemma {:induction false} ValuesRoundTrip(vs: seq<SortValue>, toks: seq<Tok>, p: nat)
    requires EncodeValues(vs).Ok? && At(toks, p, EncodeValues(vs).value)
    ensures DecodeSortValues(toks, p, |vs|) == Ok((vs, p + |EncodeValues(vs).value|))
    decreases |vs|
  {
    if vs != [] {
      var e0 := EncodeSortValue(vs[0]).value;
      var rest := EncodeValues(vs[1..]).value;
      AtSplit(toks, p, e0, rest);
      SortValueRoundTrip(vs[0], toks, p);
      ValuesRoundTrip(vs[1..], toks, p + |e0|);
      assert [vs[0]] + vs[1..] == vs;
    }
  }

  lemma FieldDocRoundTrip(d: FieldDoc, toks: seq<Tok>, p: nat)
    requires EncodeFieldDoc(d).Ok? && At(toks, p, EncodeFieldDoc(d).value)
    ensures DecodeFieldDoc(toks, p) == Ok((d, p + |EncodeFieldDoc(d).value|))
  {
    var vs := EncodeValues(d.values).value;
    AtSplit(toks, p, [TVInt(|d.values|)] + vs, [TVInt(d.doc), TFloat(d.score)]);
    AtSplit(toks, p, [TVInt(|d.values|)], vs);
    AtToken(toks, p, [TVInt(|d.values|)], 0);
    ValuesRoundTrip(d.values, toks, p + 1);
    var q := p + 1 + |vs|;
    AtToken(toks, q, [TVInt(d.doc), TFloat(d.score)], 0);
    AtToken(toks, q, [TVInt(d.doc), TFloat(d.score)], 1);
  }

  // Lists of sort fields, field docs and score docs.

  function EncodeSortFields(fs: seq<SortField>): seq<Tok>
    decreases |fs|
  {
    if fs == [] then [] else EncodeSortField(fs[0]) + EncodeSortFields(fs[1..])
  }

  function DecodeSortFields(toks: seq<Tok>, p: nat, n: int): (r: Read<seq<SortField>>)
    ensures r.Ok? ==> n >= 0 && |r.value.0| == n && p <= r.value.1 && (n > 0 ==> r.value.1 <= |toks|)
    decreases if n < 0 then 0 else n
  {
    if n < 0 then Err(NegativeArraySize(n))
    else if n == 0 then Ok(([], p))
    else match DecodeSortField(toks, p)
      case Err(e) => Err(e)
      case Ok((f, q)) => Cons(f, DecodeSortFields(toks, q, n - 1))
  }

  function EncodeScoreDocs(ds: seq<ScoreDoc>): seq<Tok>
    decreases |ds|
  {
    if ds == [] then [] else EncodeScoreDoc(ds[0]) + EncodeScoreDocs(ds[1..])
  }

  function DecodeScoreDocs(toks: seq<Tok>, p: nat, n: int): (r: Read<seq<ScoreDoc>>)
    ensures r.Ok? ==> n >= 0 && |r.value.0| == n && p <= r.value.1
    decreases if n < 0 then 0 else n
  {
    if n < 0 then Err(NegativeArraySize(n))
    else if n == 0 then Ok(([], p))
    else match DecodeScoreDoc(toks, p)
      case Err(e) => Err(e)
      case Ok((d, q)) => Cons(d, DecodeScoreDocs(toks, q, n - 1))
  }

  function EncodeFieldDocs(ds: seq<FieldDoc>): Result<seq<Tok>, WriteError>
  {
    EncodeList(EncodeFieldDoc, ds)
  }

  function DecodeFieldDocs(toks: seq<Tok>, p: nat, n: int): Read<seq<FieldDoc>>
  {
    DecodeList(DecodeFieldDoc, toks, p, n)
  }

  /** The sort fields as read back, in order. */
  function AsReadAll(fs: seq<SortField>): (r: seq<SortField>)
    ensures |r| == |fs| && forall i :: 0 <= i < |fs| ==> r[i] == AsRead(fs[i])
    decreases |fs|
  {
    if fs == [] then [] else [AsRead(fs[0])] + AsReadAll(fs[1..])
  }

  lemma {:induction false} SortFieldsRoundTrip(fs: seq<SortField>, toks: seq<Tok>, p: nat)
    requires At(toks, p, EncodeSortFields(fs))
    ensures DecodeSortFields(toks, p, |fs|) == Ok((AsReadAll(fs), p + |EncodeSortFields(fs)|))
    decreases |fs|
  {
    if fs != [] {
      AtSplit(toks, p, EncodeSortField(fs[0]), EncodeSortFields(fs[1..]));
      SortFieldRoundTrip(fs[0], toks, p);
      SortFieldsRoundTrip(fs[1..], toks, p + |EncodeSortField(fs[0])|);
    }
  }

  lemma {:induction false} ScoreDocsRoundTrip(ds: seq<ScoreDoc>, toks: seq<Tok>, p: nat)
    requires At(toks, p, EncodeScoreDocs(ds))
    ensures DecodeScoreDocs(toks, p, |ds|) == Ok((ds, p + |EncodeScoreDocs(ds)|))
    decreases |ds|
  {
    if ds != [] {
      AtSplit(toks, p, EncodeScoreDoc(ds[0]), EncodeScoreDocs(ds[1..]));
      AtToken(toks, p, EncodeScoreDoc(ds[0]), 0);
      AtToken(toks, p, EncodeScoreDoc(ds[0]), 1);
      ScoreDocsRoundTrip(ds[1..], toks, p + 2);
      assert [ds[0]] + ds[1..] == ds;
    }
  }

  lemma FieldDocsRoundTrip(ds: seq<FieldDoc>, toks: seq<Tok>, p: nat)
    requires EncodeFieldDocs(ds).Ok? && At(toks, p, EncodeFieldDocs(ds).value)
    ensures DecodeFieldDocs(toks, p, |ds|) == Ok((ds, p + |EncodeFieldDocs(ds).value|))
  {
    forall d: FieldDoc, t: seq<Tok>, q: nat | EncodeFieldDoc(d).Ok? && At(t, q, EncodeFieldDoc(d).value)
      ensures DecodeFieldDoc(t, q) == Ok((d, q + |EncodeFieldDoc(d).value|))
    {
      FieldDocRoundTrip(d, t, q);
    }
    ListRoundTrip(EncodeFieldDoc, DecodeFieldDoc, ds, toks, p);
  }

  // Top docs.

  /** The stream `writeTopDocs` produces for the docs from `from` on. */
  function EncodeTopDocs(td: TopDocs, from: nat): Result<seq<Tok>, WriteError>
  {
    if td.Length() < from then Ok([TBool(false)])
    else match td
      case TopFieldDocs(totalHits, docs, fields, maxScore) =>
        (match EncodeFieldDocs(docs[from..])
         case Err(e) => Err(e)
         case Ok(ds) =>
           Ok([TBool(true), TBool(true), TVInt(totalHits), TFloat(maxScore), TVInt(|fields|)]
              + EncodeSortFields(fields) + [TVInt(|docs| - from)] + ds))
      case PlainTopDocs(totalHits, docs, maxScore) =>
        Ok([TBool(true), TBool(false), TVInt(totalHits), TFloat(maxScore), TVInt(|docs| - from)]
           + EncodeScoreDocs(docs[from..]))
  }

  /** `readTopDocs`: None for the "no docs" marker. */
  function DecodeTopDocs(toks: seq<Tok>, p: nat): Read<Option<TopDocs>>
  {
    match ReadBool(toks, p)
    case Err(e) => Err(e)
    case Ok((some, p1)) =>
      if !some then Ok((None, p1))
      else match ReadBool(toks, p1)
        case Err(e) => Err(e)
        case Ok((sorted, p2)) =>
          match ReadVInt(toks, p2)
          case Err(e) => Err(e)
          case Ok((totalHits, p3)) =>
            match ReadFloat(toks, p3)
            case Err(e) => Err(e)
            case Ok((maxScore, p4)) =>
              match ReadVInt(toks, p4)
              case Err(e) => Err(e)
              case Ok((n, p5)) =>
                if sorted then DecodeSortedBody(toks, p5, totalHits, maxScore, n)
                else DecodePlainBody(toks, p5, totalHits, maxScore, n)
  }

  /** The rest of sorted top docs: `n` sort fields, then the field docs with their count. */
  function DecodeSortedBody(toks: seq<Tok>, p: nat, totalHits: int, maxScore: real, n: int): Read<Option<TopDocs>>
  {
    match DecodeSortFields(toks, p, n)
    case Err(e) => Err(e)
    case Ok((fields, p1)) =>
      match ReadVInt(toks, p1)
      case Err(e) => Err(e)
      case Ok((m, p2)) =>
        match DecodeFieldDocs(toks, p2, m)
        case Err(e) => Err(e)
        case Ok((docs, p3)) => Ok((Some(TopFieldDocs(totalHits, docs, fields, maxScore)), p3))
  }

  /** The rest of plain top docs: `n` score docs. */
  function DecodePlainBody(toks: seq<Tok>, p: nat, totalHits: int, maxScore: real, n: int): Read<Option<TopDocs>>
  {
    match DecodeScoreDocs(toks, p, n)
    case Err(e) => Err(e)
    case Ok((docs, p1)) => Ok((Some(PlainTopDocs(totalHits, docs, maxScore)), p1))
  }

  /** What the reader gets back: none when `from` is past the end, else the docs from `from` on. */
  function ReadBack(td: TopDocs, from: nat): Option<TopDocs>
  {
    if td.Length() < from then None
    else match td
      case TopFieldDocs(totalHits, docs, fields, maxScore) =>
        Some(TopFieldDocs(totalHits, docs[from..], AsReadAll(fields), maxScore))
      case PlainTopDocs(totalHits, docs, maxScore) => Some(PlainTopDocs(totalHits, docs[from..], maxScore))
  }

  /** With `from` past the end only the "no docs" marker is written. */
  lemma WriteNothingPastEnd(td: TopDocs, from: nat)
    requires td.Length() < from
    ensures EncodeTopDocs(td, from) == Ok([TBool(false)])
    ensures DecodeTopDocs([TBool(false)], 0) == Ok((None, 1))
  {
  }

  /** Writing fails exactly when a written field doc holds a sort value of an unsupported class. */
  lemma WriteFailsOnUnsupportedValue(td: TopDocs, from: nat)
    requires td.TopFieldDocs? && from <= |td.fieldDocs|
    ensures EncodeTopDocs(td, from).Err? <==>
      exists i :: from <= i < |td.fieldDocs| && exists v :: v in td.fieldDocs[i].values && v.OtherValue?
  {
    FieldDocsFail(td.fieldDocs[from..]);
    forall i | from <= i < |td.fieldDocs| ensures td.fieldDocs[i] == td.fieldDocs[from..][i - from] {
    }
  }

  lemma {:induction false} FieldDocsFail(ds: seq<FieldDoc>)
    ensures EncodeFieldDocs(ds).Err? <==> exists i :: 0 <= i < |ds| && exists v :: v in ds[i].values && v.OtherValue?
    decreases |ds|
  {
    if ds != [] {
      ValuesFail(ds[0].values);
      FieldDocsFail(ds[1..]);
      forall i | 1 <= i < |ds| ensures ds[i] == ds[1..][i - 1] {
      }
      if EncodeFieldDoc(ds[0]).Ok? {
        assert forall i :: 1 <= i < |ds| ==> ds[1..][i - 1] == ds[i];
      }
    }
  }

  /** The five header tokens of written top docs lead to the body reader. */
  lemma HeaderRead(toks: seq<Tok>, sorted: bool, totalHits: int, maxScore: real, n: int)
    requires At(toks, 0, [TBool(true), TBool(sorted), TVInt(totalHits), TFloat(maxScore), TVInt(n)])
    ensures DecodeTopDocs(toks, 0) ==
      if sorted then DecodeSortedBody(toks, 5, totalHits, maxScore, n) else DecodePlainBody(toks, 5, totalHits, maxScore, n)
  {
    var head := [TBool(true), TBool(sorted), TVInt(totalHits), TFloat(maxScore), TVInt(n)];
    AtToken(toks, 0, head, 0);
    AtToken(toks, 0, head, 1);
    AtToken(toks, 0, head, 2);
    AtToken(toks, 0, head, 3);
    AtToken(toks, 0, head, 4);
  }

  lemma SortedRoundTrip(totalHits: int, docs: seq<FieldDoc>, fields: seq<SortField>, maxScore: real, from: nat, rest: seq<Tok>)
    requires from <= |docs|
    requires EncodeTopDocs(TopFieldDocs(totalHits, docs, fields, maxScore), from).Ok?
    ensures var e := EncodeTopDocs(TopFieldDocs(totalHits, docs, fields, maxScore), from).value;
      DecodeTopDocs(e + rest, 0) == Ok((Some(TopFieldDocs(totalHits, docs[from..], AsReadAll(fields), maxScore)), |e|))
  {
    var td := TopFieldDocs(totalHits, docs, fields, maxScore);
    var e := EncodeTopDocs(td, from).value;
    var toks := e + rest;
    assert At(toks, 0, e) by { assert toks[..|e|] == e; }
    var head := [TBool(true), TBool(true), TVInt(totalHits), TFloat(maxScore), TVInt(|fields|)];
    var sf := EncodeSortFields(fields);
    var ds := EncodeFieldDocs(docs[from..]).value;
    SortedShape(td, from);
    AtSplit(toks, 0, head + sf + [TVInt(|docs| - from)], ds);
    AtSplit(toks, 0, head + sf, [TVInt(|docs| - from)]);
    AtSplit(toks, 0, head, sf);
    HeaderRead(toks, true, totalHits, maxScore, |fields|);
    SortFieldsRoundTrip(fields, toks, 5);
    var q := 5 + |sf|;
    AtToken(toks, q, [TVInt(|docs| - from)], 0);
    assert |docs[from..]| == |docs| - from;
    FieldDocsRoundTrip(docs[from..], toks, q + 1);
    SortedBodyRead(toks, 5, totalHits, maxScore, |fields|, AsReadAll(fields), q, docs[from..], q + 1 + |ds|);
  }

  /** The stream of sorted top docs: header, sort fields, doc count, field docs. */
  lemma SortedShape(td: TopDocs, from: nat)
    requires td.TopFieldDocs? && from <= |td.fieldDocs| && EncodeTopDocs(td, from).Ok?
    ensures EncodeFieldDocs(td.fieldDocs[from..]).Ok?
    ensures EncodeTopDocs(td, from).value ==
      [TBool(true), TBool(true), TVInt(td.totalHits), TFloat(td.maxScore), TVInt(|td.sortFields|)]
      + EncodeSortFields(td.sortFields) + [TVInt(|td.fieldDocs| - from)] + EncodeFieldDocs(td.fieldDocs[from..]).value
  {
  }

  lemma SortedBodyRead(toks: seq<Tok>, p: nat, totalHits: int, maxScore: real, n: int,
                       fields: seq<SortField>, q: nat, docs: seq<FieldDoc>, q2: nat)
    requires DecodeSortFields(toks, p, n) == Ok((fields, q))
    requires q < |toks| && toks[q] == TVInt(|docs|)
    requires DecodeFieldDocs(toks, q + 1, |docs|) == Ok((docs, q2))
    ensures DecodeSortedBody(toks, p, totalHits, maxScore, n) == Ok((Some(TopFieldDocs(totalHits, docs, fields, maxScore)), q2))
  {
  }

  lemma PlainRoundTrip(totalHits: int, docs: seq<ScoreDoc>, maxScore: real, from: nat, rest: seq<Tok>)
    requires from <= |docs|
    ensures var e := EncodeTopDocs(PlainTopDocs(totalHits, docs, maxScore), from).value;
      DecodeTopDocs(e + rest, 0) == Ok((Some(PlainTopDocs(totalHits, docs[from..], maxScore)), |e|))
  {
    var td := PlainTopDocs(totalHits, docs, maxScore);
    var e := EncodeTopDocs(td, from).value;
    var toks := e + rest;
    assert At(toks, 0, e) by { assert toks[..|e|] == e; }
    var head := [TBool(true), TBool(false), TVInt(totalHits), TFloat(maxScore), TVInt(|docs| - from)];
    AtSplit(toks, 0, head, EncodeScoreDocs(docs[from..]));
    HeaderRead(toks, false, totalHits, maxScore, |docs| - from);
    assert |docs[from..]| == |docs| - from;
    ScoreDocsRoundTrip(docs[from..], toks, 5);
  }

  /**
   * Top docs written from `from` read back as the docs from `from` on, with
   * the same hit count, maximum score and (written) sort fields.
   */
  lemma TopDocsRoundTrip(td: TopDocs, from: nat, rest: seq<Tok>)
    requires EncodeTopDocs(td, from).Ok?
    ensures var e := EncodeTopDocs(td, from).value;
      DecodeTopDocs(e + rest, 0) == Ok((ReadBack(td, from), |e|))
  {
    if td.Length() >= from {
      match td
      case TopFieldDocs(totalHits, docs, fields, maxScore) =>
        SortedRoundTrip(totalHits, docs, fields, maxScore, from, rest);
      case PlainTopDocs(totalHits, docs, maxScore) =>
        PlainRoundTrip(totalHits, docs, maxScore, from, rest);
    }
  }

  /**
   * `writeTopDocs`: the docs before `from` are skipped and the count
   * written is `length - from`.
   */
  method WriteTopDocs(td: TopDocs, from: nat) returns (r: Result<seq<Tok>, WriteError>)
    ensures r == EncodeTopDocs(td, from)
  {
    if td.Length() < from {
      return Ok([TBool(false)]);
    }
    var out := [TBool(true)];
    match td {
      case TopFieldDocs(totalHits, docs, fields, maxScore) =>
        out := out + [TBool(true), TVInt(totalHits), TFloat(maxScore), TVInt(|fields|)];
        assert out == [TBool(true), TBool(true), TVInt(totalHits), TFloat(maxScore), TVInt(|fields|)];
        var sortFields := WriteSortFields(fields);
        out := out + sortFields + [TVInt(|docs| - from)];
        var written := WriteFieldDocs(docs, from);
        if written.Err? {
          return Err(written.error);
        }
        return Ok(out + written.value);
      case PlainTopDocs(totalHits, docs, maxScore) =>
        out := out + [TBool(false), TVInt(totalHits), TFloat(maxScore), TVInt(|docs| - from)];
        assert out == [TBool(true), TBool(false), TVInt(totalHits), TFloat(maxScore), TVInt(|docs| - from)];
        var written := WriteScoreDocs(docs, from);
        return Ok(out + written);
    }
  }

  lemma Associative(a: seq<Tok>, b: seq<Tok>, c: seq<Tok>)
    ensures (a + b) + c == a + (b + c)
  {
  }

  method WriteSortFields(fields: seq<SortField>) returns (out: seq<Tok>)
    ensures out == EncodeSortFields(fields)
  {
    out := [];
    var i := 0;
    while i < |fields|
      invariant 0 <= i <= |fields|
      invariant out + EncodeSortFields(fields[i..]) == EncodeSortFields(fields)
    {
      assert fields[i..][1..] == fields[i + 1..];
      var sortField := fields[i];
      var e: seq<Tok>;
      if sortField.field.None? {
        e := [TBool(false)];
      } else {
        e := [TBool(true), TUTF(sortField.field.value)];
      }
      if sortField.reducedType.Some? {
        e := e + [TVInt(Ordinal(sortField.reducedType.value))];
      } else {
        e := e + [TVInt(Ordinal(sortField.sortType))];
      }
      e := e + [TBool(sortField.reverse)];
      assert e == EncodeSortField(sortField);
      Associative(out, e, EncodeSortFields(fields[i + 1..]));
      out := out + e;
      i := i + 1;
    }
    assert fields[i..] == [];
  }

  /** Writes the score docs from `from` on, walking all of them and skipping the first `from`. */
  method WriteScoreDocs(docs: seq<ScoreDoc>, from: nat) returns (out: seq<Tok>)
    requires from <= |docs|
    ensures out == EncodeScoreDocs(docs[from..])
  {
    out := [];
    var index := 0;
    while index < |docs|
      invariant 0 <= index <= |docs|
      invariant index <= from ==> out == []
      invariant index > from ==> out + EncodeScoreDocs(docs[index..]) == EncodeScoreDocs(docs[from..])
    {
      var doc := docs[index];
      if index < from {
        index := index + 1;
        continue;
      }
      assert docs[index..][1..] == docs[index + 1..];
      Associative(out, EncodeScoreDoc(doc), EncodeScoreDocs(docs[index + 1..]));
      out := out + [TVInt(doc.doc), TFloat(doc.score)];
      index := index + 1;
    }
    if from == |docs| {
      assert docs[from..] == [];
    }
  }

  /** Writes the field docs from `from` on; a sort value of an unsupported class fails the write. */
  method WriteFieldDocs(docs: seq<FieldDoc>, from: nat) returns (r: Result<seq<Tok>, WriteError>)
    requires from <= |docs|
    ensures r == EncodeFieldDocs(docs[from..])
  {
    var out: seq<Tok> := [];
    var index := 0;
    WithPrefixEmpty(EncodeFieldDocs(docs[from..]));
    while index < |docs|
      invariant 0 <= index <= |docs|
      invariant index <= from ==> out == []
      invariant index >= from ==> WithPrefix(out, EncodeFieldDocs(docs[index..])) == EncodeFieldDocs(docs[from..])
    {
      var doc := docs[index];
      if index < from {
        index := index + 1;
        continue;
      }
      assert docs[index..][1..] == docs[index + 1..];
      var written := WriteFieldDoc(doc);
      if written.Err? {
        assert EncodeFieldDocs(docs[index..]) == Err(written.error);
        return Err(written.error);
      }
      WithPrefixStep(out, written.value, EncodeFieldDocs(docs[index + 1..]));
      out := out + written.value;
      index := index + 1;
    }
    assert docs[index..] == [];
    assert out + [] == out;
    return Ok(out);
  }

  /** Puts `acc` in front of a written stream. */
  function WithPrefix(acc: seq<Tok>, r: Result<seq<Tok>, WriteError>): Result<seq<Tok>, WriteError>
  {
    match r
    case Err(e) => Err(e)
    case Ok(s) => Ok(acc + s)
  }

  lemma WithPrefixStep(acc: seq<Tok>, e: seq<Tok>, r: Result<seq<Tok>, WriteError>)
    ensures WithPrefix(acc, match r case Err(x) => Err(x) case Ok(s) => Ok(e + s)) == WithPrefix(acc + e, r)
  {
    if r.Ok? {
      Associative(acc, e, r.value);
    }
  }

  method WriteFieldDoc(doc: FieldDoc) returns (r: Result<seq<Tok>, WriteError>)
    ensures r == EncodeFieldDoc(doc)
  {
    var out := [TVInt(|doc.values|)];
    var values: seq<Tok> := [];
    var i := 0;
    WithPrefixEmpty(EncodeValues(doc.values));
    while i < |doc.values|
      invariant 0 <= i <= |doc.values|
      invariant WithPrefix(values, EncodeValues(doc.values[i..])) == EncodeValues(doc.values)
    {
      assert doc.values[i..][1..] == doc.values[i + 1..];
      var field := doc.values[i];
      var e := EncodeSortValue(field);
      if e.Err? {
        assert EncodeValues(doc.values[i..]) == Err(e.error);
        return Err(e.error);
      }
      WithPrefixStep(values, e.value, EncodeValues(doc.values[i + 1..]));
      values := values + e.value;
      i := i + 1;
    }
    assert doc.values[i..] == [];
    assert values + [] == values;
    return Ok(out + values + [TVInt(doc.doc), TFloat(doc.score)]);
  }

  /** `readTopDocs`: loops filling the sort fields, the field docs and their values, or the score docs. */
  method ReadTopDocs(toks: seq<Tok>, p: nat) returns (r: Read<Option<TopDocs>>)
    ensures r == DecodeTopDocs(toks, p)
  {
    var some := ReadBool(toks, p);
    if some.Err? { return Err(some.error); }
    if !some.value.0 { return Ok((None, some.value.1)); }
    var sorted := ReadBool(toks, some.value.1);
    if sorted.Err? { return Err(sorted.error); }
    var totalHits := ReadVInt(toks, sorted.value.1);
    if totalHits.Err? { return Err(totalHits.error); }
    var maxScore := ReadFloat(toks, totalHits.value.1);
    if maxScore.Err? { return Err(maxScore.error); }
    var n := ReadVInt(toks, maxScore.value.1);
    if n.Err? { return Err(n.error); }
    assert DecodeTopDocs(toks, p) == (if sorted.value.0
      then DecodeSortedBody(toks, n.value.1, totalHits.value.0, maxScore.value.0, n.value.0)
      else DecodePlainBody(toks, n.value.1, totalHits.value.0, maxScore.value.0, n.value.0));
    if sorted.value.0 {
      var fields := ReadSortFields(toks, n.value.1, n.value.0);
      if fields.Err? { return Err(fields.error); }
      var m := ReadVInt(toks, fields.value.1);
      if m.Err? { return Err(m.error); }
      var docs := ReadFieldDocs(toks, m.value.1, m.value.0);
      if docs.Err? { return Err(docs.error); }
      return Ok((Some(TopFieldDocs(totalHits.value.0, docs.value.0, fields.value.0, maxScore.value.0)), docs.value.1));
    } else {
      var docs := ReadScoreDocs(toks, n.value.1, n.value.0);
      if docs.Err? { return Err(docs.error); }
      return Ok((Some(PlainTopDocs(totalHits.value.0, docs.value.0, maxScore.value.0)), docs.value.1));
    }
  }

  method ReadSortFields(toks: seq<Tok>, p0: nat, n: int) returns (r: Read<seq<SortField>>)
    ensures r == DecodeSortFields(toks, p0, n)
  {
    if n < 0 {
      return Err(NegativeArraySize(n));
    }
    var fields: seq<SortField> := [];
    var p := p0;
    var i := 0;
    PrependNone(DecodeSortFields(toks, p0, n));
    while i < n
      invariant 0 <= i <= n && |fields| == i
      invariant DecodeSortFields(toks, p0, n) == PrependAll(fields, DecodeSortFields(toks, p, n - i))
    {
      var f := DecodeSortField(toks, p);
      if f.Err? {
        return Err(f.error);
      }
      PrependCons(fields, f.value.0, DecodeSortFields(toks, f.value.1, n - i - 1));
      fields := fields + [f.value.0];
      p := f.value.1;
      i := i + 1;
    }
    assert fields + [] == fields;
    return Ok((fields, p));
  }

  method ReadScoreDocs(toks: seq<Tok>, p0: nat, n: int) returns (r: Read<seq<ScoreDoc>>)
    ensures r == DecodeScoreDocs(toks, p0, n)
  {
    if n < 0 {
      return Err(NegativeArraySize(n));
    }
    var docs: seq<ScoreDoc> := [];
    var p := p0;
    var i := 0;
    PrependNone(DecodeScoreDocs(toks, p0, n));
    while i < n
      invariant 0 <= i <= n && |docs| == i
      invariant DecodeScoreDocs(toks, p0, n) == PrependAll(docs, DecodeScoreDocs(toks, p, n - i))
    {
      var d := DecodeScoreDoc(toks, p);
      if d.Err? {
        return Err(d.error);
      }
      PrependCons(docs, d.value.0, DecodeScoreDocs(toks, d.value.1, n - i - 1));
      docs := docs + [d.value.0];
      p := d.value.1;
      i := i + 1;
    }
    assert docs + [] == docs;
    return Ok((docs, p));
  }

  method ReadFieldDocs(toks: seq<Tok>, p0: nat, n: int) returns (r: Read<seq<FieldDoc>>)
    ensures r == DecodeFieldDocs(toks, p0, n)
  {
    if n < 0 {
      return Err(NegativeArraySize(n));
    }
    var docs: seq<FieldDoc> := [];
    var p := p0;
    var i := 0;
    PrependNone(DecodeFieldDocs(toks, p0, n));
    while i < n
      invariant 0 <= i <= n && |docs| == i
      invariant DecodeFieldDocs(toks, p0, n) == PrependAll(docs, DecodeFieldDocs(toks, p, n - i))
    {
      var d := ReadFieldDoc(toks, p);
      if d.Err? {
        return Err(d.error);
      }
      PrependCons(docs, d.value.0, DecodeFieldDocs(toks, d.value.1, n - i - 1));
      docs := docs + [d.value.0];
      p := d.value.1;
      i := i + 1;
    }
    assert docs + [] == docs;
    return Ok((docs, p));
  }

  method ReadFieldDoc(toks: seq<Tok>, p: nat) returns (r: Read<FieldDoc>)
    ensures r == DecodeFieldDoc(toks, p)
  {
    var n := ReadVInt(toks, p);
    if n.Err? {
      return Err(n.error);
    }
    var values := ReadSortValues(toks, n.value.1, n.value.0);
    if values.Err? {
      return Err(values.error);
    }
    var d := DecodeScoreDoc(toks, values.value.1);
    if d.Err? {
      return Err(d.error);
    }
    return Ok((FieldDoc(d.value.0.doc, d.value.0.score, values.value.0), d.value.1));
  }

  method ReadSortValues(toks: seq<Tok>, p0: nat, n: int) returns (r: Read<seq<SortValue>>)
    ensures r == DecodeSortValues(toks, p0, n)
  {
    if n < 0 {
      return Err(NegativeArraySize(n));
    }
    var values: seq<SortValue> := [];
    var p := p0;
    var j := 0;
    PrependNone(DecodeSortValues(toks, p0, n));
    while j < n
      invariant 0 <= j <= n && |values| == j
      invariant DecodeSortValues(toks, p0, n) == PrependAll(values, DecodeSortValues(toks, p, n - j))
    {
      var v := DecodeSortValue(toks, p);
      if v.Err? {
        return Err(v.error);
      }
      PrependCons(values, v.value.0, DecodeSortValues(toks, v.value.1, n - j - 1));
      values := values + [v.value.0];
      p := v.value.1;
      j := j + 1;
    }
    assert values + [] == values;
    return Ok((values, p));
  }

  // Explanations.

  /** An explanation: a value, a description and its details (none stands for a null detail array). */
  datatype Explanation = Explanation(value: real, description: string, details: seq<Explanation>)

  function EncodeExplanation(e: Explanation): seq<Tok>
    decreases e, 1
  {
    [TFloat(e.value), TUTF(e.description)]
    + (if e.details == [] then [TBool(false)] else [TBool(true), TVInt(|e.details|)] + EncodeDetails(e.details))
  }

  function EncodeDetails(ds: seq<Explanation>): seq<Tok>
    decreases ds, 0
  {
    if ds == [] then [] else EncodeExplanation(ds[0]) + EncodeDetails(ds[1..])
  }

  function DecodeExplanation(toks: seq<Tok>, p: nat): (r: Read<Explanation>)
    requires p <= |toks|
    ensures r.Ok? ==> p < r.value.1 <= |toks|
    decreases |toks| - p, 0, 0
  {
    match ReadFloat(toks, p)
    case Err(e) => Err(e)
    case Ok((value, p1)) =>
      match ReadUTF(toks, p1)
      case Err(e) => Err(e)
      case Ok((description, p2)) =>
        match ReadBool(toks, p2)
        case Err(e) => Err(e)
        case Ok((hasDetails, p3)) =>
          if !hasDetails then Ok((Explanation(value, description, []), p3))
          else match ReadVInt(toks, p3)
            case Err(e) => Err(e)
            case Ok((size, p4)) =>
              match DecodeDetails(toks, p4, size)
              case Err(e) => Err(e)
              case Ok((details, p5)) => Ok((Explanation(value, description, details), p5))
  }

  /** `size` sub-explanations; a count of zero or less reads none. */
  function DecodeDetails(toks: seq<Tok>, p: nat, size: int): (r: Read<seq<Explanation>>)
    requires p <= |toks|
    ensures r.Ok? ==> p <= r.value.1 <= |toks|
    decreases |toks| - p, 1, if size < 0 then 0 else size
  {
    if size <= 0 then Ok(([], p))
    else match DecodeExplanation(toks, p)
      case Err(e) => Err(e)
      case Ok((x, q)) => Cons(x, DecodeDetails(toks, q, size - 1))
  }

  /** An explanation reads back as itself: value, description and details in order. */
  lemma {:induction false} ExplanationRoundTrip(e: Explanation, toks: seq<Tok>, p: nat)
    requires At(toks, p, EncodeExplanation(e))
    ensures DecodeExplanation(toks, p) == Ok((e, p + |EncodeExplanation(e)|))
    decreases e, 1
  {
    var head := [TFloat(e.value), TUTF(e.description)];
    var tail := if e.details == [] then [TBool(false)] else [TBool(true), TVInt(|e.details|)] + EncodeDetails(e.details);
    AtSplit(toks, p, head, tail);
    AtToken(toks, p, head, 0);
    AtToken(toks, p, head, 1);
    AtToken(toks, p + 2, tail, 0);
    if e.details != [] {
      AtSplit(toks, p + 2, [TBool(true), TVInt(|e.details|)], EncodeDetails(e.details));
      AtToken(toks, p + 2, tail, 1);
      DetailsRoundTrip(e.details, toks, p + 4);
    }
  }

  lemma {:induction false} DetailsRoundTrip(ds: seq<Explanation>, toks: seq<Tok>, p: nat)
    requires At(toks, p, EncodeDetails(ds))
    ensures DecodeDetails(toks, p, |ds|) == Ok((ds, p + |EncodeDetails(ds)|))
    decreases ds, 0
  {
    if ds != [] {
      var e0 := EncodeExplanation(ds[0]);
      var rest := EncodeDetails(ds[1..]);
      AtSplit(toks, p, e0, rest);
      ExplanationRoundTrip(ds[0], toks, p);
      DetailsRoundTrip(ds[1..], toks, p + |e0|);
      DetailsStep(toks, p, |ds|, ds[0], p + |e0|, ds[1..], p + |e0| + |rest|);
      assert [ds[0]] + ds[1..] == ds;
    }
  }

  /** One explanation read, then the remaining details. */
  lemma DetailsStep(toks: seq<Tok>, p: nat, n: int, x: Explanation, q: nat, xs: seq<Explanation>, q2: nat)
    requires n > 0 && p <= |toks| && DecodeExplanation(toks, p) == Ok((x, q))
    requires DecodeDetails(toks, q, n - 1) == Ok((xs, q2))
    ensures DecodeDetails(toks, p, n) == Ok(([x] + xs, q2))
  {
  }

  /** Explanation without details are written with a single `false` after the description. */
  lemma NoDetailsWrittenAsFalse(value: real, description: string)
    ensures EncodeExplanation(Explanation(value, description, [])) == [TFloat(value), TUTF(description), TBool(false)]
  {
  }

  /** `writeExplanation`: recursive, with a loop over the details. */
  method WriteExplanation(e: Explanation) returns (out: seq<Tok>)
    ensures out == EncodeExplanation(e)
    decreases e
  {
    out := [TFloat(e.value), TUTF(e.description)];
    if e.details == [] {
      out := out + [TBool(false)];
      return;
    }
    var head := out + [TBool(true), TVInt(|e.details|)];
    out := head;
    var i := 0;
    while i < |e.details|
      invariant 0 <= i <= |e.details|
      invariant out + EncodeDetails(e.details[i..]) == head + EncodeDetails(e.details)
    {
      assert e.details[i..][1..] == e.details[i + 1..];
      var sub := WriteExplanation(e.details[i]);
      Associative(out, sub, EncodeDetails(e.details[i + 1..]));
      out := out + sub;
      i := i + 1;
    }
    assert e.details[i..] == [];
    Associative([TFloat(e.value), TUTF(e.description)], [TBool(true), TVInt(|e.details|)], EncodeDetails(e.details));
  }

  /** `readExplanation`: recursive, with a loop over the details. */
  method ReadExplanation(toks: seq<Tok>, p: nat) returns (r: Read<Explanation>)
    requires p <= |toks|
    ensures r == DecodeExplanation(toks, p)
    decreases |toks| - p
  {
    var value := ReadFloat(toks, p);
    if value.Err? { return Err(value.error); }
    var description := ReadUTF(toks, value.value.1);
    if description.Err? { return Err(description.error); }
    var hasDetails := ReadBool(toks, description.value.1);
    if hasDetails.Err? { return Err(hasDetails.error); }
    if !hasDetails.value.0 {
      return Ok((Explanation(value.value.0, description.value.0, []), hasDetails.value.1));
    }
    var size := ReadVInt(toks, hasDetails.value.1);
    if size.Err? { return Err(size.error); }
    var n := size.value.0;
    var q := size.value.1;
    var details: seq<Explanation> := [];
    var i := 0;
    PrependNone(DecodeDetails(toks, q, n));
    ghost var q0 := q;
    while i < n
      invariant q0 <= q <= |toks|
      invariant 0 <= i && (i <= n || i == 0) && |details| == i
      invariant DecodeDetails(toks, q0, n) == PrependAll(details, DecodeDetails(toks, q, n - i))
    {
      var sub := ReadExplanation(toks, q);
      if sub.Err? {
        return Err(sub.error);
      }
      PrependCons(details, sub.value.0, DecodeDetails(toks, sub.value.1, n - i - 1));
      details := details + [sub.value.0];
      q := sub.value.1;
      i := i + 1;
    }
    assert details + [] == details;
    return Ok((Explanation(value.value.0, description.value.0, details), q));
  }

  // The exists collector.

  /** Records whether any document was collected since the last reset or scorer change. */
  class ExistsCollector {
    var found: bool

    constructor()
      ensures !found
    {
      found := false;
    }

    function Exists(): bool
      reads this
    {
      found
    }

    method Reset()
      modifies this
      ensures !Exists()
    {
      found := false;
    }

    method SetScorer()
      modifies this
      ensures !Exists()
    {
      found := false;
    }

    method Collect(doc: int)
      modifies this
      ensures Exists()
    {
      found := true;
    }

    /** Moving to the next segment leaves the flag as it is. */
    method SetNextReader()
      ensures Exists() == old(Exists())
    {
    }

    function AcceptsDocsOutOfOrder(): (b: bool)
      ensures b
    {
      true
    }
  }
}
