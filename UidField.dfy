/**
 * The `_uid` field of a document. Its single token carries the document's
 * version as payload, and two scans read the version (and the doc id) back
 * from the postings of a uid term.
 */
module UidField {
  import opened Wrappers
  import AbstractFieldMapper

  /** Lucene's "no document" doc id. */
  const NoDoc: int := -1
  /** `loadVersion` when the term has no postings. */
  const NotFound: int := -1
  /** The version when no posting carries a version payload (or reading fails). */
  const NoVersion: int := -2
  /** A version payload holds a long: 8 bytes. */
  const VersionBytes: nat := 8

  /** Reading the payload at a posting's position. */
  datatype PayloadRead = NoPayload | Payload(bytes: seq<bv8>) | ReadFails

  /** One step of the postings enumeration: the next doc and its payload, or a failure while advancing. */
  datatype DocStep = Next(docId: int, payload: PayloadRead) | AdvanceFails

  /**
   * The postings of a uid term among the live docs: None when the term has
   * none. Opening the enumeration and failing is `Some([AdvanceFails])`.
   */
  type Postings = Option<seq<DocStep>>

  /** A posting whose payload is long enough to hold a version. */
  predicate Qualifies(step: DocStep)
  {
    step.Next? && step.payload.Payload? && |step.payload.bytes| >= VersionBytes
  }

  predicate Fails(step: DocStep)
  {
    step.AdvanceFails? || (step.Next? && step.payload.ReadFails?)
  }

  /** The version the scan finds in `steps`: the first qualifying payload, -2 if a failure comes first or none qualifies. */
  function VersionSpec(steps: seq<DocStep>, bytesToLong: seq<bv8> -> int): int
    decreases |steps|
  {
    if steps == [] then NoVersion
    else if Fails(steps[0]) then NoVersion
    else if Qualifies(steps[0]) then bytesToLong(steps[0].payload.bytes)
    else VersionSpec(steps[1..], bytesToLong)
  }

  /**
   * Loads the version of a uid: -1 without postings, else the version in the
   * first posting whose payload holds one, -2 when none does.
   */
  method LoadVersion(postings: Postings, bytesToLong: seq<bv8> -> int) returns (version: int)
    ensures postings.None? ==> version == NotFound
    ensures postings.Some? ==> version == VersionSpec(postings.value, bytesToLong)
  {
    if postings.None? {
      return NotFound;
    }
    var steps := postings.value;
    var i := 0;
    while i < |steps|
      invariant 0 <= i <= |steps|
      invariant VersionSpec(steps, bytesToLong) == VersionSpec(steps[i..], bytesToLong)
    {
      assert steps[i..][1..] == steps[i + 1..];
      var step := steps[i];
      if step.AdvanceFails? {
        return NoVersion;
      }
      if step.payload.ReadFails? {
        return NoVersion;
      }
      if !step.payload.Payload? {
        i := i + 1;
        continue;
      }
      var payload := step.payload.bytes;
      if |payload| < VersionBytes {
        i := i + 1;
        continue;
      }
      return bytesToLong(payload);
    }
    return NoVersion;
  }

  /** The position of the first qualifying posting, when every posting before it is a plain non-qualifying doc. */
  predicate FirstQualifyingAt(steps: seq<DocStep>, i: nat)
  {
    i < |steps| && Qualifies(steps[i]) && forall j :: 0 <= j < i ==> !Fails(steps[j]) && !Qualifies(steps[j])
  }

  /** The scan returns the version in the first qualifying posting. */
  lemma {:induction false} VersionOfFirstQualifying(steps: seq<DocStep>, bytesToLong: seq<bv8> -> int, i: nat)
    requires FirstQualifyingAt(steps, i)
    ensures VersionSpec(steps, bytesToLong) == bytesToLong(steps[i].payload.bytes)
    decreases i
  {
    if i > 0 {
      assert FirstQualifyingAt(steps[1..], i - 1) by {
        forall j | 0 <= j < i - 1 ensures !Fails(steps[1..][j]) && !Qualifies(steps[1..][j]) {
          assert steps[1..][j] == steps[j + 1];
        }
      }
      VersionOfFirstQualifying(steps[1..], bytesToLong, i - 1);
    }
  }

  /** Without a qualifying posting before the first failure, the version is -2. */
  lemma {:induction false} NoQualifyingNoVersion(steps: seq<DocStep>, bytesToLong: seq<bv8> -> int)
    requires forall i :: 0 <= i < |steps| ==> !FirstQualifyingAt(steps, i)
    ensures VersionSpec(steps, bytesToLong) == NoVersion
    decreases |steps|
  {
    if steps != [] && !Fails(steps[0]) {
      assert !FirstQualifyingAt(steps, 0);
      forall i | 0 <= i < |steps[1..]| ensures !FirstQualifyingAt(steps[1..], i) {
        if FirstQualifyingAt(steps[1..], i) {
          forall j | 0 <= j < i + 1 ensures !Fails(steps[j]) && !Qualifies(steps[j]) {
            if j > 0 { assert steps[j] == steps[1..][j - 1]; }
          }
          assert FirstQualifyingAt(steps, i + 1);
        }
      }
      NoQualifyingNoVersion(steps[1..], bytesToLong);
    }
  }

  datatype DocIdAndVersion = DocIdAndVersion(docId: int, version: int)

  /**
   * The doc id and version the scan finds, `lastDoc` being the doc seen
   * last: the first qualifying doc with its version; otherwise the last doc
   * seen (a read failure happens after its doc is seen) with -2.
   */
  function DocIdAndVersionSpec(steps: seq<DocStep>, lastDoc: int, bytesToLong: seq<bv8> -> int): DocIdAndVersion
    decreases |steps|
  {
    if steps == [] then DocIdAndVersion(lastDoc, NoVersion)
    else match steps[0]
      case AdvanceFails => DocIdAndVersion(lastDoc, NoVersion)
      case Next(d, p) =>
        if p.ReadFails? then DocIdAndVersion(d, NoVersion)
        else if Qualifies(steps[0]) then DocIdAndVersion(d, bytesToLong(p.bytes))
        else DocIdAndVersionSpec(steps[1..], d, bytesToLong)
  }

  /**
   * Loads the doc id and version of a uid: None without postings, else the
   * result of the scan starting from "no document".
   */
  method LoadDocIdAndVersion(postings: Postings, bytesToLong: seq<bv8> -> int) returns (r: Option<DocIdAndVersion>)
    ensures postings.None? <==> r.None?
    ensures postings.Some? ==> r == Some(DocIdAndVersionSpec(postings.value, NoDoc, bytesToLong))
  {
    if postings.None? {
      return None;
    }
    var steps := postings.value;
    var docId := NoDoc;
    var i := 0;
    while i < |steps|
      invariant 0 <= i <= |steps|
      invariant DocIdAndVersionSpec(steps, NoDoc, bytesToLong) == DocIdAndVersionSpec(steps[i..], docId, bytesToLong)
    {
      assert steps[i..][1..] == steps[i + 1..];
      var step := steps[i];
      if step.AdvanceFails? {
        return Some(DocIdAndVersion(docId, NoVersion));
      }
      docId := step.docId;
      if step.payload.ReadFails? {
        return Some(DocIdAndVersion(docId, NoVersion));
      }
      if !step.payload.Payload? {
        i := i + 1;
        continue;
      }
      var payload := step.payload.bytes;
      if |payload| < VersionBytes {
        i := i + 1;
        continue;
      }
      return Some(DocIdAndVersion(docId, bytesToLong(payload)));
    }
    return Some(DocIdAndVersion(docId, NoVersion));
  }

  /** Both scans find the same version. */
  lemma {:induction false} ScansAgreeOnVersion(steps: seq<DocStep>, lastDoc: int, bytesToLong: seq<bv8> -> int)
    ensures DocIdAndVersionSpec(steps, lastDoc, bytesToLong).version == VersionSpec(steps, bytesToLong)
    decreases |steps|
  {
    if steps != [] && steps[0].Next? && !steps[0].payload.ReadFails? && !Qualifies(steps[0]) {
      ScansAgreeOnVersion(steps[1..], steps[0].docId, bytesToLong);
    }
  }

  /** The doc id found is the first qualifying doc. */
  lemma {:induction false} DocIdOfFirstQualifying(steps: seq<DocStep>, lastDoc: int, bytesToLong: seq<bv8> -> int, i: nat)
    requires FirstQualifyingAt(steps, i)
    ensures DocIdAndVersionSpec(steps, lastDoc, bytesToLong) == DocIdAndVersion(steps[i].docId, bytesToLong(steps[i].payload.bytes))
    decreases i
  {
    if i > 0 {
      assert FirstQualifyingAt(steps[1..], i - 1) by {
        forall j | 0 <= j < i - 1 ensures !Fails(steps[1..][j]) && !Qualifies(steps[1..][j]) {
          assert steps[1..][j] == steps[j + 1];
        }
      }
      DocIdOfFirstQualifying(steps[1..], steps[0].docId, bytesToLong, i - 1);
    }
  }

  /** Postings that all read cleanly and none qualifies: the last doc with -2, or "no document" when empty. */
  lemma {:induction false} NoneQualifiesGivesLastDoc(steps: seq<DocStep>, lastDoc: int, bytesToLong: seq<bv8> -> int)
    requires forall j :: 0 <= j < |steps| ==> steps[j].Next? && !steps[j].payload.ReadFails? && !Qualifies(steps[j])
    ensures DocIdAndVersionSpec(steps, lastDoc, bytesToLong)
      == DocIdAndVersion(if steps == [] then lastDoc else steps[|steps| - 1].docId, NoVersion)
    decreases |steps|
  {
    if steps != [] {
      assert forall j :: 0 <= j < |steps[1..]| ==> steps[1..][j] == steps[j + 1];
      NoneQualifiesGivesLastDoc(steps[1..], steps[0].docId, bytesToLong);
      if |steps| > 1 {
        assert steps[1..][|steps[1..]| - 1] == steps[|steps| - 1];
      }
    }
  }

  /** A token produced by the uid token stream: the uid text with the version bytes as payload. */
  datatype UidToken = UidToken(term: string, payload: seq<bv8>)

  /** The uid field: indexed, stored, tokenized, without norms, with positions (for the payload). */
  class UidField {
    const name: string
    const fieldType: AbstractFieldMapper.FieldType
    var uid: string
    var version: int
    var tokenStream: UidPayloadTokenStream?

    /** The field's text is its current uid. */
    function StringValue(): (s: string)
      reads this
      ensures s == uid
    {
      uid
    }

    constructor(name: string, uid: string, version: int)
      ensures this.name == name && this.uid == uid && this.version == version
      ensures fieldType.indexed && fieldType.stored && fieldType.tokenized && fieldType.omitNorms
      ensures !fieldType.storeTermVectors && !fieldType.storeTermVectorOffsets && !fieldType.storeTermVectorPositions
      ensures fieldType.indexOptions == AbstractFieldMapper.DocsAndFreqsAndPositions
      ensures tokenStream != null && fresh(tokenStream) && tokenStream.field == this && !tokenStream.added
    {
      this.name := name;
      this.uid := uid;
      this.version := version;
      // A fresh Lucene field type with the flags the uid field sets.
      this.fieldType := AbstractFieldMapper.FieldType(
        indexed := true, tokenized := true, stored := true,
        storeTermVectors := false, storeTermVectorOffsets := false, storeTermVectorPositions := false,
        omitNorms := true, indexOptions := AbstractFieldMapper.DocsAndFreqsAndPositions);
      new;
      tokenStream := new UidPayloadTokenStream(this);
    }

    method SetUid(uid: string)
      modifies this
      ensures this.uid == uid && StringValue() == uid
      ensures version == old(version) && tokenStream == old(tokenStream)
    {
      this.uid := uid;
    }

    method SetVersion(version: int)
      modifies this
      ensures this.version == version
      ensures uid == old(uid) && tokenStream == old(tokenStream)
    {
      this.version := version;
    }
  }

  /** The token stream of a uid field: one token per reset. */
  class UidPayloadTokenStream {
    const field: UidField
    var added: bool

    constructor(field: UidField)
      ensures this.field == field && !added
    {
      this.field := field;
      added := false;
    }

    method Reset()
      modifies this
      ensures !added
    {
      added := false;
    }

    /**
     * The next token: the field's current uid with its version as payload
     * when no token was produced since the last reset, none afterwards.
     */
    method IncrementToken(longToBytes: int -> seq<bv8>) returns (token: Option<UidToken>)
      modifies this
      ensures token.Some? <==> !old(added)
      ensures token.Some? ==> token.value == UidToken(field.uid, longToBytes(field.version))
      ensures added
    {
      if added {
        return None;
      }
      token := Some(UidToken(field.uid, longToBytes(field.version)));
      added := true;
    }
  }

  /** A reset stream yields exactly one token, then none. */
  method OneTokenPerReset(stream: UidPayloadTokenStream, longToBytes: int -> seq<bv8>)
    returns (first: Option<UidToken>, second: Option<UidToken>)
    modifies stream
    ensures first == Some(UidToken(stream.field.uid, longToBytes(stream.field.version)))
    ensures second.None?
  {
    stream.Reset();
    first := stream.IncrementToken(longToBytes);
    second := stream.IncrementToken(longToBytes);
  }
}
