/**
 * The output of an XContentBuilder (JSON-like content), as the sequence of
 * events written to it.
 */
module XContent {

  datatype XValue =
    | XStr(s: string)
    | XInt(i: int)
    | XNumber(r: real)
    | XBool(b: bool)
    | XStrArray(items: seq<string>)

  datatype XEvent =
    | StartObject(name: string)
    | EndObject
    | Field(key: string, value: XValue)

  /** The keys of the Field events of a sequence, in order. */
  function Keys(events: seq<XEvent>): (ks: seq<string>)
    ensures |ks| <= |events|
  {
    if events == [] then []
    else (if events[0].Field? then [events[0].key] else []) + Keys(events[1..])
  }

  lemma {:induction false} KeysAppend(a: seq<XEvent>, b: seq<XEvent>)
    ensures Keys(a + b) == Keys(a) + Keys(b)
  {
    if a == [] {
      assert a + b == b;
    } else {
      var head := if a[0].Field? then [a[0].key] else [];
      assert (a + b)[0] == a[0];
      assert (a + b)[1..] == a[1..] + b;
      assert Keys(a + b) == head + Keys(a[1..] + b);
      KeysAppend(a[1..], b);
      assert Keys(a) == head + Keys(a[1..]);
    }
  }
}
