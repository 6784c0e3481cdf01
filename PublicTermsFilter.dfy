/**
 * A filter matching the documents that hold any of a set of terms. The
 * terms are kept in a sorted set; equality, the hash code and the text
 * form are taken over that set, and the matching documents of a segment
 * are collected into a bit set.
 */
module PublicTermsFilter {

  /** A term: a field name and the text indexed in it. */
  datatype Term = Term(field: string, text: string)

  /** Lexicographic order on strings, character by character. */
  predicate StrLess(a: string, b: string)
    decreases |a|
  {
    if |a| == 0 then |b| > 0
    else if |b| == 0 then false
    else if a[0] < b[0] then true
    else if a[0] == b[0] then StrLess(a[1..], b[1..])
    else false
  }

  lemma {:induction false} StrLessIrreflexive(a: string)
    ensures !StrLess(a, a)
    decreases |a|
  {
    if |a| > 0 {
      StrLessIrreflexive(a[1..]);
    }
  }

  lemma {:induction false} StrLessTransitive(a: string, b: string, c: string)
    requires StrLess(a, b) && StrLess(b, c)
    ensures StrLess(a, c)
    decreases |a|
  {
    if |a| > 0 && |b| > 0 && |c| > 0 && a[0] == b[0] && b[0] == c[0] {
      StrLessTransitive(a[1..], b[1..], c[1..]);
    }
  }

  lemma {:induction false} StrLessTotal(a: string, b: string)
    requires a != b
    ensures StrLess(a, b) || StrLess(b, a)
    decreases |a|
  {
    if |a| > 0 && |b| > 0 && a[0] == b[0] {
      assert a == [a[0]] + a[1..] && b == [b[0]] + b[1..];
      StrLessTotal(a[1..], b[1..]);
    }
  }

  /** Terms are ordered by field, then by text. */
  predicate TermLess(x: Term, y: Term)
  {
    StrLess(x.field, y.field) || (x.field == y.field && StrLess(x.text, y.text))
  }

  lemma TermLessIrreflexive(x: Term)
    ensures !TermLess(x, x)
  {
    StrLessIrreflexive(x.field);
    StrLessIrreflexive(x.text);
  }

  lemma TermLessTransitive(x: Term, y: Term, z: Term)
    requires TermLess(x, y) && TermLess(y, z)
    ensures TermLess(x, z)
  {
    if StrLess(x.field, y.field) && StrLess(y.field, z.field) {
      StrLessTransitive(x.field, y.field, z.field);
    } else if StrLess(x.text, y.text) && StrLess(y.text, z.text) && x.field == y.field && y.field == z.field {
      StrLessTransitive(x.text, y.text, z.text);
    }
  }

  lemma TermLessTotal(x: Term, y: Term)
    requires x != y
    ensures TermLess(x, y) || TermLess(y, x)
  {
    if x.field != y.field {
      StrLessTotal(x.field, y.field);
    } else {
      StrLessTotal(x.text, y.text);
    }
  }

  /** Strictly increasing: sorted and without duplicates. */
  predicate Sorted(ts: seq<Term>)
  {
    forall i, j :: 0 <= i < j < |ts| ==> TermLess(ts[i], ts[j])
  }

  /** The terms of a sequence, as a set. */
  function SetOf(ts: seq<Term>): (s: set<Term>)
    ensures forall t :: t in s <==> t in ts
  {
    set t | t in ts
  }

  /** Two sorted sequences holding the same terms are the same sequence. */
  lemma {:induction false} SortedUnique(a: seq<Term>, b: seq<Term>)
    requires Sorted(a) && Sorted(b) && SetOf(a) == SetOf(b)
    ensures a == b
    decreases |a|
  {
    if a != [] {
      assert a[0] in SetOf(a);
    }
    if b != [] {
      assert b[0] in SetOf(b);
    }
    if a != [] && b != [] {
      assert a[0] in SetOf(b) && b[0] in SetOf(a);
      if a[0] != b[0] {
        HeadLeast(a, b[0]);
        HeadLeast(b, a[0]);
        TermLessTransitive(a[0], b[0], a[0]);
        TermLessIrreflexive(a[0]);
        assert false;
      }
      forall t | t in a[1..]
        ensures t in b[1..]
      {
        var i :| 1 <= i < |a| && a[i] == t;
        assert TermLess(a[0], t);
        TermLessIrreflexive(t);
        assert t in SetOf(b);
        var k :| 0 <= k < |b| && b[k] == t;
        assert k != 0;
      }
      forall t | t in b[1..]
        ensures t in a[1..]
      {
        var i :| 1 <= i < |b| && b[i] == t;
        assert TermLess(b[0], t);
        TermLessIrreflexive(t);
        assert t in SetOf(a);
        var k :| 0 <= k < |a| && a[k] == t;
        assert k != 0;
      }
      assert SetOf(a[1..]) == SetOf(b[1..]);
      SortedUnique(a[1..], b[1..]);
      assert a == [a[0]] + a[1..] && b == [b[0]] + b[1..];
    }
  }

  /** The first term of a sorted sequence is below every other. */
  lemma HeadLeast(s: seq<Term>, t: Term)
    requires Sorted(s) && t in s && t != s[0]
    ensures TermLess(s[0], t)
  {
    var i :| 0 <= i < |s| && s[i] == t;
  }

  /** Java's int arithmetic: the value wrapped into the 32-bit signed range. */
  function Wrap32(x: int): (r: int)
    ensures -0x8000_0000 <= r < 0x8000_0000
    ensures (r - x) % 0x1_0000_0000 == 0
  {
    (x + 0x8000_0000) % 0x1_0000_0000 - 0x8000_0000
  }

  predicate IsInt32(x: int)
  {
    -0x8000_0000 <= x < 0x8000_0000
  }

  /** The hash `h` folded with `31 * h + hash(term)` over the terms in order. */
  function HashFrom(h: int, ts: seq<Term>, termHash: Term -> int): (r: int)
    requires IsInt32(h)
    ensures IsInt32(r)
    ensures ts == [] ==> r == h
    decreases |ts|
  {
    if ts == [] then h else HashFrom(Wrap32(31 * h + termHash(ts[0])), ts[1..], termHash)
  }

  lemma {:induction false} HashFromSnoc(h: int, ts: seq<Term>, t: Term, termHash: Term -> int)
    requires IsInt32(h)
    ensures HashFrom(h, ts + [t], termHash) == Wrap32(31 * HashFrom(h, ts, termHash) + termHash(t))
    decreases |ts|
  {
    if ts == [] {
      assert ts + [t] == [t];
      assert [t][1..] == [];
    } else {
      assert (ts + [t])[1..] == ts[1..] + [t];
      HashFromSnoc(Wrap32(31 * h + termHash(ts[0])), ts[1..], t, termHash);
    }
  }

  /** The hash code of a set of terms: 9, folded over the terms in sorted order. */
  function HashSpec(ts: seq<Term>, termHash: Term -> int): int
  {
    HashFrom(9, ts, termHash)
  }

  /** Equal term sets give equal hash codes, so hashCode agrees with equals. */
  lemma EqualSetsEqualHash(a: seq<Term>, b: seq<Term>, termHash: Term -> int)
    requires Sorted(a) && Sorted(b) && SetOf(a) == SetOf(b)
    ensures HashSpec(a, termHash) == HashSpec(b, termHash)
  {
    SortedUnique(a, b);
  }

  /** A term's text form: the field name, a colon and the text. */
  function TermString(t: Term): (s: string)
    ensures |s| > 0
  {
    t.field + ":" + t.text
  }

  /** The strings joined by single spaces. */
  function Joined(strs: seq<string>): string
    decreases |strs|
  {
    if |strs| == 0 then ""
    else if |strs| == 1 then strs[0]
    else strs[0] + " " + Joined(strs[1..])
  }

  lemma {:induction false} JoinedSnoc(strs: seq<string>, x: string)
    ensures Joined(strs + [x]) == if strs == [] then x else Joined(strs) + " " + x
    decreases |strs|
  {
    if |strs| == 1 {
      assert (strs + [x])[1..] == [x];
    } else if |strs| > 1 {
      assert (strs + [x])[1..] == strs[1..] + [x];
      JoinedSnoc(strs[1..], x);
    }
  }

  function TermStrings(ts: seq<Term>): (ss: seq<string>)
    ensures |ss| == |ts| && forall i :: 0 <= i < |ts| ==> ss[i] == TermString(ts[i])
  {
    seq(|ts|, i requires 0 <= i < |ts| => TermString(ts[i]))
  }

  lemma TermStringsSnoc(ts: seq<Term>, i: nat)
    requires i < |ts|
    ensures TermStrings(ts[..i + 1]) == TermStrings(ts[..i]) + [TermString(ts[i])]
    ensures TermStrings(ts[..i]) == [] <==> i == 0
  {
    assert |TermStrings(ts[..i])| == i;
  }

  /** The index of the first space of `s`, or |s| when there is none. */
  function FirstSpace(s: string): (k: nat)
    ensures k <= |s|
    ensures forall i :: 0 <= i < k ==> s[i] != ' '
    ensures k < |s| ==> s[k] == ' '
    decreases |s|
  {
    if |s| == 0 then 0 else if s[0] == ' ' then 0 else 1 + FirstSpace(s[1..])
  }

  /** `s` cut at every space. */
  function SplitSpaces(s: string): seq<string>
    decreases |s|
  {
    var k := FirstSpace(s);
    if k == |s| then [s] else [s[..k]] + SplitSpaces(s[k + 1..])
  }

  predicate NoSpace(s: string)
  {
    forall i :: 0 <= i < |s| ==> s[i] != ' '
  }

  lemma FirstSpaceOf(x: string, rest: string)
    requires NoSpace(x)
    ensures FirstSpace(x + " " + rest) == |x|
    ensures FirstSpace(x) == |x|
  {
    var s := x + " " + rest;
    var k := FirstSpace(s);
    assert s[|x|] == ' ';
    var k2 := FirstSpace(x);
  }

  /** Cutting the joined text at its spaces gives back the strings, when none holds a space. */
  lemma {:induction false} SplitJoined(strs: seq<string>)
    requires |strs| > 0
    requires forall i :: 0 <= i < |strs| ==> NoSpace(strs[i])
    ensures SplitSpaces(Joined(strs)) == strs
    decreases |strs|
  {
    if |strs| == 1 {
      SplitSingle(strs[0]);
    } else {
      var rest := Joined(strs[1..]);
      assert Joined(strs) == strs[0] + " " + rest;
      SplitStep(strs[0], rest);
      SplitJoined(strs[1..]);
      assert strs == [strs[0]] + strs[1..];
    }
  }

  lemma SplitSingle(x: string)
    requires NoSpace(x)
    ensures SplitSpaces(x) == [x]
  {
    FirstSpaceOf(x, "");
  }

  /** A piece without spaces followed by a space is cut off first. */
  lemma SplitStep(x: string, rest: string)
    requires NoSpace(x)
    ensures SplitSpaces(x + " " + rest) == [x] + SplitSpaces(rest)
  {
    var s := x + " " + rest;
    FirstSpaceOf(x, rest);
    assert s[..|x|] == x;
    assert s[|x| + 1..] == rest;
  }

  /**
   * With no space inside any field or text, the text form of a filter cut
   * at its spaces gives back one piece per term, in sorted order.
   */
  lemma TextFormSplits(ts: seq<Term>)
    requires |ts| > 0
    requires forall i :: 0 <= i < |ts| ==> NoSpace(ts[i].field) && NoSpace(ts[i].text)
    ensures SplitSpaces(Joined(TermStrings(ts))) == TermStrings(ts)
  {
    var ss := TermStrings(ts);
    forall i | 0 <= i < |ss|
      ensures NoSpace(ss[i])
    {
      var f := ts[i].field;
      var x := ts[i].text;
      assert ss[i] == f + ":" + x;
      forall k | 0 <= k < |ss[i]|
        ensures ss[i][k] != ' '
      {
        if k < |f| {
          assert ss[i][k] == f[k];
        } else if k > |f| {
          assert ss[i][k] == x[k - |f| - 1];
        }
      }
    }
    SplitJoined(ss);
  }

  /**
   * The part of a segment the filter reads: its document count, the
   * postings of each term present in it and the documents not deleted.
   */
  datatype Segment = Segment(maxDoc: nat, postings: map<Term, seq<nat>>, live: set<nat>)

  /** Every posting names a document of the segment. */
  predicate WellFormed(r: Segment)
  {
    forall t, i :: t in r.postings && 0 <= i < |r.postings[t]| ==> r.postings[t][i] < r.maxDoc
  }

  /** The documents a term's postings enumeration yields: its postings, deleted ones skipped. */
  function LiveDocs(r: Segment, t: Term): (ds: seq<nat>)
    requires t in r.postings
    ensures forall d :: d in ds <==> d in r.postings[t] && d in r.live
  {
    LiveFilter(r.postings[t], r.live)
  }

  function LiveFilter(ds: seq<nat>, live: set<nat>): (r: seq<nat>)
    ensures forall d :: d in r <==> d in ds && d in live
    decreases |ds|
  {
    if ds == [] then []
    else (if ds[0] in live then [ds[0]] else []) + LiveFilter(ds[1..], live)
  }

  /** Whether any of the terms occurs in the segment. */
  predicate AnyPresent(ts: seq<Term>, r: Segment)
  {
    exists i :: 0 <= i < |ts| && ts[i] in r.postings
  }

  /** The documents matched by the terms: the live documents holding any of them. */
  predicate Matches(ts: seq<Term>, r: Segment, d: nat)
  {
    exists i :: 0 <= i < |ts| && ts[i] in r.postings && d in r.postings[ts[i]] && d in r.live
  }

  /**
   * Inserting a term before the first one not below it keeps a sorted
   * sequence sorted and adds exactly that term, which was not there.
   */
  lemma InsertSorted(ts: seq<Term>, k: nat, term: Term)
    requires Sorted(ts) && k <= |ts|
    requires forall i :: 0 <= i < k ==> TermLess(ts[i], term)
    requires k < |ts| ==> TermLess(term, ts[k])
    ensures term !in ts
    ensures Sorted(ts[..k] + [term] + ts[k..])
    ensures SetOf(ts[..k] + [term] + ts[k..]) == SetOf(ts) + {term}
  {
    forall j | k < j < |ts|
      ensures TermLess(term, ts[j])
    {
      TermLessTransitive(term, ts[k], ts[j]);
    }
    forall t | t in ts
      ensures t != term
    {
      var i :| 0 <= i < |ts| && ts[i] == t;
      TermLessIrreflexive(term);
    }
    var r := ts[..k] + [term] + ts[k..];
    assert forall i :: 0 <= i < k ==> r[i] == ts[i];
    assert forall i :: k < i < |r| ==> r[i] == ts[i - 1];
    assert r[k] == term;
    forall i, j | 0 <= i < j < |r|
      ensures TermLess(r[i], r[j])
    {
      if i < k && j == k {
      } else if i == k {
      } else if i < k && j > k {
        TermLessTransitive(r[i], term, r[j]);
      }
    }
    assert ts == ts[..k] + ts[k..];
  }

  /**
   * A sorted set of terms, the state of the filter. Its `terms` field
   * stands for the TreeSet: it is always strictly increasing.
   */
  class PublicTermsFilter {
    var terms: seq<Term>

    predicate Valid()
      reads this
    {
      Sorted(terms)
    }

    function Elements(): set<Term>
      reads this
    {
      SetOf(terms)
    }

    constructor()
      ensures Valid() && terms == []
    {
      terms := [];
    }

    /** `addTerm`: adds the term to the set; adding one already there changes nothing. */
    method AddTerm(term: Term)
      modifies this
      requires Valid()
      ensures Valid() && Elements() == old(Elements()) + {term}
      ensures term in old(Elements()) ==> terms == old(terms)
    {
      var k := 0;
      while k < |terms| && TermLess(terms[k], term)
        invariant 0 <= k <= |terms|
        invariant forall i :: 0 <= i < k ==> TermLess(terms[i], term)
      {
        k := k + 1;
      }
      if k < |terms| && terms[k] == term {
        return;
      }
      if k < |terms| {
        TermLessTotal(terms[k], term);
      }
      InsertSorted(terms, k, term);
      terms := terms[..k] + [term] + terms[k..];
    }

    /** `getTerms`. */
    function GetTerms(): (s: set<Term>)
      reads this
      ensures s == Elements()
    {
      Elements()
    }

    /** `equals`: a filter equals itself, and another filter exactly when they hold the same terms. */
    method Equals(other: PublicTermsFilter?) returns (r: bool)
      requires Valid() && (other != null ==> other.Valid())
      ensures r <==> other != null && Elements() == other.Elements()
    {
      if this == other {
        return true;
      }
      if other == null {
        return false;
      }
      r := terms == other.terms;
      if Elements() == other.Elements() {
        SortedUnique(terms, other.terms);
      }
    }

    /** `hashCode`: 31-based hash over the sorted terms, in 32-bit arithmetic. */
    method HashCode(termHash: Term -> int) returns (hash: int)
      ensures hash == HashSpec(terms, termHash)
    {
      hash := 9;
      var i := 0;
      while i < |terms|
        invariant 0 <= i <= |terms|
        invariant hash == HashFrom(9, terms[..i], termHash)
      {
        HashFromSnoc(9, terms[..i], terms[i], termHash);
        assert terms[..i + 1] == terms[..i] + [terms[i]];
        hash := Wrap32(31 * hash + termHash(terms[i]));
        i := i + 1;
      }
      assert terms[..i] == terms;
    }

    /** `toString`: the terms' text forms in sorted order, a space between two. */
    method ToString() returns (s: string)
      ensures s == Joined(TermStrings(terms))
    {
      s := "";
      var i := 0;
      while i < |terms|
        invariant 0 <= i <= |terms|
        invariant s == Joined(TermStrings(terms[..i]))
        invariant |s| > 0 <==> i > 0
      {
        var piece := TermString(terms[i]);
        TermStringsSnoc(terms, i);
        JoinedSnoc(TermStrings(terms[..i]), piece);
        if |s| > 0 {
          s := s + " ";
        }
        s := s + piece;
        i := i + 1;
      }
      assert terms[..i] == terms;
    }

    /**
     * `getDocIdSet`: no bit set when none of the terms occurs in the
     * segment, otherwise a bit set of the segment's size holding the live
     * documents of every term that occurs.
     */
    method GetDocIdSet(r: Segment) returns (result: array?<bool>)
      requires WellFormed(r)
      ensures result == null <==> !AnyPresent(terms, r)
      ensures result != null ==>
        (fresh(result) && result.Length == r.maxDoc
         && forall d :: 0 <= d < r.maxDoc ==> (result[d] <==> Matches(terms, r, d)))
    {
      result := null;
      var i := 0;
      while i < |terms|
        invariant 0 <= i <= |terms|
        invariant result == null <==> !AnyPresent(terms[..i], r)
        invariant result != null ==>
          (fresh(result) && result.Length == r.maxDoc
           && forall d :: 0 <= d < r.maxDoc ==> (result[d] <==> Matches(terms[..i], r, d)))
      {
        var term := terms[i];
        assert forall j :: 0 <= j < i ==> terms[..i + 1][j] == terms[..i][j];
        assert terms[..i + 1][i] == term;
        if term in r.postings {
          if result == null {
            result := new bool[r.maxDoc](_ => false);
          }
          AddDocs(result, r, term);
          forall d | 0 <= d < r.maxDoc
            ensures result[d] <==> Matches(terms[..i + 1], r, d)
          {
            if Matches(terms[..i + 1], r, d) && !Matches(terms[..i], r, d) {
              var j :| 0 <= j < i + 1 && terms[..i + 1][j] in r.postings && d in r.postings[terms[..i + 1][j]] && d in r.live;
              assert j == i;
            }
          }
        } else {
          forall d | 0 <= d < r.maxDoc
            ensures Matches(terms[..i + 1], r, d) <==> Matches(terms[..i], r, d)
          {
            if Matches(terms[..i + 1], r, d) {
              var j :| 0 <= j < i + 1 && terms[..i + 1][j] in r.postings && d in r.postings[terms[..i + 1][j]] && d in r.live;
              assert j != i;
            }
          }
        }
        if AnyPresent(terms[..i + 1], r) && !AnyPresent(terms[..i], r) {
          var j :| 0 <= j < i + 1 && terms[..i + 1][j] in r.postings;
          assert j == i;
        }
        i := i + 1;
      }
      assert terms[..i] == terms;
    }
  }

  lemma LiveDocBound(r: Segment, t: Term, doc: nat)
    requires WellFormed(r) && t in r.postings && doc in LiveDocs(r, t)
    ensures doc < r.maxDoc
  {
    var k :| 0 <= k < |r.postings[t]| && r.postings[t][k] == doc;
  }

  /** The postings loop of one term: sets the bit of each live document it yields. */
  method AddDocs(bits: array<bool>, r: Segment, t: Term)
    modifies bits
    requires WellFormed(r) && t in r.postings && bits.Length == r.maxDoc
    ensures forall d :: 0 <= d < bits.Length ==>
      (bits[d] <==> old(bits[d]) || (d in r.postings[t] && d in r.live))
  {
    var docs := LiveDocs(r, t);
    var j := 0;
    while j < |docs|
      invariant 0 <= j <= |docs|
      invariant forall d :: 0 <= d < bits.Length ==> (bits[d] <==> old(bits[d]) || d in docs[..j])
    {
      var doc := docs[j];
      LiveDocBound(r, t, doc);
      bits[doc] := true;
      assert docs[..j + 1] == docs[..j] + [doc];
      j := j + 1;
    }
    assert docs[..j] == docs;
  }
}
