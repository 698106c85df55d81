/** `parseADIF`: every tokenised record is normalised, the failures are dropped, the
    successes are numbered 1..M in input order and then sorted by start instant, ties
    broken by number. The ADIF tokenizer is not part of this model: its header map and
    record list are the inputs. */
module Batch {
  import opened Js
  import opened Adif
  import opened Normalise

  /** The object `parseADIF` returns. */
  datatype Document = Document(source: string, rawHeaders: map<string, string>, qsos: seq<Qso>)

  /** `qso.number = n`. */
  function Stamp(q: Qso, n: nat): Qso { q.(number := Some(n)) }

  /** What `parseAdifQSO` gives for each record, in input order. */
  function Outcomes(records: seq<Record>, host: Host): (outs: seq<Option<Qso>>)
    ensures |outs| == |records|
  {
    seq(|records|, j requires 0 <= j < |records| => NormaliseRecord(records[j], host))
  }

  /** The list the `forEach` of lines 18-25 leaves in `qsos`. */
  function Numbered(outs: seq<Option<Qso>>): (qs: seq<Qso>)
    ensures forall i :: 0 <= i < |qs| ==> qs[i].number == Some(i + 1)
  {
    if outs == [] then []
    else
      var qs := Numbered(outs[..|outs| - 1]);
      match outs[|outs| - 1]
      case None => qs
      case Some(q) => qs + [Stamp(q, |qs| + 1)]
  }

  /** The positions of the records that normalise, in input order. */
  function Kept(outs: seq<Option<Qso>>): (ks: seq<nat>)
    ensures forall i :: 0 <= i < |ks| ==> ks[i] < |outs| && outs[ks[i]].Some?
    ensures forall i, j :: 0 <= i < j < |ks| ==> ks[i] < ks[j]
    ensures forall j :: 0 <= j < |outs| && outs[j].Some? ==> j in ks
  {
    if outs == [] then []
    else
      var n := |outs| - 1;
      var ks := Kept(outs[..n]);
      if outs[n].Some? then ks + [n] else ks
  }

  /** The `i`-th QSO of the numbered list is the `i`-th record that normalises, stamped
      with the number `i + 1`: a dropped record takes no number and does not stop the
      records after it. */
  lemma {:induction false} NumberedFromKept(outs: seq<Option<Qso>>)
    ensures |Numbered(outs)| == |Kept(outs)|
    ensures forall i :: 0 <= i < |Kept(outs)| ==> Numbered(outs)[i] == Stamp(outs[Kept(outs)[i]].value, i + 1)
  {
    if outs != [] {
      var n := |outs| - 1;
      NumberedFromKept(outs[..n]);
    }
  }

  /** `startMillis`, when it is a number. */
  predicate Timed(q: Qso) { q.startMillis.Some? && q.startMillis.value.Finite? }

  function StartOf(q: Qso): int
  {
    match q.startMillis
    case Some(Finite(n)) => n
    case _ => 0
  }

  function NumberOf(q: Qso): nat
  {
    match q.number
    case Some(n) => n
    case None => 0
  }

  /** The comparator of lines 27-33 does not put `a` after `b`. */
  predicate Precedes(a: Qso, b: Qso)
  {
    StartOf(a) < StartOf(b) || (StartOf(a) == StartOf(b) && NumberOf(a) <= NumberOf(b))
  }

  predicate Sorted(s: seq<Qso>)
  {
    forall i, j :: 0 <= i < j < |s| ==> Precedes(s[i], s[j])
  }

  /** `qsos.sort(...)` of lines 27-33, in place. */
  method SortByStart(a: array<Qso>)
    modifies a
    ensures Sorted(a[..])
    ensures multiset(a[..]) == multiset(old(a[..]))
  {
    var i := 0;
    while i < a.Length
      invariant 0 <= i <= a.Length
      invariant Sorted(a[..i])
      invariant multiset(a[..]) == multiset(old(a[..]))
    {
      InsertAt(a, i);
      i := i + 1;
    }
    assert a[..a.Length] == a[..];
  }

  /** One step of the sort: the QSO at `i` moves down past every QSO before it that the
      comparator puts after it, so the first `i + 1` QSOs are in order. */
  method InsertAt(a: array<Qso>, i: nat)
    modifies a
    requires i < a.Length && Sorted(a[..i])
    ensures Sorted(a[..i + 1])
    ensures a[i + 1..] == old(a[i + 1..])
    ensures multiset(a[..]) == multiset(old(a[..]))
  {
    var j := i;
    assert Inserting(a[..], i, j) by {
      assert forall k :: 0 <= k < i ==> a[..i][k] == a[k];
    }
    while j > 0 && !Precedes(a[j - 1], a[j])
      invariant 0 <= j <= i < a.Length
      invariant Inserting(a[..], i, j)
      invariant multiset(a[..]) == multiset(old(a[..]))
      invariant a[i + 1..] == old(a[i + 1..])
    {
      ghost var before := a[..];
      a[j - 1], a[j] := a[j], a[j - 1];
      SwapStep(before, a[..], i, j);
      j := j - 1;
    }
    InsertDone(a[..], i, j);
  }

  /** While the QSO that started at `i` sits at `j`: the others up to `i` are in order,
      and it precedes every QSO after it up to `i`. */
  predicate Inserting(s: seq<Qso>, i: nat, j: nat)
    requires j <= i < |s|
  {
    (forall k, l :: 0 <= k < l <= i && k != j && l != j ==> Precedes(s[k], s[l])) &&
    (forall l :: j < l <= i ==> Precedes(s[j], s[l]))
  }

  /** Exchanging the moving QSO with the one before it, which the comparator puts after
      it, keeps the loop's invariant one place lower and keeps the multiset. */
  lemma SwapStep(s: seq<Qso>, t: seq<Qso>, i: nat, j: nat)
    requires 0 < j <= i < |s| && Inserting(s, i, j) && !Precedes(s[j - 1], s[j])
    requires t == s[j - 1 := s[j]][j := s[j - 1]]
    ensures Inserting(t, i, j - 1)
    ensures multiset(t) == multiset(s)
  {
  }

  /** When the moving QSO stops, the first `i + 1` QSOs are in order. */
  lemma InsertDone(s: seq<Qso>, i: nat, j: nat)
    requires j <= i < |s| && Inserting(s, i, j)
    requires j > 0 ==> Precedes(s[j - 1], s[j])
    ensures Sorted(s[..i + 1])
  {
  }

  /** Every kept record has a numeric `startMillis`. */
  predicate AllTimed(outs: seq<Option<Qso>>)
  {
    forall j :: 0 <= j < |outs| && outs[j].Some? ==> Timed(outs[j].value)
  }

  /** Lines 18-25: each record is normalised in turn; a success is counted and numbered. */
  method NumberAll(records: seq<Record>, host: Host) returns (qsos: seq<Qso>)
    ensures qsos == Numbered(Outcomes(records, host))
  {
    ghost var outs := Outcomes(records, host);
    qsos := [];
    var count := 0;
    var i := 0;
    while i < |records|
      invariant 0 <= i <= |records|
      invariant qsos == Numbered(outs[..i])
      invariant count == |qsos|
    {
      var qso := ParseAdifQso(records[i], host);
      assert qso == outs[i];
      assert outs[..i + 1][..i] == outs[..i];
      if qso.Some? {
        count := count + 1;
        qsos := qsos + [Stamp(qso.value, count)];
      }
      i := i + 1;
    }
    assert outs[..|records|] == outs;
  }

  /** `parseADIF` (lines 8-40) on the tokenizer's output. The comparator is consistent
      only when every kept record has a numeric `startMillis`, which the caller provides. */
  method ParseAdif(header: map<string, string>, records: seq<Record>, host: Host) returns (doc: Document)
    requires AllTimed(Outcomes(records, host))
    ensures doc.source == "adif" && doc.rawHeaders == header
    ensures multiset(doc.qsos) == multiset(Numbered(Outcomes(records, host)))
    ensures Sorted(doc.qsos)
    ensures forall q :: q in doc.qsos ==> Timed(q)
  {
    var qsos := NumberAll(records, host);
    var sorted := SortList(qsos);
    doc := Document("adif", header, sorted);
    NumberedTimed(Outcomes(records, host));
    PermutationTimed(qsos, doc.qsos);
  }

  /** `qsos.sort(...)`: the list is put into an array and sorted there in place. */
  method SortList(qsos: seq<Qso>) returns (sorted: seq<Qso>)
    ensures Sorted(sorted) && multiset(sorted) == multiset(qsos)
  {
    var a := new Qso[|qsos|](k requires 0 <= k < |qsos| => qsos[k]);
    assert a[..] == qsos;
    SortByStart(a);
    sorted := a[..];
  }

  /** A permutation of a list of timed QSOs holds only timed QSOs. */
  lemma PermutationTimed(s: seq<Qso>, t: seq<Qso>)
    requires multiset(t) == multiset(s) && forall q :: q in s ==> Timed(q)
    ensures forall q :: q in t ==> Timed(q)
  {
    forall q | q in t
      ensures Timed(q)
    {
      assert q in multiset(t);
    }
  }

  /** Every kept record has a numeric start, so every numbered QSO has one. */
  lemma NumberedTimed(outs: seq<Option<Qso>>)
    requires AllTimed(outs)
    ensures forall q :: q in Numbered(outs) ==> Timed(q)
  {
    NumberedFromKept(outs);
    forall q | q in Numbered(outs)
      ensures Timed(q)
    {
      var i :| 0 <= i < |Numbered(outs)| && Numbered(outs)[i] == q;
      assert Timed(outs[Kept(outs)[i]].value);
    }
  }

  /** The numbers of the sorted list are exactly 1..M, M the number of records that
      normalise, each carried by one QSO. */
  lemma NumbersOneToM(outs: seq<Option<Qso>>, t: seq<Qso>)
    requires multiset(t) == multiset(Numbered(outs))
    ensures |t| == |Kept(outs)|
    ensures forall q :: q in t ==> q.number.Some? && 1 <= NumberOf(q) <= |t|
    ensures forall n :: 1 <= n <= |t| ==> exists q :: q in t && q.number == Some(n)
  {
    var s := Numbered(outs);
    NumberedFromKept(outs);
    assert |t| == |multiset(t)| == |multiset(s)| == |s|;
    forall q | q in t
      ensures q.number.Some? && 1 <= NumberOf(q) <= |t|
    {
      assert q in multiset(s);
    }
    forall n | 1 <= n <= |t|
      ensures exists q :: q in t && q.number == Some(n)
    {
      assert s[n - 1] in multiset(t);
    }
  }

  /** Two QSOs of the numbered list with the same number are the same QSO. */
  predicate NumbersIdentify(s: seq<Qso>)
  {
    forall i, j :: 0 <= i < |s| && 0 <= j < |s| && NumberOf(s[i]) == NumberOf(s[j]) ==> s[i] == s[j]
  }

  /** The tie-break on `number` makes the order total: two sorted permutations of a list
      whose numbers identify its QSOs are equal, so the result does not depend on the
      sorting algorithm the engine uses. */
  lemma {:induction false} SortedPermutationUnique(s: seq<Qso>, t: seq<Qso>)
    requires Sorted(s) && Sorted(t) && multiset(s) == multiset(t) && NumbersIdentify(s)
    ensures s == t
    decreases |s|
  {
    assert |t| == |multiset(t)| == |multiset(s)| == |s|;
    if s != [] {
      SameHead(s, t);
      TailsPermuted(s, t);
      SortedTail(s);
      SortedTail(t);
      SortedPermutationUnique(s[1..], t[1..]);
      assert s == [s[0]] + s[1..] && t == [t[0]] + t[1..];
    }
  }

  /** Dropping the first QSO keeps a list sorted, and its numbers still identify it. */
  lemma SortedTail(s: seq<Qso>)
    requires s != [] && Sorted(s)
    ensures Sorted(s[1..])
    ensures NumbersIdentify(s) ==> NumbersIdentify(s[1..])
  {
    assert forall i :: 0 <= i < |s| - 1 ==> s[1..][i] == s[i + 1];
  }

  /** Both sorted lists start with the least QSO, which the number identifies. */
  lemma SameHead(s: seq<Qso>, t: seq<Qso>)
    requires s != [] && t != []
    requires Sorted(s) && Sorted(t) && multiset(s) == multiset(t) && NumbersIdentify(s)
    ensures s[0] == t[0]
  {
    assert t[0] in multiset(s);
    var m :| 0 <= m < |s| && s[m] == t[0];
    assert s[0] in multiset(t);
    var k :| 0 <= k < |t| && t[k] == s[0];
    assert Precedes(s[0], s[m]) || m == 0;
    assert Precedes(t[0], t[k]) || k == 0;
  }

  lemma TailsPermuted(s: seq<Qso>, t: seq<Qso>)
    requires s != [] && t != [] && s[0] == t[0] && multiset(s) == multiset(t)
    ensures multiset(s[1..]) == multiset(t[1..])
  {
    assert s == [s[0]] + s[1..] && t == [t[0]] + t[1..];
    assert multiset(s[1..]) == multiset(s) - multiset{s[0]};
    assert multiset(t[1..]) == multiset(t) - multiset{t[0]};
  }

  /** Any two sorted permutations of the numbered list are the same list. */
  lemma SortedOutputUnique(outs: seq<Option<Qso>>, t1: seq<Qso>, t2: seq<Qso>)
    requires Sorted(t1) && multiset(t1) == multiset(Numbered(outs))
    requires Sorted(t2) && multiset(t2) == multiset(Numbered(outs))
    ensures t1 == t2
  {
    var s := Numbered(outs);
    forall i, j | 0 <= i < |t1| && 0 <= j < |t1| && NumberOf(t1[i]) == NumberOf(t1[j])
      ensures t1[i] == t1[j]
    {
      assert t1[i] in multiset(s) && t1[j] in multiset(s);
      var a :| 0 <= a < |s| && s[a] == t1[i];
      var b :| 0 <= b < |s| && s[b] == t1[j];
    }
    SortedPermutationUnique(t1, t2);
  }
}
