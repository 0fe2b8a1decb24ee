/** The prediction history kept in the session (`st.session_state.history`):
    a list of records that predictions append to, that the history page shows
    sorted by probability, and that a row's delete button or the clear button
    shrinks. */
module History {
  import opened Wrappers

  /** One history entry, with the keys the app writes: Nama, Probabilitas, Status. */
  datatype Record = Record(nama: string, probabilitas: real, status: string)

  /** Python's `list.pop(i)` raises IndexError outside -len..len-1. */
  datatype Error = IndexError(index: int, length: nat)

  /** `history.append(record)`: the record lands at the end and nothing before it changes. */
  function Append(h: seq<Record>, r: Record): (h': seq<Record>)
    ensures |h'| == |h| + 1
    ensures h'[..|h|] == h
    ensures h'[|h|] == r
  {
    h + [r]
  }

  /** The list with position `i` left out. */
  function RemoveAt(h: seq<Record>, i: nat): (r: seq<Record>)
    requires i < |h|
    ensures |r| == |h| - 1
    ensures forall j :: 0 <= j < |r| ==> r[j] == if j < i then h[j] else h[j + 1]
    ensures multiset(r) + multiset{h[i]} == multiset(h)
  {
    assert h == h[..i] + [h[i]] + h[i + 1..];
    h[..i] + h[i + 1..]
  }

  /** The position a Python index names in a list of length `n`. */
  function Normalize(n: nat, i: int): int {
    if i < 0 then n + i else i
  }

  /** `history.pop(i)`: removes the element at `i` (counted from the end when
      negative) and keeps the rest in order; an index out of range is an IndexError. */
  function Pop(h: seq<Record>, i: int): (r: Result<seq<Record>, Error>)
    ensures r.Success? <==> -|h| <= i < |h|
    ensures r.Failure? ==> r.error == IndexError(i, |h|)
    ensures r.Success? ==> |r.value| == |h| - 1
    ensures r.Success? ==> 0 <= Normalize(|h|, i) < |h|
    ensures r.Success? ==> multiset(r.value) + multiset{h[Normalize(|h|, i)]} == multiset(h)
    ensures r.Success? ==> forall j :: 0 <= j < |r.value| ==>
      r.value[j] == if j < Normalize(|h|, i) then h[j] else h[j + 1]
  {
    if 0 <= i < |h| then Success(RemoveAt(h, i))
    else if -|h| <= i < 0 then Success(RemoveAt(h, |h| + i))
    else Failure(IndexError(i, |h|))
  }

  /** Inserting the popped element back at its position restores the list, and
      every other element keeps its relative order. */
  lemma PopThenInsertRestores(h: seq<Record>, i: nat)
    requires i < |h|
    ensures Pop(h, i).Success?
    ensures Pop(h, i).value[..i] + [h[i]] + Pop(h, i).value[i..] == h
    ensures forall j :: 0 <= j < i ==> Pop(h, i).value[j] == h[j]
    ensures forall j :: i <= j < |h| - 1 ==> Pop(h, i).value[j] == h[j + 1]
  {
    var rest := Pop(h, i).value;
    assert rest[..i] == h[..i];
    assert rest[i..] == h[i + 1..];
    assert h == h[..i] + [h[i]] + h[i + 1..];
  }

  /** Popping the last entry, by its index or by -1, undoes an append. */
  lemma {:induction false} PopUndoesAppend(h: seq<Record>, r: Record)
    ensures Pop(Append(h, r), |h|) == Success(h)
    ensures Pop(Append(h, r), -1) == Success(h)
  {
    assert RemoveAt(h + [r], |h|) == h;
  }

  /** `history = []`: nothing is left, whatever was there. */
  function Clear(h: seq<Record>): (h': seq<Record>)
    ensures |h'| == 0
  {
    []
  }

  /** Records in non-increasing order of probability. */
  predicate IsDescending(v: seq<Record>) {
    forall j, k :: 0 <= j < k < |v| ==> v[j].probabilitas >= v[k].probabilitas
  }

  /** Records in strictly decreasing order of probability. */
  predicate IsStrictlyDescending(v: seq<Record>) {
    forall j, k :: 0 <= j < k < |v| ==> v[j].probabilitas > v[k].probabilitas
  }

  /** What the history page may list: `sort_values(by="Probabilitas",
      ascending=False).reset_index(drop=True)`, the same records sorted by
      probability, highest first, and numbered from 0. The sort is not stable,
      so any order of equal probabilities qualifies. */
  predicate IsDisplayView(h: seq<Record>, v: seq<Record>) {
    |v| == |h| && multiset(v) == multiset(h) && IsDescending(v)
  }

  /** Places one record into a descending list. */
  function InsertDescending(x: Record, v: seq<Record>): (r: seq<Record>)
    requires IsDescending(v)
    ensures IsDescending(r)
    ensures multiset(r) == multiset(v) + multiset{x}
    ensures |r| == |v| + 1
    ensures r[0] == x || (|v| > 0 && r[0] == v[0])
    decreases |v|
  {
    if |v| == 0 then [x]
    else if x.probabilitas >= v[0].probabilitas then [x] + v
    else
      var rest := InsertDescending(x, v[1..]);
      assert v == [v[0]] + v[1..];
      [v[0]] + rest
  }

  /** One display order for a history, by insertion sort. */
  function SortDescending(h: seq<Record>): (v: seq<Record>)
    ensures IsDisplayView(h, v)
    decreases |h|
  {
    if |h| == 0 then []
    else
      assert h == [h[0]] + h[1..];
      InsertDescending(h[0], SortDescending(h[1..]))
  }

  /** Removing one occurrence of `a` or of `b` from a multiset holding both
      gives the same multiset only when `a` and `b` are the same. */
  lemma RemoveOneInjective(m: multiset<Record>, a: Record, b: Record)
    requires a in m && b in m
    ensures m - multiset{a} == m - multiset{b} <==> a == b
  {
    if a != b {
      assert (m - multiset{a})[a] == m[a] - 1;
      assert (m - multiset{b})[a] == m[a];
    }
  }

  /** The delete button of row `i` calls `pop(i)` on the unsorted list, so it
      removes `h[i]`; it removes the record shown in row `i` exactly when that
      record is also at position `i` of the unsorted list. */
  lemma DeleteRemovesShownRowIff(h: seq<Record>, v: seq<Record>, i: nat)
    requires IsDisplayView(h, v)
    requires i < |h|
    ensures Pop(h, i).Success?
    ensures multiset(Pop(h, i).value) == multiset(h) - multiset{h[i]}
    ensures multiset(Pop(h, i).value) == multiset(h) - multiset{v[i]} <==> h[i] == v[i]
  {
    assert v[i] in multiset(h) by { assert v[i] in multiset(v); }
    assert h[i] in multiset(h);
    RemoveOneInjective(multiset(h), h[i], v[i]);
  }

  /** A concrete case: "A" at 40% was predicted before "B" at 90%. The page
      shows B in row 0, yet row 0's delete button removes A. */
  lemma DeleteCanRemoveAnotherRow()
    ensures
      var a := Record("A", 40.0, "Tidak Diterima");
      var b := Record("B", 90.0, "Diterima");
      && IsDisplayView([a, b], [b, a])
      && Pop([a, b], 0) == Success([b])
  {
    var a := Record("A", 40.0, "Tidak Diterima");
    var b := Record("B", 90.0, "Diterima");
    assert multiset([b, a]) == multiset([a, b]);
    assert RemoveAt([a, b], 0) == [b];
  }

  /** A descending list and a strictly descending list with the same records
      start with the same record. */
  lemma FrontsAgree(h: seq<Record>, v: seq<Record>)
    requires IsStrictlyDescending(h)
    requires IsDisplayView(h, v)
    requires |h| > 0
    ensures v[0] == h[0]
  {
    assert h[0] in multiset(v);
    var j :| 0 <= j < |v| && v[j] == h[0];
    assert v[0] in multiset(h);
    var m :| 0 <= m < |h| && h[m] == v[0];
    assert v[0].probabilitas >= v[j].probabilitas;
    assert m == 0;
  }

  /** The records after the first of a non-empty list. */
  lemma TailMultiset(s: seq<Record>)
    requires |s| > 0
    ensures multiset(s[1..]) == multiset(s) - multiset{s[0]}
  {
    assert s == [s[0]] + s[1..];
  }

  /** A strictly descending list has exactly one descending arrangement: any
      descending list with the same records is that list. */
  lemma {:induction false} DisplayViewOfStrictlySorted(h: seq<Record>, v: seq<Record>)
    requires IsStrictlyDescending(h)
    requires IsDisplayView(h, v)
    ensures v == h
    decreases |h|
  {
    if |h| > 0 {
      FrontsAgree(h, v);
      TailMultiset(h);
      TailMultiset(v);
      DisplayViewOfStrictlySorted(h[1..], v[1..]);
      assert h == [h[0]] + h[1..];
      assert v == [v[0]] + v[1..];
    }
  }

  /** When the history happens to be strictly sorted by probability already,
      the page shows it as it is, and every delete button removes its own row. */
  lemma DeleteIsRightOnStrictlySortedHistory(h: seq<Record>, v: seq<Record>, i: nat)
    requires IsStrictlyDescending(h)
    requires IsDisplayView(h, v)
    requires i < |h|
    ensures Pop(h, i).Success?
    ensures multiset(Pop(h, i).value) == multiset(h) - multiset{v[i]}
  {
    DisplayViewOfStrictlySorted(h, v);
    DeleteRemovesShownRowIff(h, v, i);
  }
}
