/**
 * Checkbox-style selection shared by the destination page, the attraction
 * selector and the trip brief's goal picker: clicking an entry appends it
 * when absent and removes it when present; confirming keeps the offered
 * entries that are selected, in the order they are offered.
 */
module Selection {
  import opened Seqs

  /** `prev.includes(x) ? prev.filter(y => y !== x) : [...prev, x]`. */
  function Toggle<T(==,!new)>(sel: seq<T>, x: T): (r: seq<T>)
    ensures x in r <==> x !in sel
    ensures forall y :: y != x ==> (y in r <==> y in sel)
    ensures x !in sel ==> r == sel + [x]
    ensures x in sel ==> |r| < |sel|
  {
    if x in sel then Filter(sel, y => y != x) else sel + [x]
  }

  /** The test "is not `x`". */
  function Except<T(==)>(x: T): T -> bool {
    y => y != x
  }

  /** Toggling never reorders the other entries. */
  lemma {:induction false} ToggleKeepsOthersInOrder<T(!new)>(sel: seq<T>, x: T)
    ensures Filter(Toggle(sel, x), Except(x)) == Filter(sel, Except(x))
  {
    var p := Except(x);
    assert Toggle(sel, x) == if x in sel then Filter(sel, p) else sel + [x];
    if x in sel {
      var once := Filter(sel, p);
      assert forall i :: 0 <= i < |once| ==> p(once[i]);
    } else {
      FilterAppend(sel, [x], p);
      assert Filter([x], p) == [];
    }
  }

  /** Clicking an unselected entry twice leaves the selection as it was. */
  lemma {:induction false} ToggleTwice<T(!new)>(sel: seq<T>, x: T)
    requires x !in sel
    ensures Toggle(Toggle(sel, x), x) == sel
  {
    var p := (y: T) => y != x;
    FilterAppend(sel, [x], p);
    assert Filter([x], p) == [];
    assert forall i :: 0 <= i < |sel| ==> p(sel[i]);
  }

  /** A selection built by toggling never holds an entry twice. */
  lemma {:induction false} ToggleKeepsNoDuplicates<T(!new)>(sel: seq<T>, x: T)
    requires NoDuplicates(sel)
    ensures NoDuplicates(Toggle(sel, x))
  {
    if x in sel {
      var p := (y: T) => y != x;
      FilterIsSubsequence(sel, p);
      SubsequenceNoDuplicates(Filter(sel, p), sel);
    }
  }

  lemma {:induction false} SubsequenceNoDuplicates<T>(a: seq<T>, b: seq<T>)
    requires IsSubsequence(a, b) && NoDuplicates(b)
    ensures NoDuplicates(a)
    decreases |b|
  {
    if |a| > 0 {
      assert |b| > 0;
      if a[0] == b[0] {
        SubsequenceNoDuplicates(a[1..], b[1..]);
        SubsequenceElements(a[1..], b[1..]);
        assert forall j :: 1 <= j < |a| ==> a[j] == a[1..][j - 1];
      } else {
        SubsequenceNoDuplicates(a, b[1..]);
      }
    }
  }

  lemma {:induction false} SubsequenceElements<T>(a: seq<T>, b: seq<T>)
    requires IsSubsequence(a, b)
    ensures forall i :: 0 <= i < |a| ==> a[i] in b
    decreases |b|
  {
    if |a| > 0 {
      if a[0] == b[0] {
        SubsequenceElements(a[1..], b[1..]);
        assert forall i :: 1 <= i < |a| ==> a[i] == a[1..][i - 1];
      } else {
        SubsequenceElements(a, b[1..]);
      }
    }
  }

  /** Whether an offered entry's id is among the selected ones. */
  function IsSelected<A, K(==)>(idOf: A -> K, sel: seq<K>): A -> bool {
    a => idOf(a) in sel
  }

  /** `offered.filter(a => sel.includes(idOf(a)))`: the selected entries, in offered order. */
  function Confirmed<A(==,!new), K(==)>(offered: seq<A>, idOf: A -> K, sel: seq<K>): (r: seq<A>)
    ensures forall a :: a in r <==> a in offered && idOf(a) in sel
    ensures |sel| == 0 ==> r == []
    ensures |r| == Count(offered, IsSelected(idOf, sel))
  {
    FilterLength(offered, IsSelected(idOf, sel));
    Filter(offered, IsSelected(idOf, sel))
  }

  /** What is confirmed appears in the same relative order as it was offered. */
  lemma ConfirmedInOfferedOrder<A(!new), K>(offered: seq<A>, idOf: A -> K, sel: seq<K>)
    ensures IsSubsequence(Confirmed(offered, idOf, sel), offered)
  {
    FilterIsSubsequence(offered, IsSelected(idOf, sel));
  }
}
