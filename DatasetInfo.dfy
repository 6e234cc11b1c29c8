/**
 * The class partition of `print_dataset_info`: the rows of `x` are split into first-class rows
 * (label 0) and second-class rows (label 1) by looking up each row's index among the indices of
 * `y` carrying that label. Rows with any other label, or without a label, are dropped.
 */
module DatasetInfo {
  import opened Wrappers
  import opened Seqs
  import opened Brainflow
  import opened DatasetBuilder
  import opened DatasetProperties

  /** The rows `x[i]` with `y[i] == v`, in order of `i`; indices past either list are ignored. */
  function RowsLabelled<T>(x: seq<T>, y: seq<int>, v: int): (rows: seq<T>)
    ensures |rows| <= |x|
    decreases |x|
  {
    if x == [] || y == [] then []
    else (if y[0] == v then [x[0]] else []) + RowsLabelled(x[1..], y[1..], v)
  }

  lemma {:induction false} RowsLabelledSnoc<T>(x: seq<T>, e: T, y: seq<int>, v: int)
    ensures RowsLabelled(x + [e], y, v)
         == RowsLabelled(x, y, v) + (if |x| < |y| && y[|x|] == v then [e] else [])
    decreases |x|
  {
    if x == [] {
      if y != [] {
        assert [e][1..] == [];
      }
    } else if y != [] {
      var head := if y[0] == v then [x[0]] else [];
      assert (x + [e])[0] == x[0];
      assert (x + [e])[1..] == x[1..] + [e];
      RowsLabelledSnoc(x[1..], e, y[1..], v);
      if |x| < |y| {
        assert y[1..][|x[1..]|] == y[|x|];
      }
      AppendAssociative(head, RowsLabelled(x[1..], y[1..], v), if |x| < |y| && y[|x|] == v then [e] else []);
    }
  }

  /**
   * The partition loop of `print_dataset_info`: `first_class_ids` and `second_class_ids` hold
   * the indices of the labels 0 and 1, and each row goes to the first list if its index is
   * among the first ids, else to the second list if it is among the second ids.
   */
  method SplitByClass<T>(x: seq<T>, y: seq<int>) returns (xFirstClass: seq<T>, xSecondClass: seq<T>)
    ensures xFirstClass == RowsLabelled(x, y, 0)
    ensures xSecondClass == RowsLabelled(x, y, 1)
  {
    var firstClassIds := set i | 0 <= i < |y| && y[i] == 0;
    var secondClassIds := set i | 0 <= i < |y| && y[i] == 1;
    xFirstClass, xSecondClass := [], [];
    for i := 0 to |x|
      invariant xFirstClass == RowsLabelled(x[..i], y, 0)
      invariant xSecondClass == RowsLabelled(x[..i], y, 1)
    {
      assert x[..i + 1] == x[..i] + [x[i]];
      RowsLabelledSnoc(x[..i], x[i], y, 0);
      RowsLabelledSnoc(x[..i], x[i], y, 1);
      if i in firstClassIds {
        xFirstClass := xFirstClass + [x[i]];
      } else if i in secondClassIds {
        xSecondClass := xSecondClass + [x[i]];
      }
    }
    assert x[..|x|] == x;
  }

  /** With one label per row, the rows labelled `v` are as many as the labels equal to `v`. */
  lemma {:induction false} RowsLabelledCount<T>(x: seq<T>, y: seq<int>, v: int)
    requires |x| == |y|
    ensures |RowsLabelled(x, y, v)| == Count(y, v)
    decreases |x|
  {
    if x != [] {
      RowsLabelledCount(x[1..], y[1..], v);
    }
  }

  /**
   * With one label per row and every label 0 or 1, no row is dropped: the two lists together
   * are as long as `x`.
   */
  lemma NothingDropped<T>(x: seq<T>, y: seq<int>)
    requires |x| == |y|
    requires forall i :: 0 <= i < |y| ==> y[i] == 0 || y[i] == 1
    ensures |RowsLabelled(x, y, 0)| + |RowsLabelled(x, y, 1)| == |x|
  {
    RowsLabelledCount(x, y, 0);
    RowsLabelledCount(x, y, 1);
    BinaryCountsCoverAll(y);
  }

  /** The partition of two labelled blocks is the partition of each block, in order. */
  lemma {:induction false} RowsLabelledAppend<T>(xa: seq<T>, ya: seq<int>, xb: seq<T>, yb: seq<int>, v: int)
    requires |xa| == |ya|
    ensures RowsLabelled(xa + xb, ya + yb, v) == RowsLabelled(xa, ya, v) + RowsLabelled(xb, yb, v)
    decreases |xa|
  {
    if xa == [] {
      assert xa + xb == xb && ya + yb == yb;
    } else {
      assert (xa + xb)[1..] == xa[1..] + xb;
      assert (ya + yb)[1..] == ya[1..] + yb;
      RowsLabelledAppend(xa[1..], ya[1..], xb, yb, v);
    }
  }

  /** A block whose labels are all `v` goes whole to the `v` list and contributes nothing to another. */
  lemma {:induction false} RowsLabelledConstant<T>(x: seq<T>, y: seq<int>, v: int, w: int)
    requires |x| == |y|
    requires forall i :: 0 <= i < |y| ==> y[i] == v
    ensures RowsLabelled(x, y, v) == x
    ensures w != v ==> RowsLabelled(x, y, w) == []
    decreases |x|
  {
    if x != [] {
      RowsLabelledConstant(x[1..], y[1..], v, w);
    }
  }

  /** A run of rows labelled 0 followed by a run labelled 1 splits at the boundary of the runs. */
  lemma TwoRunPartition<T>(x: seq<T>, y: seq<int>, k: nat)
    requires |x| == |y| && k <= |y|
    requires forall i :: 0 <= i < k ==> y[i] == 0
    requires forall i :: k <= i < |y| ==> y[i] == 1
    ensures RowsLabelled(x, y, 0) == x[..k]
    ensures RowsLabelled(x, y, 1) == x[k..]
  {
    assert x == x[..k] + x[k..];
    assert y == y[..k] + y[k..];
    RowsLabelledAppend(x[..k], y[..k], x[k..], y[k..], 0);
    RowsLabelledAppend(x[..k], y[..k], x[k..], y[k..], 1);
    RowsLabelledConstant(x[..k], y[..k], 0, 1);
    RowsLabelledConstant(x[k..], y[k..], 1, 0);
  }

  /**
   * On the dataset `prepare_data` builds from two distinct classes, the partition recovers the
   * two classes' feature vectors: the first list is `x` up to the end of the first class's
   * samples and the second list is the rest.
   */
  lemma PartitionRecoversClasses(firstClass: string, secondClass: string, dirs: map<string, seq<FileEntry>>,
                                 boardId: Option<int>, shim: BoardShim, blacklisted: Option<set<string>>, reduce: Reducer,
                                 x: seq<Features>, y: seq<int>)
    requires firstClass in dirs && secondClass in dirs && firstClass != secondClass
    requires Aligned(x, y, PreparedSamples(firstClass, secondClass, dirs, boardId, shim, blacklisted, reduce).value)
    ensures var k := |ClassSamples(dirs[firstClass], boardId, shim, blacklisted, reduce, 0)|;
            k <= |x|
            && RowsLabelled(x, y, 0) == x[..k]
            && RowsLabelled(x, y, 1) == x[k..]
  {
    LabelsFollowClasses(firstClass, secondClass, dirs, boardId, shim, blacklisted, reduce);
    TwoRunPartition(x, y, |ClassSamples(dirs[firstClass], boardId, shim, blacklisted, reduce, 0)|);
  }
}
