/**
  Index arithmetic over a flat array of scalars grouped into items of
  `itemSize` components: where component `k` of item `index` lives, what
  writing a run of slots does, and how a list of vectors is laid out when it
  is flattened into the array.
 */
module Layout {

  /** The flat position of component `k` of item `index`. */
  function Slot(index: int, itemSize: int, k: int): (r: int)
    ensures index >= 0 && itemSize >= 1 && k >= 0 ==> r >= 0
  {
    index * itemSize + k
  }

  /**
    Components `0 .. itemSize - 1` of distinct items never share a slot: a
    write to one component of one item leaves every other component of every
    item alone.
   */
  lemma SlotsDistinct(i: nat, j: nat, itemSize: int, k1: int, k2: int)
    requires itemSize >= 1 && 0 <= k1 < itemSize && 0 <= k2 < itemSize
    ensures Slot(i, itemSize, k1) == Slot(j, itemSize, k2) <==> i == j && k1 == k2
  {
    if i < j {
      MulMonotone(itemSize, i + 1, j);
      assert Slot(i, itemSize, k1) < (i + 1) * itemSize <= j * itemSize <= Slot(j, itemSize, k2);
    } else if j < i {
      MulMonotone(itemSize, j + 1, i);
      assert Slot(j, itemSize, k2) < (j + 1) * itemSize <= i * itemSize <= Slot(i, itemSize, k1);
    }
  }

  /** `s` with `piece` written over the slots `at .. at + |piece|`. */
  function Splice<T>(s: seq<T>, at: nat, piece: seq<T>): (r: seq<T>)
    requires at + |piece| <= |s|
    ensures |r| == |s|
    ensures forall k :: 0 <= k < |piece| ==> r[at + k] == piece[k]
    ensures forall j :: 0 <= j < |s| && !(at <= j < at + |piece|) ==> r[j] == s[j]
  {
    s[..at] + piece + s[at + |piece|..]
  }

  /** Slot `at + k` of a splice holds `piece[k]`. */
  lemma SpliceAt<T>(s: seq<T>, at: nat, piece: seq<T>, k: nat)
    requires at + |piece| <= |s| && k < |piece|
    ensures Splice(s, at, piece)[at + k] == piece[k]
  {
  }

  /** Slots outside `at .. at + |piece|` keep their contents. */
  lemma SpliceOutside<T>(s: seq<T>, at: nat, piece: seq<T>, j: nat)
    requires at + |piece| <= |s| && j < |s| && !(at <= j < at + |piece|)
    ensures Splice(s, at, piece)[j] == s[j]
  {
  }

  /**
    While a run of `width` slots is written one slot at a time from a run
    that is the same run or disjoint from it, the next slot to read still
    holds its old contents.
   */
  lemma SpliceUnread<T>(s: seq<T>, at: nat, from: nat, width: nat, done: seq<T>)
    requires at + width <= |s| && from + width <= |s| && |done| < width
    requires from == at || from + width <= at || at + width <= from
    ensures Splice(s, at, done)[from + |done|] == s[from + |done|]
  {
    SpliceOutside(s, at, done, from + |done|);
  }

  /** A sequence that agrees with `piece` on the spliced slots and with `s` elsewhere is the splice. */
  lemma SpliceUnique<T>(s: seq<T>, at: nat, piece: seq<T>, r: seq<T>)
    requires at + |piece| <= |s| && |r| == |s|
    requires forall k :: 0 <= k < |piece| ==> r[at + k] == piece[k]
    requires forall j :: 0 <= j < |s| && !(at <= j < at + |piece|) ==> r[j] == s[j]
    ensures r == Splice(s, at, piece)
  {
    var t := Splice(s, at, piece);
    forall j | 0 <= j < |s|
      ensures r[j] == t[j]
    {
      if at <= j < at + |piece| {
        assert r[at + (j - at)] == piece[j - at];
      }
    }
  }

  /** Writing the next slot of a partial splice extends it by one. */
  lemma SpliceExtend<T>(s: seq<T>, at: nat, piece: seq<T>, i: nat)
    requires i < |piece| && at + |piece| <= |s|
    ensures Splice(s, at, piece[..i])[at + i := piece[i]] == Splice(s, at, piece[..i + 1])
  {
    SpliceUnique(s, at, piece[..i + 1], Splice(s, at, piece[..i])[at + i := piece[i]]);
  }

  /** Every row has exactly `width` entries. */
  ghost predicate Uniform<T>(rows: seq<seq<T>>, width: nat)
  {
    forall i :: 0 <= i < |rows| ==> |rows[i]| == width
  }

  /** The rows written one after the other, as `copyVectorNsArray` lays them out. */
  function Flatten<T>(rows: seq<seq<T>>): seq<T>
  {
    if rows == [] then [] else Flatten(rows[..|rows| - 1]) + rows[|rows| - 1]
  }

  /** Flattening rows of one width gives `width` scalars per row. */
  lemma {:induction false} FlattenLength<T>(rows: seq<seq<T>>, width: nat)
    requires Uniform(rows, width)
    ensures |Flatten(rows)| == width * |rows|
  {
    if rows != [] {
      var n := |rows|;
      FlattenLength(rows[..n - 1], width);
      assert width * n == width * (n - 1) + width;
    }
  }

  /** Component `k` of row `i` lands at flat position `width * i + k`. */
  lemma {:induction false} FlattenAt<T>(rows: seq<seq<T>>, width: nat, i: int, k: int)
    requires Uniform(rows, width)
    requires 0 <= i < |rows| && 0 <= k < width
    ensures |Flatten(rows)| == width * |rows|
    ensures width * i + k < |Flatten(rows)|
    ensures Flatten(rows)[width * i + k] == rows[i][k]
  {
    var n := |rows|;
    var init := rows[..n - 1];
    FlattenLength(rows, width);
    FlattenLength(init, width);
    assert Flatten(rows) == Flatten(init) + rows[n - 1];
    if i < n - 1 {
      FlattenAt(init, width, i, k);
      assert width * i + k < width * (i + 1) <= width * (n - 1) by {
        MulMonotone(width, i + 1, n - 1);
      }
    } else {
      assert width * i == width * (n - 1);
    }
  }

  /** Flattening one more row appends that row. */
  lemma FlattenSnoc<T>(rows: seq<seq<T>>, row: seq<T>)
    ensures Flatten(rows + [row]) == Flatten(rows) + row
  {
    assert (rows + [row])[..|rows|] == rows;
  }

  /** Flattening two lists of rows one after the other is flattening their concatenation. */
  lemma {:induction false} FlattenAppend<T>(rows: seq<seq<T>>, more: seq<seq<T>>)
    ensures Flatten(rows + more) == Flatten(rows) + Flatten(more)
    decreases |more|
  {
    if more != [] {
      var init, last := more[..|more| - 1], more[|more| - 1];
      assert more == init + [last];
      assert rows + more == (rows + init) + [last];
      FlattenSnoc(rows + init, last);
      FlattenSnoc(init, last);
      FlattenAppend(rows, init);
    } else {
      assert rows + more == rows;
    }
  }

  /**
    Once row `i` has been written over the slots after the first `i` rows,
    the first `i + 1` rows are in place.
   */
  lemma RowWritten<T>(rows: seq<seq<T>>, width: nat, i: nat, rest: seq<T>, before: seq<T>, after: seq<T>)
    requires Uniform(rows, width) && i < |rows| && width <= |rest|
    requires before == Flatten(rows[..i]) + rest
    requires |after| == |before| && width * i + width <= |before|
    requires forall k :: 0 <= k < width ==> after[width * i + k] == rows[i][k]
    requires forall j :: 0 <= j < |before| && !(width * i <= j < width * i + width) ==> after[j] == before[j]
    ensures after == Flatten(rows[..i + 1]) + rest[width..]
  {
    FlattenLength(rows[..i], width);
    assert rows[..i + 1] == rows[..i] + [rows[i]];
    FlattenSnoc(rows[..i], rows[i]);
    var done := Flatten(rows[..i]);
    forall j | 0 <= j < |after|
      ensures after[j] == (done + rows[i] + rest[width..])[j]
    {
      if j >= width * i + width {
        assert after[j] == rest[j - |done|];
      }
    }
  }

  lemma MulMonotone(w: nat, a: nat, b: nat)
    requires a <= b
    ensures w * a <= w * b
  {
  }
}
