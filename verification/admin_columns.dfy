/** The list-table columns the admin adds to the products screen: a weight
    column before `sku`, and a dimensions column after the weight column.
    A column set is a PHP ordered array: a sequence of (key, label) pairs
    whose keys are distinct. */
module AdminColumns {

  type Column = (string, string)

  const PesoColumn: Column := ("peso_produto", "Peso")
  const DimensoesColumn: Column := ("dimensoes_produto", "Dimensões")

  /** The keys of a column list. */
  function Keys(cols: seq<Column>): set<string>
    decreases |cols|
  {
    if cols == [] then {} else {cols[0].0} + Keys(cols[1..])
  }

  lemma {:induction false} KeysAppend(a: seq<Column>, b: seq<Column>)
    ensures Keys(a + b) == Keys(a) + Keys(b)
    decreases |a|
  {
    if a == [] {
      assert a + b == b;
    } else {
      assert (a + b)[1..] == a[1..] + b;
      KeysAppend(a[1..], b);
    }
  }

  lemma {:induction false} KeysAt(cols: seq<Column>)
    ensures forall j :: 0 <= j < |cols| ==> cols[j].0 in Keys(cols)
    decreases |cols|
  {
    if cols != [] {
      KeysAt(cols[1..]);
      assert forall j :: 1 <= j < |cols| ==> cols[j] == cols[1..][j - 1];
    }
  }

  lemma KeyAt(cols: seq<Column>, i: int)
    requires 0 <= i < |cols|
    ensures cols[i].0 in Keys(cols)
  {
    KeysAt(cols);
  }

  /** Every key occurs once, as in any PHP array. */
  predicate UniqueKeys(cols: seq<Column>) {
    forall i, j :: 0 <= i < j < |cols| ==> cols[i].0 != cols[j].0
  }

  /** The position of a key, or -1 when it is absent. */
  function IndexOfKey(cols: seq<Column>, k: string): (i: int)
    ensures -1 <= i < |cols|
    ensures i >= 0 ==> cols[i].0 == k && forall j :: 0 <= j < i ==> cols[j].0 != k
    ensures i == -1 <==> k !in Keys(cols)
    decreases |cols|
  {
    if cols == [] then -1
    else if cols[0].0 == k then 0
    else
      var i := IndexOfKey(cols[1..], k);
      if i == -1 then -1 else i + 1
  }

  /** Appending a key the list does not have keeps the keys distinct. */
  lemma AppendFresh(cols: seq<Column>, c: Column)
    requires UniqueKeys(cols) && c.0 !in Keys(cols)
    ensures UniqueKeys(cols + [c]) && Keys(cols + [c]) == Keys(cols) + {c.0}
  {
    KeysAt(cols);
    KeysAppend(cols, [c]);
    assert Keys([c]) == {c.0};
  }

  /** Relabelling an entry keeps the keys. */
  lemma {:induction false} KeysRelabel(cols: seq<Column>, i: int, v: string)
    requires 0 <= i < |cols|
    ensures Keys(cols[i := (cols[i].0, v)]) == Keys(cols)
    decreases |cols|
  {
    if i > 0 {
      KeysRelabel(cols[1..], i - 1, v);
      assert cols[i := (cols[i].0, v)][1..] == cols[1..][i - 1 := (cols[i].0, v)];
    }
  }

  /** `$cols[$k] = $v`: an existing key keeps its place and takes the new
      label; a new key goes at the end. */
  function Assign(cols: seq<Column>, k: string, v: string): (r: seq<Column>)
    requires UniqueKeys(cols)
    ensures Keys(r) == Keys(cols) + {k}
    ensures UniqueKeys(r)
    ensures k !in Keys(cols) ==> r == cols + [(k, v)]
    ensures k in Keys(cols) ==> |r| == |cols| && r[IndexOfKey(cols, k)] == (k, v)
  {
    var i := IndexOfKey(cols, k);
    if i < 0 then
      AppendFresh(cols, (k, v));
      cols + [(k, v)]
    else
      KeysRelabel(cols, i, v);
      cols[i := (k, v)]
  }

  /** The reference result of inserting col right before the anchor key,
      or at the end when there is no anchor. */
  function InsertedBefore(cols: seq<Column>, anchor: string, col: Column): seq<Column> {
    var i := IndexOfKey(cols, anchor);
    if i < 0 then cols + [col] else cols[..i] + [col] + cols[i..]
  }

  /** The reference result of inserting col right after the anchor key;
      nothing is inserted when there is no anchor. */
  function InsertedAfter(cols: seq<Column>, anchor: string, col: Column): seq<Column> {
    var i := IndexOfKey(cols, anchor);
    if i < 0 then cols else cols[..i + 1] + [col] + cols[i + 1..]
  }

  /** The columns with every entry of one key removed. */
  function Without(cols: seq<Column>, k: string): seq<Column>
    decreases |cols|
  {
    if cols == [] then []
    else if cols[0].0 == k then Without(cols[1..], k)
    else [cols[0]] + Without(cols[1..], k)
  }

  lemma {:induction false} WithoutAbsent(cols: seq<Column>, k: string)
    requires k !in Keys(cols)
    ensures Without(cols, k) == cols
    decreases |cols|
  {
    if cols != [] {
      WithoutAbsent(cols[1..], k);
    }
  }

  lemma {:induction false} WithoutAppend(a: seq<Column>, b: seq<Column>, k: string)
    ensures Without(a + b, k) == Without(a, k) + Without(b, k)
    decreases |a|
  {
    if a != [] {
      assert (a + b)[1..] == a[1..] + b;
      WithoutAppend(a[1..], b, k);
    } else {
      assert a + b == b;
    }
  }

  /** Removing a column that a list lacks from the list with it spliced in
      gives the list back. */
  lemma WithoutSplice(a: seq<Column>, b: seq<Column>, col: Column)
    requires col.0 !in Keys(a) && col.0 !in Keys(b)
    ensures Without(a + [col] + b, col.0) == a + b
  {
    assert Without([col], col.0) == [];
    WithoutAppend(a + [col], b, col.0);
    WithoutAppend(a, [col], col.0);
    WithoutAbsent(a, col.0);
    WithoutAbsent(b, col.0);
  }

  /** Both halves of a split list only hold keys of the list. */
  lemma KeysSplit(cols: seq<Column>, n: int)
    requires 0 <= n <= |cols|
    ensures Keys(cols[..n]) <= Keys(cols) && Keys(cols[n..]) <= Keys(cols)
  {
    assert cols == cols[..n] + cols[n..];
    KeysAppend(cols[..n], cols[n..]);
  }

  /** Splicing a column with a fresh key in at position n of a list, then
      removing that key, gives the list back. */
  lemma SpliceAt(cols: seq<Column>, n: int, col: Column)
    requires 0 <= n <= |cols| && col.0 !in Keys(cols)
    ensures Without(cols[..n] + [col] + cols[n..], col.0) == cols
  {
    var a, b := cols[..n], cols[n..];
    assert a + b == cols;
    KeysSplit(cols, n);
    WithoutSplice(a, b, col);
  }

  /** Where the spliced column and its neighbours sit. */
  lemma SpliceIndex(cols: seq<Column>, n: int, col: Column)
    requires 0 <= n <= |cols|
    ensures var r := cols[..n] + [col] + cols[n..];
      |r| == |cols| + 1 && r[n] == col
      && (0 < n ==> r[n - 1] == cols[n - 1])
      && (n < |cols| ==> r[n + 1] == cols[n])
  {
  }

  /** A list with col spliced in at n grows by the next column. */
  lemma SpliceGrow(cols: seq<Column>, n: int, i: int, col: Column)
    requires 0 <= n <= i < |cols|
    ensures cols[..n] + [col] + cols[n..i] + [cols[i]] == cols[..n] + [col] + cols[n..i + 1]
  {
    assert cols[n..i + 1] == cols[n..i] + [cols[i]];
  }

  /** Inserting a new column before an anchor that is there keeps every
      other column in its original order and puts the new column right
      before the anchor. */
  lemma InsertedBeforeShape(cols: seq<Column>, anchor: string, col: Column)
    requires col.0 !in Keys(cols) && anchor in Keys(cols)
    ensures Without(InsertedBefore(cols, anchor, col), col.0) == cols
    ensures |InsertedBefore(cols, anchor, col)| == |cols| + 1
    ensures var i := IndexOfKey(cols, anchor);
      InsertedBefore(cols, anchor, col)[i] == col && InsertedBefore(cols, anchor, col)[i + 1].0 == anchor
  {
    var i := IndexOfKey(cols, anchor);
    SpliceAt(cols, i, col);
    SpliceIndex(cols, i, col);
  }

  /** Without the anchor, the new column goes last and the others keep
      their order. */
  lemma InsertedBeforeEnd(cols: seq<Column>, anchor: string, col: Column)
    requires col.0 !in Keys(cols) && anchor !in Keys(cols)
    ensures Without(InsertedBefore(cols, anchor, col), col.0) == cols
    ensures InsertedBefore(cols, anchor, col) == cols + [col]
  {
    assert cols + [col] + [] == cols + [col];
    WithoutSplice(cols, [], col);
  }

  /** Inserting after an anchor that is there: every other column keeps its
      order and the new column follows the anchor immediately. */
  lemma InsertedAfterShape(cols: seq<Column>, anchor: string, col: Column)
    requires col.0 !in Keys(cols) && anchor in Keys(cols)
    ensures Without(InsertedAfter(cols, anchor, col), col.0) == cols
    ensures |InsertedAfter(cols, anchor, col)| == |cols| + 1
    ensures var i := IndexOfKey(cols, anchor);
      InsertedAfter(cols, anchor, col)[i].0 == anchor && InsertedAfter(cols, anchor, col)[i + 1] == col
  {
    var i := IndexOfKey(cols, anchor);
    SpliceAt(cols, i + 1, col);
    SpliceIndex(cols, i + 1, col);
  }

  /** The keys of a prefix grow by one entry at a time. */
  lemma KeysPrefixStep(cols: seq<Column>, i: int)
    requires 0 <= i < |cols|
    ensures Keys(cols[..i + 1]) == Keys(cols[..i]) + {cols[i].0}
  {
    assert cols[..i + 1] == cols[..i] + [cols[i]];
    KeysAppend(cols[..i], [cols[i]]);
    assert Keys([cols[i]]) == {cols[i].0};
  }

  /** The keys of a prefix are keys of the whole list. */
  lemma KeysPrefix(cols: seq<Column>, i: int)
    requires 0 <= i <= |cols|
    ensures Keys(cols[..i]) <= Keys(cols)
  {
    assert cols == cols[..i] + cols[i..];
    KeysAppend(cols[..i], cols[i..]);
  }

  /** In a list with distinct keys, the key at i is not among the first i. */
  lemma UniquePrefix(cols: seq<Column>, i: int)
    requires UniqueKeys(cols) && 0 <= i < |cols|
    ensures cols[i].0 !in Keys(cols[..i])
  {
    var j := IndexOfKey(cols[..i], cols[i].0);
    assert forall k :: 0 <= k < i ==> cols[..i][k].0 != cols[i].0;
  }

  /** In a list with distinct keys, the anchor sits at its first index
      only, and every key copied is one of the list's keys. */
  lemma AnchorAt(cols: seq<Column>, i: int, anchor: string)
    requires UniqueKeys(cols) && 0 <= i < |cols|
    ensures cols[i].0 == anchor <==> i == IndexOfKey(cols, anchor)
    ensures cols[i].0 in Keys(cols)
  {
    KeysAt(cols);
  }

  /** One copying step of the filter loops: assigning the next column keeps
      the keys distinct and, for a key not yet copied, appends the column. */
  lemma CopyStep(cols: seq<Column>, i: int, r: seq<Column>, extra: set<string>)
    requires UniqueKeys(cols) && 0 <= i < |cols|
    requires UniqueKeys(r) && Keys(r) == Keys(cols[..i]) + extra
    ensures UniqueKeys(Assign(r, cols[i].0, cols[i].1))
    ensures Keys(Assign(r, cols[i].0, cols[i].1)) == Keys(cols[..i + 1]) + extra
    ensures cols[i].0 !in extra ==> Assign(r, cols[i].0, cols[i].1) == r + [cols[i]]
  {
    KeysPrefixStep(cols, i);
    UniquePrefix(cols, i);
  }

  /** What the insert-before loop has built after copying the first i columns. */
  predicate BeforeLoop(cols: seq<Column>, anchor: string, col: Column, i: int, r: seq<Column>)
    requires 0 <= i <= |cols|
  {
    var at := IndexOfKey(cols, anchor);
    UniqueKeys(r)
    && Keys(r) == Keys(cols[..i]) + (if 0 <= at < i then {col.0} else {})
    && (col.0 !in Keys(cols) && 0 <= at < i ==> r == cols[..at] + [col] + cols[at..i])
    && (col.0 !in Keys(cols) && !(0 <= at < i) ==> r == cols[..i])
  }

  /** One turn of the insert-before loop. */
  lemma BeforeStep(cols: seq<Column>, anchor: string, col: Column, i: int, r: seq<Column>)
    requires UniqueKeys(cols) && 0 <= i < |cols| && BeforeLoop(cols, anchor, col, i, r)
    ensures cols[i].0 == anchor ==> UniqueKeys(Assign(r, col.0, col.1))
    ensures cols[i].0 == anchor ==>
      BeforeLoop(cols, anchor, col, i + 1, Assign(Assign(r, col.0, col.1), cols[i].0, cols[i].1))
    ensures cols[i].0 != anchor ==> BeforeLoop(cols, anchor, col, i + 1, Assign(r, cols[i].0, cols[i].1))
  {
    AnchorAt(cols, i, anchor);
    if cols[i].0 == anchor {
      BeforeStepAnchor(cols, anchor, col, i, r);
    } else {
      BeforeStepOther(cols, anchor, col, i, r);
    }
  }

  /** The turn that meets the anchor: col goes in, then the anchor. */
  lemma BeforeStepAnchor(cols: seq<Column>, anchor: string, col: Column, i: int, r: seq<Column>)
    requires UniqueKeys(cols) && 0 <= i < |cols| && BeforeLoop(cols, anchor, col, i, r)
    requires i == IndexOfKey(cols, anchor)
    ensures UniqueKeys(Assign(r, col.0, col.1))
    ensures BeforeLoop(cols, anchor, col, i + 1, Assign(Assign(r, col.0, col.1), cols[i].0, cols[i].1))
  {
    assert cols[..i + 1] == cols[..i] + [cols[i]];
    var r1 := Assign(r, col.0, col.1);
    CopyStep(cols, i, r1, {col.0});
    if col.0 !in Keys(cols) {
      KeysPrefix(cols, i);
      assert r1 == r + [col];
      assert cols[i..i + 1] == [cols[i]];
    }
  }

  /** Any other turn copies one column. */
  lemma BeforeStepOther(cols: seq<Column>, anchor: string, col: Column, i: int, r: seq<Column>)
    requires UniqueKeys(cols) && 0 <= i < |cols| && BeforeLoop(cols, anchor, col, i, r)
    requires i != IndexOfKey(cols, anchor)
    ensures BeforeLoop(cols, anchor, col, i + 1, Assign(r, cols[i].0, cols[i].1))
  {
    var at := IndexOfKey(cols, anchor);
    if 0 <= at < i {
      BeforeStepPlaced(cols, anchor, col, i, r);
    } else {
      assert cols[..i + 1] == cols[..i] + [cols[i]];
      CopyStep(cols, i, r, {});
    }
  }

  /** A turn after col was placed copies one column behind it. */
  lemma BeforeStepPlaced(cols: seq<Column>, anchor: string, col: Column, i: int, r: seq<Column>)
    requires UniqueKeys(cols) && 0 <= i < |cols| && BeforeLoop(cols, anchor, col, i, r)
    requires 0 <= IndexOfKey(cols, anchor) < i
    ensures BeforeLoop(cols, anchor, col, i + 1, Assign(r, cols[i].0, cols[i].1))
  {
    var at := IndexOfKey(cols, anchor);
    assert cols[..i + 1] == cols[..i] + [cols[i]];
    CopyStep(cols, i, r, {col.0});
    if col.0 !in Keys(cols) {
      KeyAt(cols, i);
      assert Assign(r, cols[i].0, cols[i].1) == r + [cols[i]];
      SpliceGrow(cols, at, i, col);
    }
  }

  /** The loop shared by both column filters: copies the columns with Assign,
      putting col in front of the anchor when the anchor is met; when the
      anchor never came, col is put at the end. */
  method InsertBeforeKey(cols: seq<Column>, anchor: string, col: Column) returns (r: seq<Column>)
    requires UniqueKeys(cols)
    ensures UniqueKeys(r)
    ensures Keys(r) == Keys(cols) + {col.0}
    ensures col.0 !in Keys(cols) ==> r == InsertedBefore(cols, anchor, col)
  {
    r := [];
    var i := 0;
    while i < |cols|
      invariant 0 <= i <= |cols|
      invariant BeforeLoop(cols, anchor, col, i, r)
    {
      BeforeStep(cols, anchor, col, i, r);
      if cols[i].0 == anchor {
        r := Assign(r, col.0, col.1);
      }
      r := Assign(r, cols[i].0, cols[i].1);
      i := i + 1;
    }
    assert cols[..i] == cols;
    if col.0 !in Keys(r) {
      r := Assign(r, col.0, col.1);
    }
  }

  /** What the insert-after loop has built after copying the first i columns. */
  predicate AfterLoop(cols: seq<Column>, anchor: string, col: Column, i: int, r: seq<Column>)
    requires 0 <= i <= |cols|
  {
    var at := IndexOfKey(cols, anchor);
    UniqueKeys(r)
    && Keys(r) == Keys(cols[..i]) + (if 0 <= at < i then {col.0} else {})
    && (col.0 !in Keys(cols) && 0 <= at < i ==> r == cols[..at + 1] + [col] + cols[at + 1..i])
    && (col.0 !in Keys(cols) && !(0 <= at < i) ==> r == cols[..i])
  }

  /** One turn of the insert-after loop. */
  lemma AfterStep(cols: seq<Column>, anchor: string, col: Column, i: int, r: seq<Column>)
    requires UniqueKeys(cols) && 0 <= i < |cols| && AfterLoop(cols, anchor, col, i, r)
    ensures UniqueKeys(Assign(r, cols[i].0, cols[i].1))
    ensures cols[i].0 == anchor ==>
      AfterLoop(cols, anchor, col, i + 1, Assign(Assign(r, cols[i].0, cols[i].1), col.0, col.1))
    ensures cols[i].0 != anchor ==> AfterLoop(cols, anchor, col, i + 1, Assign(r, cols[i].0, cols[i].1))
  {
    AnchorAt(cols, i, anchor);
    if cols[i].0 == anchor {
      AfterStepAnchor(cols, anchor, col, i, r);
    } else {
      AfterStepOther(cols, anchor, col, i, r);
    }
  }

  /** The turn that meets the anchor: the anchor is copied, then col follows. */
  lemma AfterStepAnchor(cols: seq<Column>, anchor: string, col: Column, i: int, r: seq<Column>)
    requires UniqueKeys(cols) && 0 <= i < |cols| && AfterLoop(cols, anchor, col, i, r)
    requires i == IndexOfKey(cols, anchor)
    ensures UniqueKeys(Assign(r, cols[i].0, cols[i].1))
    ensures AfterLoop(cols, anchor, col, i + 1, Assign(Assign(r, cols[i].0, cols[i].1), col.0, col.1))
  {
    assert cols[..i + 1] == cols[..i] + [cols[i]];
    CopyStep(cols, i, r, {});
    if col.0 !in Keys(cols) {
      KeysPrefix(cols, i + 1);
      assert cols[i + 1..i + 1] == [];
    }
  }

  /** Any other turn copies one column. */
  lemma AfterStepOther(cols: seq<Column>, anchor: string, col: Column, i: int, r: seq<Column>)
    requires UniqueKeys(cols) && 0 <= i < |cols| && AfterLoop(cols, anchor, col, i, r)
    requires i != IndexOfKey(cols, anchor)
    ensures UniqueKeys(Assign(r, cols[i].0, cols[i].1))
    ensures AfterLoop(cols, anchor, col, i + 1, Assign(r, cols[i].0, cols[i].1))
  {
    var at := IndexOfKey(cols, anchor);
    if 0 <= at < i {
      AfterStepPlaced(cols, anchor, col, i, r);
    } else {
      assert cols[..i + 1] == cols[..i] + [cols[i]];
      CopyStep(cols, i, r, {});
    }
  }

  /** A turn after col was placed copies one column behind it. */
  lemma AfterStepPlaced(cols: seq<Column>, anchor: string, col: Column, i: int, r: seq<Column>)
    requires UniqueKeys(cols) && 0 <= i < |cols| && AfterLoop(cols, anchor, col, i, r)
    requires 0 <= IndexOfKey(cols, anchor) < i
    ensures UniqueKeys(Assign(r, cols[i].0, cols[i].1))
    ensures AfterLoop(cols, anchor, col, i + 1, Assign(r, cols[i].0, cols[i].1))
  {
    var at := IndexOfKey(cols, anchor);
    assert cols[..i + 1] == cols[..i] + [cols[i]];
    CopyStep(cols, i, r, {col.0});
    if col.0 !in Keys(cols) {
      KeyAt(cols, i);
      assert Assign(r, cols[i].0, cols[i].1) == r + [cols[i]];
      SpliceGrow(cols, at + 1, i, col);
    }
  }

  /** The first loop of the dimensions filter: copies the columns and puts col
      right after the anchor when the anchor is met. */
  method InsertAfterKey(cols: seq<Column>, anchor: string, col: Column) returns (r: seq<Column>)
    requires UniqueKeys(cols)
    ensures UniqueKeys(r)
    ensures Keys(r) == Keys(cols) + (if anchor in Keys(cols) then {col.0} else {})
    ensures col.0 !in Keys(cols) ==> r == InsertedAfter(cols, anchor, col)
  {
    r := [];
    var i := 0;
    while i < |cols|
      invariant 0 <= i <= |cols|
      invariant AfterLoop(cols, anchor, col, i, r)
    {
      AfterStep(cols, anchor, col, i, r);
      r := Assign(r, cols[i].0, cols[i].1);
      if cols[i].0 == anchor {
        r := Assign(r, col.0, col.1);
      }
      i := i + 1;
    }
    assert cols[..i] == cols;
  }

  /** adicionar_coluna_peso(). */
  method AdicionarColunaPeso(columns: seq<Column>) returns (r: seq<Column>)
    requires UniqueKeys(columns)
    ensures UniqueKeys(r) && Keys(r) == Keys(columns) + {PesoColumn.0}
    ensures PesoColumn.0 !in Keys(columns) ==> r == InsertedBefore(columns, "sku", PesoColumn)
  {
    r := InsertBeforeKey(columns, "sku", PesoColumn);
  }

  /** adicionar_coluna_dimensoes(): after the weight column, else before
      `sku`, else at the end. */
  method AdicionarColunaDimensoes(columns: seq<Column>) returns (r: seq<Column>)
    requires UniqueKeys(columns)
    ensures UniqueKeys(r) && Keys(r) == Keys(columns) + {DimensoesColumn.0}
    ensures DimensoesColumn.0 !in Keys(columns) ==>
      r == if PesoColumn.0 in Keys(columns) then InsertedAfter(columns, PesoColumn.0, DimensoesColumn)
           else InsertedBefore(columns, "sku", DimensoesColumn)
  {
    var novas := InsertAfterKey(columns, PesoColumn.0, DimensoesColumn);
    if DimensoesColumn.0 !in Keys(novas) {
      assert PesoColumn.0 !in Keys(columns);
      r := InsertBeforeKey(novas, "sku", DimensoesColumn);
    } else {
      r := novas;
    }
  }
}
