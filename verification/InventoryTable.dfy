/** The reservation table as the list of rows it is, and the per-order map it stands for. */
module InventoryTable {
  datatype Row = Row(product: int, order: int, quantity: int)

  function RowsOf(rows: seq<Row>, o: int): (r: seq<Row>)
    ensures forall x :: x in r <==> x in rows && x.order == o
  {
    if rows == [] then []
    else (if rows[0].order == o then [rows[0]] else []) + RowsOf(rows[1..], o)
  }

  function Others(rows: seq<Row>, o: int): (r: seq<Row>)
    ensures forall x :: x in r <==> x in rows && x.order != o
  {
    if rows == [] then []
    else (if rows[0].order == o then [] else [rows[0]]) + Others(rows[1..], o)
  }

  /** Sum of the rows of one order for one product. */
  function RowQuantity(rows: seq<Row>, o: int, p: int): int {
    if rows == [] then 0
    else (if rows[0].order == o && rows[0].product == p then rows[0].quantity else 0) + RowQuantity(rows[1..], o, p)
  }

  function OrdersOf(rows: seq<Row>): set<int> {
    set r | r in rows :: r.order
  }

  function ProductsOf(rows: seq<Row>, o: int): set<int> {
    set r | r in rows && r.order == o :: r.product
  }

  function HeldBy(rows: seq<Row>, o: int): map<int, int> {
    map p | p in ProductsOf(rows, o) :: RowQuantity(rows, o, p)
  }

  function Held(rows: seq<Row>): map<int, map<int, int>> {
    map o | o in OrdersOf(rows) :: HeldBy(rows, o)
  }

  /** At most one row per order and product. */
  predicate OneRowEach(rows: seq<Row>) {
    forall i, j | 0 <= i < j < |rows| :: !(rows[i].order == rows[j].order && rows[i].product == rows[j].product)
  }

  lemma {:induction false} QuantityAppend(rows: seq<Row>, r: Row, o: int, p: int)
    ensures RowQuantity(rows + [r], o, p) ==
            RowQuantity(rows, o, p) + if r.order == o && r.product == p then r.quantity else 0
  {
    if rows != [] {
      assert (rows + [r])[1..] == rows[1..] + [r];
      QuantityAppend(rows[1..], r, o, p);
    }
  }

  lemma {:induction false} NoRowNoQuantity(rows: seq<Row>, o: int, p: int)
    requires p !in ProductsOf(rows, o)
    ensures RowQuantity(rows, o, p) == 0
  {
    if rows != [] {
      assert rows[0] in rows;
      assert p !in ProductsOf(rows[1..], o);
      NoRowNoQuantity(rows[1..], o, p);
    }
  }

  /** A row for a new product of an order adds exactly one entry to what the order holds. */
  lemma HeldAppend(rows: seq<Row>, r: Row)
    requires r.product !in ProductsOf(rows, r.order)
    ensures HeldBy(rows + [r], r.order) == HeldBy(rows, r.order)[r.product := r.quantity]
    ensures forall o | o != r.order :: HeldBy(rows + [r], o) == HeldBy(rows, o)
    ensures OrdersOf(rows + [r]) == OrdersOf(rows) + {r.order}
    ensures OneRowEach(rows) ==> OneRowEach(rows + [r])
  {
    forall o, p ensures RowQuantity(rows + [r], o, p) ==
                        RowQuantity(rows, o, p) + if r.order == o && r.product == p then r.quantity else 0
    {
      QuantityAppend(rows, r, o, p);
    }
    NoRowNoQuantity(rows, r.order, r.product);
    assert ProductsOf(rows + [r], r.order) == ProductsOf(rows, r.order) + {r.product};
    forall o | o != r.order ensures HeldBy(rows + [r], o) == HeldBy(rows, o) {
      assert ProductsOf(rows + [r], o) == ProductsOf(rows, o);
    }
    forall k | 0 <= k < |rows|
      ensures !(rows[k].order == r.order && rows[k].product == r.product)
    {
      assert rows[k] in rows;
    }
  }

  lemma {:induction false} QuantityOfRest(rows: seq<Row>, o: int, o': int, p: int)
    requires o' != o
    ensures RowQuantity(Others(rows, o), o', p) == RowQuantity(rows, o', p)
  {
    if rows != [] {
      QuantityOfRest(rows[1..], o, o', p);
      if rows[0].order == o {
        assert Others(rows, o) == Others(rows[1..], o);
      } else {
        assert Others(rows, o)[1..] == Others(rows[1..], o);
      }
    }
  }

  lemma {:induction false} QuantityOfOwn(rows: seq<Row>, o: int, p: int)
    ensures RowQuantity(RowsOf(rows, o), o, p) == RowQuantity(rows, o, p)
  {
    if rows != [] {
      QuantityOfOwn(rows[1..], o, p);
      if rows[0].order == o {
        assert RowsOf(rows, o)[1..] == RowsOf(rows[1..], o);
      } else {
        assert RowsOf(rows, o) == RowsOf(rows[1..], o);
      }
    }
  }

  /** Deleting all rows of an order removes its entry and nothing else. */
  lemma HeldOthers(rows: seq<Row>, o: int)
    ensures Held(Others(rows, o)) == Held(rows) - {o}
  {
    var rest := Others(rows, o);
    assert OrdersOf(rest) == OrdersOf(rows) - {o};
    forall o' | o' in OrdersOf(rest) ensures HeldBy(rest, o') == HeldBy(rows, o') {
      assert ProductsOf(rest, o') == ProductsOf(rows, o');
      forall p ensures RowQuantity(rest, o', p) == RowQuantity(rows, o', p) {
        QuantityOfRest(rows, o, o', p);
      }
    }
  }

  lemma {:induction false} OthersUnique(rows: seq<Row>, o: int)
    requires OneRowEach(rows)
    ensures OneRowEach(Others(rows, o))
  {
    if rows != [] {
      assert OneRowEach(rows[1..]);
      OthersUnique(rows[1..], o);
      var rest := Others(rows[1..], o);
      if rows[0].order != o {
        assert Others(rows, o) == [rows[0]] + rest;
        forall j | 0 <= j < |rest| ensures !(rows[0].order == rest[j].order && rows[0].product == rest[j].product) {
          assert rest[j] in rows[1..];
          var k :| 0 <= k < |rows[1..]| && rows[1..][k] == rest[j];
          assert rows[k + 1] == rest[j];
        }
      }
    }
  }

  /** Deletes one row. */
  function Delete(rows: seq<Row>, r: Row): seq<Row> {
    if rows == [] then []
    else if rows[0] == r then rows[1..]
    else [rows[0]] + Delete(rows[1..], r)
  }

  lemma {:induction false} DeleteFirst(rows: seq<Row>, o: int)
    requires RowsOf(rows, o) != []
    ensures RowsOf(Delete(rows, RowsOf(rows, o)[0]), o) == RowsOf(rows, o)[1..]
    ensures Others(Delete(rows, RowsOf(rows, o)[0]), o) == Others(rows, o)
  {
    var r := RowsOf(rows, o)[0];
    if rows[0].order != o {
      DeleteFirst(rows[1..], o);
      assert Delete(rows, r) == [rows[0]] + Delete(rows[1..], r);
      assert Delete(rows, r)[1..] == Delete(rows[1..], r);
    }
  }

  lemma {:induction false} NoneLeft(rows: seq<Row>, o: int)
    requires RowsOf(rows, o) == []
    ensures Others(rows, o) == rows
  {
    if rows != [] {
      NoneLeft(rows[1..], o);
    }
  }
}
