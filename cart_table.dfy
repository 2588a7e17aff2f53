/**
 * The cart_items table and the statements the cart handlers send to it:
 * select by user (with the product join), delete by id, update quantity by
 * id, delete by user. Also the rule the cart keeps: one line per
 * (product, size, colour) per user.
 */
module CartTable {
  import opened Optional
  import opened Entities
  import opened Subsequences

  /** Two cart rows a well-formed table may hold together: different ids, and not the same line of one user's cart. */
  predicate DistinctRows(x: CartRow, y: CartRow)
  {
    x.id != y.id && (x.userId == y.userId ==> (x.productId, x.size, x.color) != (y.productId, y.size, y.color))
  }

  /** Row ids are unique, and each user has at most one line per (product, size, colour). */
  ghost predicate UniqueLines(rows: seq<CartRow>)
  {
    forall i, j :: 0 <= i < j < |rows| ==> DistinctRows(rows[i], rows[j])
  }

  lemma {:induction false} SubsequenceKeepsLinesUnique(a: seq<CartRow>, b: seq<CartRow>)
    requires IsSubsequence(a, b) && UniqueLines(b)
    ensures UniqueLines(a)
    decreases |b|
  {
    if a == [] {
    } else {
      assert UniqueLines(b[1..]) by {
        forall i, j | 0 <= i < j < |b[1..]| ensures DistinctRows(b[1..][i], b[1..][j]) {
          assert b[1..][i] == b[i + 1] && b[1..][j] == b[j + 1];
        }
      }
      if a[0] == b[0] && IsSubsequence(a[1..], b[1..]) {
        SubsequenceKeepsLinesUnique(a[1..], b[1..]);
        SubsequenceMembers(a[1..], b[1..]);
        forall i, j | 0 <= i < j < |a| ensures DistinctRows(a[i], a[j]) {
          if i == 0 {
            assert a[j] == a[1..][j - 1] && a[j] in a[1..];
            assert a[j] in b[1..];
            var k :| 0 <= k < |b[1..]| && b[1..][k] == a[j];
            assert b[k + 1] == a[j];
          } else {
            assert a[i] == a[1..][i - 1] && a[j] == a[1..][j - 1];
          }
        }
      } else {
        SubsequenceKeepsLinesUnique(a, b[1..]);
      }
    }
  }

  /** `.select(...).eq('user_id', uid)` on cart_items. */
  function UserRows(rows: seq<CartRow>, uid: Id): (r: seq<CartRow>)
  {
    if rows == [] then []
    else
      var rest := UserRows(rows[1..], uid);
      if rows[0].userId == uid then
        [rows[0]] + rest
      else rest
  }

  /** The user's rows come back in table order. */
  lemma {:induction false} UserRowsSelects(rows: seq<CartRow>, uid: Id)
    ensures IsSubsequence(UserRows(rows, uid), rows)
    ensures forall x :: x in UserRows(rows, uid) <==> x in rows && x.userId == uid
    decreases |rows|
  {
    if rows != [] {
      UserRowsSelects(rows[1..], uid);
      if rows[0].userId == uid {
        KeepHead(UserRows(rows[1..], uid), rows);
      } else {
        DropHead(UserRows(rows[1..], uid), rows);
      }
    }
  }

  /** `.delete().eq('id', id)` on cart_items. */
  function DeleteRow(rows: seq<CartRow>, id: Id): (r: seq<CartRow>)
  {
    if rows == [] then []
    else
      var rest := DeleteRow(rows[1..], id);
      if rows[0].id != id then
        [rows[0]] + rest
      else rest
  }

  /** Deleting a row leaves the others in table order. */
  lemma {:induction false} DeleteRowSelects(rows: seq<CartRow>, id: Id)
    ensures IsSubsequence(DeleteRow(rows, id), rows)
    ensures forall x :: x in DeleteRow(rows, id) <==> x in rows && x.id != id
    decreases |rows|
  {
    if rows != [] {
      DeleteRowSelects(rows[1..], id);
      if rows[0].id != id {
        KeepHead(DeleteRow(rows[1..], id), rows);
      } else {
        DropHead(DeleteRow(rows[1..], id), rows);
      }
    }
  }

  /** `.delete().eq('user_id', uid)` on cart_items: the user's whole cart. */
  function RemoveUserRows(rows: seq<CartRow>, uid: Id): (r: seq<CartRow>)
  {
    if rows == [] then []
    else
      var rest := RemoveUserRows(rows[1..], uid);
      if rows[0].userId != uid then
        [rows[0]] + rest
      else rest
  }

  /** Clearing a cart leaves the other users' rows in table order. */
  lemma {:induction false} RemoveUserRowsSelects(rows: seq<CartRow>, uid: Id)
    ensures IsSubsequence(RemoveUserRows(rows, uid), rows)
    ensures forall x :: x in RemoveUserRows(rows, uid) <==> x in rows && x.userId != uid
    decreases |rows|
  {
    if rows != [] {
      RemoveUserRowsSelects(rows[1..], uid);
      if rows[0].userId != uid {
        KeepHead(RemoveUserRows(rows[1..], uid), rows);
      } else {
        DropHead(RemoveUserRows(rows[1..], uid), rows);
      }
    }
  }

  /** `.update({ quantity }).eq('id', id)` on cart_items. */
  function SetQuantity(rows: seq<CartRow>, id: Id, quantity: int): (r: seq<CartRow>)
    ensures |r| == |rows|
    ensures forall i :: 0 <= i < |rows| ==>
      r[i] == if rows[i].id == id then rows[i].(quantity := quantity) else rows[i]
  {
    if rows == [] then []
    else [if rows[0].id == id then rows[0].(quantity := quantity) else rows[0]] + SetQuantity(rows[1..], id, quantity)
  }

  /** After clearing a user's cart, selecting that user's rows finds none. */
  lemma ClearedCartIsEmpty(rows: seq<CartRow>, uid: Id)
    ensures UserRows(RemoveUserRows(rows, uid), uid) == []
  {
    var rest := RemoveUserRows(rows, uid);
    RemoveUserRowsSelects(rows, uid);
    UserRowsSelects(rest, uid);
    if UserRows(rest, uid) != [] {
      assert UserRows(rest, uid)[0] in UserRows(rest, uid);
    }
  }

  /** The product a cart row refers to, as the `product:products(*)` join resolves it (absent when missing). */
  function FindProduct(products: seq<Product>, id: Id): (r: Option<Product>)
    ensures r.Some? ==> r.value in products && r.value.id == id
    ensures r.None? ==> forall p :: p in products ==> p.id != id
  {
    if products == [] then None
    else if products[0].id == id then Some(products[0])
    else FindProduct(products[1..], id)
  }

  /** The cart as loadCart reads it: each row with its product embedded. */
  function Join(rows: seq<CartRow>, products: seq<Product>): (r: seq<CartItem>)
    ensures |r| == |rows|
    ensures forall i :: 0 <= i < |rows| ==> r[i].row == rows[i] && r[i].product == FindProduct(products, rows[i].productId)
  {
    if rows == [] then [] else [CartItem(rows[0], FindProduct(products, rows[0].productId))] + Join(rows[1..], products)
  }

  predicate IsLine(item: CartItem, productId: Id, size: string, color: string)
  {
    item.row.productId == productId && item.row.size == size && item.row.color == color
  }

  /** `cartItems.find(...)` in addToCart: a line for (product, size, colour), if the cart has one. */
  function FindLine(items: seq<CartItem>, productId: Id, size: string, color: string): (r: Option<CartItem>)
    ensures r.Some? ==> r.value in items && IsLine(r.value, productId, size, color)
    ensures r.None? ==> forall i :: 0 <= i < |items| ==> !IsLine(items[i], productId, size, color)
  {
    if items == [] then None
    else if IsLine(items[0], productId, size, color) then Some(items[0])
    else FindLine(items[1..], productId, size, color)
  }
}
