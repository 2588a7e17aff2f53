/**
 * The statements the storefront sends to the orders, order_items, users and
 * products tables, other than those of the cart.
 */
module StoreTables {
  import opened Optional
  import opened Entities
  import opened Subsequences

  /** `.from('orders').select(...).eq('user_id', uid)`, keeping the table's newest-first order. */
  function UserOrders(orders: seq<Order>, uid: Id): (r: seq<Order>)
  {
    if orders == [] then []
    else
      var rest := UserOrders(orders[1..], uid);
      if orders[0].userId == uid then
        [orders[0]] + rest
      else rest
  }

  /** A user's orders keep the table's newest-first order. */
  lemma {:induction false} UserOrdersSelects(orders: seq<Order>, uid: Id)
    ensures IsSubsequence(UserOrders(orders, uid), orders)
    ensures forall o :: o in UserOrders(orders, uid) <==> o in orders && o.userId == uid
    decreases |orders|
  {
    if orders != [] {
      UserOrdersSelects(orders[1..], uid);
      if orders[0].userId == uid {
        KeepHead(UserOrders(orders[1..], uid), orders);
      } else {
        DropHead(UserOrders(orders[1..], uid), orders);
      }
    }
  }

  /** The lines of one order, as `items:order_items(*)` embeds them. */
  function ItemsOf(lines: seq<OrderItem>, orderId: Id): (r: seq<OrderItem>)
  {
    if lines == [] then []
    else
      var rest := ItemsOf(lines[1..], orderId);
      if lines[0].orderId == orderId then
        [lines[0]] + rest
      else rest
  }

  /** An order's lines keep the order in which they were inserted. */
  lemma {:induction false} ItemsOfSelects(lines: seq<OrderItem>, orderId: Id)
    ensures IsSubsequence(ItemsOf(lines, orderId), lines)
    ensures forall x :: x in ItemsOf(lines, orderId) <==> x in lines && x.orderId == orderId
    decreases |lines|
  {
    if lines != [] {
      ItemsOfSelects(lines[1..], orderId);
      if lines[0].orderId == orderId {
        KeepHead(ItemsOf(lines[1..], orderId), lines);
      } else {
        DropHead(ItemsOf(lines[1..], orderId), lines);
      }
    }
  }

  /** Inserting lines for a new order: the order's lines are exactly the inserted ones, in order. */
  lemma {:induction false} ItemsOfNewOrder(earlier: seq<OrderItem>, added: seq<OrderItem>, orderId: Id)
    requires forall x :: x in earlier ==> x.orderId != orderId
    requires forall i :: 0 <= i < |added| ==> added[i].orderId == orderId
    ensures ItemsOf(earlier + added, orderId) == added
    decreases |earlier| + |added|
  {
    if earlier != [] {
      assert (earlier + added)[1..] == earlier[1..] + added;
      ItemsOfNewOrder(earlier[1..], added, orderId);
    } else if added != [] {
      assert (earlier + added)[1..] == [] + added[1..];
      ItemsOfNewOrder([], added[1..], orderId);
      assert earlier + added == [added[0]] + added[1..];
    }
  }

  /** `.from('users').select('*').eq('id', id).single()`: a user with that id, if there is one. */
  function FindUser(users: seq<User>, id: Id): (r: Option<User>)
    ensures r.Some? ==> r.value in users && r.value.id == id
    ensures r.None? ==> forall u :: u in users ==> u.id != id
  {
    if users == [] then None
    else if users[0].id == id then Some(users[0])
    else FindUser(users[1..], id)
  }

  /** `.from('users').delete().eq('id', id)`. */
  function RemoveUser(users: seq<User>, id: Id): (r: seq<User>)
  {
    if users == [] then []
    else
      var rest := RemoveUser(users[1..], id);
      if users[0].id != id then
        [users[0]] + rest
      else rest
  }

  /** Deleting a user leaves the others in table order. */
  lemma {:induction false} RemoveUserSelects(users: seq<User>, id: Id)
    ensures IsSubsequence(RemoveUser(users, id), users)
    ensures forall u :: u in RemoveUser(users, id) <==> u in users && u.id != id
    decreases |users|
  {
    if users != [] {
      RemoveUserSelects(users[1..], id);
      if users[0].id != id {
        KeepHead(RemoveUser(users[1..], id), users);
      } else {
        DropHead(RemoveUser(users[1..], id), users);
      }
    }
  }

  /** `.from('users').update({ is_admin: flag }).eq('id', id)`. */
  function SetAdmin(users: seq<User>, id: Id, flag: bool): (r: seq<User>)
    ensures |r| == |users|
    ensures forall i :: 0 <= i < |users| ==>
      r[i] == if users[i].id == id then users[i].(isAdmin := flag) else users[i]
  {
    if users == [] then []
    else [if users[0].id == id then users[0].(isAdmin := flag) else users[0]] + SetAdmin(users[1..], id, flag)
  }

  /** The row createProduct inserts: the form's fields, with a discount that is not positive stored as null. */
  function StoredProduct(draft: ProductDraft, id: Id): (p: Product)
    ensures p.id == id
    ensures p.discountPrice.Some? <==> draft.discountPrice > 0.0
    ensures p.discountPrice.Some? ==> p.discountPrice.value == draft.discountPrice
    ensures p.name == draft.name && p.description == draft.description && p.price == draft.price
    ensures p.imageUrl == draft.imageUrl && p.category == draft.category
    ensures p.sizes == draft.sizes && p.colors == draft.colors && p.stock == draft.stock
  {
    Product(
      id, draft.name, draft.description, draft.price,
      if draft.discountPrice > 0.0 then Some(draft.discountPrice) else None,
      draft.imageUrl, draft.category, draft.sizes, draft.colors, draft.stock)
  }

  /** `.from('products').update(updates).eq('id', id)`; the caller passes the product's own id, so the id stays. */
  function ReplaceProduct(products: seq<Product>, id: Id, updates: Product): (r: seq<Product>)
    ensures |r| == |products|
    ensures forall i :: 0 <= i < |products| ==>
      r[i] == if products[i].id == id then updates.(id := id) else products[i]
  {
    if products == [] then []
    else [if products[0].id == id then updates.(id := id) else products[0]] + ReplaceProduct(products[1..], id, updates)
  }

  /** `.from('products').delete().eq('id', id)`. */
  function RemoveProduct(products: seq<Product>, id: Id): (r: seq<Product>)
  {
    if products == [] then []
    else
      var rest := RemoveProduct(products[1..], id);
      if products[0].id != id then
        [products[0]] + rest
      else rest
  }

  /** Deleting a product leaves the catalog order of the rest. */
  lemma {:induction false} RemoveProductSelects(products: seq<Product>, id: Id)
    ensures IsSubsequence(RemoveProduct(products, id), products)
    ensures forall p :: p in RemoveProduct(products, id) <==> p in products && p.id != id
    decreases |products|
  {
    if products != [] {
      RemoveProductSelects(products[1..], id);
      if products[0].id != id {
        KeepHead(RemoveProduct(products[1..], id), products);
      } else {
        DropHead(RemoveProduct(products[1..], id), products);
      }
    }
  }

  /** No two products share an id. */
  ghost predicate DistinctIds(products: seq<Product>)
  {
    forall i, j :: 0 <= i < j < |products| ==> products[i].id != products[j].id
  }

  /** Updating a product keeps every product's id, so distinct ids stay distinct. */
  lemma ReplaceKeepsIdsDistinct(products: seq<Product>, id: Id, updates: Product)
    requires DistinctIds(products)
    ensures DistinctIds(ReplaceProduct(products, id, updates))
  {
    var r := ReplaceProduct(products, id, updates);
    forall i, j | 0 <= i < j < |r| ensures r[i].id != r[j].id {
      assert r[i].id == products[i].id && r[j].id == products[j].id;
    }
  }

  /** Deleting products keeps the ids of the rest distinct. */
  lemma {:induction false} RemoveKeepsIdsDistinct(products: seq<Product>, id: Id)
    requires DistinctIds(products)
    ensures DistinctIds(RemoveProduct(products, id))
    decreases |products|
  {
    if products != [] {
      var tail := products[1..];
      assert DistinctIds(tail) by {
        forall i, j | 0 <= i < j < |tail| ensures tail[i].id != tail[j].id {
          assert tail[i] == products[i + 1] && tail[j] == products[j + 1];
        }
      }
      RemoveKeepsIdsDistinct(tail, id);
      var rest := RemoveProduct(tail, id);
      if products[0].id != id {
        RemoveProductSelects(tail, id);
        var r := [products[0]] + rest;
        forall i, j | 0 <= i < j < |r| ensures r[i].id != r[j].id {
          if i == 0 {
            assert r[j] == rest[j - 1] && rest[j - 1] in tail;
            var k :| 0 <= k < |tail| && tail[k] == r[j];
            assert products[k + 1] == r[j];
          } else {
            assert r[i] == rest[i - 1] && r[j] == rest[j - 1];
          }
        }
      }
    }
  }
}
