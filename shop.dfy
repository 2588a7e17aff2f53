/**
 * The storefront page (page.tsx `BritneyStore`): its remote tables and its
 * component state in one object, with one method per handler. Each handler
 * runs to completion as one step; the outcome of a store write the code
 * checks is a parameter.
 */
module Storefront {
  import opened Optional
  import opened Entities
  import opened Pricing
  import opened Catalog
  import opened Admin
  import opened CartTable
  import opened StoreTables
  import opened Subsequences

  /** The cart_items table's invariant: fresh-counter ids below `bound`, positive quantities, unique lines. */
  ghost predicate CartTableOk(rows: seq<CartRow>, bound: Id)
  {
    (forall r :: r in rows ==> r.id < bound && r.quantity >= 1) && UniqueLines(rows)
  }

  ghost predicate OrderTablesOk(orders: seq<Order>, lines: seq<OrderItem>, bound: Id)
  {
    (forall o :: o in orders ==> o.id < bound) && (forall x :: x in lines ==> x.id < bound && x.orderId < bound)
  }

  /**
   * The store's invariant: every id in the products, cart_items, orders and
   * order_items tables is below the counter, product ids are distinct, and
   * the cart table is well formed.
   */
  ghost predicate StoreOk(products: seq<Product>, cartRows: seq<CartRow>, orderRows: seq<Order>, orderItemRows: seq<OrderItem>, next: Id)
  {
    && (forall p :: p in products ==> p.id < next)
    && DistinctIds(products)
    && CartTableOk(cartRows, next)
    && OrderTablesOk(orderRows, orderItemRows, next)
  }

  /**
   * The page's state agrees with the store: signed out, nothing is shown;
   * signed in, the cart is the user's rows joined with the products last
   * loaded and the order list is the user's orders.
   */
  ghost predicate ViewOk(user: Option<User>, cartItems: seq<CartItem>, orders: seq<Order>, cartRows: seq<CartRow>, cartProducts: seq<Product>, orderRows: seq<Order>)
  {
    && (user.None? ==> cartItems == [] && orders == [])
    && (user.Some? ==> cartItems == Join(UserRows(cartRows, user.value.id), cartProducts))
    && (user.Some? ==> orders == UserOrders(orderRows, user.value.id))
  }

  lemma CartTableOkGrows(rows: seq<CartRow>, bound: Id, bound': Id)
    requires CartTableOk(rows, bound) && bound <= bound'
    ensures CartTableOk(rows, bound')
  {
  }

  lemma OrderTablesOkGrows(orders: seq<Order>, lines: seq<OrderItem>, bound: Id, bound': Id)
    requires OrderTablesOk(orders, lines, bound) && bound <= bound'
    ensures OrderTablesOk(orders, lines, bound')
  {
  }

  lemma DeleteKeepsCartOk(rows: seq<CartRow>, bound: Id, id: Id)
    requires CartTableOk(rows, bound)
    ensures CartTableOk(DeleteRow(rows, id), bound)
  {
    DeleteRowSelects(rows, id);
    SubsequenceKeepsLinesUnique(DeleteRow(rows, id), rows);
  }

  lemma ClearKeepsCartOk(rows: seq<CartRow>, bound: Id, uid: Id)
    requires CartTableOk(rows, bound)
    ensures CartTableOk(RemoveUserRows(rows, uid), bound)
  {
    RemoveUserRowsSelects(rows, uid);
    SubsequenceKeepsLinesUnique(RemoveUserRows(rows, uid), rows);
  }

  lemma SetQuantityKeepsCartOk(rows: seq<CartRow>, bound: Id, id: Id, quantity: int)
    requires CartTableOk(rows, bound) && quantity >= 1
    ensures CartTableOk(SetQuantity(rows, id, quantity), bound)
  {
    SetQuantityKeepsBounds(rows, bound, id, quantity);
    SetQuantityKeepsKeys(rows, id, quantity);
  }

  /** Helpers of SetQuantityKeepsCartOk: ids and positive quantities, then unique lines. */
  lemma SetQuantityKeepsBounds(rows: seq<CartRow>, bound: Id, id: Id, quantity: int)
    requires forall r :: r in rows ==> r.id < bound && r.quantity >= 1
    requires quantity >= 1
    ensures forall r :: r in SetQuantity(rows, id, quantity) ==> r.id < bound && r.quantity >= 1
  {
    var updated := SetQuantity(rows, id, quantity);
    forall r | r in updated ensures r.id < bound && r.quantity >= 1 {
      var i :| 0 <= i < |updated| && updated[i] == r;
      assert rows[i] in rows;
    }
  }

  lemma SetQuantityKeepsKeys(rows: seq<CartRow>, id: Id, quantity: int)
    requires UniqueLines(rows)
    ensures UniqueLines(SetQuantity(rows, id, quantity))
  {
    var updated := SetQuantity(rows, id, quantity);
    forall i, j | 0 <= i < j < |updated| ensures DistinctRows(updated[i], updated[j]) {
      assert DistinctRows(rows[i], rows[j]);
    }
  }

  lemma InsertKeepsCartOk(rows: seq<CartRow>, bound: Id, row: CartRow)
    requires CartTableOk(rows, bound) && row.id == bound && row.quantity == 1
    requires forall x :: x in rows && x.userId == row.userId ==> (x.productId, x.size, x.color) != (row.productId, row.size, row.color)
    ensures CartTableOk(rows + [row], bound + 1)
  {
    var rows' := rows + [row];
    forall i, j | 0 <= i < j < |rows'| ensures DistinctRows(rows'[i], rows'[j]) {
      if j == |rows| {
        assert rows[i] in rows;
      } else {
        assert DistinctRows(rows[i], rows[j]);
      }
    }
  }

  /** When the component's cart was loaded from the user's rows, a line `find` misses is not in the user's rows. */
  lemma MissingLineIsNew(items: seq<CartItem>, rows: seq<CartRow>, uid: Id, seen: seq<Product>, productId: Id, size: string, color: string)
    requires items == Join(UserRows(rows, uid), seen) && FindLine(items, productId, size, color).None?
    ensures forall x :: x in rows && x.userId == uid ==> (x.productId, x.size, x.color) != (productId, size, color)
  {
    var mine := UserRows(rows, uid);
    UserRowsSelects(rows, uid);
    forall x | x in rows && x.userId == uid ensures (x.productId, x.size, x.color) != (productId, size, color) {
      assert x in mine;
      var k :| 0 <= k < |mine| && mine[k] == x;
      assert !IsLine(items[k], productId, size, color);
    }
  }

  /** A line `find` returns is one of the user's rows. */
  lemma FoundLineIsRow(items: seq<CartItem>, rows: seq<CartRow>, uid: Id, seen: seq<Product>, line: CartItem)
    requires items == Join(UserRows(rows, uid), seen) && line in items
    ensures line.row in rows && line.row.userId == uid
  {
    var k :| 0 <= k < |items| && items[k] == line;
    assert UserRows(rows, uid)[k] in UserRows(rows, uid);
    UserRowsSelects(rows, uid);
  }

  /**
   * The cart rows after addToCart for a signed-in user, given the line `find`
   * returned from the loaded cart: that line goes up by one; without one, a
   * new line with quantity 1 and the store's next id is appended when the
   * insert succeeds.
   */
  function CartAfterAdd(found: Option<CartItem>, rows: seq<CartRow>, next: Id, uid: Id, productId: Id, size: string, color: string, insertOk: bool): seq<CartRow>
  {
    match found
    case Some(line) => QuantityUpdated(rows, line.row.id, line.row.quantity + 1)
    case None => if insertOk then rows + [CartRow(next, uid, productId, 1, size, color)] else rows
  }

  /** CartAfterAdd by cases, as the branches of addToCart take them. */
  lemma CartAfterAddCases(found: Option<CartItem>, rows: seq<CartRow>, next: Id, uid: Id, productId: Id, size: string, color: string, insertOk: bool)
    ensures found.Some? ==> CartAfterAdd(found, rows, next, uid, productId, size, color, insertOk) == QuantityUpdated(rows, found.value.row.id, found.value.row.quantity + 1)
    ensures found.None? && insertOk ==> CartAfterAdd(found, rows, next, uid, productId, size, color, insertOk) == rows + [CartRow(next, uid, productId, 1, size, color)]
    ensures found.None? && !insertOk ==> CartAfterAdd(found, rows, next, uid, productId, size, color, insertOk) == rows
  {
  }

  function QuantityUpdated(rows: seq<CartRow>, id: Id, quantity: int): seq<CartRow>
  {
    if quantity <= 0 then DeleteRow(rows, id) else SetQuantity(rows, id, quantity)
  }

  /**
   * updateCartQuantity's effect on the table: a quantity of zero or less
   * removes exactly the row with that id; any other quantity becomes that
   * row's quantity and leaves every other row as it was.
   */
  lemma QuantityUpdatedEffect(rows: seq<CartRow>, id: Id, quantity: int)
    ensures quantity <= 0 ==> forall x :: x in QuantityUpdated(rows, id, quantity) <==> x in rows && x.id != id
    ensures quantity > 0 ==>
      var r := QuantityUpdated(rows, id, quantity);
      && |r| == |rows|
      && forall i :: 0 <= i < |rows| ==> r[i] == if rows[i].id == id then rows[i].(quantity := quantity) else rows[i]
  {
    DeleteRowSelects(rows, id);
  }

  /**
   * When the loaded cart already has the line, addToCart raises that row's
   * quantity by exactly one and changes no other row; no row is added.
   */
  lemma AddFoundLineIncrements(items: seq<CartItem>, rows: seq<CartRow>, next: Id, uid: Id, seen: seq<Product>, productId: Id, size: string, color: string, insertOk: bool)
    requires CartTableOk(rows, next) && items == Join(UserRows(rows, uid), seen)
    requires FindLine(items, productId, size, color).Some?
    ensures
      var found := FindLine(items, productId, size, color);
      var r := CartAfterAdd(found, rows, next, uid, productId, size, color, insertOk);
      && |r| == |rows|
      && forall i :: 0 <= i < |rows| ==> r[i] == if rows[i].id == found.value.row.id then rows[i].(quantity := rows[i].quantity + 1) else rows[i]
  {
    var line := FindLine(items, productId, size, color).value;
    FoundLineIsRow(items, rows, uid, seen, line);
    var k :| 0 <= k < |rows| && rows[k] == line.row;
    forall i | 0 <= i < |rows| && rows[i].id == line.row.id ensures rows[i] == line.row {
      SameIdSameRow(rows, i, k);
    }
  }

  /** In a well-formed table a row id picks out one position. */
  lemma SameIdSameRow(rows: seq<CartRow>, i: nat, k: nat)
    requires UniqueLines(rows) && i < |rows| && k < |rows| && rows[i].id == rows[k].id
    ensures i == k
  {
  }

  /** addToCart keeps the cart table well formed, in particular one line per (product, size, colour) per user. */
  lemma AddKeepsCartOk(items: seq<CartItem>, rows: seq<CartRow>, next: Id, uid: Id, seen: seq<Product>, productId: Id, size: string, color: string, insertOk: bool)
    requires CartTableOk(rows, next) && items == Join(UserRows(rows, uid), seen)
    ensures CartTableOk(CartAfterAdd(FindLine(items, productId, size, color), rows, next, uid, productId, size, color, insertOk), next + 1)
  {
    var found := FindLine(items, productId, size, color);
    if found.Some? {
      FoundLineIsRow(items, rows, uid, seen, found.value);
      IncrementKeepsCartOk(rows, next, found.value, uid, productId, size, color, insertOk);
    } else if insertOk {
      MissingLineIsNew(items, rows, uid, seen, productId, size, color);
      InsertKeepsCartOk(rows, next, CartRow(next, uid, productId, 1, size, color));
    } else {
      CartTableOkGrows(rows, next, next + 1);
    }
  }

  /** The increment branch of addToCart, split in two: the table stays well formed, and the branch is that update. */
  lemma IncrementKeepsCartOk(rows: seq<CartRow>, next: Id, line: CartItem, uid: Id, productId: Id, size: string, color: string, insertOk: bool)
    requires CartTableOk(rows, next) && line.row in rows
    ensures CartTableOk(CartAfterAdd(Some(line), rows, next, uid, productId, size, color, insertOk), next + 1)
  {
    IncrementStep(rows, next, line.row);
    IncrementShape(rows, next, line, uid, productId, size, color, insertOk);
  }

  lemma IncrementStep(rows: seq<CartRow>, next: Id, row: CartRow)
    requires CartTableOk(rows, next) && row in rows
    ensures row.quantity >= 1
    ensures CartTableOk(SetQuantity(rows, row.id, row.quantity + 1), next + 1)
  {
    SetQuantityKeepsCartOk(rows, next, row.id, row.quantity + 1);
    CartTableOkGrows(SetQuantity(rows, row.id, row.quantity + 1), next, next + 1);
  }

  lemma IncrementShape(rows: seq<CartRow>, next: Id, line: CartItem, uid: Id, productId: Id, size: string, color: string, insertOk: bool)
    requires line.row.quantity >= 1
    ensures CartAfterAdd(Some(line), rows, next, uid, productId, size, color, insertOk) == SetQuantity(rows, line.row.id, line.row.quantity + 1)
  {
  }

  /**
   * What a successful checkout writes hangs together: the order's lines, as
   * loadOrders embeds them, are exactly the lines written; their captured
   * prices times quantities add up to the order's total; and the new order,
   * being pending, adds nothing to the revenue.
   */
  lemma CheckoutRecordsCart(orderRows: seq<Order>, orderItemRows: seq<OrderItem>, next: Id, uid: Id, items: seq<CartItem>, paymentUrl: string)
    requires OrderTablesOk(orderRows, orderItemRows, next)
    ensures
      var order := Order(next, uid, CartTotal(items), Pending, Some(paymentUrl));
      var lines := OrderLinesFor(next, next + 1, items);
      && ItemsOf(orderItemRows + lines, order.id) == lines
      && OrderLinesTotal(lines) == order.total
      && Revenue([order] + orderRows) == Revenue(orderRows)
  {
    var lines := OrderLinesFor(next, next + 1, items);
    OrderLinesCopyCart(next, next + 1, items);
    ItemsOfNewOrder(orderItemRows, lines, next);
    OrderLinesTotalIsCartTotal(next, next + 1, items);
    UnpaidOrderAddsNoRevenue(Order(next, uid, CartTotal(items), Pending, Some(paymentUrl)), orderRows);
  }

  /** The order lines an order_items insert adds: none when it fails. */
  function LinesWritten(orderId: Id, firstId: Id, items: seq<CartItem>, ok: bool): seq<OrderItem>
  {
    if ok then OrderLinesFor(orderId, firstId, items) else []
  }

  /** The cart rows after checkout's `.delete().eq('user_id', uid)`, whose outcome the page does not check: unchanged when it fails. */
  function RowsAfterClear(rows: seq<CartRow>, uid: Id, ok: bool): seq<CartRow>
  {
    if ok then RemoveUserRows(rows, uid) else rows
  }

  /** `!user?.is_admin`, negated: someone is signed in and is an admin. */
  predicate IsAdmin(user: Option<User>)
  {
    user.Some? && user.value.isAdmin
  }

  /** The guard of deleteUser and toggleAdminStatus: an admin acting on someone else. */
  predicate MayManage(user: Option<User>, target: Id)
  {
    IsAdmin(user) && target != user.value.id
  }

  /** The new-product form as the page starts it and resets it after a successful insert. */
  function EmptyDraft(): ProductDraft
  {
    ProductDraft("", "", 0.0, 0.0, "", "tops", ["XS", "S", "M", "L", "XL"], ["Pink", "Purple"], 10)
  }

  class Shop {
    // The remote tables. Products and orders are kept newest first, the order
    // in which the page selects them.
    var products: seq<Product>
    var users: seq<User>
    var cartRows: seq<CartRow>
    var orderRows: seq<Order>
    var orderItemRows: seq<OrderItem>
    var nextId: Id              // the store's source of fresh ids
    ghost var cartProducts: seq<Product>   // the products table as the last loadCart joined it

    // The page's state.
    var user: Option<User>
    var cartItems: seq<CartItem>
    var orders: seq<Order>
    var adminStats: AdminStats
    var allUsers: seq<User>
    var newProduct: ProductDraft
    var editingProduct: Option<Id>
    var showAuth: bool
    var showCart: bool
    var showAdmin: bool
    var showOrders: bool

    ghost predicate Valid()
      reads this`products, this`cartRows, this`orderRows, this`orderItemRows, this`nextId
      reads this`user, this`cartItems, this`orders, this`cartProducts
    {
      && StoreOk(products, cartRows, orderRows, orderItemRows, nextId)
      && ViewOk(user, cartItems, orders, cartRows, cartProducts, orderRows)
    }

    /** What the page shows: the product list through the search box and category buttons. */
    function ShownProducts(searchTerm: string, category: string): (r: seq<Product>)
      reads this`products
      ensures IsSubsequence(r, products)
      ensures forall p :: p in r <==> p in products && Matches(p, searchTerm, category)
    {
      FilterProducts(products, searchTerm, category)
    }

    /** The page's `cartTotal`. */
    function Total(): (t: real)
      reads this`cartItems
      ensures t == LinesSum(cartItems)
    {
      CartTotalIsLinesSum(cartItems);
      CartTotal(cartItems)
    }

    /**
     * The page as it mounts against a store that already holds rows; `firstFreeId`
     * is where the store's fresh ids continue.
     */
    constructor (initialUsers: seq<User>, initialProducts: seq<Product>, initialCart: seq<CartRow>,
                 initialOrders: seq<Order>, initialOrderItems: seq<OrderItem>, firstFreeId: Id)
      requires StoreOk(initialProducts, initialCart, initialOrders, initialOrderItems, firstFreeId)
      ensures Valid()
      ensures users == initialUsers && products == initialProducts && nextId == firstFreeId
      ensures cartRows == initialCart && orderRows == initialOrders && orderItemRows == initialOrderItems
      ensures user.None? && cartItems == [] && orders == [] && newProduct == EmptyDraft()
      ensures adminStats == AdminStats(0.0, 0, 0, 0) && allUsers == [] && editingProduct.None?
      ensures !showAuth && !showCart && !showAdmin && !showOrders
    {
      products := initialProducts;
      users := initialUsers;
      cartRows := initialCart;
      orderRows := initialOrders;
      orderItemRows := initialOrderItems;
      nextId := firstFreeId;
      user := None;
      cartItems := [];
      cartProducts := [];
      orders := [];
      adminStats := AdminStats(0.0, 0, 0, 0);
      allUsers := [];
      newProduct := EmptyDraft();
      editingProduct := None;
      showAuth, showCart, showAdmin, showOrders := false, false, false, false;
    }

    /** loadCart: the signed-in user's rows with their products. */
    method LoadCart()
      requires user.Some?
      modifies this`cartItems, this`cartProducts
      ensures cartItems == Join(UserRows(cartRows, user.value.id), products) && cartProducts == products
    {
      cartItems := Join(UserRows(cartRows, user.value.id), products);
      cartProducts := products;
    }

    /** loadOrders: the signed-in user's orders, newest first. */
    method LoadOrders()
      requires user.Some?
      modifies this`orders
      ensures orders == UserOrders(orderRows, user.value.id)
    {
      orders := UserOrders(orderRows, user.value.id);
    }

    /** loadAdminStats, with every query returning its rows. */
    method LoadAdminStats()
      modifies this`adminStats
      ensures adminStats == AdminStatsOf(Some(orderRows), Some(products), Some(users))
      ensures adminStats.totalRevenue == SumTotals(PaidOnly(orderRows))
      ensures adminStats.totalOrders == |orderRows|
      ensures adminStats.totalProducts == |products| && adminStats.totalUsers == |users|
    {
      adminStats := AdminStatsOf(Some(orderRows), Some(products), Some(users));
    }

    /** loadAllUsers: the users table, newest first. */
    method LoadAllUsers()
      modifies this`allUsers
      ensures allUsers == users
    {
      allUsers := users;
    }

    /**
     * checkUser with the session's user id, together with the loadCart the
     * page runs on mount: an id with no users row leaves the page as it was.
     */
    method SignIn(authId: Id)
      requires Valid()
      modifies this`user, this`cartItems, this`cartProducts, this`orders, this`adminStats, this`allUsers
      ensures Valid()
      ensures user == (if FindUser(users, authId).Some? then FindUser(users, authId) else old(user))
      ensures FindUser(users, authId).Some? ==>
        && cartItems == Join(UserRows(cartRows, user.value.id), products)
        && orders == UserOrders(orderRows, user.value.id)
      ensures IsAdmin(FindUser(users, authId)) ==> allUsers == users && adminStats == AdminStatsOf(Some(orderRows), Some(products), Some(users))
      ensures !IsAdmin(FindUser(users, authId)) ==> allUsers == old(allUsers) && adminStats == old(adminStats)
      ensures FindUser(users, authId).None? ==> cartItems == old(cartItems) && orders == old(orders) && cartProducts == old(cartProducts)
    {
      var found := FindUser(users, authId);
      if found.Some? {
        user := found;
        if found.value.isAdmin {
          LoadAllUsers();
          LoadAdminStats();
        }
        LoadUserData();
      }
    }

    /** The loads that follow a sign-in or a checkout: the user's order history (loadOrders) and cart (loadCart). */
    method LoadUserData()
      requires user.Some? && StoreOk(products, cartRows, orderRows, orderItemRows, nextId)
      modifies this`cartItems, this`cartProducts, this`orders
      ensures Valid()
      ensures cartItems == Join(UserRows(cartRows, user.value.id), products) && orders == UserOrders(orderRows, user.value.id)
    {
      LoadOrders();
      LoadCart();
    }

    /** signOut: the user, the cart and the order history are cleared and the panels closed. */
    method SignOut()
      requires Valid()
      modifies this`user, this`cartItems, this`orders, this`showAdmin, this`showOrders
      ensures Valid()
      ensures user.None? && cartItems == [] && orders == [] && !showAdmin && !showOrders
    {
      user := None;
      cartItems := [];
      orders := [];
      showAdmin := false;
      showOrders := false;
    }

    /**
     * updateCartQuantity: a quantity of zero or less deletes the row with that id,
     * any other quantity becomes the row's quantity; then the cart is reloaded.
     */
    method UpdateCartQuantity(itemId: Id, quantity: int)
      requires Valid()
      modifies this`cartRows, this`cartItems, this`cartProducts
      ensures Valid()
      ensures cartRows == QuantityUpdated(old(cartRows), itemId, quantity)
      ensures user.Some? ==> cartItems == Join(UserRows(cartRows, user.value.id), products)
    {
      var rows := QuantityUpdated(cartRows, itemId, quantity);
      assert StoreOk(products, rows, orderRows, orderItemRows, nextId) by {
        if quantity <= 0 {
          DeleteKeepsCartOk(cartRows, nextId, itemId);
        } else {
          SetQuantityKeepsCartOk(cartRows, nextId, itemId, quantity);
        }
      }
      cartRows := rows;
      if user.Some? {
        LoadCart();
      }
    }

    /**
     * addToCart: without a user only the sign-in panel opens. Otherwise an
     * existing line for (product, size, colour) goes up by one, or a new line
     * with quantity 1 is inserted when the store accepts it.
     */
    method AddToCart(product: Product, size: string, color: string, insertOk: bool)
      requires Valid()
      modifies this`cartRows, this`cartItems, this`cartProducts, this`nextId, this`showAuth
      ensures Valid()
      ensures old(user).None? ==> showAuth && cartRows == old(cartRows) && cartItems == old(cartItems) && nextId == old(nextId)
      ensures old(user).Some? ==> showAuth == old(showAuth)
      ensures old(user).Some? ==> cartRows == CartAfterAdd(FindLine(old(cartItems), product.id, size, color), old(cartRows), old(nextId), old(user).value.id, product.id, size, color, insertOk)
      ensures old(user).Some? ==>
        nextId == if FindLine(old(cartItems), product.id, size, color).None? && insertOk then old(nextId) + 1 else old(nextId)
      ensures old(user).Some? && (FindLine(old(cartItems), product.id, size, color).Some? || insertOk) ==>
        cartItems == Join(UserRows(cartRows, old(user).value.id), products)
      ensures old(user).Some? && FindLine(old(cartItems), product.id, size, color).None? && !insertOk ==>
        cartItems == old(cartItems)
    {
      if user.None? {
        showAuth := true;
      } else {
        AddLine(product, size, color, insertOk);
      }
    }

    /** addToCart past its sign-in guard. */
    method AddLine(product: Product, size: string, color: string, insertOk: bool)
      requires Valid() && user.Some?
      modifies this`cartRows, this`cartItems, this`cartProducts, this`nextId
      ensures Valid()
      ensures cartRows == CartAfterAdd(FindLine(old(cartItems), product.id, size, color), old(cartRows), old(nextId), user.value.id, product.id, size, color, insertOk)
      ensures nextId == if FindLine(old(cartItems), product.id, size, color).None? && insertOk then old(nextId) + 1 else old(nextId)
      ensures FindLine(old(cartItems), product.id, size, color).Some? || insertOk ==>
        cartItems == Join(UserRows(cartRows, user.value.id), products)
      ensures FindLine(old(cartItems), product.id, size, color).None? && !insertOk ==> cartItems == old(cartItems)
    {
      var existing := FindLine(cartItems, product.id, size, color);
      CartAfterAddCases(existing, cartRows, nextId, user.value.id, product.id, size, color, insertOk);
      if existing.Some? {
        UpdateCartQuantity(existing.value.row.id, existing.value.row.quantity + 1);
      } else if insertOk {
        MissingLineIsNew(cartItems, cartRows, user.value.id, cartProducts, product.id, size, color);
        InsertLine(CartRow(nextId, user.value.id, product.id, 1, size, color));
      }
    }

    /** The insert branch of addToCart: a new row, keyed apart from the user's rows, takes the next id; then loadCart. */
    method InsertLine(row: CartRow)
      requires Valid() && user.Some?
      requires row.id == nextId && row.userId == user.value.id && row.quantity == 1
      requires forall x :: x in cartRows && x.userId == row.userId ==> (x.productId, x.size, x.color) != (row.productId, row.size, row.color)
      modifies this`cartRows, this`cartItems, this`cartProducts, this`nextId
      ensures Valid()
      ensures cartRows == old(cartRows) + [row] && nextId == old(nextId) + 1
      ensures cartItems == Join(UserRows(cartRows, user.value.id), products)
    {
      InsertKeepsCartOk(cartRows, nextId, row);
      OrderTablesOkGrows(orderRows, orderItemRows, nextId, nextId + 1);
      cartRows := cartRows + [row];
      nextId := nextId + 1;
      assert StoreOk(products, cartRows, orderRows, orderItemRows, nextId);
      LoadCart();
    }

    /** `.from('orders').insert(order)`: the store gives the order the next id and puts it first. */
    method InsertOrder(order: Order)
      requires StoreOk(products, cartRows, orderRows, orderItemRows, nextId) && order.id == nextId
      modifies this`orderRows, this`nextId
      ensures StoreOk(products, cartRows, orderRows, orderItemRows, nextId)
      ensures orderRows == [order] + old(orderRows) && nextId == old(nextId) + 1
    {
      CartTableOkGrows(cartRows, nextId, nextId + 1);
      orderRows := [order] + orderRows;
      nextId := nextId + 1;
    }

    /**
     * `.from('order_items').insert(...)` with one line per cart line of an
     * existing order; the store numbers them from the next id. When the
     * insert fails (`ok` false) nothing is written.
     */
    method InsertOrderLines(orderId: Id, items: seq<CartItem>, ok: bool)
      requires StoreOk(products, cartRows, orderRows, orderItemRows, nextId) && orderId < nextId
      modifies this`orderItemRows, this`nextId
      ensures StoreOk(products, cartRows, orderRows, orderItemRows, nextId)
      ensures orderItemRows == old(orderItemRows) + LinesWritten(orderId, old(nextId), items, ok)
    {
      if !ok {
        return;
      }
      var lines := OrderLinesFor(orderId, nextId, items);
      OrderLinesCopyCart(orderId, nextId, items);
      var next := nextId + |items|;
      CartTableOkGrows(cartRows, nextId, next);
      assert forall x :: x in lines ==> x.id < next && x.orderId < next by {
        forall x | x in lines ensures x.id < next && x.orderId < next {
          var i :| 0 <= i < |lines| && lines[i] == x;
        }
      }
      orderItemRows := orderItemRows + lines;
      nextId := next;
    }

    /** `.from('cart_items').delete().eq('user_id', uid)`; when it fails (`ok` false) the rows stay. */
    method ClearCart(uid: Id, ok: bool)
      requires StoreOk(products, cartRows, orderRows, orderItemRows, nextId)
      modifies this`cartRows
      ensures StoreOk(products, cartRows, orderRows, orderItemRows, nextId)
      ensures cartRows == RowsAfterClear(old(cartRows), uid, ok)
    {
      if ok {
        ClearKeepsCartOk(cartRows, nextId, uid);
        cartRows := RemoveUserRows(cartRows, uid);
      }
    }

    /**
     * createOrder: with a user and a non-empty cart, a pending order for the
     * cart total is inserted; if that succeeds, one order line per cart line
     * is inserted and the user's cart rows are deleted (neither outcome is
     * checked), and the cart and order history are reloaded. When the delete
     * fails, the reloaded cart still holds the lines just ordered.
     */
    method CreateOrder(orderOk: bool, itemsOk: bool, clearOk: bool, paymentUrl: string)
      requires Valid()
      modifies this`orderRows, this`orderItemRows, this`cartRows, this`nextId, this`cartItems, this`cartProducts, this`orders, this`showCart
      ensures Valid()
      ensures old(user).None? || old(cartItems) == [] || !orderOk ==>
        && orderRows == old(orderRows) && orderItemRows == old(orderItemRows) && cartRows == old(cartRows)
        && nextId == old(nextId) && cartItems == old(cartItems) && orders == old(orders) && showCart == old(showCart)
      ensures old(user).Some? && old(cartItems) != [] && orderOk ==>
        && orderRows == [Order(old(nextId), old(user).value.id, CartTotal(old(cartItems)), Pending, Some(paymentUrl))] + old(orderRows)
        && orderItemRows == old(orderItemRows) + LinesWritten(old(nextId), old(nextId) + 1, old(cartItems), itemsOk)
        && cartRows == RowsAfterClear(old(cartRows), old(user).value.id, clearOk)
        && cartItems == Join(UserRows(cartRows, old(user).value.id), products)
        && (clearOk ==> cartItems == [])
        && orders == [Order(old(nextId), old(user).value.id, CartTotal(old(cartItems)), Pending, Some(paymentUrl))] + old(orders)
        && !showCart
    {
      if user.Some? && cartItems != [] && orderOk {
        PlaceOrder(itemsOk, clearOk, paymentUrl);
      }
    }

    /** The part of createOrder past its guard. */
    method PlaceOrder(itemsOk: bool, clearOk: bool, paymentUrl: string)
      requires Valid() && user.Some? && cartItems != []
      modifies this`orderRows, this`orderItemRows, this`cartRows, this`nextId, this`cartItems, this`cartProducts, this`orders, this`showCart
      ensures Valid()
      ensures orderRows == [Order(old(nextId), old(user).value.id, CartTotal(old(cartItems)), Pending, Some(paymentUrl))] + old(orderRows)
      ensures orderItemRows == old(orderItemRows) + LinesWritten(old(nextId), old(nextId) + 1, old(cartItems), itemsOk)
      ensures cartRows == RowsAfterClear(old(cartRows), old(user).value.id, clearOk)
      ensures cartItems == Join(UserRows(cartRows, old(user).value.id), products)
      ensures clearOk ==> cartItems == []
      ensures orders == [Order(old(nextId), old(user).value.id, CartTotal(old(cartItems)), Pending, Some(paymentUrl))] + old(orders)
      ensures !showCart
    {
      var uid, oid := user.value.id, nextId;
      var order := Order(oid, uid, CartTotal(cartItems), Pending, Some(paymentUrl));
      WriteOrder(order, cartItems, itemsOk, clearOk);
      assert clearOk ==> UserRows(cartRows, uid) == [] by {
        ClearedCartIsEmpty(old(cartRows), uid);
      }
      assert UserOrders(orderRows, uid) == [order] + orders by {
        assert orderRows[1..] == old(orderRows);
      }
      ShowPlacedOrder(order, clearOk);
    }

    /** The end of createOrder: the cart and the order history are reloaded and the cart panel closes. */
    method ShowPlacedOrder(order: Order, clearOk: bool)
      requires StoreOk(products, cartRows, orderRows, orderItemRows, nextId)
      requires user.Some? && user.value.id == order.userId
      requires clearOk ==> UserRows(cartRows, order.userId) == []
      requires UserOrders(orderRows, order.userId) == [order] + orders
      modifies this`cartItems, this`cartProducts, this`orders, this`showCart
      ensures Valid()
      ensures cartItems == Join(UserRows(cartRows, order.userId), products)
      ensures clearOk ==> cartItems == []
      ensures orders == [order] + old(orders)
      ensures !showCart
    {
      LoadUserData();
      assert clearOk ==> |cartItems| == 0;
      showCart := false;
    }

    /** The writes of a checkout: the order, its lines and the deletion of the buyer's cart rows, each of the last two when it succeeds. */
    method WriteOrder(order: Order, items: seq<CartItem>, itemsOk: bool, clearOk: bool)
      requires StoreOk(products, cartRows, orderRows, orderItemRows, nextId) && order.id == nextId
      modifies this`orderRows, this`orderItemRows, this`cartRows, this`nextId
      ensures StoreOk(products, cartRows, orderRows, orderItemRows, nextId)
      ensures orderRows == [order] + old(orderRows)
      ensures orderItemRows == old(orderItemRows) + LinesWritten(order.id, order.id + 1, items, itemsOk)
      ensures cartRows == RowsAfterClear(old(cartRows), order.userId, clearOk)
    {
      InsertOrder(order);
      InsertOrderLines(order.id, items, itemsOk);
      ClearCart(order.userId, clearOk);
    }

    /** The new-product form's fields as the admin types them. */
    method EditDraft(draft: ProductDraft)
      modifies this`newProduct
      ensures newProduct == draft
    {
      newProduct := draft;
    }

    /**
     * createProduct: for an admin, the form is inserted as a product with a
     * discount that is not positive stored as null; on success the form is
     * reset and the dashboard reloaded.
     */
    method CreateProduct(insertOk: bool)
      requires Valid()
      modifies this`products, this`nextId, this`adminStats, this`newProduct
      ensures Valid()
      ensures IsAdmin(user) && insertOk ==>
        && products == [StoredProduct(old(newProduct), old(nextId))] + old(products) && nextId == old(nextId) + 1
        && newProduct == EmptyDraft()
        && adminStats == AdminStatsOf(Some(orderRows), Some(products), Some(users))
      ensures !(IsAdmin(user) && insertOk) ==>
        products == old(products) && nextId == old(nextId) && adminStats == old(adminStats) && newProduct == old(newProduct)
    {
      if !IsAdmin(user) || !insertOk {
        return;
      }
      InsertProduct(StoredProduct(newProduct, nextId));
      LoadAdminStats();
      newProduct := EmptyDraft();
    }

    /** `.from('products').insert(...)`: the store gives the row the next id and the catalog lists it first. */
    method InsertProduct(p: Product)
      requires StoreOk(products, cartRows, orderRows, orderItemRows, nextId) && p.id == nextId
      modifies this`products, this`nextId
      ensures StoreOk(products, cartRows, orderRows, orderItemRows, nextId)
      ensures products == [p] + old(products) && nextId == old(nextId) + 1
    {
      CartTableOkGrows(cartRows, nextId, nextId + 1);
      OrderTablesOkGrows(orderRows, orderItemRows, nextId, nextId + 1);
      assert DistinctIds([p] + products) by {
        var r := [p] + products;
        forall i, j | 0 <= i < j < |r| ensures r[i].id != r[j].id {
          assert r[j] == products[j - 1] && products[j - 1] in products;
        }
      }
      products := [p] + products;
      nextId := nextId + 1;
    }

    /**
     * updateProduct: for an admin, the row with that id takes the given
     * values (keeping its id); on success the edit box closes. The cart shown
     * and the order lines already written are not touched.
     */
    method UpdateProduct(productId: Id, updates: Product, updateOk: bool)
      requires Valid()
      modifies this`products, this`editingProduct
      ensures Valid()
      ensures IsAdmin(user) && updateOk ==> products == ReplaceProduct(old(products), productId, updates) && editingProduct.None?
      ensures !(IsAdmin(user) && updateOk) ==> products == old(products) && editingProduct == old(editingProduct)
    {
      if !IsAdmin(user) || !updateOk {
        return;
      }
      var replaced := ReplaceProduct(products, productId, updates);
      assert forall p :: p in replaced ==> p.id < nextId by {
        forall p | p in replaced ensures p.id < nextId {
          var i :| 0 <= i < |replaced| && replaced[i] == p;
          assert products[i] in products;
        }
      }
      ReplaceKeepsIdsDistinct(products, productId, updates);
      products := replaced;
      editingProduct := None;
    }

    /** deleteProduct: for an admin, the row with that id goes; the dashboard is reloaded. */
    method DeleteProduct(productId: Id)
      requires Valid()
      modifies this`products, this`adminStats
      ensures Valid()
      ensures IsAdmin(user) ==>
        products == RemoveProduct(old(products), productId) && adminStats == AdminStatsOf(Some(orderRows), Some(products), Some(users))
      ensures !IsAdmin(user) ==> products == old(products) && adminStats == old(adminStats)
    {
      if !IsAdmin(user) {
        return;
      }
      var remaining := RemoveProduct(products, productId);
      assert StoreOk(remaining, cartRows, orderRows, orderItemRows, nextId) by {
        RemoveProductSelects(products, productId);
        RemoveKeepsIdsDistinct(products, productId);
      }
      products := remaining;
      LoadAdminStats();
    }

    /** deleteUser: an admin may delete any user but themself; the user list and dashboard are reloaded. */
    method DeleteUser(userId: Id)
      requires Valid()
      modifies this`users, this`allUsers, this`adminStats
      ensures Valid()
      ensures MayManage(user, userId) ==>
        && users == RemoveUser(old(users), userId) && allUsers == users
        && adminStats == AdminStatsOf(Some(orderRows), Some(products), Some(users))
      ensures !MayManage(user, userId) ==> users == old(users) && allUsers == old(allUsers) && adminStats == old(adminStats)
    {
      if !MayManage(user, userId) {
        return;
      }
      users := RemoveUser(users, userId);
      // the reloads loadAllUsers and loadAdminStats, written out
      allUsers := users;
      adminStats := AdminStatsOf(Some(orderRows), Some(products), Some(users));
    }

    /**
     * toggleAdminStatus: an admin may set another user's flag to the negation
     * of the flag the page passed in; the user list is reloaded.
     */
    method ToggleAdminStatus(userId: Id, isAdmin: bool)
      requires Valid()
      modifies this`users, this`allUsers
      ensures Valid()
      ensures MayManage(user, userId) ==> users == SetAdmin(old(users), userId, !isAdmin) && allUsers == users
      ensures !MayManage(user, userId) ==> users == old(users) && allUsers == old(allUsers)
    {
      if !MayManage(user, userId) {
        return;
      }
      users := SetAdmin(users, userId, !isAdmin);
      LoadAllUsers();
    }
  }
}
