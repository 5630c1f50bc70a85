/**
 * The persisted tables the repositories expose, held in memory.  Row `k` of
 * every table carries id `k + 1`, as identity columns hand them out; a
 * repository `save` of a new row appends it, and `findById` is an index.
 */
module Database {
  import opened Wrappers
  import opened Statuses
  import opened UserEntity
  import opened OrderEntity
  import opened Records

  class Db {
    var users: seq<User>
    var orders: seq<Order>
    var items: seq<OrderItem>
    var products: seq<Product>
    var categories: seq<Category>
    var stores: seq<Store>
    var sessions: seq<DeliverySession>
    var notifications: seq<Notification>
    var logs: seq<NotificationLog>

    ghost predicate UserIds() reads this`users { forall k :: 0 <= k < |users| ==> users[k].id == k + 1 }
    ghost predicate OrderIds() reads this`orders { forall k :: 0 <= k < |orders| ==> orders[k].id == k + 1 }
    ghost predicate ItemIds() reads this`items { forall k :: 0 <= k < |items| ==> items[k].id == k + 1 }
    ghost predicate ProductIds() reads this`products { forall k :: 0 <= k < |products| ==> products[k].id == k + 1 }
    ghost predicate CategoryIds() reads this`categories
    {
      forall k :: 0 <= k < |categories| ==> categories[k].id == k + 1
    }
    ghost predicate StoreIds() reads this`stores { forall k :: 0 <= k < |stores| ==> stores[k].id == k + 1 }
    ghost predicate SessionIds() reads this`sessions { forall k :: 0 <= k < |sessions| ==> sessions[k].id == k + 1 }
    ghost predicate NotificationIds() reads this`notifications
    {
      forall k :: 0 <= k < |notifications| ==> notifications[k].id == k + 1
    }
    ghost predicate LogIds() reads this`logs { forall k :: 0 <= k < |logs| ==> logs[k].id == k + 1 }

    /** Row `k` of every table carries id `k + 1`. */
    ghost predicate IdsInOrder()
      reads this
    {
      UserIds() && OrderIds() && ItemIds() && ProductIds() && CategoryIds()
      && StoreIds() && SessionIds() && NotificationIds() && LogIds()
    }

    /** The unique constraint on the user e-mail column. */
    ghost predicate EmailsUnique()
      reads this`users, users
    {
      forall i, j :: 0 <= i < j < |users| ==> users[i].email != users[j].email
    }

    /** The unique constraint on the store name column. */
    ghost predicate StoreNamesUnique()
      reads this`stores
    {
      forall i, j :: 0 <= i < j < |stores| ==> stores[i].name != stores[j].name
    }

    ghost predicate Valid()
      reads this, users
    {
      IdsInOrder() && EmailsUnique() && StoreNamesUnique()
    }

    constructor ()
      ensures Valid()
      ensures users == [] && orders == [] && items == [] && products == [] && categories == []
      ensures stores == [] && sessions == [] && notifications == [] && logs == []
    {
      users, orders, items, products, categories := [], [], [], [], [];
      stores, sessions, notifications, logs := [], [], [], [];
    }

    function UserById(id: int): (r: Option<User>)
      requires UserIds()
      reads this`users
      ensures r.Some? ==> r.value in users && r.value.id == id
      ensures r.None? ==> forall u :: u in users ==> u.id != id
    {
      if 1 <= id <= |users| then Some(users[id - 1]) else None
    }

    function OrderById(id: int): (r: Option<Order>)
      requires OrderIds()
      reads this`orders
      ensures r.Some? ==> r.value in orders && r.value.id == id
      ensures r.None? ==> forall o :: o in orders ==> o.id != id
    {
      if 1 <= id <= |orders| then Some(orders[id - 1]) else None
    }

    function ItemById(id: int): (r: Option<OrderItem>)
      requires ItemIds()
      reads this`items
      ensures r.Some? ==> r.value in items && r.value.id == id
      ensures r.None? ==> forall i :: i in items ==> i.id != id
    {
      if 1 <= id <= |items| then Some(items[id - 1]) else None
    }

    function ProductById(id: int): (r: Option<Product>)
      requires ProductIds()
      reads this`products
      ensures r.Some? ==> r.value in products && r.value.id == id
      ensures r.None? ==> forall p :: p in products ==> p.id != id
    {
      if 1 <= id <= |products| then Some(products[id - 1]) else None
    }

    function StoreById(id: int): (r: Option<Store>)
      requires StoreIds()
      reads this`stores
      ensures r.Some? ==> r.value in stores && r.value.id == id
      ensures r.None? ==> forall s :: s in stores ==> s.id != id
    {
      if 1 <= id <= |stores| then Some(stores[id - 1]) else None
    }

    function CategoryById(id: int): (r: Option<Category>)
      requires CategoryIds()
      reads this`categories
      ensures r.Some? ==> r.value in categories && r.value.id == id
      ensures r.None? ==> forall c :: c in categories ==> c.id != id
    {
      if 1 <= id <= |categories| then Some(categories[id - 1]) else None
    }

    /** Saves a new user row under the next id; the caller has checked the e-mail is free. */
    method InsertUser(u: User)
      requires UserIds() && EmailsUnique() && u.id == |users| + 1
      requires forall k :: 0 <= k < |users| ==> users[k].email != u.email
      modifies this`users
      ensures users == old(users) + [u]
      ensures UserIds() && EmailsUnique()
    {
      users := users + [u];
    }

    /** The order row with this id, as a frame: empty when there is none. */
    function OrderAt(id: int): set<Order>
      reads this`orders
    {
      if 1 <= id <= |orders| then {orders[id - 1]} else {}
    }

    /** The user row with this id, as a frame: empty when there is none. */
    function UserAt(id: int): set<User>
      reads this`users
    {
      if 1 <= id <= |users| then {users[id - 1]} else {}
    }

    /** The order an item belongs to, as a frame: empty when the item is missing. */
    function ItemOrderAt(id: int): set<Order>
      reads this`items
    {
      if 1 <= id <= |items| then {items[id - 1].order} else {}
    }

    /** The delivery partner of an order, as a frame: empty when there is none. */
    function PartnerAt(id: int): set<User>
      reads this`orders, orders
    {
      if 1 <= id <= |orders| && orders[id - 1].deliveryPerson != null then {orders[id - 1].deliveryPerson} else {}
    }
  }
}
