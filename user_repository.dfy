/**
 * The user repository's queries as functions of the user table (in table
 * order) and, for the statistics query, the order table.
 */
module UserRepository {
  import opened Wrappers
  import opened Text
  import opened Statuses
  import opened UserEntity
  import opened OrderEntity
  import opened Seqs

  /** `findByEmail`: the user holding this e-mail, if any. */
  function FindByEmail(users: seq<User>, email: string): (r: Option<User>)
    reads users
    ensures r.Some? ==> r.value in users && r.value.email == email
    ensures r.None? <==> forall u :: u in users ==> u.email != email
  {
    if users == [] then None
    else if users[0].email == email then Some(users[0])
    else FindByEmail(users[1..], email)
  }

  /** `existsByEmail`. */
  predicate ExistsByEmail(users: seq<User>, email: string)
    reads users
  {
    exists u :: u in users && u.email == email
  }

  /** `existsByEmail` holds exactly when `findByEmail` finds someone. */
  lemma ExistsIffFound(users: seq<User>, email: string)
    ensures ExistsByEmail(users, email) <==> FindByEmail(users, email).Some?
  {
  }

  /**
   * The rows whose reset-token column equals `token`, in table order.  The
   * derived query binds a `null` argument as IS NULL, so `None` selects
   * every user without a pending reset.
   */
  function TokenHolders(users: seq<User>, token: Option<string>): (r: seq<User>)
    reads users
    ensures forall k :: 0 <= k < |r| ==> r[k] in users && r[k].resetToken == token
    ensures forall k :: 0 <= k < |users| && users[k].resetToken == token ==> users[k] in r
    ensures IsSubseq(r, users)
  {
    if users == [] then []
    else if users[0].resetToken == token then [users[0]] + TokenHolders(users[1..], token)
    else TokenHolders(users[1..], token)
  }

  /**
   * `findByResetToken`, a single-result query: no row, the one matching
   * row, or a server error when more than one row matches.
   */
  function FindByResetToken(users: seq<User>, token: Option<string>): (r: Result<Option<User>, Rejection>)
    reads users
    ensures r == Ok(None) <==> forall k :: 0 <= k < |users| ==> users[k].resetToken != token
    ensures r.Ok? && r.value.Some? ==> r.value.value in users && r.value.value.resetToken == token
    ensures r.Ok? && r.value.Some? <==> |TokenHolders(users, token)| == 1
    ensures r.Err? <==> |TokenHolders(users, token)| > 1
    ensures r.Err? ==> r.error == Rejection(InternalError, "Internal Server Error")
  {
    var holders := TokenHolders(users, token);
    if |holders| == 0 then Ok(None)
    else if |holders| == 1 then Ok(Some(holders[0]))
    else Err(Rejection(InternalError, "Internal Server Error"))
  }

  /** A token held by the row at `k` and by no other row finds exactly that row. */
  lemma {:induction false} SoleHolder(users: seq<User>, k: int, token: Option<string>)
    requires 0 <= k < |users| && users[k].resetToken == token
    requires forall j :: 0 <= j < |users| && j != k ==> users[j].resetToken != token
    ensures TokenHolders(users, token) == [users[k]]
    ensures FindByResetToken(users, token) == Ok(Some(users[k]))
  {
    if k > 0 {
      SoleHolder(users[1..], k - 1, token);
    }
  }

  /** `findByRole`. */
  function FindByRole(users: seq<User>, role: Role): (r: seq<User>)
    reads users
    ensures forall k :: 0 <= k < |r| ==> r[k] in users && r[k].role == role
    ensures forall k :: 0 <= k < |users| && users[k].role == role ==> users[k] in r
    ensures IsSubseq(r, users)
  {
    if users == [] then []
    else if users[0].role == role then [users[0]] + FindByRole(users[1..], role)
    else FindByRole(users[1..], role)
  }

  /** `countByRole`. */
  function CountByRole(users: seq<User>, role: Role): nat
    reads users
  {
    if users == [] then 0
    else (if users[0].role == role then 1 else 0) + CountByRole(users[1..], role)
  }

  /** The count query agrees with the size of the list query. */
  lemma {:induction false} CountIsListSize(users: seq<User>, role: Role)
    ensures CountByRole(users, role) == |FindByRole(users, role)|
  {
    if users != [] {
      CountIsListSize(users[1..], role);
    }
  }

  /** `findByRoles`: role among the given ones. */
  function FindByRoles(users: seq<User>, roles: seq<Role>): (r: seq<User>)
    reads users
    ensures forall k :: 0 <= k < |r| ==> r[k] in users && r[k].role in roles
    ensures forall k :: 0 <= k < |users| && users[k].role in roles ==> users[k] in r
    ensures IsSubseq(r, users)
  {
    if users == [] then []
    else if users[0].role in roles then [users[0]] + FindByRoles(users[1..], roles)
    else FindByRoles(users[1..], roles)
  }

  /** Asking for one role by the list query is asking for that role. */
  lemma {:induction false} FindByOneRole(users: seq<User>, role: Role)
    ensures FindByRoles(users, [role]) == FindByRole(users, role)
  {
    if users != [] {
      FindByOneRole(users[1..], role);
    }
  }

  /** `findDeliveryByAvailability`. */
  function FindDeliveryByAvailability(users: seq<User>, available: bool): (r: seq<User>)
    reads users
    ensures forall k :: 0 <= k < |r| ==> r[k] in users && r[k].role == Delivery && r[k].isAvailable == available
    ensures forall k :: 0 <= k < |users| && users[k].role == Delivery && users[k].isAvailable == available ==>
              users[k] in r
    ensures IsSubseq(r, users)
  {
    if users == [] then []
    else if users[0].role == Delivery && users[0].isAvailable == available
    then [users[0]] + FindDeliveryByAvailability(users[1..], available)
    else FindDeliveryByAvailability(users[1..], available)
  }

  /** `findAvailableDeliveryPersons`. */
  function FindAvailableDeliveryPersons(users: seq<User>): (r: seq<User>)
    reads users
    ensures forall k :: 0 <= k < |r| ==> r[k] in users && r[k].role == Delivery && r[k].isAvailable
    ensures forall k :: 0 <= k < |users| && users[k].role == Delivery && users[k].isAvailable ==> users[k] in r
  {
    FindDeliveryByAvailability(users, true)
  }

  /** Available and unavailable partners together are all the partners. */
  lemma {:induction false} AvailabilitySplitsPartners(users: seq<User>)
    ensures |FindDeliveryByAvailability(users, true)| + |FindDeliveryByAvailability(users, false)|
            == CountByRole(users, Delivery)
  {
    if users != [] {
      AvailabilitySplitsPartners(users[1..]);
    }
  }

  /** The search condition: the lower-cased name or e-mail contains the lower-cased term. */
  predicate Matches(u: User, term: string)
    reads u
  {
    Contains(Lower(u.name), Lower(term)) || Contains(Lower(u.email), Lower(term))
  }

  /** `searchUsers`. */
  function SearchUsers(users: seq<User>, term: string): (r: seq<User>)
    reads users
    ensures forall k :: 0 <= k < |r| ==> r[k] in users && Matches(r[k], term)
    ensures forall k :: 0 <= k < |users| && Matches(users[k], term) ==> users[k] in r
    ensures IsSubseq(r, users)
  {
    if users == [] then []
    else if Matches(users[0], term)
    then [users[0]] + SearchUsers(users[1..], term)
    else SearchUsers(users[1..], term)
  }

  /** The empty term matches every user. */
  lemma {:induction false} SearchEmptyIsAll(users: seq<User>)
    ensures SearchUsers(users, "") == users
  {
    if users != [] {
      ContainsEmpty(Lower(users[0].name));
      SearchEmptyIsAll(users[1..]);
    }
  }

  /** The number of orders whose delivery partner is `u`. */
  function DeliveryCount(orders: seq<Order>, u: User): nat
    reads orders
  {
    if orders == [] then 0
    else (if orders[0].deliveryPerson == u then 1 else 0) + DeliveryCount(orders[1..], u)
  }

  /** `findDeliveryPersonsWithStats`: each partner with the number of orders assigned to them. */
  function DeliveryPersonsWithStats(users: seq<User>, orders: seq<Order>): (r: seq<(User, nat)>)
    reads users, orders
    ensures |r| == CountByRole(users, Delivery)
    ensures forall k :: 0 <= k < |r| ==>
              r[k].0 in users && r[k].0.role == Delivery && r[k].1 == DeliveryCount(orders, r[k].0)
    ensures forall k :: 0 <= k < |users| && users[k].role == Delivery ==>
              (users[k], DeliveryCount(orders, users[k])) in r
    ensures |r| == |FindByRole(users, Delivery)| &&
            forall k :: 0 <= k < |r| ==> r[k].0 == FindByRole(users, Delivery)[k]
  {
    if users == [] then []
    else if users[0].role == Delivery
    then [(users[0], DeliveryCount(orders, users[0]))] + DeliveryPersonsWithStats(users[1..], orders)
    else DeliveryPersonsWithStats(users[1..], orders)
  }
}
