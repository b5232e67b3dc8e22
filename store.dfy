/**
 * The SQLite database shared by every handler, as an object whose tables the
 * handlers update in place. Each handler runs as one atomic step.
 */
module Store {
  import opened Wrappers
  import opened Entities

  class Database {
    /** The Orders table, keyed by its AUTOINCREMENT id. */
    var orders: map<int, Order>
    /** The id the next inserted order receives (AUTOINCREMENT never reuses one). */
    var nextOrderId: int
    /** The users table, keyed by its AUTOINCREMENT id. */
    var users: map<int, User>
    var nextUserId: int
    /** The Posts table (listings); nothing in this core writes it. */
    var posts: map<int, Post>

    /** Ids are positive and below the next id; the UNIQUE columns of users hold. */
    ghost predicate Valid()
      reads this
    {
      && 1 <= nextOrderId
      && 1 <= nextUserId
      && (forall id :: id in orders ==> 1 <= id < nextOrderId)
      && (forall id :: id in users ==> 1 <= id < nextUserId)
      && UsersConstraints(users)
    }

    /** A fresh database over the given listings. */
    constructor (posts: map<int, Post>)
      ensures Valid()
      ensures orders == map[] && users == map[] && this.posts == posts
    {
      this.orders := map[];
      this.nextOrderId := 1;
      this.users := map[];
      this.nextUserId := 1;
      this.posts := posts;
    }

    /**
     * `INSERT INTO users`: the row goes in under the next AUTOINCREMENT id.
     * Its email must be free and its provider ids unset, as for every new
     * account.
     */
    method InsertUser(u: User) returns (id: int)
      requires Valid()
      requires !EmailTaken(users, u.email) && u.stripeCustomerId.None? && u.connectAccountId.None?
      modifies this
      ensures Valid()
      ensures id == old(nextUserId) && id !in old(users)
      ensures users == old(users)[id := u] && nextUserId == id + 1
      ensures orders == old(orders) && nextOrderId == old(nextOrderId) && posts == old(posts)
    {
      id := nextUserId;
      InsertKeepsConstraints(users, id, u);
      users := users[id := u];
      nextUserId := id + 1;
    }

    /** `INSERT INTO Orders`: the row goes in under the next AUTOINCREMENT id. */
    method InsertOrder(o: Order) returns (id: int)
      requires Valid()
      modifies this
      ensures Valid()
      ensures id == old(nextOrderId) && id !in old(orders)
      ensures orders == old(orders)[id := o] && nextOrderId == id + 1
      ensures users == old(users) && nextUserId == old(nextUserId) && posts == old(posts)
    {
      id := nextOrderId;
      orders := orders[id := o];
      nextOrderId := id + 1;
    }

    /**
     * `UPDATE users SET name=?, email=? WHERE id=?` for an email that is the
     * user's own or free, so that the UNIQUE column accepts it.
     */
    method Rename(uid: int, name: string, email: string)
      requires Valid() && uid in users
      requires email == users[uid].email || !EmailTaken(users, email)
      modifies this
      ensures Valid()
      ensures users == old(users)[uid := old(users)[uid].(name := name, email := email)]
      ensures orders == old(orders) && nextOrderId == old(nextOrderId)
      ensures nextUserId == old(nextUserId) && posts == old(posts)
    {
      RenameKeepsConstraints(users, uid, name, email);
      users := users[uid := users[uid].(name := name, email := email)];
    }
  }

  /** The signed-in user, as axum-login loads it: a session whose user row exists. */
  predicate LoggedIn(users: map<int, User>, session: Option<int>) {
    session.Some? && session.value in users
  }

}
