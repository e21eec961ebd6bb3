/** The `/api/transactions` route: list the signed-in user's transactions (newest first, with
    their total) on GET, create one on POST (provisioning the user record on first use), and
    refuse anything else. The database is an in-memory store of users and transactions; which
    store call throws, if any, is a parameter. */
module TransactionsApi {
  import opened Calendar
  import opened Ledger

  /** A user record; the store finds users by their identity-provider id `clerkId`. */
  datatype User = User(id: string, clerkId: string, email: string)

  /** A request-body value as JavaScript's `Boolean(...)` sees it (numbers are whole numbers
      here, so NaN does not occur). */
  datatype JsonValue = Missing | Null | Bool(b: bool) | Number(n: int) | Text(s: string) | Object

  /** `Boolean(v)`: false for a missing value, null, false, 0 and the empty string; true for
      everything else. */
  function Truthy(v: JsonValue): (r: bool)
    ensures !r <==> v in {Missing, Null, Bool(false), Number(0), Text("")}
  {
    match v
    case Missing => false
    case Null => false
    case Bool(b) => b
    case Number(n) => n != 0
    case Text(s) => s != ""
    case Object => true
  }

  /** The body of a POST request, with `amount` and `date` already converted by `parseFloat`
      and `new Date`. `category` and `splitWith` are sent by the client but never read. */
  datatype PostBody = PostBody(
    amount: int,
    description: string,
    paymentMode: string,
    isSplit: JsonValue,
    date: Date,
    email: Option<string>,
    category: Option<string>,
    splitWith: Option<string>)

  /** The email stored for a user created on the fly when the body carries none. */
  const FallbackEmail: string := "user@example.com"

  /** `req.body.email || "user@example.com"`. */
  function EmailOf(body: PostBody): (r: string)
    ensures r != ""
    ensures body.email.Some? && body.email.value != "" ==> r == body.email.value
    ensures r != FallbackEmail ==> body.email == Some(r)
  {
    if body.email.Some? && body.email.value != "" then body.email.value else FallbackEmail
  }

  /** The object handed to `transaction.create`: exactly these six fields. */
  datatype TransactionData = TransactionData(
    amount: int,
    description: string,
    paymentMode: string,
    isSplit: bool,
    date: Date,
    userId: string)

  /** `transactionData` for the request body and the owning user's id. */
  function BuildTransactionData(body: PostBody, ownerId: string): (r: TransactionData)
    ensures r.userId == ownerId && r.isSplit == Truthy(body.isSplit)
  {
    TransactionData(body.amount, body.description, body.paymentMode, Truthy(body.isSplit), body.date, ownerId)
  }

  /** The fields of a stored record that came from its creation data. */
  function DataOf(t: Transaction): TransactionData {
    TransactionData(t.amount, t.description, t.paymentMode, t.isSplit, t.date, t.userId)
  }

  /** The record the store keeps for `data` under the id it assigns: it carries that id and
      gives back exactly the data it was created from. */
  function Stored(data: TransactionData, id: string): (r: Transaction)
    ensures r.id == id && DataOf(r) == data
  {
    Transaction(id, data.amount, data.description, data.paymentMode, data.isSplit, data.date, data.userId)
  }

  /** Only amount, description, payment mode, the truth value of isSplit and the date reach the
      stored record, together with the owner's id: two bodies that agree on those give the
      same record whatever their category, splitWith or email. */
  lemma StoredFieldsOnly(b1: PostBody, b2: PostBody, ownerId: string, id: string)
    requires b1.amount == b2.amount && b1.description == b2.description
    requires b1.paymentMode == b2.paymentMode && b1.date == b2.date
    requires Truthy(b1.isSplit) == Truthy(b2.isSplit)
    ensures Stored(BuildTransactionData(b1, ownerId), id) == Stored(BuildTransactionData(b2, ownerId), id)
    ensures Stored(BuildTransactionData(b1, ownerId), id).userId == ownerId
    ensures Stored(BuildTransactionData(b1, ownerId), id).isSplit == Truthy(b1.isSplit)
  {
  }

  /** Newest first: no transaction is dated after one listed before it. */
  ghost predicate NewestFirst(ts: seq<Transaction>) {
    forall i, j :: 0 <= i < j < |ts| ==> AtOrBefore(ts[j].date, ts[i].date)
  }

  /** Inserts `t` into a newest-first list, in front of the first transaction that is not
      newer than it. */
  function InsertByDate(t: Transaction, sorted: seq<Transaction>): (r: seq<Transaction>)
    ensures multiset(r) == multiset(sorted) + multiset{t}
  {
    if sorted == [] || AtOrBefore(sorted[0].date, t.date) then
      [t] + sorted
    else
      assert sorted == [sorted[0]] + sorted[1..];
      [sorted[0]] + InsertByDate(t, sorted[1..])
  }

  /** Inserting into a newest-first list keeps it newest first. */
  lemma {:induction false} InsertByDateNewestFirst(t: Transaction, sorted: seq<Transaction>)
    requires NewestFirst(sorted)
    ensures NewestFirst(InsertByDate(t, sorted))
  {
    var r := InsertByDate(t, sorted);
    if sorted == [] || AtOrBefore(sorted[0].date, t.date) {
      forall i, j | 0 <= i < j < |r| ensures AtOrBefore(r[j].date, r[i].date) {
        if i == 0 {
          AtOrBeforeTotalOrder(sorted[j - 1].date, sorted[0].date, t.date);
        }
      }
    } else {
      var s0, rest := sorted[0], InsertByDate(t, sorted[1..]);
      InsertByDateNewestFirst(t, sorted[1..]);
      assert r == [s0] + rest;
      forall x | x in rest ensures AtOrBefore(x.date, s0.date) {
        assert multiset(rest)[x] > 0;
        if x == t {
          AtOrBeforeTotalOrder(s0.date, t.date, t.date);
        } else {
          assert x in sorted[1..];
          var k :| 0 <= k < |sorted[1..]| && sorted[1..][k] == x;
          assert sorted[k + 1] == x;
        }
      }
      forall i, j | 0 <= i < j < |r| ensures AtOrBefore(r[j].date, r[i].date) {
        if i == 0 {
          assert r[j] == rest[j - 1] && rest[j - 1] in rest;
        } else {
          assert r[i] == rest[i - 1] && r[j] == rest[j - 1];
        }
      }
    }
  }

  /** `orderBy: { date: "desc" }`: the transactions, newest first. Transactions with the same
      date keep their store order. */
  function ByDateDesc(ts: seq<Transaction>): (r: seq<Transaction>)
    ensures NewestFirst(r)
    ensures multiset(r) == multiset(ts)
  {
    if ts == [] then []
    else
      assert ts == [ts[0]] + ts[1..];
      InsertByDateNewestFirst(ts[0], ByDateDesc(ts[1..]));
      InsertByDate(ts[0], ByDateDesc(ts[1..]))
  }

  function OwnedBy(userId: string): Transaction -> bool {
    (t: Transaction) => t.userId == userId
  }

  /** `findMany({ where: { userId }, orderBy: { date: "desc" } })`: exactly the user's
      transactions, each as often as stored, newest first. */
  function ListForUser(stored: seq<Transaction>, userId: string): (r: seq<Transaction>)
    ensures NewestFirst(r)
    ensures forall t :: multiset(r)[t] == if t.userId == userId then multiset(stored)[t] else 0
  {
    ByDateDesc(Filter(stored, OwnedBy(userId)))
  }

  lemma {:induction false} SumInsertByDate(t: Transaction, sorted: seq<Transaction>)
    ensures Sum(InsertByDate(t, sorted)) == t.amount + Sum(sorted)
  {
    if !(sorted == [] || AtOrBefore(sorted[0].date, t.date)) {
      SumInsertByDate(t, sorted[1..]);
    }
  }

  /** Ordering does not change the sum. */
  lemma {:induction false} SumByDateDesc(ts: seq<Transaction>)
    ensures Sum(ByDateDesc(ts)) == Sum(ts)
  {
    if ts != [] {
      SumByDateDesc(ts[1..]);
      SumInsertByDate(ts[0], ByDateDesc(ts[1..]));
    }
  }

  /** `totalExpense` is the sum of the amounts of all the user's transactions in the store,
      whatever order they are listed in; it is 0 when the user has none. */
  lemma TotalExpenseIsUserSum(stored: seq<Transaction>, userId: string)
    ensures Sum(ListForUser(stored, userId)) == Sum(Filter(stored, OwnedBy(userId)))
    ensures (forall t :: t in stored ==> t.userId != userId) ==> Sum(ListForUser(stored, userId)) == 0
  {
    SumByDateDesc(Filter(stored, OwnedBy(userId)));
  }

  /** A transaction stored for a user shows up in that user's next listing. */
  lemma CreatedIsListed(stored: seq<Transaction>, record: Transaction)
    ensures record in ListForUser(stored + [record], record.userId)
  {
    var all := stored + [record];
    assert all[|stored|] == record;
    assert multiset(all)[record] > 0;
    assert multiset(ListForUser(all, record.userId))[record] > 0;
  }

  /** Which store call throws, if any. */
  datatype StoreFault = NoFault | ReadFails | UserCreateFails | TransactionCreateFails

  /** The JSON the route answers with. */
  datatype Payload =
    | Listing(transactions: seq<Transaction>, totalExpense: int)
    | Created(transaction: Transaction)
    | Error(error: string)

  datatype Response = Response(status: int, payload: Payload)

  /** The database behind the route. */
  class Store {
    var users: map<string, User>
    var transactions: seq<Transaction>

    /** Users are found by `clerkId`; every user is created by this route for a signed-in
        request, with `id` equal to its non-empty `clerkId`. */
    ghost predicate Valid()
      reads this
    {
      forall k :: k in users ==> k != "" && users[k].clerkId == k && users[k].id == k
    }

    constructor ()
      ensures Valid() && users == map[] && transactions == []
    {
      users := map[];
      transactions := [];
    }

    /** `user.findUnique({ where: { clerkId } })`. */
    method FindUser(clerkId: string) returns (u: Option<User>)
      ensures u.Some? <==> clerkId in users
      ensures u.Some? ==> u.value == users[clerkId]
    {
      u := if clerkId in users then Some(users[clerkId]) else None;
    }

    /** `user.create`. */
    method CreateUser(u: User) returns (created: User)
      modifies this
      ensures created == u
      ensures users == old(users)[u.clerkId := u] && transactions == old(transactions)
    {
      users := users[u.clerkId := u];
      created := u;
    }

    /** `transaction.create`: appends the record under the id the database assigns. */
    method CreateTransaction(data: TransactionData, id: string) returns (created: Transaction)
      modifies this
      ensures created == Stored(data, id)
      ensures transactions == old(transactions) + [created] && users == old(users)
    {
      created := Stored(data, id);
      transactions := transactions + [created];
    }
  }

  /** `!userId` is false: the identity provider reported a non-empty user id. */
  predicate SignedIn(userId: Option<string>) {
    userId.Some? && userId.value != ""
  }

  /** The request handler. `userId` is what the identity provider reports for the request,
      `newId` the id the database would give a new transaction, and `fault` the store call
      that throws, if any. */
  method Handler(store: Store, userId: Option<string>, httpMethod: string, body: PostBody,
                 newId: string, fault: StoreFault) returns (res: Response)
    requires store.Valid()
    modifies store
    ensures store.Valid()
    ensures !SignedIn(userId) ==> res == Response(401, Error("Unauthorized")) && unchanged(store)
    ensures SignedIn(userId) && httpMethod == "GET" ==>
              unchanged(store)
              && res == if fault == ReadFails then Response(500, Error("Failed to fetch transactions"))
                        else Response(200, Listing(ListForUser(store.transactions, userId.value),
                                                   Sum(ListForUser(store.transactions, userId.value))))
    ensures SignedIn(userId) && httpMethod == "POST" ==>
              var clerk := userId.value;
              var existed := clerk in old(store.users);
              var owner := if existed then old(store.users)[clerk] else User(clerk, clerk, EmailOf(body));
              var record := Stored(BuildTransactionData(body, owner.id), newId);
              if fault == ReadFails || (!existed && fault == UserCreateFails) then
                res == Response(500, Error("Failed to create transaction")) && unchanged(store)
              else
                store.users == old(store.users)[clerk := owner]
                && (if fault == TransactionCreateFails then
                      res == Response(500, Error("Failed to create transaction"))
                      && store.transactions == old(store.transactions)
                    else
                      res == Response(201, Created(record))
                      && store.transactions == old(store.transactions) + [record]
                      && record.userId == clerk)
    ensures SignedIn(userId) && httpMethod != "GET" && httpMethod != "POST" ==>
              res == Response(405, Error("Method not allowed")) && unchanged(store)
  {
    if userId.None? || userId.value == "" {
      return Response(401, Error("Unauthorized"));
    }
    var clerk := userId.value;

    if httpMethod == "GET" {
      if fault == ReadFails {
        return Response(500, Error("Failed to fetch transactions"));
      }
      var listed := ListForUser(store.transactions, clerk);
      var totalExpense := Sum(listed);
      return Response(200, Listing(listed, totalExpense));
    }

    if httpMethod == "POST" {
      if fault == ReadFails {
        return Response(500, Error("Failed to create transaction"));
      }
      var user := store.FindUser(clerk);
      if user.None? {
        if fault == UserCreateFails {
          return Response(500, Error("Failed to create transaction"));
        }
        var created := store.CreateUser(User(clerk, clerk, EmailOf(body)));
        user := Some(created);
      }
      var transactionData := BuildTransactionData(body, user.value.id);
      if fault == TransactionCreateFails {
        return Response(500, Error("Failed to create transaction"));
      }
      var transaction := store.CreateTransaction(transactionData, newId);
      return Response(201, Created(transaction));
    }

    return Response(405, Error("Method not allowed"));
  }

  /** Two POSTs by the same signed-in user: the user record is created at most once, by the
      first, and the second adds a transaction without touching the users. */
  method PostTwice(store: Store, clerk: string, first: PostBody, second: PostBody, id1: string, id2: string)
    returns (r1: Response, r2: Response)
    requires store.Valid() && clerk != ""
    modifies store
    ensures store.Valid()
    ensures r1.status == 201 && r2.status == 201
    ensures clerk in store.users
    ensures store.users.Keys == old(store.users).Keys + {clerk}
    ensures clerk in old(store.users) ==> store.users == old(store.users)
    ensures |store.transactions| == |old(store.transactions)| + 2
  {
    ghost var before := store.users;
    ghost var owner := if clerk in before then before[clerk] else User(clerk, clerk, EmailOf(first));
    r1 := Handler(store, Some(clerk), "POST", first, id1, NoFault);
    assert store.users == before[clerk := owner];
    assert clerk in store.users;
    ghost var afterFirst := store.users;
    r2 := Handler(store, Some(clerk), "POST", second, id2, NoFault);
    assert store.users == afterFirst[clerk := afterFirst[clerk]];
    assert store.users == afterFirst;
  }
}
