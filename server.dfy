/**
 * The Express backend: the decisions behind `/api/esp32`, `/api/latest`, `/api/history`,
 * `/api/analytics` and `/api/login`. The SQLite `readings` table is a sequence of rows in id
 * order; a database failure is an input flag, and bcrypt is an uninterpreted `verify`.
 */
module Server {
  import opened Wrappers
  import opened Seqs
  import opened Strings
  import opened Readings
  import opened Grouping

  /** What a handler sends: a JSON value, an error status with its message, or nothing (the process crashes). */
  datatype Reply<T> = Ok(value: T) | Error(status: nat, message: string) | Crash

  const MaxLimit: int := 5000
  const DefaultLimit: int := 100

  /** `parseInt(req.query.x, 10)`: a missing parameter is `parseInt("undefined")`, which is `NaN`. */
  function ParseParam(param: Option<string>): Option<int>
  {
    ParseInt(param.GetOr("undefined"))
  }

  /** The page size `/api/history` uses: a positive parsed value capped at 5000, otherwise 100. */
  function LimitOf(param: Option<string>): (n: int)
    ensures 1 <= n <= MaxLimit
    ensures n == DefaultLimit || ParseParam(param) == Some(n) || (ParseParam(param).Some? && ParseParam(param).value > MaxLimit && n == MaxLimit)
    ensures forall v :: ParseParam(param) == Some(v) && 0 < v ==> n == Min(v, MaxLimit)
    ensures ParseParam(param).None? || ParseParam(param).value <= 0 ==> n == DefaultLimit
  {
    match ParseParam(param)
    case Some(v) => if v > 0 then Min(v, MaxLimit) else DefaultLimit
    case None => DefaultLimit
  }

  /** The number of newest rows `/api/history` skips: a non-negative parsed value, otherwise 0. */
  function OffsetOf(param: Option<string>): (n: nat)
    ensures n == 0 || ParseParam(param) == Some(n)
    ensures forall v :: ParseParam(param) == Some(v) && 0 <= v ==> n == v
  {
    match ParseParam(param)
    case Some(v) => if v > 0 then v else 0
    case None => 0
  }

  /** Lines 78-80 step by step: `|| 100`, the `isNaN`/`<= 0` reset, then `Math.min`. `None` is `NaN`. */
  method NormaliseLimit(param: Option<string>) returns (limit: int)
    ensures 1 <= limit <= MaxLimit
    ensures limit == LimitOf(param)
  {
    var n := ParseParam(param);
    if n.None? || n.value == 0 {
      n := Some(DefaultLimit);
    }
    if n.None? || n.value <= 0 {
      n := Some(DefaultLimit);
    }
    limit := Min(n.value, MaxLimit);
  }

  /** Lines 81-82 step by step: `|| 0`, then the `isNaN`/`< 0` reset. */
  method NormaliseOffset(param: Option<string>) returns (offset: int)
    ensures offset >= 0
    ensures offset == OffsetOf(param)
  {
    var n := ParseParam(param);
    if n.None? || n.value == 0 {
      n := Some(0);
    }
    if n.None? || n.value < 0 {
      n := Some(0);
    }
    offset := n.value;
  }

  /** A query string written by a client for a count `n`, read back as that count. */
  lemma LimitRoundTrip(n: nat)
    requires 1 <= n <= MaxLimit
    ensures LimitOf(Some(DecimalString(n))) == n
  {
    ParseIntOfDecimal(n, "");
    assert DecimalString(n) + "" == DecimalString(n);
  }

  lemma OffsetRoundTrip(n: nat)
    ensures OffsetOf(Some(DecimalString(n))) == n
  {
    ParseIntOfDecimal(n, "");
    assert DecimalString(n) + "" == DecimalString(n);
  }

  /** `SELECT * FROM readings ORDER BY id DESC LIMIT limit OFFSET offset`. */
  function NewestFirst(store: seq<Reading>, limit: nat, offset: nat): (rows: seq<Reading>)
    ensures |rows| <= limit
  {
    var desc := Reverse(store);
    desc[Min(offset, |desc|)..Min(offset + limit, |desc|)]
  }

  /**
   * The page of the store that skips the `offset` newest rows and holds up to `limit` rows
   * before them, oldest first.
   */
  function Page(store: seq<Reading>, limit: nat, offset: nat): (page: seq<Reading>)
    ensures |page| == Min(limit, |store| - Min(offset, |store|))
    ensures page == store[|store| - Min(offset, |store|) - |page|..|store| - Min(offset, |store|)]
    ensures AscendingIds(store) ==> AscendingIds(page)
  {
    var hi := |store| - Min(offset, |store|);
    store[Max(0, hi - limit)..hi]
  }

  /** `rows.reverse()` of the newest-first query is the page in ascending id order. */
  lemma ReversedQueryIsPage(store: seq<Reading>, limit: nat, offset: nat)
    ensures Reverse(NewestFirst(store, limit, offset)) == Page(store, limit, offset)
  {
    ReverseSlice(store, Min(offset, |store|), Min(offset + limit, |store|));
  }

  /** Two adjacent pages, the older one fetched with the larger offset, join into one longer page. */
  lemma AdjacentPages(store: seq<Reading>, older: nat, newer: nat, offset: nat)
    ensures Page(store, older, offset + newer) + Page(store, newer, offset) == Page(store, older + newer, offset)
  {
  }

  /** Fetching pages of size `limit` at offsets 0, limit, 2·limit, … covers the store without gaps or repeats. */
  lemma {:induction false} PagesTile(store: seq<Reading>, limit: nat, count: nat)
    ensures Pages(store, limit, count) == Page(store, limit * count, 0)
  {
    if count == 0 {
      assert limit * count == 0;
    } else {
      var before := limit * (count - 1);
      PagesTile(store, limit, count - 1);
      AdjacentPages(store, limit, before, 0);
      MultipleStep(limit, count);
    }
  }

  /** Enough pages, together at least as long as the store, give back the whole store. */
  lemma PagesCoverStore(store: seq<Reading>, limit: nat, count: nat)
    requires limit * count >= |store|
    ensures Pages(store, limit, count) == store
  {
    PagesTile(store, limit, count);
    var total := limit * count;
    assert Page(store, total, 0) == store[0..|store|];
  }

  lemma MultipleStep(limit: nat, count: nat)
    requires 0 < count
    ensures limit * (count - 1) + limit == limit * count
  {
  }

  /** The concatenation, oldest first, of the first `count` pages of size `limit`. */
  function Pages(store: seq<Reading>, limit: nat, count: nat): seq<Reading>
  {
    if count == 0 then [] else Page(store, limit, limit * (count - 1)) + Pages(store, limit, count - 1)
  }

  /** `GET /api/history`. */
  method History(store: seq<Reading>, allParam: Option<string>, limitParam: Option<string>,
                 offsetParam: Option<string>, dbError: bool) returns (reply: Reply<seq<Reading>>)
    ensures dbError ==> reply == Error(500, "DB error")
    ensures !dbError && allParam == Some("true") ==> reply == Ok(store)
    ensures !dbError && allParam != Some("true") ==> reply == Ok(Page(store, LimitOf(limitParam), OffsetOf(offsetParam)))
  {
    if allParam == Some("true") {
      if dbError {
        return Error(500, "DB error");
      }
      return Ok(store);
    }
    var limit := NormaliseLimit(limitParam);
    var offset := NormaliseOffset(offsetParam);
    if dbError {
      return Error(500, "DB error");
    }
    var rows := NewestFirst(store, limit, offset);
    ReversedQueryIsPage(store, limit, offset);
    reply := Ok(Reverse(rows));
  }

  /** `GET /api/latest`: `ORDER BY id DESC LIMIT 1`. */
  function Latest(store: seq<Reading>, dbError: bool): (reply: Reply<Reading>)
    requires AscendingIds(store)
    ensures dbError ==> reply == Error(500, "DB error")
    ensures !dbError && store == [] ==> reply == Error(404, "No data yet")
    ensures !dbError && store != [] ==> reply.Ok? && reply.value in store
    ensures reply.Ok? ==> forall r :: r in store ==> r.id <= reply.value.id
  {
    if dbError then Error(500, "DB error")
    else if store == [] then Error(404, "No data yet")
    else Ok(Reverse(store)[0])
  }

  /** The analytics key: `r.timestamp.slice(0, 10)`, the `YYYY-MM-DD` part of an ISO timestamp. */
  function DateKey(r: Reading): string
  {
    Slice10(r.timestamp.GetOr(""))
  }

  predicate AllStamped(rows: seq<Reading>)
  {
    forall j :: 0 <= j < |rows| ==> rows[j].timestamp.Some?
  }

  /**
   * `GET /api/analytics` over the rows in timestamp order. `byTimestamp` stands for the result of
   * the `ORDER BY timestamp ASC` query and is taken as given; nothing here ties it to the store.
   * A row with a NULL timestamp makes `r.timestamp.slice` throw inside the database callback, so
   * no reply is sent.
   */
  method Analytics(byTimestamp: seq<Reading>, dbError: bool) returns (reply: Reply<(seq<string>, map<string, seq<Reading>>)>)
    ensures dbError ==> reply == Error(500, "DB error")
    ensures !dbError && !AllStamped(byTimestamp) ==> reply == Crash
    ensures !dbError && AllStamped(byTimestamp) ==> reply.Ok?
    ensures reply.Ok? ==> reply.value.0 == KeysOf(byTimestamp, DateKey)
    ensures reply.Ok? ==> forall k :: k in reply.value.1 <==> k in reply.value.0
    ensures reply.Ok? ==> forall k :: k in reply.value.1 ==> reply.value.1[k] == ByKey(byTimestamp, DateKey, k)
  {
    if dbError {
      return Error(500, "DB error");
    }
    if !AllStamped(byTimestamp) {
      return Crash;
    }
    var keys, grouped := GroupBy(byTimestamp, DateKey);
    reply := Ok((keys, grouped));
  }

  /**
   * The analytics grouping is a partition: each reading sits in the group of its own date as
   * often as in the input and in no other group, and the group sizes add up to the number of
   * readings.
   */
  lemma AnalyticsPartition(rows: seq<Reading>, x: Reading)
    ensures forall k :: multiset(ByKey(rows, DateKey, k))[x] == if DateKey(x) == k then multiset(rows)[x] else 0
    ensures SumSizes(rows, DateKey, KeysOf(rows, DateKey)) == |rows|
  {
    forall k ensures multiset(ByKey(rows, DateKey, k))[x] == if DateKey(x) == k then multiset(rows)[x] else 0 {
      ByKeyMultiplicity(rows, DateKey, k, x);
    }
    GroupSizesSum(rows, DateKey, KeysOf(rows, DateKey));
  }

  /** Readings of one date keep their timestamp order inside that date's group. */
  lemma AnalyticsGroupOrder(rows: seq<Reading>, i: nat, j: nat)
    requires i < j < |rows| && DateKey(rows[i]) == DateKey(rows[j])
    ensures var g := ByKey(rows, DateKey, DateKey(rows[i]));
            Position(rows, DateKey, i) < Position(rows, DateKey, j) < |g|
            && g[Position(rows, DateKey, i)] == rows[i] && g[Position(rows, DateKey, j)] == rows[j]
  {
    OrderWithinGroup(rows, DateKey, i, j);
  }

  /** The readings table, with AUTOINCREMENT ids. */
  class ReadingStore {
    var rows: seq<Reading>
    var nextId: int
    /** Whether the table was created with the `energy`, `frequency` and `pf` columns. */
    const enhancedSchema: bool

    ghost predicate Valid()
      reads this
    {
      AscendingIds(rows) && forall j :: 0 <= j < |rows| ==> rows[j].id < nextId
    }

    constructor (enhanced: bool)
      ensures Valid() && rows == [] && enhancedSchema == enhanced
    {
      rows := [];
      nextId := 1;
      enhancedSchema := enhanced;
    }

    /**
     * `POST /api/esp32` with body field `current`. The server picks `voltage` at random in
     * [115, 125), so it is a parameter here; `power` is `voltage * current / 1000`, and a null
     * current multiplies as 0. The stored row holds NULL in the optional columns of the enhanced
     * schema, but the reply names only the id, the three measurements and the timestamp.
     */
    method PostEsp32(current: Field, voltage: real, timestamp: string, insertFails: bool) returns (reply: Reply<Reading>)
      requires Valid()
      modifies this
      ensures Valid()
      ensures current.Absent? ==> reply == Error(400, "Missing current value") && rows == old(rows) && nextId == old(nextId)
      ensures !current.Absent? && insertFails ==> reply == Error(500, "Database error") && rows == old(rows) && nextId == old(nextId)
      ensures !current.Absent? && !insertFails ==>
                var extra := if enhancedSchema then Null else Absent;
                var saved := Reading(old(nextId), Num(voltage), current, Num(voltage * current.OrZero() / 1000.0),
                                     extra, extra, extra, Some(timestamp));
                && reply == Ok(saved.(energy := Absent, frequency := Absent, pf := Absent))
                && rows == old(rows) + [saved] && nextId == old(nextId) + 1
    {
      if current.Absent? {
        return Error(400, "Missing current value");
      }
      if insertFails {
        return Error(500, "Database error");
      }
      var extra := if enhancedSchema then Null else Absent;
      var saved := Reading(nextId, Num(voltage), current, Num(voltage * current.OrZero() / 1000.0),
                           extra, extra, extra, Some(timestamp));
      rows := rows + [saved];
      nextId := nextId + 1;
      reply := Ok(saved.(energy := Absent, frequency := Absent, pf := Absent));
    }
  }

  /** After a successful insert, `/api/latest` returns the row just saved. */
  lemma LatestAfterInsert(store: seq<Reading>, saved: Reading)
    requires AscendingIds(store)
    requires forall j :: 0 <= j < |store| ==> store[j].id < saved.id
    ensures AscendingIds(store + [saved])
    ensures Latest(store + [saved], false) == Ok(saved)
  {
  }

  /** JavaScript truthiness of a body field that is missing, null or a string. */
  predicate Truthy(s: Option<string>)
  {
    s.Some? && s.value != ""
  }

  /**
   * `POST /api/login`. `users` maps each username to its password hash; `verify(password, hash)`
   * is `bcrypt.compare`.
   */
  function Login(username: Option<string>, password: Option<string>, users: map<string, string>,
                 dbError: bool, verify: (string, string) -> bool): (reply: Reply<string>)
    ensures !Truthy(username) || !Truthy(password) ==> reply == Error(400, "Missing credentials")
    ensures Truthy(username) && Truthy(password) && dbError ==> reply == Error(500, "Server error")
    ensures Truthy(username) && Truthy(password) && !dbError && username.value !in users
            ==> reply == Error(401, "Invalid username or password")
    ensures Truthy(username) && Truthy(password) && !dbError && username.value in users
            && !verify(password.value, users[username.value])
            ==> reply == Error(401, "Invalid username or password")
    ensures reply.Ok? <==> (Truthy(username) && Truthy(password) && !dbError && username.value in users
                            && verify(password.value, users[username.value]))
    ensures reply.Ok? ==> reply.value == username.value
    ensures reply != Crash
  {
    if !Truthy(username) || !Truthy(password) then Error(400, "Missing credentials")
    else if dbError then Error(500, "Server error")
    else if username.value !in users then Error(401, "Invalid username or password")
    else if !verify(password.value, users[username.value]) then Error(401, "Invalid username or password")
    else Ok(username.value)
  }

  /** An unknown user and a wrong password get the same reply, so a client cannot tell which it was. */
  lemma LoginHidesUnknownUser(name: string, password: string, users: map<string, string>,
                              verify: (string, string) -> bool, other: string)
    requires name != "" && password != "" && other != ""
    requires name !in users && other in users && !verify(password, users[other])
    ensures Login(Some(name), Some(password), users, false, verify) == Login(Some(other), Some(password), users, false, verify)
  {
  }
}
