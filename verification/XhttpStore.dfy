/** The xhttp handlers one at a time: PostgreSQL rows, a cache in front of them that may fail,
    and the server without a cache that they are compared with. */
module XhttpStore {
  import opened Options
  import opened XhttpKeys

  /** A row of the table. */
  datatype Item = Item(id: int, name: string, value: string, createdAt: int, updatedAt: int)

  type Bytes = seq<bv8>

  /** `json.Marshal` and `json.Unmarshal` for one item and for a list. */
  datatype Codec = Codec(
    encItem: Item -> Bytes, decItem: Bytes -> Option<Item>,
    encList: seq<Item> -> Bytes, decList: Bytes -> Option<seq<Item>>)

  ghost predicate RoundTrips(c: Codec) {
    && (forall it :: |c.encItem(it)| > 0 && c.decItem(c.encItem(it)) == Some(it))
    && (forall its :: |c.encList(its)| > 0 && c.decList(c.encList(its)) == Some(its))
  }

  datatype Db = Db(rows: map<int, Item>, nextId: nat)

  predicate DbOk(db: Db) {
    forall id :: id in db.rows ==> 0 <= id < db.nextId && db.rows[id].id == id
  }

  datatype State = State(db: Db, cache: map<string, Bytes>)

  datatype Request =
    | BadJson
    | Create(name: string, value: string)
    | Get(id: int)
    | List
    | Update(id: int, name: string, value: string)
    | Delete(id: int)

  datatype Body = Nothing | Message(text: string) | One(item: Item) | Many(items: seq<Item>)

  datatype Reply = Reply(status: nat, body: Body)

  const INVALID_JSON := Reply(400, Message("invalid json"))
  const NAME_REQUIRED := Reply(400, Message("name required"))
  const NOT_FOUND := Reply(404, Message("not found"))
  const DB_ERROR := Reply(500, Message("db error"))
  const SCAN_ERROR := Reply(500, Message("db scan error"))

  /** What the surroundings do during one request: whether the database answers and the rows of
      a list can be read, which cache operations succeed, the clock, and how many serial numbers
      were lost before an insert. */
  datatype Env = Env(dbUp: bool, scanOk: bool, getOk: bool, putOk: bool, delOk: bool, now: int, gap: nat) {
    predicate Healthy() {
      dbUp && scanOk
    }

    /** The same, with the database in order. */
    function Repaired(): Env {
      this.(dbUp := true, scanOk := true)
    }
  }

  // ---------------------------------------------------------------------------
  // The server without a cache
  // ---------------------------------------------------------------------------

  /** `SELECT ... ORDER BY id`, restricted to ids below `n`. */
  function RowsBelow(rows: map<int, Item>, n: nat): seq<Item> {
    if n == 0 then [] else RowsBelow(rows, n - 1) + (if n - 1 in rows then [rows[n - 1]] else [])
  }

  lemma {:induction false} RowsGrow(rows: map<int, Item>, m: nat, n: nat)
    requires m <= n
    ensures RowsBelow(rows, m) <= RowsBelow(rows, n)
    decreases n
  {
    if m == n {
    } else {
      RowsGrow(rows, m, n - 1);
    }
  }

  function AllRows(db: Db): seq<Item> {
    RowsBelow(db.rows, db.nextId)
  }

  function Inserted(db: Db, name: string, value: string, env: Env): (Item, Db) {
    var id := db.nextId + env.gap;
    var it := Item(id, name, value, env.now, env.now);
    (it, Db(db.rows[id := it], id + 1))
  }

  function Updated(it: Item, name: string, value: string, env: Env): Item {
    it.(name := name, value := value, updatedAt := env.now)
  }

  function Direct(db: Db, req: Request, env: Env): (Reply, Db) {
    match req
    case BadJson => (INVALID_JSON, db)
    case Create(name, value) =>
      if name == "" then (NAME_REQUIRED, db)
      else if !env.dbUp then (DB_ERROR, db)
      else var (it, db') := Inserted(db, name, value, env); (Reply(201, One(it)), db')
    case Get(id) =>
      if !env.dbUp then (DB_ERROR, db)
      else if id !in db.rows then (NOT_FOUND, db)
      else (Reply(200, One(db.rows[id])), db)
    case List =>
      if !env.dbUp then (DB_ERROR, db)
      else if !env.scanOk && AllRows(db) != [] then (SCAN_ERROR, db)
      else (Reply(200, Many(AllRows(db))), db)
    case Update(id, name, value) =>
      if name == "" then (NAME_REQUIRED, db)
      else if !env.dbUp then (DB_ERROR, db)
      else if id !in db.rows then (NOT_FOUND, db)
      else var it := Updated(db.rows[id], name, value, env);
           (Reply(200, One(it)), db.(rows := db.rows[id := it]))
    case Delete(id) =>
      if !env.dbUp then (DB_ERROR, db)
      else if id !in db.rows then (NOT_FOUND, db)
      else (Reply(204, Nothing), db.(rows := db.rows - {id}))
  }

  // ---------------------------------------------------------------------------
  // The server with its cache
  // ---------------------------------------------------------------------------

  /** `cache.Get`: nothing on a miss or on any error. */
  function CacheGet(cache: map<string, Bytes>, key: string, env: Env): Bytes {
    if env.getOk && key in cache then cache[key] else []
  }

  function CachePut(cache: map<string, Bytes>, key: string, val: Bytes, env: Env): map<string, Bytes> {
    if env.putOk then cache[key := val] else cache
  }

  function CacheDrop(cache: map<string, Bytes>, keys: set<string>, env: Env): map<string, Bytes> {
    if env.delOk then cache - keys else cache
  }

  function KeySet(keys: seq<string>): set<string> {
    set k | k in keys
  }

  function CachedItem(c: Codec, s: State, id: int, env: Env): Option<Item> {
    var val := CacheGet(s.cache, ItemKey(id), env);
    if |val| > 0 then c.decItem(val) else None
  }

  function CachedList(c: Codec, s: State, env: Env): Option<seq<Item>> {
    var val := CacheGet(s.cache, LIST_KEY, env);
    if |val| > 0 then c.decList(val) else None
  }

  /** Which keys a successful write invalidates. */
  function Affected(req: Request): set<string> {
    match req
    case Create(_, _) => {LIST_KEY}
    case Update(id, _, _) => {ItemKey(id), LIST_KEY}
    case Delete(id) => {ItemKey(id), LIST_KEY}
    case _ => {}
  }

  function Serve(c: Codec, s: State, req: Request, env: Env): (Reply, State) {
    var (reply, db) := Direct(s.db, req, env);
    match req
    case BadJson => (reply, s)
    case Get(id) =>
      var hit := CachedItem(c, s, id, env);
      if hit.Some? then (Reply(200, One(hit.value)), s)
      else if reply.status == 200 && reply.body.One?
        then (reply, s.(cache := CachePut(s.cache, ItemKey(id), c.encItem(reply.body.item), env)))
      else (reply, s)
    case List =>
      var hit := CachedList(c, s, env);
      if hit.Some? then (Reply(200, Many(hit.value)), s)
      else if reply.status == 200 && reply.body.Many?
        then (reply, s.(cache := CachePut(s.cache, LIST_KEY, c.encList(reply.body.items), env)))
      else (reply, s)
    case _ =>
      if reply.status < 300 then (reply, State(db, CacheDrop(s.cache, Affected(req), env))) else (reply, s)
  }

  // ---------------------------------------------------------------------------
  // The handlers
  // ---------------------------------------------------------------------------

  class Server {
    const codec: Codec
    var rows: map<int, Item>
    var nextId: nat
    var cache: map<string, Bytes>

    ghost function Now(): State
      reads this
    {
      State(Db(rows, nextId), cache)
    }

    constructor (codec: Codec)
      ensures this.codec == codec && Now() == State(Db(map[], 1), map[])
    {
      this.codec := codec;
      rows, nextId, cache := map[], 1, map[];
    }

    method CacheRead(key: string, env: Env) returns (val: Bytes)
      ensures val == CacheGet(cache, key, env)
    {
      if env.getOk && key in cache {
        val := cache[key];
      } else {
        val := [];
      }
    }

    method CacheWrite(key: string, val: Bytes, env: Env)
      modifies `cache
      ensures cache == CachePut(old(cache), key, val, env)
    {
      if env.putOk {
        cache := cache[key := val];
      }
    }

    method Invalidate(keys: seq<string>, env: Env)
      modifies `cache
      ensures cache == CacheDrop(old(cache), KeySet(keys), env)
    {
      for i := 0 to |keys|
        invariant cache == CacheDrop(old(cache), KeySet(keys[..i]), env)
      {
        assert keys[..i + 1] == keys[..i] + [keys[i]];
        if env.delOk {
          cache := cache - {keys[i]};
        }
      }
      assert keys[..|keys|] == keys;
    }

    method HandleCreate(name: string, value: string, env: Env) returns (reply: Reply)
      modifies this
      ensures (reply, Now()) == Serve(codec, old(Now()), Create(name, value), env)
    {
      if name == "" {
        return NAME_REQUIRED;
      }
      if !env.dbUp {
        return DB_ERROR;
      }
      var id := nextId + env.gap;
      var it := Item(id, name, value, env.now, env.now);
      rows, nextId := rows[id := it], id + 1;
      Invalidate([LIST_KEY], env);
      assert KeySet([LIST_KEY]) == {LIST_KEY};
      reply := Reply(201, One(it));
    }

    method HandleGet(id: int, env: Env) returns (reply: Reply)
      modifies this
      ensures (reply, Now()) == Serve(codec, old(Now()), Get(id), env)
    {
      var cached := CacheRead(ItemKey(id), env);
      if |cached| > 0 {
        var it := codec.decItem(cached);
        if it.Some? {
          return Reply(200, One(it.value));
        }
      }
      if !env.dbUp {
        return DB_ERROR;
      }
      if id !in rows {
        return NOT_FOUND;
      }
      var it := rows[id];
      CacheWrite(ItemKey(id), codec.encItem(it), env);
      reply := Reply(200, One(it));
    }

    /** The rows come out of the query one by one, in id order. */
    method HandleList(env: Env) returns (reply: Reply)
      modifies this
      ensures (reply, Now()) == Serve(codec, old(Now()), List, env)
    {
      var cached := CacheRead(LIST_KEY, env);
      if |cached| > 0 {
        var items := codec.decList(cached);
        if items.Some? {
          return Reply(200, Many(items.value));
        }
      }
      if !env.dbUp {
        return DB_ERROR;
      }
      var items: seq<Item> := [];
      var cursor := 0;
      while cursor < nextId
        invariant cursor <= nextId && items == RowsBelow(rows, cursor)
        invariant env.scanOk || items == []
      {
        if cursor in rows {
          if !env.scanOk {
            RowsGrow(rows, cursor + 1, nextId);
            return SCAN_ERROR;
          }
          items := items + [rows[cursor]];
        }
        cursor := cursor + 1;
      }
      CacheWrite(LIST_KEY, codec.encList(items), env);
      reply := Reply(200, Many(items));
    }

    method HandleUpdate(id: int, name: string, value: string, env: Env) returns (reply: Reply)
      modifies this
      ensures (reply, Now()) == Serve(codec, old(Now()), Update(id, name, value), env)
    {
      if name == "" {
        return NAME_REQUIRED;
      }
      if !env.dbUp {
        return DB_ERROR;
      }
      if id !in rows {
        return NOT_FOUND;
      }
      var it := rows[id].(name := name, value := value, updatedAt := env.now);
      rows := rows[id := it];
      Invalidate([ItemKey(id), LIST_KEY], env);
      assert KeySet([ItemKey(id), LIST_KEY]) == {ItemKey(id), LIST_KEY};
      reply := Reply(200, One(it));
    }

    method HandleDelete(id: int, env: Env) returns (reply: Reply)
      modifies this
      ensures (reply, Now()) == Serve(codec, old(Now()), Delete(id), env)
    {
      if !env.dbUp {
        return DB_ERROR;
      }
      var n := if id in rows then 1 else 0;
      rows := rows - {id};
      if n == 0 {
        assert rows == old(rows);
        return NOT_FOUND;
      }
      Invalidate([ItemKey(id), LIST_KEY], env);
      assert KeySet([ItemKey(id), LIST_KEY]) == {ItemKey(id), LIST_KEY};
      reply := Reply(204, Nothing);
    }
  }

  // ---------------------------------------------------------------------------
  // Agreement
  // ---------------------------------------------------------------------------

  /** Every cached item and the cached list are what the database holds. */
  ghost predicate Fresh(c: Codec, s: State) {
    && (forall id :: ItemKey(id) in s.cache ==>
          id in s.db.rows && c.decItem(s.cache[ItemKey(id)]) == Some(s.db.rows[id]))
    && (LIST_KEY in s.cache ==> c.decList(s.cache[LIST_KEY]) == Some(AllRows(s.db)))
  }

  ghost predicate Valid(c: Codec, s: State) {
    DbOk(s.db) && Fresh(c, s)
  }

  /** A new row is never cached already, so `HandleCreate` need not invalidate its key. */
  lemma NewIdsAreUncached(c: Codec, s: State, id: int)
    requires Valid(c, s) && id >= s.db.nextId
    ensures ItemKey(id) !in s.cache
  {
  }

  lemma ReadsStayFresh(c: Codec, s: State, req: Request, env: Env)
    requires RoundTrips(c) && Valid(c, s) && (req.Get? || req.List?)
    ensures Valid(c, Serve(c, s, req, env).1)
  {
    var s' := Serve(c, s, req, env).1;
    forall id | ItemKey(id) in s'.cache
      ensures id in s'.db.rows && c.decItem(s'.cache[ItemKey(id)]) == Some(s'.db.rows[id])
    {
      KeysNeverCollide(id, if req.Get? then req.id else id);
    }
    KeysNeverCollide(if req.Get? then req.id else 0, 0);
    hide AllRows;
  }

  lemma WritesStayFresh(c: Codec, s: State, req: Request, env: Env)
    requires Valid(c, s) && env.delOk && (req.Create? || req.Update? || req.Delete?)
    ensures Valid(c, Serve(c, s, req, env).1)
  {
    var s' := Serve(c, s, req, env).1;
    hide AllRows;
    if req.Create? {
      NewIdsAreUncached(c, s, s.db.nextId + env.gap);
    }
    forall id | ItemKey(id) in s'.cache
      ensures id in s'.db.rows && c.decItem(s'.cache[ItemKey(id)]) == Some(s'.db.rows[id])
    {
      KeysNeverCollide(id, if req.Create? then s.db.nextId + env.gap else req.id);
    }
  }

  /** A reply is the cacheless server's, or, when the database fails, what the cacheless
      server would have said with a working one. */
  predicate Agrees(db: Db, req: Request, env: Env, reply: Reply) {
    reply == Direct(db, req, env).0
    || (!env.Healthy() && (req.Get? || req.List?) && reply == Direct(db, req, env.Repaired()).0)
  }

  lemma ServeAgrees(c: Codec, s: State, req: Request, env: Env)
    requires RoundTrips(c) && Valid(c, s) && env.delOk
    ensures var (reply, s') := Serve(c, s, req, env);
            Agrees(s.db, req, env, reply) && s'.db == Direct(s.db, req, env).1 && Valid(c, s')
  {
    if req.Get? || req.List? {
      ReadsStayFresh(c, s, req, env);
    } else if !req.BadJson? {
      WritesStayFresh(c, s, req, env);
    }
    hide AllRows;
  }

  function Run(c: Codec, s: State, reqs: seq<(Request, Env)>): (seq<Reply>, State)
    decreases |reqs|
  {
    if reqs == [] then ([], s)
    else
      var (reply, s') := Serve(c, s, reqs[0].0, reqs[0].1);
      var (rest, s'') := Run(c, s', reqs[1..]);
      ([reply] + rest, s'')
  }

  function DirectRun(db: Db, reqs: seq<(Request, Env)>): (seq<Reply>, Db)
    decreases |reqs|
  {
    if reqs == [] then ([], db)
    else
      var (reply, db') := Direct(db, reqs[0].0, reqs[0].1);
      var (rest, db'') := DirectRun(db', reqs[1..]);
      ([reply] + rest, db'')
  }

  /** With handlers one at a time and successful invalidations, whatever cache reads and cache
      writes fail: every reply is the cacheless server's, and the rows are the same. */
  lemma {:induction false} CacheIsInvisible(c: Codec, s: State, reqs: seq<(Request, Env)>)
    requires RoundTrips(c) && Valid(c, s)
    requires forall r :: r in reqs ==> r.1.delOk && r.1.Healthy()
    ensures Run(c, s, reqs).0 == DirectRun(s.db, reqs).0
    ensures Run(c, s, reqs).1.db == DirectRun(s.db, reqs).1 && Valid(c, Run(c, s, reqs).1)
    decreases |reqs|
  {
    hide RoundTrips, Valid, Serve, Direct;
    if reqs == [] {
    } else {
      assert reqs[0] in reqs;
      ServeAgrees(c, s, reqs[0].0, reqs[0].1);
      CacheIsInvisible(c, Serve(c, s, reqs[0].0, reqs[0].1).1, reqs[1..]);
    }
  }

  /** The database as the cacheless server leaves it after `k` requests. */
  function DbAfter(db: Db, reqs: seq<(Request, Env)>, k: nat): Db
    requires k <= |reqs|
  {
    DirectRun(db, reqs[..k]).1
  }

  /** With a database that comes and goes, the rows are still the cacheless server's after
      every request, and each reply agrees. */
  lemma {:induction false} OutagesOnlyHide(c: Codec, s: State, reqs: seq<(Request, Env)>, k: nat)
    requires RoundTrips(c) && Valid(c, s) && k < |reqs|
    requires forall r :: r in reqs ==> r.1.delOk
    ensures var (replies, _) := Run(c, s, reqs);
            |replies| == |reqs| && Agrees(DbAfter(s.db, reqs, k), reqs[k].0, reqs[k].1, replies[k])
    decreases |reqs|
  {
    hide RoundTrips, Valid, Serve, Direct, Agrees;
    assert reqs[0] in reqs;
    ServeAgrees(c, s, reqs[0].0, reqs[0].1);
    var s' := Serve(c, s, reqs[0].0, reqs[0].1).1;
    RunLength(c, s', reqs[1..]);
    if k == 0 {
      assert reqs[..0] == [];
    } else {
      OutagesOnlyHide(c, s', reqs[1..], k - 1);
      assert reqs[..k][1..] == reqs[1..][..k - 1];
    }
  }

  lemma {:induction false} RunLength(c: Codec, s: State, reqs: seq<(Request, Env)>)
    ensures |Run(c, s, reqs).0| == |reqs|
    decreases |reqs|
  {
    hide Serve;
    if reqs == [] {
    } else {
      RunLength(c, Serve(c, s, reqs[0].0, reqs[0].1).1, reqs[1..]);
    }
  }

  /** The list query returns exactly the rows, in strictly increasing id order. */
  lemma {:induction false} RowsInOrder(db: Db, n: nat)
    requires DbOk(db)
    ensures var its := RowsBelow(db.rows, n);
            && (forall i, j :: 0 <= i < j < |its| ==> its[i].id < its[j].id)
            && (forall it :: it in its <==> it.id in db.rows && it.id < n && db.rows[it.id] == it)
    decreases n
  {
    if n == 0 {
    } else {
      RowsInOrder(db, n - 1);
      var its := RowsBelow(db.rows, n - 1);
      assert forall i :: 0 <= i < |its| ==> its[i] in its;
    }
  }
}
