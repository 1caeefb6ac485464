/** What the xhttp server promises its clients, told by requests and replies: what was written is
    what is read, by the cached server, until it is written again. */
module XhttpLaws {
  import opened Options
  import opened XhttpKeys
  import opened XhttpStore

  type Requests = seq<(Request, Env)>

  /** The request may change row `id`. */
  predicate Touches(req: Request, id: int) {
    (req.Update? || req.Delete?) && req.id == id
  }

  /** Invalidations succeed. */
  predicate Careful(reqs: Requests) {
    forall r :: r in reqs ==> r.1.delOk
  }

  predicate LeaveAlone(reqs: Requests, id: int) {
    forall r :: r in reqs ==> !Touches(r.0, id)
  }

  /** The laws below hold in every state that such requests lead to from an empty table. */
  lemma {:induction false} ReachedIsValid(c: Codec, s: State, reqs: Requests)
    requires RoundTrips(c) && Careful(reqs)
    requires s == State(Db(map[], 1), map[]) || Valid(c, s)
    ensures Valid(c, Run(c, s, reqs).1)
    decreases |reqs|
  {
    assert Valid(c, s);
    hide RoundTrips, Valid, Serve;
    if reqs == [] {
    } else {
      assert reqs[0] in reqs;
      ServeAgrees(c, s, reqs[0].0, reqs[0].1);
      ReachedIsValid(c, Serve(c, s, reqs[0].0, reqs[0].1).1, reqs[1..]);
    }
  }

  // ---------------------------------------------------------------------------
  // When a write succeeds
  // ---------------------------------------------------------------------------

  /** Which status each write is answered with. */
  lemma WriteStatus(c: Codec, s: State, req: Request, env: Env)
    requires req.Create? || req.Update? || req.Delete?
    ensures var status := Serve(c, s, req, env).0.status;
            var missing := !req.Create? && req.id !in s.db.rows;
            if !req.Delete? && req.name == "" then status == 400
            else if !env.dbUp then status == 500
            else if missing then status == 404
            else status == (if req.Create? then 201 else if req.Update? then 200 else 204)
    ensures Serve(c, s, req, env).0.status >= 300 ==> Serve(c, s, req, env).1 == s
  {
  }

  // ---------------------------------------------------------------------------
  // What a read finds
  // ---------------------------------------------------------------------------

  /** A read of an id, whether or not it comes from the cache. */
  lemma GetReads(c: Codec, s: State, id: int, env: Env)
    requires RoundTrips(c) && Valid(c, s) && env.Healthy()
    ensures Serve(c, s, Get(id), env).0
         == if id in s.db.rows then Reply(200, One(s.db.rows[id])) else NOT_FOUND
  {
    ServeAgrees(c, s, Get(id), env.(delOk := true));
    hide Valid, RoundTrips;
  }

  /** A read of the list: exactly the rows, in increasing id order. */
  lemma ListReads(c: Codec, s: State, env: Env)
    requires RoundTrips(c) && Valid(c, s) && env.Healthy()
    ensures var reply := Serve(c, s, List, env).0;
            && reply.status == 200 && reply.body.Many?
            && (forall it :: it in reply.body.items <==> it.id in s.db.rows && s.db.rows[it.id] == it)
            && (forall i, j :: 0 <= i < j < |reply.body.items| ==> reply.body.items[i].id < reply.body.items[j].id)
  {
    ServeAgrees(c, s, List, env.(delOk := true));
    RowsInOrder(s.db, s.db.nextId);
    hide RoundTrips, RowsBelow;
  }

  /** Row `id` is as given, or missing. */
  predicate RowIs(s: State, id: int, row: Option<Item>) {
    if row.Some? then id in s.db.rows && s.db.rows[id] == row.value else id !in s.db.rows
  }

  lemma StepLeaves(c: Codec, s: State, req: Request, env: Env, id: int, row: Option<Item>)
    requires Valid(c, s) && RowIs(s, id, row) && id < s.db.nextId
    requires !Touches(req, id) || row.None?
    ensures var s' := Serve(c, s, req, env).1; RowIs(s', id, row) && id < s'.db.nextId
  {
    hide AllRows;
  }

  /** Requests that leave an existing row alone keep it, and a row that is gone stays gone,
      whatever is requested. */
  lemma {:induction false} RunLeaves(c: Codec, s: State, reqs: Requests, id: int, row: Option<Item>)
    requires RoundTrips(c) && Valid(c, s) && Careful(reqs) && RowIs(s, id, row) && id < s.db.nextId
    requires LeaveAlone(reqs, id) || row.None?
    ensures var s' := Run(c, s, reqs).1; Valid(c, s') && RowIs(s', id, row)
    decreases |reqs|
  {
    hide RoundTrips, Valid, Serve, RowIs, Touches;
    if reqs == [] {
    } else {
      var r := reqs[0];
      assert r in reqs;
      ServeAgrees(c, s, r.0, r.1);
      StepLeaves(c, s, r.0, r.1, id, row);
      RunLeaves(c, Serve(c, s, r.0, r.1).1, reqs[1..], id, row);
    }
  }

  // ---------------------------------------------------------------------------
  // The laws
  // ---------------------------------------------------------------------------

  /** A read of `id` and a read of the list, both in the same state, show row `row`. */
  ghost predicate Shows(c: Codec, s: State, id: int, row: Option<Item>, env: Env) {
    var one, all := Serve(c, s, Get(id), env).0, Serve(c, s, List, env).0;
    && one == (if row.Some? then Reply(200, One(row.value)) else NOT_FOUND)
    && all.status == 200 && all.body.Many?
    && (forall it :: it in all.body.items && it.id == id ==> row == Some(it))
    && (row.Some? ==> row.value in all.body.items)
  }

  lemma ShownAfter(c: Codec, s: State, reqs: Requests, id: int, row: Option<Item>, env: Env)
    requires RoundTrips(c) && Valid(c, s) && Careful(reqs) && RowIs(s, id, row) && id < s.db.nextId
    requires LeaveAlone(reqs, id) || row.None?
    requires row.Some? ==> row.value.id == id
    requires env.Healthy()
    ensures Shows(c, Run(c, s, reqs).1, id, row, env)
  {
    RunLeaves(c, s, reqs, id, row);
    var s' := Run(c, s, reqs).1;
    GetReads(c, s', id, env);
    ListReads(c, s', env);
    hide RoundTrips, Valid, Serve, Run;
  }

  /** What a create replies is a row with a new id, the given name and value, created and updated
      at the time of the insert; and that row is what every later read shows, as long as nobody
      updates or deletes it. */
  lemma CreateThenRead(c: Codec, s: State, name: string, value: string, env: Env, reqs: Requests, later: Env)
    requires RoundTrips(c) && Valid(c, s) && env.delOk && Careful(reqs) && later.Healthy()
    requires Serve(c, s, Create(name, value), env).0.status == 201
    ensures var (reply, s1) := Serve(c, s, Create(name, value), env);
            && reply.body.One?
            && var it := reply.body.item;
               && it.id !in s.db.rows
               && it.name == name && it.value == value && it.createdAt == env.now && it.updatedAt == env.now
               && (LeaveAlone(reqs, it.id) ==> Shows(c, Run(c, s1, reqs).1, it.id, Some(it), later))
  {
    var (reply, s1) := Serve(c, s, Create(name, value), env);
    var it := reply.body.item;
    ServeAgrees(c, s, Create(name, value), env);
    if LeaveAlone(reqs, it.id) {
      ShownAfter(c, s1, reqs, it.id, Some(it), later);
    }
    hide Shows, Run;
  }

  /** What an update replies is the row with its old id and creation time, the new name and value
      and the time of the update; and that is what later reads show. */
  lemma UpdateThenRead(c: Codec, s: State, id: int, name: string, value: string, env: Env, reqs: Requests, later: Env)
    requires RoundTrips(c) && Valid(c, s) && env.delOk && Careful(reqs) && later.Healthy()
    requires Serve(c, s, Update(id, name, value), env).0.status == 200
    ensures var (reply, s1) := Serve(c, s, Update(id, name, value), env);
            && reply.body.One? && id in s.db.rows
            && var it := reply.body.item;
               && it.id == id && it.createdAt == s.db.rows[id].createdAt
               && it.name == name && it.value == value && it.updatedAt == env.now
               && (LeaveAlone(reqs, id) ==> Shows(c, Run(c, s1, reqs).1, id, Some(it), later))
  {
    var (reply, s1) := Serve(c, s, Update(id, name, value), env);
    ServeAgrees(c, s, Update(id, name, value), env);
    if LeaveAlone(reqs, id) {
      ShownAfter(c, s1, reqs, id, Some(reply.body.item), later);
    }
    hide Shows, Run;
  }

  /** After a delete every later read of the id is answered 404, whatever happens in between. */
  lemma DeleteThenRead(c: Codec, s: State, id: int, env: Env, reqs: Requests, later: Env)
    requires RoundTrips(c) && Valid(c, s) && env.delOk && Careful(reqs) && later.Healthy()
    requires Serve(c, s, Delete(id), env).0.status == 204
    ensures Shows(c, Run(c, Serve(c, s, Delete(id), env).1, reqs).1, id, None, later)
  {
    ServeAgrees(c, s, Delete(id), env);
    ShownAfter(c, Serve(c, s, Delete(id), env).1, reqs, id, None, later);
  }

  // ---------------------------------------------------------------------------
  // Through an outage of the database
  // ---------------------------------------------------------------------------

  /** The store holds something under `key`. */
  predicate Holds(s: State, key: string) {
    key in s.cache && |s.cache[key]| > 0
  }

  /** No request of these invalidates `key`. */
  predicate Spares(reqs: Requests, key: string) {
    forall r :: r in reqs ==> key !in Affected(r.0)
  }

  lemma StepSpares(c: Codec, s: State, req: Request, env: Env, key: string)
    requires RoundTrips(c) && Holds(s, key) && key !in Affected(req)
    ensures Holds(Serve(c, s, req, env).1, key)
  {
    hide AllRows, ItemKey;
  }

  lemma {:induction false} StaysCached(c: Codec, s: State, reqs: Requests, key: string)
    requires RoundTrips(c) && Holds(s, key) && Spares(reqs, key)
    ensures Holds(Run(c, s, reqs).1, key)
    decreases |reqs|
  {
    hide RoundTrips, Holds, Serve, Affected;
    if reqs == [] {
    } else {
      assert reqs[0] in reqs;
      StepSpares(c, s, reqs[0].0, reqs[0].1, key);
      StaysCached(c, Serve(c, s, reqs[0].0, reqs[0].1).1, reqs[1..], key);
    }
  }

  /** An item once read, its Put done, is served again with the very same reply though the database
      be down, as long as the store answers and nobody has asked to change the row. */
  lemma ItemOutlivesOutage(c: Codec, s: State, id: int, env: Env, reqs: Requests, later: Env)
    requires RoundTrips(c) && Valid(c, s) && env.delOk && env.putOk && Careful(reqs) && LeaveAlone(reqs, id)
    requires Serve(c, s, Get(id), env).0.status == 200 && later.getOk
    ensures var (reply, s1) := Serve(c, s, Get(id), env);
            Serve(c, Run(c, s1, reqs).1, Get(id), later).0 == reply
  {
    var (reply, s1) := Serve(c, s, Get(id), env);
    ServeAgrees(c, s, Get(id), env);
    assert id in s.db.rows && reply == Reply(200, One(s.db.rows[id]));
    assert Holds(s1, ItemKey(id));
    forall r | r in reqs ensures ItemKey(id) !in Affected(r.0) {
      KeysNeverCollide(id, if r.0.Update? || r.0.Delete? then r.0.id else id);
    }
    StaysCached(c, s1, reqs, ItemKey(id));
    RunLeaves(c, s1, reqs, id, Some(s.db.rows[id]));
    hide RoundTrips, Run, Affected, AllRows;
  }

  /** The list likewise, as long as nobody has asked to change anything. */
  lemma ListOutlivesOutage(c: Codec, s: State, env: Env, reqs: Requests, later: Env)
    requires RoundTrips(c) && Valid(c, s) && env.delOk && env.putOk && Careful(reqs) && Spares(reqs, LIST_KEY)
    requires Serve(c, s, List, env).0.status == 200 && later.getOk
    ensures var (reply, s1) := Serve(c, s, List, env);
            Serve(c, Run(c, s1, reqs).1, List, later).0 == reply
  {
    var (reply, s1) := Serve(c, s, List, env);
    ServeAgrees(c, s, List, env);
    assert reply == Reply(200, Many(AllRows(s.db)));
    assert Holds(s1, LIST_KEY);
    StaysCached(c, s1, reqs, LIST_KEY);
    ReadsKeepRows(c, s1, reqs);
    hide RoundTrips, Run, Affected, AllRows;
  }

  lemma {:induction false} ReadsKeepRows(c: Codec, s: State, reqs: Requests)
    requires RoundTrips(c) && Valid(c, s) && Careful(reqs) && Spares(reqs, LIST_KEY)
    ensures var s' := Run(c, s, reqs).1; Valid(c, s') && s'.db == s.db
    decreases |reqs|
  {
    hide RoundTrips, Valid;
    if reqs == [] {
    } else {
      assert reqs[0] in reqs;
      ServeAgrees(c, s, reqs[0].0, reqs[0].1);
      ReadsKeepRows(c, Serve(c, s, reqs[0].0, reqs[0].1).1, reqs[1..]);
      hide Serve;
    }
  }
}
