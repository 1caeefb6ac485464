/** One handler at a time, the racing steps of the xhttp handlers come to what the sequential server
    does: the same reply, the same rows, and the same things in the cache. */
module XhttpSolo {
  import opened Options
  import opened XhttpKeys
  import opened XhttpStore
  import opened XhttpRaces

  /** Both caches say the same under key `k`. */
  ghost predicate AlikeAt(c: Codec, w: World, s: State, k: Key) {
    && (k in w.cache <==> Rendered(k) in s.cache)
    && (k in w.cache ==>
          && |s.cache[Rendered(k)]| > 0
          && match w.cache[k].val
             case OneItem(it) => k.ItemOf? && c.decItem(s.cache[Rendered(k)]) == Some(it)
             case AllItems(its) => k.TheList? && c.decList(s.cache[Rendered(k)]) == Some(its))
  }

  ghost predicate Alike(c: Codec, w: World, s: State) {
    w.hist != [] && Now(w) == s.db && forall k :: AlikeAt(c, w, s, k)
  }

  function Picked(ok: bool): Pick {
    if ok then Good else Bad
  }

  // ---------------------------------------------------------------------------
  // Reads
  // ---------------------------------------------------------------------------

  function ReqOf(k: Key): Request {
    match k
    case ItemOf(id) => Get(id)
    case TheList => List
  }

  function BodyOf(val: Val): Body {
    match val
    case OneItem(it) => One(it)
    case AllItems(its) => Many(its)
  }

  predicate Readable(db: Db, k: Key, env: Env) {
    env.dbUp && (k.ItemOf? || env.scanOk || AllRows(db) == [])
  }

  /** A read from beginning to end, nobody else taking a step. */
  function ReadAlone(w: World, k: Key, env: Env): World
    requires w.hist != []
  {
    var t := |w.threads|;
    var asked := Apply(Apply(w, Read(k)), Go(t, Picked(env.getOk)));
    if asked.threads[t].Served? then asked
    else
      var selected := Apply(asked, Go(t, Picked(Readable(Now(w), k, env))));
      if selected.threads[t].Done? then selected else Apply(selected, Go(t, Picked(env.putOk)))
  }

  /** What the sequential server replies to a read, by where it comes from. */
  lemma ServedFrom(c: Codec, w: World, s: State, k: Key, env: Env)
    requires RoundTrips(c) && Alike(c, w, s)
    ensures var (reply, s') := Serve(c, s, ReqOf(k), env);
            && s'.db == s.db
            && (forall other :: other != Rendered(k) ==> CacheAt(s', other) == CacheAt(s, other))
            && if env.getOk && k in w.cache then reply == Reply(200, BodyOf(w.cache[k].val)) && s' == s
               else if !Readable(s.db, k, env) || Content(s.db, k).None? then reply.status in {404, 500} && s' == s
               else
                 && reply == Reply(200, BodyOf(Content(s.db, k).value))
                 && CacheAt(s', Rendered(k)) == if env.putOk then Some(Encoded(c, Content(s.db, k).value))
                                                else CacheAt(s, Rendered(k))
  {
    assert AlikeAt(c, w, s, k);
    hide AllRows, ItemKey;
  }

  function CacheAt(s: State, key: string): Option<XhttpStore.Bytes> {
    if key in s.cache then Some(s.cache[key]) else None
  }

  function Encoded(c: Codec, val: Val): XhttpStore.Bytes {
    match val
    case OneItem(it) => c.encItem(it)
    case AllItems(its) => c.encList(its)
  }

  function EntryAt(w: World, k: Key): Option<Val> {
    if k in w.cache then Some(w.cache[k].val) else None
  }

  /** And what the steps come to. */
  lemma ReadAloneEffect(w: World, k: Key, env: Env)
    requires w.hist != []
    ensures var w' := ReadAlone(w, k, env);
            && w'.hist == w.hist && |w'.threads| == |w.threads| + 1 && w'.threads[..|w.threads|] == w.threads
            && (forall other :: other != k ==> EntryAt(w', other) == EntryAt(w, other))
            && var th := w'.threads[|w.threads|];
               if env.getOk && k in w.cache then
                 th == Served(k, w.cache[k].val, w.cache[k].sel) && w'.cache == w.cache
               else if !Readable(Now(w), k, env) || Content(Now(w), k).None? then th.Done? && w'.cache == w.cache
               else
                 && th == Served(k, Content(Now(w), k).value, |w.hist| - 1)
                 && EntryAt(w', k) == if env.putOk then Content(Now(w), k) else EntryAt(w, k)
  {
    hide Content, AllRows, Readable, Commits, Drops;
  }

  lemma AlikeStill(c: Codec, w: World, s: State, w': World, s': State, k: Key)
    requires AlikeAt(c, w, s, k) && EntryAt(w', k) == EntryAt(w, k)
    requires CacheAt(s', Rendered(k)) == CacheAt(s, Rendered(k))
    ensures AlikeAt(c, w', s', k)
  {
    assert k in w'.cache <==> k in w.cache;
    assert Rendered(k) in s'.cache <==> Rendered(k) in s.cache;
    hide Rendered;
  }

  lemma AlikeFilled(c: Codec, w: World, s: State, k: Key)
    requires RoundTrips(c) && Content(s.db, k).Some? && EntryAt(w, k) == Content(s.db, k)
    requires CacheAt(s, Rendered(k)) == Some(Encoded(c, Content(s.db, k).value))
    ensures AlikeAt(c, w, s, k)
  {
    hide Rendered, AllRows;
  }

  lemma ReadAloneMatches(c: Codec, w: World, s: State, k: Key, env: Env)
    requires RoundTrips(c) && Alike(c, w, s)
    ensures var (reply, s') := Serve(c, s, ReqOf(k), env);
            var w' := ReadAlone(w, k, env);
            && Alike(c, w', s')
            && |w'.threads| == |w.threads| + 1 && w'.threads[..|w.threads|] == w.threads
            && match w'.threads[|w.threads|]
               case Served(_, val, _) => reply == Reply(200, BodyOf(val))
               case Done => reply.status in {404, 500}
               case _ => false
  {
    var s' := Serve(c, s, ReqOf(k), env).1;
    var w' := ReadAlone(w, k, env);
    ServedFrom(c, w, s, k, env);
    ReadAloneEffect(w, k, env);
    hide RoundTrips, ReadAlone, Serve, Content, Readable, Rendered, AlikeAt, EntryAt, CacheAt, Encoded;
    forall other ensures AlikeAt(c, w', s', other) {
      assert AlikeAt(c, w, s, other);
      RenderedApart(k, other);
      if EntryAt(w', other) == EntryAt(w, other) && CacheAt(s', Rendered(other)) == CacheAt(s, Rendered(other)) {
        AlikeStill(c, w, s, w', s', other);
      } else {
        AlikeFilled(c, w', s', other);
      }
    }
  }

  // ---------------------------------------------------------------------------
  // Writes
  // ---------------------------------------------------------------------------

  predicate CanDrop(w: World, t: nat, oks: seq<bool>) {
    && w.hist != [] && t < |w.threads| && w.threads[t].Dropping?
    && w.threads[t].commit < |w.log| && |w.threads[t].left| == |oks|
  }

  /** The invalidations that are left, each with its own luck, and the end of the handler. */
  function DropAlone(w: World, t: nat, oks: seq<bool>): World
    requires CanDrop(w, t, oks)
    decreases |oks|
  {
    if oks == [] then Apply(w, Go(t, Good)) else DropAlone(Apply(w, Go(t, Picked(oks[0]))), t, oks[1..])
  }

  function WriteAlone(w: World, req: Request, env: Env, oks: seq<bool>): World
    requires w.hist != [] && IsWrite(req) && |oks| == |Keys(req)|
  {
    var t := |w.threads|;
    var written := Apply(Apply(w, Write(req, env)), Go(t, Picked(env.dbUp)));
    if written.threads[t].Dropping? then DropAlone(written, t, oks) else written
  }

  /** The keys whose invalidation succeeds. */
  function Hits(keys: seq<Key>, oks: seq<bool>): set<Key>
    requires |keys| == |oks|
  {
    if keys == [] then {} else (if oks[0] then {keys[0]} else {}) + Hits(keys[1..], oks[1..])
  }

  /** Each key is tried, whatever became of the one before it, and a success takes it out. */
  lemma {:induction false} DropAloneEffect(w: World, t: nat, oks: seq<bool>)
    requires CanDrop(w, t, oks)
    ensures var w' := DropAlone(w, t, oks);
            && w'.cache == w.cache - Hits(w.threads[t].left, oks)
            && w'.hist == w.hist && w'.threads == w.threads[t := Done]
    decreases |oks|
  {
    if oks == [] {
    } else {
      DropAloneEffect(Apply(w, Go(t, Picked(oks[0]))), t, oks[1..]);
    }
  }

  /** A database that does not answer is the only thing between a write and its commit. */
  lemma WriteReplies(db: Db, req: Request, env: Env)
    requires IsWrite(req)
    ensures var (reply, db') := Direct(db, req, env);
            reply.status < 300 <==> env.dbUp && Direct(db, req, env.(dbUp := true)).0.status < 300
    ensures env.dbUp ==> env.(dbUp := true) == env
  {
  }

  /** The commit, or its failure. */
  lemma CommitAlone(w: World, req: Request, env: Env)
    requires w.hist != [] && IsWrite(req)
    ensures var (reply, db) := Direct(Now(w), req, env);
            var begun := Apply(w, Write(req, env));
            && Enabled(begun, Go(|w.threads|, Picked(env.dbUp)))
            && var w' := Apply(begun, Go(|w.threads|, Picked(env.dbUp)));
               && w'.cache == w.cache
               && if reply.status < 300 then
                    && w'.hist == w.hist + [db] && |w'.log| == |w.log| + 1
                    && w'.threads == w.threads + [Dropping(|w.log|, Keys(req))]
                  else w'.hist == w.hist && w'.threads == w.threads + [Done]
  {
    assert Now(Apply(w, Write(req, env))) == Now(w);
    WriteReplies(Now(w), req, env);
    hide Direct, Keys, IsWrite;
  }

  /** A write from beginning to end: it commits exactly when the sequential server accepts it, and
      leaves the same rows; and it takes out of the cache exactly the keys whose own invalidation
      succeeds. */
  lemma WriteAloneMatches(c: Codec, w: World, s: State, req: Request, env: Env, oks: seq<bool>)
    requires Alike(c, w, s) && IsWrite(req) && |oks| == |Keys(req)|
    ensures var (reply, s') := Serve(c, s, req, env);
            var w' := WriteAlone(w, req, env, oks);
            && w'.hist == (if reply.status < 300 then w.hist + [s'.db] else w.hist)
            && w'.threads == w.threads + [Done]
            && w'.cache == (if reply.status < 300 then w.cache - Hits(Keys(req), oks) else w.cache)
  {
    var t := |w.threads|;
    CommitAlone(w, req, env);
    var written := Apply(Apply(w, Write(req, env)), Go(t, Picked(env.dbUp)));
    if written.threads[t].Dropping? {
      DropAloneEffect(written, t, oks);
      assert written.threads[t := Done] == w.threads + [Done];
    }
    assert Now(w) == s.db;
    hide Alike, Direct, Hits, DropAlone, Apply, Keys, Picked;
  }

  lemma {:induction false} AllOrNone(keys: seq<Key>, oks: seq<bool>, ok: bool)
    requires |keys| == |oks| && forall i :: 0 <= i < |oks| ==> oks[i] == ok
    ensures Hits(keys, oks) == if ok then set k | k in keys else {}
    decreases |keys|
  {
    if keys == [] {
    } else {
      AllOrNone(keys[1..], oks[1..], ok);
      assert keys == [keys[0]] + keys[1..];
    }
  }

  /** With the luck the sequential model gives them, all or none, the caches stay alike too. */
  lemma WriteAloneAlike(c: Codec, w: World, s: State, req: Request, env: Env, oks: seq<bool>)
    requires Alike(c, w, s) && IsWrite(req) && |oks| == |Keys(req)|
    requires forall i :: 0 <= i < |oks| ==> oks[i] == env.delOk
    ensures Alike(c, WriteAlone(w, req, env, oks), Serve(c, s, req, env).1)
  {
    WriteAloneMatches(c, w, s, req, env, oks);
    AllOrNone(Keys(req), oks, env.delOk);
    var w', s' := WriteAlone(w, req, env, oks), Serve(c, s, req, env).1;
    hide WriteAlone, Hits, AllRows, ItemKey;
    forall k ensures AlikeAt(c, w', s', k) {
      assert AlikeAt(c, w, s, k);
      AffectedAlike(req, k);
    }
  }

  /** The keys are the same ones in both models. */
  lemma AffectedAlike(req: Request, k: Key)
    requires IsWrite(req)
    ensures k in Keys(req) <==> Rendered(k) in Affected(req)
  {
    RenderedApart(k, TheList);
    RenderedApart(k, ItemOf(if req.Create? then 0 else req.id));
    hide ItemKey;
  }
}
