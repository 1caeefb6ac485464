/** The xhttp handlers racing each other: every database statement and every cache operation
    is a step of its own, and any cache operation may fail. */
module XhttpRaces {
  import opened Options
  import opened XhttpKeys
  import opened XhttpStore

  datatype Key = ItemOf(id: int) | TheList

  datatype Val = OneItem(item: Item) | AllItems(items: seq<Item>)

  /** What the database holds under a key. */
  function Content(db: Db, k: Key): Option<Val> {
    match k
    case ItemOf(id) => if id in db.rows then Some(OneItem(db.rows[id])) else None
    case TheList => Some(AllItems(AllRows(db)))
  }

  function Rendered(k: Key): string {
    match k
    case ItemOf(id) => ItemKey(id)
    case TheList => LIST_KEY
  }

  /** Distinct keys are distinct strings in the store. */
  lemma RenderedApart(a: Key, b: Key)
    ensures Rendered(a) == Rendered(b) <==> a == b
  {
    KeysNeverCollide(if a.ItemOf? then a.id else 0, if b.ItemOf? then b.id else 0);
  }

  /** The keys of a write, in the order they are invalidated. */
  function Keys(req: Request): seq<Key> {
    match req
    case Create(_, _) => [TheList]
    case Update(id, _, _) => [ItemOf(id), TheList]
    case Delete(id) => [ItemOf(id), TheList]
    case _ => []
  }

  /** A cached value. `sel` and `putAt` are history: which database state its SELECT saw, and
      when its Put was done. */
  datatype Entry = Entry(val: Val, sel: nat, putAt: nat)

  /** One committed write: its keys, its thread, and when each key was invalidated. */
  datatype Commit = Commit(keys: seq<Key>, writer: nat, dropped: map<Key, nat>)

  datatype Thread =
    | Reading(k: Key)
    | Selecting(k: Key)
    | Storing(k: Key, val: Val, sel: nat)
    | Served(k: Key, val: Val, sel: nat)
    | Writing(req: Request, env: Env)
    | Dropping(commit: nat, left: seq<Key>)
    | Done

  /** `hist` holds every database state so far, the current one last; `log[i]` is the write
      that led from `hist[i]` to `hist[i + 1]`. */
  datatype World = World(
    hist: seq<Db>, log: seq<Commit>, cache: map<Key, Entry>, threads: seq<Thread>, clock: nat)

  datatype Pick = Good | Bad | Lost

  datatype Action = Read(k: Key) | Write(req: Request, env: Env) | Go(t: nat, pick: Pick)

  function Now(w: World): Db
    requires w.hist != []
  {
    w.hist[|w.hist| - 1]
  }

  // ---------------------------------------------------------------------------
  // Steps
  // ---------------------------------------------------------------------------

  predicate Enabled(w: World, a: Action) {
    && w.hist != []
    && match a
       case Read(_) => true
       case Write(req, _) => IsWrite(req)
       case Go(t, pick) =>
         && t < |w.threads|
         && !w.threads[t].Served? && !w.threads[t].Done?
         && (pick.Lost? ==> w.threads[t].Writing?)
         && (w.threads[t].Dropping? ==> w.threads[t].commit < |w.log|)
  }

  function Put(w: World, t: nat, th: Thread): World
    requires t < |w.threads|
  {
    w.(threads := w.threads[t := th], clock := w.clock + 1)
  }

  /** A write statement. `Lost`: it commits but the handler sees an error. */
  function Commits(w: World, t: nat, pick: Pick): World
    requires w.hist != [] && t < |w.threads| && w.threads[t].Writing?
  {
    var req, env := w.threads[t].req, w.threads[t].env;
    var (reply, db) := Direct(Now(w), req, env.(dbUp := true));
    if pick.Bad? || reply.status >= 300 then Put(w, t, Done)
    else Put(w, t, if pick.Lost? then Done else Dropping(|w.log|, Keys(req))).(
      hist := w.hist + [db],
      log := w.log + [Commit(Keys(req), t, map[])])
  }

  function Drops(w: World, t: nat, pick: Pick): World
    requires t < |w.threads| && w.threads[t].Dropping? && w.threads[t].commit < |w.log|
  {
    var i, left := w.threads[t].commit, w.threads[t].left;
    if left == [] then Put(w, t, Done)
    else if pick.Bad? then Put(w, t, Dropping(i, left[1..]))
    else Put(w, t, Dropping(i, left[1..])).(
      cache := w.cache - {left[0]},
      log := w.log[i := w.log[i].(dropped := w.log[i].dropped[left[0] := w.clock])])
  }

  function Apply(w: World, a: Action): World
    requires Enabled(w, a)
  {
    match a
    case Read(k) => w.(threads := w.threads + [Reading(k)], clock := w.clock + 1)
    case Write(req, env) => w.(threads := w.threads + [Writing(req, env)], clock := w.clock + 1)
    case Go(t, pick) =>
      match w.threads[t]
      case Reading(k) =>
        Put(w, t, if pick.Good? && k in w.cache then Served(k, w.cache[k].val, w.cache[k].sel) else Selecting(k))
      case Selecting(k) =>
        var found := Content(Now(w), k);
        Put(w, t, if pick.Good? && found.Some? then Storing(k, found.value, |w.hist| - 1) else Done)
      case Storing(k, val, sel) =>
        var w' := Put(w, t, Served(k, val, sel));
        if pick.Good? then w'.(cache := w.cache[k := Entry(val, sel, w.clock)]) else w'
      case Writing(_, _) => Commits(w, t, pick)
      case Dropping(_, _) => Drops(w, t, pick)
      case _ => w
  }

  predicate Runnable(w: World, acts: seq<Action>)
    decreases |acts|
  {
    acts == [] || (Enabled(w, acts[0]) && Runnable(Apply(w, acts[0]), acts[1..]))
  }

  function Exec(w: World, acts: seq<Action>): World
    requires Runnable(w, acts)
    decreases |acts|
  {
    if acts == [] then w else Exec(Apply(w, acts[0]), acts[1..])
  }

  function Init(db: Db): World {
    World([db], [], map[], [], 0)
  }

  // ---------------------------------------------------------------------------
  // Whatever fails: nothing served was ever made up
  // ---------------------------------------------------------------------------

  predicate WasTrue(hist: seq<Db>, k: Key, val: Val, sel: nat) {
    sel < |hist| && Content(hist[sel], k) == Some(val)
  }

  ghost predicate Honest(w: World) {
    && w.hist != []
    && (forall k :: k in w.cache ==> WasTrue(w.hist, k, w.cache[k].val, w.cache[k].sel))
    && (forall t :: 0 <= t < |w.threads| && (w.threads[t].Storing? || w.threads[t].Served?) ==>
          WasTrue(w.hist, w.threads[t].k, w.threads[t].val, w.threads[t].sel))
  }

  lemma StillTrue(hist: seq<Db>, hist': seq<Db>)
    requires hist <= hist'
    ensures forall k, val, sel :: WasTrue(hist, k, val, sel) ==> WasTrue(hist', k, val, sel)
  {
    hide Content;
  }

  lemma SelectIsTrue(w: World, k: Key)
    requires w.hist != [] && Content(Now(w), k).Some?
    ensures WasTrue(w.hist, k, Content(Now(w), k).value, |w.hist| - 1)
  {
  }

  lemma HistoryKept(w: World, a: Action)
    requires Enabled(w, a)
    ensures w.hist <= Apply(w, a).hist
  {
    hide Content, Direct, Keys;
  }

  lemma HonestStep(w: World, a: Action)
    requires Honest(w) && Enabled(w, a)
    ensures Honest(Apply(w, a))
  {
    HistoryKept(w, a);
    StillTrue(w.hist, Apply(w, a).hist);
    if a.Go? && w.threads[a.t].Selecting? && Content(Now(w), w.threads[a.t].k).Some? {
      SelectIsTrue(w, w.threads[a.t].k);
    }
    hide WasTrue, Content, Direct, Keys, Now;
  }

  lemma {:induction false} HonestRun(w: World, acts: seq<Action>)
    requires Honest(w) && Runnable(w, acts)
    ensures Honest(Exec(w, acts))
    decreases |acts|
  {
    hide Honest, Enabled, Apply;
    if acts == [] {
    } else {
      HonestStep(w, acts[0]);
      HonestRun(Apply(w, acts[0]), acts[1..]);
    }
  }

  /** In every interleaving, with any cache operation failing and any commit going unnoticed:
      an item served for an id is that id's row in some past database state, and a list served
      is the whole table, in id order, of one past database state. */
  lemma ServedWasTrue(db: Db, acts: seq<Action>, t: nat)
    requires Runnable(Init(db), acts)
    requires var w := Exec(Init(db), acts); t < |w.threads| && w.threads[t].Served?
    ensures var w := Exec(Init(db), acts);
            var th := w.threads[t];
            && th.sel < |w.hist|
            && match th.k
               case ItemOf(id) => id in w.hist[th.sel].rows && th.val == OneItem(w.hist[th.sel].rows[id])
               case TheList => th.val == AllItems(AllRows(w.hist[th.sel]))
  {
    HonestRun(Init(db), acts);
  }

  // ---------------------------------------------------------------------------
  // Successful invalidations: staleness is exactly a race
  // ---------------------------------------------------------------------------

  /** The step does not lose a commit or fail an invalidation. */
  predicate Sound(w: World, a: Action) {
    a.Go? && a.t < |w.threads| ==>
      !a.pick.Lost? && (w.threads[a.t].Dropping? ==> a.pick.Good?)
  }

  predicate SoundRun(w: World, acts: seq<Action>)
    requires Runnable(w, acts)
    decreases |acts|
  {
    acts == [] || (Sound(w, acts[0]) && SoundRun(Apply(w, acts[0]), acts[1..]))
  }

  /** A write changes nothing that existed outside its keys. */
  predicate Explains(before: Db, after: Db, keys: seq<Key>, k: Key) {
    Content(before, k) == Content(after, k) || Content(before, k) == None || k in keys
  }

  predicate ExplainsAt(w: World, i: nat, k: Key)
    requires i < |w.log| < |w.hist|
  {
    Explains(w.hist[i], w.hist[i + 1], w.log[i].keys, k)
  }

  predicate IsWrite(req: Request) {
    req.Create? || req.Update? || req.Delete?
  }

  ghost predicate HistoryInv(w: World) {
    && |w.hist| == |w.log| + 1
    && (forall i :: 0 <= i < |w.hist| ==> DbOk(w.hist[i]))
    && (forall i, k :: 0 <= i < |w.log| ==> ExplainsAt(w, i, k))
    && (forall t :: 0 <= t < |w.threads| && w.threads[t].Writing? ==> IsWrite(w.threads[t].req))
  }

  /** The invalidation of `k` for commit `i` is still to come. */
  predicate StillToDrop(w: World, i: nat, k: Key)
    requires i < |w.log|
  {
    var t := w.log[i].writer;
    t < |w.threads| && w.threads[t].Dropping? && w.threads[t].commit == i && k in w.threads[t].left
  }

  ghost predicate DropInv(w: World) {
    && (forall t :: 0 <= t < |w.threads| && w.threads[t].Dropping? ==>
          w.threads[t].commit < |w.log| && w.log[w.threads[t].commit].writer == t)
    && (forall i, k :: 0 <= i < |w.log| && k in w.log[i].keys ==> k in w.log[i].dropped || StillToDrop(w, i, k))
    && (forall i, k :: 0 <= i < |w.log| && k in w.log[i].dropped ==> w.log[i].dropped[k] < w.clock)
  }

  /** A write that commits after an entry's SELECT either has its invalidation to come, or
      had it before the entry's Put. */
  ghost predicate EntryInv(w: World) {
    forall k, i :: k in w.cache && w.cache[k].sel <= i < |w.log| && k in w.log[i].keys && k in w.log[i].dropped ==>
      w.log[i].dropped[k] < w.cache[k].putAt
  }

  ghost predicate RaceInv(w: World) {
    Honest(w) && HistoryInv(w) && DropInv(w) && EntryInv(w)
  }

  /** Every successful write explains every change it makes. */
  lemma WriteExplains(db: Db, req: Request, env: Env, k: Key)
    requires DbOk(db) && env.dbUp && (req.Create? || req.Update? || req.Delete?)
    ensures var (reply, db') := Direct(db, req, env);
            DbOk(db') && (reply.status < 300 ==> Explains(db, db', Keys(req), k))
  {
    hide AllRows;
  }

  /** One more database state, led to by one more write. */
  lemma HistoryGrows(w: World, w': World, db: Db, c: Commit)
    requires HistoryInv(w) && w'.hist == w.hist + [db] && w'.log == w.log + [c]
    requires DbOk(db) && forall k :: Explains(Now(w), db, c.keys, k)
    requires forall t :: 0 <= t < |w'.threads| && w'.threads[t].Writing? ==> IsWrite(w'.threads[t].req)
    ensures HistoryInv(w')
  {
    hide Content, Explains, DbOk, IsWrite;
    forall i, k | 0 <= i < |w'.log| ensures ExplainsAt(w', i, k) {
      assert i < |w.log| ==> ExplainsAt(w, i, k);
      assert Explains(Now(w), db, c.keys, k);
    }
  }

  /** No new database state; a write may have noted that it invalidated a key. */
  lemma HistoryStays(w: World, w': World)
    requires HistoryInv(w) && w'.hist == w.hist && |w'.log| == |w.log|
    requires forall i :: 0 <= i < |w.log| ==> w'.log[i].keys == w.log[i].keys
    requires forall t :: 0 <= t < |w'.threads| && w'.threads[t].Writing? ==> IsWrite(w'.threads[t].req)
    ensures HistoryInv(w')
  {
    hide Content, Explains, DbOk, IsWrite;
    forall i, k | 0 <= i < |w'.log| ensures ExplainsAt(w', i, k) {
      assert ExplainsAt(w, i, k);
    }
  }

  lemma HistoryStep(w: World, a: Action)
    requires HistoryInv(w) && Enabled(w, a)
    ensures HistoryInv(Apply(w, a))
  {
    var w' := Apply(w, a);
    hide Content, Explains, DbOk, Direct, Keys, ExplainsAt;
    if a.Go? && w.threads[a.t].Writing? && |w'.hist| > |w.hist| {
      var req, env := w.threads[a.t].req, w.threads[a.t].env;
      forall k ensures DbOk(Now(w')) && Explains(Now(w), Now(w'), Keys(req), k) {
        WriteExplains(Now(w), req, env.(dbUp := true), k);
      }
      HistoryGrows(w, w', Now(w'), w'.log[|w.log|]);
    } else {
      HistoryStays(w, w');
    }
  }

  /** A step that neither commits nor invalidates. */
  lemma IdleKeepsDrops(w: World, w': World, t: nat)
    requires DropInv(w) && w'.log == w.log && w'.clock >= w.clock && |w'.threads| >= |w.threads| && t < |w'.threads|
    requires forall u :: 0 <= u < |w'.threads| && u != t ==> u < |w.threads| && w'.threads[u] == w.threads[u]
    requires !w'.threads[t].Dropping?
    requires t < |w.threads| && w.threads[t].Dropping? ==> w.threads[t].left == []
    ensures DropInv(w')
  {
    forall i, k | 0 <= i < |w'.log| && k in w'.log[i].keys ensures k in w'.log[i].dropped || StillToDrop(w', i, k) {
      assert k in w.log[i].dropped || StillToDrop(w, i, k);
    }
  }

  lemma CommitKeepsDrops(w: World, t: nat, pick: Pick)
    requires HistoryInv(w) && DropInv(w) && Enabled(w, Go(t, pick)) && w.threads[t].Writing? && !pick.Lost?
    ensures DropInv(Commits(w, t, pick))
  {
    hide HistoryInv, Direct, Keys;
    var w' := Commits(w, t, pick);
    if w'.log == w.log {
      IdleKeepsDrops(w, w', t);
    } else {
      forall i, k | 0 <= i < |w'.log| && k in w'.log[i].keys ensures k in w'.log[i].dropped || StillToDrop(w', i, k) {
        if i < |w.log| {
          assert k in w.log[i].dropped || StillToDrop(w, i, k);
        }
      }
    }
  }

  lemma DropKeepsDrops(w: World, t: nat, pick: Pick)
    requires DropInv(w) && Enabled(w, Go(t, pick)) && w.threads[t].Dropping? && pick.Good?
    ensures DropInv(Drops(w, t, pick))
  {
    var w' := Drops(w, t, pick);
    if w.threads[t].left == [] {
      IdleKeepsDrops(w, w', t);
    } else {
      forall i, k | 0 <= i < |w'.log| && k in w'.log[i].keys ensures k in w'.log[i].dropped || StillToDrop(w', i, k) {
        assert k in w.log[i].dropped || StillToDrop(w, i, k);
      }
    }
  }

  lemma DropStep(w: World, a: Action)
    requires HistoryInv(w) && DropInv(w) && Enabled(w, a) && Sound(w, a)
    ensures DropInv(Apply(w, a))
  {
    hide HistoryInv, DropInv, Direct, Keys, Content, Commits, Drops;
    if !a.Go? {
      IdleKeepsDrops(w, Apply(w, a), |w.threads|);
    } else if w.threads[a.t].Writing? {
      CommitKeepsDrops(w, a.t, a.pick);
    } else if w.threads[a.t].Dropping? {
      DropKeepsDrops(w, a.t, a.pick);
    } else {
      IdleKeepsDrops(w, Apply(w, a), a.t);
    }
  }

  lemma DroppedBefore(w: World)
    requires DropInv(w)
    ensures forall i, k :: 0 <= i < |w.log| && k in w.log[i].dropped ==> w.log[i].dropped[k] < w.clock
  {
  }

  lemma EntryStep(w: World, a: Action)
    requires RaceInv(w) && Enabled(w, a) && Sound(w, a)
    ensures EntryInv(Apply(w, a))
  {
    DroppedBefore(w);
    hide HistoryInv, Honest, DropInv, Direct, Keys, Content, DbOk;
  }

  lemma {:induction false} RaceRun(w: World, acts: seq<Action>)
    requires RaceInv(w) && Runnable(w, acts) && SoundRun(w, acts)
    ensures RaceInv(Exec(w, acts))
    decreases |acts|
  {
    hide Honest, HistoryInv, DropInv, EntryInv, Enabled, Apply, Sound;
    if acts == [] {
    } else {
      HonestStep(w, acts[0]);
      HistoryStep(w, acts[0]);
      DropStep(w, acts[0]);
      EntryStep(w, acts[0]);
      RaceRun(Apply(w, acts[0]), acts[1..]);
    }
  }

  /** With no write to `k` between two database states, what was there still is. */
  lemma {:induction false} Untouched(w: World, k: Key, val: Val, first: nat, last: nat)
    requires HistoryInv(w) && first <= last < |w.hist| && Content(w.hist[first], k) == Some(val)
    requires forall i :: first <= i < last ==> k !in w.log[i].keys
    ensures Content(w.hist[last], k) == Some(val)
    decreases last
  {
    hide Content, DbOk;
    if first == last {
    } else {
      Untouched(w, k, val, first, last - 1);
      assert ExplainsAt(w, last - 1, k);
    }
  }

  /** Write `i` raced the read that filled `k`: it committed after that read's SELECT, and its
      own invalidation of `k` was over before that read's Put, or is still to come. */
  predicate Raced(w: World, k: Key, i: nat)
    requires i < |w.log| && k in w.cache
  {
    && w.cache[k].sel <= i && k in w.log[i].keys
    && (if k in w.log[i].dropped then w.log[i].dropped[k] < w.cache[k].putAt else StillToDrop(w, i, k))
  }

  lemma LateWritesRaced(w: World, k: Key)
    requires RaceInv(w) && k in w.cache
    ensures forall i :: w.cache[k].sel <= i < |w.log| && k in w.log[i].keys ==> Raced(w, k, i)
  {
    hide Honest, HistoryInv;
    forall i | w.cache[k].sel <= i < |w.log| && k in w.log[i].keys ensures Raced(w, k, i) {
      assert k in w.log[i].dropped || StillToDrop(w, i, k);
    }
  }

  lemma StaleWasOvertaken(w: World, k: Key)
    requires Honest(w) && HistoryInv(w) && k in w.cache && Content(Now(w), k) != Some(w.cache[k].val)
    ensures exists i :: w.cache[k].sel <= i < |w.log| && k in w.log[i].keys
  {
    var e := w.cache[k];
    hide Content, DbOk, ExplainsAt;
    assert WasTrue(w.hist, k, e.val, e.sel);
    if forall i :: e.sel <= i < |w.log| ==> k !in w.log[i].keys {
      Untouched(w, k, e.val, e.sel, |w.hist| - 1);
    }
  }

  /** In every interleaving with successful invalidations: a cached value that differs from
      the database was overtaken by a write, and every write to its key since its SELECT
      raced it. So an entry whose read raced nobody is never stale. */
  lemma StaleOnlyByRace(db: Db, acts: seq<Action>, k: Key)
    requires DbOk(db) && Runnable(Init(db), acts) && SoundRun(Init(db), acts)
    requires k in Exec(Init(db), acts).cache
    ensures var w := Exec(Init(db), acts);
            && w.hist != []
            && (forall i :: w.cache[k].sel <= i < |w.log| && k in w.log[i].keys ==> Raced(w, k, i))
            && (Content(Now(w), k) != Some(w.cache[k].val) ==>
                  exists i :: w.cache[k].sel <= i < |w.log| && k in w.log[i].keys && Raced(w, k, i))
  {
    RaceRun(Init(db), acts);
    var w := Exec(Init(db), acts);
    hide Runnable, Exec, SoundRun, Content, DbOk, HistoryInv, DropInv, EntryInv, Raced;
    LateWritesRaced(w, k);
    if Content(Now(w), k) != Some(w.cache[k].val) {
      StaleWasOvertaken(w, k);
    }
  }

  /** No invalidation is under way. */
  ghost predicate Quiet(w: World) {
    forall t :: 0 <= t < |w.threads| ==> !w.threads[t].Dropping?
  }

  /** At rest: a stale entry was stored by a read that did its SELECT before some write
      committed and its Put after that write's Invalidate. */
  lemma StaleAtRest(db: Db, acts: seq<Action>, k: Key)
    requires DbOk(db) && Runnable(Init(db), acts) && SoundRun(Init(db), acts)
    requires var w := Exec(Init(db), acts);
             w.hist != [] && Quiet(w) && k in w.cache && Content(Now(w), k) != Some(w.cache[k].val)
    ensures var w := Exec(Init(db), acts);
            exists i :: && w.cache[k].sel <= i < |w.log| && k in w.log[i].keys
                        && k in w.log[i].dropped && w.log[i].dropped[k] < w.cache[k].putAt
  {
    StaleOnlyByRace(db, acts, k);
    hide Runnable, Exec, SoundRun, Content, DbOk;
  }

  // ---------------------------------------------------------------------------
  // Stale if and only if raced
  // ---------------------------------------------------------------------------

  /** An update commits at a later time than the `updated_at` it replaces. */
  predicate Ticks(w: World, a: Action) {
    a.Go? && a.t < |w.threads| && w.threads[a.t].Writing? && w.threads[a.t].req.Update? && w.hist != [] ==>
      var id := w.threads[a.t].req.id;
      id in Now(w).rows ==> Now(w).rows[id].updatedAt < w.threads[a.t].env.now
  }

  predicate TickingRun(w: World, acts: seq<Action>)
    requires Runnable(w, acts)
    decreases |acts|
  {
    acts == [] || (Ticks(w, acts[0]) && TickingRun(Apply(w, acts[0]), acts[1..]))
  }

  /** What one write does to the rows: serials only grow, a gone id stays gone, `updated_at`
      never goes back, and the write's own row goes, or goes forward. */
  ghost predicate Grows(before: Db, after: Db, keys: seq<Key>) {
    && before.nextId <= after.nextId
    && (forall id :: id in after.rows && id < before.nextId ==>
          id in before.rows && before.rows[id].updatedAt <= after.rows[id].updatedAt)
    && (forall id :: ItemOf(id) in keys ==>
          && TheList in keys && id in before.rows
          && (id in after.rows ==> before.rows[id].updatedAt < after.rows[id].updatedAt))
  }

  ghost predicate GrowsAt(w: World, i: nat)
    requires i < |w.log| < |w.hist|
  {
    Grows(w.hist[i], w.hist[i + 1], w.log[i].keys)
  }

  ghost predicate GrowthInv(w: World) {
    HistoryInv(w) && forall i :: 0 <= i < |w.log| ==> GrowsAt(w, i)
  }

  lemma WriteGrows(db: Db, req: Request, env: Env)
    requires DbOk(db) && env.dbUp && IsWrite(req)
    requires req.Update? && req.id in db.rows ==> db.rows[req.id].updatedAt < env.now
    ensures var (reply, db') := Direct(db, req, env);
            reply.status < 300 ==> Grows(db, db', Keys(req))
  {
  }

  lemma GrowthStep(w: World, a: Action)
    requires GrowthInv(w) && Enabled(w, a) && Ticks(w, a)
    ensures GrowthInv(Apply(w, a))
  {
    HistoryStep(w, a);
    var w' := Apply(w, a);
    if a.Go? && w.threads[a.t].Writing? {
      WriteGrows(Now(w), w.threads[a.t].req, w.threads[a.t].env.(dbUp := true));
    }
    hide Direct, Keys, Grows, HistoryInv;
    forall i | 0 <= i < |w'.log| ensures |w'.hist| == |w'.log| + 1 && GrowsAt(w', i) {
      HistorySizes(w);
      assert i < |w.log| ==> GrowsAt(w, i);
    }
  }

  lemma HistorySizes(w: World)
    requires HistoryInv(w)
    ensures |w.hist| == |w.log| + 1
  {
  }

  lemma {:induction false} GrowthRun(w: World, acts: seq<Action>)
    requires GrowthInv(w) && Runnable(w, acts) && TickingRun(w, acts)
    ensures GrowthInv(Exec(w, acts))
    decreases |acts|
  {
    hide GrowthInv, Enabled, Apply, Ticks;
    if acts == [] {
    } else {
      GrowthStep(w, acts[0]);
      GrowthRun(Apply(w, acts[0]), acts[1..]);
    }
  }

  /** Some write between the two states was a write to row `id`. */
  ghost predicate RowWritten(w: World, id: int, first: nat, last: nat)
    requires last <= |w.log|
  {
    exists c :: first <= c < last && ItemOf(id) in w.log[c].keys
  }

  lemma {:induction false} SerialGrows(w: World, first: nat, last: nat)
    requires GrowthInv(w) && first <= last < |w.hist|
    ensures w.hist[first].nextId <= w.hist[last].nextId
    decreases last
  {
    hide ExplainsAt, DbOk;
    if first == last {
    } else {
      SerialGrows(w, first, last - 1);
      assert GrowsAt(w, last - 1);
    }
  }

  /** A row that was there once is gone for good, or is there with an `updated_at` that has
      grown with every write to it. */
  lemma {:induction false} RowHistory(w: World, id: int, first: nat, last: nat)
    requires GrowthInv(w) && first <= last < |w.hist| && id in w.hist[first].rows
    ensures id in w.hist[last].rows ==>
              && w.hist[first].rows[id].updatedAt <= w.hist[last].rows[id].updatedAt
              && (RowWritten(w, id, first, last) ==>
                    w.hist[first].rows[id].updatedAt < w.hist[last].rows[id].updatedAt)
    decreases last
  {
    hide ExplainsAt;
    if first == last {
    } else {
      RowHistory(w, id, first, last - 1);
      SerialGrows(w, first, last - 1);
      assert GrowsAt(w, last - 1);
      assert DbOk(w.hist[first]);
      if c :| first <= c < last && ItemOf(id) in w.log[c].keys && c != last - 1 {
        assert RowWritten(w, id, first, last - 1);
      }
    }
  }

  /** So a row's content has changed exactly if there was a write to it. */
  lemma ItemChanged(w: World, id: int, first: nat, last: nat)
    requires GrowthInv(w) && first <= last < |w.hist| && id in w.hist[first].rows
    ensures Content(w.hist[last], ItemOf(id)) != Content(w.hist[first], ItemOf(id)) <==> RowWritten(w, id, first, last)
  {
    RowHistory(w, id, first, last);
    ContentOf(w.hist[first], id);
    if !RowWritten(w, id, first, last) {
      hide Content, DbOk, GrowsAt;
      Untouched(w, ItemOf(id), OneItem(w.hist[first].rows[id]), first, last);
    }
  }

  lemma ContentOf(db: Db, id: int)
    requires id in db.rows
    ensures Content(db, ItemOf(id)) == Some(OneItem(db.rows[id]))
  {
  }

  /** What the two theorems below need to know about a reachable world. */
  lemma Reached(db: Db, acts: seq<Action>)
    requires DbOk(db) && Runnable(Init(db), acts) && SoundRun(Init(db), acts) && TickingRun(Init(db), acts)
    ensures var w := Exec(Init(db), acts); RaceInv(w) && GrowthInv(w) && w.hist != []
  {
    RaceRun(Init(db), acts);
    GrowthRun(Init(db), acts);
  }

  lemma StaleItem(w: World, id: int)
    requires RaceInv(w) && GrowthInv(w) && ItemOf(id) in w.cache
    ensures Content(Now(w), ItemOf(id)) != Some(w.cache[ItemOf(id)].val)
            <==> exists i :: 0 <= i < |w.log| && Raced(w, ItemOf(id), i)
  {
    var k := ItemOf(id);
    var e := w.cache[k];
    SizesOf(w);
    LateWritesRaced(w, k);
    assert WasTrue(w.hist, k, e.val, e.sel);
    ItemChanged(w, id, e.sel, |w.hist| - 1);
    hide Content, GrowthInv, RaceInv, StillToDrop;
    if RowWritten(w, id, e.sel, |w.hist| - 1) {
      var c :| e.sel <= c < |w.hist| - 1 && k in w.log[c].keys;
      assert Raced(w, k, c);
    }
    if i :| 0 <= i < |w.log| && Raced(w, k, i) {
      assert RowWritten(w, id, e.sel, |w.hist| - 1);
    }
  }

  /** For an item, stale and raced are the same thing: in every interleaving with successful
      invalidations in which updates move `updated_at` forward, a cached item differs from the
      database if and only if some write raced the read that stored it. */
  lemma StaleItemExactly(db: Db, acts: seq<Action>, id: int)
    requires DbOk(db) && Runnable(Init(db), acts) && SoundRun(Init(db), acts) && TickingRun(Init(db), acts)
    requires ItemOf(id) in Exec(Init(db), acts).cache
    ensures var w := Exec(Init(db), acts);
            && w.hist != []
            && (Content(Now(w), ItemOf(id)) != Some(w.cache[ItemOf(id)].val)
                <==> exists i :: 0 <= i < |w.log| && Raced(w, ItemOf(id), i))
  {
    Reached(db, acts);
    hide *;
    StaleItem(Exec(Init(db), acts), id);
  }

  // The list is stale for either of two reasons.

  /** A racing write went to a row that the SELECT had seen. */
  ghost predicate SeenRowRaced(w: World)
    requires TheList in w.cache && w.cache[TheList].sel < |w.hist|
  {
    exists i, id :: 0 <= i < |w.log| && Raced(w, TheList, i)
                    && ItemOf(id) in w.log[i].keys && id in w.hist[w.cache[TheList].sel].rows
  }

  predicate CreatedBy(w: World, i: nat, id: int)
    requires i + 1 < |w.hist|
  {
    id !in w.hist[i].rows && id in w.hist[i + 1].rows
  }

  /** A racing write created a row that is still there. */
  ghost predicate NewRowRaced(w: World)
    requires TheList in w.cache && |w.hist| == |w.log| + 1
  {
    exists i, id :: 0 <= i < |w.log| && Raced(w, TheList, i) && CreatedBy(w, i, id) && id in Now(w).rows
  }

  lemma {:induction false} EmptyAbove(rows: map<int, Item>, m: nat, n: nat)
    requires m <= n && forall id :: m <= id < n ==> id !in rows
    ensures RowsBelow(rows, m) == RowsBelow(rows, n)
    decreases n
  {
    if m == n {
    } else {
      EmptyAbove(rows, m, n - 1);
    }
  }

  /** The list tells exactly which rows there are. */
  lemma ListTells(a: Db, b: Db)
    requires DbOk(a) && DbOk(b)
    ensures AllRows(a) == AllRows(b) <==> a.rows == b.rows
  {
    if a.rows == b.rows {
      var n := if a.nextId < b.nextId then b.nextId else a.nextId;
      EmptyAbove(a.rows, a.nextId, n);
      EmptyAbove(b.rows, b.nextId, n);
    } else if AllRows(a) == AllRows(b) {
      RowsInOrder(a, a.nextId);
      RowsInOrder(b, b.nextId);
      hide RowsBelow;
      SameRows(a, b, AllRows(a));
    }
  }

  lemma SameRows(a: Db, b: Db, its: seq<Item>)
    requires DbOk(a) && DbOk(b)
    requires forall it :: it in its <==> it.id in a.rows && it.id < a.nextId && a.rows[it.id] == it
    requires forall it :: it in its <==> it.id in b.rows && it.id < b.nextId && b.rows[it.id] == it
    ensures a.rows == b.rows
  {
    forall id | id in a.rows ensures id in b.rows && b.rows[id] == a.rows[id] {
      assert a.rows[id] in its;
    }
    forall id | id in b.rows ensures id in a.rows {
      assert b.rows[id] in its;
    }
    assert a.rows.Keys == b.rows.Keys;
  }

  /** A row that is new was created by some write in between. */
  lemma {:induction false} Created(w: World, id: int, first: nat, last: nat) returns (i: nat)
    requires |w.hist| == |w.log| + 1 && first <= last < |w.hist|
    requires id !in w.hist[first].rows && id in w.hist[last].rows
    ensures first <= i < last && CreatedBy(w, i, id)
    decreases last
  {
    if id !in w.hist[last - 1].rows {
      i := last - 1;
    } else {
      i := Created(w, id, first, last - 1);
    }
  }

  /** A write that changes any row invalidates the list. */
  lemma ChangesTheList(w: World, i: nat)
    requires GrowthInv(w) && i < |w.log| && w.hist[i].rows != w.hist[i + 1].rows
    ensures TheList in w.log[i].keys
  {
    assert ExplainsAt(w, i, TheList);
    ListTells(w.hist[i], w.hist[i + 1]);
    hide AllRows;
  }

  lemma StaleListForReasons(w: World)
    requires RaceInv(w) && GrowthInv(w) && TheList in w.cache
    requires w.cache[TheList].sel < |w.hist| && Now(w).rows != w.hist[w.cache[TheList].sel].rows
    ensures SeenRowRaced(w) || NewRowRaced(w)
  {
    var sel, last := w.cache[TheList].sel, |w.hist| - 1;
    var seen, rows := w.hist[sel].rows, Now(w).rows;
    LateWritesRaced(w, TheList);
    hide HistoryInv, Honest, DropInv, EntryInv, Raced, GrowsAt, GrowthInv;
    var id := Difference(seen, rows);
    SizesOf(w);
    if id !in seen {
      var i := Created(w, id, sel, last);
      ChangesTheList(w, i);
      assert NewRowRaced(w);
    } else {
      ItemChanged(w, id, sel, last);
      ContentOf(w.hist[sel], id);
      assert RowWritten(w, id, sel, last);
      var c :| sel <= c < last && ItemOf(id) in w.log[c].keys;
      ListGoesToo(w, c, id);
      assert SeenRowRaced(w);
    }
  }

  predicate DiffersAt(a: map<int, Item>, b: map<int, Item>, id: int) {
    if id in a then id !in b || b[id] != a[id] else id in b
  }

  lemma NoDifference(a: map<int, Item>, b: map<int, Item>)
    requires forall id :: !DiffersAt(a, b, id)
    ensures a == b
  {
    forall id ensures id in a <==> id in b {
      assert !DiffersAt(a, b, id);
    }
    assert a.Keys == b.Keys;
    forall id | id in a ensures a[id] == b[id] {
      assert !DiffersAt(a, b, id);
    }
  }

  lemma Difference(a: map<int, Item>, b: map<int, Item>) returns (id: int)
    requires a != b
    ensures DiffersAt(a, b, id)
  {
    if forall i :: !DiffersAt(a, b, i) {
      NoDifference(a, b);
    }
    id :| DiffersAt(a, b, id);
  }

  lemma SizesOf(w: World)
    requires GrowthInv(w)
    ensures |w.hist| == |w.log| + 1
  {
  }

  lemma ListGoesToo(w: World, c: nat, id: int)
    requires GrowthInv(w) && c < |w.log| && ItemOf(id) in w.log[c].keys
    ensures TheList in w.log[c].keys
  {
    assert GrowsAt(w, c);
  }

  lemma SeenRowChanged(w: World, sel: nat, i: nat, id: int)
    requires GrowthInv(w) && sel <= i < |w.log| && ItemOf(id) in w.log[i].keys
    requires sel < |w.hist| && id in w.hist[sel].rows
    ensures Now(w).rows != w.hist[sel].rows
  {
    SizesOf(w);
    hide GrowthInv, Content;
    assert RowWritten(w, id, sel, |w.hist| - 1);
    ItemChanged(w, id, sel, |w.hist| - 1);
    RowsTell(w.hist[sel], Now(w), id);
  }

  lemma ReasonsMakeStale(w: World)
    requires GrowthInv(w) && TheList in w.cache && w.cache[TheList].sel < |w.hist| == |w.log| + 1
    requires SeenRowRaced(w) || NewRowRaced(w)
    ensures Now(w).rows != w.hist[w.cache[TheList].sel].rows
  {
    var sel := w.cache[TheList].sel;
    hide GrowthInv, StillToDrop;
    if SeenRowRaced(w) {
      var i, id :| 0 <= i < |w.log| && Raced(w, TheList, i)
                   && ItemOf(id) in w.log[i].keys && id in w.hist[sel].rows;
      SeenRowChanged(w, sel, i, id);
    } else {
      var i, id :| 0 <= i < |w.log| && Raced(w, TheList, i) && CreatedBy(w, i, id) && id in Now(w).rows;
      NewSince(w, sel, i, id);
    }
  }

  lemma RowsTell(a: Db, b: Db, id: int)
    ensures Content(b, ItemOf(id)) != Content(a, ItemOf(id)) ==> b.rows != a.rows
  {
  }

  lemma NewSince(w: World, sel: nat, i: nat, id: int)
    requires GrowthInv(w) && sel <= i < |w.log| && |w.hist| == |w.log| + 1 && CreatedBy(w, i, id)
    ensures id !in w.hist[sel].rows
  {
    SerialGrows(w, sel, i);
    assert GrowsAt(w, i);
    assert DbOk(w.hist[sel]);
  }

  lemma StaleMeansRowsDiffer(w: World)
    requires RaceInv(w) && TheList in w.cache
    ensures w.cache[TheList].sel < |w.hist| == |w.log| + 1
    ensures Content(Now(w), TheList) != Some(w.cache[TheList].val)
            <==> Now(w).rows != w.hist[w.cache[TheList].sel].rows
  {
    var e := w.cache[TheList];
    assert WasTrue(w.hist, TheList, e.val, e.sel);
    ListTells(Now(w), w.hist[e.sel]);
    hide AllRows;
  }

  /** For the list: stale if and only if a racing write changed or deleted a row its SELECT had
      seen, or created a row that is still there. A raced create whose row is gone again leaves
      it fresh. */
  lemma StaleListExactly(db: Db, acts: seq<Action>)
    requires DbOk(db) && Runnable(Init(db), acts) && SoundRun(Init(db), acts) && TickingRun(Init(db), acts)
    requires TheList in Exec(Init(db), acts).cache
    ensures var w := Exec(Init(db), acts);
            && w.cache[TheList].sel < |w.hist| == |w.log| + 1
            && (Content(Now(w), TheList) != Some(w.cache[TheList].val) <==> SeenRowRaced(w) || NewRowRaced(w))
  {
    Reached(db, acts);
    var w := Exec(Init(db), acts);
    hide *;
    StaleMeansRowsDiffer(w);
    if Now(w).rows != w.hist[w.cache[TheList].sel].rows {
      StaleListForReasons(w);
    }
    if SeenRowRaced(w) || NewRowRaced(w) {
      ReasonsMakeStale(w);
    }
  }

  // ---------------------------------------------------------------------------
  // And such a race does leave a stale entry
  // ---------------------------------------------------------------------------

  const BEFORE := Item(1, "a", "x", 0, 0)
  const AFTER := Item(1, "b", "y", 0, 9)
  const CALM := Env(true, true, true, true, true, 9, 0)
  const OLD_DB := Db(map[1 := BEFORE], 2)
  const NEW_DB := Db(map[1 := AFTER], 2)
  const EDIT := Update(1, "b", "y")

  function Edited(dropped: map<Key, nat>): Commit {
    Commit([ItemOf(1), TheList], 1, dropped)
  }

  const SELECTED := Storing(ItemOf(1), OneItem(BEFORE), 0)
  const ITEM_DROPPED := map[ItemOf(1) := 5]
  const BOTH_DROPPED := map[ItemOf(1) := 5, TheList := 6]

  /** A read selects, an update commits and invalidates, the read stores what it selected. */
  const RACE_ACTIONS := [
    Read(ItemOf(1)), Go(0, Good), Go(0, Good), Write(EDIT, CALM),
    Go(1, Good), Go(1, Good), Go(1, Good), Go(1, Good), Go(0, Good)]

  const RACE_WORLDS := [
    Init(OLD_DB),
    World([OLD_DB], [], map[], [Reading(ItemOf(1))], 1),
    World([OLD_DB], [], map[], [Selecting(ItemOf(1))], 2),
    World([OLD_DB], [], map[], [SELECTED], 3),
    World([OLD_DB], [], map[], [SELECTED, Writing(EDIT, CALM)], 4),
    World([OLD_DB, NEW_DB], [Edited(map[])], map[], [SELECTED, Dropping(0, [ItemOf(1), TheList])], 5),
    World([OLD_DB, NEW_DB], [Edited(ITEM_DROPPED)], map[], [SELECTED, Dropping(0, [TheList])], 6),
    World([OLD_DB, NEW_DB], [Edited(BOTH_DROPPED)], map[], [SELECTED, Dropping(0, [])], 7),
    World([OLD_DB, NEW_DB], [Edited(BOTH_DROPPED)], map[], [SELECTED, Done], 8),
    World([OLD_DB, NEW_DB], [Edited(BOTH_DROPPED)], map[ItemOf(1) := Entry(OneItem(BEFORE), 0, 8)],
          [Served(ItemOf(1), OneItem(BEFORE), 0), Done], 9)]

  lemma ReadThenWrite()
    ensures forall j :: 0 <= j < 5 ==> Link(RACE_WORLDS[j], RACE_ACTIONS[j], RACE_WORLDS[j + 1])
  {
    assert OLD_DB.rows[1 := AFTER] == NEW_DB.rows;
    assert Direct(OLD_DB, EDIT, CALM) == (Reply(200, One(AFTER)), NEW_DB);
  }

  lemma InvalidateThenStore()
    ensures forall j :: 5 <= j < 9 ==> Link(RACE_WORLDS[j], RACE_ACTIONS[j], RACE_WORLDS[j + 1])
  {
    assert [ItemOf(1), TheList][1..] == [TheList] && [TheList][1..] == [];
  }

  lemma StaleHappens()
    ensures DbOk(OLD_DB) && Runnable(Init(OLD_DB), RACE_ACTIONS) && SoundRun(Init(OLD_DB), RACE_ACTIONS)
    ensures TickingRun(Init(OLD_DB), RACE_ACTIONS)
    ensures var w := Exec(Init(OLD_DB), RACE_ACTIONS);
            && w.hist != [] && Quiet(w) && ItemOf(1) in w.cache
            && Content(Now(w), ItemOf(1)) == Some(OneItem(AFTER))
            && w.cache[ItemOf(1)].val == OneItem(BEFORE)
  {
    hide Link, Runnable, Exec, SoundRun, TickingRun;
    ReadThenWrite();
    InvalidateThenStore();
    Chain(RACE_ACTIONS, RACE_WORLDS, 0);
    assert RACE_ACTIONS[0..] == RACE_ACTIONS;
  }

  predicate Link(w: World, a: Action, w': World) {
    Enabled(w, a) && Sound(w, a) && Ticks(w, a) && Apply(w, a) == w'
  }

  /** A run given with all its states. */
  lemma {:induction false} Chain(acts: seq<Action>, ws: seq<World>, i: nat)
    requires |ws| == |acts| + 1 && i <= |acts|
    requires forall j :: 0 <= j < |acts| ==> Link(ws[j], acts[j], ws[j + 1])
    ensures Runnable(ws[i], acts[i..]) && SoundRun(ws[i], acts[i..]) && TickingRun(ws[i], acts[i..])
    ensures Exec(ws[i], acts[i..]) == ws[|acts|]
    decreases |acts| - i
  {
    hide Enabled, Sound, Ticks, Apply;
    if i == |acts| {
    } else {
      assert Link(ws[i], acts[i], ws[i + 1]);
      Chain(acts, ws, i + 1);
      assert acts[i..][1..] == acts[i + 1..];
    }
  }
}
