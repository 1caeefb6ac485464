/** The xauth handlers one at a time: login, refresh with rotation, logout and the two checks
    of an access token, over the key-value store of refresh-token ids. */
module XauthTokens {
  import opened Base64Url
  import opened Decimals
  import opened Jwt
  import opened Options

  /** Times are nanoseconds since the Unix epoch. */
  const SECOND := 1_000_000_000

  const CLOCK_SKEW := 60

  /** `time.Time.Unix`: whole seconds. */
  function Unix(t: nat): nat {
    t / SECOND
  }

  datatype Config = Config(
    k: Crypto, username: string, password: string,
    accessSecret: Bytes, refreshSecret: Bytes, accessTTL: nat, refreshTTL: nat)

  /** JSON carries the claims the service issues: its username, and ids in base64url. */
  ghost predicate ConfigOk(cfg: Config) {
    && RoundTrips(cfg.k)
    && forall exp, jti, iat :: AllSextets(jti) ==> cfg.k.clean(Claims(cfg.username, exp, jti, iat))
  }

  type KV = map<string, string>

  const REVOKED := "revoked"

  predicate Live(kv: KV, jti: string) {
    jti in kv && kv[jti] != REVOKED
  }

  /** What the surroundings do during one request: the clock, the two random ids (or none),
      and which operations on the store succeed. */
  datatype Env = Env(
    now: nat, accessJti: Option<string>, refreshJti: Option<string>, getOk: bool, storeOk: bool, revokeOk: bool)

  datatype Reply =
    | Failure(status: nat, error: string)
    | Tokens(access: string, refresh: string)
    | Cleared
    | Profile(sub: string, exp: int, iat: int)

  // ---------------------------------------------------------------------------
  // What each handler does
  // ---------------------------------------------------------------------------

  predicate Expired(c: Claims, now: nat) {
    Unix(now) > c.exp + CLOCK_SKEW
  }

  function AccessClaims(cfg: Config, now: nat, jti: string): Claims {
    Claims(cfg.username, Unix(now + cfg.accessTTL), jti, Unix(now))
  }

  function RefreshClaims(cfg: Config, now: nat, jti: string): Claims {
    Claims(cfg.username, Unix(now + cfg.refreshTTL), jti, Unix(now))
  }

  predicate CanIssue(env: Env) {
    env.accessJti.Some? && env.refreshJti.Some? && env.storeOk
  }

  function Issued(cfg: Config, env: Env): Reply
    requires CanIssue(env)
  {
    Tokens(Sign(cfg.k, AccessClaims(cfg, env.now, env.accessJti.value), cfg.accessSecret),
           Sign(cfg.k, RefreshClaims(cfg, env.now, env.refreshJti.value), cfg.refreshSecret))
  }

  function Stored(cfg: Config, kv: KV, env: Env): KV
    requires CanIssue(env)
  {
    kv[env.refreshJti.value := Decimal(Unix(env.now + cfg.refreshTTL))]
  }

  function Login(cfg: Config, kv: KV, username: string, password: string, env: Env): (Reply, KV) {
    if username != cfg.username || password != cfg.password then (Failure(401, "invalid credentials"), kv)
    else if !CanIssue(env) then (Failure(500, "failed to issue tokens"), kv)
    else (Issued(cfg, env), Stored(cfg, kv, env))
  }

  function Refresh(cfg: Config, kv: KV, cookie: string, env: Env): (Reply, KV) {
    var v := Verify(cfg.k, cookie, cfg.refreshSecret);
    if cookie == "" then (Failure(401, "refresh token missing"), kv)
    else if !v.Ok? then (Failure(401, "invalid refresh token"), kv)
    else if Expired(v.claims, env.now) then (Failure(401, "refresh token expired"), kv)
    else if !env.getOk then (Failure(500, "internal error"), kv)
    else if !Live(kv, v.claims.jti) then (Failure(401, "refresh token revoked"), kv)
    else if !CanIssue(env) then (Failure(500, "failed to issue tokens"), kv)
    else
      var stored := Stored(cfg, kv, env);
      (Issued(cfg, env), if env.revokeOk then stored[v.claims.jti := REVOKED] else stored)
  }

  function Logout(cfg: Config, kv: KV, cookie: string, env: Env): (Reply, KV) {
    var v := Verify(cfg.k, cookie, cfg.refreshSecret);
    (Cleared, if cookie != "" && v.Ok? && env.revokeOk then kv[v.claims.jti := REVOKED] else kv)
  }

  function Me(cfg: Config, cookie: string, now: nat): Reply {
    if cookie == "" then Failure(401, "access token missing")
    else
      var v := Verify(cfg.k, cookie, cfg.accessSecret);
      if !v.Ok? then Failure(401, "invalid access token")
      else if Expired(v.claims, now) then Failure(401, "access token expired")
      else Profile(v.claims.sub, v.claims.exp, v.claims.iat)
  }

  /** A request on its way through `RequireAuth`. */
  class Message {
    const cookie: string
    var header: map<string, string>

    constructor (cookie: string)
      ensures this.cookie == cookie && header == map[]
    {
      this.cookie := cookie;
      header := map[];
    }
  }

  /** The handler behind it runs exactly for the tokens `Me` accepts, and is told the same
      subject; otherwise the message is left as it was. */
  method RequireAuth(cfg: Config, msg: Message, now: nat) returns (refusal: Option<string>)
    modifies msg
    ensures refusal.None? <==> Me(cfg, msg.cookie, now).Profile?
    ensures refusal.Some? ==> Me(cfg, msg.cookie, now) == Failure(401, refusal.value)
    ensures msg.header == match Me(cfg, msg.cookie, now)
                          case Profile(sub, _, _) => old(msg.header)["X-Auth-Sub" := sub]
                          case _ => old(msg.header)
  {
    if msg.cookie == "" {
      return Some("access token missing");
    }
    var v := Verify(cfg.k, msg.cookie, cfg.accessSecret);
    if !v.Ok? {
      return Some("invalid access token");
    }
    if Unix(now) > v.claims.exp + CLOCK_SKEW {
      return Some("access token expired");
    }
    msg.header := msg.header["X-Auth-Sub" := v.claims.sub];
    refusal := None;
  }

  class AuthServer {
    const cfg: Config
    var kv: KV

    constructor (cfg: Config)
      ensures this.cfg == cfg && kv == map[]
    {
      this.cfg := cfg;
      kv := map[];
    }

    /** The new refresh id is in the store before the cookies exist. */
    method IssueTokenCookies(env: Env) returns (reply: Option<Reply>)
      modifies this
      ensures reply == if CanIssue(env) then Some(Issued(cfg, env)) else None
      ensures kv == if CanIssue(env) then Stored(cfg, old(kv), env) else old(kv)
    {
      if env.accessJti.None? || env.refreshJti.None? {
        return None;
      }
      var access := Sign(cfg.k, AccessClaims(cfg, env.now, env.accessJti.value), cfg.accessSecret);
      var refresh := Sign(cfg.k, RefreshClaims(cfg, env.now, env.refreshJti.value), cfg.refreshSecret);
      if !env.storeOk {
        return None;
      }
      kv := kv[env.refreshJti.value := Decimal(Unix(env.now + cfg.refreshTTL))];
      reply := Some(Tokens(access, refresh));
    }

    method HandleLogin(username: string, password: string, env: Env) returns (reply: Reply)
      modifies this
      ensures (reply, kv) == Login(cfg, old(kv), username, password, env)
    {
      var userOk, passOk := username == cfg.username, password == cfg.password;
      if !userOk || !passOk {
        return Failure(401, "invalid credentials");
      }
      var tokens := IssueTokenCookies(env);
      if tokens.None? {
        return Failure(500, "failed to issue tokens");
      }
      reply := tokens.value;
    }

    method HandleRefresh(cookie: string, env: Env) returns (reply: Reply)
      modifies this
      ensures (reply, kv) == Refresh(cfg, old(kv), cookie, env)
    {
      if cookie == "" {
        return Failure(401, "refresh token missing");
      }
      var v := Verify(cfg.k, cookie, cfg.refreshSecret);
      if !v.Ok? {
        return Failure(401, "invalid refresh token");
      }
      var c := v.claims;
      if Unix(env.now) > c.exp + CLOCK_SKEW {
        return Failure(401, "refresh token expired");
      }
      if !env.getOk {
        return Failure(500, "internal error");
      }
      if c.jti !in kv || kv[c.jti] == REVOKED {
        return Failure(401, "refresh token revoked");
      }
      var tokens := IssueTokenCookies(env);
      if tokens.None? {
        return Failure(500, "failed to issue tokens");
      }
      if env.revokeOk {
        kv := kv[c.jti := REVOKED];
      }
      reply := tokens.value;
    }

    method HandleLogout(cookie: string, env: Env) returns (reply: Reply)
      modifies this
      ensures (reply, kv) == Logout(cfg, old(kv), cookie, env)
    {
      if cookie != "" {
        var v := Verify(cfg.k, cookie, cfg.refreshSecret);
        if v.Ok? {
          if env.revokeOk {
            kv := kv[v.claims.jti := REVOKED];
          }
        }
      }
      reply := Cleared;
    }
  }

  // ---------------------------------------------------------------------------
  // Access tokens live to the second
  // ---------------------------------------------------------------------------

  /** An issued access token is accepted up to and including the Unix second 60 past the
      whole second in which its lifetime ends, and never after. */
  lemma AccessWindow(cfg: Config, at: nat, jti: string, now: nat)
    requires ConfigOk(cfg) && AllSextets(jti)
    ensures var raw := Sign(cfg.k, AccessClaims(cfg, at, jti), cfg.accessSecret);
            Me(cfg, raw, now).Profile? <==> Unix(now) <= Unix(at + cfg.accessTTL) + CLOCK_SKEW
  {
    var c := AccessClaims(cfg, at, jti);
    VerifySigned(cfg.k, c, cfg.accessSecret);
  }

  /** An issued refresh token is good for a new pair exactly as long as its id is live, up to
      and including the second 60 past the end of its lifetime, and if the store works. */
  lemma RefreshWindow(cfg: Config, kv: KV, at: nat, jti: string, env: Env)
    requires ConfigOk(cfg) && AllSextets(jti)
    ensures var raw := Sign(cfg.k, RefreshClaims(cfg, at, jti), cfg.refreshSecret);
            Refresh(cfg, kv, raw, env).0.Tokens? <==>
              Live(kv, jti) && Unix(env.now) <= Unix(at + cfg.refreshTTL) + CLOCK_SKEW && env.getOk && CanIssue(env)
  {
    VerifySigned(cfg.k, RefreshClaims(cfg, at, jti), cfg.refreshSecret);
  }

  /** The cookies of a login work: the access token identifies the user at once, and the
      refresh token is exchanged for a new pair while it lasts, after which, its revocation
      being stored, it is refused. */
  lemma LoginThenRefresh(cfg: Config, kv: KV, first: Env, second: Env, third: Env)
    requires ConfigOk(cfg) && CanIssue(first) && CanIssue(second) && second.getOk && second.revokeOk
    requires AllSextets(first.accessJti.value) && AllSextets(first.refreshJti.value)
    requires second.refreshJti != first.refreshJti
    requires Unix(second.now) <= Unix(first.now + cfg.refreshTTL) + CLOCK_SKEW
    ensures var (r1, kv1) := Login(cfg, kv, cfg.username, cfg.password, first);
            && r1.Tokens? && Me(cfg, r1.access, first.now)
                             == Profile(cfg.username, Unix(first.now + cfg.accessTTL), Unix(first.now))
            && var (r2, kv2) := Refresh(cfg, kv1, r1.refresh, second);
               && r2.Tokens? && Live(kv2, second.refreshJti.value)
               && Refresh(cfg, kv2, r1.refresh, third).0.Failure?
  {
    VerifySigned(cfg.k, AccessClaims(cfg, first.now, first.accessJti.value), cfg.accessSecret);
    VerifySigned(cfg.k, RefreshClaims(cfg, first.now, first.refreshJti.value), cfg.refreshSecret);
    NeverTheWord(Unix(first.now + cfg.refreshTTL));
    NeverTheWord(Unix(second.now + cfg.refreshTTL));
    hide Verify, Decimal;
  }

  /** Both tokens are handed out for the configured name and password and for nothing else, and
      whoever gets none leaves no trace in the store. */
  lemma LoginExactly(cfg: Config, kv: KV, username: string, password: string, env: Env)
    ensures var (reply, kv') := Login(cfg, kv, username, password, env);
            && (reply.Tokens? <==> username == cfg.username && password == cfg.password && CanIssue(env))
            && (!reply.Tokens? ==> reply.Failure? && kv' == kv)
            && (username != cfg.username || password != cfg.password ==> reply == Failure(401, "invalid credentials"))
  {
    hide Sign;
  }

  /** Whether `j` means the same in both stores. */
  predicate SameAt(kv: KV, kv': KV, j: string) {
    (j in kv <==> j in kv') && (j in kv ==> kv'[j] == kv[j])
  }

  /** A refresh trades one live id for another and touches no third one; the old one stays live only
      if its revocation failed. A refusal leaves the store alone, and is the service's own fault (500)
      exactly if the token was good and the store or the random generator was not. */
  lemma RefreshTrades(cfg: Config, kv: KV, cookie: string, env: Env)
    requires env.refreshJti.Some? ==> env.refreshJti.value !in kv
    ensures var (reply, kv') := Refresh(cfg, kv, cookie, env);
            var v := Verify(cfg.k, cookie, cfg.refreshSecret);
            && (reply.Tokens? ==>
                  && v.Ok? && Live(kv, v.claims.jti) && Live(kv', env.refreshJti.value)
                  && (Live(kv', v.claims.jti) <==> !env.revokeOk)
                  && forall j :: j != v.claims.jti && Some(j) != env.refreshJti ==> SameAt(kv, kv', j))
            && (!reply.Tokens? ==>
                  && kv' == kv && reply.Failure? && reply.status in {401, 500}
                  && (reply.status == 500 <==>
                        && cookie != "" && v.Ok? && Unix(env.now) <= v.claims.exp + CLOCK_SKEW
                        && (!env.getOk || (Live(kv, v.claims.jti) && !CanIssue(env)))))
  {
    NeverTheWord(Unix(env.now + cfg.refreshTTL));
    hide Verify, Sign, Decimal;
  }

  /** What a pair of tokens handed out at `at` is good for afterwards: the access token identifies
      the user, and the refresh token is exchanged in turn while it lasts. */
  ghost predicate PairWorks(cfg: Config, kv: KV, reply: Reply, at: nat) {
    && reply.Tokens?
    && (forall now: nat :: Me(cfg, reply.access, now) ==
          if Unix(now) <= Unix(at + cfg.accessTTL) + CLOCK_SKEW
          then Profile(cfg.username, Unix(at + cfg.accessTTL), Unix(at))
          else Failure(401, "access token expired"))
    && (forall next: Env :: Refresh(cfg, kv, reply.refresh, next).0.Tokens? <==>
          Unix(next.now) <= Unix(at + cfg.refreshTTL) + CLOCK_SKEW && next.getOk && CanIssue(next))
  }

  lemma IssuedPairWorks(cfg: Config, kv: KV, env: Env)
    requires ConfigOk(cfg) && CanIssue(env) && Live(kv, env.refreshJti.value)
    requires AllSextets(env.accessJti.value) && AllSextets(env.refreshJti.value)
    ensures PairWorks(cfg, kv, Issued(cfg, env), env.now)
  {
    var a, f := AccessClaims(cfg, env.now, env.accessJti.value), RefreshClaims(cfg, env.now, env.refreshJti.value);
    VerifySigned(cfg.k, a, cfg.accessSecret);
    forall next: Env
      ensures Refresh(cfg, kv, Issued(cfg, env).refresh, next).0.Tokens? <==>
                Unix(next.now) <= Unix(env.now + cfg.refreshTTL) + CLOCK_SKEW && next.getOk && CanIssue(next)
    {
      RefreshWindow(cfg, kv, env.now, env.refreshJti.value, next);
    }
    assert Sign(cfg.k, a, cfg.accessSecret) != "" by {
      hide Verify;
      SignedIsSomething(cfg.k, a, cfg.accessSecret);
    }
    hide Verify, Sign, Refresh;
  }

  lemma SignedIsSomething(k: Crypto, c: Claims, secret: Bytes)
    ensures Sign(k, c, secret) != ""
  {
    assert |Sign(k, c, secret)| >= |HEADER|;
  }

  /** A login's cookies work. */
  lemma LoginPairWorks(cfg: Config, kv: KV, username: string, password: string, env: Env)
    requires ConfigOk(cfg) && Login(cfg, kv, username, password, env).0.Tokens?
    requires AllSextets(env.accessJti.value) && AllSextets(env.refreshJti.value)
    ensures var (reply, kv') := Login(cfg, kv, username, password, env); PairWorks(cfg, kv', reply, env.now)
  {
    NeverTheWord(Unix(env.now + cfg.refreshTTL));
    IssuedPairWorks(cfg, Stored(cfg, kv, env), env);
    hide PairWorks, Sign, Decimal;
  }

  /** And so do a refresh's, whether or not the old id could be revoked. */
  lemma RefreshPairWorks(cfg: Config, kv: KV, cookie: string, env: Env)
    requires ConfigOk(cfg) && Refresh(cfg, kv, cookie, env).0.Tokens?
    requires AllSextets(env.accessJti.value) && AllSextets(env.refreshJti.value) && env.refreshJti.value !in kv
    ensures var (reply, kv') := Refresh(cfg, kv, cookie, env); PairWorks(cfg, kv', reply, env.now)
  {
    NeverTheWord(Unix(env.now + cfg.refreshTTL));
    IssuedPairWorks(cfg, Refresh(cfg, kv, cookie, env).1, env) by {
      hide Verify, Sign, Decimal;
    }
    hide PairWorks, Sign, Decimal, Verify;
  }

  // ---------------------------------------------------------------------------
  // Runs
  // ---------------------------------------------------------------------------

  datatype Event =
    | LoginEvent(username: string, password: string, env: Env)
    | RefreshEvent(cookie: string, env: Env)
    | LogoutEvent(cookie: string, env: Env)

  /** One successful issue: which login it descends from, when, and both tokens' claims. */
  datatype Issue = Issue(family: nat, at: nat, access: Claims, refresh: Claims)

  /** The store, with the history of what was issued, how many logins there were, how many
      ids turned from live to revoked, and the latest time seen. */
  datatype World = World(kv: KV, issues: seq<Issue>, families: nat, turned: nat, clock: nat)

  const START := World(map[], [], 0, 0, 0)

  function Handle(cfg: Config, kv: KV, e: Event): (Reply, KV) {
    match e
    case LoginEvent(username, password, env) => Login(cfg, kv, username, password, env)
    case RefreshEvent(cookie, env) => Refresh(cfg, kv, cookie, env)
    case LogoutEvent(cookie, env) => Logout(cfg, kv, cookie, env)
  }

  /** The new refresh id is in the store, with the second in which the token itself says it expires. */
  ghost predicate KeptWithExpiry(cfg: Config, kv: KV, reply: Reply) {
    && reply.Tokens?
    && var v := Verify(cfg.k, reply.refresh, cfg.refreshSecret);
       v.Ok? && v.claims.jti in kv && kv[v.claims.jti] == Decimal(v.claims.exp)
  }

  lemma KeptAsIssued(cfg: Config, kv: KV, env: Env)
    requires ConfigOk(cfg) && CanIssue(env) && AllSextets(env.refreshJti.value)
    requires env.refreshJti.value in kv && kv[env.refreshJti.value] == Decimal(Unix(env.now + cfg.refreshTTL))
    ensures KeptWithExpiry(cfg, kv, Issued(cfg, env))
  {
    VerifySigned(cfg.k, RefreshClaims(cfg, env.now, env.refreshJti.value), cfg.refreshSecret);
    hide Verify, Sign, Decimal;
  }

  lemma IssuedIsKept(cfg: Config, kv: KV, e: Event)
    requires ConfigOk(cfg) && Handle(cfg, kv, e).0.Tokens?
    requires AllSextets(e.env.refreshJti.value) && e.env.refreshJti.value !in kv
    ensures KeptWithExpiry(cfg, Handle(cfg, kv, e).1, Handle(cfg, kv, e).0)
  {
    hide Verify, Sign, Decimal, ConfigOk, KeptWithExpiry;
    KeptAsIssued(cfg, Handle(cfg, kv, e).1, e.env);
  }

  /** The login a refresh id descends from. */
  function FamilyOf(issues: seq<Issue>, jti: string): nat {
    if issues == [] then 0
    else if issues[|issues| - 1].refresh.jti == jti then issues[|issues| - 1].family
    else FamilyOf(issues[..|issues| - 1], jti)
  }

  /** The refresh id that the event's cookie stands for. */
  function Presented(cfg: Config, e: Event): Option<string> {
    if e.LoginEvent? then None
    else
      var v := Verify(cfg.k, e.cookie, cfg.refreshSecret);
      if v.Ok? then Some(v.claims.jti) else None
  }

  /** That id, if it is not live afterwards. */
  function Ended(cfg: Config, w: World, e: Event): Option<string> {
    var p := Presented(cfg, e);
    if p.Some? && !Live(Handle(cfg, w.kv, e).1, p.value) then p else None
  }

  predicate Succeeds(cfg: Config, w: World, e: Event) {
    Handle(cfg, w.kv, e).0.Tokens?
  }

  /** The new refresh id of a successful login or refresh. */
  function Born(cfg: Config, w: World, e: Event): Option<string> {
    if Succeeds(cfg, w, e) then e.env.refreshJti else None
  }

  function Recorded(cfg: Config, w: World, e: Event): Issue
    requires Succeeds(cfg, w, e)
  {
    var p := Presented(cfg, e);
    Issue(if p.Some? then FamilyOf(w.issues, p.value) else w.families, e.env.now,
          AccessClaims(cfg, e.env.now, e.env.accessJti.value),
          RefreshClaims(cfg, e.env.now, e.env.refreshJti.value))
  }

  function Step(cfg: Config, w: World, e: Event): World {
    var ended := Ended(cfg, w, e);
    World(
      Handle(cfg, w.kv, e).1,
      if Succeeds(cfg, w, e) then w.issues + [Recorded(cfg, w, e)] else w.issues,
      if Succeeds(cfg, w, e) && e.LoginEvent? then w.families + 1 else w.families,
      if ended.Some? && Live(w.kv, ended.value) then w.turned + 1 else w.turned,
      e.env.now)
  }

  /** One clock, fresh random ids, and no refresh token that the service did not sign. */
  ghost predicate Fair(cfg: Config, w: World, e: Event) {
    && e.env.now >= w.clock
    && (e.env.accessJti.Some? ==> AllSextets(e.env.accessJti.value))
    && (e.env.refreshJti.Some? ==> AllSextets(e.env.refreshJti.value) && e.env.refreshJti.value !in w.kv)
    && (!e.LoginEvent? && Verify(cfg.k, e.cookie, cfg.refreshSecret).Ok? ==>
          exists i :: 0 <= i < |w.issues| && w.issues[i].refresh == Verify(cfg.k, e.cookie, cfg.refreshSecret).claims)
  }

  ghost predicate FairRun(cfg: Config, w: World, es: seq<Event>)
    decreases |es|
  {
    es == [] || (Fair(cfg, w, es[0]) && FairRun(cfg, Step(cfg, w, es[0]), es[1..]))
  }

  function Run(cfg: Config, w: World, es: seq<Event>): World
    decreases |es|
  {
    if es == [] then w else Run(cfg, Step(cfg, w, es[0]), es[1..])
  }

  // ---------------------------------------------------------------------------
  // Revocation is permanent, and live ids are counted exactly
  // ---------------------------------------------------------------------------

  function LiveIds(kv: KV): set<string> {
    set j | j in kv && kv[j] != REVOKED
  }

  lemma NeverTheWord(n: int)
    ensures Decimal(n) != REVOKED
  {
    hide Digits;
    assert REVOKED[0] == 'r';
  }

  /** What one event does to the store: at most one new id goes live and one known id ends. */
  ghost predicate StoreMoves(w: World, w': World, born: Option<string>, ended: Option<string>) {
    && (born.Some? ==> born.value !in w.kv && Live(w'.kv, born.value))
    && (ended.Some? ==> ended.value in w.kv && ended.value in w'.kv && w'.kv[ended.value] == REVOKED)
    && (forall j :: j in w'.kv ==> j in w.kv || born == Some(j))
    && (forall j :: j in w.kv ==> j in w'.kv && (w'.kv[j] == w.kv[j] || ended == Some(j)))
    && w'.turned == w.turned + (if ended.Some? && Live(w.kv, ended.value) then 1 else 0)
  }

  ghost predicate Known(w: World) {
    forall i :: 0 <= i < |w.issues| ==> w.issues[i].refresh.jti in w.kv
  }

  lemma StepMoves(cfg: Config, w: World, e: Event)
    requires Fair(cfg, w, e) && Known(w)
    ensures StoreMoves(w, Step(cfg, w, e), Born(cfg, w, e), Ended(cfg, w, e))
    ensures Step(cfg, w, e).issues == if Succeeds(cfg, w, e) then w.issues + [Recorded(cfg, w, e)] else w.issues
    ensures Succeeds(cfg, w, e) && e.RefreshEvent? ==> Live(w.kv, Presented(cfg, e).value)
    ensures Known(Step(cfg, w, e))
  {
    hide Verify, Sign, Decimal, FamilyOf;
    NeverTheWord(Unix(e.env.now + cfg.refreshTTL));
  }

  lemma LiveIdsStep(w: World, w': World, born: Option<string>, ended: Option<string>)
    requires StoreMoves(w, w', born, ended)
    ensures |LiveIds(w'.kv)| + w'.turned == |LiveIds(w.kv)| + w.turned + (if born.Some? then 1 else 0)
  {
    var base := if born.Some? then LiveIds(w.kv) + {born.value} else LiveIds(w.kv);
    if ended.Some? && Live(w.kv, ended.value) {
      assert LiveIds(w'.kv) == base - {ended.value};
    } else {
      assert LiveIds(w'.kv) == base;
    }
  }

  /** Over every run, whatever operations on the store fail: live ids are the successful
      issues less the ids that turned from live to revoked. */
  lemma {:induction false} LiveIdsCount(cfg: Config, w: World, es: seq<Event>)
    requires Known(w) && FairRun(cfg, w, es)
    ensures var w' := Run(cfg, w, es);
            && Known(w')
            && |LiveIds(w'.kv)| + w'.turned + |w.issues| == |w'.issues| + |LiveIds(w.kv)| + w.turned
    decreases |es|
  {
    hide Known, Fair, Step, LiveIds;
    if es == [] {
    } else {
      OneStepCounts(cfg, w, es[0]);
      LiveIdsCount(cfg, Step(cfg, w, es[0]), es[1..]);
    }
  }

  lemma OneStepCounts(cfg: Config, w: World, e: Event)
    requires Known(w) && Fair(cfg, w, e)
    ensures var w' := Step(cfg, w, e);
            Known(w') && |LiveIds(w'.kv)| + w'.turned + |w.issues| == |w'.issues| + |LiveIds(w.kv)| + w.turned
  {
    StepMoves(cfg, w, e);
    hide Step, Known, Fair, LiveIds;
    LiveIdsStep(w, Step(cfg, w, e), Born(cfg, w, e), Ended(cfg, w, e));
  }

  /** A refresh whose writes succeed trades one live id for one: the count stays. */
  lemma RefreshKeepsCount(cfg: Config, w: World, cookie: string, env: Env)
    requires Known(w) && Fair(cfg, w, RefreshEvent(cookie, env)) && env.revokeOk
    requires Succeeds(cfg, w, RefreshEvent(cookie, env))
    ensures |LiveIds(Refresh(cfg, w.kv, cookie, env).1)| == |LiveIds(w.kv)|
  {
    var e := RefreshEvent(cookie, env);
    OneStepCounts(cfg, w, e);
    StepMoves(cfg, w, e);
    hide Verify, Sign, Decimal, FamilyOf, LiveIds;
  }

  /** A revoked id never becomes live again. */
  lemma {:induction false} RevokedForGood(cfg: Config, w: World, es: seq<Event>, jti: string)
    requires Known(w) && FairRun(cfg, w, es) && jti in w.kv && w.kv[jti] == REVOKED
    ensures var w' := Run(cfg, w, es); jti in w'.kv && w'.kv[jti] == REVOKED
    decreases |es|
  {
    hide Known, Fair, Step;
    if es == [] {
    } else {
      StepMoves(cfg, w, es[0]);
      RevokedForGood(cfg, Step(cfg, w, es[0]), es[1..], jti);
    }
  }

  // ---------------------------------------------------------------------------
  // Families
  // ---------------------------------------------------------------------------

  /** Every refresh id belongs to one issue. */
  ghost predicate Distinct(w: World) {
    forall i, j :: 0 <= i < j < |w.issues| ==> w.issues[i].refresh.jti != w.issues[j].refresh.jti
  }

  lemma {:induction false} FamilyFound(issues: seq<Issue>, i: nat)
    requires i < |issues|
    requires forall a, b :: 0 <= a < b < |issues| ==> issues[a].refresh.jti != issues[b].refresh.jti
    ensures FamilyOf(issues, issues[i].refresh.jti) == issues[i].family
    decreases |issues|
  {
    if i == |issues| - 1 {
    } else {
      FamilyFound(issues[..|issues| - 1], i);
    }
  }

  /** Within a family only the latest id can be live. */
  ghost predicate OnlyLatestLive(w: World) {
    forall i, j :: 0 <= i < j < |w.issues| && w.issues[i].family == w.issues[j].family ==>
      !Live(w.kv, w.issues[i].refresh.jti)
  }

  ghost predicate Dated(cfg: Config, w: World) {
    forall i :: 0 <= i < |w.issues| ==>
      && w.issues[i].family < w.families && w.issues[i].at <= w.clock
      && AllSextets(w.issues[i].access.jti)
      && w.issues[i].access == AccessClaims(cfg, w.issues[i].at, w.issues[i].access.jti)
  }

  ghost predicate Families(cfg: Config, w: World) {
    Known(w) && Distinct(w) && Dated(cfg, w)
  }

  lemma FamiliesStep(cfg: Config, w: World, e: Event)
    requires Families(cfg, w) && Fair(cfg, w, e)
    ensures Families(cfg, Step(cfg, w, e))
    ensures Succeeds(cfg, w, e) && e.RefreshEvent? ==>
              exists i :: && 0 <= i < |w.issues| && w.issues[i].refresh.jti == Presented(cfg, e).value
                          && w.issues[i].family == Recorded(cfg, w, e).family && Live(w.kv, w.issues[i].refresh.jti)
  {
    StepMoves(cfg, w, e);
    hide Verify, Sign, Decimal, FamilyOf, Known, AllSextets, Unix;
    if e.RefreshEvent? && Succeeds(cfg, w, e) {
      var i :| 0 <= i < |w.issues| && w.issues[i].refresh == Verify(cfg.k, e.cookie, cfg.refreshSecret).claims;
      FamilyFound(w.issues, i);
    }
  }

  /** The live id of a family is its latest, and its only one. */
  lemma LiveIsLatest(w: World, m: nat)
    requires OnlyLatestLive(w) && m < |w.issues| && Live(w.kv, w.issues[m].refresh.jti)
    ensures forall i :: 0 <= i < |w.issues| && w.issues[i].family == w.issues[m].family && i != m ==>
              i < m && !Live(w.kv, w.issues[i].refresh.jti)
  {
    forall i | 0 <= i < |w.issues| && w.issues[i].family == w.issues[m].family
      ensures i <= m && (i != m ==> !Live(w.kv, w.issues[i].refresh.jti))
    {
    }
  }

  /** What was not live before an event, or is ended by it, is not live after it. */
  lemma StaysDead(w: World, w': World, born: Option<string>, ended: Option<string>, jti: string)
    requires StoreMoves(w, w', born, ended) && jti in w.kv && (!Live(w.kv, jti) || ended == Some(jti))
    ensures !Live(w'.kv, jti)
  {
  }

  lemma LatestStep(cfg: Config, w: World, e: Event)
    requires Families(cfg, w) && OnlyLatestLive(w) && Fair(cfg, w, e) && (e.RefreshEvent? ==> e.env.revokeOk)
    ensures OnlyLatestLive(Step(cfg, w, e))
  {
    StepMoves(cfg, w, e);
    FamiliesStep(cfg, w, e);
    RotationEnds(cfg, w, e);
    hide Step, Fair, Handle, StoreMoves, Succeeds, Ended, Born, Presented, Recorded, Live;
    var w' := Step(cfg, w, e);
    forall i, j | 0 <= i < j < |w'.issues| && w'.issues[i].family == w'.issues[j].family
      ensures !Live(w'.kv, w'.issues[i].refresh.jti)
    {
      assert i < |w.issues| && w'.issues[i] == w.issues[i];
      if j == |w.issues| && e.RefreshEvent? {
        var m :| && 0 <= m < |w.issues| && w.issues[m].refresh.jti == Presented(cfg, e).value
                 && w.issues[m].family == Recorded(cfg, w, e).family && Live(w.kv, w.issues[m].refresh.jti);
        LiveIsLatest(w, m);
      }
      StaysDead(w, w', Born(cfg, w, e), Ended(cfg, w, e), w.issues[i].refresh.jti);
    }
  }

  /** A refresh that succeeds and gets its revocation through ends the id it was given. */
  lemma RotationEnds(cfg: Config, w: World, e: Event)
    requires Succeeds(cfg, w, e) && e.RefreshEvent? ==> e.env.revokeOk
    ensures Succeeds(cfg, w, e) && e.RefreshEvent? ==>
              Presented(cfg, e).Some? && Ended(cfg, w, e) == Presented(cfg, e)
    ensures Succeeds(cfg, w, e) ==> e.LoginEvent? || e.RefreshEvent?
    ensures Succeeds(cfg, w, e) && e.LoginEvent? ==> Recorded(cfg, w, e).family == w.families
  {
    hide Verify, Sign, Decimal, FamilyOf;
  }

  lemma {:induction false} FamiliesRun(cfg: Config, w: World, es: seq<Event>)
    requires Families(cfg, w) && FairRun(cfg, w, es)
    ensures Families(cfg, Run(cfg, w, es))
    decreases |es|
  {
    hide Families, Fair, Step;
    if es == [] {
    } else {
      FamiliesStep(cfg, w, es[0]);
      FamiliesRun(cfg, Step(cfg, w, es[0]), es[1..]);
    }
  }

  lemma {:induction false} LatestRun(cfg: Config, w: World, es: seq<Event>)
    requires Families(cfg, w) && OnlyLatestLive(w) && FairRun(cfg, w, es)
    requires forall e :: e in es && e.RefreshEvent? ==> e.env.revokeOk
    ensures OnlyLatestLive(Run(cfg, w, es))
    decreases |es|
  {
    hide Families, Fair, Step, OnlyLatestLive;
    if es == [] {
    } else {
      assert es[0] in es;
      FamiliesStep(cfg, w, es[0]);
      LatestStep(cfg, w, es[0]);
      LatestRun(cfg, Step(cfg, w, es[0]), es[1..]);
    }
  }

  /** In every run whose revocations get through, each login family has at most one live
      refresh id. */
  lemma OneLivePerFamily(cfg: Config, es: seq<Event>, i: nat, j: nat)
    requires FairRun(cfg, START, es) && forall e :: e in es && e.RefreshEvent? ==> e.env.revokeOk
    requires var w := Run(cfg, START, es);
             && i < |w.issues| && j < |w.issues| && w.issues[i].family == w.issues[j].family
             && Live(w.kv, w.issues[i].refresh.jti) && Live(w.kv, w.issues[j].refresh.jti)
    ensures i == j
  {
    LatestRun(cfg, START, es);
  }

  /** A login event with the right name and password that could issue. */
  predicate LogsIn(cfg: Config, e: Event) {
    e.LoginEvent? && e.username == cfg.username && e.password == cfg.password && CanIssue(e.env)
  }

  lemma FamilyStep(cfg: Config, w: World, e: Event)
    ensures Step(cfg, w, e).families == w.families + (if LogsIn(cfg, e) then 1 else 0)
  {
    hide Verify, Sign, Decimal, FamilyOf, Recorded;
  }

  /** Every family was begun by an event of the run, a login with the right name and password. */
  lemma {:induction false} BegunByLogin(cfg: Config, w: World, es: seq<Event>, f: nat) returns (k: nat)
    requires w.families <= f < Run(cfg, w, es).families
    ensures k < |es| && LogsIn(cfg, es[k]) && Run(cfg, w, es[..k]).families == f
    decreases |es|
  {
    hide Step, LogsIn;
    if es == [] {
      assert false;
    } else {
      FamilyStep(cfg, w, es[0]);
      var w' := Step(cfg, w, es[0]);
      if f < w'.families {
        k := 0;
        assert es[..0] == [];
      } else {
        k := BegunByLogin(cfg, w', es[1..], f);
        assert es[..k + 1][1..] == es[1..][..k];
        k := k + 1;
      }
    }
  }

  /** In every run each issue descends from a login with the configured name and password: the one
      that began its family. */
  lemma IssuesComeFromLogins(cfg: Config, es: seq<Event>, i: nat) returns (k: nat)
    requires FairRun(cfg, START, es) && i < |Run(cfg, START, es).issues|
    ensures k < |es| && LogsIn(cfg, es[k])
    ensures Run(cfg, START, es[..k]).families == Run(cfg, START, es).issues[i].family
  {
    FamiliesRun(cfg, START, es);
    hide LogsIn, FairRun;
    k := BegunByLogin(cfg, START, es, Run(cfg, START, es).issues[i].family);
  }

  /** So as long as nobody logs in with them, nothing is issued and no id is ever live. */
  lemma NobodyWithoutPassword(cfg: Config, es: seq<Event>)
    requires FairRun(cfg, START, es)
    requires forall e :: e in es && e.LoginEvent? ==> e.username != cfg.username || e.password != cfg.password
    ensures Run(cfg, START, es).issues == [] && LiveIds(Run(cfg, START, es).kv) == {}
  {
    var w := Run(cfg, START, es);
    forall k | 0 <= k < |es| ensures !LogsIn(cfg, es[k]) {
      assert es[k] in es;
    }
    if w.issues != [] {
      var _ := IssuesComeFromLogins(cfg, es, 0);
      assert false;
    }
    LiveIdsCount(cfg, START, es);
    assert LiveIds(START.kv) == {};
  }

  // ---------------------------------------------------------------------------
  // Logout
  // ---------------------------------------------------------------------------

  /** Nothing of family `f` is live, and nothing was issued to it after `t`. */
  ghost predicate Over(w: World, f: nat, t: nat) {
    forall i :: 0 <= i < |w.issues| && w.issues[i].family == f ==>
      !Live(w.kv, w.issues[i].refresh.jti) && w.issues[i].at <= t
  }

  lemma OverStep(cfg: Config, w: World, e: Event, f: nat, t: nat)
    requires Families(cfg, w) && Over(w, f, t) && f < w.families && Fair(cfg, w, e)
    ensures Over(Step(cfg, w, e), f, t) && f < Step(cfg, w, e).families
  {
    StepMoves(cfg, w, e);
    FamiliesStep(cfg, w, e);
    var w' := Step(cfg, w, e);
    if Succeeds(cfg, w, e) {
      NewFamily(cfg, w, e);
      assert Recorded(cfg, w, e).family != f;
    }
    assert w'.families >= w.families;
    hide Step, Fair, Handle, AllSextets, Unix, FamilyOf, Recorded;
  }

  lemma NewFamily(cfg: Config, w: World, e: Event)
    requires Succeeds(cfg, w, e)
    ensures e.LoginEvent? || e.RefreshEvent?
    ensures e.LoginEvent? ==> Recorded(cfg, w, e).family == w.families
  {
    hide Verify, Sign, Decimal, FamilyOf;
  }

  lemma {:induction false} OverRun(cfg: Config, w: World, es: seq<Event>, f: nat, t: nat)
    requires Families(cfg, w) && Over(w, f, t) && f < w.families && FairRun(cfg, w, es)
    ensures Over(Run(cfg, w, es), f, t) && Families(cfg, Run(cfg, w, es))
    decreases |es|
  {
    hide Families, Over, Fair, Step;
    if es == [] {
    } else {
      FamiliesStep(cfg, w, es[0]);
      OverStep(cfg, w, es[0], f, t);
      OverRun(cfg, Step(cfg, w, es[0]), es[1..], f, t);
    }
  }

  /** A logout with the live token of issue `i`, whose revocation gets through. */
  ghost predicate LiveLogout(cfg: Config, w: World, cookie: string, env: Env, i: nat) {
    && Fair(cfg, w, LogoutEvent(cookie, env))
    && i < |w.issues| && cookie != "" && env.revokeOk
    && Verify(cfg.k, cookie, cfg.refreshSecret) == Ok(w.issues[i].refresh)
    && Live(w.kv, w.issues[i].refresh.jti)
  }

  lemma LogoutEnds(cfg: Config, w: World, cookie: string, env: Env, i: nat)
    requires Families(cfg, w) && OnlyLatestLive(w) && LiveLogout(cfg, w, cookie, env, i)
    ensures var w' := Step(cfg, w, LogoutEvent(cookie, env));
            w'.issues == w.issues && Over(w', w.issues[i].family, env.now)
            && w.issues[i].family < w'.families
  {
    LiveIsLatest(w, i);
    hide Verify, Sign, Decimal, FamilyOf, AllSextets, Unix;
  }

  /** Logging out takes effect in bounded time. With one clock, fresh ids and revocations that
      get through up to then: after a logout at time T with the live token of its family, and
      whatever happens later, every access token of that family, however it was obtained, is
      refused at every Unix second past floor(T + AccessTTL) + 60. */
  lemma LogoutTakesEffect(cfg: Config, before: seq<Event>, cookie: string, env: Env, i: nat,
                          later: seq<Event>, j: nat, now: nat)
    requires ConfigOk(cfg) && FairRun(cfg, START, before)
    requires forall e :: e in before && e.RefreshEvent? ==> e.env.revokeOk
    requires LiveLogout(cfg, Run(cfg, START, before), cookie, env, i)
    requires FairRun(cfg, Step(cfg, Run(cfg, START, before), LogoutEvent(cookie, env)), later)
    requires var w := Run(cfg, START, before);
             var w2 := Run(cfg, Step(cfg, w, LogoutEvent(cookie, env)), later);
             j < |w2.issues| && w2.issues[j].family == w.issues[i].family
    requires Unix(now) > Unix(env.now + cfg.accessTTL) + CLOCK_SKEW
    ensures var w := Run(cfg, START, before);
            var w2 := Run(cfg, Step(cfg, w, LogoutEvent(cookie, env)), later);
            !Me(cfg, Sign(cfg.k, w2.issues[j].access, cfg.accessSecret), now).Profile?
  {
    hide Verify, Sign, Me, Handle, Fair;
    var e := LogoutEvent(cookie, env);
    var w := Run(cfg, START, before);
    FamiliesRun(cfg, START, before);
    LatestRun(cfg, START, before);
    LogoutEnds(cfg, w, cookie, env, i);
    FamiliesStep(cfg, w, e);
    OverRun(cfg, Step(cfg, w, e), later, w.issues[i].family, env.now);
    RefusedOnceOver(cfg, Run(cfg, Step(cfg, w, e), later), w.issues[i].family, env.now, j, now);
  }

  /** Such a logout is there for the asking: log in, then log out with the cookie received. */
  lemma LoginThenLogout(cfg: Config, first: Env, second: Env)
    requires ConfigOk(cfg) && CanIssue(first) && second.revokeOk && second.now >= first.now
    requires AllSextets(first.accessJti.value) && AllSextets(first.refreshJti.value)
    requires second.accessJti == None && second.refreshJti == None
    ensures var before := [LoginEvent(cfg.username, cfg.password, first)];
            var cookie := Sign(cfg.k, RefreshClaims(cfg, first.now, first.refreshJti.value), cfg.refreshSecret);
            FairRun(cfg, START, before) && LiveLogout(cfg, Run(cfg, START, before), cookie, second, 0)
  {
    VerifySigned(cfg.k, RefreshClaims(cfg, first.now, first.refreshJti.value), cfg.refreshSecret);
    NeverTheWord(Unix(first.now + cfg.refreshTTL));
    hide Verify, Decimal;
    var e := LoginEvent(cfg.username, cfg.password, first);
    assert [e][1..] == [];
    var w := Step(cfg, START, e);
    assert w.issues == [Recorded(cfg, START, e)];
    assert w.issues[0].refresh == RefreshClaims(cfg, first.now, first.refreshJti.value);
    assert Live(w.kv, first.refreshJti.value);
    assert Run(cfg, START, [e]) == w;
    hide Sign, Handle, Step;
  }

  lemma RefusedOnceOver(cfg: Config, w: World, f: nat, t: nat, j: nat, now: nat)
    requires ConfigOk(cfg) && Families(cfg, w) && Over(w, f, t) && j < |w.issues| && w.issues[j].family == f
    requires Unix(now) > Unix(t + cfg.accessTTL) + CLOCK_SKEW
    ensures !Me(cfg, Sign(cfg.k, w.issues[j].access, cfg.accessSecret), now).Profile?
  {
    AccessWindow(cfg, w.issues[j].at, w.issues[j].access.jti, now);
    assert w.issues[j].at + cfg.accessTTL <= t + cfg.accessTTL;
  }
}
