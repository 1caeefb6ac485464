/** The rate limiter's table as a plain value: its entries in recency order, the most
    recently seen IP first. This is the specification the linked structure is proved
    against. */
module RecencyTable {
  import opened TokenBucket

  type Ip = string

  datatype Entry = Entry(ip: Ip, bucket: Bucket, lastSeen: real)

  type Table = seq<Entry>

  datatype Config = Config(limit: Limit, maxIPs: nat) {
    predicate Valid() {
      limit.Valid() && maxIPs >= 1
    }
  }

  /** Position of `ip`, or the table's length when it has no entry. */
  function Lookup(t: Table, ip: Ip): (i: nat)
    ensures i <= |t|
    ensures i < |t| ==> t[i].ip == ip
    ensures forall j :: 0 <= j < i ==> t[j].ip != ip
  {
    if t == [] then 0
    else if t[0].ip == ip then 0
    else 1 + Lookup(t[1..], ip)
  }

  predicate Has(t: Table, ip: Ip) {
    Lookup(t, ip) < |t|
  }

  /** Element `i` moved to the front, the others in their old order. */
  function Raised<T>(s: seq<T>, i: nat): (r: seq<T>)
    requires i < |s|
    ensures |r| == |s|
    ensures forall k :: 0 <= k < |s| ==> r[k] == s[if k == 0 then i else if k <= i then k - 1 else k]
  {
    [s[i]] + s[..i] + s[i + 1..]
  }

  /** The lookup half of `get`: afterwards the entry of `ip` is in front. */
  function Touch(cfg: Config, t: Table, ip: Ip, now: real): (t': Table)
    ensures t' != [] && t'[0].ip == ip
  {
    var i := Lookup(t, ip);
    if i < |t| then
      Raised(t[i := t[i].(lastSeen := now)], i)
    else
      [Entry(ip, Full(cfg.limit, now), now)] + MakeRoom(cfg, t)
  }

  /** A miss on a full table drops the least recently seen entry. */
  function MakeRoom(cfg: Config, t: Table): Table {
    if |t| >= cfg.maxIPs && |t| > 0 then t[..|t| - 1] else t
  }

  /** One limited request: `get`, then `Allow` on the limiter it returned. */
  function Admit(cfg: Config, t: Table, ip: Ip, now: real): (bool, Table) {
    var t1 := Touch(cfg, t, ip, now);
    var (ok, b) := Allow(cfg.limit, t1[0].bucket, now);
    (ok, t1[0 := t1[0].(bucket := b)])
  }

  /** The expiry sweep as a filter over the whole table. */
  function Expire(t: Table, cutoff: real): Table {
    if t == [] then []
    else if t[0].lastSeen < cutoff then Expire(t[1..], cutoff)
    else [t[0]] + Expire(t[1..], cutoff)
  }

  ghost predicate Distinct(t: Table) {
    forall i, j :: 0 <= i < j < |t| ==> t[i].ip != t[j].ip
  }

  ghost predicate Sorted(t: Table) {
    forall i, j :: 0 <= i < j < |t| ==> t[i].lastSeen >= t[j].lastSeen
  }

  ghost predicate EntryOk(cfg: Config, e: Entry, now: real) {
    InRange(cfg.limit, e.bucket) && e.bucket.last <= e.lastSeen <= now
  }

  /** The table invariant at time `now`. */
  ghost predicate WellFormed(cfg: Config, t: Table, now: real) {
    && Distinct(t)
    && Sorted(t)
    && |t| <= cfg.maxIPs
    && forall i :: 0 <= i < |t| ==> EntryOk(cfg, t[i], now)
  }

  lemma LookupUnique(t: Table, ip: Ip, k: nat)
    requires Distinct(t) && k < |t| && t[k].ip == ip
    ensures Lookup(t, ip) == k
  {
  }

  lemma Present(t: Table, ip: Ip, k: nat)
    requires k < |t| && t[k].ip == ip
    ensures Has(t, ip)
  {
  }

  lemma LookupMissing(t: Table, ip: Ip)
    requires forall j :: 0 <= j < |t| ==> t[j].ip != ip
    ensures Lookup(t, ip) == |t|
  {
  }

  /** Behind its front, a touched table is the old one in the old order, without `ip`. */
  lemma TouchTail(cfg: Config, t: Table, ip: Ip, now: real, k: nat)
    requires Distinct(t) && 1 <= k < |Touch(cfg, t, ip, now)|
    ensures var p := if k <= Lookup(t, ip) then k - 1 else k;
            p < |t| && Touch(cfg, t, ip, now)[k] == t[p] && t[p].ip != ip
  {
    hide Raised, Lookup, Full;
    var i := Lookup(t, ip);
    var p := if k <= i then k - 1 else k;
    if i == |t| {
      assert MakeRoom(cfg, t)[k - 1] == t[p];
    }
  }

  lemma TouchWellFormed(cfg: Config, t: Table, ip: Ip, before: real, now: real)
    requires cfg.Valid() && WellFormed(cfg, t, before) && before <= now
    ensures WellFormed(cfg, Touch(cfg, t, ip, now), now)
    ensures Touch(cfg, t, ip, now)[0].ip == ip
  {
    var t' := Touch(cfg, t, ip, now);
    assert |t'| <= cfg.maxIPs && EntryOk(cfg, t'[0], now) && t'[0].ip == ip && t'[0].lastSeen == now;
    forall k, l | 0 <= k < l < |t'|
      ensures t'[k].ip != t'[l].ip && t'[k].lastSeen >= t'[l].lastSeen && EntryOk(cfg, t'[l], now)
    {
      hide Touch;
      TouchTail(cfg, t, ip, now, l);
      if k > 0 {
        TouchTail(cfg, t, ip, now, k);
      }
    }
  }

  /** `get` followed by `Allow` keeps the table invariant. */
  lemma AdmitWellFormed(cfg: Config, t: Table, ip: Ip, before: real, now: real)
    requires cfg.Valid() && WellFormed(cfg, t, before) && before <= now
    ensures WellFormed(cfg, Admit(cfg, t, ip, now).1, now)
    ensures Admit(cfg, t, ip, now).1[0].ip == ip
    ensures Admit(cfg, t, ip, now).1[0].lastSeen == now
  {
    TouchWellFormed(cfg, t, ip, before, now);
    var t1 := Touch(cfg, t, ip, now);
    AllowInRange(cfg.limit, t1[0].bucket, now);
  }

  /** On a sorted table the filter only ever cuts a tail off. */
  lemma {:induction false} ExpireIsPrefix(t: Table, cutoff: real)
    requires Sorted(t)
    ensures Expire(t, cutoff) <= t
    ensures forall i :: 0 <= i < |Expire(t, cutoff)| ==> t[i].lastSeen >= cutoff
    ensures forall i :: |Expire(t, cutoff)| <= i < |t| ==> t[i].lastSeen < cutoff
  {
    if t == [] {
    } else {
      ExpireIsPrefix(t[1..], cutoff);
      if t[0].lastSeen < cutoff {
        assert forall i :: 0 <= i < |t[1..]| ==> t[1..][i] == t[i + 1] && t[i + 1].lastSeen < cutoff;
        assert Expire(t[1..], cutoff) == [];
      }
    }
  }

  /** The cut is where the fresh entries end. */
  lemma ExpireCut(t: Table, cutoff: real, k: nat)
    requires Sorted(t) && k <= |t|
    requires k > 0 ==> t[k - 1].lastSeen >= cutoff
    requires k < |t| ==> t[k].lastSeen < cutoff
    ensures Expire(t, cutoff) == t[..k]
  {
    ExpireIsPrefix(t, cutoff);
  }

  /** Why the sweep may stop at the first fresh entry from the back. */
  lemma ExpireFromBack(t: Table, cutoff: real)
    requires Sorted(t) && t != []
    ensures t[|t| - 1].lastSeen >= cutoff ==> Expire(t, cutoff) == t
    ensures t[|t| - 1].lastSeen < cutoff ==> Expire(t, cutoff) == Expire(t[..|t| - 1], cutoff)
  {
    hide Expire;
    var init := t[..|t| - 1];
    if t[|t| - 1].lastSeen >= cutoff {
      ExpireCut(t, cutoff, |t|);
    } else {
      ExpireIsPrefix(init, cutoff);
      var k := |Expire(init, cutoff)|;
      assert Expire(init, cutoff) == init[..k] == t[..k];
      assert k < |t| && (k < |init| ==> t[k] == init[k]) && (k > 0 ==> t[k - 1] == init[k - 1]);
      ExpireCut(t, cutoff, k);
    }
  }

  lemma ExpireWellFormed(cfg: Config, t: Table, cutoff: real, now: real)
    requires WellFormed(cfg, t, now)
    ensures WellFormed(cfg, Expire(t, cutoff), now)
  {
    ExpireIsPrefix(t, cutoff);
  }

  ghost function Ips(t: Table): set<Ip> {
    set e | e in t :: e.ip
  }

  lemma {:induction false} IpsSize(t: Table)
    requires Distinct(t)
    ensures |Ips(t)| == |t|
  {
    if t == [] {
    } else {
      IpsSize(t[1..]);
      assert Ips(t) == {t[0].ip} + Ips(t[1..]);
    }
  }

  lemma IpsOf(t: Table, ip: Ip)
    ensures ip in Ips(t) <==> Has(t, ip)
  {
    if ip in Ips(t) {
      var i :| 0 <= i < |t| && t[i].ip == ip;
    }
  }
}
