/** The per-IP table as the gateway keeps it: a map for lookup and a doubly linked list
    for recency, updated in place, with a mutable limiter object per entry. */
module IpTables {
  import opened TokenBucket
  import opened RecencyTable

  class Limiter {
    const limit: Limit
    ghost const key: Ip
    var tokens: real
    var last: real

    ghost function View(): Bucket
      reads this
    {
      Bucket(tokens, last)
    }

    constructor (limit: Limit, now: real, ghost key: Ip)
      ensures this.limit == limit && this.key == key && View() == Full(limit, now)
    {
      this.limit, this.key := limit, key;
      this.tokens := limit.burst as real;
      this.last := now;
    }

    method Allow(now: real) returns (ok: bool)
      modifies this
      ensures (ok, View()) == TokenBucket.Allow(limit, old(View()), now)
    {
      var level := Level(limit, Bucket(tokens, last), now);
      ok := level >= 1.0;
      if ok {
        tokens := level - 1.0;
        last := now;
      }
    }
  }

  /** A node of the recency list; its value is an IP. */
  class Element {
    const value: Ip
    var next: Element
    var prev: Element

    /** A node linked to itself. */
    constructor (value: Ip)
      ensures this.value == value && next == this && prev == this
    {
      this.value := value;
      next, prev := this, this;
    }
  }

  /** The recency list: a ring through a sentinel. `nodes` is its ghost view, front first. */
  class RecencyList {
    ghost var nodes: seq<Element>
    const root: Element

    /** Position -1 and position |nodes| are the sentinel. */
    ghost function At(i: int): Element
      reads this
    {
      if 0 <= i < |nodes| then nodes[i] else root
    }

    ghost predicate Distinct()
      reads this
    {
      && (forall i :: 0 <= i < |nodes| ==> nodes[i] != root)
      && forall i, j :: 0 <= i < j < |nodes| ==> nodes[i] != nodes[j]
    }

    ghost predicate Linked()
      reads this, root, nodes
    {
      && (forall i :: -1 <= i < |nodes| ==> At(i).next == At(i + 1))
      && (forall i :: 0 <= i <= |nodes| ==> At(i).prev == At(i - 1))
    }

    ghost predicate Valid()
      reads this, root, nodes
    {
      Distinct() && Linked()
    }

    constructor ()
      ensures Valid() && nodes == [] && fresh(root)
    {
      root := new Element("");
      nodes := [];
    }

    /** Take the node at (ghost) position `i` out of the ring. */
    method Remove(e: Element, ghost i: nat)
      requires Valid() && i < |nodes| && nodes[i] == e
      modifies this, root, nodes
      ensures Valid() && nodes == old(nodes[..i] + nodes[i + 1..])
    {
      assert At(i) == e && e.prev == At(i - 1) && e.next == At(i + 1);
      e.prev.next := e.next;
      e.next.prev := e.prev;
      nodes := nodes[..i] + nodes[i + 1..];
      assert forall j :: 0 <= j < |nodes| ==> nodes[j] == old(nodes)[if j < i then j else j + 1];
      assert forall j :: -1 <= j < i ==> At(j) == old(At(j));
      assert forall j :: i <= j <= |nodes| ==> At(j) == old(At(j + 1));
    }

    /** Link a node that is not in the ring behind the sentinel. */
    method LinkFront(e: Element)
      requires Valid() && e != root
      requires forall i :: 0 <= i < |nodes| ==> nodes[i] != e
      modifies this, root, nodes, e
      ensures Valid() && nodes == [e] + old(nodes)
    {
      assert At(-1) == root && root.next == At(0);
      e.prev := root;
      e.next := root.next;
      e.prev.next := e;
      e.next.prev := e;
      nodes := [e] + nodes;
      assert forall j :: 0 < j <= |nodes| ==> At(j) == old(At(j - 1));
    }

    method MoveToFront(e: Element, ghost i: nat)
      requires Valid() && i < |nodes| && nodes[i] == e
      modifies this, root, nodes
      ensures Valid() && nodes == Raised(old(nodes), i)
    {
      Remove(e, i);
      LinkFront(e);
    }

    /** The least recently moved node, or null for an empty list. */
    method Back() returns (e: Element?)
      requires Valid()
      ensures e == if nodes == [] then null else nodes[|nodes| - 1]
    {
      assert At(|nodes|) == root && root.prev == At(|nodes| - 1);
      e := if root.prev == root then null else root.prev;
    }
  }

  /** One record per IP; `elem` is its own node in the recency list. */
  class IpEntry {
    const limiter: Limiter
    const elem: Element
    var lastSeen: real

    constructor (limiter: Limiter, elem: Element, lastSeen: real)
      ensures this.limiter == limiter && this.elem == elem && this.lastSeen == lastSeen
    {
      this.limiter, this.elem, this.lastSeen := limiter, elem, lastSeen;
    }
  }

  /** The table: map and list, with its ghost view `contents` in recency order. */
  class IpTable {
    ghost var contents: Table
    ghost var Repr: set<object>
    ghost const limit: Limit  // every call passes the settings of this table
    var m: map<Ip, IpEntry>
    const lst: RecencyList

    ghost predicate Framed()
      reads this, Repr
    {
      && {this, lst, lst.root} <= Repr
      && (forall i :: 0 <= i < |lst.nodes| ==> lst.nodes[i] in Repr)
      && (forall k :: k in m ==> m[k] in Repr && m[k].limiter in Repr)
    }

    /** The map and the list hold the same IPs; every record knows its own node and has a
        limiter of its own. */
    ghost predicate Matched()
      reads this, lst
    {
      && |m| == |lst.nodes|
      && (forall i :: 0 <= i < |lst.nodes| ==> lst.nodes[i].value in m && m[lst.nodes[i].value].elem == lst.nodes[i])
      && (forall k :: k in m ==> m[k].limiter.key == k && m[k].limiter.limit == limit)
    }

    ghost predicate Mirrored()
      requires Framed() && Matched()
      reads this, Repr
    {
      && |contents| == |lst.nodes|
      && forall i :: 0 <= i < |contents| ==> contents[i] == EntryOf(lst.nodes[i].value)
    }

    ghost predicate Valid()
      reads this, Repr
      ensures Valid() ==> this in Repr
    {
      Framed() && lst.Valid() && Matched() && Mirrored()
    }

    ghost function EntryOf(ip: Ip): Entry
      requires Framed() && ip in m
      reads this, Repr
    {
      Entry(ip, m[ip].limiter.View(), m[ip].lastSeen)
    }

    constructor (ghost limit: Limit)
      ensures Valid() && contents == [] && fresh(Repr) && this.limit == limit
    {
      this.limit := limit;
      m := map[];
      lst := new RecencyList();
      contents := [];
      new;
      Repr := {this, lst, lst.root};
    }

    /** Map keys equal the list's values, and none occurs twice. */
    lemma KeysMatch()
      requires Valid()
      ensures RecencyTable.Distinct(contents)
      ensures forall ip :: ip in m <==> Has(contents, ip)
    {
      hide RecencyList.Linked, Lookup;
      var ips := Ips(contents);
      IpsSize(contents);
      assert ips <= m.Keys;
      assert |m.Keys - ips| == |m.Keys| - |ips| == 0;
      forall ip ensures ip in m <==> Has(contents, ip) {
        IpsOf(contents, ip);
        assert ip in m.Keys - ips || (ip in m <==> ip in ips);
      }
    }

    /** The position of a record's node is the position of its IP in the table. */
    lemma Position(ip: Ip)
      requires Valid() && ip in m
      ensures var i := Lookup(contents, ip);
              i < |contents| && lst.nodes[i] == m[ip].elem
    {
      KeysMatch();
    }

    method Stamp(ip: Ip, now: real, ghost i: nat)
      requires Valid() && i < |contents| && lst.nodes[i].value == ip
      modifies m[ip], this`contents
      ensures Valid()
      ensures contents == old(contents)[i := old(contents)[i].(lastSeen := now)]
    {
      hide RecencyList.Linked, RecencyList.At, Limiter.View;
      m[ip].lastSeen := now;
      contents := contents[i := contents[i].(lastSeen := now)];
    }

    lemma Frame()
      requires Valid()
      ensures lst.Valid() && this in Repr && lst in Repr && lst.root in Repr && |contents| == |lst.nodes|
      ensures forall i :: 0 <= i < |lst.nodes| ==> lst.nodes[i] in Repr && lst.nodes[i].value in m
      ensures forall i :: 0 <= i < |lst.nodes| ==> m[lst.nodes[i].value].elem == lst.nodes[i]
    {
    }

    /** The records that stay in the map are as they were. */
    twostate predicate SameRecords()
      reads this, m.Values, set x | x in m.Values :: x.limiter
    {
      forall k :: k in old(m) && k in m && m[k] == old(m[k]) ==>
        m[k].lastSeen == old(m[k].lastSeen) && m[k].limiter.View() == old(m[k].limiter.View())
    }

    twostate lemma RaisedValid(i: nat)
      requires old(Valid()) && lst.Valid() && m == old(m) && Repr == old(Repr) && SameRecords()
      requires i < |old(contents)| == |old(lst.nodes)|
      requires lst.nodes == Raised(old(lst.nodes), i) && contents == Raised(old(contents), i)
      ensures Valid()
    {
      hide RecencyList.Valid, Limiter.View, Raised;
      assert Framed() && Matched();
      forall k | 0 <= k < |contents| ensures contents[k] == EntryOf(lst.nodes[k].value) {
        var j := if k == 0 then i else if k <= i then k - 1 else k;
        assert contents[k] == old(contents)[j] == old(EntryOf(lst.nodes[j].value));
      }
    }

    method Raise(ip: Ip, ghost i: nat)
      requires Valid() && i < |contents| && lst.nodes[i].value == ip
      modifies this`contents, lst, lst.root, lst.nodes
      ensures Valid()
      ensures contents == Raised(old(contents), i)
    {
      hide Valid, RecencyList.Valid, Limiter.View, Raised;
      Frame();
      lst.MoveToFront(m[ip].elem, i);
      contents := Raised(contents, i);
      RaisedValid(i);
    }

    method Hit(ip: Ip, now: real)
      requires Valid() && ip in m
      modifies Repr
      ensures Valid() && m == old(m) && Repr == old(Repr)
      ensures var t := old(contents);
              var i := Lookup(t, ip);
              i < |t| && contents == Raised(t[i := t[i].(lastSeen := now)], i)
    {
      hide RecencyList.Valid, Lookup, Limiter.View;
      Position(ip);
      ghost var i := Lookup(contents, ip);
      Stamp(ip, now, i);
      Raise(ip, i);
    }

    twostate lemma DroppedValid(ip: Ip)
      requires old(Valid()) && lst.Valid() && Repr == old(Repr) && SameRecords()
      requires old(lst.nodes) != [] && ip == old(lst.nodes)[|old(lst.nodes)| - 1].value
      requires m == old(m) - {ip} && lst.nodes == old(lst.nodes)[..|old(lst.nodes)| - 1]
      requires |old(contents)| == |old(lst.nodes)| && contents == old(contents)[..|old(contents)| - 1]
      ensures Valid()
    {
      hide RecencyList.Linked, Limiter.View;
      assert Framed() && Matched();
      forall k | 0 <= k < |contents| ensures contents[k] == EntryOf(lst.nodes[k].value) {
        assert contents[k] == old(contents)[k] == old(EntryOf(lst.nodes[k].value));
      }
    }

    /** Drop the entry at the back of the list, from the list and from the map. */
    method DropBack(oldest: Element)
      requires Valid() && lst.nodes != [] && oldest == lst.nodes[|lst.nodes| - 1]
      modifies Repr
      ensures Valid() && Repr == old(Repr)
      ensures m == old(m) - {oldest.value}
      ensures contents == old(contents[..|contents| - 1])
    {
      hide Valid, RecencyList.Valid, Limiter.View;
      Frame();
      lst.Remove(oldest, |lst.nodes| - 1);
      m := m - {oldest.value};
      contents := contents[..|contents| - 1];
      DroppedValid(oldest.value);
    }

    /** What entering a new record changes. */
    twostate predicate Entered(ip: Ip, new e: IpEntry)
      reads this, lst, e, e.limiter
    {
      && old(ip !in m) && m == old(m)[ip := e] && lst.nodes == [e.elem] + old(lst.nodes)
      && contents == [Entry(ip, e.limiter.View(), e.lastSeen)] + old(contents)
      && Repr == old(Repr) + {e, e.elem, e.limiter}
      && e.elem.value == ip && e.limiter.key == ip && e.limiter.limit == limit
    }

    twostate lemma EnteredValid(ip: Ip, new e: IpEntry)
      requires old(Valid()) && lst.Valid() && Entered(ip, e) && SameRecords()
      ensures Valid()
    {
      hide RecencyList.Valid, Limiter.View;
      assert forall k :: 1 <= k < |lst.nodes| ==> lst.nodes[k] == old(lst.nodes)[k - 1];
      assert Framed() && Matched();
      forall k | 0 <= k < |contents| ensures contents[k] == EntryOf(lst.nodes[k].value) {
        if k > 0 {
          assert contents[k] == old(contents)[k - 1] == old(EntryOf(lst.nodes[k - 1].value));
        }
      }
    }

    /** Link a new record's node in front and enter the record under its IP. */
    method Enter(ip: Ip, e: IpEntry)
      requires Valid() && ip !in m && {e, e.elem, e.limiter} !! Repr
      requires e.elem.value == ip && e.limiter.key == ip && e.limiter.limit == limit
      modifies Repr, e.elem
      ensures Valid() && Repr == old(Repr) + {e, e.elem, e.limiter}
      ensures m == old(m)[ip := e]
      ensures contents == [Entry(ip, e.limiter.View(), e.lastSeen)] + old(contents)
    {
      hide Valid, RecencyList.Valid, Limiter.View;
      Frame();
      lst.LinkFront(e.elem);
      m := m[ip := e];
      contents := [Entry(ip, e.limiter.View(), e.lastSeen)] + contents;
      Repr := Repr + {e, e.elem, e.limiter};
      EnteredValid(ip, e);
    }

    method Insert(ip: Ip, limit: Limit, now: real)
      requires Valid() && ip !in m && limit == this.limit
      modifies Repr
      ensures Valid() && fresh(Repr - old(Repr)) && ip in m
      ensures contents == [Entry(ip, Full(limit, now), now)] + old(contents)
    {
      hide Valid, Lookup;
      var limiter := new Limiter(limit, now, ip);
      var elem := new Element(ip);
      var e := new IpEntry(limiter, elem, now);
      Enter(ip, e);
    }

    lemma Sizes()
      requires Valid()
      ensures lst.Valid() && |m| == |lst.nodes| == |contents|
    {
    }

    lemma AtPosition(i: nat)
      requires Valid() && i < |contents|
      ensures var ip := lst.nodes[i].value;
              && ip in m && m[ip] in Repr && m[ip].limiter in Repr
              && contents[i] == EntryOf(ip) && m[ip].limiter.limit == limit
    {
    }

    /** `get`: the limiter of `ip`, created on a miss, with its entry now in front. */
    method Get(cfg: Config, ip: Ip, now: real) returns (limiter: Limiter)
      requires Valid() && cfg.limit == limit
      modifies Repr
      ensures Valid() && fresh(Repr - old(Repr))
      ensures contents == Touch(cfg, old(contents), ip, now)
      ensures lst.nodes != [] && lst.nodes[0].value == ip && ip in m && limiter == m[ip].limiter
    {
      hide Valid, RecencyList.Valid, Lookup, Raised, Full;
      KeysMatch();
      Sizes();
      if ip in m {
        Hit(ip, now);
      } else {
        if |m| >= cfg.maxIPs {
          var oldest := lst.Back();
          if oldest != null {
            DropBack(oldest);
          }
        }
        Insert(ip, cfg.limit, now);
      }
      Sizes();
      AtPosition(0);
      limiter := m[ip].limiter;
    }

    /** `Allow` on the limiter in front. */
    method Take(limiter: Limiter, now: real) returns (ok: bool)
      requires Valid() && contents != []
      requires lst.nodes[0].value in m && limiter == m[lst.nodes[0].value].limiter
      modifies Repr
      ensures Valid() && Repr == old(Repr)
      ensures var (taken, b) := TokenBucket.Allow(limit, old(contents[0].bucket), now);
              ok == taken && contents == old(contents)[0 := old(contents[0]).(bucket := b)]
    {
      hide RecencyList.Linked, RecencyList.At, TokenBucket.Allow;
      ok := limiter.Allow(now);
      contents := contents[0 := contents[0].(bucket := limiter.View())];
    }

    /** `get` followed by `Allow` on the limiter it returned. */
    method Allow(cfg: Config, ip: Ip, now: real) returns (ok: bool)
      requires Valid() && cfg.limit == limit
      modifies Repr
      ensures Valid() && fresh(Repr - old(Repr))
      ensures (ok, contents) == Admit(cfg, old(contents), ip, now)
    {
      hide Valid, TokenBucket.Allow, Touch;
      var limiter := Get(cfg, ip, now);
      ok := Take(limiter, now);
    }

    /** The expiry sweep: walk from the back and stop at the first fresh entry. */
    method CleanupExpired(cutoff: real) returns (steps: nat)
      requires Valid() && Sorted(contents)
      modifies Repr
      ensures Valid() && Repr == old(Repr)
      ensures contents == Expire(old(contents), cutoff)
      ensures steps == |old(contents)| - |contents| + 1
    {
      hide Valid, RecencyList.Valid, Lookup;
      steps := 0;
      while true
        invariant Valid() && Repr == old(Repr) && contents <= old(contents)
        invariant Expire(contents, cutoff) == Expire(old(contents), cutoff)
        invariant steps == |old(contents)| - |contents|
        decreases |contents|
      {
        steps := steps + 1;
        Sizes();
        var oldest := lst.Back();
        if oldest == null {
          return;
        }
        ExpireFromBack(contents, cutoff);
        AtPosition(|contents| - 1);
        if !(m[oldest.value].lastSeen < cutoff) {
          return;
        }
        DropBack(oldest);
      }
    }
  }
}
