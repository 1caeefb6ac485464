/** From an HTTP path to a NATS subject. */
module Routing {
  import opened Text

  datatype Route =
    | BadPath
    | BadSegment
    | NotGet                     // 405 on a WebSocket path
    | MethodRequired
    | Socket(service: string)
    | Rpc(subject: string)

  predicate ValidChar(c: char) {
    'A' <= c <= 'Z' || 'a' <= c <= 'z' || '0' <= c <= '9' || c == '_' || c == '-'
  }

  /** `^[A-Za-z0-9_-]+$` */
  predicate ValidToken(s: string) {
    s != "" && forall i :: 0 <= i < |s| ==> ValidChar(s[i])
  }

  function TrimLeft(s: string): string
    decreases |s|
  {
    if s != "" && s[0] == '/' then TrimLeft(s[1..]) else s
  }

  function TrimRight(s: string): string
    decreases |s|
  {
    if s != "" && s[|s| - 1] == '/' then TrimRight(s[..|s| - 1]) else s
  }

  /** `strings.Trim(path, "/")` */
  function Trim(s: string): string {
    TrimRight(TrimLeft(s))
  }

  function Segments(path: string): seq<string> {
    Split(Trim(path), '/')
  }

  function Subject(service: string, methodParts: seq<string>): string
    requires |methodParts| > 0
  {
    "api.v1." + service + "." + Join(methodParts, '.')
  }

  predicate AllValid(parts: seq<string>) {
    forall i :: 0 <= i < |parts| ==> ValidToken(parts[i])
  }

  /** The path reaches `handleHTTP`. */
  predicate IsRpc(path: string) {
    var parts := Segments(path);
    |parts| >= 3 && parts[0] == "v1" && AllValid(parts[1..]) && parts[|parts| - 1] != "ws"
  }

  function RpcSubject(path: string): string
    requires IsRpc(path)
  {
    Subject(Segments(path)[1], Segments(path)[2..])
  }

  method RouteRequest(path: string, isGet: bool) returns (route: Route)
    ensures var parts := Segments(path);
            route ==
              if |parts| < 2 || parts[0] != "v1" then BadPath
              else if !AllValid(parts[1..]) then BadSegment
              else if parts[|parts| - 1] == "ws" then (if isGet then Socket(parts[1]) else NotGet)
              else if |parts| < 3 then MethodRequired
              else Rpc(Subject(parts[1], parts[2..]))
    ensures route.Rpc? <==> IsRpc(path)
    ensures IsRpc(path) ==> route == Rpc(RpcSubject(path))
  {
    var parts := Split(Trim(path), '/');
    if |parts| < 2 || parts[0] != "v1" {
      return BadPath;
    }
    for i := 1 to |parts|
      invariant forall j :: 1 <= j < i ==> ValidToken(parts[j])
    {
      if !ValidToken(parts[i]) {
        assert !ValidToken(parts[1..][i - 1]);
        return BadSegment;
      }
    }
    assert AllValid(parts[1..]);
    if parts[|parts| - 1] == "ws" {
      return if isGet then Socket(parts[1]) else NotGet;
    }
    if |parts| < 3 {
      return MethodRequired;
    }
    route := Rpc(Subject(parts[1], parts[2..]));
  }

  lemma ValidHasNo(s: string, c: char)
    requires ValidToken(s) && !ValidChar(c)
    ensures c !in s
  {
  }

  /** Splitting the subject at its dots gives `api`, `v1` and exactly the path's segments, none
      of them empty, and there is no wildcard or white space anywhere in it. */
  lemma SubjectTokens(path: string)
    requires IsRpc(path)
    ensures Split(RpcSubject(path), '.') == ["api"] + Segments(path)
    ensures AllValid(Split(RpcSubject(path), '.'))
    ensures forall c :: c in "*> \t\r\n" ==> c !in RpcSubject(path)
  {
    var parts := Segments(path);
    var tokens := ["api"] + parts;
    forall i | 0 <= i < |tokens| ensures ValidToken(tokens[i]) && '.' !in tokens[i] {
      if i >= 2 {
        assert tokens[i] == parts[1..][i - 2];
        ValidHasNo(tokens[i], '.');
      }
    }
    assert RpcSubject(path) == Join(tokens, '.') by {
      assert tokens[1..] == parts && parts[0] == "v1";
      assert parts[1..][1..] == parts[2..];
      assert Join(parts[1..], '.') == parts[1] + ['.'] + Join(parts[2..], '.');
      assert Join(parts, '.') == "v1" + ['.'] + Join(parts[1..], '.');
      assert Join(tokens, '.') == "api" + ['.'] + Join(parts, '.');
    }
    SplitJoin(tokens, '.');
    forall c | !ValidChar(c) && c != '.' ensures c !in RpcSubject(path) {
      forall i | 0 <= i < |tokens| ensures c !in tokens[i] {
        ValidHasNo(tokens[i], c);
      }
      JoinHasNo(tokens, '.', c);
    }
  }

  lemma {:induction false} JoinHasNo(parts: seq<string>, sep: char, c: char)
    requires |parts| > 0 && c != sep && forall i :: 0 <= i < |parts| ==> c !in parts[i]
    ensures c !in Join(parts, sep)
    decreases |parts|
  {
    if |parts| <= 1 {
    } else {
      JoinHasNo(parts[1..], sep, c);
    }
  }

  /** Two paths reach the same subject if and only if they differ in leading and trailing
      slashes only. */
  lemma SubjectInjective(one: string, two: string)
    requires IsRpc(one) && IsRpc(two)
    ensures RpcSubject(one) == RpcSubject(two) <==> Trim(one) == Trim(two)
  {
    if RpcSubject(one) == RpcSubject(two) {
      SubjectTokens(one);
      SubjectTokens(two);
      assert Segments(one) == (["api"] + Segments(one))[1..];
      assert Segments(two) == (["api"] + Segments(two))[1..];
      SplitParts(Trim(one), '/');
      SplitParts(Trim(two), '/');
    }
  }

  /** `v1` and at least two valid segments, the last of them not `ws`. */
  ghost predicate RpcSegments(path: string, segs: seq<string>) {
    |segs| >= 2 && AllValid(segs) && segs[|segs| - 1] != "ws" && Trim(path) == Join(["v1"] + segs, '/')
  }

  lemma RpcHasSegments(path: string)
    requires IsRpc(path)
    ensures RpcSegments(path, Segments(path)[1..])
  {
    hide Trim, Join, ValidToken;
    var parts := Segments(path);
    SplitParts(Trim(path), '/');
    assert parts == ["v1"] + parts[1..];
  }

  lemma SegmentsAreRpc(path: string, segs: seq<string>)
    requires RpcSegments(path, segs)
    ensures IsRpc(path) && Segments(path) == ["v1"] + segs
  {
    var parts := ["v1"] + segs;
    forall i | 0 <= i < |parts| ensures '/' !in parts[i] {
      if i >= 1 {
        assert parts[i] == segs[i - 1];
        ValidHasNo(parts[i], '/');
      }
    }
    hide Trim, Join, ValidToken, Split;
    SplitJoin(parts, '/');
    assert parts[1..] == segs;
  }

  /** Which paths are served, exactly. */
  lemma AcceptedPaths(path: string)
    ensures IsRpc(path) <==> exists segs :: RpcSegments(path, segs)
  {
    hide RpcSegments, IsRpc;
    if IsRpc(path) {
      RpcHasSegments(path);
    }
    if segs :| RpcSegments(path, segs) {
      SegmentsAreRpc(path, segs);
    }
  }

  // ---------------------------------------------------------------------------
  // Trimming
  // ---------------------------------------------------------------------------

  predicate Slashes(s: string) {
    forall i :: 0 <= i < |s| ==> s[i] == '/'
  }

  lemma {:induction false} TrimLeftSplits(s: string) returns (head: string)
    ensures Slashes(head) && s == head + TrimLeft(s) && (TrimLeft(s) != "" ==> TrimLeft(s)[0] != '/')
    decreases |s|
  {
    if s != "" && s[0] == '/' {
      head := TrimLeftSplits(s[1..]);
      assert s == [s[0]] + s[1..];
      head := "/" + head;
    } else {
      head := "";
    }
  }

  lemma {:induction false} TrimRightSplits(s: string) returns (tail: string)
    ensures Slashes(tail) && s == TrimRight(s) + tail
    ensures TrimRight(s) != "" ==> TrimRight(s)[|TrimRight(s)| - 1] != '/' && TrimRight(s)[0] == s[0]
    decreases |s|
  {
    if s != "" && s[|s| - 1] == '/' {
      tail := TrimRightSplits(s[..|s| - 1]);
      assert s == s[..|s| - 1] + "/";
      tail := tail + "/";
    } else {
      tail := "";
    }
  }

  /** Trimming takes slashes off both ends and nothing else. */
  lemma TrimTakesSlashes(s: string) returns (head: string, tail: string)
    ensures Slashes(head) && Slashes(tail) && s == head + Trim(s) + tail
    ensures Trim(s) != "" ==> Trim(s)[0] != '/' && Trim(s)[|Trim(s)| - 1] != '/'
  {
    head := TrimLeftSplits(s);
    tail := TrimRightSplits(TrimLeft(s));
  }
}
