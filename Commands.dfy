/** The command channel: each inbound HTTP request may set the requested
    motor speed. Only the request line is inspected, and six fixed
    `GET /Motor/...` patterns are recognised by substring, first hit wins. */
module Commands {

  /** The position of the first line feed, or the length when there is none. */
  function LineEnd(request: string): (n: nat)
    ensures n <= |request|
    ensures forall i :: 0 <= i < n ==> request[i] != '\n'
    ensures n < |request| ==> request[n] == '\n'
    decreases |request|
  {
    if request == [] || request[0] == '\n' then 0
    else 1 + LineEnd(request[1..])
  }

  /** The text before the first line feed (all of it when there is none). */
  function FirstLine(request: string): (line: string)
    ensures line <= request
    ensures '\n' !in line
    ensures |line| < |request| ==> request[|line|] == '\n'
  {
    request[..LineEnd(request)]
  }

  /** `pattern` starts at position i of `s`. */
  predicate OccursAt(s: string, pattern: string, i: nat)
  {
    i + |pattern| <= |s| && s[i..i + |pattern|] == pattern
  }

  /** Python's `pattern in s` for strings. */
  predicate Contains(s: string, pattern: string)
  {
    exists i :: 0 <= i <= |s| && OccursAt(s, pattern, i)
  }

  /** The recognised patterns and the speed each selects, in the order they are tried. */
  const Routes: seq<(string, int)> := [
    ("GET /Motor/on1", 100),
    ("GET /Motor/on2", 90),
    ("GET /Motor/on3", 80),
    ("GET /Motor/on4", 70),
    ("GET /Motor/on5", 60),
    ("GET /Motor/off", 0)
  ]

  /** The request line contains route k and none of the routes tried before it. */
  predicate FirstHit(line: string, k: nat)
  {
    k < |Routes| && Contains(line, Routes[k].0) &&
    forall j :: 0 <= j < k ==> !Contains(line, Routes[j].0)
  }

  /** The request line contains one of the routes. */
  predicate Recognised(line: string)
  {
    exists k :: 0 <= k < |Routes| && Contains(line, Routes[k].0)
  }

  /** The speed after one request: the first route the request line contains
      decides it; a request line that contains none leaves it unchanged. */
  function UpdateSpeed(request: string, speed: int): (r: int)
    ensures !Recognised(FirstLine(request)) ==> r == speed
    ensures forall k :: 0 <= k < |Routes| && FirstHit(FirstLine(request), k) ==> r == Routes[k].1
    ensures 0 <= speed <= 100 ==> 0 <= r <= 100
  {
    var requestLine := FirstLine(request);
    RoutesTable();
    if Contains(requestLine, "GET /Motor/on1") then 100
    else if Contains(requestLine, "GET /Motor/on2") then 90
    else if Contains(requestLine, "GET /Motor/on3") then 80
    else if Contains(requestLine, "GET /Motor/on4") then 70
    else if Contains(requestLine, "GET /Motor/on5") then 60
    else if Contains(requestLine, "GET /Motor/off") then 0
    else speed
  }

  /** The entries of the route table, one by one. */
  lemma RoutesTable()
    ensures |Routes| == 6
    ensures Routes[0] == ("GET /Motor/on1", 100) && Routes[1] == ("GET /Motor/on2", 90)
    ensures Routes[2] == ("GET /Motor/on3", 80) && Routes[3] == ("GET /Motor/on4", 70)
    ensures Routes[4] == ("GET /Motor/on5", 60) && Routes[5] == ("GET /Motor/off", 0)
  {
  }

  /** A string that contains `p + q` contains `p`. */
  lemma ContainsPrefix(s: string, p: string, q: string)
    requires Contains(s, p + q)
    ensures Contains(s, p)
  {
    var i :| 0 <= i <= |s| && OccursAt(s, p + q, i);
    assert s[i..i + |p|] == (p + q)[..|p|];
    assert (p + q)[..|p|] == p;
    assert OccursAt(s, p, i);
  }

  /** A string that contains a non-empty pattern contains its first character. */
  lemma ContainsFirstChar(s: string, p: string)
    requires |p| > 0 && Contains(s, p)
    ensures p[0] in s
  {
    var i :| 0 <= i <= |s| && OccursAt(s, p, i);
    assert s[i] == s[i..i + |p|][0];
  }

  /** When the first character of `p` appears in `s` at most at position 0,
      `s` contains `p` exactly when it starts with it. */
  lemma ContainsOnlyAtStart(s: string, p: string)
    requires |p| > 0
    requires forall i :: 0 < i < |s| ==> s[i] != p[0]
    ensures Contains(s, p) <==> p <= s
  {
    if Contains(s, p) {
      var i :| 0 <= i <= |s| && OccursAt(s, p, i);
      assert s[i] == s[i..i + |p|][0];
      assert i == 0;
    }
    if p <= s {
      assert s[0..|p|] == p;
      assert OccursAt(s, p, 0);
    }
  }

  /** Every route starts with `GET /Motor/`: a request line without it is
      never recognised, so it leaves the speed unchanged. */
  lemma NonGetLeavesSpeed(request: string, speed: int)
    requires !Contains(FirstLine(request), "GET /Motor/")
    ensures !Recognised(FirstLine(request))
    ensures UpdateSpeed(request, speed) == speed
  {
    var line := FirstLine(request);
    RoutesTable();
    forall k | 0 <= k < |Routes|
      ensures !Contains(line, Routes[k].0)
    {
      var route := Routes[k].0;
      assert route == "GET /Motor/" + route[11..];
      if Contains(line, route) {
        ContainsPrefix(line, "GET /Motor/", route[11..]);
      }
    }
  }

  /** A POST to a motor path is not a command. */
  lemma PostIsIgnored(request: string, speed: int)
    requires request == "POST /Motor/on1 HTTP/1.1"
    ensures UpdateSpeed(request, speed) == speed
  {
    assert '\n' !in request && 'G' !in request;
    NoNewlineIsFirstLine(request);
    if Contains(request, "GET /Motor/") {
      ContainsFirstChar(request, "GET /Motor/");
    }
    NonGetLeavesSpeed(request, speed);
  }

  /** A request with no line feed is its own request line. */
  lemma NoNewlineIsFirstLine(request: string)
    requires '\n' !in request
    ensures FirstLine(request) == request
  {
  }

  /** Only the request line matters: what follows the first line feed is ignored. */
  lemma OnlyFirstLine(line: string, rest: string, speed: int)
    requires '\n' !in line
    ensures FirstLine(line + "\n" + rest) == line
    ensures UpdateSpeed(line + "\n" + rest, speed) == UpdateSpeed(line, speed)
  {
    var request := line + "\n" + rest;
    var first := FirstLine(request);
    assert request[|line|] == '\n';
    assert |first| <= |line|;
    assert |first| == |line|;
    assert first == request[..|first|] == line;
    NoNewlineIsFirstLine(line);
  }

  /** A recognised request line sets the speed whatever it was before. */
  lemma RecognisedOverrides(request: string, a: int, b: int)
    requires Recognised(FirstLine(request))
    ensures UpdateSpeed(request, a) == UpdateSpeed(request, b)
  {
    RoutesTable();
    var k :| 0 <= k < |Routes| && Contains(FirstLine(request), Routes[k].0);
  }

  /** A request line that starts with route k and has no other `G` selects
      route k's speed. */
  lemma LeadingRoute(request: string, k: nat, speed: int)
    requires k < |Routes|
    requires Routes[k].0 <= FirstLine(request)
    requires forall i :: 0 < i < |FirstLine(request)| ==> FirstLine(request)[i] != 'G'
    ensures UpdateSpeed(request, speed) == Routes[k].1
  {
    var line := FirstLine(request);
    RoutesTable();
    forall j | 0 <= j < |Routes|
      ensures Contains(line, Routes[j].0) <==> j == k
    {
      ContainsOnlyAtStart(line, Routes[j].0);
      SameLengthPrefixes(Routes[j].0, Routes[k].0, line);
    }
    assert FirstHit(line, k);
  }

  /** Two prefixes of one string that have the same length are equal. */
  lemma SameLengthPrefixes(a: string, b: string, s: string)
    ensures a <= s && b <= s && |a| == |b| ==> a == b
  {
    if a <= s && b <= s && |a| == |b| {
      assert a == s[..|a|] == b;
    }
  }

  /** The example request `GET /Motor/on3 HTTP/1.1` selects 80. */
  lemma On3Example(request: string, speed: int)
    requires request == "GET /Motor/on3 HTTP/1.1"
    ensures UpdateSpeed(request, speed) == 80
  {
    assert '\n' !in request;
    assert forall i :: 0 < i < |request| ==> request[i] != 'G';
    assert "GET /Motor/on3" <= request;
    NoNewlineIsFirstLine(request);
    RoutesTable();
    LeadingRoute(request, 2, speed);
  }

  /** The speed after a series of requests, handled one at a time. */
  function SpeedAfter(speed: int, requests: seq<string>): (r: int)
    ensures 0 <= speed <= 100 ==> 0 <= r <= 100
    decreases |requests|
  {
    if requests == [] then speed
    else UpdateSpeed(requests[|requests| - 1], SpeedAfter(speed, requests[..|requests| - 1]))
  }

  /** The request loop of the server, from the initial speed 0. */
  method ServeRequests(requests: seq<string>) returns (speed: int)
    ensures speed == SpeedAfter(0, requests)
    ensures 0 <= speed <= 100
  {
    speed := 0;
    for i := 0 to |requests|
      invariant speed == SpeedAfter(0, requests[..i])
    {
      assert requests[..i + 1][..i] == requests[..i];
      speed := UpdateSpeed(requests[i], speed);
    }
    assert requests[..|requests|] == requests;
  }

  /** Latest value wins: the last recognised request decides the speed, and
      unrecognised requests after it change nothing. */
  lemma {:induction false} LastRecognisedWins(speed: int, requests: seq<string>, k: nat)
    requires k < |requests| && Recognised(FirstLine(requests[k]))
    requires forall j :: k < j < |requests| ==> !Recognised(FirstLine(requests[j]))
    ensures SpeedAfter(speed, requests) == UpdateSpeed(requests[k], speed)
    decreases |requests|
  {
    var n := |requests|;
    var front := requests[..n - 1];
    if k == n - 1 {
      RecognisedOverrides(requests[k], SpeedAfter(speed, front), speed);
    } else {
      assert front[k] == requests[k];
      LastRecognisedWins(speed, front, k);
    }
  }

  /** Two commands before the loop reads the speed: 80, then off. Only the last counts. */
  lemma TwoWritesExample(requests: seq<string>, speed: int)
    requires requests == ["GET /Motor/on3", "GET /Motor/off"]
    ensures SpeedAfter(speed, requests) == 0
  {
    var off := requests[1];
    assert '\n' !in off;
    assert forall i :: 0 < i < |off| ==> off[i] != 'G';
    NoNewlineIsFirstLine(off);
    RoutesTable();
    assert Routes[5].0 <= off;
    LeadingRoute(off, 5, SpeedAfter(speed, requests[..1]));
  }
}
