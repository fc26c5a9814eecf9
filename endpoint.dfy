/** `parse_http_endpoint` (ai.py lines 19-21): turns an HTTP endpoint into the
    websocket address the client connects to, using Python's `str.split`. */
module Endpoint {
  import opened Wrappers
  import opened Sequences

  /** `sep` occurs in `s` starting at index `i`. */
  predicate OccursAt(s: string, sep: string, i: nat)
  {
    i + |sep| <= |s| && s[i..i + |sep|] == sep
  }

  ghost predicate Occurs(s: string, sep: string)
  {
    exists i: nat :: OccursAt(s, sep, i)
  }

  /** The index of the first occurrence of `sep` in `s` (Python's `str.find`). */
  function Find(s: string, sep: string): (r: Option<nat>)
    requires |sep| > 0
    ensures r.Some? ==> OccursAt(s, sep, r.value)
    ensures r.Some? ==> forall j: nat :: j < r.value ==> !OccursAt(s, sep, j)
    ensures r.None? ==> forall j: nat :: !OccursAt(s, sep, j)
    decreases |s|
  {
    if |s| < |sep| then None
    else if s[..|sep|] == sep then Some(0)
    else
      var tail := Find(s[1..], sep);
      ShiftOccurrence(s, sep);
      match tail
      case None => None
      case Some(i) => Some(i + 1)
  }

  /** An occurrence in `s[1..]` is an occurrence in `s`, one index later. */
  lemma ShiftOccurrence(s: string, sep: string)
    requires |s| > 0
    ensures forall j: nat :: OccursAt(s[1..], sep, j) <==> OccursAt(s, sep, j + 1)
    ensures forall j: nat :: 1 <= j ==> (OccursAt(s, sep, j) <==> OccursAt(s[1..], sep, j - 1))
  {
    forall j: nat
      ensures OccursAt(s[1..], sep, j) <==> OccursAt(s, sep, j + 1)
    {
      if j + |sep| <= |s| - 1 {
        assert s[1..][j..j + |sep|] == s[j + 1..j + 1 + |sep|];
      }
    }
    forall j: nat | 1 <= j
      ensures OccursAt(s, sep, j) <==> OccursAt(s[1..], sep, j - 1)
    {
      assert OccursAt(s[1..], sep, j - 1) <==> OccursAt(s, sep, (j - 1) + 1);
    }
  }

  /** Rebuilds a string from its pieces, the inverse of `Split`. */
  function Join(pieces: seq<string>, sep: string): string
    requires |pieces| >= 1
  {
    if |pieces| == 1 then pieces[0] else pieces[0] + sep + Join(pieces[1..], sep)
  }

  /** Python's `s.split(sep)` for a non-empty separator: the pieces between the
      non-overlapping occurrences of `sep`, found from left to right. */
  function Split(s: string, sep: string): (pieces: seq<string>)
    requires |sep| > 0
    ensures |pieces| >= 1
    ensures Join(pieces, sep) == s
    ensures forall k :: 0 <= k < |pieces| ==> !Occurs(pieces[k], sep)
    ensures |pieces| >= 2 <==> Occurs(s, sep)
    ensures IsPrefix(pieces[0], s)
    ensures forall j: nat :: j < |pieces[0]| ==> !OccursAt(s, sep, j)
    ensures |pieces| >= 2 ==> OccursAt(s, sep, |pieces[0]|)
    decreases |s|
  {
    match Find(s, sep)
    case None => [s]
    case Some(i) =>
      var rest := Split(s[i + |sep|..], sep);
      PrefixBeforeFirstOccurrence(s, sep, i);
      assert s[..i] + sep + s[i + |sep|..] == s by {
        assert s == s[..i] + s[i..i + |sep|] + s[i + |sep|..];
      }
      [s[..i]] + rest
  }

  /** The text before the first occurrence of `sep` does not contain `sep`. */
  lemma PrefixBeforeFirstOccurrence(s: string, sep: string, i: nat)
    requires |sep| > 0 && i <= |s|
    requires forall j: nat :: j < i ==> !OccursAt(s, sep, j)
    ensures !Occurs(s[..i], sep)
  {
    forall j: nat | OccursAt(s[..i], sep, j)
      ensures false
    {
      assert s[..i][j..j + |sep|] == s[j..j + |sep|];
      assert OccursAt(s, sep, j);
    }
  }

  /** A prefix of a string that does not contain `sep` does not contain it. */
  lemma PrefixKeepsAbsence(p: string, s: string, sep: string)
    requires IsPrefix(p, s) && !Occurs(s, sep)
    ensures !Occurs(p, sep)
  {
    forall j: nat | OccursAt(p, sep, j)
      ensures false
    {
      assert p[j..j + |sep|] == s[j..j + |sep|];
      assert OccursAt(s, sep, j);
    }
  }

  const Http: string := "http"
  const NameQuery: string := "?name="

  /** `parse_http_endpoint`: "ws" followed by the text between the first and
      the second "http" of the endpoint, cut before its first "?name=". An
      endpoint without "http" makes the source raise IndexError: `None`. */
  function ParseHttpEndpoint(endpoint: string): (r: Option<string>)
    ensures r.None? <==> !Occurs(endpoint, Http)
    ensures r.Some? ==> IsPrefix("ws", r.value)
    ensures r.Some? ==> !Occurs(r.value, NameQuery)
    ensures r.Some? ==> !Occurs(r.value[2..], Http)
    ensures r.Some? ==> var i := Find(endpoint, Http).value;
                        IsPrefix(r.value[2..], endpoint[i + |Http|..])
  {
    var parts := Split(endpoint, Http);
    if |parts| < 2 then None
    else
      var host := parts[1];
      var cut := Split("ws" + host, NameQuery)[0];
      assert !Occurs(host, Http);
      CutKeepsSchemeAndHost(host);
      SecondPieceFollowsFirstOccurrence(endpoint, Http);
      PrefixTransitive(cut[2..], host, endpoint[|parts[0]| + |Http|..]);
      Some(cut)
  }

  /** Where the address ends: after "ws" it is the text that follows the
      first "http" of the endpoint, up to the second "http", the first
      "?name=" or the end of the endpoint, whichever the split meets. */
  lemma ParsedAddressEnds(endpoint: string)
    requires Occurs(endpoint, Http)
    ensures var r := ParseHttpEndpoint(endpoint);
            var rest := endpoint[Find(endpoint, Http).value + |Http|..];
            var n := |r.value| - 2;
            r.Some? && 0 <= n <= |rest| && r.value[2..] == rest[..n] &&
            (n == |rest| || OccursAt(rest, Http, n) || OccursAt(rest, NameQuery, n))
  {
    var parts := Split(endpoint, Http);
    var host := parts[1];
    SecondPieceFollowsFirstOccurrence(endpoint, Http);
    var rest := endpoint[|parts[0]| + |Http|..];
    HostEndsAtHttp(endpoint, rest);
    var cut := Split("ws" + host, NameQuery)[0];
    CutKeepsSchemeAndHost(host);
    CutEndsAtNameQuery(host, rest);
    assert ParseHttpEndpoint(endpoint) == Some(cut);
  }

  /** The second piece of `endpoint.split("http")` runs from the first "http"
      to the next one, or to the end. */
  lemma HostEndsAtHttp(endpoint: string, rest: string)
    requires Occurs(endpoint, Http)
    requires rest == endpoint[|Split(endpoint, Http)[0]| + |Http|..]
    ensures var host := Split(endpoint, Http)[1];
            IsPrefix(host, rest) && (host == rest || OccursAt(rest, Http, |host|))
  {
    SecondPieceFollowsFirstOccurrence(endpoint, Http);
    var tail := Split(rest, Http);
    assert Split(endpoint, Http)[1..] == tail;
    if |tail| == 1 {
      assert Join(tail, Http) == tail[0];
    }
  }

  /** Cutting "ws" + `host` at "?name=" keeps `host` whole or stops at a
      "?name=" of `host`, and so of any text `host` is a prefix of. */
  lemma CutEndsAtNameQuery(host: string, rest: string)
    requires IsPrefix(host, rest) && (host == rest || OccursAt(rest, Http, |host|))
    requires !Occurs(host, Http)
    ensures var cut := Split("ws" + host, NameQuery)[0];
            var n := |cut| - 2;
            0 <= n <= |rest| && cut[2..] == rest[..n] &&
            (n == |rest| || OccursAt(rest, Http, n) || OccursAt(rest, NameQuery, n))
  {
    if |Split("ws" + host, NameQuery)| >= 2 {
      CutAtNameQuery(host, rest);
    } else {
      CutWholeHost(host, rest);
    }
  }

  lemma CutAtNameQuery(host: string, rest: string)
    requires IsPrefix(host, rest) && !Occurs(host, Http)
    requires |Split("ws" + host, NameQuery)| >= 2
    ensures var cut := Split("ws" + host, NameQuery)[0];
            var n := |cut| - 2;
            0 <= n <= |host| && cut[2..] == rest[..n] && OccursAt(rest, NameQuery, n)
  {
    var address := "ws" + host;
    var cut := Split(address, NameQuery)[0];
    CutKeepsSchemeAndHost(host);
    var n := |cut| - 2;
    assert OccursAt(address, NameQuery, |cut|);
    AfterScheme(host, n, n + |NameQuery|);
    PrefixSlice(host, rest, n, n + |NameQuery|);
    PrefixSlice(host, rest, 0, n);
    assert cut[2..] == host[..n];
  }

  lemma CutWholeHost(host: string, rest: string)
    requires IsPrefix(host, rest) && (host == rest || OccursAt(rest, Http, |host|))
    requires !Occurs(host, Http)
    requires |Split("ws" + host, NameQuery)| < 2
    ensures var cut := Split("ws" + host, NameQuery)[0];
            |cut| - 2 == |host| && cut[2..] == rest[..|host|] &&
            (|host| == |rest| || OccursAt(rest, Http, |host|))
  {
    var pieces := Split("ws" + host, NameQuery);
    assert Join(pieces, NameQuery) == pieces[0] == "ws" + host;
    assert pieces[0][2..] == host;
  }

  /** Past the scheme, "ws" + `host` reads as `host`. */
  lemma AfterScheme(host: string, i: nat, j: nat)
    requires i <= j <= |host|
    ensures ("ws" + host)[i + 2..j + 2] == host[i..j]
  {
  }

  /** A slice within a prefix is the same slice of the whole. */
  lemma PrefixSlice(p: string, s: string, i: nat, j: nat)
    requires IsPrefix(p, s) && i <= j <= |p|
    ensures p[i..j] == s[i..j]
  {
    assert p[i..j] == s[..|p|][i..j];
  }

  /** Cutting "ws" + `host` before its first "?name=" keeps the "ws" (neither
      'w' nor 's' can begin "?name="), leaves no "?name=", and keeps a prefix
      of `host` after the scheme. */
  lemma CutKeepsSchemeAndHost(host: string)
    requires !Occurs(host, Http)
    ensures var cut := Split("ws" + host, NameQuery)[0];
            IsPrefix("ws", cut) && !Occurs(cut, NameQuery) &&
            IsPrefix(cut[2..], host) && !Occurs(cut[2..], Http)
  {
    var address := "ws" + host;
    var pieces := Split(address, NameQuery);
    var cut := pieces[0];
    assert address[0] == 'w' && address[1] == 's';
    if |pieces| >= 2 {
      var n := |cut|;
      assert OccursAt(address, NameQuery, n);
      assert address[n] == '?';
      assert n >= 2;
    } else {
      assert cut == address;
    }
    assert IsPrefix(cut, address) && |cut| >= 2;
    assert cut == address[..|cut|];
    assert cut[2..] == address[2..|cut|];
    assert address[2..] == host;
    assert address[2..|cut|] == address[2..][..|cut| - 2];
    PrefixKeepsAbsence(cut[2..], host, Http);
  }

  /** When `sep` occurs in `s`, the second piece of `s.split(sep)` is a prefix
      of the text right after its first occurrence. */
  lemma SecondPieceFollowsFirstOccurrence(s: string, sep: string)
    requires |sep| > 0 && Occurs(s, sep)
    ensures var parts := Split(s, sep);
            Find(s, sep).Some? && Find(s, sep).value == |parts[0]| &&
            IsPrefix(parts[1], s[|parts[0]| + |sep|..])
  {
    var parts := Split(s, sep);
    var i := Find(s, sep).value;
    assert |parts[0]| == i;
    var rest := s[i + |sep|..];
    assert parts[1..] == Split(rest, sep);
    assert IsPrefix(Split(rest, sep)[0], rest);
  }

  /** When `sep` first occurs at `i`, and its first character appears nowhere
      before `i`, `s.split(sep)` starts with `s[..i]`. */
  lemma SplitAtOccurrence(s: string, sep: string, i: nat)
    requires |sep| > 0 && OccursAt(s, sep, i) && sep[0] !in s[..i]
    ensures Split(s, sep)[0] == s[..i] && |Split(s, sep)| >= 2
    ensures Split(s, sep)[1..] == Split(s[i + |sep|..], sep)
  {
    assert |Split(s, sep)| >= 2;
  }

  /** A string that lacks some character of `sep` splits into itself alone. */
  lemma SplitWithoutSeparator(s: string, sep: string, k: nat)
    requires k < |sep| && sep[k] !in s
    ensures Split(s, sep) == [s]
  {
  }

  /** The endpoint of a local server, with the player name the launcher
      appends, maps to its websocket address. */
  lemma ParsePlainEndpoint()
    ensures ParseHttpEndpoint("http://h:1/?name=player1") == Some("ws://h:1/")
  {
    var e := "http://h:1/?name=player1";
    assert "ws" + "://h:1/?name=player1" == "ws://h:1/?name=player1";
    PlainEndpointPieces();
    PlainAddressCut();
    assert ParseHttpEndpoint(e) == Some(Split("ws" + Split(e, Http)[1], NameQuery)[0]);
  }

  lemma PlainEndpointPieces()
    ensures Split("http://h:1/?name=player1", Http) == ["", "://h:1/?name=player1"]
  {
    var e := "http://h:1/?name=player1";
    assert e[..4] == Http;
    assert e[4..] == "://h:1/?name=player1";
    PlainHostHasNoT();
    SplitAfterLeadingHttp(e);
  }

  lemma PlainHostHasNoT()
    ensures 't' !in "://h:1/?name=player1"
  {
    assert "://h:1/?name=player1" == "://h:1/" + "?name=" + "player1";
    assert 't' !in "://h:1/" && 't' !in "?name=" && 't' !in "player1";
  }

  /** An endpoint that starts with "http" and has no other 't' splits into
      an empty scheme piece and the rest. */
  lemma SplitAfterLeadingHttp(e: string)
    requires |e| >= 4 && e[..4] == Http && 't' !in e[4..]
    ensures Split(e, Http) == ["", e[4..]]
  {
    assert OccursAt(e, Http, 0);
    SplitAtOccurrence(e, Http, 0);
    SplitWithoutSeparator(e[4..], Http, 1);
    var pieces := Split(e, Http);
    assert pieces[1..] == [e[4..]];
    assert pieces == [pieces[0]] + pieces[1..];
  }

  lemma PlainAddressCut()
    ensures Split("ws://h:1/?name=player1", NameQuery)[0] == "ws://h:1/"
  {
    var a := "ws://h:1/?name=player1";
    assert a[9..15] == NameQuery;
    SplitAtOccurrence(a, NameQuery, 9);
  }

  /** An "https" endpoint maps to a secure ("wss") websocket address. */
  lemma ParseSecureEndpoint()
    ensures ParseHttpEndpoint("https://h:1/") == Some("wss://h:1/")
  {
    var e := "https://h:1/";
    assert "ws" + "s://h:1/" == "wss://h:1/";
    SplitWithoutSeparator("wss://h:1/", NameQuery, 0);
    SecureEndpointPieces();
    assert ParseHttpEndpoint(e) == Some(Split("ws" + Split(e, Http)[1], NameQuery)[0]);
  }

  lemma SecureEndpointPieces()
    ensures Split("https://h:1/", Http) == ["", "s://h:1/"]
  {
    var e := "https://h:1/";
    assert e[..4] == Http;
    assert e[4..] == "s://h:1/";
    assert 't' !in "s://h:1/";
    SplitAfterLeadingHttp(e);
  }

  /** An endpoint without "http" has no second piece: IndexError. */
  lemma ParseEndpointWithoutHttp()
    ensures ParseHttpEndpoint("ws://h:1/") == None
  {
    SplitWithoutSeparator("ws://h:1/", Http, 1);
  }

}
