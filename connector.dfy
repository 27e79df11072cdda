/**
 * The two pure computations of the client connection: choosing the API version to speak,
 * and reading the host out of a `tcp://host:port` address.
 *
 * The version comparison belongs to the docker-py library and is a parameter here:
 * `compareVersion(a, b)` is positive when `b` is the newer version, negative when `a` is,
 * and zero when they are the same version.
 */
module Connector {
  import opened Util

  // ---------------------------------------------------------------------------------------
  // get_api_version.

  /** What the version comparison is assumed to be: a total order with a sign convention. */
  ghost predicate VersionOrder(compareVersion: (string, string) -> int) {
    && (forall a :: compareVersion(a, a) == 0)
    && (forall a, b :: compareVersion(a, b) > 0 <==> compareVersion(b, a) < 0)
    && (forall a, b, c :: compareVersion(a, b) > 0 && compareVersion(b, c) > 0 ==> compareVersion(a, c) > 0)
    && (forall a, b, c :: compareVersion(a, b) == 0 && compareVersion(b, c) > 0 ==> compareVersion(a, c) > 0)
    && (forall a, b, c :: compareVersion(a, b) > 0 && compareVersion(b, c) == 0 ==> compareVersion(a, c) > 0)
  }

  /**
   * The position Python's `min` settles on when the sort key compares with
   * `-compareVersion`: it keeps the first entry and replaces it only by a later entry
   * that is strictly smaller under the key, that is, when the kept entry is the newer one.
   */
  function OldestIndex(versions: seq<string>, compareVersion: (string, string) -> int): (i: nat)
    requires |versions| > 0
    ensures i < |versions|
    decreases |versions|
  {
    if |versions| == 1 then 0
    else
      var i := OldestIndex(versions[..|versions| - 1], compareVersion);
      if -compareVersion(versions[|versions| - 1], versions[i]) < 0 then |versions| - 1 else i
  }

  /** `get_api_version`: the oldest of the given versions, the first one on ties. */
  function ApiVersion(versions: seq<string>, compareVersion: (string, string) -> int): (r: string)
    requires |versions| > 0
    ensures r in versions
  {
    versions[OldestIndex(versions, compareVersion)]
  }

  /** Under a version order no given version is older than the chosen one. */
  lemma {:induction false} ApiVersionOldest(versions: seq<string>, compareVersion: (string, string) -> int)
    requires |versions| > 0 && VersionOrder(compareVersion)
    ensures forall v :: v in versions ==> compareVersion(v, ApiVersion(versions, compareVersion)) <= 0
    decreases |versions|
  {
    var n := |versions|;
    if n > 1 {
      var init := versions[..n - 1];
      ApiVersionOldest(init, compareVersion);
      var m := ApiVersion(init, compareVersion);
      var last := versions[n - 1];
      forall v | v in versions ensures compareVersion(v, ApiVersion(versions, compareVersion)) <= 0 {
        var k :| 0 <= k < n && versions[k] == v;
        if k < n - 1 {
          assert init[k] == v;
          assert compareVersion(v, m) <= 0;
        }
      }
    }
  }

  /** Under a version order every version given before the chosen one is strictly newer. */
  lemma {:induction false} ApiVersionFirst(versions: seq<string>, compareVersion: (string, string) -> int)
    requires |versions| > 0 && VersionOrder(compareVersion)
    ensures forall j :: 0 <= j < OldestIndex(versions, compareVersion) ==>
      compareVersion(ApiVersion(versions, compareVersion), versions[j]) > 0
    decreases |versions|
  {
    var n := |versions|;
    if n > 1 {
      var init := versions[..n - 1];
      ApiVersionFirst(init, compareVersion);
      ApiVersionOldest(init, compareVersion);
      var m := ApiVersion(init, compareVersion);
      var last := versions[n - 1];
      if compareVersion(last, m) > 0 {
        forall j | 0 <= j < n - 1 ensures compareVersion(last, versions[j]) > 0 {
          var vj := init[j];
          assert vj == versions[j] && vj in init;
          if compareVersion(vj, m) < 0 {
            assert compareVersion(m, vj) > 0;
          } else {
            assert compareVersion(m, vj) == 0;
          }
        }
      } else {
        forall j | 0 <= j < OldestIndex(init, compareVersion) ensures versions[j] == init[j] { }
      }
    }
  }

  /**
   * With the client's newest supported version and the server's version, the client speaks
   * the older of the two, and its own maximum when they are the same version.
   */
  lemma {:induction false} ApiVersionOfPair(clientMax: string, server: string, compareVersion: (string, string) -> int)
    requires VersionOrder(compareVersion)
    ensures compareVersion(server, clientMax) > 0 ==> ApiVersion([clientMax, server], compareVersion) == server
    ensures compareVersion(server, clientMax) <= 0 ==> ApiVersion([clientMax, server], compareVersion) == clientMax
  {
    assert [clientMax, server][..1] == [clientMax];
  }

  // ---------------------------------------------------------------------------------------
  // The host of a `tcp://host:port` address.

  /** Python's `str.split(sep)` for a one-character separator: there is always one more piece than separators. */
  function Split(s: string, sep: char): (r: seq<string>)
    ensures |r| >= 1
    ensures forall j :: 0 <= j < |r| ==> sep !in r[j]
    decreases |s|
  {
    if s == [] then [""]
    else
      var rest := Split(s[1..], sep);
      if s[0] == sep then [""] + rest
      else [[s[0]] + rest[0]] + rest[1..]
  }

  /** `sep.join(pieces)`. */
  function Join(pieces: seq<string>, sep: char): string
    requires |pieces| >= 1
    decreases |pieces|
  {
    if |pieces| == 1 then pieces[0] else pieces[0] + [sep] + Join(pieces[1..], sep)
  }

  /** Splitting loses nothing: joining the pieces back gives the original string. */
  lemma {:induction false} SplitJoin(s: string, sep: char)
    ensures Join(Split(s, sep), sep) == s
    decreases |s|
  {
    if s != [] {
      var rest := Split(s[1..], sep);
      SplitJoin(s[1..], sep);
      if s[0] == sep {
        assert Split(s, sep)[1..] == rest;
      } else if |rest| == 1 {
        assert [s[0]] + s[1..] == s;
      } else {
        var r := Split(s, sep);
        assert r[1..] == rest[1..];
        assert Join(r, sep) == [s[0]] + rest[0] + [sep] + Join(rest[1..], sep);
        assert Join(rest, sep) == rest[0] + [sep] + Join(rest[1..], sep);
        assert [s[0]] + s[1..] == s;
      }
    }
  }

  /** A piece without the separator, the separator, then the rest: the piece comes first. */
  lemma {:induction false} SplitAfter(a: string, sep: char, b: string)
    requires sep !in a
    ensures Split(a + [sep] + b, sep) == [a] + Split(b, sep)
    decreases |a|
  {
    if a == [] {
      assert a + [sep] + b == [sep] + b;
      assert ([sep] + b)[1..] == b;
    } else {
      SplitAfter(a[1..], sep, b);
      assert (a + [sep] + b)[1..] == a[1..] + [sep] + b;
      assert [a[0]] + a[1..] == a;
    }
  }

  /** A string without the separator is one piece. */
  lemma {:induction false} SplitNone(s: string, sep: char)
    requires sep !in s
    ensures Split(s, sep) == [s]
    decreases |s|
  {
    if s != [] {
      SplitNone(s[1..], sep);
      assert [s[0]] + s[1..] == s;
    }
  }

  /** Leading `ch` characters removed. */
  function StripLeft(s: string, ch: char): (r: string)
    ensures |r| <= |s| && r == s[|s| - |r|..]
    ensures forall j :: 0 <= j < |s| - |r| ==> s[j] == ch
    ensures r == [] || r[0] != ch
    decreases |s|
  {
    if s != [] && s[0] == ch then StripLeft(s[1..], ch) else s
  }

  /** Trailing `ch` characters removed. */
  function StripRight(s: string, ch: char): (r: string)
    ensures |r| <= |s| && r == s[..|r|]
    ensures forall j :: |r| <= j < |s| ==> s[j] == ch
    ensures r == [] || r[|r| - 1] != ch
    decreases |s|
  {
    if s != [] && s[|s| - 1] == ch then StripRight(s[..|s| - 1], ch) else s
  }

  /** Python's `str.strip(chars)` for a set of one character (`strip('//')` strips '/'). */
  function Strip(s: string, ch: char): string {
    StripRight(StripLeft(s, ch), ch)
  }

  /**
   * `docker_host.split(':')[1].strip('//')`: the text between the first and second ':' with
   * slashes trimmed; an address without ':' raises `IndexError`, here `None`.
   */
  function HostOf(dockerHost: string): Option<string> {
    var pieces := Split(dockerHost, ':');
    if |pieces| < 2 then None else Some(Strip(pieces[1], '/'))
  }

  /** An address with no ':' has no host. */
  lemma {:induction false} HostOfNoColon(dockerHost: string)
    requires ':' !in dockerHost
    ensures HostOf(dockerHost) == None
  {
    SplitNone(dockerHost, ':');
  }

  /** The host of `tcp://host:port` is `host`, for a host with no ':' that neither starts nor ends with '/'. */
  lemma {:induction false} HostOfAddress(host: string, port: string)
    requires ':' !in host && host != [] && host[0] != '/' && host[|host| - 1] != '/'
    ensures HostOf("tcp://" + host + ":" + port) == Some(host)
  {
    AddressPieces(host, port);
    StripSlashes(host);
  }

  /** The pieces of `tcp://host:port` split at ':' are `tcp`, `//host`, then those of the port. */
  lemma {:induction false} AddressPieces(host: string, port: string)
    requires ':' !in host
    ensures Split("tcp://" + host + ":" + port, ':') == ["tcp", "//" + host] + Split(port, ':')
  {
    var rest := "//" + host;
    assert "tcp://" + host + ":" + port == "tcp" + [':'] + (rest + [':'] + port);
    SplitAfter("tcp", ':', rest + [':'] + port);
    assert ':' !in rest by {
      forall j | 0 <= j < |rest| ensures rest[j] != ':' {
        if j >= 2 {
          assert rest[j] == host[j - 2];
        }
      }
    }
    SplitAfter(rest, ':', port);
  }

  /** Stripping '/' from `//host` gives `host` back when `host` neither starts nor ends with '/'. */
  lemma {:induction false} StripSlashes(host: string)
    requires host != [] && host[0] != '/' && host[|host| - 1] != '/'
    ensures Strip("//" + host, '/') == host
  {
    var rest := "//" + host;
    var mid := rest[1..];
    assert rest[0] == '/' && mid[0] == '/' && mid[1..] == host;
    StripLeftSkip(rest, '/');
    StripLeftSkip(mid, '/');
  }

  /** A leading `ch` is dropped and stripping goes on with the rest. */
  lemma {:induction false} StripLeftSkip(s: string, ch: char)
    requires s != [] && s[0] == ch
    ensures StripLeft(s, ch) == StripLeft(s[1..], ch)
  {
  }
}
