// Connection settings and the three client constructors of the `clients`
// package: the REST client (clients/client.go), the Management API client
// (clients/managementClient.go) and the Admin API client (clients/adminClient.go).
module Clients {
  import Common
  import opened Decimal
  import Util

  /** Authentication options, in `iota` order. */
  const BasicAuth: int := 0
  const DigestAuth: int := 1
  const NoAuth: int := 2

  /** The settings a client is built from; the Management and Admin constructors write a default port back. */
  class Connection {
    var host: string
    var port: Int64
    var username: string
    var password: string
    var authenticationType: int
    var database: string

    constructor (host: string, port: Int64, username: string, password: string, authenticationType: int, database: string)
      ensures this.host == host && this.port == port && this.username == username
      ensures this.password == password && this.authenticationType == authenticationType
      ensures this.database == database
    {
      this.host := host;
      this.port := port;
      this.username := username;
      this.password := password;
      this.authenticationType := authenticationType;
      this.database := database;
    }
  }

  /**
   * What the digest-authentication handshake (an external library, run only for
   * `DigestAuth`) reports: the headers it negotiated, or its error.
   */
  datatype DigestOutcome = DigestHeaders(headers: string) | DigestError(message: string)

  /** The shared part of every client. */
  class BasicClient {
    var base: string
    var username: string
    var password: string
    var authType: int
    var digestHeaders: Common.Option<string>
    var database: string
    var connectionInfo: Connection

    constructor (base: string, connection: Connection, digestHeaders: Common.Option<string>)
      ensures this.base == base && username == connection.username && password == connection.password
      ensures authType == connection.authenticationType && database == connection.database
      ensures this.digestHeaders == digestHeaders && connectionInfo == connection
    {
      this.base := base;
      username := connection.username;
      password := connection.password;
      authType := connection.authenticationType;
      this.digestHeaders := digestHeaders;
      database := connection.database;
      connectionInfo := connection;
    }

    function Base(): (r: string)
      reads this
      ensures r == base
    {
      base
    }

    method SetBase(newBase: string)
      modifies this
      ensures base == newBase
      ensures username == old(username) && password == old(password) && authType == old(authType)
      ensures digestHeaders == old(digestHeaders) && database == old(database)
      ensures connectionInfo == old(connectionInfo)
    {
      base := newBase;
    }

    function Database(): (r: string)
      reads this
      ensures r == database
    {
      database
    }

    function ConnectionInfo(): (r: Connection)
      reads this
      ensures r == connectionInfo
    {
      connectionInfo
    }
  }

  /**
   * Runs the digest handshake for `DigestAuth` only; without an error the new
   * client copies the base, the credentials, the authentication type, the
   * database and the Connection itself. With an error there is no client.
   */
  method ClientBuilder(connection: Connection, base: string, digest: DigestOutcome)
    returns (client: BasicClient?, err: Common.Option<string>)
    ensures err == (if connection.authenticationType == DigestAuth && digest.DigestError?
                    then Common.Some(digest.message) else Common.None)
    ensures client == null <==> err.Some?
    ensures client != null ==> (fresh(client)
      && client.base == base && client.username == connection.username
      && client.password == connection.password && client.authType == connection.authenticationType
      && client.database == connection.database && client.connectionInfo == connection
      && client.digestHeaders == (if connection.authenticationType == DigestAuth
                                  then Common.Some(digest.headers) else Common.None))
  {
    var headers: Common.Option<string> := Common.None;
    err := Common.None;
    if connection.authenticationType == DigestAuth {
      match digest
      case DigestHeaders(h) => headers := Common.Some(h);
      case DigestError(m) => err := Common.Some(m);
    }
    client := null;
    if err.None? {
      client := new BasicClient(base, connection, headers);
    }
  }

  /** The REST base: host, port in decimal (no default) and the "/LATEST" version path. */
  function ClientBase(host: string, port: Int64): string
  {
    "http://" + host + ":" + FormatInt(port) + "/LATEST"
  }

  method NewClient(connection: Connection, digest: DigestOutcome)
    returns (client: BasicClient?, err: Common.Option<string>)
    ensures client != null ==> (fresh(client) && client.base == ClientBase(connection.host, connection.port)
      && client.connectionInfo == connection && client.database == connection.database)
    ensures client == null <==> err.Some?
    ensures err.Some? <==> connection.authenticationType == DigestAuth && digest.DigestError?
  {
    var base := "http://" + connection.host + ":" + FormatInt(connection.port) + "/LATEST";
    client, err := ClientBuilder(connection, base, digest);
  }

  /** The base names its host and port unambiguously: equal bases have equal hosts and ports. */
  lemma ClientBaseInjective(h1: string, p1: Int64, h2: string, p2: Int64)
    requires ':' !in h1 && ':' !in h2
    requires ClientBase(h1, p1) == ClientBase(h2, p2)
    ensures h1 == h2 && p1 == p2
  {
    var s1, s2 := FormatInt(p1), FormatInt(p2);
    var t1, t2 := ":" + (s1 + "/LATEST"), ":" + (s2 + "/LATEST");
    ClientBaseShape(h1, p1);
    ClientBaseShape(h2, p2);
    Common.DropCommonPrefix("http://", h1 + t1, h2 + t2);
    HostBeforeColon(h1, t1, h2, t2);
    Common.DropCommonPrefix(":", s1 + "/LATEST", s2 + "/LATEST");
    Common.DropCommonSuffix(s1, s2, "/LATEST");
    FormatIntInjective(p1, p2);
  }

  lemma ClientBaseShape(h: string, p: Int64)
    ensures ClientBase(h, p) == "http://" + (h + (":" + (FormatInt(p) + "/LATEST")))
  {
  }

  lemma HostBeforeColon(h1: string, t1: string, h2: string, t2: string)
    requires ':' !in h1 && ':' !in h2
    requires |t1| > 0 && |t2| > 0 && t1[0] == ':' && t2[0] == ':'
    requires h1 + t1 == h2 + t2
    ensures h1 == h2 && t1 == t2
  {
    BeforeColonOf(h1, t1);
    BeforeColonOf(h2, t2);
    assert t1 == (h1 + t1)[|h1|..];
    assert t2 == (h2 + t2)[|h2|..];
  }

  /** The text before the first ':' (all of it when there is none). */
  function BeforeColon(s: string): string
  {
    if s == [] || s[0] == ':' then [] else [s[0]] + BeforeColon(s[1..])
  }

  lemma {:induction false} BeforeColonOf(h: string, t: string)
    requires ':' !in h && |t| > 0 && t[0] == ':'
    ensures BeforeColon(h + t) == h
  {
    if h == [] {
      assert h + t == t;
    } else {
      assert (h + t)[1..] == h[1..] + t;
      BeforeColonOf(h[1..], t);
    }
  }

  /** A port of zero or less means the default; a positive one is kept. */
  function PortOrDefault(port: Int64, default: Int64): (r: Int64)
    requires default > 0
    ensures r > 0
    ensures port > 0 ==> r == port
    ensures port <= 0 ==> r == default
  {
    if port <= 0 then default else port
  }

  function ManagementBase(host: string, port: Int64): string
  {
    "http://" + host + ":" + FormatInt(port) + "/manage/v2"
  }

  function AdminBase(host: string, port: Int64): string
  {
    "http://" + host + ":" + FormatInt(port) + "/admin/v1"
  }

  method NewManagementClient(connection: Connection, digest: DigestOutcome)
    returns (client: BasicClient?, err: Common.Option<string>)
    modifies connection
    ensures connection.port == PortOrDefault(old(connection.port), 8002)
    ensures connection.host == old(connection.host) && connection.database == old(connection.database)
    ensures connection.authenticationType == old(connection.authenticationType)
    ensures connection.username == old(connection.username) && connection.password == old(connection.password)
    ensures client != null ==> (fresh(client) && client.base == ManagementBase(connection.host, connection.port)
      && client.connectionInfo == connection)
    ensures client == null <==> err.Some?
    ensures err.Some? <==> connection.authenticationType == DigestAuth && digest.DigestError?
  {
    if connection.port <= 0 {
      connection.port := 8002;
    }
    var base := "http://" + connection.host + ":" + FormatInt(connection.port) + "/manage/v2";
    client, err := ClientBuilder(connection, base, digest);
  }

  method NewAdminClient(connection: Connection, digest: DigestOutcome)
    returns (client: BasicClient?, err: Common.Option<string>)
    modifies connection
    ensures connection.port == PortOrDefault(old(connection.port), 8001)
    ensures connection.host == old(connection.host) && connection.database == old(connection.database)
    ensures connection.authenticationType == old(connection.authenticationType)
    ensures connection.username == old(connection.username) && connection.password == old(connection.password)
    ensures client != null ==> (fresh(client) && client.base == AdminBase(connection.host, connection.port)
      && client.connectionInfo == connection)
    ensures client == null <==> err.Some?
    ensures err.Some? <==> connection.authenticationType == DigestAuth && digest.DigestError?
  {
    if connection.port <= 0 {
      connection.port := 8001;
    }
    var base := "http://" + connection.host + ":" + FormatInt(connection.port) + "/admin/v1";
    client, err := ClientBuilder(connection, base, digest);
  }

  lemma FormatPorts()
    ensures FormatInt(28002) == "28002" && FormatInt(8002) == "8002" && FormatInt(8000) == "8000"
  {
    assert FormatNat(28) == "28";
    assert FormatNat(280) == "280";
    assert FormatNat(2800) == "2800";
    assert FormatNat(80) == "80";
    assert FormatNat(800) == "800";
  }

  /** The two Management-client bases the client's tests expect, for port 28002 and for the default port. */
  lemma ManagementBaseExamples()
    ensures ManagementBase("localhost", PortOrDefault(28002, 8002)) == "http://localhost:28002/manage/v2"
    ensures ManagementBase("localhost", PortOrDefault(0, 8002)) == "http://localhost:8002/manage/v2"
  {
    FormatPorts();
    ManagementBaseText("localhost", 28002, "28002");
    ManagementBaseText("localhost", 8002, "8002");
    ManagementBaseLiterals();
  }

  lemma ManagementBaseText(host: string, port: Int64, text: string)
    requires FormatInt(port) == text
    ensures ManagementBase(host, port) == "http://" + host + ":" + text + "/manage/v2"
  {
  }

  lemma ManagementBaseLiterals()
    ensures "http://" + "localhost" + ":" + "28002" + "/manage/v2" == "http://localhost:28002/manage/v2"
    ensures "http://" + "localhost" + ":" + "8002" + "/manage/v2" == "http://localhost:8002/manage/v2"
  {
  }

  // ---------------------------------------------------------------------------
  // The data-service base URL (util/util.go:193-196 applied to ClientBase)
  // ---------------------------------------------------------------------------

  /**
   * Removing every "/LATEST" also cuts into a host whose name begins with
   * "LATEST": the base of host "LATESTdb" on port 8000 loses one '/' and the
   * host's first six letters.
   */
  lemma DataServiceBaseCutsHost()
    ensures ClientBase("LATESTdb", 8000) == "http://LATESTdb:8000/LATEST"
    ensures Util.DataServiceBase("http://LATESTdb:8000/LATEST") == "http:/db:8000"
  {
    FormatPorts();
    ClientBaseText("LATESTdb", 8000, "8000");
    ClientBaseLiterals();
    CutHostLiteral("http://LATESTdb:8000/LATEST", "http:/db:8000");
  }

  lemma CutHostLiteral(base: string, cut: string)
    requires base == "http://LATESTdb:8000/LATEST" && cut == "http:/db:8000"
    ensures Util.RemoveAll(base, "/LATEST") == cut
  {
    CutHostPrefix("http:", "db:8000");
    SplitLiteral(base, cut);
  }

  lemma SplitLiteral(base: string, cut: string)
    requires base == "http://LATESTdb:8000/LATEST" && cut == "http:/db:8000"
    ensures base == "http:" + "//" + ("LATEST" + "db:8000") + "/LATEST"
    ensures cut == "http:" + "/" + "db:8000"
  {
  }

  lemma ClientBaseText(host: string, port: Int64, text: string)
    requires FormatInt(port) == text
    ensures ClientBase(host, port) == "http://" + host + ":" + text + "/LATEST"
  {
  }

  lemma ClientBaseLiterals()
    ensures "http://" + "LATESTdb" + ":" + "8000" + "/LATEST" == "http://LATESTdb:8000/LATEST"
  {
  }

  /** A host that starts with "LATEST" loses those letters and one '/' of the scheme separator. */
  lemma {:induction false} CutHostPrefix(scheme: string, d: string)
    requires '/' !in scheme && '/' !in d
    ensures Util.RemoveAll(scheme + "//" + ("LATEST" + d) + "/LATEST", "/LATEST") == scheme + "/" + d
  {
    var x := "//" + ("LATEST" + d + "/LATEST");
    CutHostShapes(scheme, d);
    RemoveAllPlain(scheme, x);
    RemoveAllSlashSlash("LATEST" + d + "/LATEST");
    RemoveAllDrop(d + "/LATEST");
    RemoveAllPlain(d, "/LATEST");
    RemoveAllEnd();
  }

  lemma CutHostShapes(scheme: string, d: string)
    ensures scheme + "//" + ("LATEST" + d) + "/LATEST" == scheme + ("//" + ("LATEST" + d + "/LATEST"))
    ensures "/" + ("LATEST" + d + "/LATEST") == "/LATEST" + (d + "/LATEST")
    ensures scheme + ("/" + (d + "")) == scheme + "/" + d
  {
    assert "/" + "LATEST" == "/LATEST";
  }

  lemma RemoveAllEnd()
    ensures Util.RemoveAll("/LATEST", "/LATEST") == ""
  {
    RemoveAllDrop("");
    assert "/LATEST" + "" == "/LATEST";
  }

  lemma RemoveAllSlashSlash(w: string)
    ensures Util.RemoveAll("//" + w, "/LATEST") == "/" + Util.RemoveAll("/" + w, "/LATEST")
  {
    var s := "//" + w;
    assert s[1..] == "/" + w;
    if |s| >= 7 {
      assert s[..7][1] == '/';
    }
  }

  lemma RemoveAllDrop(u: string)
    ensures Util.RemoveAll("/LATEST" + u, "/LATEST") == Util.RemoveAll(u, "/LATEST")
  {
    var s := "/LATEST" + u;
    assert s[..7] == "/LATEST" && s[7..] == u;
  }

  /** Text without a '/' passes through the removal unchanged. */
  lemma {:induction false} RemoveAllPlain(a: string, t: string)
    requires '/' !in a
    ensures Util.RemoveAll(a + t, "/LATEST") == a + Util.RemoveAll(t, "/LATEST")
  {
    if a != [] {
      assert a + t == [a[0]] + (a[1..] + t);
      RemoveAllCons(a[0], a[1..] + t);
      RemoveAllPlain(a[1..], t);
      var r := Util.RemoveAll(t, "/LATEST");
      assert [a[0]] + (a[1..] + r) == ([a[0]] + a[1..]) + r;
      assert a == [a[0]] + a[1..];
    } else {
      assert a + t == t;
    }
  }

  lemma RemoveAllCons(c: char, u: string)
    requires c != '/'
    ensures Util.RemoveAll([c] + u, "/LATEST") == [c] + Util.RemoveAll(u, "/LATEST")
  {
    var s := [c] + u;
    assert s[1..] == u;
    if |s| >= 7 {
      assert s[..7][0] == c;
    }
  }

  /** A host name that begins with the letters of the version path. */
  predicate StartsWithLatest(host: string)
  {
    |host| >= 6 && host[..6] == "LATEST"
  }

  /**
   * As written, the data-service base is the client base without its
   * "/LATEST" path for every '/'-free host that does not begin with
   * "LATEST".
   */
  lemma DataServiceBaseKeepsHost(host: string, port: Int64)
    requires '/' !in host && !StartsWithLatest(host)
    ensures Util.DataServiceBase(ClientBase(host, port)) == "http://" + host + ":" + FormatInt(port)
  {
    var text := FormatInt(port);
    FormatIntNoSlash(port);
    var a := host + ":" + text;
    var w := a + "/LATEST";
    KeepHostShapes(host, port, text);
    LatestNotAfterColon(host, ":" + text + "/LATEST");
    assert host + (":" + text + "/LATEST") == w;
    RemoveAllPlain("http:", "//" + w);
    RemoveAllSlashSlash(w);
    RemoveAllSlashOther(w);
    RemoveAllPlain(a, "/LATEST");
    RemoveAllEnd();
  }

  lemma KeepHostShapes(host: string, port: Int64, text: string)
    requires FormatInt(port) == text
    ensures ClientBase(host, port) == "http:" + ("//" + (host + ":" + text + "/LATEST"))
    ensures "http:" + ("/" + ("/" + (host + ":" + text + ""))) == "http://" + host + ":" + text
  {
    assert "http:" + "//" == "http://";
    assert "/" + "/" == "//";
  }

  /**
   * As written, every '/'-free host that begins with "LATEST" loses those
   * letters and one '/' of the scheme separator, whatever the port.
   */
  lemma DataServiceBaseCutsLatestHost(host: string, port: Int64)
    requires '/' !in host && StartsWithLatest(host)
    ensures Util.DataServiceBase(ClientBase(host, port)) == "http:/" + host[6..] + ":" + FormatInt(port)
  {
    var text := FormatInt(port);
    FormatIntNoSlash(port);
    var d := host[6..] + ":" + text;
    assert '/' !in host[6..];
    CutLatestShapes(host, port, text);
    CutHostPrefix("http:", d);
  }

  lemma CutLatestShapes(host: string, port: Int64, text: string)
    requires FormatInt(port) == text && StartsWithLatest(host)
    ensures ClientBase(host, port) == "http:" + "//" + ("LATEST" + (host[6..] + ":" + text)) + "/LATEST"
    ensures "http:" + "/" + (host[6..] + ":" + text) == "http:/" + host[6..] + ":" + text
  {
    assert host == "LATEST" + host[6..];
    assert "http:" + "//" == "http://";
    assert "http:" + "/" == "http:/";
  }

  /** A port's decimal text holds no '/'. */
  lemma FormatIntNoSlash(port: int)
    ensures '/' !in FormatInt(port)
  {
    var t := FormatInt(port);
    if port < 0 {
      var d := FormatNat(-port);
      assert t == "-" + d;
      assert forall i :: 0 <= i < |d| ==> d[i] != '/';
    }
  }

  /** A host that does not begin with "LATEST" does not once ':' follows it. */
  lemma LatestNotAfterColon(host: string, t: string)
    requires !StartsWithLatest(host) && |t| > 0 && t[0] == ':'
    ensures !StartsWithLatest(host + t)
  {
    var s := host + t;
    if |host| >= 6 {
      assert s[..6] == host[..6];
    } else {
      assert s[|host|] == ':';
    }
  }

  /** A '/' that does not begin "/LATEST" stays. */
  lemma RemoveAllSlashOther(w: string)
    requires !StartsWithLatest(w)
    ensures Util.RemoveAll("/" + w, "/LATEST") == "/" + Util.RemoveAll(w, "/LATEST")
  {
    var s := "/" + w;
    assert s[1..] == w;
    if |s| >= 7 {
      assert s[..7][1..] == w[..6];
    }
  }

  /** Removing only the trailing "/LATEST" gives back scheme, host and port, for every host. */
  lemma DataServiceBaseTrailingKeepsHost(host: string, port: Int64)
    ensures Util.DataServiceBaseTrailing(ClientBase(host, port)) == "http://" + host + ":" + FormatInt(port)
  {
    var b := ClientBase(host, port);
    assert b[|b| - 7..] == "/LATEST";
  }
}
