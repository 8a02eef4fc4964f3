/**
 * The ONgDB test container (OngdbContainer.java): its fixed ports and
 * readiness descriptor, the authentication setting it derives from the admin
 * password, the environment it writes, and the URLs it hands to tests.
 *
 * The container runtime underneath is not part of this model. What the model
 * needs of it enters as parameters: the host name (`getHost`) and the
 * mapping from declared to published ports (`getMappedPort`).
 */
module Ongdb {
  import opened Wrappers
  import Decimal
  import ConfigKey
  import Urls

  // ---- fixed ports and paths ----

  /** The binary Bolt protocol port. */
  const BoltPort: int := 7687
  /** The transactional HTTP endpoint. */
  const HttpPort: int := 7474
  /** The transactional HTTPS endpoint. */
  const HttpsPort: int := 7473

  /** The ports the constructor exposes, in the order it exposes them. */
  const DeclaredPorts: seq<int> := [BoltPort, HttpPort, HttpsPort]

  /** Where `withDatabase` copies a graph.db folder. */
  const DatabaseDestination: string := "/data/databases/graph.db"
  /** Where `withPlugins` copies plugins. */
  const PluginsDestination: string := "/var/lib/neo4j/plugins/"

  // ---- the readiness descriptor handed to the runtime ----

  const HttpOk: int := 200

  datatype WaitCondition =
    | LogMessage(regex: string)                   // a log line matching regex
    | HttpStatus(port: int, acceptedStatus: int)  // a response with that status

  datatype WaitAll = WaitAll(conditions: seq<WaitCondition>, startupTimeoutSeconds: nat)

  /** The startup banner line announcing Bolt on `port`, as a regular expression. */
  function BoltLogRegex(port: int): string {
    ".*Bolt enabled on 0\\.0\\.0\\.0:" + Decimal.IntToString(port) + "\\.\n"
  }

  /** Bolt's banner in the log, and HTTP 200 on the HTTP port, within two minutes. */
  function DefaultWaitStrategy(): (w: WaitAll)
    ensures w.startupTimeoutSeconds > 0 && |w.conditions| > 0
    ensures LogMessage(BoltLogRegex(BoltPort)) in w.conditions && HttpStatus(HttpPort, HttpOk) in w.conditions
    ensures forall c :: c in w.conditions && c.HttpStatus? ==> c.port in DeclaredPorts
  {
    WaitAll([LogMessage(BoltLogRegex(BoltPort)), HttpStatus(HttpPort, HttpOk)], 2 * 60)
  }

  // ---- authentication ----

  /** The official image insists on changing the password from "neo4j"; this is the default. */
  const DefaultAdminPassword: string := "password"
  const AuthEnvKey: string := "NEO4J_AUTH"

  /** A missing (null) or empty password disables authentication. */
  predicate AuthDisabled(password: Option<string>) {
    password.None? || password.value == ""
  }

  /** The value of NEO4J_AUTH: "none", or user "neo4j" and the password, as "neo4j/%s". */
  function AuthValue(password: Option<string>): (auth: string)
    ensures auth == "none" <==> AuthDisabled(password)
  {
    if AuthDisabled(password) then "none" else "neo4j/" + password.value
  }

  /** Reads the password back out of a NEO4J_AUTH value. */
  function PasswordOfAuth(auth: string): Option<string> {
    if |auth| >= 6 && auth[..6] == "neo4j/" then Some(auth[6..]) else None
  }

  /** NEO4J_AUTH carries exactly the password, unless authentication is disabled. */
  lemma AuthRoundTrip(password: Option<string>)
    ensures PasswordOfAuth(AuthValue(password)) == if AuthDisabled(password) then None else password
  {
    if !AuthDisabled(password) {
      var auth := AuthValue(password);
      assert auth[..6] == "neo4j/" && auth[6..] == password.value;
    }
  }

  // ---- ports and URLs ----

  /** The liveness ports: every declared port, through the runtime's mapping. */
  function LivenessCheckPortNumbers(mapped: int -> int): (s: set<int>)
    ensures s == {mapped(BoltPort), mapped(HttpPort), mapped(HttpsPort)}
  {
    var s := set i | 0 <= i < |DeclaredPorts| :: mapped(DeclaredPorts[i]);
    assert mapped(DeclaredPorts[0]) in s && mapped(DeclaredPorts[1]) in s && mapped(DeclaredPorts[2]) in s;
    s
  }

  /** At most three liveness ports, and exactly three when the mapping keeps them apart. */
  lemma LivenessSize(mapped: int -> int)
    ensures |LivenessCheckPortNumbers(mapped)| <= 3
    ensures |LivenessCheckPortNumbers(mapped)| == 3
        <==> mapped(BoltPort) != mapped(HttpPort) && mapped(HttpPort) != mapped(HttpsPort)
             && mapped(BoltPort) != mapped(HttpsPort)
  {
    var a, b, c := mapped(BoltPort), mapped(HttpPort), mapped(HttpsPort);
    if a == b {
      assert {a, b, c} == {a, c};
    } else if b == c || a == c {
      assert {a, b, c} == {a, b};
    } else {
      assert |{a, b} + {c}| == |{a, b}| + 1;
    }
  }

  /** The liveness set is the image of the exposed ports, whatever their order. */
  lemma LivenessIsImageOfDeclared(mapped: int -> int)
    ensures forall p :: p in LivenessCheckPortNumbers(mapped) <==> exists q :: q in DeclaredPorts && mapped(q) == p
  {
    forall p | p in LivenessCheckPortNumbers(mapped)
      ensures exists q :: q in DeclaredPorts && mapped(q) == p
    {
      if p == mapped(BoltPort) {
        assert BoltPort in DeclaredPorts;
      } else if p == mapped(HttpPort) {
        assert HttpPort in DeclaredPorts;
      } else {
        assert HttpsPort in DeclaredPorts;
      }
    }
  }

  /**
   * The URL "bolt://host:port" of the published port BoltPort. The source hands
   * this text to `String.format` with no arguments, which returns it unchanged
   * only when it holds no `%`; scheme and port never hold one, so the model
   * assumes a host without `%`.
   */
  function BoltUrl(host: string, mapped: int -> int): (url: string)
    ensures url == Urls.ComposeUrl("bolt", host, mapped(BoltPort))
    ensures Urls.ParseUrl(url) == Some(Urls.UrlParts("bolt", host, mapped(BoltPort)))
    ensures '%' in url <==> '%' in host
  {
    var url := "bolt://" + host + ":" + Decimal.IntToString(mapped(BoltPort));
    assert url == Urls.ComposeUrl("bolt", host, mapped(BoltPort));
    Urls.ParseComposeUrl("bolt", host, mapped(BoltPort));
    url
  }

  /**
   * The URL "http://host:port" of the published port HttpPort. The source hands
   * this text to `String.format` with no arguments, which returns it unchanged
   * only when it holds no `%`; scheme and port never hold one, so the model
   * assumes a host without `%`.
   */
  function HttpUrl(host: string, mapped: int -> int): (url: string)
    ensures url == Urls.ComposeUrl("http", host, mapped(HttpPort))
    ensures Urls.ParseUrl(url) == Some(Urls.UrlParts("http", host, mapped(HttpPort)))
    ensures '%' in url <==> '%' in host
  {
    var url := "http://" + host + ":" + Decimal.IntToString(mapped(HttpPort));
    assert url == Urls.ComposeUrl("http", host, mapped(HttpPort));
    Urls.ParseComposeUrl("http", host, mapped(HttpPort));
    url
  }

  /**
   * The URL "https://host:port" of the published port HttpsPort. The source hands
   * this text to `String.format` with no arguments, which returns it unchanged
   * only when it holds no `%`; scheme and port never hold one, so the model
   * assumes a host without `%`.
   */
  function HttpsUrl(host: string, mapped: int -> int): (url: string)
    ensures url == Urls.ComposeUrl("https", host, mapped(HttpsPort))
    ensures Urls.ParseUrl(url) == Some(Urls.UrlParts("https", host, mapped(HttpsPort)))
    ensures '%' in url <==> '%' in host
  {
    var url := "https://" + host + ":" + Decimal.IntToString(mapped(HttpsPort));
    assert url == Urls.ComposeUrl("https", host, mapped(HttpsPort));
    Urls.ParseComposeUrl("https", host, mapped(HttpsPort));
    url
  }

  // ---- the container object ----

  class OngdbContainer {
    var imageName: string
    var adminPassword: Option<string>
    /** The environment handed to the image (the runtime's `addEnv` puts into it). */
    var env: map<string, string>
    var exposedPorts: seq<int>
    var waitStrategy: WaitAll

    constructor (dockerImageName: string)
      ensures imageName == dockerImageName
      ensures adminPassword == Some(DefaultAdminPassword) && env == map[]
      ensures exposedPorts == DeclaredPorts && waitStrategy == DefaultWaitStrategy()
    {
      imageName := dockerImageName;
      adminPassword := Some(DefaultAdminPassword);
      env := map[];
      waitStrategy := DefaultWaitStrategy();
      exposedPorts := [BoltPort, HttpPort, HttpsPort];
    }

    function GetAdminPassword(): Option<string>
      reads this
    {
      adminPassword
    }

    /** Sets the admin password; None (null) or "" disables authentication. */
    method WithAdminPassword(password: Option<string>) returns (r: OngdbContainer)
      modifies this
      ensures r == this
      ensures adminPassword == password
      ensures env == old(env) && imageName == old(imageName)
      ensures exposedPorts == old(exposedPorts) && waitStrategy == old(waitStrategy)
    {
      adminPassword := password;
      r := this;
    }

    method WithoutAuthentication() returns (r: OngdbContainer)
      modifies this
      ensures r == this
      ensures adminPassword == None
      ensures env == old(env) && imageName == old(imageName)
      ensures exposedPorts == old(exposedPorts) && waitStrategy == old(waitStrategy)
    {
      r := WithAdminPassword(None);
    }

    /** Sets the environment entry of the translated key to the value, unchanged. */
    method WithConfig(key: string, value: string) returns (r: OngdbContainer)
      modifies this
      ensures r == this
      ensures env == old(env)[ConfigKey.FormatConfigurationKey(key) := value]
      ensures adminPassword == old(adminPassword) && imageName == old(imageName)
      ensures exposedPorts == old(exposedPorts) && waitStrategy == old(waitStrategy)
    {
      env := env[ConfigKey.FormatConfigurationKey(key) := value];
      r := this;
    }

    /** Run by the runtime before start: writes NEO4J_AUTH from the admin password. */
    method Configure()
      modifies this
      ensures env == old(env)[AuthEnvKey := AuthValue(adminPassword)]
      ensures adminPassword == old(adminPassword) && imageName == old(imageName)
      ensures exposedPorts == old(exposedPorts) && waitStrategy == old(waitStrategy)
    {
      var emptyAdminPassword := adminPassword.None? || adminPassword.value == "";
      var auth := if emptyAdminPassword then "none" else "neo4j/" + adminPassword.value;
      env := env[AuthEnvKey := auth];
    }
  }

  // ---- what a test sees through the container's interface ----

  /** A fresh container, configured as it is, authenticates as neo4j/password. */
  method DefaultAuthentication(image: string) returns (password: Option<string>, auth: string)
    ensures password == Some("password")
    ensures auth == "neo4j/password"
  {
    var c := new OngdbContainer(image);
    password := c.GetAdminPassword();
    c.Configure();
    auth := c.env[AuthEnvKey];
  }

  /** The password set is the password read back, and the one NEO4J_AUTH carries. */
  method AdminPasswordRoundTrip(image: string, password: Option<string>) returns (got: Option<string>, auth: string)
    ensures got == password
    ensures auth == "none" <==> AuthDisabled(password)
    ensures PasswordOfAuth(auth) == if AuthDisabled(password) then None else password
  {
    var c := new OngdbContainer(image);
    var _ := c.WithAdminPassword(password);
    got := c.GetAdminPassword();
    c.Configure();
    auth := c.env[AuthEnvKey];
    AuthRoundTrip(password);
  }

  /** withoutAuthentication and withAdminPassword(null) leave the same state behind. */
  method WithoutAuthenticationIsNullPassword(image: string)
    returns (env1: map<string, string>, env2: map<string, string>, p1: Option<string>, p2: Option<string>)
    ensures env1 == env2 && p1 == p2 == None
    ensures env1 == map[AuthEnvKey := "none"]
  {
    var a := new OngdbContainer(image);
    var b := new OngdbContainer(image);
    var _ := a.WithoutAuthentication();
    var _ := b.WithAdminPassword(None);
    a.Configure();
    b.Configure();
    env1, env2, p1, p2 := a.env, b.env, a.GetAdminPassword(), b.GetAdminPassword();
  }

  /** A configuration entry lands under its translated key and nowhere else. */
  method ConfigEntry(image: string, key: string, value: string) returns (env: map<string, string>)
    ensures env.Keys == {ConfigKey.FormatConfigurationKey(key)}
    ensures forall k :: k in env ==> |k| >= |ConfigKey.Prefix| && k[..|ConfigKey.Prefix|] == ConfigKey.Prefix && env[k] == value
  {
    var c := new OngdbContainer(image);
    var _ := c.WithConfig(key, value);
    env := c.env;
  }

  /** Published ports 32768, 32769 and 32770 on localhost give these three URLs. */
  lemma UrlScenario(host: string, mapped: int -> int)
    requires host == "localhost"
    requires mapped(BoltPort) == 32768 && mapped(HttpPort) == 32769 && mapped(HttpsPort) == 32770
    ensures BoltUrl(host, mapped) == "bolt://localhost:32768"
    ensures HttpUrl(host, mapped) == "http://localhost:32769"
    ensures HttpsUrl(host, mapped) == "https://localhost:32770"
  {
    BoltUrlScenario(host, mapped);
    HttpUrlScenario(host, mapped);
    HttpsUrlScenario(host, mapped);
  }

  lemma BoltUrlScenario(host: string, mapped: int -> int)
    requires host == "localhost" && mapped(BoltPort) == 32768
    ensures BoltUrl(host, mapped) == "bolt://localhost:32768"
  {
    assert Decimal.IntToString(32768) == "32768";
    var url := "bolt://" + host + ":" + "32768";
    assert forall i :: 0 <= i < |url| ==> url[i] == "bolt://localhost:32768"[i];
  }

  lemma HttpUrlScenario(host: string, mapped: int -> int)
    requires host == "localhost" && mapped(HttpPort) == 32769
    ensures HttpUrl(host, mapped) == "http://localhost:32769"
  {
    assert Decimal.IntToString(32769) == "32769";
    var url := "http://" + host + ":" + "32769";
    assert forall i :: 0 <= i < |url| ==> url[i] == "http://localhost:32769"[i];
  }

  lemma HttpsUrlScenario(host: string, mapped: int -> int)
    requires host == "localhost" && mapped(HttpsPort) == 32770
    ensures HttpsUrl(host, mapped) == "https://localhost:32770"
  {
    assert Decimal.IntToString(32770) == "32770";
    var url := "https://" + host + ":" + "32770";
    assert forall i :: 0 <= i < |url| ==> url[i] == "https://localhost:32770"[i];
  }
}
