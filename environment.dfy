/** The testing environment (envs/environment.go): a snapshot of the
    configuration (host, credentials, TLS files, proxy, image coordinates),
    the two clients every workflow uses, and the `loaded` flag that makes
    `Load` build those clients only once.

    The process environment that `os.Getenv` reads is passed in as a map, and
    `client.NewAPIClient` is the abstract constructor of module Clients. */
module Envs {
  import opened Common
  import opened Text
  import opened Clients

  const HOSTNAME_VAR := "TESTING_ENV_HOSTNAME"
  const ACCOUNT_VAR := "TESTING_ENV_ACCOUNT"
  const PASSWORD_VAR := "TESTING_ENV_PASSWORD"
  const ADMIN_VAR := "TESTING_ENV_ADMIN"
  const ADMIN_PASS_VAR := "TESTING_ENV_ADMIN_PASS"
  const PROJECT_VAR := "TESTING_PROJECT_NAME"
  const IMAGE_NAME_VAR := "TESTING_IMAGE_NAME"
  const IMAGE_TAG_VAR := "TESTING_IMAGE_TAG"
  const PROTOCOL_VAR := "HTTP_PROTOCOL"
  const CA_FILE_VAR := "CA_FILE_PATH"
  const KEY_FILE_VAR := "KEY_FILE_PATH"
  const CERT_FILE_VAR := "CERT_FILE_PATH"

  /** The configuration fields of a `HarborEnvironment`. */
  datatype Config = Config(
    protocol: string,
    hostname: string,
    account: string,
    password: string,
    admin: string,
    adminPass: string,
    testingProject: string,
    gcrProjectName: string,
    imageName: string,
    imageTag: string,
    imageDigest: string,
    caFile: string,
    certFile: string,
    keyFile: string,
    proxyURL: string)

  /** `os.Getenv`: the variable's value, or "" when it is not set. */
  function Getenv(vars: map<string, string>, name: string): string
  {
    if name in vars then vars[name] else ""
  }

  /** One step of the overlay: a non-blank value replaces the current one. */
  function Pick(current: string, value: string): string
  {
    if !Blank(value) then value else current
  }

  /** The proxy variable consulted for a protocol. */
  function ProxyVar(protocol: string): string
  {
    if protocol == "http" then "http_proxy" else "https_proxy"
  }

  /** The upper-case fallback names. */
  lemma UpperProxyVar(protocol: string)
    ensures ToUpper(ProxyVar(protocol)) == if protocol == "http" then "HTTP_PROXY" else "HTTPS_PROXY"
  {
    var t := if protocol == "http" then "HTTP_PROXY" else "HTTPS_PROXY";
    forall i | 0 <= i < |t| ensures ToUpper(ProxyVar(protocol))[i] == t[i] {
    }
  }

  /** The proxy value `Load` finds: the lower-case variable, or the upper-case
      one when the lower-case one is blank. */
  function ProxyValue(vars: map<string, string>, protocol: string): string
  {
    var lower := Getenv(vars, ProxyVar(protocol));
    if !Blank(lower) then lower else Getenv(vars, ToUpper(ProxyVar(protocol)))
  }

  /** The twelve fields that each have one variable of their own take that
      variable's value when it is non-blank. */
  function OverlayPlain(c: Config, vars: map<string, string>): Config
  {
    c.(hostname := Pick(c.hostname, Lookup(vars, HostnameField)),
       account := Pick(c.account, Lookup(vars, AccountField)),
       password := Pick(c.password, Lookup(vars, PasswordField)),
       admin := Pick(c.admin, Lookup(vars, AdminField)),
       adminPass := Pick(c.adminPass, Lookup(vars, AdminPassField)),
       testingProject := Pick(c.testingProject, Lookup(vars, TestingProjectField)),
       imageName := Pick(c.imageName, Lookup(vars, ImageNameField)),
       imageTag := Pick(c.imageTag, Lookup(vars, ImageTagField)),
       protocol := Pick(c.protocol, Lookup(vars, ProtocolField)),
       caFile := Pick(c.caFile, Lookup(vars, CaFileField)),
       keyFile := Pick(c.keyFile, Lookup(vars, KeyFileField)),
       certFile := Pick(c.certFile, Lookup(vars, CertFileField)))
  }

  /** The proxy takes the value of the variable the protocol selects. */
  function WithProxy(c: Config, vars: map<string, string>): Config
  {
    c.(proxyURL := Pick(c.proxyURL, ProxyValue(vars, c.protocol)))
  }

  /** The configuration `Load` leaves behind, as a function of the one it
      finds and the process environment: the plain fields first, then the
      proxy, chosen by the protocol as it stands after the first step. */
  function Overlay(c: Config, vars: map<string, string>): Config
  {
    WithProxy(OverlayPlain(c, vars), vars)
  }

  /** A configuration whose every field is the overlaid one is the overlay. */
  lemma OverlayByFields(c: Config, d: Config, vars: map<string, string>)
    requires d.hostname == Pick(c.hostname, Lookup(vars, HostnameField))
    requires d.account == Pick(c.account, Lookup(vars, AccountField))
    requires d.password == Pick(c.password, Lookup(vars, PasswordField))
    requires d.admin == Pick(c.admin, Lookup(vars, AdminField))
    requires d.adminPass == Pick(c.adminPass, Lookup(vars, AdminPassField))
    requires d.testingProject == Pick(c.testingProject, Lookup(vars, TestingProjectField))
    requires d.imageName == Pick(c.imageName, Lookup(vars, ImageNameField))
    requires d.imageTag == Pick(c.imageTag, Lookup(vars, ImageTagField))
    requires d.protocol == Pick(c.protocol, Lookup(vars, ProtocolField))
    requires d.caFile == Pick(c.caFile, Lookup(vars, CaFileField))
    requires d.keyFile == Pick(c.keyFile, Lookup(vars, KeyFileField))
    requires d.certFile == Pick(c.certFile, Lookup(vars, CertFileField))
    requires d.gcrProjectName == c.gcrProjectName && d.imageDigest == c.imageDigest
    requires d.proxyURL == Pick(c.proxyURL, ProxyValue(vars, d.protocol))
    ensures d == Overlay(c, vars)
  {
  }

  /** The fields of a configuration, by name. */
  datatype Field =
    | ProtocolField | HostnameField | AccountField | PasswordField | AdminField
    | AdminPassField | TestingProjectField | GcrProjectNameField | ImageNameField
    | ImageTagField | ImageDigestField | CaFileField | CertFileField | KeyFileField
    | ProxyUrlField

  function FieldOf(c: Config, f: Field): string
  {
    match f
    case ProtocolField => c.protocol
    case HostnameField => c.hostname
    case AccountField => c.account
    case PasswordField => c.password
    case AdminField => c.admin
    case AdminPassField => c.adminPass
    case TestingProjectField => c.testingProject
    case GcrProjectNameField => c.gcrProjectName
    case ImageNameField => c.imageName
    case ImageTagField => c.imageTag
    case ImageDigestField => c.imageDigest
    case CaFileField => c.caFile
    case CertFileField => c.certFile
    case KeyFileField => c.keyFile
    case ProxyUrlField => c.proxyURL
  }

  /** The variable that overrides a field, for the twelve fields that have a
      single one. */
  function VarOf(f: Field): Option<string>
  {
    match f
    case ProtocolField => Some(PROTOCOL_VAR)
    case HostnameField => Some(HOSTNAME_VAR)
    case AccountField => Some(ACCOUNT_VAR)
    case PasswordField => Some(PASSWORD_VAR)
    case AdminField => Some(ADMIN_VAR)
    case AdminPassField => Some(ADMIN_PASS_VAR)
    case TestingProjectField => Some(PROJECT_VAR)
    case ImageNameField => Some(IMAGE_NAME_VAR)
    case ImageTagField => Some(IMAGE_TAG_VAR)
    case CaFileField => Some(CA_FILE_VAR)
    case CertFileField => Some(CERT_FILE_VAR)
    case KeyFileField => Some(KEY_FILE_VAR)
    case GcrProjectNameField => None
    case ImageDigestField => None
    case ProxyUrlField => None
  }

  /** `os.Getenv` of the variable that overrides a field ("" for the three
      fields that have none). */
  function Lookup(vars: map<string, string>, f: Field): string
  {
    match VarOf(f)
    case Some(name) => Getenv(vars, name)
    case None => ""
  }

  /** Each of the twelve plainly overlaid fields takes its variable's value
      when that value is non-blank and is otherwise left as it was. */
  lemma OverlayFieldwise(c: Config, vars: map<string, string>, f: Field)
    requires VarOf(f).Some?
    ensures var v := Getenv(vars, VarOf(f).value);
            && (!Blank(v) ==> FieldOf(Overlay(c, vars), f) == v)
            && (Blank(v) ==> FieldOf(Overlay(c, vars), f) == FieldOf(c, f))
  {
    assert FieldOf(Overlay(c, vars), f) == FieldOf(OverlayPlain(c, vars), f);
    assert Lookup(vars, f) == Getenv(vars, VarOf(f).value);
  }

  /** The image digest and the source-registry prefix are never overlaid,
      whatever the environment holds. */
  lemma OverlayKeepsDigestAndRegistry(c: Config, vars: map<string, string>)
    ensures Overlay(c, vars).imageDigest == c.imageDigest
    ensures Overlay(c, vars).gcrProjectName == c.gcrProjectName
  {
  }

  /** The proxy is chosen by the protocol as it stands after the overlay:
      `http_proxy`/`HTTP_PROXY` when it is exactly "http", and
      `https_proxy`/`HTTPS_PROXY` otherwise; the lower-case name wins when it
      is non-blank, the upper-case name is the fallback, and with both blank
      the proxy is left as it was. */
  lemma OverlayProxy(c: Config, vars: map<string, string>)
    ensures var p := Overlay(c, vars).protocol;
            var lower := if p == "http" then "http_proxy" else "https_proxy";
            var upper := if p == "http" then "HTTP_PROXY" else "HTTPS_PROXY";
            var proxy := Overlay(c, vars).proxyURL;
            && (!Blank(Getenv(vars, lower)) ==> proxy == Getenv(vars, lower))
            && (Blank(Getenv(vars, lower)) && !Blank(Getenv(vars, upper)) ==>
                  proxy == Getenv(vars, upper))
            && (Blank(Getenv(vars, lower)) && Blank(Getenv(vars, upper)) ==>
                  proxy == c.proxyURL)
  {
    UpperProxyVar(Overlay(c, vars).protocol);
  }

  /** With protocol "https" and only `HTTPS_PROXY` set, that value is taken. */
  lemma UpperCaseProxyFallback(c: Config, url: string)
    requires c.protocol == "https" && !Blank(url)
    ensures Overlay(c, map["HTTPS_PROXY" := url]).proxyURL == url
  {
    var vars := map["HTTPS_PROXY" := url];
    assert PROTOCOL_VAR !in vars by {
      assert |PROTOCOL_VAR| != |"HTTPS_PROXY"|;
    }
    assert "https_proxy" !in vars by {
      assert "https_proxy"[0] != "HTTPS_PROXY"[0];
    }
    assert Blank("");
    assert Overlay(c, vars).protocol == "https";
    OverlayProxy(c, vars);
  }

  /** A protocol switched to "http" by the environment makes `http_proxy` the
      one consulted, even when `https_proxy` is set too. */
  lemma HttpProtocolSelectsHttpProxy(c: Config, httpUrl: string, httpsUrl: string)
    requires !Blank(httpUrl)
    ensures var vars := map[PROTOCOL_VAR := "http", "http_proxy" := httpUrl, "https_proxy" := httpsUrl];
            Overlay(c, vars).protocol == "http" && Overlay(c, vars).proxyURL == httpUrl
  {
    var vars := map[PROTOCOL_VAR := "http", "http_proxy" := httpUrl, "https_proxy" := httpsUrl];
    HttpVariables(httpUrl, httpsUrl);
    OverlayFieldwise(c, vars, ProtocolField);
    OverlayProxy(c, vars);
  }

  lemma HttpVariables(httpUrl: string, httpsUrl: string)
    ensures var vars := map[PROTOCOL_VAR := "http", "http_proxy" := httpUrl, "https_proxy" := httpsUrl];
            Getenv(vars, PROTOCOL_VAR) == "http" && Getenv(vars, "http_proxy") == httpUrl
            && !Blank("http")
  {
    assert !IsSpace("http"[0]);
    assert |PROTOCOL_VAR| == 13 && |"http_proxy"| == 10 && |"https_proxy"| == 11;
  }

  /** Loading the same environment twice gives the same configuration as
      loading it once. */
  lemma OverlayIdempotent(c: Config, vars: map<string, string>)
    ensures Overlay(Overlay(c, vars), vars) == Overlay(c, vars)
  {
  }

  /** An environment with nothing set leaves the configuration as it is. */
  lemma OverlayOfEmptyEnvironment(c: Config)
    ensures Overlay(c, map[]) == c
  {
    assert Blank("");
  }

  /** The client configuration both `Init` and `Load` build: the admin
      credentials, the TLS files and the proxy. */
  function ClientConfig(c: Config): ApiClientConfig
  {
    ApiClientConfig(c.admin, c.adminPass, c.caFile, c.certFile, c.keyFile, c.proxyURL)
  }

  /** The configuration `NewHarborEnvironment` starts from. */
  function Defaults(hostname: string, adminpass: string, proxyURL: string): Config
  {
    Config(
      protocol := "https",
      hostname := hostname,
      account := "user001",
      password := "Harbor12345",
      admin := "admin",
      adminPass := adminpass,
      testingProject := "smoketest",
      gcrProjectName := "registry.goharbor.io/harbor-ci/",
      imageName := "nginx",
      imageTag := "latest",
      imageDigest := "sha256:2f1cd90e00fe2c991e18272bb35d6a8258eeb27785d121aa4cc1ae4235167cfd",
      caFile := "ca.crt",
      certFile := "",
      keyFile := "",
      proxyURL := proxyURL)
  }

  /** Splits an absolute address `<protocol>://<host>` at its first colon. */
  function SplitRootURI(s: string): Option<(string, string)>
  {
    var i := IndexOf(s, ':');
    if i + 3 <= |s| && s[i..i + 3] == "://" then Some((s[..i], s[i + 3..])) else None
  }

  class HarborEnvironment {
    var protocol: string
    var hostname: string
    var account: string
    var password: string
    var admin: string
    var adminPass: string
    var testingProject: string
    var gcrProjectName: string
    var imageName: string
    var imageTag: string
    var imageDigest: string
    var caFile: string
    var certFile: string
    var keyFile: string
    var proxyURL: string

    var httpClient: APIClient?
    var dockerClient: DockerTool?

    var loaded: bool

    /** The configuration fields as one value. */
    function Snapshot(): Config
      reads this
    {
      Config(protocol, hostname, account, password, admin, adminPass, testingProject,
             gcrProjectName, imageName, imageTag, imageDigest, caFile, certFile, keyFile,
             proxyURL)
    }

    /** Both clients exist: `NewHarborEnvironment` builds them, and nothing
        afterwards removes them. */
    ghost predicate Valid()
      reads this
    {
      httpClient != null && dockerClient != null
    }

    /** Both clients are new ones built by `provider` for configuration `cfg`. */
    ghost predicate BuiltBy(provider: Provider, cfg: ApiClientConfig)
      reads this, httpClient, dockerClient
    {
      && httpClient != null && httpClient.Valid() && httpClient.requests == []
      && httpClient.config == cfg && httpClient.reply == provider.http
      && dockerClient != null && dockerClient.Valid() && dockerClient.trace == []
      && dockerClient.reply == provider.docker
    }

    /** `NewHarborEnvironment`: the defaults plus the three arguments, and
        clients built by `Init`. The source panics when `Init` fails; the
        precondition says that it does not. */
    constructor (hostname: string, adminpass: string, proxyURL: string, provider: Provider)
      requires provider.refuse(ClientConfig(Defaults(hostname, adminpass, proxyURL))) == Nil
      ensures Snapshot() == Defaults(hostname, adminpass, proxyURL)
      ensures !loaded && Valid()
      ensures BuiltBy(provider, ClientConfig(Snapshot()))
      ensures fresh(httpClient) && fresh(dockerClient)
    {
      protocol := "https";
      this.hostname := hostname;
      admin := "admin";
      adminPass := adminpass;
      imageName := "nginx";
      imageTag := "latest";
      imageDigest := "sha256:2f1cd90e00fe2c991e18272bb35d6a8258eeb27785d121aa4cc1ae4235167cfd";
      gcrProjectName := "registry.goharbor.io/harbor-ci/";
      caFile := "ca.crt";
      testingProject := "smoketest";
      account := "user001";
      password := "Harbor12345";
      this.proxyURL := proxyURL;
      certFile := "";
      keyFile := "";
      httpClient := null;
      dockerClient := null;
      loaded := false;
      new;
      var err := Init(provider);
    }

    /** `Init`: builds both clients afresh from the current configuration,
        whatever `loaded` says, and leaves `loaded` alone. On a construction
        error both clients stay as they were. */
    method Init(provider: Provider) returns (err: Error)
      modifies this`httpClient, this`dockerClient
      ensures Snapshot() == old(Snapshot()) && loaded == old(loaded)
      ensures err == provider.refuse(ClientConfig(Snapshot()))
      ensures err != Nil ==> httpClient == old(httpClient) && dockerClient == old(dockerClient)
      ensures err == Nil ==> BuiltBy(provider, ClientConfig(Snapshot()))
                             && fresh(httpClient) && fresh(dockerClient)
      ensures old(Valid()) ==> Valid()
    {
      var cfg := ApiClientConfig(
        username := admin,
        password := adminPass,
        caFile := caFile,
        certFile := certFile,
        keyFile := keyFile,
        proxy := proxyURL);
      var r := NewAPIClient(provider, cfg);
      if r.Fail? {
        return Err(r.msg);
      }
      httpClient := r.value;
      dockerClient := new DockerTool(provider.docker);
      return Nil;
    }

    /** `Load`, lines for the host and the accounts. */
    method LoadAccounts(vars: map<string, string>)
      modifies this`hostname, this`account, this`password, this`admin, this`adminPass
      ensures hostname == Pick(old(hostname), Lookup(vars, HostnameField))
      ensures account == Pick(old(account), Lookup(vars, AccountField))
      ensures password == Pick(old(password), Lookup(vars, PasswordField))
      ensures admin == Pick(old(admin), Lookup(vars, AdminField))
      ensures adminPass == Pick(old(adminPass), Lookup(vars, AdminPassField))
    {
      var host := Lookup(vars, HostnameField);
      hostname := Pick(hostname, host);

      var acct := Lookup(vars, AccountField);
      account := Pick(account, acct);

      var pwd := Lookup(vars, PasswordField);
      password := Pick(password, pwd);

      var adm := Lookup(vars, AdminField);
      admin := Pick(admin, adm);

      var adminPwd := Lookup(vars, AdminPassField);
      adminPass := Pick(adminPass, adminPwd);
    }

    /** `Load`, lines for the project and the image. */
    method LoadImage(vars: map<string, string>)
      modifies this`testingProject, this`imageName, this`imageTag
      ensures testingProject == Pick(old(testingProject), Lookup(vars, TestingProjectField))
      ensures imageName == Pick(old(imageName), Lookup(vars, ImageNameField))
      ensures imageTag == Pick(old(imageTag), Lookup(vars, ImageTagField))
    {
      var pro := Lookup(vars, TestingProjectField);
      testingProject := Pick(testingProject, pro);

      var imgName := Lookup(vars, ImageNameField);
      imageName := Pick(imageName, imgName);

      var imgTag := Lookup(vars, ImageTagField);
      imageTag := Pick(imageTag, imgTag);
    }

    /** `Load`, lines for the protocol and the TLS files. */
    method LoadTransport(vars: map<string, string>)
      modifies this`protocol, this`caFile, this`keyFile, this`certFile
      ensures protocol == Pick(old(protocol), Lookup(vars, ProtocolField))
      ensures caFile == Pick(old(caFile), Lookup(vars, CaFileField))
      ensures keyFile == Pick(old(keyFile), Lookup(vars, KeyFileField))
      ensures certFile == Pick(old(certFile), Lookup(vars, CertFileField))
    {
      var proto := Lookup(vars, ProtocolField);
      protocol := Pick(protocol, proto);

      var ca := Lookup(vars, CaFileField);
      caFile := Pick(caFile, ca);

      var key := Lookup(vars, KeyFileField);
      keyFile := Pick(keyFile, key);

      var cert := Lookup(vars, CertFileField);
      certFile := Pick(certFile, cert);
    }

    /** The first part of `Load`: each field that has a variable of its own
        takes that variable's value when it is non-blank. */
    method LoadFields(vars: map<string, string>)
      modifies this`hostname, this`account, this`password, this`admin, this`adminPass
      modifies this`testingProject, this`imageName, this`imageTag, this`protocol
      modifies this`caFile, this`keyFile, this`certFile
      ensures hostname == Pick(old(hostname), Lookup(vars, HostnameField))
      ensures account == Pick(old(account), Lookup(vars, AccountField))
      ensures password == Pick(old(password), Lookup(vars, PasswordField))
      ensures admin == Pick(old(admin), Lookup(vars, AdminField))
      ensures adminPass == Pick(old(adminPass), Lookup(vars, AdminPassField))
      ensures testingProject == Pick(old(testingProject), Lookup(vars, TestingProjectField))
      ensures imageName == Pick(old(imageName), Lookup(vars, ImageNameField))
      ensures imageTag == Pick(old(imageTag), Lookup(vars, ImageTagField))
      ensures protocol == Pick(old(protocol), Lookup(vars, ProtocolField))
      ensures caFile == Pick(old(caFile), Lookup(vars, CaFileField))
      ensures keyFile == Pick(old(keyFile), Lookup(vars, KeyFileField))
      ensures certFile == Pick(old(certFile), Lookup(vars, CertFileField))
    {
      // The snapshots name the intermediate states, so that the fields each
      // step leaves alone are seen to carry over.
      LoadAccounts(vars);
      ghost var c1 := Snapshot();
      LoadImage(vars);
      ghost var c2 := Snapshot();
      LoadTransport(vars);
    }

    /** The second part of `Load`: the proxy comes from the variable the
        protocol selects, the lower-case name first and the upper-case name
        when that one is blank; with both blank the proxy stays. */
    method LoadProxy(vars: map<string, string>)
      modifies this`proxyURL
      ensures proxyURL == Pick(old(proxyURL), ProxyValue(vars, protocol))
    {
      var proxyEnvVar := "https_proxy";
      if protocol == "http" {
        proxyEnvVar := "http_proxy";
      }
      var proxy := Getenv(vars, proxyEnvVar);
      if Blank(proxy) {
        proxy := Getenv(vars, ToUpper(proxyEnvVar));
      }
      if !Blank(proxy) {
        proxyURL := proxy;
      }
    }

    /** The last part of `Load`: the clients are built as `Init` builds them,
        but only when no earlier `Load` built them, and success is recorded
        in `loaded`. */
    method BuildClientsOnce(provider: Provider) returns (err: Error)
      modifies this`httpClient, this`dockerClient, this`loaded
      ensures Snapshot() == old(Snapshot())
      ensures old(loaded) ==> err == Nil && loaded
                              && httpClient == old(httpClient) && dockerClient == old(dockerClient)
      ensures !old(loaded) ==> err == provider.refuse(ClientConfig(Snapshot()))
      ensures !old(loaded) && err != Nil ==>
                !loaded && httpClient == old(httpClient) && dockerClient == old(dockerClient)
      ensures !old(loaded) && err == Nil ==>
                loaded && BuiltBy(provider, ClientConfig(Snapshot()))
                && fresh(httpClient) && fresh(dockerClient)
      ensures old(Valid()) ==> Valid()
    {
      err := Nil;
      if !loaded {
        err := Init(provider);
        if err == Nil {
          loaded := true;
        }
      }
    }

    /** `Load`: overlays the configuration from the environment, then builds
        the clients if and only if they have not been built by an earlier
        `Load`. A construction error is returned with `loaded` still false and
        the clients as they were; the overlay stays applied. */
    method Load(vars: map<string, string>, provider: Provider) returns (err: Error)
      modifies this
      ensures Snapshot() == Overlay(old(Snapshot()), vars)
      ensures old(loaded) ==> err == Nil && loaded
                              && httpClient == old(httpClient) && dockerClient == old(dockerClient)
      ensures !old(loaded) ==> err == provider.refuse(ClientConfig(Snapshot()))
      ensures !old(loaded) && err != Nil ==>
                !loaded && httpClient == old(httpClient) && dockerClient == old(dockerClient)
      ensures !old(loaded) && err == Nil ==>
                loaded && BuiltBy(provider, ClientConfig(Snapshot()))
                && fresh(httpClient) && fresh(dockerClient)
      ensures old(Valid()) ==> Valid()
    {
      // As in LoadFields, the ghost values name the intermediate states; the
      // overlay leaves the clients and `loaded` as they were.
      ghost var c0 := Snapshot();
      ghost var k0 := (loaded, httpClient, dockerClient);
      LoadFields(vars);
      ghost var k1 := (loaded, httpClient, dockerClient);
      ghost var c1 := Snapshot();
      LoadProxy(vars);
      ghost var k2 := (loaded, httpClient, dockerClient);
      assert k2 == k0;
      OverlayByFields(c0, Snapshot(), vars);

      err := BuildClientsOnce(provider);
    }

    /** `RootURI`: `<protocol>://<hostname>`. */
    function RootURI(): string
      reads this
    {
      protocol + "://" + hostname
    }

    /** The root address takes apart into the protocol and the host again,
        provided the protocol has no colon of its own. */
    lemma RootURIRoundTrip()
      requires ':' !in protocol
      ensures SplitRootURI(RootURI()) == Some((protocol, hostname))
    {
      var s := RootURI();
      IndexOfAfter(protocol, ':', "//" + hostname);
      assert s == protocol + [':'] + ("//" + hostname);
      var i := |protocol|;
      assert s[i..i + 3] == "://";
      assert s[..i] == protocol;
      assert s[i + 3..] == hostname;
    }
  }

  /** Loading twice with the same environment: the second `Load` succeeds
      whenever the first did, and the configuration it leaves is that of a
      single overlay, which a further overlay no longer changes. */
  method LoadTwice(env: HarborEnvironment, vars: map<string, string>, provider: Provider)
    returns (first: Error, second: Error)
    modifies env
    ensures env.Snapshot() == Overlay(old(env.Snapshot()), vars)
    ensures first == Nil ==> second == Nil && env.loaded
                             && env.Snapshot() == Overlay(env.Snapshot(), vars)
    ensures old(env.loaded) ==> env.httpClient == old(env.httpClient)
                                && env.dockerClient == old(env.dockerClient)
    ensures !old(env.loaded) && first == Nil ==> fresh(env.httpClient) && fresh(env.dockerClient)
  {
    first := env.Load(vars, provider);
    OverlayIdempotent(old(env.Snapshot()), vars);
    second := env.Load(vars, provider);
  }

  /** A `Load` of an environment already loaded with the same variables, the
      state a successful first `Load` leaves: it succeeds, changes no field
      and keeps the very clients the environment holds. */
  method LoadAgain(env: HarborEnvironment, vars: map<string, string>, provider: Provider)
    returns (err: Error)
    requires env.loaded && env.Snapshot() == Overlay(env.Snapshot(), vars)
    modifies env
    ensures err == Nil && env.loaded && env.Snapshot() == old(env.Snapshot())
    ensures env.httpClient == old(env.httpClient) && env.dockerClient == old(env.dockerClient)
  {
    err := env.Load(vars, provider);
  }
}
