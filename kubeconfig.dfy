/**
 * Locating and reading a kubeconfig (pkg/registration/kubeconfig.go) and the kubeconfig built
 * from a service-account token (pkg/registration/token_to_kubeconfig.go). Reading the
 * environment, the home directory and the file are inputs.
 */
module KubeConfig {
  import opened Wrappers
  import GoStrings
  import GoPaths

  newtype byte = x: int | 0 <= x < 256

  /** A cluster entry; Go keeps the CA certificate as raw bytes. */
  datatype Cluster = Cluster(server: string, certificateAuthorityData: seq<byte>)

  /** A user entry; `token` holds the bytes of the Go string. */
  datatype AuthInfo = AuthInfo(token: seq<byte>)

  datatype Context = Context(cluster: string, authInfo: string)

  /** `clientcmdapi.Config`, restricted to the entries the registration code reads or writes. */
  datatype Config = Config(
    clusters: map<string, Cluster>,
    authInfos: map<string, AuthInfo>,
    contexts: map<string, Context>,
    currentContext: string)

  /** Every context names a cluster and a user the configuration holds, and the current context exists. */
  predicate WellFormed(c: Config)
  {
    c.currentContext in c.contexts
    && forall name :: name in c.contexts ==> c.contexts[name].cluster in c.clusters && c.contexts[name].authInfo in c.authInfos
  }

  const ErrMissingSecretData := "missing required data in secret"

  /** The one name used for the cluster, the user and the context of a token kubeconfig. */
  const TokenEntry := "cluster"

  /**
   * `TokenToKubeconfig` (token_to_kubeconfig.go:10-37): the secret must hold keys "ca.crt" and
   * "token" (their contents are not checked); the result has one cluster, user and context, all
   * named "cluster".
   */
  function TokenToKubeconfig(data: map<string, seq<byte>>, server: string): (r: Result<Config>)
    ensures r.Err? <==> "ca.crt" !in data || "token" !in data
    ensures r.Err? ==> r.error == ErrMissingSecretData
    ensures !r.Panic?
    ensures r.Ok? ==> WellFormed(r.value)
    ensures r.Ok? ==> (|r.value.clusters| == 1 && |r.value.authInfos| == 1 && |r.value.contexts| == 1
      && r.value.currentContext == TokenEntry)
    ensures r.Ok? ==> (TokenEntry in r.value.contexts && r.value.contexts[TokenEntry] == Context(TokenEntry, TokenEntry))
    ensures r.Ok? ==> (TokenEntry in r.value.clusters && r.value.clusters[TokenEntry] == Cluster(server, data["ca.crt"]))
    ensures r.Ok? ==> (TokenEntry in r.value.authInfos && r.value.authInfos[TokenEntry] == AuthInfo(data["token"]))
  {
    if "ca.crt" !in data || "token" !in data then Err(ErrMissingSecretData)
    else Ok(Config(
      map[TokenEntry := Cluster(server, data["ca.crt"])],
      map[TokenEntry := AuthInfo(data["token"])],
      map[TokenEntry := Context(TokenEntry, TokenEntry)],
      TokenEntry))
  }

  /**
   * `GetKubeconfigFileLocation` (kubeconfig.go:52-64): an explicit location, else the KUBECONFIG
   * variable when it is set (even to the empty string), else `.kube/config` under the home
   * directory, whose lookup error is returned.
   */
  function KubeconfigFileLocation(location: string, kubeconfigEnv: Option<string>, homeDir: Result<string>): (r: Result<string>)
    ensures location != "" ==> r == Ok(location)
    ensures location == "" && kubeconfigEnv.Some? ==> r == Ok(kubeconfigEnv.value)
    ensures location == "" && kubeconfigEnv.None? && homeDir.Err? ==> r == Err(homeDir.error)
    ensures location == "" && kubeconfigEnv.None? && homeDir.Ok? ==> r == Ok(GoPaths.Join([homeDir.value, ".kube", "config"]))
    ensures r.Err? ==> location == "" && kubeconfigEnv.None? && homeDir.Err?
  {
    if location != "" then Ok(location)
    else if kubeconfigEnv.Some? then Ok(kubeconfigEnv.value)
    else match homeDir
      case Ok(home) => Ok(GoPaths.Join([home, ".kube", "config"]))
      case Err(e) => Err(e)
      case Panic(p) => Panic(p)
  }

  /** For a home directory of plain segments the default location is `<home>/.kube/config`. */
  lemma {:induction false} DefaultLocation(homeSegments: seq<string>)
    requires |homeSegments| >= 1
    requires forall i :: 0 <= i < |homeSegments| ==> GoPaths.PlainSegment(homeSegments[i]) && '/' !in homeSegments[i]
    ensures var home := ['/'] + GoStrings.Join(homeSegments, '/');
      KubeconfigFileLocation("", None, Ok(home)) == Ok(['/'] + GoStrings.Join(homeSegments + [".kube", "config"], '/'))
  {
    var home := ['/'] + GoStrings.Join(homeSegments, '/');
    var rel := GoStrings.Join(homeSegments + [".kube", "config"], '/');
    DefaultElements(home, ".kube", "config");
    JoinedHome(homeSegments, ".kube", "config");
    PlainHome(homeSegments);
    GoPaths.CleanPlainRooted(rel);
  }

  lemma {:induction false} DefaultElements(home: string, a: string, b: string)
    requires home != [] && a != [] && b != []
    ensures GoPaths.NonEmpty([home, a, b]) == [home, a, b]
  {
    var e := [home, a, b];
    assert e[1..] == [a, b] && e[1..][1..] == [b] && e[1..][1..][1..] == [];
    assert GoPaths.NonEmpty([b]) == [b] + GoPaths.NonEmpty([]);
    assert GoPaths.NonEmpty([a, b]) == [a] + GoPaths.NonEmpty([b]);
    assert GoPaths.NonEmpty(e) == [home] + GoPaths.NonEmpty([a, b]);
  }

  lemma {:induction false} JoinedHome(homeSegments: seq<string>, a: string, b: string)
    requires |homeSegments| >= 1
    ensures GoStrings.Join([['/'] + GoStrings.Join(homeSegments, '/'), a, b], '/')
      == ['/'] + GoStrings.Join(homeSegments + [a, b], '/')
  {
    var j := GoStrings.Join(homeSegments, '/');
    var rel := GoStrings.Join(homeSegments + [a, b], '/');
    JoinThree(['/'] + j, a, b);
    JoinAppend(homeSegments, a, b);
    Regroup(j, a + ['/'] + b);
  }

  lemma {:induction false} Regroup(j: string, t: string)
    ensures ['/'] + j + ['/'] + t == ['/'] + (j + ['/'] + t)
  {
  }

  lemma {:induction false} JoinThree(x: string, a: string, b: string)
    ensures GoStrings.Join([x, a, b], '/') == x + ['/'] + (a + ['/'] + b)
  {
    var e := [x, a, b];
    assert e[1..] == [a, b] && e[1..][1..] == [b];
    assert GoStrings.Join([b], '/') == b;
    assert GoStrings.Join([a, b], '/') == a + ['/'] + b;
    assert GoStrings.Join(e, '/') == x + ['/'] + (a + ['/'] + b);
  }

  lemma {:induction false} PlainHome(homeSegments: seq<string>)
    requires |homeSegments| >= 1
    requires forall i :: 0 <= i < |homeSegments| ==> GoPaths.PlainSegment(homeSegments[i]) && '/' !in homeSegments[i]
    ensures GoPaths.IsPlainRelative(GoStrings.Join(homeSegments + [".kube", "config"], '/'))
  {
    var segs := homeSegments + [".kube", "config"];
    assert forall i :: 0 <= i < |segs| ==> GoPaths.PlainSegment(segs[i]) && '/' !in segs[i] by {
      forall i | 0 <= i < |segs| ensures GoPaths.PlainSegment(segs[i]) && '/' !in segs[i] {
        if i >= |homeSegments| {
          assert segs[i] == ".kube" || segs[i] == "config";
        }
      }
    }
    GoStrings.SplitJoin(segs, '/');
    JoinAppend(homeSegments, ".kube", "config");
  }

  lemma {:induction false} JoinAppend(segs: seq<string>, a: string, b: string)
    requires |segs| >= 1
    ensures GoStrings.Join(segs + [a, b], '/') == GoStrings.Join(segs, '/') + ['/'] + (a + ['/'] + b)
  {
    var j := GoStrings.Join(segs, '/');
    GoStrings.JoinSnoc(segs, a, '/');
    GoStrings.JoinSnoc(segs + [a], b, '/');
    assert segs + [a] + [b] == segs + [a, b];
    assert GoStrings.Join(segs + [a, b], '/') == (j + ['/'] + a) + ['/'] + b;
    Regroup3(j, a, b);
  }

  lemma {:induction false} Regroup3(j: string, a: string, b: string)
    ensures (j + ['/'] + a) + ['/'] + b == j + ['/'] + (a + ['/'] + b)
  {
  }

  /** The message of a named context that the kubeconfig lacks (kubeconfig.go:34, 90). */
  function ContextNotFound(contextName: string, path: string): string
  {
    "context not found in supplied kubeconfig " + "contextName: " + contextName + " configFileLocation: " + path
  }

  /**
   * `KubeconfigToHost` (kubeconfig.go:66-93). `load` reads and parses a kubeconfig file and
   * `defaultHost` is the host clientcmd derives from a configuration's current context.
   */
  function KubeconfigToHost(location: string, contextName: string, overrideIP: string, overridePort: string,
                            kubeconfigEnv: Option<string>, homeDir: Result<string>,
                            load: string -> Result<Config>, defaultHost: Config -> Result<string>): (r: Result<string>)
    ensures overrideIP != "" && overridePort != "" ==> r == Ok("https://" + overrideIP + ":" + overridePort)
    ensures (overrideIP == "" || overridePort == "") && KubeconfigFileLocation(location, kubeconfigEnv, homeDir).Err? ==>
      r == KubeconfigFileLocation(location, kubeconfigEnv, homeDir)
    ensures (overrideIP == "" || overridePort == "") && contextName != "" ==>
      var path := KubeconfigFileLocation(location, kubeconfigEnv, homeDir);
      path.Ok? && load(path.value).Ok? ==>
        var c := load(path.value).value;
        (contextName !in c.contexts ==> r == Err(ContextNotFound(contextName, path.value)))
        && (contextName in c.contexts && c.contexts[contextName].cluster in c.clusters ==>
              r == Ok(c.clusters[c.contexts[contextName].cluster].server))
        && (contextName in c.contexts && c.contexts[contextName].cluster !in c.clusters ==> r.Panic?)
    ensures (overrideIP == "" || overridePort == "") ==>
      var path := KubeconfigFileLocation(location, kubeconfigEnv, homeDir);
      path.Ok? && load(path.value).Err? ==> r == Err(load(path.value).error)
    ensures (overrideIP == "" || overridePort == "") && contextName == "" ==>
      var path := KubeconfigFileLocation(location, kubeconfigEnv, homeDir);
      path.Ok? && load(path.value).Ok? ==> r == defaultHost(load(path.value).value)
  {
    if overrideIP != "" && overridePort != "" then Ok("https://" + overrideIP + ":" + overridePort)
    else match KubeconfigFileLocation(location, kubeconfigEnv, homeDir)
      case Err(e) => Err(e)
      case Panic(p) => Panic(p)
      case Ok(path) =>
        match load(path)
        case Err(e) => Err(e)
        case Panic(p) => Panic(p)
        case Ok(c) =>
          if contextName == "" then defaultHost(c)
          else if contextName !in c.contexts then Err(ContextNotFound(contextName, path))
          else if c.contexts[contextName].cluster !in c.clusters then Panic("invalid memory address or nil pointer dereference")
          else Ok(c.clusters[c.contexts[contextName].cluster].server)
  }

  /** The overrides `GetClient` gives clientcmd: the default context, or the named context with its cluster and user. */
  datatype ClientTarget = CurrentContext(config: Config) | NamedContext(context: Context, cluster: Cluster, authInfo: AuthInfo)

  /**
   * `GetClient` (kubeconfig.go:14-50) up to building the REST configuration: the named context
   * must exist, and its cluster and user entries are dereferenced.
   */
  function GetClient(location: string, contextName: string, kubeconfigEnv: Option<string>, homeDir: Result<string>,
                     load: string -> Result<Config>): (r: Result<ClientTarget>)
    ensures KubeconfigFileLocation(location, kubeconfigEnv, homeDir).Err? ==>
      r == Err(KubeconfigFileLocation(location, kubeconfigEnv, homeDir).error)
    ensures contextName == "" && r.Ok? ==> r.value.CurrentContext?
    ensures var path := KubeconfigFileLocation(location, kubeconfigEnv, homeDir);
      path.Ok? && load(path.value).Err? ==> r == Err(load(path.value).error)
    ensures contextName == "" ==>
      var path := KubeconfigFileLocation(location, kubeconfigEnv, homeDir);
      path.Ok? && load(path.value).Ok? ==> r == Ok(CurrentContext(load(path.value).value))
    ensures contextName != "" ==>
      var path := KubeconfigFileLocation(location, kubeconfigEnv, homeDir);
      path.Ok? && load(path.value).Ok? && contextName in load(path.value).value.contexts ==>
        var c := load(path.value).value;
        var context := c.contexts[contextName];
        if context.cluster in c.clusters && context.authInfo in c.authInfos
        then r == Ok(NamedContext(context, c.clusters[context.cluster], c.authInfos[context.authInfo]))
        else r.Panic?
    ensures contextName != "" ==>
      var path := KubeconfigFileLocation(location, kubeconfigEnv, homeDir);
      path.Ok? && load(path.value).Ok? && contextName !in load(path.value).value.contexts ==>
        r == Err(ContextNotFound(contextName, path.value))
  {
    match KubeconfigFileLocation(location, kubeconfigEnv, homeDir)
    case Err(e) => Err(e)
    case Panic(p) => Panic(p)
    case Ok(path) =>
      match load(path)
      case Err(e) => Err(e)
      case Panic(p) => Panic(p)
      case Ok(c) =>
        if contextName == "" then Ok(CurrentContext(c))
        else if contextName !in c.contexts then Err(ContextNotFound(contextName, path))
        else
          var context := c.contexts[contextName];
          if context.cluster !in c.clusters || context.authInfo !in c.authInfos then Panic("invalid memory address or nil pointer dereference")
          else Ok(NamedContext(context, c.clusters[context.cluster], c.authInfos[context.authInfo]))
  }

  /** On a well-formed configuration a named context that exists never panics. */
  lemma {:induction false} WellFormedNeverPanics(location: string, contextName: string, kubeconfigEnv: Option<string>, homeDir: Result<string>,
                              load: string -> Result<Config>, defaultHost: Config -> Result<string>)
    requires contextName != ""
    requires forall p :: !load(p).Panic? && (load(p).Ok? ==> WellFormed(load(p).value))
    ensures !GetClient(location, contextName, kubeconfigEnv, homeDir, load).Panic? || homeDir.Panic?
    ensures !KubeconfigToHost(location, contextName, "", "", kubeconfigEnv, homeDir, load, defaultHost).Panic? || homeDir.Panic?
  {
  }

  /**
   * A kubeconfig built from a token resolves, through its "cluster" context, to the server it
   * was built for, with the secret's CA data and token.
   */
  lemma {:induction false} TokenKubeconfigResolves(data: map<string, seq<byte>>, server: string, location: string,
                                kubeconfigEnv: Option<string>, homeDir: Result<string>, defaultHost: Config -> Result<string>)
    requires "ca.crt" in data && "token" in data
    requires KubeconfigFileLocation(location, kubeconfigEnv, homeDir).Ok?
    ensures var load := (p: string) => TokenToKubeconfig(data, server);
      KubeconfigToHost(location, TokenEntry, "", "", kubeconfigEnv, homeDir, load, defaultHost) == Ok(server)
      && GetClient(location, TokenEntry, kubeconfigEnv, homeDir, load)
         == Ok(NamedContext(Context(TokenEntry, TokenEntry), Cluster(server, data["ca.crt"]), AuthInfo(data["token"])))
  {
  }
}
