/**
 * `kubectl k8ssandra nodetool <pod> <command> [<args>]`
 * (cmd/kubectl-k8ssandra/nodetool/nodetool.go): split the arguments, fetch the datacenter's
 * credentials and assemble the `nodetool` command line run inside the pod.
 */
module Nodetool {
  import opened Wrappers
  import opened Json
  import CassdcSecrets

  const ErrNotEnoughParameters := "not enough parameters to run nodetool"

  /** The six JMX-over-SSL flags added when a keystore is configured, in their fixed order. */
  function SslFlags(auth: CassdcSecrets.CassandraAuth): seq<string>
  {
    ["-Dcom.sun.management.jmxremote.ssl.need.client.auth=true",
     "-Dcom.sun.management.jmxremote.registry.ssl=true",
     "-Djavax.net.ssl.keyStore=" + auth.keystorePath,
     "-Djavax.net.ssl.keyStorePassword=" + auth.keystorePassword,
     "-Djavax.net.ssl.trustStore=" + auth.truststorePath,
     "-Djavax.net.ssl.trustStorePassword=" + auth.truststorePassword]
  }

  /**
   * `nodetoolAuthParameters` (nodetool.go:127-140): user name and password always, and the SSL
   * flags only when a keystore path is set.
   */
  method AuthParameters(auth: CassdcSecrets.CassandraAuth) returns (r: seq<string>)
    ensures |r| >= 4 && r[..4] == ["--username", auth.username, "--password", auth.password]
    ensures auth.keystorePath == "" <==> |r| == 4
    ensures auth.keystorePath != "" ==> r[4..] == SslFlags(auth)
    ensures r == AuthParametersOf(auth)
  {
    r := ["--username", auth.username, "--password", auth.password];
    if auth.keystorePath != "" {
      r := r + ["-Dcom.sun.management.jmxremote.ssl.need.client.auth=true"];
      r := r + ["-Dcom.sun.management.jmxremote.registry.ssl=true"];
      r := r + ["-Djavax.net.ssl.keyStore=" + auth.keystorePath];
      r := r + ["-Djavax.net.ssl.keyStorePassword=" + auth.keystorePassword];
      r := r + ["-Djavax.net.ssl.trustStore=" + auth.truststorePath];
      r := r + ["-Djavax.net.ssl.trustStorePassword=" + auth.truststorePassword];
    }
  }

  /** The auth parameters as a value, for the statements about the assembled command. */
  function AuthParametersOf(auth: CassdcSecrets.CassandraAuth): (r: seq<string>)
    ensures |r| >= 4 && r[..4] == ["--username", auth.username, "--password", auth.password]
    ensures auth.keystorePath == "" <==> |r| == 4
    ensures auth.keystorePath != "" ==> |r| == 10 && r[4..] == SslFlags(auth)
  {
    ["--username", auth.username, "--password", auth.password]
      + (if auth.keystorePath != "" then SslFlags(auth) else [])
  }

  /** The command's options: the target pod, the nodetool parameters and the command to exec. */
  class Options {
    var podName: string
    var params: seq<string>
    var command: seq<string>

    constructor ()
      ensures podName == "" && params == [] && command == []
    {
      podName := "";
      params := [];
      command := [];
    }

    /**
     * `Complete` (nodetool.go:67-96). `execError`, `restError` and `clientError` are the
     * failures of building the exec options, the REST configuration and the client, in that order.
     */
    method Complete(args: seq<string>, execError: Option<string>, restError: Option<string>, clientError: Option<string>)
      returns (err: Option<string>)
      modifies this
      ensures |args| < 2 ==> err == Some(ErrNotEnoughParameters) && unchanged(this)
      ensures |args| >= 2 && execError.Some? ==> err == execError && unchanged(this)
      ensures |args| >= 2 && execError.None? ==> podName == args[0] && command == old(command)
      ensures |args| >= 2 && execError.None? && restError.Some? ==> err == restError && params == old(params)
      ensures |args| >= 2 && execError.None? && restError.None? && clientError.Some? ==> err == clientError && params == old(params)
      ensures err.None? <==> |args| >= 2 && execError.None? && restError.None? && clientError.None?
      ensures err.None? ==> params == args[1..]
    {
      if |args| < 2 {
        return Some(ErrNotEnoughParameters);
      }
      if execError.Some? {
        return execError;
      }
      podName := args[0];
      if restError.Some? {
        return restError;
      }
      if clientError.Some? {
        return clientError;
      }
      params := args[1..];
      return None;
    }

    /**
     * `Run` (nodetool.go:106-125) up to the exec call: `datacenterError` is a failed lookup of
     * the pod's datacenter; `secret` and `config` feed `CassandraAuthDetails`.
     */
    method Run(datacenterError: Option<string>, secret: Result<map<string, string>>, config: Option<Json>)
      returns (outcome: Result<()>)
      modifies this`command
      ensures datacenterError.Some? ==> outcome == Err(datacenterError.value) && command == old(command)
      ensures datacenterError.None? ==>
        var auth := CassdcSecrets.CassandraAuthDetails(secret, config);
        (auth.Ok? ==> outcome == Ok(()) && command == ["nodetool"] + AuthParametersOf(auth.value) + params)
        && (auth.Err? ==> outcome == Err(auth.error) && command == old(command))
        && (auth.Panic? ==> outcome.Panic? && command == old(command))
    {
      if datacenterError.Some? {
        return Err(datacenterError.value);
      }
      var auth := CassdcSecrets.CassandraAuthDetails(secret, config);
      if auth.Err? {
        return Err(auth.error);
      }
      if auth.Panic? {
        return Panic(auth.reason);
      }
      BuildCommand(auth.value);
      outcome := Ok(());
    }

    /** The command line of `Run`: `nodetool`, the credential flags, then the user's parameters. */
    method BuildCommand(auth: CassdcSecrets.CassandraAuth)
      modifies this`command
      ensures command == ["nodetool"] + AuthParametersOf(auth) + params
    {
      command := ["nodetool"];
      var authParameters := AuthParameters(auth);
      command := command + authParameters;
      command := command + params;
    }
  }

  /**
   * The command runs `nodetool` with the credentials first and the user's parameters last,
   * unchanged and in order.
   */
  lemma {:induction false} CommandShape(auth: CassdcSecrets.CassandraAuth, params: seq<string>)
    ensures var c := ["nodetool"] + AuthParametersOf(auth) + params;
      c[0] == "nodetool" && c[1..5] == ["--username", auth.username, "--password", auth.password]
      && c[|c| - |params|..] == params
      && |c| == (if auth.keystorePath == "" then 5 else 11) + |params|
  {
    var a := AuthParametersOf(auth);
    var c := ["nodetool"] + a + params;
    assert c[1..5] == a[..4];
  }

  /** Without a keystore the command carries no SSL flag at all. */
  lemma {:induction false} NoKeystoreNoSsl(auth: CassdcSecrets.CassandraAuth, params: seq<string>)
    requires auth.keystorePath == ""
    ensures ["nodetool"] + AuthParametersOf(auth) + params
      == ["nodetool", "--username", auth.username, "--password", auth.password] + params
  {
  }
}
