/**
 * The superuser credentials of a datacenter (pkg/cassdcutil/secrets.go): user name and password
 * from the superuser secret and, when client encryption is on, the keystore and truststore
 * settings from `cassandra-yaml.client_encryption_options`.
 */
module CassdcSecrets {
  import opened Wrappers
  import opened Json
  import GoStrings
  import CassdcConfig

  datatype CassandraAuth = CassandraAuth(
    username: string,
    password: string,
    keystorePath: string,
    keystorePassword: string,
    truststorePath: string,
    truststorePassword: string)

  /** `string(secret.Data[key])`: a missing key reads as an empty byte slice. */
  function SecretString(data: map<string, string>, key: string): string
  {
    if key in data then data[key] else ""
  }

  /** `strings.TrimSpace(options[key].Data().(string))`; the assertion panics on a missing or non-string value. */
  function TrimmedOption(options: map<string, Json>, key: string): (r: Result<string>)
    ensures r.Ok? <==> key in options && options[key].JString?
    ensures r.Ok? ==> r.value == GoStrings.TrimSpace(options[key].s)
    ensures !r.Err?
  {
    if key in options && options[key].JString? then Ok(GoStrings.TrimSpace(options[key].s))
    else Panic("interface conversion: interface {} is not string")
  }

  predicate HasStringOption(options: map<string, Json>, key: string)
  {
    key in options && options[key].JString?
  }

  /**
   * `CassandraAuthDetails` (secrets.go:23-43). `secret` is the outcome of fetching the superuser
   * secret (its data, values as strings) and `config` the parsed `spec.config` (`None` when it
   * does not parse).
   */
  function CassandraAuthDetails(secret: Result<map<string, string>>, config: Option<Json>): (r: Result<CassandraAuth>)
    ensures secret.Err? ==> r == Err(secret.error)
    ensures r.Ok? ==> (secret.Ok?
      && r.value.username == SecretString(secret.value, "username")
      && r.value.password == SecretString(secret.value, "password"))
    ensures secret.Ok? && CassdcConfig.ClientEncryptionEnabled(config) == Ok(false) ==>
      (r.Ok? && r.value.keystorePath == "" && r.value.keystorePassword == ""
      && r.value.truststorePath == "" && r.value.truststorePassword == "")
    ensures secret.Ok? && CassdcConfig.ClientEncryptionEnabled(config) == Ok(true) ==>
      var options := CassdcConfig.SubSectionOfCassYaml(config, "client_encryption_options");
      if HasStringOption(options, "keystore") && HasStringOption(options, "keystore_password")
        && HasStringOption(options, "truststore") && HasStringOption(options, "truststore_password")
      then r.Ok?
        && r.value.keystorePath == GoStrings.TrimSpace(options["keystore"].s)
        && r.value.keystorePassword == GoStrings.TrimSpace(options["keystore_password"].s)
        && r.value.truststorePath == GoStrings.TrimSpace(options["truststore"].s)
        && r.value.truststorePassword == GoStrings.TrimSpace(options["truststore_password"].s)
      else r.Panic?
  {
    match secret
    case Err(e) => Err(e)
    case Panic(p) => Panic(p)
    case Ok(data) =>
      var auth := CassandraAuth(SecretString(data, "username"), SecretString(data, "password"), "", "", "", "");
      match CassdcConfig.ClientEncryptionEnabled(config)
      case Panic(p) => Panic(p)
      case Err(e) => Err(e)
      case Ok(enabled) =>
        if !enabled then Ok(auth)
        else
          var options := CassdcConfig.SubSectionOfCassYaml(config, "client_encryption_options");
          match TrimmedOption(options, "keystore")
          case Ok(keystore) => (
            match TrimmedOption(options, "keystore_password")
            case Ok(keystorePassword) => (
              match TrimmedOption(options, "truststore")
              case Ok(truststore) => (
                match TrimmedOption(options, "truststore_password")
                case Ok(truststorePassword) =>
                  Ok(auth.(keystorePath := keystore, keystorePassword := keystorePassword,
                           truststorePath := truststore, truststorePassword := truststorePassword))
                case _ => Panic("interface conversion: interface {} is not string"))
              case _ => Panic("interface conversion: interface {} is not string"))
            case _ => Panic("interface conversion: interface {} is not string"))
          case _ => Panic("interface conversion: interface {} is not string")
  }
}
