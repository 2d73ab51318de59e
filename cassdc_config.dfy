/**
 * Lookups in a CassandraDatacenter's `spec.config` JSON document (pkg/cassdcutil/config.go),
 * which the source reads through the gabs library.
 */
module CassdcConfig {
  import opened Wrappers
  import opened Json
  import GoStrings

  /**
   * A gabs search: each segment selects a key of an object, or an index (written in decimal
   * digits) of a list; anything else is not found. A found JSON null is still found.
   */
  function Search(node: Json, path: seq<string>): (r: Option<Json>)
    ensures path == [] ==> r == Some(node)
    decreases |path|
  {
    if path == [] then Some(node)
    else match node
      case JObject(fields) =>
        if path[0] in fields then Search(fields[path[0]], path[1..]) else None
      case JArray(items) =>
        if |path[0]| > 0 && GoStrings.AllDigits(path[0]) && GoStrings.DecimalValue(path[0]) < |items|
        then Search(items[GoStrings.DecimalValue(path[0])], path[1..])
        else None
      case _ => None
  }

  /** Searching a path is searching its first part, then the rest from where that led. */
  lemma {:induction false} SearchAppend(node: Json, p: seq<string>, q: seq<string>)
    ensures Search(node, p + q) == match Search(node, p) case None => None case Some(n) => Search(n, q)
    decreases |p|
  {
    if p == [] {
      assert p + q == q;
    } else {
      assert (p + q)[0] == p[0] && (p + q)[1..] == p[1..] + q;
      match node
      case JObject(fields) =>
        if p[0] in fields {
          SearchAppend(fields[p[0]], p[1..], q);
        }
      case JArray(items) =>
        if |p[0]| > 0 && GoStrings.AllDigits(p[0]) && GoStrings.DecimalValue(p[0]) < |items| {
          SearchAppend(items[GoStrings.DecimalValue(p[0])], p[1..], q);
        }
      case _ =>
    }
  }

  /**
   * gabs `Path`: a dotted path, split at every '.'. The "~1" and "~0" escapes that gabs decodes
   * in a segment are not modelled; the paths looked up here hold neither.
   */
  function DotPath(path: string): seq<string>
  {
    GoStrings.Split(path, '.')
  }

  predicate IsBool(v: Option<Json>)
  {
    v.Some? && v.value.JBool?
  }

  /**
   * `ClientEncryptionEnabled` (config.go:8-21). `config` is the parsed `spec.config`, `None`
   * when it does not parse. The `.(bool)` assertion on the `enabled` field panics when the
   * section exists but its `enabled` field is missing or not a boolean.
   */
  function ClientEncryptionEnabled(config: Option<Json>): (r: Result<bool>)
    ensures config.None? ==> r == Ok(false)
    ensures config.Some? && Search(config.value, ["cassandra-yaml", "client_encryption_options"]).None? ==> r == Ok(false)
    ensures r == Ok(true) <==> (config.Some?
      && Search(config.value, ["cassandra-yaml", "client_encryption_options", "enabled"]) == Some(JBool(true)))
    ensures r.Panic? <==> (config.Some?
      && Search(config.value, ["cassandra-yaml", "client_encryption_options"]).Some?
      && !IsBool(Search(config.value, ["cassandra-yaml", "client_encryption_options", "enabled"])))
    ensures !r.Err?
  {
    match config
    case None => Ok(false)
    case Some(doc) =>
      if Search(doc, ["cassandra-yaml", "client_encryption_options"]).None? then Ok(false)
      else
        // `Path("cassandra-yaml.client_encryption_options.enabled")`, split at each '.'
        var enabled := Search(doc, ["cassandra-yaml", "client_encryption_options", "enabled"]);
        SearchAppend(doc, ["cassandra-yaml", "client_encryption_options"], ["enabled"]);
        match enabled
        case Some(JBool(b)) => Ok(b)
        case _ => Panic("interface conversion: interface {} is not bool")
  }

  /**
   * `SubSectionOfCassYaml` (config.go:23-35): the children of `cassandra-yaml.<section>`, or
   * an empty map when the document does not parse, has no `cassandra-yaml`, or the section is
   * missing or not an object.
   */
  function SubSectionOfCassYaml(config: Option<Json>, section: string): (r: map<string, Json>)
    ensures config.None? ==> r == map[]
    ensures config.Some? && Search(config.value, ["cassandra-yaml"]).None? ==> r == map[]
    ensures config.Some? ==>
      match Search(config.value, ["cassandra-yaml"] + DotPath(section))
      case Some(JObject(fields)) => r == fields
      case _ => r == map[]
  {
    match config
    case None => map[]
    case Some(doc) =>
      match Search(doc, ["cassandra-yaml"])
      case None => map[]
      case Some(yaml) =>
        SearchAppend(doc, ["cassandra-yaml"], DotPath(section));
        match Search(yaml, DotPath(section))
        case Some(JObject(fields)) => fields
        case _ => map[]
  }
}
