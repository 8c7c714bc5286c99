/** The daemon's configuration, passed as one immutable value, with the small
    pure rules around it: which source a secret comes from, the record's
    fully-qualified name, and the authentication headers of every API call. */
module Settings {
  import opened Strings

  /** Everything the core reads from the environment once at start-up. */
  datatype Config = Config(
    apiKey: Option<string>,        // API_KEY (or the content of API_KEY_FILE)
    zone: Option<string>,          // ZONE (or ZONE_FILE)
    subdomain: Option<string>,     // SUBDOMAIN (or SUBDOMAIN_FILE)
    email: Option<string>,         // EMAIL: selects key + email authentication
    rrtype: string,                // RRTYPE, "A" by default
    proxied: bool,                 // PROXIED
    customCommand: Option<string>  // CUSTOM_LOOKUP_CMD
  )

  /** `load_from_file`: the stripped content of the file at `path` when a path
      is given and names a regular file, `None` otherwise. The file system is
      the map from path to content. */
  function LoadFromFile(path: Option<string>, files: map<string, string>): (v: Option<string>)
    ensures v.Some? <==> Truthy(path) && path.value in files
    ensures v.Some? ==> v.value == Strip(files[path.value], Whitespace)
  {
    if Truthy(path) && path.value in files then Some(Strip(files[path.value], Whitespace)) else None
  }

  /** The path names an existing file whose stripped content is not blank. */
  predicate SecretInFile(path: Option<string>, files: map<string, string>) {
    Truthy(path) && path.value in files && Strip(files[path.value], Whitespace) != []
  }

  /** `load_from_file(os.getenv(X_FILE)) or os.getenv(X)`: the secret file wins
      when it yields a non-empty value; an absent, unreadable or blank file
      falls back to the plain environment variable. */
  function FileOrEnv(path: Option<string>, files: map<string, string>, env: Option<string>): (v: Option<string>)
    ensures SecretInFile(path, files) ==> v == Some(Strip(files[path.value], Whitespace))
    ensures !SecretInFile(path, files) ==> v == env
  {
    var fromFile := LoadFromFile(path, files);
    if Truthy(fromFile) then fromFile else env
  }

  /** `get_dns_name`: the record's fully-qualified name. */
  function DnsName(zone: string, subdomain: Option<string>): (name: string)
    ensures |name| >= |zone| && name[|name| - |zone|..] == zone
    ensures Truthy(subdomain) ==> |name| > |subdomain.value| && name[..|subdomain.value|] == subdomain.value
    ensures Truthy(subdomain) ==> |name| == |subdomain.value| + 1 + |zone| && name[|subdomain.value|] == '.'
    ensures !Truthy(subdomain) ==> name == zone
  {
    if Truthy(subdomain) then subdomain.value + "." + zone else zone
  }

  /** The inverse of `DnsName` for a known zone: the subdomain part, if any. */
  function SplitName(name: string, zone: string): (subdomain: Option<string>)
    requires |name| >= |zone|
  {
    if |name| == |zone| || |name| == |zone| + 1 then None
    else Some(name[..|name| - |zone| - 1])
  }

  /** The subdomain as `get_dns_name` sees it: an empty one counts as none. */
  function Normal(subdomain: Option<string>): (o: Option<string>)
  {
    if Truthy(subdomain) then subdomain else None
  }

  /** Composing the name and splitting it again recovers the subdomain, so
      two configurations with the same zone name the same record exactly when
      their subdomains agree. */
  lemma DnsNameRoundTrip(zone: string, subdomain: Option<string>)
    ensures SplitName(DnsName(zone, subdomain), zone) == Normal(subdomain)
  {
    if Truthy(subdomain) {
      var name := DnsName(zone, subdomain);
      assert name[..|name| - |zone| - 1] == subdomain.value;
    }
  }

  lemma DnsNameInjective(zone: string, s1: Option<string>, s2: Option<string>)
    ensures DnsName(zone, s1) == DnsName(zone, s2) <==> Normal(s1) == Normal(s2)
  {
    DnsNameRoundTrip(zone, s1);
    DnsNameRoundTrip(zone, s2);
  }

  /** `get_headers`: a JSON content type plus exactly one authentication
      scheme: key and email when an email is configured, a bearer token
      otherwise. A missing API key is sent as the empty string. */
  method Headers(email: Option<string>, apiKey: Option<string>) returns (h: map<string, string>)
    ensures "Content-Type" in h && h["Content-Type"] == "application/json"
    ensures ("Authorization" in h) != ("X-Auth-Key" in h)
    ensures Truthy(email) ==>
      && h.Keys == {"Content-Type", "X-Auth-Email", "X-Auth-Key"}
      && h["X-Auth-Email"] == email.value
      && h["X-Auth-Key"] == OrEmpty(apiKey)
    ensures !Truthy(email) ==>
      && h.Keys == {"Content-Type", "Authorization"}
      && h["Authorization"] == "Bearer " + OrEmpty(apiKey)
  {
    h := map["Content-Type" := "application/json"];
    if Truthy(email) {
      h := h["X-Auth-Email" := email.value];
      h := h["X-Auth-Key" := OrEmpty(apiKey)];
    } else {
      h := h["Authorization" := "Bearer " + OrEmpty(apiKey)];
    }
  }
}
