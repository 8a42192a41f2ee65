/**
 * The secure-shell backend's two policies (`Itamae::Backend::Ssh`):
 * the connection options handed to the SSH client library (`ssh_options`),
 * and whether commands are kept from running under sudo (`disable_sudo?`).
 * The host-alias configuration lookup (`Net::SSH::Config.for`) and the login
 * name of the local user (`Etc.getlogin`) are parameters.
 */
module Ssh {
  import opened Wrappers

  /** A Ruby value as it can appear in an options hash. */
  datatype Value =
    | Nil
    | Bool(b: bool)
    | Int(i: int)
    | Str(s: string)
    | List(items: seq<Value>)

  /** An options hash, keyed by the names of its symbols (`:host_name` is "host_name"). */
  type Options = map<string, Value>

  /** A host-alias configuration lookup: the options the SSH configuration gives a host. */
  type ConfigLookup = string -> Options

  /** Ruby truthiness: only `nil` and `false` are false. */
  predicate Truthy(v: Value) {
    v != Nil && v != Bool(false)
  }

  /** `Hash#[]`: a missing key reads as `nil`. */
  function Get(opts: Options, key: string): (v: Value) {
    if key in opts then opts[key] else Nil
  }

  /** Ruby's `a || b`: `a` when it is truthy, otherwise `b`. */
  function Or(a: Value, b: Value): (r: Value)
    ensures Truthy(a) ==> r == a
    ensures !Truthy(a) ==> r == b
  {
    match a
    case Nil => b
    case Bool(false) => b
    case _ => a
  }

  /** The value of `Etc.getlogin`: the login name, or `nil` when there is none. */
  function LoginValue(login: Option<string>): (v: Value) {
    match login
    case Some(name) => Str(name)
    case None => Nil
  }

  /**
   * The resolved connection options of a backend created with `{host: host}`:
   * the configuration's entries for `host` over `{host_name: nil}`, `user`
   * defaulted to the login name, and `host_name` finally forced to `host`.
   */
  function SshOptions(host: string, config: ConfigLookup, login: Option<string>): (r: Options)
    ensures r.Keys == config(host).Keys + {"host_name", "user"}
    ensures r["host_name"] == Str(host)
    ensures "user" in config(host) && Truthy(config(host)["user"]) ==> r["user"] == config(host)["user"]
    ensures !("user" in config(host) && Truthy(config(host)["user"])) ==> r["user"] == LoginValue(login)
    ensures forall k :: k in config(host) && k != "host_name" && k != "user" ==> r[k] == config(host)[k]
  {
    var merged := map["host_name" := Nil] + config(host);
    var withUser := merged["user" := Or(Get(merged, "user"), LoginValue(login))];
    withUser + map["host_name" := Str(host)]
  }

  /**
   * The expected value the test builds by updating a hash in place. Before
   * `host_name` is forced it already holds every configuration entry, a
   * `host_name` (the configuration's, or `nil`) and a `user`; forcing
   * `host_name` on it gives exactly `SshOptions`.
   */
  method DefaultOption(host: string, config: ConfigLookup, login: Option<string>) returns (opts: Options)
    ensures opts.Keys == config(host).Keys + {"host_name", "user"}
    ensures opts["host_name"] == Get(config(host), "host_name")
    ensures forall k :: k in config(host) && k != "user" ==> opts[k] == config(host)[k]
    ensures opts["user"] == Or(Get(config(host), "user"), LoginValue(login))
    ensures opts + map["host_name" := Str(host)] == SshOptions(host, config, login)
  {
    opts := map[];
    opts := opts["host_name" := Nil];
    opts := opts + config(host);
    opts := opts["user" := Or(Get(opts, "user"), LoginValue(login))];
  }

  /**
   * The resolved options depend on the configuration only through its entry
   * for the backend's own host.
   */
  lemma SshOptionsReadsOnlyOwnHost(host: string, c1: ConfigLookup, c2: ConfigLookup, login: Option<string>)
    requires c1(host) == c2(host)
    ensures SshOptions(host, c1, login) == SshOptions(host, c2, login)
  {
  }

  /** The `#ssh_options` context of the test, for any configuration and login. */
  lemma SshOptionsExample(config: ConfigLookup, login: Option<string>)
    ensures "host_name" in SshOptions("example.com", config, login)
    ensures "user" in SshOptions("example.com", config, login)
    ensures SshOptions("example.com", config, login)["host_name"] == Str("example.com")
  {
  }

  /**
   * `Ssh#disable_sudo?`: the negation of the `sudo` option, for the boolean
   * values the option is given.
   */
  function DisableSudo(options: Options): (r: bool)
    requires "sudo" in options && options["sudo"].Bool?
    ensures r <==> options["sudo"] == Bool(false)
    ensures r <==> !Truthy(options["sudo"])
  {
    !options["sudo"].b
  }

  /** The policy reads no option but `sudo`. */
  lemma DisableSudoReadsOnlySudo(o1: Options, o2: Options)
    requires "sudo" in o1 && o1["sudo"].Bool?
    requires "sudo" in o2 && o2["sudo"] == o1["sudo"]
    ensures DisableSudo(o1) == DisableSudo(o2)
  {
  }

  /** The two `#disable_sudo?` contexts of the test. */
  lemma DisableSudoExamples()
    ensures DisableSudo(map["sudo" := Bool(true)]) == false
    ensures DisableSudo(map["sudo" := Bool(false)]) == true
  {
  }
}
