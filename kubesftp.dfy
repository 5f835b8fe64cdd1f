/**
 * The ssh parameter selection of internal/kubesftp/kubesftp.go: which remote
 * file to open, where to connect, as whom, and with which key. The per-host
 * ssh_config lookup and the private-key parser are foreign libraries and
 * arrive as functions; the home directory and the local files as values.
 */
module KubeSftp {
  import opened Wrappers
  import opened Strings
  import opened Fs
  import opened Urls

  /** The key used when ssh_config names none of its own. */
  const DefaultKeyPath: string := "~/.ssh/id_rsa"

  /** The IdentityFile the ssh_config library reports when a host configures none. */
  const LibraryDefaultIdentity: string := "~/.ssh/identity"

  /** ssh_config.Get(host, key): the configured value, or the library's default for that key. */
  type Lookup = (string, string) -> string

  // ----- The remote file name (GetFile) -----

  /**
   * The file GetFile opens over sftp: the URL path without its first three
   * characters when it starts with "/./" (relative to the login directory)
   * or "/~/" (the home directory); the empty name otherwise, so a plain
   * absolute path such as "/etc/kubeconfig" names no file at all.
   */
  function RemoteFileName(path: string): (name: string)
    ensures name != "" ==> (HasPrefix(path, "/./") || HasPrefix(path, "/~/")) && path == path[..3] + name
    ensures !HasPrefix(path, "/./") && !HasPrefix(path, "/~/") ==> name == ""
  {
    if HasPrefix(path, "/./") || HasPrefix(path, "/~/") then path[3..] else ""
  }

  /** Both prefixes are stripped exactly, whatever follows them. */
  lemma RemoteFileNameStrips(file: string)
    ensures RemoteFileName("/./" + file) == file
    ensures RemoteFileName("/~/" + file) == file
  {
    assert ("/./" + file)[..3] == "/./" && ("/./" + file)[3..] == file;
    assert ("/~/" + file)[..3] == "/~/" && ("/~/" + file)[3..] == file;
  }

  // ----- The connect string (loadSshConfig) -----

  /**
   * The dial address as loadSshConfig builds it: "host:port" with the
   * configured port, but only when the host has no ':' of its own;
   * otherwise the address is left empty.
   */
  function ConnectString(host: string, lookup: Lookup): (c: string)
    ensures c != "" <==> ':' !in host
    ensures c != "" ==> c == host + ":" + lookup(host, "Port")
  {
    SplitSingle(host, ':');
    if |Split(host, ':')| < 2 then host + ":" + lookup(host, "Port") else ""
  }

  /** A host that carries its port, as in the URL "ssh://centos@10.0.0.1:2222/./.kube.config", gets no address. */
  lemma ConnectStringDropsExplicitPort(lookup: Lookup)
    ensures ConnectString("10.0.0.1:2222", lookup) == ""
  {
    assert "10.0.0.1:2222"[8] == ':';
  }

  /**
   * The address evidently intended: the host as given when it contains ':'
   * (the code's own test for "already has a port"), and the host with its
   * configured port otherwise.
   */
  function IntendedConnectString(host: string, lookup: Lookup): (c: string)
    ensures ':' in host ==> c == host
    ensures ':' !in host ==> c == ConnectString(host, lookup)
  {
    SplitSingle(host, ':');
    if |Split(host, ':')| < 2 then host + ":" + lookup(host, "Port") else host
  }

  /** The intended address is never empty, and agrees with the written one wherever that one is set. */
  lemma IntendedConnectStringSound(host: string, lookup: Lookup)
    ensures IntendedConnectString(host, lookup) != ""
    ensures ConnectString(host, lookup) != "" ==>
      IntendedConnectString(host, lookup) == ConnectString(host, lookup)
  {
    if ':' in host {
      assert |host| > 0;
    }
  }

  // ----- User and key selection -----

  /** The IdentityFile setting, with the library's own default replaced by id_rsa; any other value is kept. */
  function KeyPath(configured: string): (p: string)
    ensures p != LibraryDefaultIdentity
    ensures configured == LibraryDefaultIdentity ==> p == DefaultKeyPath
    ensures configured != LibraryDefaultIdentity ==> p == configured
  {
    if configured == LibraryDefaultIdentity then DefaultKeyPath else configured
  }

  /** An ssh.AuthMethod made from a parsed private key; only the key bytes are kept. */
  datatype AuthMethod = PublicKeys(key: Bytes)

  datatype KeyError =
    | NoHome                    // the path starts with "~/" and no home directory is known
    | Unreadable(path: string)  // the (expanded) key file cannot be read
    | Unparseable(path: string) // the file is not a private key

  /**
   * publicKey: expand "~/" against the home directory, read the file, parse
   * it as a private key. `parsesKey` stands for ssh.ParsePrivateKey succeeding.
   */
  function PublicKey(path: string, home: Option<string>, files: map<string, Bytes>, parsesKey: Bytes -> bool)
    : (r: Result<AuthMethod, KeyError>)
    ensures r == Failure(NoHome) <==> HasPrefix(path, "~/") && home.None?
    ensures r.Success? <==>
      ExpandHome(path, home).Some? && ExpandHome(path, home).value in files &&
      parsesKey(files[ExpandHome(path, home).value])
    ensures r.Success? ==> r.value == PublicKeys(files[ExpandHome(path, home).value])
    ensures r.Failure? && r.error.Unreadable? ==>
      ExpandHome(path, home) == Some(r.error.path) && r.error.path !in files
  {
    match ExpandHome(path, home)
    case None => Failure(NoHome)
    case Some(expanded) =>
      if expanded !in files then Failure(Unreadable(expanded))
      else if !parsesKey(files[expanded]) then Failure(Unparseable(expanded))
      else Success(PublicKeys(files[expanded]))
  }

  // ----- loadSshConfig -----

  /** The ssh.ClientConfig loadSshConfig builds: host keys are never checked, and dialing gives up after 5 seconds. */
  datatype ClientConfig = ClientConfig(
    user: string,
    auth: seq<AuthMethod>,
    ignoreHostKey: bool,
    timeoutSeconds: nat)

  /** The three results of loadSshConfig. */
  datatype SshSetup = SshSetup(connect: string, config: Option<ClientConfig>, err: Option<KeyError>)

  /** What loadSshConfig consults besides the URL. */
  datatype SshEnv = SshEnv(
    lookup: Lookup,
    home: Option<string>,
    files: map<string, Bytes>,
    parsesKey: Bytes -> bool)

  function KeyFor(u: Url, env: SshEnv): Result<AuthMethod, KeyError> {
    PublicKey(KeyPath(env.lookup(u.host, "IdentityFile")), env.home, env.files, env.parsesKey)
  }

  /**
   * loadSshConfig: the connect string, the user (the URL's own user wins
   * over the configured User), and the key named by IdentityFile. A key
   * that cannot be loaded voids the whole result. The connect string is the
   * corrected one (IntendedConnectString); see README, Findings.
   */
  function LoadSshConfig(u: Url, env: SshEnv): (s: SshSetup)
    ensures s.err.None? <==> KeyFor(u, env).Success?
    ensures s.err.Some? ==> s.connect == "" && s.config.None? && s.err == Some(KeyFor(u, env).error)
    ensures s.err.None? ==>
      && s.connect == IntendedConnectString(u.host, env.lookup)
      && s.connect != ""
      && s.config.Some?
      && s.config.value.auth == [KeyFor(u, env).value]
      && (u.user != "" ==> s.config.value.user == u.user)
      && (u.user == "" ==> s.config.value.user == env.lookup(u.host, "User"))
      && s.config.value.ignoreHostKey && s.config.value.timeoutSeconds == 5
  {
    var connect := IntendedConnectString(u.host, env.lookup);
    IntendedConnectStringSound(u.host, env.lookup);
    var username := if u.user != "" then u.user else env.lookup(u.host, "User");
    match KeyFor(u, env)
    case Failure(e) => SshSetup("", None, Some(e))
    case Success(key) => SshSetup(connect, Some(ClientConfig(username, [key], true, 5)), None)
  }

  /** When the host configures no IdentityFile, the key loaded is id_rsa under the home directory. */
  lemma LoadSshConfigDefaultKey(u: Url, env: SshEnv, home: string)
    requires env.lookup(u.host, "IdentityFile") == LibraryDefaultIdentity
    requires env.home == Some(home)
    ensures KeyFor(u, env) == PublicKey("~/.ssh/id_rsa", Some(home), env.files, env.parsesKey)
    ensures ExpandHome(KeyPath(env.lookup(u.host, "IdentityFile")), env.home) == Some(JoinPath(home, ".ssh/id_rsa"))
  {
    ExpandHomeJoins(".ssh/id_rsa", home);
    assert "~/" + ".ssh/id_rsa" == DefaultKeyPath;
  }
}
