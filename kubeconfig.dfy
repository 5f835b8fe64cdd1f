/**
 * The kubeconfig merge engine (internal/kubeconfig/kubeconfig.go): a document
 * holds three keyed tables (contexts, clusters, auth entries) and a current
 * context; the current context of a source document is copied into the
 * destination under label-qualified names, with optional endpoint rewrites,
 * and the destination is written back after a timestamped backup.
 */
module Kubeconfig {
  import opened Wrappers
  import opened Strings
  import opened Fs
  import opened Urls
  import Cfg

  /** A cluster entry; fields of clientcmd's Cluster the core never reads are left out. */
  datatype Cluster = Cluster(
    server: string,
    certificateAuthority: string,
    certificateAuthorityData: Option<Bytes>,  // None is Go's nil slice
    insecureSkipTlsVerify: bool)

  /** An auth entry: copied verbatim, never inspected. */
  datatype AuthInfo = AuthInfo(credentials: Bytes)

  datatype Context = Context(cluster: string, authInfo: string, namespace: string)

  /** The value of a clientcmd Config: the three tables and the current-context name. */
  datatype Document = Document(
    currentContext: string,
    contexts: map<string, Context>,
    clusters: map<string, Cluster>,
    authInfos: map<string, AuthInfo>)

  /** Every context names a cluster that exists. */
  predicate ClustersResolve(d: Document) {
    forall n :: n in d.contexts ==> d.contexts[n].cluster in d.clusters
  }

  /** Every context names an auth entry that exists. */
  predicate AuthInfosResolve(d: Document) {
    forall n :: n in d.contexts ==> d.contexts[n].authInfo in d.authInfos
  }

  /** The referential invariant of a document. */
  predicate Closed(d: Document) {
    ClustersResolve(d) && AuthInfosResolve(d)
  }

  // ----- Translated names -----

  /** `name@label`, the name an entry receives in the destination. */
  function Translate(name: string, labelName: string): (t: string)
    ensures HasPrefix(t, name)
    ensures HasSuffix(t, "@" + labelName)
  {
    assert (name + "@" + labelName)[..|name|] == name;
    assert (name + "@" + labelName)[|name|..] == "@" + labelName;
    name + "@" + labelName
  }

  /** With labels free of '@', a translated name determines both its original name and its label. */
  lemma TranslateInjective(n1: string, l1: string, n2: string, l2: string)
    requires '@' !in l1 && '@' !in l2
    requires Translate(n1, l1) == Translate(n2, l2)
    ensures n1 == n2 && l1 == l2
  {
    var s := Translate(n1, l1);
    assert s == n1 + "@" + l1 && s == n2 + "@" + l2;
    assert |n1| + |l1| == |n2| + |l2|;
    // the '@' after either name is the last one in s, since no label holds one
    assert forall j :: |n1| < j < |s| ==> s[j] == l1[j - |n1| - 1];
    assert forall j :: |n2| < j < |s| ==> s[j] == l2[j - |n2| - 1];
    assert s[|n1|] == '@' && s[|n2|] == '@';
    assert n1 == s[..|n1|] == n2;
    assert l1 == s[|n1| + 1..] == l2;
  }

  /** A label containing '@' can make two different entries collide. */
  lemma TranslateCollides()
    ensures Translate("prod@a", "b") == Translate("prod", "a@b")
  {
  }

  // ----- CopyCurrentContext as a function of documents -----

  datatype CopyError =
    | NoCurrentContext
    | ContextNotFound
    | EmptyClusterName
    | EmptyAuthName
    | ClusterNotFound
    | AuthNotFound

  /** The source's current context and the cluster and auth entry it names all exist. */
  predicate Resolvable(src: Document) {
    && src.currentContext != ""
    && src.currentContext in src.contexts
    && src.contexts[src.currentContext].cluster != ""
    && src.contexts[src.currentContext].authInfo != ""
    && src.contexts[src.currentContext].cluster in src.clusters
    && src.contexts[src.currentContext].authInfo in src.authInfos
  }

  /** The checks CopyCurrentContext makes before its first write, in their order: the first that fails. */
  function SourceCheck(src: Document): (e: Option<CopyError>)
    ensures e.None? <==> Resolvable(src)
    ensures e == Some(NoCurrentContext) <==> src.currentContext == ""
    ensures e == Some(ContextNotFound) <==>
      src.currentContext != "" && src.currentContext !in src.contexts
    ensures e == Some(EmptyClusterName) <==>
      src.currentContext != "" && src.currentContext in src.contexts &&
      src.contexts[src.currentContext].cluster == ""
  {
    if src.currentContext == "" then Some(NoCurrentContext)
    else if src.currentContext !in src.contexts then Some(ContextNotFound)
    else
      var ctx := src.contexts[src.currentContext];
      if ctx.cluster == "" then Some(EmptyClusterName)
      else if ctx.authInfo == "" then Some(EmptyAuthName)
      else if ctx.cluster !in src.clusters then Some(ClusterNotFound)
      else if ctx.authInfo !in src.authInfos then Some(AuthNotFound)
      else None
  }

  /** The auth, cluster and auth-entry checks, for a source whose current context exists. */
  lemma SourceCheckLater(src: Document)
    requires src.currentContext != "" && src.currentContext in src.contexts
    ensures var ctx := src.contexts[src.currentContext];
      && (SourceCheck(src) == Some(EmptyAuthName) <==> ctx.cluster != "" && ctx.authInfo == "")
      && (SourceCheck(src) == Some(ClusterNotFound) <==>
            ctx.cluster != "" && ctx.authInfo != "" && ctx.cluster !in src.clusters)
      && (SourceCheck(src) == Some(AuthNotFound) <==>
            ctx.cluster != "" && ctx.authInfo != "" && ctx.cluster in src.clusters &&
            ctx.authInfo !in src.authInfos)
  {
  }

  /** The cluster entry after the two endpoint transforms: address rewrite, then insecure downgrade. */
  function Endpoint(c: Cluster, def: Cfg.Source): Cluster {
    var addressed := if def.apiAddress != "" then c.(server := "https://" + def.apiAddress) else c;
    if def.insecure then
      addressed.(certificateAuthority := "", certificateAuthorityData := None, insecureSkipTlsVerify := true)
    else addressed
  }

  /** The destination after copying the source's current context under `labelName`. */
  function Merge(dest: Document, src: Document, labelName: string, def: Cfg.Source): Result<Document, CopyError> {
    match SourceCheck(src)
    case Some(e) => Failure(e)
    case None =>
      var ctx := src.contexts[src.currentContext];
      var tx := Translate(src.currentContext, labelName);
      var tc := Translate(ctx.cluster, labelName);
      var ta := Translate(ctx.authInfo, labelName);
      Success(dest.(
        clusters := dest.clusters[tc := Endpoint(src.clusters[ctx.cluster], def)],
        authInfos := dest.authInfos[ta := src.authInfos[ctx.authInfo]],
        contexts := dest.contexts[tx := ctx.(cluster := tc, authInfo := ta)]))
  }

  /** The successful merge spelled out, for the imperative CopyCurrentContext. */
  lemma MergeValue(dest: Document, src: Document, labelName: string, def: Cfg.Source)
    requires Resolvable(src)
    ensures var ctx := src.contexts[src.currentContext];
      var tc := Translate(ctx.cluster, labelName);
      Merge(dest, src, labelName, def) == Success(Document(
        dest.currentContext,
        dest.contexts[Translate(src.currentContext, labelName) :=
          ctx.(cluster := tc, authInfo := Translate(ctx.authInfo, labelName))],
        dest.clusters[tc := Endpoint(src.clusters[ctx.cluster], def)],
        dest.authInfos[Translate(ctx.authInfo, labelName) := src.authInfos[ctx.authInfo]]))
  {
  }

  /** Merging fails exactly when the source is not resolvable, with the first failing check's error. */
  lemma MergeFailsExactly(dest: Document, src: Document, labelName: string, def: Cfg.Source)
    ensures Merge(dest, src, labelName, def).Failure? <==> !Resolvable(src)
    ensures !Resolvable(src) ==> Merge(dest, src, labelName, def).error == SourceCheck(src).value
  {
  }

  /** The inserted context points at the inserted cluster and auth entry, which hold the source's entries. */
  lemma MergeInsertsTriple(dest: Document, src: Document, labelName: string, def: Cfg.Source)
    requires Resolvable(src)
    ensures var ctx := src.contexts[src.currentContext];
      var tx, tc, ta := Translate(src.currentContext, labelName),
                        Translate(ctx.cluster, labelName), Translate(ctx.authInfo, labelName);
      var d := Merge(dest, src, labelName, def).value;
      && tx in d.contexts && tc in d.clusters && ta in d.authInfos
      && d.contexts[tx] == ctx.(cluster := tc, authInfo := ta)
      && d.contexts[tx].cluster in d.clusters && d.contexts[tx].authInfo in d.authInfos
      && d.authInfos[ta] == src.authInfos[ctx.authInfo]
  {
  }

  /** Only the three translated keys are written; the rest of the destination, current context included, is untouched. */
  lemma MergeFrame(dest: Document, src: Document, labelName: string, def: Cfg.Source)
    requires Resolvable(src)
    ensures var ctx := src.contexts[src.currentContext];
      var tx, tc, ta := Translate(src.currentContext, labelName),
                        Translate(ctx.cluster, labelName), Translate(ctx.authInfo, labelName);
      var d := Merge(dest, src, labelName, def).value;
      && d.currentContext == dest.currentContext
      && d.contexts.Keys == dest.contexts.Keys + {tx}
      && d.clusters.Keys == dest.clusters.Keys + {tc}
      && d.authInfos.Keys == dest.authInfos.Keys + {ta}
      && (forall n :: n in dest.contexts && n != tx ==> d.contexts[n] == dest.contexts[n])
      && (forall n :: n in dest.clusters && n != tc ==> d.clusters[n] == dest.clusters[n])
      && (forall n :: n in dest.authInfos && n != ta ==> d.authInfos[n] == dest.authInfos[n])
  {
  }

  /** The address rewrite sets the server; the insecure downgrade clears the CA and never touches the server. */
  lemma MergeEndpoint(dest: Document, src: Document, labelName: string, def: Cfg.Source)
    requires Resolvable(src)
    ensures var ctx := src.contexts[src.currentContext];
      var c := src.clusters[ctx.cluster];
      var inserted := Merge(dest, src, labelName, def).value.clusters[Translate(ctx.cluster, labelName)];
      && inserted.server == (if def.apiAddress != "" then "https://" + def.apiAddress else c.server)
      && (def.insecure ==>
            inserted.certificateAuthority == "" && inserted.certificateAuthorityData == None &&
            inserted.insecureSkipTlsVerify)
      && (!def.insecure ==>
            inserted.certificateAuthority == c.certificateAuthority &&
            inserted.certificateAuthorityData == c.certificateAuthorityData &&
            inserted.insecureSkipTlsVerify == c.insecureSkipTlsVerify)
  {
  }

  /** Merging the same source under the same label again changes nothing: entries are overwritten, not duplicated. */
  lemma MergeIdempotent(dest: Document, src: Document, labelName: string, def: Cfg.Source)
    requires Resolvable(src)
    ensures Merge(Merge(dest, src, labelName, def).value, src, labelName, def) == Merge(dest, src, labelName, def)
  {
    var once := Merge(dest, src, labelName, def).value;
    var twice := Merge(once, src, labelName, def).value;
    assert twice.contexts == once.contexts;
    assert twice.clusters == once.clusters;
    assert twice.authInfos == once.authInfos;
  }

  /** With distinct labels free of '@', the order in which two sources are merged does not matter. */
  lemma MergeCommutes(dest: Document, s1: Document, l1: string, d1: Cfg.Source,
                      s2: Document, l2: string, d2: Cfg.Source)
    requires '@' !in l1 && '@' !in l2 && l1 != l2
    requires Resolvable(s1) && Resolvable(s2)
    ensures Merge(Merge(dest, s1, l1, d1).value, s2, l2, d2) ==
            Merge(Merge(dest, s2, l2, d2).value, s1, l1, d1)
  {
    var c1, c2 := s1.contexts[s1.currentContext], s2.contexts[s2.currentContext];
    var tx1, tx2 := Translate(s1.currentContext, l1), Translate(s2.currentContext, l2);
    var tc1, tc2 := Translate(c1.cluster, l1), Translate(c2.cluster, l2);
    var ta1, ta2 := Translate(c1.authInfo, l1), Translate(c2.authInfo, l2);
    if tx1 == tx2 { TranslateInjective(s1.currentContext, l1, s2.currentContext, l2); }
    if tc1 == tc2 { TranslateInjective(c1.cluster, l1, c2.cluster, l2); }
    if ta1 == ta2 { TranslateInjective(c1.authInfo, l1, c2.authInfo, l2); }
    var m1, m2 := Merge(dest, s1, l1, d1).value, Merge(dest, s2, l2, d2).value;
    MergeValue(dest, s1, l1, d1);
    MergeValue(dest, s2, l2, d2);
    MergeValue(m1, s2, l2, d2);
    MergeValue(m2, s1, l1, d1);
    UpdatesCommute(dest.contexts, tx1, c1.(cluster := tc1, authInfo := ta1), tx2, c2.(cluster := tc2, authInfo := ta2));
    UpdatesCommute(dest.clusters, tc1, Endpoint(s1.clusters[c1.cluster], d1), tc2, Endpoint(s2.clusters[c2.cluster], d2));
    UpdatesCommute(dest.authInfos, ta1, s1.authInfos[c1.authInfo], ta2, s2.authInfos[c2.authInfo]);
  }

  lemma UpdatesCommute<K, V>(m: map<K, V>, k1: K, v1: V, k2: K, v2: V)
    requires k1 != k2
    ensures m[k1 := v1][k2 := v2] == m[k2 := v2][k1 := v1]
  {
  }

  /** A merge keeps a referentially closed destination closed. */
  lemma MergePreservesClosed(dest: Document, src: Document, labelName: string, def: Cfg.Source)
    requires Closed(dest) && Resolvable(src)
    ensures Closed(Merge(dest, src, labelName, def).value)
  {
    var d := Merge(dest, src, labelName, def).value;
    MergeFrame(dest, src, labelName, def);
    MergeInsertsTriple(dest, src, labelName, def);
    forall n | n in d.contexts
      ensures d.contexts[n].cluster in d.clusters && d.contexts[n].authInfo in d.authInfos
    {
      if n != Translate(src.currentContext, labelName) {
        assert d.contexts[n] == dest.contexts[n];
      }
    }
  }

  // ----- Reading and writing documents -----

  datatype ConfigError =
    | FetchFailed(msg: string)
    | NoHome
    | ReadFailed(io: IoError)
    | DecodeFailed(msg: string)
    | EncodeFailed(msg: string)
    | WriteFailed(io: IoError)

  /**
   * What reading, merging and writing depend on besides the filesystem: the
   * home directory (None when it cannot be determined), the clock in Unix
   * seconds, url.Parse, the remote fetch (kubesftp.GetFile), the kubeconfig
   * codec, whether the environment refuses the backup rename, and how the
   * write ends.
   */
  datatype Env = Env(
    home: Option<string>,
    now: int,
    parseUrl: string -> Option<Url>,
    fetchRemote: Url -> Result<Bytes, string>,
    decode: Bytes -> Result<Document, string>,
    encode: Document -> Result<Bytes, string>,
    renameFails: bool,
    writeFault: WriteFault)

  /** A document is fetched over ssh when the scheme says so or the URL names a host. */
  predicate IsRemote(u: Url) {
    u.scheme == "ssh" || u.host != ""
  }

  /** The bytes ReadConfig obtains: from the remote fetch, or from the (home-expanded) local path. */
  function ReadBytes(u: Url, files: map<string, Bytes>, env: Env): Result<Bytes, ConfigError> {
    if IsRemote(u) then
      match env.fetchRemote(u)
      case Failure(msg) => Failure(FetchFailed(msg))
      case Success(b) => Success(b)
    else
      match ExpandHome(u.path, env.home)
      case None => Failure(NoHome)
      case Some(name) => if name in files then Success(files[name]) else Failure(ReadFailed(NotFound(name)))
  }

  /** The document ReadConfig loads. */
  function LoadDocument(u: Url, files: map<string, Bytes>, env: Env): Result<Document, ConfigError> {
    var bytes :- ReadBytes(u, files, env);
    match env.decode(bytes)
    case Failure(msg) => Failure(DecodeFailed(msg))
    case Success(d) => Success(d)
  }

  /** Where a document's bytes come from: remote exactly for ssh or a host; a `~/` path under home; any other path verbatim. */
  lemma ReadBytesSource(u: Url, files: map<string, Bytes>, env: Env)
    ensures IsRemote(u) <==> u.scheme == "ssh" || u.host != ""
    ensures IsRemote(u) ==> (ReadBytes(u, files, env).Success? <==> env.fetchRemote(u).Success?)
    ensures IsRemote(u) && env.fetchRemote(u).Success? ==> ReadBytes(u, files, env).value == env.fetchRemote(u).value
    ensures !IsRemote(u) && !HasPrefix(u.path, "~/") ==>
      ReadBytes(u, files, env) == (if u.path in files then Success(files[u.path]) else Failure(ReadFailed(NotFound(u.path))))
    ensures !IsRemote(u) && HasPrefix(u.path, "~/") && env.home.Some? ==>
      var name := JoinPath(env.home.value, u.path[2..]);
      ReadBytes(u, files, env) == (if name in files then Success(files[name]) else Failure(ReadFailed(NotFound(name))))
    ensures !IsRemote(u) && HasPrefix(u.path, "~/") && env.home.None? ==> ReadBytes(u, files, env) == Failure(NoHome)
  {
  }

  /** A backup name: the file name, a dot and the Unix seconds. */
  function BackupName(path: string, now: int): (b: string)
    ensures HasPrefix(b, path + ".")
    ensures b[|path| + 1..] == IntToDecimal(now)
  {
    assert (path + "." + IntToDecimal(now))[..|path| + 1] == path + ".";
    path + "." + IntToDecimal(now)
  }

  /** Backups taken at different seconds get different names, and never the name of the file itself. */
  lemma BackupNamesDistinct(path: string, t1: int, t2: int)
    ensures BackupName(path, t1) == BackupName(path, t2) ==> t1 == t2
    ensures BackupName(path, t1) != path
  {
    if BackupName(path, t1) == BackupName(path, t2) {
      IntToDecimalInjective(t1, t2);
    }
    assert |BackupName(path, t1)| > |path|;
  }

  /**
   * The backup name kubeconfig.go builds: the URL path as given, not
   * home-expanded, so a `~/` path keeps its `~/` and names a file relative to
   * the working directory instead of one beside the configuration.
   */
  function WrittenBackupName(path: string, now: int): (b: string)
    ensures HasPrefix(path, "~/") ==> HasPrefix(b, "~/")
    ensures |b| > |path| && b[..|path|] == path
  {
    assert BackupName(path, now)[..|path|] == BackupName(path, now)[..|path| + 1][..|path|];
    BackupName(path, now)
  }

  /**
   * For "~/.kube/config" with home "/root" the file written is
   * "/root/.kube/config" but the backup name is "~/.kube/config.0": outside
   * the home directory and not the name beside the file.
   */
  lemma TildeBackupMisplaced()
    ensures ExpandHome("~/.kube/config", Some("/root")) == Some("/root/.kube/config")
    ensures WrittenBackupName("~/.kube/config", 0) == "~/.kube/config.0"
    ensures !HasPrefix(WrittenBackupName("~/.kube/config", 0), "/root/")
    ensures WrittenBackupName("~/.kube/config", 0) != BackupName("/root/.kube/config", 0)
  {
    ExpandHomeJoins(".kube/config", "/root");
    assert "~/" + ".kube/config" == "~/.kube/config";
    assert JoinPath("/root", ".kube/config") == "/root" + "/" + ".kube/config" == "/root/.kube/config";
    assert IntToDecimal(0) == "0";
    assert WrittenBackupName("~/.kube/config", 0)[0] == '~';
  }

  /** The corrected backup of a `~/` path sits beside the expanded file, under the home directory. */
  lemma TildeBackupUnderHome(rest: string, home: string, now: int)
    requires home != "" && rest != ""
    ensures var fileName := ExpandHome("~/" + rest, Some(home)).value;
      && HasPrefix(BackupName(fileName, now), fileName + ".")
      && HasPrefix(BackupName(fileName, now), home + "/")
  {
    ExpandHomeJoins(rest, home);
    var fileName := home + "/" + rest;
    assert BackupName(fileName, now)[..|home| + 1] == (home + "/" + rest + "." + IntToDecimal(now))[..|home| + 1];
    assert (home + "/" + rest + "." + IntToDecimal(now))[..|home| + 1] == home + "/";
  }

  /**
   * WriteConfig's error and the files afterwards: encode, expand, rename
   * (failure ignored) to the backup beside the expanded file, write.
   */
  function WriteOutcome(path: string, doc: Document, files: map<string, Bytes>, env: Env)
    : (Option<ConfigError>, map<string, Bytes>)
  {
    match env.encode(doc)
    case Failure(msg) => (Some(EncodeFailed(msg)), files)
    case Success(bytes) =>
      match ExpandHome(path, env.home)
      case None => (Some(NoHome), files)
      case Some(fileName) =>
        var moved := if fileName in files && !env.renameFails
                     then Renamed(files, fileName, BackupName(fileName, env.now)) else files;
        var after := Written(moved, fileName, bytes, env.writeFault);
        if env.writeFault == NoFault then (None, after)
        else (Some(WriteFailed(Fault(fileName))), after)
  }

  /** An encoding failure or a missing home directory returns before any file is touched. */
  lemma WriteEarlyErrors(path: string, doc: Document, files: map<string, Bytes>, env: Env)
    requires env.encode(doc).Failure? || ExpandHome(path, env.home).None?
    ensures WriteOutcome(path, doc, files, env).0.Some?
    ensures WriteOutcome(path, doc, files, env).1 == files
  {
  }

  /** A successful write leaves the new bytes at the file, the old contents at the backup, and all else alone. */
  lemma WriteSucceeds(path: string, doc: Document, files: map<string, Bytes>, env: Env)
    requires env.encode(doc).Success? && ExpandHome(path, env.home).Some? && env.writeFault == NoFault
    ensures var fileName, backup := ExpandHome(path, env.home).value, BackupName(ExpandHome(path, env.home).value, env.now);
      var (err, after) := WriteOutcome(path, doc, files, env);
      && err.None?
      && fileName in after && after[fileName] == env.encode(doc).value
      && (fileName in files && !env.renameFails ==>
            backup in after && after[backup] == files[fileName])
      && (forall k :: k != fileName && k != backup ==>
            (k in after <==> k in files) && (k in files ==> after[k] == files[k]))
      && (fileName !in files || env.renameFails ==> after == files[fileName := env.encode(doc).value])
  {
    var fileName, backup := ExpandHome(path, env.home).value, BackupName(ExpandHome(path, env.home).value, env.now);
    BackupNamesDistinct(fileName, env.now, env.now);
    if fileName in files && !env.renameFails {
      RenamedMoves(files, fileName, backup);
    }
  }

  /**
   * A write that fails after the backup rename leaves the old contents only at
   * the backup: nothing under the destination name when the open fails, and
   * a truncated prefix of the new encoding when a write fails.
   */
  lemma WriteFailureLosesFile(path: string, doc: Document, files: map<string, Bytes>, env: Env)
    requires env.encode(doc).Success? && ExpandHome(path, env.home).Some? && env.writeFault != NoFault
    requires var fileName := ExpandHome(path, env.home).value;
      fileName in files && !env.renameFails
    ensures var fileName, backup := ExpandHome(path, env.home).value, BackupName(ExpandHome(path, env.home).value, env.now);
      var (err, after) := WriteOutcome(path, doc, files, env);
      && err == Some(WriteFailed(Fault(fileName)))
      && (env.writeFault == OpenFails ==> fileName !in after)
      && (env.writeFault.WriteFailsAfter? ==>
            fileName in after && |after[fileName]| <= env.writeFault.written &&
            |after[fileName]| <= |env.encode(doc).value| &&
            after[fileName] == env.encode(doc).value[..|after[fileName]|])
      && backup in after && after[backup] == files[fileName]
  {
    var fileName := ExpandHome(path, env.home).value;
    var backup := BackupName(fileName, env.now);
    BackupNamesDistinct(fileName, env.now, env.now);
    RenamedMoves(files, fileName, backup);
    WrittenSpec(Renamed(files, fileName, backup), fileName, env.encode(doc).value, env.writeFault);
  }

  datatype MergeOutcome =
    | Merged
    | Unparsable                      // url.Parse rejected the source
    | Fatal(readError: ConfigError)   // reading the source: log.Fatalf in the Go code
    | NotMerged(copyError: CopyError)
    | NotWritten(writeError: ConfigError)

  /** MergeOne's outcome, the destination afterwards and the files afterwards. */
  function MergeOneOutcome(dest: Document, destPath: string, labelName: string, source: Cfg.Source,
                           files: map<string, Bytes>, env: Env): (MergeOutcome, Document, map<string, Bytes>)
  {
    match env.parseUrl(source.source)
    case None => (Unparsable, dest, files)
    case Some(u) =>
      match LoadDocument(u, files, env)
      case Failure(e) => (Fatal(e), dest, files)
      case Success(src) =>
        match Merge(dest, src, labelName, source)
        case Failure(e) => (NotMerged(e), dest, files)
        case Success(merged) =>
          var (werr, after) := WriteOutcome(destPath, merged, files, env);
          (if werr.None? then Merged else NotWritten(werr.value), merged, after)
  }

  /** MergeOne touches no file unless the copy succeeded, and reports Merged only when the merged document was written. */
  lemma MergeOneWritesOnlyAfterCopy(dest: Document, destPath: string, labelName: string, source: Cfg.Source,
                                    files: map<string, Bytes>, env: Env)
    ensures var (out, doc, after) := MergeOneOutcome(dest, destPath, labelName, source, files, env);
      && (after != files || doc != dest ==>
            exists u :: env.parseUrl(source.source) == Some(u) && LoadDocument(u, files, env).Success? &&
              Merge(dest, LoadDocument(u, files, env).value, labelName, source) == Success(doc))
      && (out == Merged ==>
            env.encode(doc).Success? && ExpandHome(destPath, env.home).Some? &&
            after[ExpandHome(destPath, env.home).value] == env.encode(doc).value)
  {
    var (out, doc, after) := MergeOneOutcome(dest, destPath, labelName, source, files, env);
    if out == Merged {
      WriteSucceeds(destPath, doc, files, env);
    }
  }

  // ----- The in-memory kubeconfig -----

  /**
   * A kubeconfig being read, merged into or written. The three tables of its
   * Config are fields that CopyCurrentContext updates in place; entries are
   * values (the Go code shares pointers with the source, see README).
   */
  class KubeConfig {
    var url: Url
    var currentContext: string
    var contexts: map<string, Context>
    var clusters: map<string, Cluster>
    var authInfos: map<string, AuthInfo>
    var labelName: string
    var srcDef: Cfg.Source

    /** Init: a parsed URL and an empty (zero) Config. */
    constructor (url: Url)
      ensures this.url == url && labelName == ""
      ensures Doc() == Document("", map[], map[], map[])
      ensures srcDef == Cfg.Source("", false, "", false, "")
    {
      this.url := url;
      currentContext := "";
      contexts, clusters, authInfos := map[], map[], map[];
      labelName := "";
      srcDef := Cfg.Source("", false, "", false, "");
    }

    function Doc(): Document
      reads this
    {
      Document(currentContext, contexts, clusters, authInfos)
    }

    /** ReadConfig: fetch or read the bytes, decode them, and replace the Config. */
    method ReadConfig(fs: FileSystem, env: Env) returns (err: Option<ConfigError>)
      modifies this`currentContext, this`contexts, this`clusters, this`authInfos
      ensures var loaded := LoadDocument(url, fs.files, env);
        && (err.None? <==> loaded.Success?)
        && (loaded.Success? ==> Doc() == loaded.value)
        && (loaded.Failure? ==> err == Some(loaded.error) && Doc() == old(Doc()))
    {
      var bytes: Bytes;
      if url.scheme == "ssh" || url.host != "" {
        var fetched := env.fetchRemote(url);
        if fetched.Failure? {
          return Some(FetchFailed(fetched.error));
        }
        bytes := fetched.value;
      } else {
        var fileName := ExpandHome(url.path, env.home);
        if fileName.None? {
          return Some(NoHome);
        }
        var read := fs.Read(fileName.value);
        if read.Failure? {
          return Some(ReadFailed(read.error));
        }
        bytes := read.value;
      }
      var decoded := env.decode(bytes);
      if decoded.Failure? {
        return Some(DecodeFailed(decoded.error));
      }
      var d := decoded.value;
      currentContext, contexts, clusters, authInfos := d.currentContext, d.contexts, d.clusters, d.authInfos;
      return None;
    }

    /** WriteConfig: encode, back the old file up beside itself (errors ignored), then write. */
    method WriteConfig(fs: FileSystem, env: Env) returns (err: Option<ConfigError>)
      modifies fs
      ensures (err, fs.files) == WriteOutcome(url.path, Doc(), old(fs.files), env)
    {
      var encoded := env.encode(Doc());
      if encoded.Failure? {
        return Some(EncodeFailed(encoded.error));
      }
      var fileName := ExpandHome(url.path, env.home);
      if fileName.None? {
        return Some(NoHome);
      }
      var backupFileName := BackupName(fileName.value, env.now);
      var ignored := fs.Rename(fileName.value, backupFileName, env.renameFails);
      var werr := fs.WriteFile(fileName.value, encoded.value, env.writeFault);
      if werr.Some? {
        return Some(WriteFailed(werr.value));
      }
      return None;
    }

    /**
     * CopyCurrentContext: check the source, then write the cluster, the auth
     * entry and the context under their translated names, repoint the
     * context, and rewrite the new cluster's endpoint.
     */
    method CopyCurrentContext(from: KubeConfig) returns (err: Option<CopyError>)
      modifies this`contexts, this`clusters, this`authInfos
      ensures err == SourceCheck(old(from.Doc()))
      ensures err.Some? ==> Doc() == old(Doc())
      ensures err.None? ==>
        Doc() == Merge(old(Doc()), old(from.Doc()), old(from.labelName), old(from.srcDef)).value
    {
      var name := from.currentContext;
      if name == "" {
        return Some(NoCurrentContext);
      }
      if name !in from.contexts {
        return Some(ContextNotFound);
      }
      var ctx := from.contexts[name];
      if ctx.cluster == "" {
        return Some(EmptyClusterName);
      }
      if ctx.authInfo == "" {
        return Some(EmptyAuthName);
      }
      if ctx.cluster !in from.clusters {
        return Some(ClusterNotFound);
      }
      if ctx.authInfo !in from.authInfos {
        return Some(AuthNotFound);
      }
      ghost var dest := Doc();
      var src := from.Doc();
      var def := from.srcDef;
      MergeValue(dest, src, from.labelName, def);

      var translatedContext := Translate(name, from.labelName);
      var translatedCluster := Translate(ctx.cluster, from.labelName);
      var translatedAuth := Translate(ctx.authInfo, from.labelName);

      var newClusters := clusters[translatedCluster := src.clusters[ctx.cluster]];
      var newAuthInfos := authInfos[translatedAuth := src.authInfos[ctx.authInfo]];
      var newContexts := contexts[translatedContext := src.contexts[name]];

      newContexts := newContexts[translatedContext := newContexts[translatedContext].(cluster := translatedCluster)];
      newContexts := newContexts[translatedContext := newContexts[translatedContext].(authInfo := translatedAuth)];
      assert newContexts == dest.contexts[translatedContext := ctx.(cluster := translatedCluster, authInfo := translatedAuth)];

      ghost var copied := src.clusters[ctx.cluster];
      if def.apiAddress != "" {
        newClusters := newClusters[translatedCluster :=
          newClusters[translatedCluster].(server := "https://" + def.apiAddress)];
        copied := copied.(server := "https://" + def.apiAddress);
      }
      assert newClusters == dest.clusters[translatedCluster := copied];
      if def.insecure {
        newClusters := newClusters[translatedCluster := newClusters[translatedCluster].(certificateAuthority := "")];
        newClusters := newClusters[translatedCluster := newClusters[translatedCluster].(certificateAuthorityData := None)];
        newClusters := newClusters[translatedCluster := newClusters[translatedCluster].(insecureSkipTlsVerify := true)];
        copied := copied.(certificateAuthority := "", certificateAuthorityData := None, insecureSkipTlsVerify := true);
      }
      assert copied == Endpoint(src.clusters[ctx.cluster], def);
      assert newClusters == dest.clusters[translatedCluster := copied];

      clusters, authInfos, contexts := newClusters, newAuthInfos, newContexts;
      return None;
    }

    /**
     * MergeOne: parse and read the source, copy its current context into
     * this document, and write this document only after the copy succeeded.
     */
    method MergeOne(labelName: string, source: Cfg.Source, fs: FileSystem, env: Env) returns (out: MergeOutcome)
      modifies this`contexts, this`clusters, this`authInfos, fs
      ensures (out, Doc(), fs.files) == MergeOneOutcome(old(Doc()), url.path, labelName, source, old(fs.files), env)
    {
      var parsed := env.parseUrl(source.source);
      if parsed.None? {
        return Unparsable;
      }
      var sourceKonfig := new KubeConfig(parsed.value);
      sourceKonfig.labelName := labelName;
      sourceKonfig.srcDef := source;

      var rerr := sourceKonfig.ReadConfig(fs, env);
      if rerr.Some? {
        return Fatal(rerr.value);
      }
      var cerr := CopyCurrentContext(sourceKonfig);
      if cerr.Some? {
        return NotMerged(cerr.value);
      }
      var werr := WriteConfig(fs, env);
      if werr.Some? {
        return NotWritten(werr.value);
      }
      return Merged;
    }
  }
}
