/**
 * The `get` command (cmd/get.go, func add): build a source definition from
 * the command-line flags, derive its label, merge it into the destination,
 * and record it in the catalog only when asked to keep it.
 */
module GetCmd {
  import opened Wrappers
  import opened Urls
  import Cfg
  import Fs
  import Kubeconfig

  /** The flag values add reads, after cobra has parsed them. */
  datatype Flags = Flags(labelFlag: string, insecure: bool, rewriteApi: bool, apiAddress: string)

  datatype AddError =
    | RewriteWithApiAddress        // rewrite-api and api-address together
    | UnparsableSource(source: string)

  /**
   * The source definition of lines 68-101: the positional argument, the
   * insecure flag (forced on by rewrite-api, which also asks for
   * autodetection), and the api address, which rewrite-api forbids.
   */
  function BuildSource(source: string, flags: Flags): (r: Result<Cfg.Source, AddError>)
    ensures r.Failure? <==> flags.rewriteApi && flags.apiAddress != ""
    ensures r.Failure? ==> r.error == RewriteWithApiAddress
    ensures r.Success? ==>
      && r.value.source == source
      && (r.value.insecure <==> flags.insecure || flags.rewriteApi)
      && r.value.autodetectApi == flags.rewriteApi
      && r.value.apiAddress == flags.apiAddress
      && r.value.overrideIp == ""
  {
    var src := Cfg.Source(source, flags.insecure, "", false, "");
    var src := if flags.rewriteApi then src.(insecure := true, autodetectApi := true) else src;
    if flags.apiAddress != "" then
      if flags.rewriteApi then Failure(RewriteWithApiAddress)
      else Success(src.(apiAddress := flags.apiAddress))
    else Success(src)
  }

  /**
   * The source definition and its label (lines 68-111): the label flag when
   * given, the host of the source URL otherwise. The flag conflict is
   * reported before the URL is parsed.
   */
  function Prepare(source: string, flags: Flags, parseSource: string -> Option<Url>)
    : (r: Result<(Cfg.Source, string), AddError>)
    ensures r.Success? <==> BuildSource(source, flags).Success? && parseSource(source).Some?
    ensures BuildSource(source, flags).Failure? ==> r == Failure(RewriteWithApiAddress)
    ensures BuildSource(source, flags).Success? && parseSource(source).None? ==>
      r == Failure(UnparsableSource(source))
    ensures r.Success? ==> r.value.0 == BuildSource(source, flags).value
    ensures r.Success? && flags.labelFlag != "" ==> r.value.1 == flags.labelFlag
    ensures r.Success? && flags.labelFlag == "" ==> r.value.1 == parseSource(source).value.host
  {
    var src :- BuildSource(source, flags);
    match parseSource(source)
    case None => Failure(UnparsableSource(source))
    case Some(u) =>
      var labelName := if flags.labelFlag != "" then flags.labelFlag else u.host;
      Success((src, labelName))
  }

  /**
   * rewrite-api promises a rewritten address, but the merge engine reads only
   * `insecure` and `apiAddress`: the copied cluster keeps the source's server
   * and loses its certificate authority.
   */
  lemma RewriteApiKeepsServer(source: string, flags: Flags, parseSource: string -> Option<Url>,
                              dest: Kubeconfig.Document, src: Kubeconfig.Document)
    requires flags.rewriteApi && flags.apiAddress == "" && parseSource(source).Some?
    requires Kubeconfig.Resolvable(src)
    ensures Prepare(source, flags, parseSource).Success?
    ensures var (def, labelName) := Prepare(source, flags, parseSource).value;
      var ctx := src.contexts[src.currentContext];
      var inserted := Kubeconfig.Merge(dest, src, labelName, def).value.clusters[Kubeconfig.Translate(ctx.cluster, labelName)];
      && inserted.server == src.clusters[ctx.cluster].server
      && inserted.insecureSkipTlsVerify && inserted.certificateAuthority == ""
      && inserted.certificateAuthorityData == None
  {
    var (def, labelName) := Prepare(source, flags, parseSource).value;
    Kubeconfig.MergeEndpoint(dest, src, labelName, def);
  }

  /**
   * A catalog entry read back from the configuration file merges exactly as
   * the entry that was saved: the fields the file drops are never consulted.
   */
  lemma ReloadedSourceMergesAlike(dest: Kubeconfig.Document, src: Kubeconfig.Document, labelName: string, def: Cfg.Source)
    ensures Kubeconfig.Merge(dest, src, labelName, Cfg.Restore(Cfg.Persist(def))) ==
            Kubeconfig.Merge(dest, src, labelName, def)
  {
    var reloaded := Cfg.Restore(Cfg.Persist(def));
    assert reloaded.insecure == def.insecure && reloaded.apiAddress == def.apiAddress;
    forall c: Kubeconfig.Cluster
      ensures Kubeconfig.Endpoint(c, reloaded) == Kubeconfig.Endpoint(c, def)
    {
    }
  }

  datatype AddOutcome =
    | Rejected(error: AddError)                       // log.Fatal before anything is merged
    | MergeFailed(merge: Kubeconfig.MergeOutcome)     // log.Fatalf after the merge
    | Done(saveError: Option<Cfg.SaveError>)          // saveError: log.Fatalf after persisting

  /**
   * add: prepare the source, merge it into the destination, and, when the
   * persistent flag is set and the merge succeeded, add it to the catalog
   * and save the catalog. The source is parsed by the same url.Parse that
   * MergeOne applies to it again.
   */
  method Add(config: Cfg.Cfg, dest: Kubeconfig.KubeConfig, source: string, flags: Flags, persistent: bool,
             fs: Fs.FileSystem, env: Kubeconfig.Env, saveEnv: Cfg.SaveEnv)
    returns (out: AddOutcome)
    modifies config`sources, dest`contexts, dest`clusters, dest`authInfos, fs
    ensures Prepare(source, flags, env.parseUrl).Failure? ==>
      && out == Rejected(Prepare(source, flags, env.parseUrl).error)
      && config.sources == old(config.sources) && dest.Doc() == old(dest.Doc()) && fs.files == old(fs.files)
    ensures Prepare(source, flags, env.parseUrl).Success? ==>
      var (def, labelName) := Prepare(source, flags, env.parseUrl).value;
      var (merged, doc, files) :=
        Kubeconfig.MergeOneOutcome(old(dest.Doc()), dest.url.path, labelName, def, old(fs.files), env);
      && merged != Kubeconfig.Unparsable
      && dest.Doc() == doc
      && (merged != Kubeconfig.Merged ==>
            out == MergeFailed(merged) && config.sources == old(config.sources) && fs.files == files)
      && (merged == Kubeconfig.Merged && !persistent ==>
            out == Done(None) && config.sources == old(config.sources) && fs.files == files)
      && (merged == Kubeconfig.Merged && persistent ==>
            && config.sources == old(config.sources)[labelName := def]
            && out.Done?
            && (out.saveError, fs.files) == Cfg.SaveOutcome(config.Persisted(), files, saveEnv))
  {
    var prepared := Prepare(source, flags, env.parseUrl);
    if prepared.Failure? {
      return Rejected(prepared.error);
    }
    var (def, labelName) := prepared.value;
    var merged := dest.MergeOne(labelName, def, fs, env);
    if merged != Kubeconfig.Merged {
      return MergeFailed(merged);
    }
    if persistent {
      var err := Cfg.Add(config, labelName, def, fs, saveEnv);
      return Done(err);
    }
    return Done(None);
  }
}
