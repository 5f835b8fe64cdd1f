/**
 * The label catalog (internal/cfg/cfg.go): a table from label to source
 * definition, persisted as a whole document to the configuration file.
 */
module Cfg {
  import opened Wrappers
  import Fs

  /**
   * A source definition. `autodetectApi` and `overrideIp` (tagged `yaml:"-"`)
   * live only in memory.
   */
  datatype Source = Source(
    source: string,
    insecure: bool,
    apiAddress: string,
    autodetectApi: bool,
    overrideIp: string)

  /** What the yaml encoder sees of a Source. */
  datatype PersistedSource = PersistedSource(source: string, insecure: bool, apiAddress: string)

  /** The yaml encoder sees every exported field of Cfg; `DefaultSourcePath` has no tag but is exported. */
  datatype PersistedCfg = PersistedCfg(
    sources: map<string, PersistedSource>,
    destination: string,
    defaultSourcePath: string)

  function Persist(s: Source): PersistedSource {
    PersistedSource(s.source, s.insecure, s.apiAddress)
  }

  /** What decoding a persisted entry yields: the untagged fields take their zero values. */
  function Restore(p: PersistedSource): Source {
    Source(p.source, p.insecure, p.apiAddress, false, "")
  }

  /** Decoding what was encoded loses exactly the two in-memory fields. */
  lemma RestorePersist(s: Source)
    ensures Restore(Persist(s)) == s.(autodetectApi := false, overrideIp := "")
    ensures Persist(Restore(Persist(s))) == Persist(s)
  {
  }

  /** Two sources are persisted alike exactly when they agree on source, insecure and apiaddress. */
  lemma PersistForgetsTransient(s: Source, t: Source)
    ensures Persist(s) == Persist(t) <==>
      s.source == t.source && s.insecure == t.insecure && s.apiAddress == t.apiAddress
  {
  }

  function PersistSources(sources: map<string, Source>): (m: map<string, PersistedSource>)
    ensures m.Keys == sources.Keys
  {
    map l | l in sources :: Persist(sources[l])
  }

  /** Catalogs that differ only in the in-memory fields are written identically. */
  lemma PersistSourcesForgetsTransient(a: map<string, Source>, b: map<string, Source>)
    requires a.Keys == b.Keys
    requires forall l :: l in a ==> a[l].(autodetectApi := false, overrideIp := "") == b[l].(autodetectApi := false, overrideIp := "")
    ensures PersistSources(a) == PersistSources(b)
  {
    forall l | l in a
      ensures Persist(a[l]) == Persist(b[l])
    {
      RestorePersist(a[l]);
      RestorePersist(b[l]);
    }
  }

  /** The catalog (Go's Cfg); `Add` and `Delete` change `sources` in place. */
  class Cfg {
    var sources: map<string, Source>
    var destination: string
    var defaultSourcePath: string

    constructor (sources: map<string, Source>, destination: string, defaultSourcePath: string)
      ensures this.sources == sources && this.destination == destination
      ensures this.defaultSourcePath == defaultSourcePath
    {
      this.sources := sources;
      this.destination := destination;
      this.defaultSourcePath := defaultSourcePath;
    }

    function Persisted(): PersistedCfg
      reads this
    {
      PersistedCfg(PersistSources(sources), destination, defaultSourcePath)
    }
  }

  /**
   * What Save depends on: the file viper loaded the configuration from, the
   * yaml encoder (a foreign library, possibly failing) and whether the write
   * is refused.
   */
  datatype SaveEnv = SaveEnv(
    configFile: string,
    marshal: PersistedCfg -> Result<Fs.Bytes, string>,
    writeFault: Fs.WriteFault)

  datatype SaveError = MarshalFailed(msg: string) | WriteFailed(err: Fs.IoError)

  /** Save's error and the files afterwards: encode first, and write only what was encoded. */
  function SaveOutcome(doc: PersistedCfg, files: map<string, Fs.Bytes>, env: SaveEnv)
    : (Option<SaveError>, map<string, Fs.Bytes>)
  {
    match env.marshal(doc)
    case Failure(msg) => (Some(MarshalFailed(msg)), files)
    case Success(bytes) =>
      var after := Fs.Written(files, env.configFile, bytes, env.writeFault);
      if env.writeFault == Fs.NoFault then (None, after)
      else (Some(WriteFailed(Fs.Fault(env.configFile))), after)
  }

  /** Saving touches at most the configuration file, and a saved file holds the encoding of the catalog. */
  lemma SaveOutcomeSpec(doc: PersistedCfg, files: map<string, Fs.Bytes>, env: SaveEnv)
    ensures var (err, after) := SaveOutcome(doc, files, env);
      && (err.None? <==> env.marshal(doc).Success? && env.writeFault == Fs.NoFault)
      && (err.None? ==> after == files[env.configFile := env.marshal(doc).value])
      && (env.marshal(doc).Failure? || env.writeFault == Fs.OpenFails ==> after == files)
      && (env.marshal(doc).Success? && env.writeFault.WriteFailsAfter? ==>
            exists n :: 0 <= n <= |env.marshal(doc).value| && n <= env.writeFault.written &&
              after == files[env.configFile := env.marshal(doc).value[..n]])
  {
    if env.marshal(doc).Success? && env.writeFault.WriteFailsAfter? {
      var bytes, k := env.marshal(doc).value, env.writeFault.written;
      var n := if k < |bytes| then k else |bytes|;
      assert SaveOutcome(doc, files, env).1 == files[env.configFile := bytes[..n]];
    }
  }

  /** Save: encode the whole catalog and overwrite the configuration file. */
  method Save(config: Cfg, fs: Fs.FileSystem, env: SaveEnv) returns (err: Option<SaveError>)
    modifies fs
    ensures (err, fs.files) == SaveOutcome(config.Persisted(), old(fs.files), env)
  {
    var bytes := env.marshal(config.Persisted());
    if bytes.Failure? {
      return Some(MarshalFailed(bytes.error));
    }
    var werr := fs.WriteFile(env.configFile, bytes.value, env.writeFault);
    if werr.Some? {
      return Some(WriteFailed(werr.value));
    }
    return None;
  }

  /**
   * Add: set (or overwrite) the entry for `label`, then save. The in-memory
   * entry stays even when saving fails.
   */
  method Add(config: Cfg, labelName: string, source: Source, fs: Fs.FileSystem, env: SaveEnv)
    returns (err: Option<SaveError>)
    modifies config`sources, fs
    ensures config.sources == old(config.sources)[labelName := source]
    ensures (err, fs.files) == SaveOutcome(config.Persisted(), old(fs.files), env)
  {
    config.sources := config.sources[labelName := source];
    err := Save(config, fs, env);
  }

  datatype DeleteError = LabelNotFound(labelName: string)

  /** Delete: remove the entry for `label`, or fail when there is none. Nothing is saved. */
  method Delete(config: Cfg, labelName: string) returns (err: Option<DeleteError>)
    modifies config`sources
    ensures err.Some? <==> labelName !in old(config.sources)
    ensures err.Some? ==> err.value == LabelNotFound(labelName)
    ensures config.sources == old(config.sources) - {labelName}
  {
    if labelName in config.sources {
      config.sources := config.sources - {labelName};
    } else {
      return Some(LabelNotFound(labelName));
    }
    return None;
  }
}
