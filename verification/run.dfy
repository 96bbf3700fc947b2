/** Building each workflow's parameters on the command line (pkg/cmd/run.go):
    the options read from a config file come first and the options of the
    flags the user changed come after them; the result is cached per config
    file for the rest of the run. */
module Run {
  import opened Wrappers
  import opened Text
  import opened Params
  import opened Engine

  // ---------------------------------------------------------------------------
  // Config files
  // ---------------------------------------------------------------------------

  /** Where a config file is read from: a path on disk or the embedded file system. */
  datatype ConfigSource = SourceFile | SourceFS {
    function Text(): string {
      match this
      case SourceFile => "file"
      case SourceFS => "fs"
    }
  }

  /** `common.ToolName`, the stem of the config file's name (the file that
      declares it is not part of this model; the config file the tests write,
      `actionarmor.yaml`, fixes it). */
  const ToolName: string := "actionarmor"

  /** `ActionArmorConfigFile`, by the constructor that made it: a file on disk
      given by its path (`NewConfigFileFromFile`), or the file embedded in the
      binary (`NewConfigFileFromFS`). */
  datatype ConfigFile = FileConfig(path: string) | EmbeddedConfig {
    function Source(): ConfigSource {
      if FileConfig? then SourceFile else SourceFS
    }

    /** The directory inside the config's own file system: a file on disk is
        read through a file system rooted at its directory. */
    function DirPath(): string {
      if FileConfig? then "." else "data"
    }

    function FileName(): string {
      if FileConfig? then Base(path) else ToolName + ".yaml"
    }

    /** `FilePath`: the path inside the config's own file system; for a
        file on disk that is its base name alone. */
    function FilePath(): (r: string)
      ensures FileConfig? ==> r == FileName() && '/' !in r
      ensures EmbeddedConfig? ==> r == "data/" + ToolName + ".yaml"
    {
      JoinPath(DirPath(), FileName())
    }

    /** Where the file is, whatever file system it is read through. */
    function Location(): string {
      if FileConfig? then path else FilePath()
    }
  }

  /** `filepath.Base` of a path that names a file: its last `/`-separated segment. */
  function Base(p: string): (r: string)
    ensures '/' !in r
  {
    if |p| == 0 || p[|p| - 1] == '/' then ""
    else Base(p[..|p| - 1]) + [p[|p| - 1]]
  }

  lemma {:induction false} BaseOf(dir: string, name: string)
    requires '/' !in name
    ensures Base(dir + "/" + name) == name
  {
    var p := dir + "/" + name;
    if |name| > 0 {
      assert p[..|p| - 1] == dir + "/" + name[..|name| - 1];
      BaseOf(dir, name[..|name| - 1]);
      assert name == name[..|name| - 1] + [name[|name| - 1]];
    }
  }

  /** `filepath.Join` of a clean directory and a base name: `.` adds nothing. */
  function JoinPath(dir: string, name: string): string {
    if dir == "." then name else dir + "/" + name
  }

  /** `Hash` as the source computes it: a digest of the source and of
      `FilePath()`, never of the contents. The digest is modelled by its
      input. For a file on disk `FilePath()` is its base name only. */
  function HashAsWritten(c: ConfigFile): (r: string)
    ensures c.FileConfig? ==> r == "file" + Base(c.path)
  {
    c.Source().Text() + c.FilePath()
  }

  /** The config `GetConfigFile` finds in a project whose root is `root`, in
      its `.yaml` spelling. */
  function ProjectConfig(root: string): ConfigFile {
    FileConfig(root + "/.github/" + ConfigFileName)
  }

  const ConfigFileName: string := ToolName + ".yaml"

  /** Every project's `.github/actionarmor.yaml` gets the same key as
      written, and different keys under `Hash`. What the cache then does is
      stated by `SharedKeySameParams` and `SharedKeyRunAsWritten`. */
  lemma SharedCacheKey(root1: string, root2: string)
    requires root1 != root2
    ensures ProjectConfig(root1) != ProjectConfig(root2)
    ensures HashAsWritten(ProjectConfig(root1)) == HashAsWritten(ProjectConfig(root2))
    ensures Hash(ProjectConfig(root1)) != Hash(ProjectConfig(root2))
  {
    ProjectConfigFilePath(root1);
    ProjectConfigFilePath(root2);
    ProjectConfigDistinct(root1, root2);
    HashInjective(ProjectConfig(root1), ProjectConfig(root2));
  }

  /** Two projects linted in one run, the first with a config it can use:
      keyed as written, the second project's config is never read, so the
      run succeeds whatever that file holds, and the cache ends with one
      entry for both. */
  lemma SharedKeyRunAsWritten(root1: string, root2: string, ws: seq<WorkflowInfo>,
                              read: ConfigFile -> ConfigRead, repoIDOf: Option<Project> -> Result<string>)
    requires root1 != root2 && |ws| == 2
    requires ws[0].config == Some(ProjectConfig(root1)) && ws[1].config == Some(ProjectConfig(root2))
    requires read(ProjectConfig(root1)).Decoded?
    requires repoIDOf(ws[0].project).Success? && repoIDOf(ws[1].project).Success?
    ensures FirstError(ws, None, read, repoIDOf, HashAsWritten, {}).None?
    ensures KeysUpTo(ws, 2, None, HashAsWritten) == {HashAsWritten(ProjectConfig(root1))}
  {
    SharedCacheKey(root1, root2);
    TwoWorkflowRun(ws, read, repoIDOf, HashAsWritten);
  }

  /** Keyed as written, the second project of that run is linted with the
      parameters built from the first project's config. */
  lemma SharedKeyParamsAsWritten(root1: string, root2: string, ws: seq<WorkflowInfo>, v: Params,
                                 read: ConfigFile -> ConfigRead, flags: LinterFlags, changed: seq<string>)
    requires |ws| == 2
    requires ws[0].config == Some(ProjectConfig(root1)) && ws[1].config == Some(ProjectConfig(root2))
    requires BuiltInRun(v, ws, 1, None, read, flags, changed, HashAsWritten, {})
    ensures read(ProjectConfig(root1)).Decoded?
    ensures v == Built(ConfigBase(read(ProjectConfig(root1)).params), flags, changed)
  {
    ProjectConfigFilePath(root1);
    ProjectConfigFilePath(root2);
    assert SameKey(ws, 0, 1, None, HashAsWritten);
  }

  /** Keyed by `Hash`, the second project gets the parameters built from its
      own config. */
  lemma SharedKeyParamsCorrected(root1: string, root2: string, ws: seq<WorkflowInfo>, v: Params,
                                 read: ConfigFile -> ConfigRead, flags: LinterFlags, changed: seq<string>)
    requires |ws| == 2
    requires ws[0].config == Some(ProjectConfig(root1)) && ws[1].config == Some(ProjectConfig(root2))
    requires BuiltInRun(v, ws, 1, None, read, flags, changed, Hash, {})
    ensures read(ProjectConfig(root2)).Decoded?
    ensures v == Built(ConfigBase(read(ProjectConfig(root2)).params), flags, changed)
  {
    OwnConfigUnderHash(ws, 1, v, None, read, flags, changed, {});
  }

  /** Keyed by `Hash`, every workflow whose config was not cached before the
      run gets the parameters built from that very config. */
  lemma OwnConfigUnderHash(ws: seq<WorkflowInfo>, i: nat, v: Params, config: Option<ConfigFile>,
                           read: ConfigFile -> ConfigRead, flags: LinterFlags, changed: seq<string>, start: set<string>)
    requires i < |ws| && BuiltInRun(v, ws, i, config, read, flags, changed, Hash, start)
    requires SelectedConfig(config, ws[i]).Some? && Hash(SelectedConfig(config, ws[i]).value) !in start
    ensures BuiltFrom(v, SelectedConfig(config, ws[i]).value, read, flags, changed)
  {
    var f := FirstSameKey(ws, i, config, Hash);
    HashInjective(SelectedConfig(config, ws[f]).value, SelectedConfig(config, ws[i]).value);
  }

  /** The same run keyed by `Hash`: the second project's config is read, and
      one that cannot be used stops the run with its own error. */
  lemma SharedKeyRunCorrected(root1: string, root2: string, ws: seq<WorkflowInfo>,
                              read: ConfigFile -> ConfigRead, repoIDOf: Option<Project> -> Result<string>)
    requires root1 != root2 && |ws| == 2
    requires ws[0].config == Some(ProjectConfig(root1)) && ws[1].config == Some(ProjectConfig(root2))
    requires read(ProjectConfig(root1)).Decoded?
    requires repoIDOf(ws[0].project).Success? && repoIDOf(ws[1].project).Success?
    ensures KeysUpTo(ws, 2, None, Hash) == {Hash(ProjectConfig(root1)), Hash(ProjectConfig(root2))}
    ensures FirstError(ws, None, read, repoIDOf, Hash, {}).None? <==> read(ProjectConfig(root2)).Decoded?
    ensures !read(ProjectConfig(root2)).Decoded? ==>
      FirstError(ws, None, read, repoIDOf, Hash, {}) == Some(ReadError(ProjectConfig(root2), read))
  {
    SharedCacheKey(root1, root2);
    TwoWorkflowRun(ws, read, repoIDOf, Hash);
  }

  /** Keyed as written, the infos of workflows in any two projects that
      use their own config share one parameters object. */
  lemma SharedKeySameParams(root1: string, root2: string, w1: WorkflowInfo, w2: WorkflowInfo,
                            info1: WorkflowLintInfo, info2: WorkflowLintInfo, flags: LinterFlags, changed: seq<string>,
                            repoIDOf: Option<Project> -> Result<string>, cache: map<string, WorkflowLintParams>)
    requires w1.config == Some(ProjectConfig(root1)) && w2.config == Some(ProjectConfig(root2))
    requires Describes(info1, info1.params.Value(), w1, None, flags, changed, repoIDOf, HashAsWritten, cache)
    requires Describes(info2, info2.params.Value(), w2, None, flags, changed, repoIDOf, HashAsWritten, cache)
    ensures info1.params == info2.params
  {
    ProjectConfigFilePath(root1);
    ProjectConfigFilePath(root2);
  }

  /** A run over two workflows with their own configs, the first usable and
      both repository IDs known, under any key: the second config is read
      only when its key differs from the first's. */
  lemma TwoWorkflowRun(ws: seq<WorkflowInfo>, read: ConfigFile -> ConfigRead,
                       repoIDOf: Option<Project> -> Result<string>, key: ConfigFile -> string)
    requires |ws| == 2 && ws[0].config.Some? && ws[1].config.Some?
    requires read(ws[0].config.value).Decoded?
    requires repoIDOf(ws[0].project).Success? && repoIDOf(ws[1].project).Success?
    ensures KeysUpTo(ws, 2, None, key) == {key(ws[0].config.value), key(ws[1].config.value)}
    ensures FirstError(ws, None, read, repoIDOf, key, {})
         == if key(ws[0].config.value) != key(ws[1].config.value) && !read(ws[1].config.value).Decoded?
            then Some(ReadError(ws[1].config.value, read)) else None
  {
    assert ErrorAt(ws, 0, None, read, repoIDOf, key, {}).None?;
    assert KeysUpTo(ws, 1, None, key) == {key(ws[0].config.value)};
    if key(ws[0].config.value) != key(ws[1].config.value) && !read(ws[1].config.value).Decoded? {
      FirstErrorAt(ws, 1, None, read, repoIDOf, key, {});
    } else {
      FirstErrorNone(ws, None, read, repoIDOf, key, {});
    }
  }

  /** Inside its own file system, a project's config is just the file name. */
  lemma ProjectConfigFilePath(root: string)
    ensures ProjectConfig(root).FilePath() == ConfigFileName
  {
    var name := ConfigFileName;
    assert '/' !in name;
    assert ProjectConfig(root).path == (root + "/.github") + "/" + name;
    BaseOf(root + "/.github", name);
  }

  lemma ProjectConfigDistinct(root1: string, root2: string)
    requires root1 != root2
    ensures ProjectConfig(root1) != ProjectConfig(root2)
  {
    var tail := "/.github/" + ConfigFileName;
    var p1, p2 := ProjectConfig(root1).path, ProjectConfig(root2).path;
    assert p1 == root1 + tail && p2 == root2 + tail;
    assert p1[..|root1|] == root1 && p2[..|root2|] == root2;
  }

  /** The cache key the comment on `Hash` describes: the source and the
      file's own path. */
  function Hash(c: ConfigFile): (r: string)
    ensures c.FileConfig? ==> r == "file" + c.path
    ensures c.EmbeddedConfig? ==> r == HashAsWritten(c)
  {
    c.Source().Text() + c.Location()
  }

  /** Two config files share a cache entry exactly when they are the same file. */
  lemma HashInjective(c1: ConfigFile, c2: ConfigFile)
    ensures Hash(c1) == Hash(c2) <==> c1 == c2
  {
    if Hash(c1) == Hash(c2) {
      assert Hash(c1)[1] == Hash(c2)[1];
      assert c1.Source() == c2.Source();
      var n := |c1.Source().Text()|;
      assert c1.Location() == Hash(c1)[n..];
      assert c2.Location() == Hash(c2)[n..];
    }
  }

  /** What reading and decoding a config file gives: a read error, a decoding
      error, or the decoded parameters. */
  datatype ConfigRead = ReadFailed(error: string) | Malformed(error: string) | Decoded(params: Params)

  /** The parameters a decoded config stands for once its SHAs are trimmed and
      it has gone through `GetOptions`. */
  function ConfigBase(decoded: Params): Params {
    decoded.(hashAllowlist := TrimmedSHAs(decoded.hashAllowlist)).Normalized()
  }

  /** `ReadLintOptions`: the options that rebuild the config's parameters. */
  method ReadLintOptions(config: Option<ConfigFile>, read: ConfigFile -> ConfigRead) returns (r: Result<seq<LintOption>>)
    ensures config.None? ==> r == Failure("required a config file")
    ensures config.Some? && read(config.value).ReadFailed? ==>
      r == Failure("failed to read the config file: path=" + config.value.FilePath()
                   + ", error=" + read(config.value).error)
    ensures config.Some? && read(config.value).Malformed? ==>
      r == Failure("failed to convert the config file: path=" + config.value.FilePath()
                   + ", error=failed to unmarshal the config data: " + read(config.value).error)
    ensures config.Some? && read(config.value).Decoded? ==>
      r.Success? && ApplyAll(Unset, r.value) == ConfigBase(read(config.value).params)
  {
    if config.None? {
      return Failure("required a config file");
    }
    var c := config.value;
    match read(c)
    case ReadFailed(e) =>
      return Failure("failed to read the config file: path=" + c.FilePath() + ", error=" + e);
    case Malformed(e) =>
      return Failure("failed to convert the config file: path=" + c.FilePath()
                     + ", error=failed to unmarshal the config data: " + e);
    case Decoded(decoded) =>
      var params := ToLintParams(decoded);
      var opts := params.Value().GetOptions();
      return Success(opts);
  }

  // ---------------------------------------------------------------------------
  // Flags
  // ---------------------------------------------------------------------------

  const ExcludeOfficialActionsFlagName: string := "exclude-official"
  const ExcludeVerifiedCreatorsFlagName: string := "exclude-verified-creators"
  const AllowOnlyAllowlistedHashFlagName: string := "only-allowlisted-hash"
  const AllowArchivedRepoFlagName: string := "allow-archived-repo"
  const EnforcePinHashFlagName: string := "enforce-pin-hash"
  const EnforceVerifiedOrganizationFlagName: string := "enforce-verified-org"
  const CreatorAllowlistFlagName: string := "creator-allowlist"
  const ActionAllowlistFlagName: string := "action-allowlist"

  /** The values of the linter flags (changed or not). */
  datatype LinterFlags = LinterFlags(
    excludeOfficialActions: bool,
    excludeVerifiedCreators: bool,
    allowOnlyAllowlistedHash: bool,
    allowArchivedRepo: bool,
    enforcePinHash: bool,
    enforceVerifiedOrg: bool,
    creatorAllowlist: seq<string>,
    actionAllowlist: seq<string>)
  {
    function Get(f: Flag): bool {
      match f
      case ExcludeOfficialActions => excludeOfficialActions
      case ExcludeVerifiedCreators => excludeVerifiedCreators
      case AllowOnlyAllowlistedHash => allowOnlyAllowlistedHash
      case AllowArchivedRepo => allowArchivedRepo
      case EnforcePinHash => enforcePinHash
      case EnforceVerifiedOrganization => enforceVerifiedOrg
    }
  }

  function FlagName(f: Flag): string {
    match f
    case ExcludeOfficialActions => ExcludeOfficialActionsFlagName
    case ExcludeVerifiedCreators => ExcludeVerifiedCreatorsFlagName
    case AllowOnlyAllowlistedHash => AllowOnlyAllowlistedHashFlagName
    case AllowArchivedRepo => AllowArchivedRepoFlagName
    case EnforcePinHash => EnforcePinHashFlagName
    case EnforceVerifiedOrganization => EnforceVerifiedOrganizationFlagName
  }

  /** What a flag name stands for: one boolean field or one allowlist. */
  datatype FlagKey = BoolFlag(flag: Flag) | CreatorAllowlistKey | ActionAllowlistKey

  function FlagKeyOf(name: string): (r: Option<FlagKey>)
    ensures r.Some? ==> name == KeyName(r.value)
  {
    if name == ExcludeOfficialActionsFlagName then Some(BoolFlag(ExcludeOfficialActions))
    else if name == ExcludeVerifiedCreatorsFlagName then Some(BoolFlag(ExcludeVerifiedCreators))
    else if name == AllowOnlyAllowlistedHashFlagName then Some(BoolFlag(AllowOnlyAllowlistedHash))
    else if name == AllowArchivedRepoFlagName then Some(BoolFlag(AllowArchivedRepo))
    else if name == EnforcePinHashFlagName then Some(BoolFlag(EnforcePinHash))
    else if name == EnforceVerifiedOrganizationFlagName then Some(BoolFlag(EnforceVerifiedOrganization))
    else if name == CreatorAllowlistFlagName then Some(CreatorAllowlistKey)
    else if name == ActionAllowlistFlagName then Some(ActionAllowlistKey)
    else None
  }

  function KeyName(k: FlagKey): string {
    match k
    case BoolFlag(f) => FlagName(f)
    case CreatorAllowlistKey => CreatorAllowlistFlagName
    case ActionAllowlistKey => ActionAllowlistFlagName
  }

  /** The eight flag names are distinct: each names its own key. */
  lemma KeyNameRoundTrip(k: FlagKey)
    ensures FlagKeyOf(KeyName(k)) == Some(k)
  {
  }

  /** The option of a changed flag. */
  function OptionFor(k: FlagKey, flags: LinterFlags): LintOption {
    match k
    case BoolFlag(f) => FlagOption(f, flags.Get(f))
    case CreatorAllowlistKey => WithCreatorAllowlist(flags.creatorAllowlist)
    case ActionAllowlistKey => WithActionAllowlist(flags.actionAllowlist)
  }

  /** The options of the changed flags, in the order they are visited; a name
      that is not a linter flag contributes nothing. */
  function FlagOptions(flags: LinterFlags, changed: seq<string>): seq<LintOption> {
    if |changed| == 0 then []
    else
      var k := FlagKeyOf(changed[|changed| - 1]);
      FlagOptions(flags, changed[..|changed| - 1]) + (if k.Some? then [OptionFor(k.value, flags)] else [])
  }

  /** `toWorkflowLintOptionsFromFlags`: `changed` lists the names of the flags
      the user set, in the order the flag set visits them. */
  method ToWorkflowLintOptionsFromFlags(flags: LinterFlags, changed: seq<string>) returns (opts: seq<LintOption>)
    ensures opts == FlagOptions(flags, changed)
  {
    opts := [];
    for i := 0 to |changed|
      invariant opts == FlagOptions(flags, changed[..i])
    {
      assert changed[..i + 1][..i] == changed[..i];
      var name := changed[i];
      if name == ExcludeOfficialActionsFlagName {
        opts := opts + [WithExcludeOfficialActions(flags.excludeOfficialActions)];
      } else if name == ExcludeVerifiedCreatorsFlagName {
        opts := opts + [WithExcludeVerifiedCreators(flags.excludeVerifiedCreators)];
      } else if name == AllowOnlyAllowlistedHashFlagName {
        opts := opts + [WithAllowOnlyAllowlistedHash(flags.allowOnlyAllowlistedHash)];
      } else if name == AllowArchivedRepoFlagName {
        opts := opts + [WithAllowArchivedRepo(flags.allowArchivedRepo)];
      } else if name == EnforcePinHashFlagName {
        opts := opts + [WithEnforcePinHash(flags.enforcePinHash)];
      } else if name == EnforceVerifiedOrganizationFlagName {
        opts := opts + [WithEnforceVerifiedOrganization(flags.enforceVerifiedOrg)];
      } else if name == CreatorAllowlistFlagName {
        opts := opts + [WithCreatorAllowlist(flags.creatorAllowlist)];
      } else if name == ActionAllowlistFlagName {
        opts := opts + [WithActionAllowlist(flags.actionAllowlist)];
      }
    }
    assert changed[..|changed|] == changed;
  }

  /** What the changed flags do to parameters `p`: each changed boolean flag
      sets its own field, each changed allowlist flag merges its values into
      its own list, and nothing else changes. */
  function FlagsApplied(p: Params, flags: LinterFlags, keys: set<FlagKey>): Params {
    Params(
      if BoolFlag(ExcludeOfficialActions) in keys then Some(flags.excludeOfficialActions) else p.excludeOfficialActions,
      if BoolFlag(ExcludeVerifiedCreators) in keys then Some(flags.excludeVerifiedCreators) else p.excludeVerifiedCreators,
      if BoolFlag(AllowOnlyAllowlistedHash) in keys then Some(flags.allowOnlyAllowlistedHash) else p.allowOnlyAllowlistedHash,
      if BoolFlag(AllowArchivedRepo) in keys then Some(flags.allowArchivedRepo) else p.allowArchivedRepo,
      if BoolFlag(EnforcePinHash) in keys then Some(flags.enforcePinHash) else p.enforcePinHash,
      if BoolFlag(EnforceVerifiedOrganization) in keys then Some(flags.enforceVerifiedOrg) else p.enforceVerifiedOrganization,
      if CreatorAllowlistKey in keys then Merged(p.creatorAllowlist, flags.creatorAllowlist) else p.creatorAllowlist,
      if ActionAllowlistKey in keys then Merged(p.actionAllowlist, flags.actionAllowlist) else p.actionAllowlist,
      p.hashAllowlist)
  }

  /** The keys of the linter flags among the changed names. */
  function Keys(changed: seq<string>): set<FlagKey> {
    set n | n in changed && FlagKeyOf(n).Some? :: FlagKeyOf(n).value
  }

  /** Applying the changed flags' options depends only on which flags
      changed: neither their order nor a repeated name matters. */
  lemma {:induction false} FlagsClosedForm(p: Params, flags: LinterFlags, changed: seq<string>)
    ensures ApplyAll(p, FlagOptions(flags, changed)) == FlagsApplied(p, flags, Keys(changed))
  {
    if |changed| == 0 {
      assert Keys(changed) == {};
    } else {
      var init := changed[..|changed| - 1];
      var name := changed[|changed| - 1];
      var k := FlagKeyOf(name);
      FlagsClosedForm(p, flags, init);
      assert changed == init + [name];
      if k.Some? {
        var tail := [OptionFor(k.value, flags)];
        ApplyAllConcat(p, FlagOptions(flags, init), tail);
        assert tail[..0] == [];
        assert Keys(changed) == Keys(init) + {k.value};
        FlagStep(p, flags, Keys(init), k.value);
      } else {
        assert FlagOptions(flags, changed) == FlagOptions(flags, init) + [];
        assert FlagOptions(flags, init) + [] == FlagOptions(flags, init);
        forall x | x in Keys(changed) ensures x in Keys(init) {
          var n :| n in changed && FlagKeyOf(n) == Some(x);
          assert n != name;
        }
        assert Keys(changed) == Keys(init);
      }
    }
  }

  /** One changed flag more: its option applied to the closed form. */
  lemma FlagStep(p: Params, flags: LinterFlags, keys: set<FlagKey>, k: FlagKey)
    ensures ApplyOption(FlagsApplied(p, flags, keys), OptionFor(k, flags)) == FlagsApplied(p, flags, keys + {k})
  {
    match k
    case BoolFlag(f) =>
      BoolFlagStep(p, flags, keys, f);
    case CreatorAllowlistKey =>
      if k in keys {
        MergedIdempotent(p.creatorAllowlist, flags.creatorAllowlist);
      }
    case ActionAllowlistKey =>
      if k in keys {
        MergedIdempotent(p.actionAllowlist, flags.actionAllowlist);
      }
  }

  /** One changed boolean flag more. */
  lemma BoolFlagStep(p: Params, flags: LinterFlags, keys: set<FlagKey>, f: Flag)
    ensures ApplyOption(FlagsApplied(p, flags, keys), OptionFor(BoolFlag(f), flags)) == FlagsApplied(p, flags, keys + {BoolFlag(f)})
  {
    match f {
      case ExcludeOfficialActions =>
      case ExcludeVerifiedCreators =>
      case AllowOnlyAllowlistedHash =>
      case AllowArchivedRepo =>
      case EnforcePinHash =>
      case EnforceVerifiedOrganization =>
    }
  }

  /** The order in which the flag set visits the changed flags is irrelevant. */
  lemma FlagOrderIrrelevant(p: Params, flags: LinterFlags, c1: seq<string>, c2: seq<string>)
    requires forall n :: n in c1 <==> n in c2
    ensures ApplyAll(p, FlagOptions(flags, c1)) == ApplyAll(p, FlagOptions(flags, c2))
  {
    FlagsClosedForm(p, flags, c1);
    FlagsClosedForm(p, flags, c2);
    assert Keys(c1) == Keys(c2);
  }

  /** The parameters built from a config base and the changed flags. */
  function Built(base: Params, flags: LinterFlags, changed: seq<string>): Params {
    WithDefaults(ApplyAll(base, FlagOptions(flags, changed)))
  }

  /** Precedence: a changed boolean flag overrides the config, an unchanged
      one leaves the config's value (or the default); allowlist flags merge
      into the config's allowlists; the hash allowlist is the config's. */
  lemma FlagsOverConfig(base: Params, flags: LinterFlags, changed: seq<string>, f: Flag)
    ensures FlagName(f) in changed ==> Built(base, flags, changed).Get(f) == Some(flags.Get(f))
    ensures FlagName(f) !in changed ==> Built(base, flags, changed).Get(f) == Some(base.Get(f).GetOr(Default(f)))
    ensures Built(base, flags, changed).creatorAllowlist ==
      if CreatorAllowlistFlagName in changed then Merged(base.creatorAllowlist, flags.creatorAllowlist)
      else base.creatorAllowlist
    ensures Built(base, flags, changed).actionAllowlist ==
      if ActionAllowlistFlagName in changed then Merged(base.actionAllowlist, flags.actionAllowlist)
      else base.actionAllowlist
    ensures Built(base, flags, changed).hashAllowlist == base.hashAllowlist
  {
    FlagsClosedForm(base, flags, changed);
    var q := ApplyAll(base, FlagOptions(flags, changed));
    WithDefaultsKeepsExplicit(q, f);
    KeyInKeys(changed, BoolFlag(f));
    KeyInKeys(changed, CreatorAllowlistKey);
    KeyInKeys(changed, ActionAllowlistKey);
  }

  lemma KeyInKeys(changed: seq<string>, k: FlagKey)
    ensures k in Keys(changed) <==> KeyName(k) in changed
  {
    KeyNameRoundTrip(k);
    if KeyName(k) in changed {
      assert FlagKeyOf(KeyName(k)).value == k;
    }
  }

  // ---------------------------------------------------------------------------
  // The cache
  // ---------------------------------------------------------------------------

  /** `configCache`: built parameters by config key, for the whole run. The
      source computes the key with `Hash`, modelled as `HashAsWritten`;
      `Hash` here is the key its comment describes. */
  class ConfigCache {
    const key: ConfigFile -> string
    var entries: map<string, WorkflowLintParams>

    /** Every cached parameter set is complete. */
    ghost predicate Valid()
      reads this, entries.Values
    {
      forall k :: k in entries ==> entries[k].Value().Complete()
    }

    constructor (key: ConfigFile -> string)
      ensures this.key == key && entries == map[] && Valid()
    {
      this.key := key;
      entries := map[];
    }

    /** `makeLintParams`. */
    method MakeLintParams(config: Option<ConfigFile>, flags: LinterFlags, changed: seq<string>, read: ConfigFile -> ConfigRead)
      returns (r: Result<WorkflowLintParams>)
      requires Valid()
      modifies this
      ensures Valid()
      ensures r.Success? ==> r.value.Value().Complete()
      // no config: neither read nor written; the flags over a zero struct
      ensures config.None? ==>
        && entries == old(entries) && r.Success? && fresh(r.value)
        && r.value.Value() == Built(Unset, flags, changed)
      // hit: the cached parameters, nothing read, nothing built
      ensures config.Some? && key(config.value) in old(entries) ==>
        entries == old(entries) && r == Success(old(entries)[key(config.value)])
      // miss and a config that cannot be read: the error, cache unchanged
      ensures config.Some? && key(config.value) !in old(entries) && !read(config.value).Decoded? ==>
        && entries == old(entries) && r.Failure?
        && r.error == ReadError(config.value, read)
      // miss: config options first, then the flags' options; stored
      ensures config.Some? && key(config.value) !in old(entries) && read(config.value).Decoded? ==>
        && r.Success? && fresh(r.value)
        && r.value.Value() == Built(ConfigBase(read(config.value).params), flags, changed)
        && entries == old(entries)[key(config.value) := r.value]
    {
      var opts: seq<LintOption> := [];
      ghost var base := Unset;
      if config.Some? {
        var k := key(config.value);
        if k in entries {
          return Success(entries[k]);
        }
        var o := ReadLintOptions(config, read);
        if o.Failure? {
          return Failure(o.error);
        }
        opts := o.value;
        base := ConfigBase(read(config.value).params);
      }
      assert ApplyAll(Unset, opts) == base;
      var flagOpts := ToWorkflowLintOptionsFromFlags(flags, changed);
      ApplyAllConcat(Unset, opts, flagOpts);
      var params := NewWorkflowLintParams(opts + flagOpts);
      WithDefaultsKeepsExplicit(ApplyAll(base, flagOpts), ExcludeOfficialActions);
      if config.Some? {
        entries := entries[key(config.value) := params];
      }
      return Success(params);
    }

    /** The body of `ToWorkflowLintInfo`'s loop for one workflow: its
        parameters, built or taken from the cache, and its repository ID. */
    method LintInfoOf(
      w: WorkflowInfo, config: Option<ConfigFile>, flags: LinterFlags, changed: seq<string>,
      read: ConfigFile -> ConfigRead, repoIDOf: Option<Project> -> Result<string>)
      returns (r: Result<WorkflowLintInfo>)
      requires Valid()
      modifies this
      ensures Valid()
      ensures Grown(old(entries), entries)
      ensures forall k :: k in entries && k !in old(entries) ==> StoredBy(w, config, read, key, k)
      ensures r.Success? ==> entries.Keys == old(entries).Keys + KeyOf(w, config, key)
      ensures r.Failure? <==> WorkflowError(w, config, read, repoIDOf, key, old(entries).Keys).Some?
      ensures r.Failure? ==> WorkflowError(w, config, read, repoIDOf, key, old(entries).Keys) == Some(r.error)
      ensures r.Success? ==> Describes(r.value, r.value.params.Value(), w, config, flags, changed, repoIDOf, key, entries)
      // a config whose key was not cached: its options, then the flags'
      ensures r.Success? && SelectedConfig(config, w).Some? && key(SelectedConfig(config, w).value) !in old(entries) ==>
        BuiltFrom(r.value.params.Value(), SelectedConfig(config, w).value, read, flags, changed)
    {
      var tmpConfig := SelectedConfig(config, w);
      var params := MakeLintParams(tmpConfig, flags, changed, read);
      if params.Failure? {
        return Failure(params.error);
      }
      var repoID := repoIDOf(w.project);
      if repoID.Failure? {
        return Failure("failed to get the repository ID: " + repoID.error);
      }
      return Success(WorkflowLintInfo(w.filePath, w.project, params.value, repoID.value));
    }

    /** One pass of `ToWorkflowLintInfo`'s loop, on workflow `i` after the
        first `i` succeeded from the cache `start`. */
    method NextLintInfo(
      workflows: seq<WorkflowInfo>, i: nat, config: Option<ConfigFile>, flags: LinterFlags, changed: seq<string>,
      read: ConfigFile -> ConfigRead, repoIDOf: Option<Project> -> Result<string>,
      ghost start: map<string, WorkflowLintParams>, ghost infos: seq<WorkflowLintInfo>, ghost vals: seq<Params>)
      returns (info: Result<WorkflowLintInfo>)
      requires Valid() && i < |workflows|
      requires Progress(workflows, i, config, flags, changed, read, repoIDOf, key, start, entries, infos, vals)
      modifies this
      ensures Valid()
      ensures info.Failure? ==>
        && FirstError(workflows, config, read, repoIDOf, key, start.Keys) == Some(info.error)
        && Grown(start, entries) && NewKeysStored(workflows, |workflows|, config, read, key, start, entries)
      ensures info.Success? ==>
        Progress(workflows, i + 1, config, flags, changed, read, repoIDOf, key, start, entries,
                 infos + [info.value], vals + [info.value.params.Value()])
    {
      ghost var before := entries;
      info := LintInfoOf(workflows[i], config, flags, changed, read, repoIDOf);
      LintInfoStep(workflows, i, config, flags, changed, read, repoIDOf, key, start, before, entries, infos, vals, info);
    }

    /** The config-selection loop of `ToWorkflowLintInfo`: the explicit config
        when there is one, else each workflow's own; the first error ends the
        loop and is returned alone. */
    method ToWorkflowLintInfo(
      workflows: seq<WorkflowInfo>, config: Option<ConfigFile>, flags: LinterFlags, changed: seq<string>,
      read: ConfigFile -> ConfigRead, repoIDOf: Option<Project> -> Result<string>)
      returns (r: Result<seq<WorkflowLintInfo>>)
      requires Valid()
      modifies this
      ensures Valid()
      // the cache only grows, by the configs that were read and decoded
      ensures Grown(old(entries), entries) && NewKeysStored(workflows, |workflows|, config, read, key, old(entries), entries)
      // success exactly when the run has no error, else the first error
      ensures r.Success? <==> FirstError(workflows, config, read, repoIDOf, key, old(entries).Keys).None?
      ensures r.Failure? ==> FirstError(workflows, config, read, repoIDOf, key, old(entries).Keys) == Some(r.error)
      ensures r.Success? ==> entries.Keys == old(entries).Keys + KeysUpTo(workflows, |workflows|, config, key)
      ensures r.Success? ==> |r.value| == |workflows|
      ensures r.Success? ==> forall i :: 0 <= i < |workflows| ==>
        Describes(r.value[i], r.value[i].params.Value(), workflows[i], config, flags, changed, repoIDOf, key, entries)
      // a config not cached at the start: the parameters built from the
      // first config of the run that has its key
      ensures r.Success? ==> forall i :: 0 <= i < |workflows| ==>
        BuiltInRun(r.value[i].params.Value(), workflows, i, config, read, flags, changed, key, old(entries).Keys)
    {
      var infos: seq<WorkflowLintInfo> := [];
      ghost var vals: seq<Params> := [];
      for i := 0 to |workflows|
        invariant Valid()
        invariant Progress(workflows, i, config, flags, changed, read, repoIDOf, key, old(entries), entries, infos, vals)
      {
        var info := NextLintInfo(workflows, i, config, flags, changed, read, repoIDOf, old(entries), infos, vals);
        if info.Failure? {
          return Failure(info.error);
        }
        infos := infos + [info.value];
        vals := vals + [info.value.params.Value()];
      }
      ProgressDone(workflows, config, flags, changed, read, repoIDOf, key, old(entries), entries, infos, vals);
      return Success(infos);
    }
  }

  /** `WorkflowInfo`: a workflow file, its project, and the config file found
      for that project, if any. */
  datatype WorkflowInfo = WorkflowInfo(filePath: string, project: Option<Project>, config: Option<ConfigFile>)

  /** The config that governs a workflow: the explicit one, else its own. */
  function SelectedConfig(config: Option<ConfigFile>, w: WorkflowInfo): Option<ConfigFile> {
    if config.Some? then config else w.config
  }

  /** The error `ReadLintOptions` gives for a config it cannot use. */
  function ReadError(c: ConfigFile, read: ConfigFile -> ConfigRead): string
    requires !read(c).Decoded?
  {
    if read(c).ReadFailed? then "failed to read the config file: path=" + c.FilePath() + ", error=" + read(c).error
    else "failed to convert the config file: path=" + c.FilePath()
         + ", error=failed to unmarshal the config data: " + read(c).error
  }

  /** The error workflow `w` stops `ToWorkflowLintInfo` with, if any, when
      the cache holds the keys `cached`: its config's key is not cached and
      the config cannot be used, or else its repository ID is unknown. */
  function WorkflowError(w: WorkflowInfo, config: Option<ConfigFile>, read: ConfigFile -> ConfigRead,
                         repoIDOf: Option<Project> -> Result<string>, key: ConfigFile -> string, cached: set<string>): Option<string>
  {
    var c := SelectedConfig(config, w);
    if c.Some? && key(c.value) !in cached && !read(c.value).Decoded? then Some(ReadError(c.value, read))
    else if repoIDOf(w.project).Failure? then Some("failed to get the repository ID: " + repoIDOf(w.project).error)
    else None
  }

  /** The key a workflow that succeeds leaves in the cache: its config's, if it has one. */
  function KeyOf(w: WorkflowInfo, config: Option<ConfigFile>, key: ConfigFile -> string): set<string> {
    var c := SelectedConfig(config, w);
    if c.Some? then {key(c.value)} else {}
  }

  /** The keys the first `n` workflows leave in the cache. */
  function KeysUpTo(ws: seq<WorkflowInfo>, n: nat, config: Option<ConfigFile>, key: ConfigFile -> string): set<string>
    requires n <= |ws|
  {
    if n == 0 then {} else KeysUpTo(ws, n - 1, config, key) + KeyOf(ws[n - 1], config, key)
  }

  /** The error of workflow `i` when every workflow before it succeeded: the
      cache then holds the keys it started with and theirs. */
  function ErrorAt(ws: seq<WorkflowInfo>, i: nat, config: Option<ConfigFile>, read: ConfigFile -> ConfigRead,
                   repoIDOf: Option<Project> -> Result<string>, key: ConfigFile -> string, cached: set<string>): Option<string>
    requires i < |ws|
  {
    WorkflowError(ws[i], config, read, repoIDOf, key, cached + KeysUpTo(ws, i, config, key))
  }

  /** The error of the first workflow, from the `i`-th on, that has one. */
  function FirstErrorFrom(ws: seq<WorkflowInfo>, i: nat, config: Option<ConfigFile>, read: ConfigFile -> ConfigRead,
                          repoIDOf: Option<Project> -> Result<string>, key: ConfigFile -> string, cached: set<string>): (r: Option<string>)
    requires i <= |ws|
    ensures r.Some? ==> exists k :: i <= k < |ws| && ErrorAt(ws, k, config, read, repoIDOf, key, cached) == r
    decreases |ws| - i
  {
    if i == |ws| then None
    else if ErrorAt(ws, i, config, read, repoIDOf, key, cached).Some? then ErrorAt(ws, i, config, read, repoIDOf, key, cached)
    else FirstErrorFrom(ws, i + 1, config, read, repoIDOf, key, cached)
  }

  /** The error the run over `ws` stops with, starting from a cache with the
      keys `cached`. */
  function FirstError(ws: seq<WorkflowInfo>, config: Option<ConfigFile>, read: ConfigFile -> ConfigRead,
                      repoIDOf: Option<Project> -> Result<string>, key: ConfigFile -> string, cached: set<string>): Option<string>
  {
    FirstErrorFrom(ws, 0, config, read, repoIDOf, key, cached)
  }

  /** None of the first `n` workflows has an error. */
  predicate NoErrorBefore(ws: seq<WorkflowInfo>, n: nat, config: Option<ConfigFile>, read: ConfigFile -> ConfigRead,
                          repoIDOf: Option<Project> -> Result<string>, key: ConfigFile -> string, cached: set<string>)
    requires n <= |ws|
  {
    forall j :: 0 <= j < n ==> ErrorAt(ws, j, config, read, repoIDOf, key, cached).None?
  }

  /** The first error is the one of workflow `i` when every workflow before
      it has none and it has one. */
  lemma FirstErrorAt(ws: seq<WorkflowInfo>, i: nat, config: Option<ConfigFile>, read: ConfigFile -> ConfigRead,
                     repoIDOf: Option<Project> -> Result<string>, key: ConfigFile -> string, cached: set<string>)
    requires i < |ws| && ErrorAt(ws, i, config, read, repoIDOf, key, cached).Some?
    requires NoErrorBefore(ws, i, config, read, repoIDOf, key, cached)
    ensures FirstError(ws, config, read, repoIDOf, key, cached) == ErrorAt(ws, i, config, read, repoIDOf, key, cached)
  {
    FirstErrorFromAt(ws, 0, i, config, read, repoIDOf, key, cached);
  }

  lemma {:induction false} FirstErrorFromAt(ws: seq<WorkflowInfo>, k: nat, i: nat, config: Option<ConfigFile>,
                                            read: ConfigFile -> ConfigRead, repoIDOf: Option<Project> -> Result<string>,
                                            key: ConfigFile -> string, cached: set<string>)
    requires k <= i < |ws| && ErrorAt(ws, i, config, read, repoIDOf, key, cached).Some?
    requires forall j :: k <= j < i ==> ErrorAt(ws, j, config, read, repoIDOf, key, cached).None?
    ensures FirstErrorFrom(ws, k, config, read, repoIDOf, key, cached) == ErrorAt(ws, i, config, read, repoIDOf, key, cached)
    decreases i - k
  {
    if k < i {
      FirstErrorFromAt(ws, k + 1, i, config, read, repoIDOf, key, cached);
    }
  }

  /** The run has no error exactly when no workflow has one. */
  lemma FirstErrorNone(ws: seq<WorkflowInfo>, config: Option<ConfigFile>, read: ConfigFile -> ConfigRead,
                       repoIDOf: Option<Project> -> Result<string>, key: ConfigFile -> string, cached: set<string>)
    ensures FirstError(ws, config, read, repoIDOf, key, cached).None?
        <==> NoErrorBefore(ws, |ws|, config, read, repoIDOf, key, cached)
  {
    FirstErrorFromNone(ws, 0, config, read, repoIDOf, key, cached);
  }

  lemma {:induction false} FirstErrorFromNone(ws: seq<WorkflowInfo>, k: nat, config: Option<ConfigFile>,
                                              read: ConfigFile -> ConfigRead, repoIDOf: Option<Project> -> Result<string>,
                                              key: ConfigFile -> string, cached: set<string>)
    requires k <= |ws|
    ensures FirstErrorFrom(ws, k, config, read, repoIDOf, key, cached).None?
        <==> forall j :: k <= j < |ws| ==> ErrorAt(ws, j, config, read, repoIDOf, key, cached).None?
    decreases |ws| - k
  {
    if k < |ws| {
      FirstErrorFromNone(ws, k + 1, config, read, repoIDOf, key, cached);
    }
  }

  /** `info`, whose parameters hold `v`, is what `ToWorkflowLintInfo` builds
      for workflow `w` while the cache is `cache`. */
  ghost predicate Describes(info: WorkflowLintInfo, v: Params, w: WorkflowInfo, config: Option<ConfigFile>, flags: LinterFlags,
                            changed: seq<string>, repoIDOf: Option<Project> -> Result<string>, key: ConfigFile -> string,
                            cache: map<string, WorkflowLintParams>)
  {
    var c := SelectedConfig(config, w);
    && info.filePath == w.filePath && info.project == w.project
    && repoIDOf(w.project) == Success(info.repoID)
    && v.Complete()
    && (c.Some? ==> key(c.value) in cache && info.params == cache[key(c.value)])
    && (c.None? ==> v == Built(Unset, flags, changed))
  }

  /** `v` is the parameters built from config `c`: its decoded options, then
      the options of the changed flags, then the defaults. */
  ghost predicate BuiltFrom(v: Params, c: ConfigFile, read: ConfigFile -> ConfigRead,
                            flags: LinterFlags, changed: seq<string>)
  {
    read(c).Decoded? && v == Built(ConfigBase(read(c).params), flags, changed)
  }

  /** Workflows `m` and `i` both have a config, under the same key. */
  predicate SameKey(ws: seq<WorkflowInfo>, m: nat, i: nat, config: Option<ConfigFile>, key: ConfigFile -> string)
    requires m < |ws| && i < |ws|
  {
    var cm := SelectedConfig(config, ws[m]);
    var ci := SelectedConfig(config, ws[i]);
    cm.Some? && ci.Some? && key(cm.value) == key(ci.value)
  }

  /** The first workflow, from the `j`-th on, whose config has the key of
      workflow `i`'s. */
  function FirstSameKeyFrom(ws: seq<WorkflowInfo>, j: nat, i: nat, config: Option<ConfigFile>, key: ConfigFile -> string): (r: nat)
    requires j <= i < |ws| && SelectedConfig(config, ws[i]).Some?
    ensures j <= r <= i && SameKey(ws, r, i, config, key)
    decreases i - j
  {
    if SameKey(ws, j, i, config, key) then j else FirstSameKeyFrom(ws, j + 1, i, config, key)
  }

  /** No workflow from the `j`-th on before the one `FirstSameKeyFrom` picks
      shares the key. */
  lemma {:induction false} FirstSameKeyFromMinimal(ws: seq<WorkflowInfo>, j: nat, i: nat, m: nat,
                                                   config: Option<ConfigFile>, key: ConfigFile -> string)
    requires j <= m < i < |ws| && SelectedConfig(config, ws[i]).Some? && SameKey(ws, m, i, config, key)
    ensures FirstSameKeyFrom(ws, j, i, config, key) <= m
    decreases i - j
  {
    if !SameKey(ws, j, i, config, key) {
      FirstSameKeyFromMinimal(ws, j + 1, i, m, config, key);
    }
  }

  /** The first workflow of the run whose config has the key of workflow `i`'s. */
  function FirstSameKey(ws: seq<WorkflowInfo>, i: nat, config: Option<ConfigFile>, key: ConfigFile -> string): nat
    requires i < |ws| && SelectedConfig(config, ws[i]).Some?
  {
    FirstSameKeyFrom(ws, 0, i, config, key)
  }

  /** `v`, the parameters given to workflow `i` of the run, are those built
      from the config of the first workflow that shares its config's key,
      unless that key was cached (`start`) before the run. */
  ghost predicate BuiltInRun(v: Params, ws: seq<WorkflowInfo>, i: nat, config: Option<ConfigFile>,
                             read: ConfigFile -> ConfigRead, flags: LinterFlags, changed: seq<string>,
                             key: ConfigFile -> string, start: set<string>)
    requires i < |ws|
  {
    var c := SelectedConfig(config, ws[i]);
    c.Some? && key(c.value) !in start ==>
      BuiltFrom(v, SelectedConfig(config, ws[FirstSameKey(ws, i, config, key)]).value, read, flags, changed)
  }

  /** Two workflows with configs under one key share the first workflow with it. */
  lemma FirstSameKeyShared(ws: seq<WorkflowInfo>, m: nat, i: nat, config: Option<ConfigFile>, key: ConfigFile -> string)
    requires m < i < |ws| && SameKey(ws, m, i, config, key)
    ensures FirstSameKey(ws, i, config, key) == FirstSameKey(ws, m, config, key)
  {
    var a, b := FirstSameKey(ws, i, config, key), FirstSameKey(ws, m, config, key);
    FirstSameKeyFromMinimal(ws, 0, i, m, config, key);
    if a < b {
      FirstSameKeyFromMinimal(ws, 0, m, a, config, key);
    } else if b < a {
      FirstSameKeyFromMinimal(ws, 0, i, b, config, key);
    }
  }

  /** A workflow whose key no earlier workflow left is the first with it. */
  lemma FirstSameKeyNew(ws: seq<WorkflowInfo>, i: nat, config: Option<ConfigFile>, key: ConfigFile -> string)
    requires i < |ws| && SelectedConfig(config, ws[i]).Some?
    requires key(SelectedConfig(config, ws[i]).value) !in KeysUpTo(ws, i, config, key)
    ensures FirstSameKey(ws, i, config, key) == i
  {
    var r := FirstSameKey(ws, i, config, key);
    if r < i {
      KeysUpToHas(ws, i, r, config, key);
    }
  }

  /** Every configured workflow before `n` left its key. */
  lemma {:induction false} KeysUpToHas(ws: seq<WorkflowInfo>, n: nat, m: nat, config: Option<ConfigFile>, key: ConfigFile -> string)
    requires m < n <= |ws| && SelectedConfig(config, ws[m]).Some?
    ensures key(SelectedConfig(config, ws[m]).value) in KeysUpTo(ws, n, config, key)
  {
    if m < n - 1 {
      KeysUpToHas(ws, n - 1, m, config, key);
    }
  }

  /** Every key the workflows before `n` left is that of one of their configs. */
  lemma {:induction false} KeysUpToFrom(ws: seq<WorkflowInfo>, n: nat, config: Option<ConfigFile>, key: ConfigFile -> string, k: string)
    returns (m: nat)
    requires n <= |ws| && k in KeysUpTo(ws, n, config, key)
    ensures m < n && SelectedConfig(config, ws[m]).Some? && key(SelectedConfig(config, ws[m]).value) == k
  {
    if k in KeyOf(ws[n - 1], config, key) {
      m := n - 1;
    } else {
      m := KeysUpToFrom(ws, n - 1, config, key, k);
    }
  }

  /** Cache `large` keeps every entry of `small`. */
  ghost predicate Grown(small: map<string, WorkflowLintParams>, large: map<string, WorkflowLintParams>) {
    forall k :: k in small ==> k in large && large[k] == small[k]
  }

  /** Workflow `w`'s config was read, decoded and stored under key `k`. */
  predicate StoredBy(w: WorkflowInfo, config: Option<ConfigFile>, read: ConfigFile -> ConfigRead, key: ConfigFile -> string, k: string) {
    var c := SelectedConfig(config, w);
    c.Some? && key(c.value) == k && read(c.value).Decoded?
  }

  /** Every key `now` has and `start` lacks was stored for one of the first
      `n` workflows. */
  ghost predicate NewKeysStored(workflows: seq<WorkflowInfo>, n: nat, config: Option<ConfigFile>, read: ConfigFile -> ConfigRead,
                                key: ConfigFile -> string, start: map<string, WorkflowLintParams>, now: map<string, WorkflowLintParams>)
    requires n <= |workflows|
  {
    forall k :: k in now && k !in start ==> exists j :: 0 <= j < n && StoredBy(workflows[j], config, read, key, k)
  }

  /** What `ToWorkflowLintInfo` has done after the first `i` workflows, from
      the cache `start` to the cache `now`: each of them succeeded and has its
      info; the cache kept its entries and gained exactly their keys, each
      stored for a workflow whose config was read and decoded. */
  ghost predicate Progress(workflows: seq<WorkflowInfo>, i: nat, config: Option<ConfigFile>, flags: LinterFlags,
                           changed: seq<string>, read: ConfigFile -> ConfigRead, repoIDOf: Option<Project> -> Result<string>,
                           key: ConfigFile -> string, start: map<string, WorkflowLintParams>,
                           now: map<string, WorkflowLintParams>, infos: seq<WorkflowLintInfo>, vals: seq<Params>)
    reads set info | info in infos :: info.params
  {
    && i <= |workflows| && |infos| == i && HoldValues(infos, vals)
    && CacheProgress(workflows, i, config, read, repoIDOf, key, start, now)
    && InfosProgress(workflows, i, config, flags, changed, read, repoIDOf, key, start.Keys, now, infos, vals)
  }

  /** `vals` lists the values of the parameters of `infos`. */
  ghost predicate HoldValues(infos: seq<WorkflowLintInfo>, vals: seq<Params>)
    reads set info | info in infos :: info.params
  {
    |vals| == |infos| && forall j :: 0 <= j < |infos| ==> infos[j].params.Value() == vals[j]
  }

  /** The cache after the first `i` workflows: its old entries and exactly
      their keys, each new one stored for a config that was read and decoded;
      none of them had an error. */
  ghost predicate CacheProgress(workflows: seq<WorkflowInfo>, i: nat, config: Option<ConfigFile>,
                                read: ConfigFile -> ConfigRead, repoIDOf: Option<Project> -> Result<string>,
                                key: ConfigFile -> string, start: map<string, WorkflowLintParams>,
                                now: map<string, WorkflowLintParams>)
    requires i <= |workflows|
  {
    && Grown(start, now) && NewKeysStored(workflows, i, config, read, key, start, now)
    && now.Keys == start.Keys + KeysUpTo(workflows, i, config, key)
    && NoErrorBefore(workflows, i, config, read, repoIDOf, key, start.Keys)
  }

  /** The infos of the first `i` workflows, whose parameters hold `vals`, in
      the cache `now`. */
  ghost predicate InfosProgress(workflows: seq<WorkflowInfo>, i: nat, config: Option<ConfigFile>, flags: LinterFlags,
                                changed: seq<string>, read: ConfigFile -> ConfigRead,
                                repoIDOf: Option<Project> -> Result<string>, key: ConfigFile -> string,
                                start: set<string>, now: map<string, WorkflowLintParams>, infos: seq<WorkflowLintInfo>,
                                vals: seq<Params>)
    requires i <= |workflows| && |infos| == i && |vals| == i
  {
    && (forall j :: 0 <= j < i ==> Describes(infos[j], vals[j], workflows[j], config, flags, changed, repoIDOf, key, now))
    && forall j :: 0 <= j < i ==> BuiltInRun(vals[j], workflows, j, config, read, flags, changed, key, start)
  }

  /** One pass of `ToWorkflowLintInfo`'s loop: the cache `before` holds the
      keys the run started with and those of the workflows already done, so
      workflow `i` meets the error `ErrorAt` predicts. */
  lemma LintInfoStep(workflows: seq<WorkflowInfo>, i: nat, config: Option<ConfigFile>, flags: LinterFlags, changed: seq<string>,
                     read: ConfigFile -> ConfigRead, repoIDOf: Option<Project> -> Result<string>, key: ConfigFile -> string,
                     start: map<string, WorkflowLintParams>, before: map<string, WorkflowLintParams>,
                     after: map<string, WorkflowLintParams>, infos: seq<WorkflowLintInfo>, vals: seq<Params>,
                     info: Result<WorkflowLintInfo>)
    requires i < |workflows|
    requires Progress(workflows, i, config, flags, changed, read, repoIDOf, key, start, before, infos, vals)
    requires Grown(before, after)
    requires forall k :: k in after && k !in before ==> StoredBy(workflows[i], config, read, key, k)
    requires info.Success? ==> after.Keys == before.Keys + KeyOf(workflows[i], config, key)
    requires info.Failure? <==> WorkflowError(workflows[i], config, read, repoIDOf, key, before.Keys).Some?
    requires info.Failure? ==> WorkflowError(workflows[i], config, read, repoIDOf, key, before.Keys) == Some(info.error)
    requires info.Success? ==>
      Describes(info.value, info.value.params.Value(), workflows[i], config, flags, changed, repoIDOf, key, after)
    requires info.Success? && SelectedConfig(config, workflows[i]).Some?
             && key(SelectedConfig(config, workflows[i]).value) !in before ==>
      BuiltFrom(info.value.params.Value(), SelectedConfig(config, workflows[i]).value, read, flags, changed)
    ensures info.Failure? ==>
      && FirstError(workflows, config, read, repoIDOf, key, start.Keys) == Some(info.error)
      && Grown(start, after) && NewKeysStored(workflows, |workflows|, config, read, key, start, after)
    ensures info.Success? ==>
      Progress(workflows, i + 1, config, flags, changed, read, repoIDOf, key, start, after,
               infos + [info.value], vals + [info.value.params.Value()])
  {
    NewKeysStep(workflows, i, config, read, key, start, before, after);
    if info.Failure? {
      FirstErrorAt(workflows, i, config, read, repoIDOf, key, start.Keys);
    } else {
      KeysStep(workflows, i, config, read, repoIDOf, key, start.Keys, before.Keys, after.Keys);
      var v := info.value.params.Value();
      HoldValuesStep(infos, vals, info.value);
      InfosStep(workflows, i, config, flags, changed, read, repoIDOf, key, start.Keys, before, after, infos, vals, info.value, v);
    }
  }

  /** The values of one more info's parameters. */
  lemma HoldValuesStep(infos: seq<WorkflowLintInfo>, vals: seq<Params>, info: WorkflowLintInfo)
    requires HoldValues(infos, vals)
    ensures HoldValues(infos + [info], vals + [info.params.Value()])
  {
    forall j | 0 <= j < |infos| + 1
      ensures (infos + [info])[j].params.Value() == (vals + [info.params.Value()])[j]
    {
      if j < |infos| {
        assert (infos + [info])[j] == infos[j];
      }
    }
  }

  /** The infos of the workflows already done still hold in the grown cache,
      and workflow `i`'s joins them. */
  lemma InfosStep(workflows: seq<WorkflowInfo>, i: nat, config: Option<ConfigFile>, flags: LinterFlags,
                  changed: seq<string>, read: ConfigFile -> ConfigRead, repoIDOf: Option<Project> -> Result<string>,
                  key: ConfigFile -> string, start: set<string>, before: map<string, WorkflowLintParams>,
                  after: map<string, WorkflowLintParams>, infos: seq<WorkflowLintInfo>, vals: seq<Params>,
                  info: WorkflowLintInfo, v: Params)
    requires i < |workflows| && |infos| == i && HoldValues(infos, vals)
    requires before.Keys == start + KeysUpTo(workflows, i, config, key)
    requires InfosProgress(workflows, i, config, flags, changed, read, repoIDOf, key, start, before, infos, vals)
    requires Grown(before, after)
    requires Describes(info, v, workflows[i], config, flags, changed, repoIDOf, key, after)
    requires v == info.params.Value()
    requires SelectedConfig(config, workflows[i]).Some? && key(SelectedConfig(config, workflows[i]).value) !in before ==>
      BuiltFrom(v, SelectedConfig(config, workflows[i]).value, read, flags, changed)
    ensures InfosProgress(workflows, i + 1, config, flags, changed, read, repoIDOf, key, start, after, infos + [info], vals + [v])
  {
    DescribesStep(workflows, i, config, flags, changed, repoIDOf, key, before, after, infos, vals, info, v);
    BuiltStep(workflows, i, config, read, flags, changed, repoIDOf, key, start, before, after, infos, vals, info, v);
  }

  /** The keys workflow `i` adds were stored for it, so every new key of the
      run so far still has a workflow that stored it. */
  lemma NewKeysStep(workflows: seq<WorkflowInfo>, i: nat, config: Option<ConfigFile>, read: ConfigFile -> ConfigRead,
                    key: ConfigFile -> string, start: map<string, WorkflowLintParams>,
                    before: map<string, WorkflowLintParams>, after: map<string, WorkflowLintParams>)
    requires i < |workflows|
    requires Grown(start, before) && NewKeysStored(workflows, i, config, read, key, start, before)
    requires Grown(before, after)
    requires forall k :: k in after && k !in before ==> StoredBy(workflows[i], config, read, key, k)
    ensures Grown(start, after)
    ensures NewKeysStored(workflows, i + 1, config, read, key, start, after)
    ensures NewKeysStored(workflows, |workflows|, config, read, key, start, after)
  {
    forall k | k in after && k !in start
      ensures exists j :: 0 <= j < i + 1 && StoredBy(workflows[j], config, read, key, k)
    {
      if k !in before {
        assert StoredBy(workflows[i], config, read, key, k);
      }
    }
  }

  /** A workflow with no error adds its key to those of the run so far. */
  lemma KeysStep(workflows: seq<WorkflowInfo>, i: nat, config: Option<ConfigFile>, read: ConfigFile -> ConfigRead,
                 repoIDOf: Option<Project> -> Result<string>, key: ConfigFile -> string,
                 start: set<string>, before: set<string>, after: set<string>)
    requires i < |workflows|
    requires before == start + KeysUpTo(workflows, i, config, key)
    requires NoErrorBefore(workflows, i, config, read, repoIDOf, key, start)
    requires WorkflowError(workflows[i], config, read, repoIDOf, key, before).None?
    requires after == before + KeyOf(workflows[i], config, key)
    ensures after == start + KeysUpTo(workflows, i + 1, config, key)
    ensures NoErrorBefore(workflows, i + 1, config, read, repoIDOf, key, start)
  {
    assert ErrorAt(workflows, i, config, read, repoIDOf, key, start).None?;
  }

  /** The infos built so far still describe their workflows in the grown
      cache, and the new one joins them. */
  lemma DescribesStep(workflows: seq<WorkflowInfo>, i: nat, config: Option<ConfigFile>, flags: LinterFlags,
                      changed: seq<string>, repoIDOf: Option<Project> -> Result<string>, key: ConfigFile -> string,
                      before: map<string, WorkflowLintParams>, after: map<string, WorkflowLintParams>,
                      infos: seq<WorkflowLintInfo>, vals: seq<Params>, info: WorkflowLintInfo, v: Params)
    requires i < |workflows| && |infos| == i && |vals| == i
    requires forall j :: 0 <= j < i ==> Describes(infos[j], vals[j], workflows[j], config, flags, changed, repoIDOf, key, before)
    requires Grown(before, after)
    requires Describes(info, v, workflows[i], config, flags, changed, repoIDOf, key, after)
    ensures forall j :: 0 <= j < i + 1 ==>
      Describes((infos + [info])[j], (vals + [v])[j], workflows[j], config, flags, changed, repoIDOf, key, after)
  {
    forall j | 0 <= j < i + 1
      ensures Describes((infos + [info])[j], (vals + [v])[j], workflows[j], config, flags, changed, repoIDOf, key, after)
    {
      if j < i {
        DescribesGrow(infos[j], vals[j], workflows[j], config, flags, changed, repoIDOf, key, before, after);
      }
    }
  }

  /** The parameters workflow `i` gets are built from the first config of the
      run that shares its key, when that key was not cached at the start. */
  lemma BuiltStep(workflows: seq<WorkflowInfo>, i: nat, config: Option<ConfigFile>, read: ConfigFile -> ConfigRead,
                  flags: LinterFlags, changed: seq<string>, repoIDOf: Option<Project> -> Result<string>,
                  key: ConfigFile -> string, start: set<string>, before: map<string, WorkflowLintParams>,
                  after: map<string, WorkflowLintParams>, infos: seq<WorkflowLintInfo>, vals: seq<Params>,
                  info: WorkflowLintInfo, v: Params)
    requires i < |workflows| && |infos| == i && |vals| == i
    requires before.Keys == start + KeysUpTo(workflows, i, config, key)
    requires forall j :: 0 <= j < i ==> Describes(infos[j], vals[j], workflows[j], config, flags, changed, repoIDOf, key, before)
    requires forall j :: 0 <= j < i ==> vals[j] == infos[j].params.Value()
    requires forall j :: 0 <= j < i ==> BuiltInRun(vals[j], workflows, j, config, read, flags, changed, key, start)
    requires Grown(before, after)
    requires Describes(info, v, workflows[i], config, flags, changed, repoIDOf, key, after)
    requires v == info.params.Value()
    requires SelectedConfig(config, workflows[i]).Some? && key(SelectedConfig(config, workflows[i]).value) !in before ==>
      BuiltFrom(v, SelectedConfig(config, workflows[i]).value, read, flags, changed)
    ensures forall j :: 0 <= j < i + 1 ==>
      BuiltInRun((vals + [v])[j], workflows, j, config, read, flags, changed, key, start)
  {
    var c := SelectedConfig(config, workflows[i]);
    if c.Some? && key(c.value) !in start {
      if key(c.value) in before {
        var m := KeysUpToFrom(workflows, i, config, key, key(c.value));
        FirstSameKeyShared(workflows, m, i, config, key);
        assert infos[m].params == before[key(c.value)] == info.params;
        assert vals[m] == v;
      } else {
        FirstSameKeyNew(workflows, i, config, key);
      }
    }
    assert BuiltInRun(v, workflows, i, config, read, flags, changed, key, start);
    forall j | 0 <= j < i + 1
      ensures BuiltInRun((vals + [v])[j], workflows, j, config, read, flags, changed, key, start)
    {
      if j < i {
        assert (vals + [v])[j] == vals[j];
      }
    }
  }

  /** After the last workflow, the run has no error and every info is built. */
  lemma ProgressDone(workflows: seq<WorkflowInfo>, config: Option<ConfigFile>, flags: LinterFlags, changed: seq<string>,
                     read: ConfigFile -> ConfigRead, repoIDOf: Option<Project> -> Result<string>, key: ConfigFile -> string,
                     start: map<string, WorkflowLintParams>, now: map<string, WorkflowLintParams>, infos: seq<WorkflowLintInfo>,
                     vals: seq<Params>)
    requires Progress(workflows, |workflows|, config, flags, changed, read, repoIDOf, key, start, now, infos, vals)
    ensures FirstError(workflows, config, read, repoIDOf, key, start.Keys).None?
    ensures Grown(start, now) && NewKeysStored(workflows, |workflows|, config, read, key, start, now)
    ensures now.Keys == start.Keys + KeysUpTo(workflows, |workflows|, config, key)
    ensures |infos| == |workflows|
    ensures forall i :: 0 <= i < |workflows| ==>
      Describes(infos[i], infos[i].params.Value(), workflows[i], config, flags, changed, repoIDOf, key, now)
    ensures forall i :: 0 <= i < |workflows| ==>
      BuiltInRun(infos[i].params.Value(), workflows, i, config, read, flags, changed, key, start.Keys)
  {
    FirstErrorNone(workflows, config, read, repoIDOf, key, start.Keys);
  }

  /** A grown cache still describes what was built. */
  lemma DescribesGrow(info: WorkflowLintInfo, v: Params, w: WorkflowInfo, config: Option<ConfigFile>, flags: LinterFlags,
                      changed: seq<string>, repoIDOf: Option<Project> -> Result<string>, key: ConfigFile -> string,
                      small: map<string, WorkflowLintParams>, large: map<string, WorkflowLintParams>)
    requires Describes(info, v, w, config, flags, changed, repoIDOf, key, small)
    requires Grown(small, large)
    ensures Describes(info, v, w, config, flags, changed, repoIDOf, key, large)
  {
  }
}
