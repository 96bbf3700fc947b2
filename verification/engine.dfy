/** The per-reference decision chain of the linter (`lintJobUses` in
    pkg/linter/linter.go) with its helpers. Every remote service the chain
    consults is an oracle field of `Remote`. */
module Engine {
  import opened Wrappers
  import opened Text
  import opened Consts
  import opened Parser
  import opened Params

  /** Comments of hash-allowlist entries are cut to this many runes. */
  const MaxCommentLen: nat := 20

  /** A position in a workflow file. */
  datatype Pos = Pos(line: int, col: int)

  /** The `uses:` scalar of a step and where its value starts. */
  datatype UsesString = UsesString(value: string, pos: Pos)

  /** The project that holds a workflow, known by its root directory. */
  datatype Project = Project(rootDir: string)

  /** `WorkflowLintInfo`: the workflow file, its project (nil when the file is
      outside any repository), a pointer to its parameters, and the repository ID. */
  datatype WorkflowLintInfo = WorkflowLintInfo(
    filePath: string, project: Option<Project>, params: WorkflowLintParams, repoID: string)
  {
    /** `RelPath`: the file path itself without a project, else the path
        relative to the project root as `filepath.Rel` computes it. */
    function RelPath(rel: (string, string) -> Result<string>): (r: Result<string>)
      ensures project.None? ==> r == Success(filePath)
      ensures project.Some? ==> (r.Success? <==> rel(project.value.rootDir, filePath).Success?)
      ensures project.Some? && r.Success? ==> r == rel(project.value.rootDir, filePath)
    {
      if project.None? then Success(filePath)
      else
        var root := project.value.rootDir;
        match rel(root, filePath)
        case Failure(e) => Failure("failed to get relative path: root=" + root + ", error=" + e)
        case Success(p) => Success(p)
    }
  }

  /** The linter's `*Error`: an actionlint error plus the workflow's absolute
      path and project. */
  datatype LintError = LintError(
    message: string, filepath: string, line: int, column: int, kind: string,
    workflowAbsFilePath: string, project: Option<Project>)

  /** A git tag and the commit it points at. */
  datatype GitTag = GitTag(tag: string, commitHash: string)

  /** Whether a repository is archived, and since when (as `2006-01-02`). */
  datatype ArchiveStatus = ArchiveStatus(isArchived: bool, archivedAt: string)

  /** The answer to the GraphQL `user(login:)` query: a login (possibly empty),
      an error saying the login does not resolve to a user, or another error. */
  datatype UserLookup = UserFound(login: string) | UserNotResolved | UserQueryFailed(message: string)

  /** The remote services, as oracles. */
  datatype Remote = Remote(
    relPath: (string, string) -> Result<string>,           // filepath.Rel(root, path)
    tagsFromHash: (Repository, string) -> Result<seq<GitTag>>,
    tagFromRef: (Repository, string) -> Result<GitTag>,
    archived: Repository -> Result<ArchiveStatus>,
    userLogin: string -> UserLookup,
    orgLogin: string -> Result<string>,
    orgVerified: string -> Result<bool>,
    posText: Pos -> string)                                // actionlint's Pos.String

  /** `newLintError`: an error at `pos` in `relPath`, for the workflow of `info`. */
  function NewLintError(msg: string, relPath: string, info: WorkflowLintInfo, pos: Pos, kind: string): LintError {
    LintError(msg, relPath, pos.line, pos.col, kind, info.filePath, info.project)
  }

  // ---------------------------------------------------------------------------
  // Rendering helpers
  // ---------------------------------------------------------------------------

  /** `shortenHash`: the first seven characters of a commit hash; anything
      else unchanged. */
  function ShortenHash(h: string): (r: string)
    ensures HasPrefix(h, r)
    ensures IsSHA(h) ==> |r| == 7
    ensures !IsSHA(h) ==> r == h
  {
    if !IsSHA(h) then h else h[..7]
  }

  /** How a comment of an allowlist entry is shown: blanks and line breaks
      folded into single spaces, then trimmed; a nil comment shows as "". */
  function CommentText(c: Option<string>): string {
    if c.Some? then TrimSpace(ReplaceNewlines(c.value)) else ""
  }

  /** No line break, tab or form feed: only single-line text. */
  predicate SingleLine(s: string) {
    forall i :: 0 <= i < |s| ==> !IsPatternSpace(s[i]) || s[i] == ' '
  }

  lemma SingleLineSlice(s: string, lo: nat, hi: nat)
    requires SingleLine(s) && lo <= hi <= |s|
    ensures SingleLine(s[lo..hi])
  {
    forall i | 0 <= i < hi - lo ensures !IsPatternSpace(s[lo..hi][i]) || s[lo..hi][i] == ' ' {
      assert s[lo..hi][i] == s[lo + i];
    }
  }

  lemma SingleLineTruncate(s: string, n: nat)
    requires SingleLine(s)
    ensures SingleLine(Truncate(s, n)) && |Truncate(s, n)| <= n + 3
  {
    if |s| > n {
      SingleLineSlice(s, 0, n);
      var t := Truncate(s, n);
      forall i | 0 <= i < |t| ensures !IsPatternSpace(t[i]) || t[i] == ' ' {
        if i < n {
          assert t[i] == t[..n][i] == s[..n][i];
        } else {
          assert t[i] == t[n..][i - n] == "..."[i - n];
        }
      }
    }
  }

  /** A rendered comment is a single line of at most `MaxCommentLen` runes
      plus the ellipsis. */
  lemma CommentShape(c: Option<string>)
    ensures var t := Truncate(CommentText(c), MaxCommentLen);
      |t| <= MaxCommentLen + 3 && forall i :: 0 <= i < |t| ==> !IsPatternSpace(t[i]) || t[i] == ' '
  {
    if c.Some? {
      var s := ReplaceNewlines(c.value);
      var r := TrimSpace(s);
      var k := |s| - |TrimLeft(s)|;
      assert SingleLine(s);
      SingleLineSlice(s, k, k + |r|);
      assert r == s[k..k + |r|];
      SingleLineTruncate(r, MaxCommentLen);
    } else {
      SingleLineTruncate("", MaxCommentLen);
    }
  }

  /** One allowlist entry as the error message lists it. */
  function FormatEntry(shortSHA: string, tags: string, comment: string): string {
    if comment == "" then shortSHA + "(" + tags + ")"
    else shortSHA + "(" + tags + ": " + Truncate(comment, MaxCommentLen) + ")"
  }

  /** Go's `%v` of a `[]string`: the items between brackets, separated by spaces. */
  function FormatList(items: seq<string>): string {
    "[" + Join(items, " ") + "]"
  }

  /** `resolveGitTagNamesFromSha`: the names of the tags that point at a commit,
      in the resolver's order. */
  function ResolveTagNames(remote: Remote, repo: Repository, ref: string): (r: Result<seq<string>>)
    ensures r.Success? <==> remote.tagsFromHash(repo, ref).Success?
    ensures r.Success? ==>
      && |r.value| == |remote.tagsFromHash(repo, ref).value|
      && forall i :: 0 <= i < |r.value| ==> r.value[i] == remote.tagsFromHash(repo, ref).value[i].tag
    ensures r.Failure? ==>
      r.error == "failed to resolve git tags from a ref: repo=" + repo.owner + "/" + repo.name
        + ", ref=" + ref + ", error=" + remote.tagsFromHash(repo, ref).error
  {
    match remote.tagsFromHash(repo, ref)
    case Failure(e) =>
      Failure("failed to resolve git tags from a ref: repo=" + repo.owner + "/" + repo.name
        + ", ref=" + ref + ", error=" + e)
    case Success(tags) => Success(seq(|tags|, i requires 0 <= i < |tags| => tags[i].tag))
  }

  /** One entry of the hash allowlist rendered, or the tag-lookup error. */
  function RenderEntry(remote: Remote, repo: Repository, e: AllowedEntry): Result<string> {
    var comment := CommentText(e.comment);
    match ResolveTagNames(remote, repo, e.sha)
    case Failure(m) => Failure(m)
    case Success(names) => Success(FormatEntry(ShortenHash(e.sha), Join(names, ", "), comment))
  }

  /** Each entry rendered on its own. */
  function Renderings(remote: Remote, repo: Repository, entries: seq<AllowedEntry>): (rs: seq<Result<string>>)
    ensures |rs| == |entries| && forall i :: 0 <= i < |entries| ==> rs[i] == RenderEntry(remote, repo, entries[i])
  {
    seq(|entries|, i requires 0 <= i < |entries| => RenderEntry(remote, repo, entries[i]))
  }

  /** Results in order: all the values, or the first failure. */
  function Sequenced(rs: seq<Result<string>>): Result<seq<string>> {
    if |rs| == 0 then Success([])
    else
      match Sequenced(rs[..|rs| - 1])
      case Failure(m) => Failure(m)
      case Success(init) =>
        match rs[|rs| - 1]
        case Failure(m) => Failure(m)
        case Success(item) => Success(init + [item])
  }

  /** The entries rendered in order; the first failing tag lookup wins. */
  function Rendered(remote: Remote, repo: Repository, entries: seq<AllowedEntry>): Result<seq<string>> {
    Sequenced(Renderings(remote, repo, entries))
  }

  lemma {:induction false} SequencedSpec(rs: seq<Result<string>>)
    ensures Sequenced(rs).Success? <==> forall i :: 0 <= i < |rs| ==> rs[i].Success?
    ensures Sequenced(rs).Success? ==>
      |Sequenced(rs).value| == |rs| && forall i :: 0 <= i < |rs| ==> Sequenced(rs).value[i] == rs[i].value
    ensures Sequenced(rs).Failure? ==> exists i :: 0 <= i < |rs| && rs[i].Failure? && Sequenced(rs).error == rs[i].error
  {
    if |rs| > 0 {
      var init := rs[..|rs| - 1];
      SequencedSpec(init);
      assert forall i :: 0 <= i < |init| ==> init[i] == rs[i];
    }
  }

  /** Rendering succeeds exactly when every entry's tag lookup does, and then
      yields one item per entry, in order; a failure is some entry's failure. */
  lemma RenderedSpec(remote: Remote, repo: Repository, entries: seq<AllowedEntry>)
    ensures Rendered(remote, repo, entries).Success?
        <==> forall i :: 0 <= i < |entries| ==> RenderEntry(remote, repo, entries[i]).Success?
    ensures Rendered(remote, repo, entries).Success? ==>
      var items := Rendered(remote, repo, entries).value;
      |items| == |entries| && forall i :: 0 <= i < |entries| ==> items[i] == RenderEntry(remote, repo, entries[i]).value
    ensures Rendered(remote, repo, entries).Failure? ==>
      exists i :: 0 <= i < |entries| && RenderEntry(remote, repo, entries[i]).Failure?
        && Rendered(remote, repo, entries).error == RenderEntry(remote, repo, entries[i]).error
  {
    SequencedSpec(Renderings(remote, repo, entries));
  }

  /** Once a prefix fails, the whole sequence fails with the same message. */
  lemma {:induction false} SequencedFailurePersists(rs: seq<Result<string>>, n: nat)
    requires n <= |rs| && Sequenced(rs[..n]).Failure?
    ensures Sequenced(rs) == Sequenced(rs[..n])
  {
    if n < |rs| {
      var init := rs[..|rs| - 1];
      assert init[..n] == rs[..n];
      SequencedFailurePersists(init, n);
    } else {
      assert rs[..n] == rs;
    }
  }

  /** Once an entry fails, later entries are never consulted. */
  lemma RenderedFailurePersists(remote: Remote, repo: Repository, entries: seq<AllowedEntry>, n: nat)
    requires n <= |entries| && Rendered(remote, repo, entries[..n]).Failure?
    ensures Rendered(remote, repo, entries) == Rendered(remote, repo, entries[..n])
  {
    var rs := Renderings(remote, repo, entries);
    assert Renderings(remote, repo, entries[..n]) == rs[..n];
    SequencedFailurePersists(rs, n);
  }

  /** The rendering loop of the allowlist message. */
  method RenderAllowlist(remote: Remote, repo: Repository, entries: seq<AllowedEntry>) returns (r: Result<seq<string>>)
    ensures r == Rendered(remote, repo, entries)
  {
    ghost var rs := Renderings(remote, repo, entries);
    var allowlist: seq<string> := [];
    for i := 0 to |entries|
      invariant Sequenced(rs[..i]) == Success(allowlist)
    {
      assert rs[..i + 1][..i] == rs[..i];
      var item := RenderEntry(remote, repo, entries[i]);
      if item.Failure? {
        SequencedFailurePersists(rs, i + 1);
        return Failure(item.error);
      }
      allowlist := allowlist + [item.value];
    }
    assert rs[..|entries|] == rs;
    return Success(allowlist);
  }

  // ---------------------------------------------------------------------------
  // The rules
  // ---------------------------------------------------------------------------

  /** Whether the allowlist holds this commit for this action. */
  predicate HashAllowlisted(action: Action, params: Params) {
    exists e :: e in params.GetHashAllowlist(action).GetOr([]) && e.sha == action.ref
  }

  /** `isAllowlisted`: creator first, then the repository, then (for a pinned
      ref only) an exact SHA in the action's hash allowlist. */
  function IsAllowlisted(action: Action, params: Params): (r: (bool, string))
    ensures r.0 <==>
      || action.owner in params.creatorAllowlist
      || action.RepoID() in params.actionAllowlist
      || (action.IsPinnedBySHA() && HashAllowlisted(action, params))
    ensures !r.0 ==> r.1 == "not allowlisted"
    ensures action.owner in params.creatorAllowlist ==> r.1 == "allowlisted creator"
    ensures action.owner !in params.creatorAllowlist && action.RepoID() in params.actionAllowlist
      ==> r.1 == "allowlisted action"
  {
    if action.owner in params.creatorAllowlist then (true, "allowlisted creator")
    else if action.RepoID() in params.actionAllowlist then (true, "allowlisted action")
    else if !action.IsPinnedBySHA() then (false, "not allowlisted")
    else if HashAllowlisted(action, params) then (true, "pinned by allowlisted hash")
    else (false, "not allowlisted")
  }

  /** `isVerifiedCreator`: membership of the repository in the fixed list. */
  predicate IsVerifiedCreator(action: Action) {
    action.RepoID() in ActionsByVerifiedCreators
  }

  /** Exactly the four listed repositories are verified creators' actions. */
  lemma VerifiedCreatorsExactly(action: Action)
    requires '/' !in action.owner
    ensures IsVerifiedCreator(action) <==> (action.owner, action.name) in VerifiedPairs
  {
    if IsVerifiedCreator(action) {
      VerifiedCreatorPair(action);
    } else {
      VerifiedPairsListed();
    }
  }

  const VerifiedPairs: set<(string, string)> :=
    {("docker", "login-action"), ("google-github-actions", "auth"),
     ("google-github-actions", "setup-gcloud"), ("slackapi", "slack-github-action")}

  lemma VerifiedPairsListed()
    ensures forall p :: p in VerifiedPairs ==> p.0 + "/" + p.1 in ActionsByVerifiedCreators
  {
    assert "docker" + "/" + "login-action" == ActionsByVerifiedCreators[0];
    assert "google-github-actions" + "/" + "auth" == ActionsByVerifiedCreators[1];
    assert "google-github-actions" + "/" + "setup-gcloud" == ActionsByVerifiedCreators[2];
    assert "slackapi" + "/" + "slack-github-action" == ActionsByVerifiedCreators[3];
  }

  lemma VerifiedCreatorPair(action: Action)
    requires '/' !in action.owner && IsVerifiedCreator(action)
    ensures (action.owner, action.name) in VerifiedPairs
  {
    var k :| 0 <= k < 4 && action.RepoID() == ActionsByVerifiedCreators[k];
    var owner', name' := VerifiedEntry(k);
    RepoIDSplit(action.owner, action.name, owner', name');
  }

  /** The owner and name of entry `k` of the fixed list. */
  lemma VerifiedEntry(k: nat) returns (owner: string, name: string)
    requires k < 4
    ensures ActionsByVerifiedCreators[k] == owner + "/" + name && '/' !in owner
    ensures (owner, name) in VerifiedPairs
  {
    match k
    case 0 => owner, name := "docker", "login-action"; DockerEntry();
    case 1 => owner, name := "google-github-actions", "auth"; GoogleAuthEntry();
    case 2 => owner, name := "google-github-actions", "setup-gcloud"; GoogleSetupEntry();
    case 3 => owner, name := "slackapi", "slack-github-action"; SlackEntry();
  }

  lemma DockerEntry()
    ensures ActionsByVerifiedCreators[0] == "docker" + "/" + "login-action" && '/' !in "docker"
  {
  }

  lemma GoogleAuthEntry()
    ensures ActionsByVerifiedCreators[1] == "google-github-actions" + "/" + "auth" && '/' !in "google-github-actions"
  {
  }

  lemma GoogleSetupEntry()
    ensures ActionsByVerifiedCreators[2] == "google-github-actions" + "/" + "setup-gcloud"
  {
  }

  lemma SlackEntry()
    ensures ActionsByVerifiedCreators[3] == "slackapi" + "/" + "slack-github-action" && '/' !in "slackapi"
  {
  }

  /** `owner/name` determines its owner and name when neither owner holds a `/`. */
  lemma RepoIDSplit(owner: string, name: string, owner': string, name': string)
    requires '/' !in owner && '/' !in owner'
    requires owner + "/" + name == owner' + "/" + name'
    ensures owner == owner' && name == name'
  {
    var u := owner + "/" + name;
    SplitAt(owner, '/', name);
    SplitAt(owner', '/', name');
    assert Split(u, '/')[0] == owner;
    assert Split(u, '/')[0] == owner';
    assert name == u[|owner| + 1..];
    assert name' == u[|owner'| + 1..];
  }

  /** `checkVerifiedOrg` (the query bodies being oracles): nothing to report
      unless the flag holds; a login that is a user passes; otherwise the
      organization must exist and be verified. The result is the error text. */
  function CheckVerifiedOrg(login: string, params: Params, remote: Remote): (r: Option<string>)
    ensures params.enforceVerifiedOrganization != Some(true) ==> r.None?
  {
    if params.enforceVerifiedOrganization.None? || !params.enforceVerifiedOrganization.value then None
    else
      match remote.userLogin(login)
      case UserQueryFailed(e) => Some(e)
      case user =>
        var userLogin := if user.UserFound? then user.login else "";
        if userLogin != "" then None
        else
          match remote.orgLogin(login)
          case Failure(e) => Some("failed to execute a query: " + e)
          case Success(orgLogin) =>
            if orgLogin == "" then Some("organization not found: " + login)
            else
              match remote.orgVerified(login)
              case Failure(e) => Some("failed to execute a query: " + e)
              case Success(verified) =>
                if !verified then Some("organization is not verified: " + login) else None
  }

  /** While the flag holds, the owner passes exactly when it is a user, or an
      organization that exists and is verified, all queries answering. */
  lemma CheckVerifiedOrgPasses(login: string, params: Params, remote: Remote)
    requires params.enforceVerifiedOrganization == Some(true)
    ensures CheckVerifiedOrg(login, params, remote).None? <==>
      || (remote.userLogin(login).UserFound? && remote.userLogin(login).login != "")
      || (&& !remote.userLogin(login).UserQueryFailed?
          && remote.orgLogin(login).Success? && remote.orgLogin(login).value != ""
          && remote.orgVerified(login) == Success(true))
    ensures remote.userLogin(login).UserQueryFailed? ==>
      CheckVerifiedOrg(login, params, remote) == Some(remote.userLogin(login).message)
    ensures ((remote.userLogin(login).UserNotResolved? || remote.userLogin(login) == UserFound(""))
      && remote.orgLogin(login) == Success("")) ==>
      CheckVerifiedOrg(login, params, remote) == Some("organization not found: " + login)
  {
  }

  lemma IdByteLength(id: string)
    ensures |id| <= Utf8Len(id)
    ensures (forall i :: 0 <= i < |id| ==> id[i] as int < 0x80) ==> Utf8Len(id) == |id|
  {
    Utf8LenAtLeastRunes(id);
    if forall i :: 0 <= i < |id| ==> id[i] as int < 0x80 {
      Utf8LenAscii(id);
    }
  }

  /** Where the `ref` part of `owner/repo@ref` starts: after the ID (counted
      in bytes, as Go's `len` does) and the `@`. */
  function RefPos(pos: Pos, action: Action): (r: Pos)
    ensures r.line == pos.line && r.col > pos.col
    ensures (forall i :: 0 <= i < |action.id| ==> action.id[i] as int < 0x80) ==> r.col == pos.col + |action.id| + 1
  {
    IdByteLength(action.id);
    Pos(pos.line, pos.col + Utf8Len(action.id) + 1)
  }

  /** The tail of the chain: the ref must be a pinned, allowlisted hash or
      an accepted tag. */
  function LintRef(action: Action, relPath: string, refPos: Pos, info: WorkflowLintInfo, params: Params, remote: Remote): (r: Option<LintError>)
    requires params.Complete()
    ensures r.Some? ==> r.value.line == refPos.line && r.value.column == refPos.col && r.value.filepath == relPath
    ensures !action.IsPinnedBySHA() ==>
      r == if params.enforcePinHash.value then
        Some(NewLintError("invalid ref value: action=" + action.RepoID() + ", expected=SHA, actual=" + action.ref,
                          relPath, info, refPos, KindUnpinned))
      else None
    ensures action.IsPinnedBySHA() && r.Some? ==> r.value.kind in {KindRuntimeError, KindShaNotAllowlisted}
    ensures action.IsPinnedBySHA() && !params.allowOnlyAllowlistedHash.value ==>
      (r.Some? <==> remote.tagsFromHash(action.Repo(), action.ref).Failure?)
    // the ref's own tags cannot be resolved
    ensures action.IsPinnedBySHA() && remote.tagsFromHash(action.Repo(), action.ref).Failure? ==>
      r == Some(NewLintError("failed to resolve git tags: " + ResolveTagNames(remote, action.Repo(), action.ref).error,
                             relPath, info, refPos, KindRuntimeError))
    // allowlist-only: a pinned ref that gets this far is always rejected
    ensures action.IsPinnedBySHA() && params.allowOnlyAllowlistedHash.value ==> r.Some?
    ensures (action.IsPinnedBySHA() && params.allowOnlyAllowlistedHash.value
             && remote.tagsFromHash(action.Repo(), action.ref).Success?) ==>
      var rendered := Rendered(remote, action.Repo(), params.GetHashAllowlist(action).GetOr([]));
      && (rendered.Failure? ==>
            r == Some(NewLintError("failed to resolve git tags: " + rendered.error, relPath, info, refPos, KindRuntimeError)))
      && (rendered.Success? ==>
            r == Some(NewLintError(
              "invalid ref value: action=" + action.id + ", sha=" + ShortenHash(action.ref)
                + "(" + Join(ResolveTagNames(remote, action.Repo(), action.ref).value, ", ") + "), allowlist="
                + FormatList(rendered.value),
              relPath, info, refPos, KindShaNotAllowlisted)))
  {
    var repo := action.Repo();
    if action.IsPinnedBySHA() then
      match ResolveTagNames(remote, repo, action.ref)
      case Failure(e) =>
        Some(NewLintError("failed to resolve git tags: " + e, relPath, info, refPos, KindRuntimeError))
      case Success(tagNames) =>
        var tagsStr := Join(tagNames, ", ");
        var refShortHash := ShortenHash(action.ref);
        if params.allowOnlyAllowlistedHash.value then
          match Rendered(remote, repo, params.GetHashAllowlist(action).GetOr([]))
          case Failure(e) =>
            Some(NewLintError("failed to resolve git tags: " + e, relPath, info, refPos, KindRuntimeError))
          case Success(allowlist) =>
            Some(NewLintError(
              "invalid ref value: action=" + action.id + ", sha=" + refShortHash + "(" + tagsStr + "), allowlist="
                + FormatList(allowlist),
              relPath, info, refPos, KindShaNotAllowlisted))
        else None
    else if params.enforcePinHash.value then
      Some(NewLintError("invalid ref value: action=" + action.RepoID() + ", expected=SHA, actual=" + action.ref,
                        relPath, info, refPos, KindUnpinned))
    else None
  }

  /** The remote checks for an action that no rule has let through yet:
      archived, then the owner's organization, then the ref. */
  function LintVetted(action: Action, relPath: string, pos: Pos, info: WorkflowLintInfo, params: Params, remote: Remote): (r: Option<LintError>)
    requires params.Complete()
    ensures remote.archived(action.Repo()).Failure? ==>
      r.Some? && r.value.kind == KindRuntimeError && r.value.line == pos.line && r.value.column == pos.col
    ensures (remote.archived(action.Repo()).Success? && remote.archived(action.Repo()).value.isArchived
      && !params.allowArchivedRepo.value) ==>
      r == Some(NewLintError("archived action found: repo=" + action.RepoID() + ", archived-at="
        + remote.archived(action.Repo()).value.archivedAt, relPath, info, pos, KindArchivedNotAllowed))
    ensures (remote.archived(action.Repo()).Success?
      && (!remote.archived(action.Repo()).value.isArchived || params.allowArchivedRepo.value)) ==>
      r == match CheckVerifiedOrg(action.owner, params, remote)
           case Some(e) =>
             Some(NewLintError("failed to check if the owner is verified: " + e, relPath, info, pos, KindRuntimeError))
           case None => LintRef(action, relPath, RefPos(pos, action), info, params, remote)
  {
    match remote.archived(action.Repo())
    case Failure(e) =>
      Some(NewLintError("failed to check if the action is archived: " + e, relPath, info, pos, KindRuntimeError))
    case Success(status) =>
      if status.isArchived && !params.allowArchivedRepo.value then
        Some(NewLintError("archived action found: repo=" + action.RepoID() + ", archived-at=" + status.archivedAt,
                          relPath, info, pos, KindArchivedNotAllowed))
      else
        match CheckVerifiedOrg(action.owner, params, remote)
        case Some(e) =>
          Some(NewLintError("failed to check if the owner is verified: " + e, relPath, info, pos, KindRuntimeError))
        case None => LintRef(action, relPath, RefPos(pos, action), info, params, remote)
  }

  /** The rules for a parsed action, in the order the source applies them. */
  function LintParsed(action: Action, relPath: string, pos: Pos, info: WorkflowLintInfo, params: Params, remote: Remote): (r: Option<LintError>)
    requires params.Complete()
    ensures action.IsLocalReusableWorkflows() ==> r.None?
    ensures params.excludeOfficialActions.value && action.owner in OfficialCreators ==> r.None?
    ensures (!action.IsLocalReusableWorkflows() && !(params.excludeOfficialActions.value && action.owner in OfficialCreators)
      && IsAllowlisted(action, params).0) ==>
      && (r.Some? ==> r.value.kind == KindRuntimeError && r.value.line == pos.line && r.value.column == pos.col)
      && (action.IsPinnedBySHA() ==> (r.Some? <==> remote.tagsFromHash(action.Repo(), action.ref).Failure?))
      && (!action.IsPinnedBySHA() ==> (r.Some? <==> remote.tagFromRef(action.Repo(), action.ref).Failure?))
    ensures (!action.IsLocalReusableWorkflows() && !(params.excludeOfficialActions.value && action.owner in OfficialCreators)
      && !IsAllowlisted(action, params).0) ==>
      r == if params.excludeVerifiedCreators.value && IsVerifiedCreator(action) then None
           else LintVetted(action, relPath, pos, info, params, remote)
  {
    if action.IsLocalReusableWorkflows() then None
    else if params.excludeOfficialActions.value && action.owner in OfficialCreators then None
    else if IsAllowlisted(action, params).0 then
      if action.IsPinnedBySHA() then
        match ResolveTagNames(remote, action.Repo(), action.ref)
        case Failure(e) =>
          Some(NewLintError("failed to resolve git tags from sha: " + e, relPath, info, pos, KindRuntimeError))
        case Success(_) => None
      else
        match remote.tagFromRef(action.Repo(), action.ref)
        case Failure(e) =>
          Some(NewLintError("failed to resolve git tag: " + e, relPath, info, pos, KindRuntimeError))
        case Success(_) => None
    else if params.excludeVerifiedCreators.value && IsVerifiedCreator(action) then None
    else LintVetted(action, relPath, pos, info, params, remote)
  }

  /** A `uses:` value with exactly one `@`: locate the file, parse, then apply
      the rules. */
  function LintAction(uses: UsesString, info: WorkflowLintInfo, params: Params, remote: Remote): (r: Option<LintError>)
    requires params.Complete()
    ensures info.RelPath(remote.relPath).Failure? ==>
      r == Some(NewLintError("failed to get relative path: " + info.RelPath(remote.relPath).error,
                             info.filePath, info, uses.pos, KindRuntimeError))
    ensures info.RelPath(remote.relPath).Success? && ParseActionUses(uses.value).Failure? ==>
      r == Some(NewLintError(ParseActionUses(uses.value).error, info.RelPath(remote.relPath).value,
                             info, uses.pos, KindUnexpectedValue))
    ensures info.RelPath(remote.relPath).Success? && ParseActionUses(uses.value).Success? ==>
      r == LintParsed(ParseActionUses(uses.value).value, info.RelPath(remote.relPath).value, uses.pos, info, params, remote)
  {
    match info.RelPath(remote.relPath)
    case Failure(e) =>
      Some(NewLintError("failed to get relative path: " + e, info.filePath, info, uses.pos, KindRuntimeError))
    case Success(relPath) =>
      match ParseActionUses(uses.value)
      case Failure(e) => Some(NewLintError(e, relPath, info, uses.pos, KindUnexpectedValue))
      case Success(action) => LintParsed(action, relPath, uses.pos, info, params, remote)
  }

  /** `lintJobUses`: no error for a missing value or one without `@`, the
      rule chain for exactly one `@`, an unexpected-value error for more. */
  function LintJobUses(uses: Option<UsesString>, info: WorkflowLintInfo, remote: Remote): (r: Option<LintError>)
    reads info.params
    requires info.params.Value().Complete()
  {
    if uses.None? then None
    else
      var items := Split(uses.value.value, '@');
      if |items| == 1 then None
      else if |items| == 2 then LintAction(uses.value, info, info.params.Value(), remote)
      else
        Some(NewLintError("invalid uses value: " + remote.posText(uses.value.pos),
                          info.filePath, info, uses.value.pos, KindUnexpectedValue))
  }

  // ---------------------------------------------------------------------------
  // Properties of the chain
  // ---------------------------------------------------------------------------

  /** No value, or one without `@`, is never reported, whatever the remote says. */
  lemma NoAtNoError(uses: Option<UsesString>, info: WorkflowLintInfo, remote: Remote)
    requires info.params.Value().Complete()
    requires uses.Some? ==> '@' !in uses.value.value
    ensures LintJobUses(uses, info, remote).None?
  {
    if uses.Some? {
      SplitFree(uses.value.value, '@');
    }
  }

  /** Two or more `@` give an unexpected-value error at the `uses` position in
      the workflow's own path, consulting nothing but the position text. */
  lemma ManyAtsUnexpected(uses: UsesString, info: WorkflowLintInfo, remote: Remote)
    requires info.params.Value().Complete()
    requires Count(uses.value, '@') >= 2
    ensures LintJobUses(Some(uses), info, remote)
         == Some(LintError("invalid uses value: " + remote.posText(uses.pos), info.filePath,
                           uses.pos.line, uses.pos.col, KindUnexpectedValue, info.filePath, info.project))
  {
    SplitCount(uses.value, '@');
  }

  /** With exactly one `@`, the chain of `LintAction` decides. */
  lemma OneAtChain(uses: UsesString, info: WorkflowLintInfo, remote: Remote)
    requires info.params.Value().Complete()
    requires Count(uses.value, '@') == 1
    ensures LintJobUses(Some(uses), info, remote) == LintAction(uses, info, info.params.Value(), remote)
  {
    SplitCount(uses.value, '@');
  }

  /** The early exits (local reusable workflow, official owner) report
      nothing and consult no remote service: any two remotes that agree on
      relative paths give the same answer. */
  lemma EarlyExitsIgnoreRemote(uses: UsesString, info: WorkflowLintInfo, params: Params, r1: Remote, r2: Remote)
    requires params.Complete()
    requires r1.relPath == r2.relPath
    requires info.RelPath(r1.relPath).Success? && ParseActionUses(uses.value).Success?
    requires var a := ParseActionUses(uses.value).value;
      a.IsLocalReusableWorkflows() || (params.excludeOfficialActions.value && a.owner in OfficialCreators)
    ensures LintAction(uses, info, params, r1) == LintAction(uses, info, params, r2) == None
  {
  }

  /** The kinds the chain can produce: never `KindArchivedActionUsed`. */
  lemma ProducedKinds(uses: Option<UsesString>, info: WorkflowLintInfo, remote: Remote)
    requires info.params.Value().Complete()
    ensures var r := LintJobUses(uses, info, remote);
      r.Some? ==> r.value.kind in {KindRuntimeError, KindUnexpectedValue, KindUnpinned,
                                   KindArchivedNotAllowed, KindShaNotAllowlisted}
    ensures var r := LintJobUses(uses, info, remote);
      r.Some? ==> r.value.kind != KindArchivedActionUsed
  {
    KindsDistinct();
    if uses.Some? && |Split(uses.value.value, '@')| == 2 {
      LintActionKinds(uses.value, info, info.params.Value(), remote);
    }
  }

  lemma LintActionKinds(uses: UsesString, info: WorkflowLintInfo, params: Params, remote: Remote)
    requires params.Complete()
    ensures var r := LintAction(uses, info, params, remote);
      r.Some? ==> r.value.kind in {KindRuntimeError, KindUnexpectedValue, KindUnpinned,
                                   KindArchivedNotAllowed, KindShaNotAllowlisted}
  {
    if info.RelPath(remote.relPath).Success? && ParseActionUses(uses.value).Success? {
      var a := ParseActionUses(uses.value).value;
      LintVettedKinds(a, info.RelPath(remote.relPath).value, uses.pos, info, params, remote);
    }
  }

  lemma LintVettedKinds(action: Action, relPath: string, pos: Pos, info: WorkflowLintInfo, params: Params, remote: Remote)
    requires params.Complete()
    ensures var r := LintVetted(action, relPath, pos, info, params, remote);
      r.Some? ==> r.value.kind in {KindRuntimeError, KindUnpinned, KindArchivedNotAllowed, KindShaNotAllowlisted}
  {
    LintRefKinds(action, relPath, RefPos(pos, action), info, params, remote);
  }

  lemma LintRefKinds(action: Action, relPath: string, refPos: Pos, info: WorkflowLintInfo, params: Params, remote: Remote)
    requires params.Complete()
    ensures var r := LintRef(action, relPath, refPos, info, params, remote);
      r.Some? ==> r.value.kind in {KindRuntimeError, KindUnpinned, KindShaNotAllowlisted}
  {
  }

  /** "SHA is not allowlisted" is reported only for a pinned ref with the
      allowlist-only flag, and only when no entry of the action's hash
      allowlist holds that SHA. */
  lemma ShaNotAllowlistedOnlyWhen(uses: UsesString, info: WorkflowLintInfo, params: Params, remote: Remote)
    requires params.Complete()
    requires var r := LintAction(uses, info, params, remote); r.Some? && r.value.kind == KindShaNotAllowlisted
    ensures ParseActionUses(uses.value).Success?
    ensures var a := ParseActionUses(uses.value).value;
      && a.IsPinnedBySHA() && params.allowOnlyAllowlistedHash.value
      && forall e :: e in params.GetHashAllowlist(a).GetOr([]) ==> e.sha != a.ref
  {
    KindsDistinct();
    var a := ParseActionUses(uses.value).value;
    var relPath := info.RelPath(remote.relPath).value;
    if IsAllowlisted(a, params).0 {
      assert false;
    }
  }

  /** An action that no earlier rule lets through or reports: not a local
      reusable workflow, not an excluded official or verified creator, not
      allowlisted, its archive status known and acceptable, and its owner
      passing the organization check. */
  predicate ReachesRef(a: Action, params: Params, remote: Remote)
    requires params.Complete()
  {
    && !a.IsLocalReusableWorkflows()
    && !(params.excludeOfficialActions.value && a.owner in OfficialCreators)
    && !IsAllowlisted(a, params).0
    && !(params.excludeVerifiedCreators.value && IsVerifiedCreator(a))
    && remote.archived(a.Repo()).Success?
    && (!remote.archived(a.Repo()).value.isArchived || params.allowArchivedRepo.value)
    && CheckVerifiedOrg(a.owner, params, remote).None?
  }

  /** Such an action is decided by the ref rule, at the ref's position. */
  lemma ReachesRefChain(uses: UsesString, info: WorkflowLintInfo, params: Params, remote: Remote)
    requires params.Complete()
    requires info.RelPath(remote.relPath).Success? && ParseActionUses(uses.value).Success?
    requires ReachesRef(ParseActionUses(uses.value).value, params, remote)
    ensures var a := ParseActionUses(uses.value).value;
      LintAction(uses, info, params, remote)
        == LintRef(a, info.RelPath(remote.relPath).value, RefPos(uses.pos, a), info, params, remote)
  {
  }

  /** An unpinned ref that reaches the end of the chain is reported, under
      `EnforcePinHash`, right after the ID and the `@`; without the flag it
      passes. */
  lemma UnpinnedReported(uses: UsesString, info: WorkflowLintInfo, params: Params, remote: Remote)
    requires params.Complete()
    requires info.RelPath(remote.relPath).Success? && ParseActionUses(uses.value).Success?
    requires var a := ParseActionUses(uses.value).value;
      ReachesRef(a, params, remote) && !a.IsPinnedBySHA()
    ensures var a := ParseActionUses(uses.value).value;
      LintAction(uses, info, params, remote)
        == if params.enforcePinHash.value then
             Some(LintError("invalid ref value: action=" + a.RepoID() + ", expected=SHA, actual=" + a.ref,
                            info.RelPath(remote.relPath).value, uses.pos.line, uses.pos.col + Utf8Len(a.id) + 1,
                            KindUnpinned, info.filePath, info.project))
           else None
  {
    ReachesRefChain(uses, info, params, remote);
  }

  /** Allowlist-only mode: a pinned ref that reaches the end of the chain
      holds a SHA that none of the action's hash-allowlist entries holds, and
      it is always reported. It is "SHA is not allowlisted" exactly when the
      ref's tags and every entry's tags resolve; the message then lists one
      rendered item per entry, in order. */
  lemma AllowlistOnlyReported(uses: UsesString, info: WorkflowLintInfo, params: Params, remote: Remote)
    requires params.Complete() && params.allowOnlyAllowlistedHash.value
    requires info.RelPath(remote.relPath).Success? && ParseActionUses(uses.value).Success?
    requires var a := ParseActionUses(uses.value).value;
      ReachesRef(a, params, remote) && a.IsPinnedBySHA()
    ensures var a := ParseActionUses(uses.value).value;
      forall e :: e in params.GetHashAllowlist(a).GetOr([]) ==> e.sha != a.ref
    ensures var r := LintAction(uses, info, params, remote);
      var a := ParseActionUses(uses.value).value;
      var entries := params.GetHashAllowlist(a).GetOr([]);
      && r.Some?
      && r.value.line == uses.pos.line && r.value.column == RefPos(uses.pos, a).col
      && (r.value.kind == KindShaNotAllowlisted <==>
            remote.tagsFromHash(a.Repo(), a.ref).Success?
            && forall i :: 0 <= i < |entries| ==> RenderEntry(remote, a.Repo(), entries[i]).Success?)
      && (r.value.kind != KindShaNotAllowlisted ==> r.value.kind == KindRuntimeError)
      && (r.value.kind == KindShaNotAllowlisted ==>
            var items := Rendered(remote, a.Repo(), entries).value;
            && |items| == |entries|
            && (forall i :: 0 <= i < |entries| ==> items[i] == RenderEntry(remote, a.Repo(), entries[i]).value)
            && r.value.message == "invalid ref value: action=" + a.id + ", sha=" + ShortenHash(a.ref)
                 + "(" + Join(ResolveTagNames(remote, a.Repo(), a.ref).value, ", ") + "), allowlist="
                 + FormatList(items))
  {
    var a := ParseActionUses(uses.value).value;
    ReachesRefChain(uses, info, params, remote);
    RenderedSpec(remote, a.Repo(), params.GetHashAllowlist(a).GetOr([]));
    KindsDistinct();
  }
}
