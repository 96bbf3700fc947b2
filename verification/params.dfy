/** The per-workflow lint parameters (`WorkflowLintParams`), the functional
    options that build them, and the value-receiver queries on them
    (pkg/linter/linter.go). */
module Params {
  import opened Wrappers
  import opened Text
  import opened Parser

  const DefaultExcludeOfficialActions: bool := true
  const DefaultExcludeVerifiedCreators: bool := false
  const DefaultAllowOnlyAllowlistedHash: bool := false
  const DefaultAllowArchivedRepo: bool := true
  const DefaultEnforcePinHash: bool := true
  const DefaultEnforceVerifiedOrg: bool := false

  /** One allowed commit of a hash allowlist, with an optional comment. */
  datatype AllowedEntry = AllowedEntry(sha: string, comment: Option<string>)

  /** Keyed by a repository ID (`OWNER/NAME`) or an action ID. */
  type HashAllowlist = map<string, seq<AllowedEntry>>

  /** The six tri-state flags. */
  datatype Flag =
    | ExcludeOfficialActions
    | ExcludeVerifiedCreators
    | AllowOnlyAllowlistedHash
    | AllowArchivedRepo
    | EnforcePinHash
    | EnforceVerifiedOrganization

  function Default(f: Flag): bool {
    match f
    case ExcludeOfficialActions => DefaultExcludeOfficialActions
    case ExcludeVerifiedCreators => DefaultExcludeVerifiedCreators
    case AllowOnlyAllowlistedHash => DefaultAllowOnlyAllowlistedHash
    case AllowArchivedRepo => DefaultAllowArchivedRepo
    case EnforcePinHash => DefaultEnforcePinHash
    case EnforceVerifiedOrganization => DefaultEnforceVerifiedOrg
  }

  /** A `WorkflowLintOption`: each `With*` constructor of the source, as data.
      Every option of the source returns a nil error. */
  datatype LintOption =
    | WithExcludeOfficialActions(v: bool)
    | WithExcludeVerifiedCreators(v: bool)
    | WithAllowOnlyAllowlistedHash(v: bool)
    | WithAllowArchivedRepo(v: bool)
    | WithEnforcePinHash(v: bool)
    | WithEnforceVerifiedOrganization(v: bool)
    | WithCreatorAllowlist(values: seq<string>)
    | WithActionAllowlist(values: seq<string>)
    | WithHashAllowlist(allowlist: HashAllowlist)
  {
    /** Whether this option sets flag `f`. */
    predicate SetsFlag(f: Flag) {
      match this
      case WithExcludeOfficialActions(_) => f == ExcludeOfficialActions
      case WithExcludeVerifiedCreators(_) => f == ExcludeVerifiedCreators
      case WithAllowOnlyAllowlistedHash(_) => f == AllowOnlyAllowlistedHash
      case WithAllowArchivedRepo(_) => f == AllowArchivedRepo
      case WithEnforcePinHash(_) => f == EnforcePinHash
      case WithEnforceVerifiedOrganization(_) => f == EnforceVerifiedOrganization
      case _ => false
    }
  }

  /** The option that sets flag `f` to `v`. */
  function FlagOption(f: Flag, v: bool): (o: LintOption)
    ensures o.SetsFlag(f) && o.v == v
  {
    match f
    case ExcludeOfficialActions => WithExcludeOfficialActions(v)
    case ExcludeVerifiedCreators => WithExcludeVerifiedCreators(v)
    case AllowOnlyAllowlistedHash => WithAllowOnlyAllowlistedHash(v)
    case AllowArchivedRepo => WithAllowArchivedRepo(v)
    case EnforcePinHash => WithEnforcePinHash(v)
    case EnforceVerifiedOrganization => WithEnforceVerifiedOrganization(v)
  }

  /** The value of a `WorkflowLintParams` struct. A flag is `None` while it is
      a nil pointer. A nil slice or map is the empty one: every use in the
      linter (range, len, contains, append, lookup) treats the two alike. */
  datatype Params = Params(
    excludeOfficialActions: Option<bool>,
    excludeVerifiedCreators: Option<bool>,
    allowOnlyAllowlistedHash: Option<bool>,
    allowArchivedRepo: Option<bool>,
    enforcePinHash: Option<bool>,
    enforceVerifiedOrganization: Option<bool>,
    creatorAllowlist: seq<string>,
    actionAllowlist: seq<string>,
    hashAllowlist: HashAllowlist)
  {
    function Get(f: Flag): Option<bool> {
      match f
      case ExcludeOfficialActions => excludeOfficialActions
      case ExcludeVerifiedCreators => excludeVerifiedCreators
      case AllowOnlyAllowlistedHash => allowOnlyAllowlistedHash
      case AllowArchivedRepo => allowArchivedRepo
      case EnforcePinHash => enforcePinHash
      case EnforceVerifiedOrganization => enforceVerifiedOrganization
    }

    /** No flag is a nil pointer: the decision chain may dereference each. */
    predicate Complete() {
      && excludeOfficialActions.Some? && excludeVerifiedCreators.Some? && allowOnlyAllowlistedHash.Some?
      && allowArchivedRepo.Some? && enforcePinHash.Some? && enforceVerifiedOrganization.Some?
    }

    /** `GetHashAllowlist`: the list under the action's full ID if that key
        exists (even when the list is empty), else the list under its
        repository ID, else nil. */
    function GetHashAllowlist(a: Action): (r: Option<seq<AllowedEntry>>)
      ensures r.Some? <==> a.id in hashAllowlist || a.RepoID() in hashAllowlist
      ensures a.id in hashAllowlist ==> r.value == hashAllowlist[a.id]
      ensures a.id !in hashAllowlist && a.RepoID() in hashAllowlist ==> r.value == hashAllowlist[a.RepoID()]
    {
      if a.id in hashAllowlist then Some(hashAllowlist[a.id])
      else if a.RepoID() in hashAllowlist then Some(hashAllowlist[a.RepoID()])
      else None
    }

    /** `GetOptions` (a value receiver): one option per set flag and per
        non-empty list or map, in field order. Applying them to a zero struct
        rebuilds these parameters, with duplicates dropped from the name lists. */
    method GetOptions() returns (opts: seq<LintOption>)
      ensures ApplyAll(Unset, opts) == Normalized()
    {
      opts := [];
      opts := AppendIf(opts, excludeOfficialActions.Some?,
        WithExcludeOfficialActions(excludeOfficialActions.GetOr(false)), this, 0);
      opts := AppendIf(opts, excludeVerifiedCreators.Some?,
        WithExcludeVerifiedCreators(excludeVerifiedCreators.GetOr(false)), this, 1);
      opts := AppendIf(opts, allowOnlyAllowlistedHash.Some?,
        WithAllowOnlyAllowlistedHash(allowOnlyAllowlistedHash.GetOr(false)), this, 2);
      opts := AppendIf(opts, allowArchivedRepo.Some?,
        WithAllowArchivedRepo(allowArchivedRepo.GetOr(false)), this, 3);
      opts := AppendIf(opts, enforcePinHash.Some?,
        WithEnforcePinHash(enforcePinHash.GetOr(false)), this, 4);
      opts := AppendIf(opts, enforceVerifiedOrganization.Some?,
        WithEnforceVerifiedOrganization(enforceVerifiedOrganization.GetOr(false)), this, 5);
      opts := AppendIf(opts, |creatorAllowlist| > 0, WithCreatorAllowlist(creatorAllowlist), this, 6);
      opts := AppendIf(opts, |actionAllowlist| > 0, WithActionAllowlist(actionAllowlist), this, 7);
      opts := AppendIf(opts, |hashAllowlist| > 0, WithHashAllowlist(hashAllowlist), this, 8);
    }

    /** The same parameters with duplicates removed from both name lists. */
    function Normalized(): Params {
      this.(creatorAllowlist := Merged([], creatorAllowlist), actionAllowlist := Merged([], actionAllowlist))
    }
  }

  /** The zero value of the struct: every flag nil, every list empty. */
  const Unset: Params := Params(None, None, None, None, None, None, [], [], map[])

  predicate NoDup(s: seq<string>) {
    forall i, j :: 0 <= i < j < |s| ==> s[i] != s[j]
  }

  // ---------------------------------------------------------------------------
  // Allowlist merging (`WithCreatorAllowlist`, `WithActionAllowlist`)
  // ---------------------------------------------------------------------------

  function AddAbsent(list: seq<string>, x: string): seq<string> {
    if x in list then list else list + [x]
  }

  /** `list` with every value of `values` not yet present appended, in order. */
  function Merged(list: seq<string>, values: seq<string>): seq<string> {
    if |values| == 0 then list
    else AddAbsent(Merged(list, values[..|values| - 1]), values[|values| - 1])
  }

  /** Merging keeps the old list as a prefix, and the result holds exactly the
      values of both inputs. */
  lemma {:induction false} MergedContents(list: seq<string>, values: seq<string>)
    ensures |list| <= |Merged(list, values)| && Merged(list, values)[..|list|] == list
    ensures forall x :: x in Merged(list, values) <==> x in list || x in values
  {
    if |values| > 0 {
      var init := values[..|values| - 1];
      MergedContents(list, init);
      assert values == init + [values[|values| - 1]];
    }
  }

  /** Merging never introduces a duplicate. */
  lemma {:induction false} MergedNoDup(list: seq<string>, values: seq<string>)
    requires NoDup(list)
    ensures NoDup(Merged(list, values))
  {
    if |values| > 0 {
      MergedNoDup(list, values[..|values| - 1]);
    }
  }

  /** Values that are all present already change nothing. */
  lemma {:induction false} MergedPresent(list: seq<string>, values: seq<string>)
    requires forall x :: x in values ==> x in list
    ensures Merged(list, values) == list
  {
    if |values| > 0 {
      var init := values[..|values| - 1];
      assert forall x :: x in init ==> x in values;
      MergedPresent(list, init);
      assert values[|values| - 1] in values;
    }
  }

  /** Merging the same values twice is merging them once. */
  lemma MergedIdempotent(list: seq<string>, values: seq<string>)
    ensures Merged(Merged(list, values), values) == Merged(list, values)
  {
    MergedContents(list, values);
    MergedPresent(Merged(list, values), values);
  }

  /** Merging in two batches is merging their concatenation. */
  lemma {:induction false} MergedConcat(list: seq<string>, a: seq<string>, b: seq<string>)
    ensures Merged(list, a + b) == Merged(Merged(list, a), b)
  {
    if |b| == 0 {
      assert a + b == a;
    } else {
      var b' := b[..|b| - 1];
      assert (a + b)[..|a + b| - 1] == a + b';
      MergedConcat(list, a, b');
    }
  }

  /** A list without duplicates merged into nothing is itself. */
  lemma {:induction false} MergedIntoEmpty(values: seq<string>)
    requires NoDup(values)
    ensures Merged([], values) == values
  {
    if |values| > 0 {
      var init := values[..|values| - 1];
      assert NoDup(init);
      MergedIntoEmpty(init);
      assert values[|values| - 1] !in init;
      assert init + [values[|values| - 1]] == values;
    }
  }

  /** The loop of `WithCreatorAllowlist` and `WithActionAllowlist`. */
  method MergeAllowlist(list: seq<string>, values: seq<string>) returns (r: seq<string>)
    ensures r == Merged(list, values)
  {
    r := list;
    for i := 0 to |values|
      invariant r == Merged(list, values[..i])
    {
      assert values[..i + 1][..i] == values[..i];
      if values[i] !in r {
        r := r + [values[i]];
      }
    }
    assert values[..|values|] == values;
  }

  // ---------------------------------------------------------------------------
  // Applying options and filling defaults
  // ---------------------------------------------------------------------------

  function ApplyOption(p: Params, o: LintOption): Params {
    match o
    case WithExcludeOfficialActions(v) => p.(excludeOfficialActions := Some(v))
    case WithExcludeVerifiedCreators(v) => p.(excludeVerifiedCreators := Some(v))
    case WithAllowOnlyAllowlistedHash(v) => p.(allowOnlyAllowlistedHash := Some(v))
    case WithAllowArchivedRepo(v) => p.(allowArchivedRepo := Some(v))
    case WithEnforcePinHash(v) => p.(enforcePinHash := Some(v))
    case WithEnforceVerifiedOrganization(v) => p.(enforceVerifiedOrganization := Some(v))
    case WithCreatorAllowlist(values) => p.(creatorAllowlist := Merged(p.creatorAllowlist, values))
    case WithActionAllowlist(values) => p.(actionAllowlist := Merged(p.actionAllowlist, values))
    case WithHashAllowlist(m) => p.(hashAllowlist := m)
  }

  /** The options applied one after the other, first to last. */
  function ApplyAll(p: Params, opts: seq<LintOption>): Params {
    if |opts| == 0 then p else ApplyOption(ApplyAll(p, opts[..|opts| - 1]), opts[|opts| - 1])
  }

  /** Every flag still nil receives its default. */
  function WithDefaults(p: Params): Params {
    Params(
      Some(p.excludeOfficialActions.GetOr(DefaultExcludeOfficialActions)),
      Some(p.excludeVerifiedCreators.GetOr(DefaultExcludeVerifiedCreators)),
      Some(p.allowOnlyAllowlistedHash.GetOr(DefaultAllowOnlyAllowlistedHash)),
      Some(p.allowArchivedRepo.GetOr(DefaultAllowArchivedRepo)),
      Some(p.enforcePinHash.GetOr(DefaultEnforcePinHash)),
      Some(p.enforceVerifiedOrganization.GetOr(DefaultEnforceVerifiedOrg)),
      p.creatorAllowlist, p.actionAllowlist, p.hashAllowlist)
  }

  /** Filling defaults leaves no flag nil, keeps every explicitly set value
      (`false` included) and touches nothing else. */
  lemma WithDefaultsKeepsExplicit(p: Params, f: Flag)
    ensures WithDefaults(p).Complete()
    ensures p.Get(f).Some? ==> WithDefaults(p).Get(f) == p.Get(f)
    ensures p.Get(f).None? ==> WithDefaults(p).Get(f) == Some(Default(f))
    ensures WithDefaults(p).creatorAllowlist == p.creatorAllowlist
    ensures WithDefaults(p).actionAllowlist == p.actionAllowlist
    ensures WithDefaults(p).hashAllowlist == p.hashAllowlist
  {
  }

  /** Applying `a` then `b` is applying `a + b`. */
  lemma {:induction false} ApplyAllConcat(p: Params, a: seq<LintOption>, b: seq<LintOption>)
    ensures ApplyAll(p, a + b) == ApplyAll(ApplyAll(p, a), b)
  {
    if |b| == 0 {
      assert a + b == a;
    } else {
      var b' := b[..|b| - 1];
      assert (a + b)[..|a + b| - 1] == a + b';
      ApplyAllConcat(p, a, b');
    }
  }

  /** Options that do not set flag `f` leave it alone. */
  lemma {:induction false} FlagUntouched(p: Params, opts: seq<LintOption>, f: Flag)
    requires forall o :: o in opts ==> !o.SetsFlag(f)
    ensures ApplyAll(p, opts).Get(f) == p.Get(f)
  {
    if |opts| > 0 {
      var init := opts[..|opts| - 1];
      assert forall o :: o in init ==> o in opts;
      assert opts[|opts| - 1] in opts;
      FlagUntouched(p, init, f);
    }
  }

  /** The last option that sets a flag decides its value. */
  lemma FlagLastWins(p: Params, before: seq<LintOption>, f: Flag, v: bool, after: seq<LintOption>)
    requires forall o :: o in after ==> !o.SetsFlag(f)
    ensures ApplyAll(p, before + [FlagOption(f, v)] + after).Get(f) == Some(v)
  {
    ApplyAllConcat(p, before + [FlagOption(f, v)], after);
    var mid := before + [FlagOption(f, v)];
    assert mid[..|mid| - 1] == before;
    FlagUntouched(ApplyAll(p, mid), after, f);
  }

  /** The values of all creator (or action) allowlist options, in order. */
  function CreatorValues(opts: seq<LintOption>): seq<string> {
    if |opts| == 0 then []
    else
      var last := opts[|opts| - 1];
      CreatorValues(opts[..|opts| - 1]) + (if last.WithCreatorAllowlist? then last.values else [])
  }

  function ActionValues(opts: seq<LintOption>): seq<string> {
    if |opts| == 0 then []
    else
      var last := opts[|opts| - 1];
      ActionValues(opts[..|opts| - 1]) + (if last.WithActionAllowlist? then last.values else [])
  }

  /** Allowlist options accumulate: the final creator and action lists are the
      starting lists merged with every value given by any option, in order. */
  lemma {:induction false} AllowlistsAccumulate(p: Params, opts: seq<LintOption>)
    ensures ApplyAll(p, opts).creatorAllowlist == Merged(p.creatorAllowlist, CreatorValues(opts))
    ensures ApplyAll(p, opts).actionAllowlist == Merged(p.actionAllowlist, ActionValues(opts))
  {
    if |opts| > 0 {
      var init := opts[..|opts| - 1];
      AllowlistsAccumulate(p, init);
      var last := opts[|opts| - 1];
      MergedConcat(p.creatorAllowlist, CreatorValues(init), if last.WithCreatorAllowlist? then last.values else []);
      MergedConcat(p.actionAllowlist, ActionValues(init), if last.WithActionAllowlist? then last.values else []);
    }
  }

  /** Options other than `WithHashAllowlist` leave the hash allowlist alone,
      and the last `WithHashAllowlist` replaces it wholesale. */
  lemma {:induction false} HashAllowlistLastWins(p: Params, before: seq<LintOption>, m: HashAllowlist, after: seq<LintOption>)
    requires forall o :: o in after ==> !o.WithHashAllowlist?
    ensures ApplyAll(p, before + [WithHashAllowlist(m)] + after).hashAllowlist == m
  {
    if |after| == 0 {
      assert before + [WithHashAllowlist(m)] + after == before + [WithHashAllowlist(m)];
    } else {
      var init := after[..|after| - 1];
      assert forall o :: o in init ==> o in after;
      assert after[|after| - 1] in after;
      HashAllowlistLastWins(p, before, m, init);
      assert (before + [WithHashAllowlist(m)] + after)[..|before| + 1 + |after| - 1]
          == before + [WithHashAllowlist(m)] + init;
    }
  }

  /** Lists without duplicates make normalising a no-op. */
  lemma NormalizedNoDup(p: Params)
    requires NoDup(p.creatorAllowlist) && NoDup(p.actionAllowlist)
    ensures p.Normalized() == p
  {
    MergedIntoEmpty(p.creatorAllowlist);
    MergedIntoEmpty(p.actionAllowlist);
  }

  /** Parameters built by `NewWorkflowLintParams` never hold a duplicate name,
      so their `GetOptions` rebuild them exactly. */
  lemma BuiltRoundTrip(opts: seq<LintOption>)
    ensures var p := WithDefaults(ApplyAll(Unset, opts));
      NoDup(p.creatorAllowlist) && NoDup(p.actionAllowlist) && p.Normalized() == p
  {
    AllowlistsAccumulate(Unset, opts);
    MergedNoDup([], CreatorValues(opts));
    MergedNoDup([], ActionValues(opts));
    NormalizedNoDup(WithDefaults(ApplyAll(Unset, opts)));
  }

  // ---------------------------------------------------------------------------
  // Config-file SHAs (`toLintParams`)
  // ---------------------------------------------------------------------------

  function TrimEntry(e: AllowedEntry): AllowedEntry {
    e.(sha := TrimSpace(e.sha))
  }

  /** Every SHA of a hash allowlist with its surrounding spaces trimmed. */
  function TrimmedSHAs(m: HashAllowlist): HashAllowlist {
    map k | k in m :: TrimmedEntries(m[k])
  }

  /** One action's allowlist with every SHA trimmed. */
  function TrimmedEntries(entries: seq<AllowedEntry>): seq<AllowedEntry> {
    seq(|entries|, i requires 0 <= i < |entries| => TrimEntry(entries[i]))
  }

  /** The inner loop of the trimming in `toLintParams`: one action's entries. */
  method TrimEntries(entries: seq<AllowedEntry>) returns (r: seq<AllowedEntry>)
    ensures |r| == |entries|
    ensures forall i :: 0 <= i < |r| ==> r[i].comment == entries[i].comment && r[i].sha == TrimSpace(entries[i].sha)
    ensures r == TrimmedEntries(entries)
  {
    r := entries;
    for i := 0 to |r|
      invariant |r| == |entries|
      invariant forall j :: 0 <= j < i ==> r[j] == TrimEntry(entries[j])
      invariant forall j :: i <= j < |r| ==> r[j] == entries[j]
    {
      r := r[i := TrimEntry(r[i])];
    }
  }

  /** Trimming keeps the keys, the order and number of entries and the
      comments; afterwards no SHA starts or ends with a space, and trimming
      again changes nothing. */
  lemma TrimmedSHAsShape(m: HashAllowlist)
    ensures TrimmedSHAs(m).Keys == m.Keys
    ensures forall k :: k in m ==> |TrimmedSHAs(m)[k]| == |m[k]|
    ensures forall k, i :: k in m && 0 <= i < |m[k]| ==>
      && TrimmedSHAs(m)[k][i].comment == m[k][i].comment
      && TrimmedSHAs(m)[k][i].sha == TrimSpace(m[k][i].sha)
    ensures TrimmedSHAs(TrimmedSHAs(m)) == TrimmedSHAs(m)
  {
    var t := TrimmedSHAs(m);
    forall k | k in t ensures TrimmedSHAs(t)[k] == t[k] {
      forall i | 0 <= i < |t[k]| ensures TrimmedSHAs(t)[k][i] == t[k][i] {
        TrimSpaceIdempotent(m[k][i].sha);
      }
    }
  }

  /** The first `k` fields of `p` in the order `GetOptions` visits them (with
      the name lists deduplicated), the rest as in the zero value. */
  ghost function Partial(p: Params, k: nat): Params {
    Params(
      if k >= 1 then p.excludeOfficialActions else None,
      if k >= 2 then p.excludeVerifiedCreators else None,
      if k >= 3 then p.allowOnlyAllowlistedHash else None,
      if k >= 4 then p.allowArchivedRepo else None,
      if k >= 5 then p.enforcePinHash else None,
      if k >= 6 then p.enforceVerifiedOrganization else None,
      if k >= 7 then Merged([], p.creatorAllowlist) else [],
      if k >= 8 then Merged([], p.actionAllowlist) else [],
      if k >= 9 then p.hashAllowlist else map[])
  }

  /** What `GetOptions` appends for field `k` of `p`: nothing for a nil flag
      or an empty list or map, else the one option that sets that field. */
  ghost function FieldOption(p: Params, k: nat): seq<LintOption> {
    match k
    case 0 => if p.excludeOfficialActions.Some? then [WithExcludeOfficialActions(p.excludeOfficialActions.value)] else []
    case 1 => if p.excludeVerifiedCreators.Some? then [WithExcludeVerifiedCreators(p.excludeVerifiedCreators.value)] else []
    case 2 => if p.allowOnlyAllowlistedHash.Some? then [WithAllowOnlyAllowlistedHash(p.allowOnlyAllowlistedHash.value)] else []
    case 3 => if p.allowArchivedRepo.Some? then [WithAllowArchivedRepo(p.allowArchivedRepo.value)] else []
    case 4 => if p.enforcePinHash.Some? then [WithEnforcePinHash(p.enforcePinHash.value)] else []
    case 5 => if p.enforceVerifiedOrganization.Some? then [WithEnforceVerifiedOrganization(p.enforceVerifiedOrganization.value)] else []
    case 6 => if |p.creatorAllowlist| > 0 then [WithCreatorAllowlist(p.creatorAllowlist)] else []
    case 7 => if |p.actionAllowlist| > 0 then [WithActionAllowlist(p.actionAllowlist)] else []
    case _ => if |p.hashAllowlist| > 0 then [WithHashAllowlist(p.hashAllowlist)] else []
  }

  /** One step of `GetOptions`: append option `o` when `present` (`o` is
      looked at only then). When that is what field `k` of `p` calls for, the options then rebuild `p` up to and
      including that field. */
  method AppendIf(opts: seq<LintOption>, present: bool, o: LintOption, ghost p: Params, ghost k: nat)
    returns (opts': seq<LintOption>)
    requires k < 9 && FieldOption(p, k) == (if present then [o] else [])
    requires ApplyAll(Unset, opts) == Partial(p, k)
    ensures ApplyAll(Unset, opts') == Partial(p, k + 1)
  {
    opts' := opts;
    if present {
      opts' := opts + [o];
      assert opts'[..|opts'| - 1] == opts;
    } else if k == 8 {
      assert p.hashAllowlist.Keys == {};
    }
  }

  // ---------------------------------------------------------------------------
  // The struct itself
  // ---------------------------------------------------------------------------

  /** `WorkflowLintParams`: options receive a pointer to it and update its
      fields in place. */
  class WorkflowLintParams {
    var excludeOfficialActions: Option<bool>
    var excludeVerifiedCreators: Option<bool>
    var allowOnlyAllowlistedHash: Option<bool>
    var allowArchivedRepo: Option<bool>
    var enforcePinHash: Option<bool>
    var enforceVerifiedOrganization: Option<bool>
    var creatorAllowlist: seq<string>
    var actionAllowlist: seq<string>
    var hashAllowlist: HashAllowlist

    function Value(): Params
      reads this
    {
      Params(excludeOfficialActions, excludeVerifiedCreators, allowOnlyAllowlistedHash,
             allowArchivedRepo, enforcePinHash, enforceVerifiedOrganization,
             creatorAllowlist, actionAllowlist, hashAllowlist)
    }

    /** `var p WorkflowLintParams`: the zero value. */
    constructor ()
      ensures Value() == Unset
    {
      excludeOfficialActions, excludeVerifiedCreators, allowOnlyAllowlistedHash := None, None, None;
      allowArchivedRepo, enforcePinHash, enforceVerifiedOrganization := None, None, None;
      creatorAllowlist, actionAllowlist, hashAllowlist := [], [], map[];
    }

    /** Overwrite every field, as decoding a config document into the struct does. */
    method Load(v: Params)
      modifies this
      ensures Value() == v
    {
      excludeOfficialActions, excludeVerifiedCreators := v.excludeOfficialActions, v.excludeVerifiedCreators;
      allowOnlyAllowlistedHash, allowArchivedRepo := v.allowOnlyAllowlistedHash, v.allowArchivedRepo;
      enforcePinHash, enforceVerifiedOrganization := v.enforcePinHash, v.enforceVerifiedOrganization;
      creatorAllowlist, actionAllowlist, hashAllowlist := v.creatorAllowlist, v.actionAllowlist, v.hashAllowlist;
    }

    /** Run one option on this struct. */
    method Apply(o: LintOption)
      modifies this
      ensures Value() == ApplyOption(old(Value()), o)
    {
      match o
      case WithExcludeOfficialActions(v) => excludeOfficialActions := Some(v);
      case WithExcludeVerifiedCreators(v) => excludeVerifiedCreators := Some(v);
      case WithAllowOnlyAllowlistedHash(v) => allowOnlyAllowlistedHash := Some(v);
      case WithAllowArchivedRepo(v) => allowArchivedRepo := Some(v);
      case WithEnforcePinHash(v) => enforcePinHash := Some(v);
      case WithEnforceVerifiedOrganization(v) => enforceVerifiedOrganization := Some(v);
      case WithCreatorAllowlist(values) => creatorAllowlist := MergeAllowlist(creatorAllowlist, values);
      case WithActionAllowlist(values) => actionAllowlist := MergeAllowlist(actionAllowlist, values);
      case WithHashAllowlist(m) => hashAllowlist := m;
    }

    /** The tail of `NewWorkflowLintParams`: a default for every nil flag. */
    method FillDefaults()
      modifies this
      ensures Value() == WithDefaults(old(Value()))
    {
      excludeOfficialActions := Some(excludeOfficialActions.GetOr(DefaultExcludeOfficialActions));
      excludeVerifiedCreators := Some(excludeVerifiedCreators.GetOr(DefaultExcludeVerifiedCreators));
      allowOnlyAllowlistedHash := Some(allowOnlyAllowlistedHash.GetOr(DefaultAllowOnlyAllowlistedHash));
      allowArchivedRepo := Some(allowArchivedRepo.GetOr(DefaultAllowArchivedRepo));
      enforcePinHash := Some(enforcePinHash.GetOr(DefaultEnforcePinHash));
      enforceVerifiedOrganization := Some(enforceVerifiedOrganization.GetOr(DefaultEnforceVerifiedOrg));
    }

    /** The SHA-trimming loop of `toLintParams`. */
    method TrimHashAllowlistSHAs()
      modifies this
      ensures Value() == old(Value()).(hashAllowlist := TrimmedSHAs(old(hashAllowlist)))
    {
      ghost var original := hashAllowlist;
      var pending := hashAllowlist.Keys;
      while pending != {}
        invariant pending <= original.Keys && hashAllowlist.Keys == original.Keys
        invariant forall k :: k in pending ==> hashAllowlist[k] == original[k]
        invariant forall k :: k in original && k !in pending ==> hashAllowlist[k] == TrimmedEntries(original[k])
        invariant Value() == old(Value()).(hashAllowlist := hashAllowlist)
        decreases pending
      {
        var key :| key in pending;
        var entries := TrimEntries(hashAllowlist[key]);
        hashAllowlist := hashAllowlist[key := entries];
        pending := pending - {key};
      }
      assert hashAllowlist == TrimmedSHAs(original);
    }
  }

  /** `NewWorkflowLintParams`: the options in order on a zero struct, then the
      defaults. No option fails, so neither does this. */
  method NewWorkflowLintParams(opts: seq<LintOption>) returns (p: WorkflowLintParams)
    ensures fresh(p)
    ensures p.Value() == WithDefaults(ApplyAll(Unset, opts))
  {
    p := new WorkflowLintParams();
    for i := 0 to |opts|
      invariant p.Value() == ApplyAll(Unset, opts[..i])
    {
      assert opts[..i + 1][..i] == opts[..i];
      p.Apply(opts[i]);
    }
    assert opts[..|opts|] == opts;
    p.FillDefaults();
  }

  /** `toLintParams` after decoding: the decoded struct with its SHAs trimmed. */
  method ToLintParams(decoded: Params) returns (p: WorkflowLintParams)
    ensures fresh(p)
    ensures p.Value() == decoded.(hashAllowlist := TrimmedSHAs(decoded.hashAllowlist))
  {
    p := new WorkflowLintParams();
    p.Load(decoded);
    p.TrimHashAllowlistSHAs();
  }
}
