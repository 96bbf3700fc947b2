/** The `uses:` reference parser: `owner/repo[/path]@ref` into an `Action`
    (pkg/linter/parser.go). */
module Parser {
  import opened Wrappers
  import opened Text

  predicate IsLowerHex(c: char) {
    '0' <= c <= '9' || 'a' <= c <= 'f'
  }

  /** The tag resolver's `IsSHA`: a full 40-character hexadecimal commit hash. */
  predicate IsSHA(s: string) {
    |s| == 40 && forall i :: 0 <= i < |s| ==> IsLowerHex(s[i])
  }

  /** A GitHub repository as the remote services address it. */
  datatype Repository = Repository(owner: string, name: string)

  /** One parsed `uses:` value. `id` is everything before the `@`: the
      repository and, for a reusable workflow or a sub-directory action, a path. */
  datatype Action = Action(id: string, owner: string, name: string, ref: string) {

    function String(): string {
      owner + "/" + name + "@" + ref
    }

    /** `owner/repo`, without any path below the repository. */
    function RepoID(): string {
      owner + "/" + name
    }

    function Repo(): Repository {
      Repository(owner, name)
    }

    predicate IsLocalReusableWorkflows() {
      HasPrefix(id, "./.github/workflows/")
    }

    predicate IsPinnedBySHA() {
      IsSHA(ref)
    }
  }

  function UnexpectedUsesMessage(trimmed: string): string {
    "unexpected 'uses' value: " + trimmed
  }

  function InvalidUsesMessage(id: string): string {
    "invalid uses value: expected=owner/repo, actual=" + id
  }

  /** `ParseActionUses`: either an action or an error message, never both. */
  function ParseActionUses(uses: string): Result<Action> {
    var trimmed := TrimSpace(uses);
    var items := Split(trimmed, '@');
    if |items| != 2 then Failure(UnexpectedUsesMessage(trimmed))
    else
      var actionID := items[0];
      var a := Split(actionID, '/');
      if |a| < 2 then Failure(InvalidUsesMessage(actionID))
      else Success(Action(actionID, a[0], a[1], items[1]))
  }

  lemma {:induction false} CountPositive(s: string, c: char)
    ensures Count(s, c) > 0 <==> c in s
  {
    if |s| > 0 {
      CountPositive(s[1..], c);
      assert c in s <==> s[0] == c || c in s[1..];
    }
  }

  /** Parsing succeeds exactly when the trimmed input holds one `@` and the part
      before it holds a `/`; otherwise it fails with the message of the first
      check that rejects it. */
  lemma ParseOutcome(uses: string)
    ensures var t := TrimSpace(uses);
      && (Count(t, '@') != 1 ==> ParseActionUses(uses) == Failure(UnexpectedUsesMessage(t)))
      && (Count(t, '@') == 1 && '/' !in Split(t, '@')[0] ==>
            ParseActionUses(uses) == Failure(InvalidUsesMessage(Split(t, '@')[0])))
      && (ParseActionUses(uses).Success? <==> Count(t, '@') == 1 && '/' in Split(t, '@')[0])
  {
    var t := TrimSpace(uses);
    SplitCount(t, '@');
    SplitCount(Split(t, '@')[0], '/');
    CountPositive(Split(t, '@')[0], '/');
  }

  /** On success, the action's ID and ref are the text before and after the
      one `@`; the owner and name are the first two `/`-separated segments of the
      ID, so `RepoID()` is a prefix of the ID and further path segments stay
      only in the ID. */
  lemma ParseFields(uses: string, a: Action)
    requires ParseActionUses(uses) == Success(a)
    ensures a.id + "@" + a.ref == TrimSpace(uses)
    ensures '@' !in a.id && '@' !in a.ref
    ensures '/' !in a.owner && '/' !in a.name
    ensures HasPrefix(a.id, a.RepoID())
    ensures a.id == a.RepoID() || HasPrefix(a.id, a.RepoID() + "/")
  {
    SegmentsOfID(a.id);
    var t := TrimSpace(uses);
    var items := Split(t, '@');
    SplitJoin(t, '@');
    assert Join(items, "@") == items[0] + "@" + Join(items[1..], "@");
    SplitPartsFree(t, '@');
    assert items[1] == a.ref;
    SplitPartsFree(a.id, '/');
    SplitFirstIsPrefix(a.id, '/');
  }

  /** An ID with a `/` is its first two segments, alone or followed by a
      further `/`. */
  lemma SegmentsOfID(id: string)
    requires |Split(id, '/')| >= 2
    ensures var p := Split(id, '/');
      id == p[0] + "/" + p[1] || HasPrefix(id, p[0] + "/" + p[1] + "/")
  {
    var p := Split(id, '/');
    SplitJoin(id, '/');
    assert Join(p, "/") == p[0] + "/" + Join(p[1..], "/");
    if |p| > 2 {
      var rest := p[1..];
      assert Join(rest, "/") == rest[0] + "/" + Join(rest[1..], "/");
      var head := p[0] + "/" + p[1] + "/";
      assert id == head + Join(rest[1..], "/");
      assert id[..|head|] == head;
    }
  }

  /** For an action whose ID is exactly `owner/repo`, printing the parsed
      action gives back the trimmed input. */
  lemma ParseThenString(uses: string, a: Action)
    requires ParseActionUses(uses) == Success(a)
    requires Count(a.id, '/') == 1
    ensures a.String() == TrimSpace(uses)
  {
    ParseFields(uses, a);
    var parts := Split(a.id, '/');
    SplitCount(a.id, '/');
    SplitJoin(a.id, '/');
    assert Join(parts, "/") == parts[0] + "/" + Join(parts[1..], "/");
  }

  /** `owner/repo@ref` parses into its three parts and prints back unchanged. */
  lemma ParseRoundTrip(owner: string, name: string, ref: string)
    requires '@' !in owner && '@' !in name && '@' !in ref
    requires '/' !in owner && '/' !in name
    requires var u := owner + "/" + name + "@" + ref; !IsSpace(u[0]) && !IsSpace(u[|u| - 1])
    ensures ParseActionUses(owner + "/" + name + "@" + ref)
         == Success(Action(owner + "/" + name, owner, name, ref))
    ensures ParseActionUses(owner + "/" + name + "@" + ref).value.String() == owner + "/" + name + "@" + ref
  {
    var id := owner + "/" + name;
    var u := id + "@" + ref;
    TrimSpaceUnchanged(u);
    assert '@' !in id;
    SplitFree(ref, '@');
    SplitAt(id, '@', ref);
    SplitFree(name, '/');
    SplitAt(owner, '/', name);
  }

  /** The test table of `IsPinnedBySHA`: full hex hashes are pins, tags and
      branch names are not; the answer depends on the ref alone. */
  lemma PinnedExamples(a: Action, b: Action)
    requires a.ref == b.ref
    ensures a.IsPinnedBySHA() == b.IsPinnedBySHA()
    ensures Action("", "", "", "0123456789abcdef" + "0123456789abcdef" + "01234567").IsPinnedBySHA()
    ensures Action("", "", "", "deadbeefdeadbeef" + "deadbeefdeadbeef" + "deadbeef").IsPinnedBySHA()
    ensures !Action("", "", "", "v1.0.0").IsPinnedBySHA()
    ensures !Action("", "", "", "main").IsPinnedBySHA()
  {
    ShaOfHexParts("0123456789abcdef", "0123456789abcdef", "01234567");
    ShaOfHexParts("deadbeefdeadbeef", "deadbeefdeadbeef", "deadbeef");
  }

  /** Three hexadecimal pieces of 40 characters in all make a SHA. */
  lemma ShaOfHexParts(x: string, y: string, z: string)
    requires |x| + |y| + |z| == 40
    requires forall i :: 0 <= i < |x| ==> IsLowerHex(x[i])
    requires forall i :: 0 <= i < |y| ==> IsLowerHex(y[i])
    requires forall i :: 0 <= i < |z| ==> IsLowerHex(z[i])
    ensures IsSHA(x + y + z)
  {
    var s := x + y + z;
    forall i | 0 <= i < |s| ensures IsLowerHex(s[i]) {
      if i < |x| {
        assert s[i] == x[i];
      } else if i < |x| + |y| {
        assert s[i] == y[i - |x|];
      } else {
        assert s[i] == z[i - |x| - |y|];
      }
    }
  }

  /** The test table of `IsLocalReusableWorkflows`. */
  lemma LocalReusableExamples()
    ensures Action("./.github/workflows/ci.yml", "", "", "").IsLocalReusableWorkflows()
    ensures !Action("owner/repo", "", "", "").IsLocalReusableWorkflows()
    ensures !Action("owner/repo@ref", "", "", "").IsLocalReusableWorkflows()
    ensures !Action("octo-org/" + "this-repo/.github/workflows/workflow-1.yml@172239021f7ba04fe7327647b213799853a9eb89",
                    "", "", "").IsLocalReusableWorkflows()
    ensures !Action("octo-org/" + "another-repo/.github/workflows/workflow.yml@v1", "", "", "").IsLocalReusableWorkflows()
  {
    NotLocalWhenDotless("octo-org/", "this-repo/.github/workflows/workflow-1.yml@172239021f7ba04fe7327647b213799853a9eb89");
    NotLocalWhenDotless("octo-org/", "another-repo/.github/workflows/workflow.yml@v1");
  }

  /** An ID that does not start with `.` is never a local reusable workflow. */
  lemma NotLocalWhenDotless(head: string, tail: string)
    requires |head| > 0 && head[0] != '.'
    ensures !Action(head + tail, "", "", "").IsLocalReusableWorkflows()
  {
    var w := "./.github/workflows/";
    if |w| <= |head + tail| {
      assert (head + tail)[..|w|][0] == head[0];
    }
  }
}
