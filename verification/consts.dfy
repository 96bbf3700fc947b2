/** The fixed vocabulary of the linter: error kinds, the official creators and
    the static list of actions by verified creators. */
module Consts {

  /** The named error kinds. Go's `ErrorKind` is a string type, so a kind is a string. */
  const KindArchivedActionUsed: string := "archived action action is being used"
  const KindRuntimeError: string := "runtime error"
  const KindUnexpectedValue: string := "unexpected value"
  const KindUnpinned: string := "must be pinned by hash"

  /** Two kinds that the decision chain writes as untyped string literals. */
  const KindArchivedNotAllowed: string := "archived action is not allowed"
  const KindShaNotAllowlisted: string := "SHA is not allowlisted"

  /** Owners whose actions are skipped while `ExcludeOfficialActions` holds. */
  const OfficialCreators: seq<string> := ["actions", "cli", "github"]

  /** Repository IDs treated as coming from verified creators (there is no API
      for this, so the list is fixed). */
  const ActionsByVerifiedCreators: seq<string> := [
    "docker/login-action",
    "google-github-actions/auth",
    "google-github-actions/setup-gcloud",
    "slackapi/slack-github-action"
  ]

  /** The four named kinds are pairwise distinct, and neither literal kind used
      by the decision chain coincides with a named one. */
  lemma KindsDistinct()
    ensures |{KindArchivedActionUsed, KindRuntimeError, KindUnexpectedValue, KindUnpinned}| == 4
    ensures KindArchivedNotAllowed !in {KindArchivedActionUsed, KindRuntimeError, KindUnexpectedValue, KindUnpinned}
    ensures KindShaNotAllowlisted !in {KindArchivedActionUsed, KindRuntimeError, KindUnexpectedValue, KindUnpinned}
    ensures KindArchivedNotAllowed != KindShaNotAllowlisted
  {
    assert KindArchivedActionUsed[0] != KindRuntimeError[0];
    assert KindArchivedActionUsed[0] != KindUnexpectedValue[0];
    assert KindArchivedActionUsed[0] != KindUnpinned[0];
    assert KindRuntimeError[0] != KindUnexpectedValue[0];
    assert KindRuntimeError[0] != KindUnpinned[0];
    assert KindUnexpectedValue[0] != KindUnpinned[0];
    assert KindArchivedNotAllowed[16] != KindArchivedActionUsed[16];
    assert KindShaNotAllowlisted[0] != KindArchivedNotAllowed[0];
  }
}
