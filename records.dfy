/**
 * A GitHub API record (a JSON object) as the fetch layer sees it. Each field is one key the
 * core reads or writes; `None` means the key is absent from the object. Timestamps are
 * integer instants (seconds); the source keeps ISO-8601 strings and compares them as such.
 */
module Records {
  import opened Common

  datatype Record = Record(
    id: Option<int>,                   // 'id' (issues)
    number: Option<int>,               // 'number' (issues and pull requests)
    login: Option<string>,             // 'login' (contributors, members)
    createdAt: Option<int>,            // 'created_at'
    updatedAt: Option<int>,            // 'updated_at'
    state: Option<string>,             // 'state'
    pullRequest: bool,                 // truthiness of record.get('pull_request')
    kind: Option<string>,              // 'type'
    contributions: Option<int>,        // 'contributions'
    firstContributionAt: Option<int>,  // 'first_contribution_at'
    contributionStats: Option<int>,    // 'contribution_stats' (an opaque stats payload)
    orgMembership: Option<int>,        // 'org_membership' (an opaque membership payload)
    reviews: Option<seq<int>>          // 'reviews' (opaque review payloads)
  )

  /** The query parameters of a request, in dict insertion order (keys are distinct). */
  type Param = (string, string)

  /** Integer fields of a summary response (repository or organization); `{}` when the call failed. */
  type Stats = map<string, int>

  function StatOr(s: Stats, key: string, default: int): int
  {
    if key in s then s[key] else default
  }

  /**
   * The errors the core can raise: an unreadable cache file, a missing key, `max()` of
   * nothing, a date string `strptime` rejects, and a string indexed by a key as if it were
   * a record (the `TypeError` of `"message"["login"]`).
   */
  datatype Error = UnparseableCache(path: string) | MissingKey(key: string) | EmptySequence
                 | UnparseableDate(text: string) | NotARecord(text: string)
}
