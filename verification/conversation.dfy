/** Conversation turns as `handle_message` stores them: `{"role": ..., "content": ...}`. */
module Conversation {

  /** A role string other than the three the service itself uses. */
  type OtherRole = s: string | s != "user" && s != "assistant" && s != "system" witness ""

  /** The `role` of a turn. The orchestrator writes only `user` and `assistant`;
      the system prompt uses `system`; a memory update may store any other string,
      which is `Other`. Each role string has exactly one representation. */
  datatype Author = User | Assistant | System | Other(name: OtherRole)

  datatype Turn = Turn(author: Author, content: string)

  /** Python's `s[-k:]` for `k >= 1`: the last `min(k, |s|)` elements of `s`. */
  function Recent<T>(s: seq<T>, k: nat): (r: seq<T>)
    ensures |r| == if |s| < k then |s| else k
    ensures forall i :: 0 <= i < |r| ==> r[i] == s[|s| - |r| + i]
  {
    if |s| <= k then s else s[|s| - k..]
  }

  /** Turns before the last `k` do not reach the window. */
  lemma RecentIgnoresOlder<T>(older: seq<T>, s: seq<T>, k: nat)
    requires |s| >= k
    ensures Recent(older + s, k) == Recent(s, k)
  {
  }
}
