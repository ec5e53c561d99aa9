/**
 * What the console learns back from a Firestore write (`addDoc`, `updateDoc`,
 * `deleteDoc`): the call settles, or it rejects with an error whose message
 * the console shows.
 */
module Remote {

  datatype WriteOutcome = Written | Rejected(reason: string)

  /** Shown when a write is attempted before the database and a signed-in user are available. */
  const NOT_READY_MESSAGE := "Firebase not initialized or user not authenticated."

  /**
   * `snapshot` lists every document of `store` exactly once, each with its
   * data: what an `onSnapshot` listener receives for a collection.
   */
  ghost predicate IsSnapshotOf<T>(snapshot: seq<(string, T)>, store: map<string, T>)
  {
    && (forall i :: 0 <= i < |snapshot| ==> snapshot[i].0 in store && store[snapshot[i].0] == snapshot[i].1)
    && (forall k :: k in store ==> exists i :: 0 <= i < |snapshot| && snapshot[i].0 == k)
    && (forall i, j :: 0 <= i < j < |snapshot| ==> snapshot[i].0 != snapshot[j].0)
  }

  /** `Error: ${e.message}`. */
  function ErrorMessage(reason: string): string
  {
    "Error: " + reason
  }
}
