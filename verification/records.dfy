/** The session store: one string-keyed record per user. A record holds the
    answers given so far plus the key "state", whose value names the pending
    question. Because the "edit mode" test of the handlers is "is there a key
    named after the current state", records stay string-keyed maps. */
module Records {
  import opened Wrappers

  /** A stored value: text, or Python's None (the chat handle of a user
      without a public username). */
  datatype Value = Str(s: string) | Null

  type Record = map<string, Value>
  type UserId = int
  type Store = map<UserId, Record>

  /** `r.get(k)` */
  function Get(r: Record, k: string): Option<Value> {
    if k in r then Some(r[k]) else None
  }

  /** `store.get(u)` */
  function Lookup(s: Store, u: UserId): Option<Record> {
    if u in s then Some(s[u]) else None
  }

  /** The state names the handlers ever write under "state". */
  const States: set<string> :=
    {"name", "level", "format", "purpose", "username", "username_write", "phone", "meet_date"}

  /** A record whose "state" names one of the survey's questions. */
  predicate WellFormedRecord(r: Record) {
    "state" in r && r["state"].Str? && r["state"].s in States
  }

  predicate WellFormed(s: Store) {
    forall u :: u in s ==> WellFormedRecord(s[u])
  }

  /** Every key outside `keys` has the same entry, or the same absence, in both records. */
  ghost predicate SameExcept(r: Record, r': Record, keys: set<string>) {
    forall k :: k !in keys ==> Get(r, k) == Get(r', k)
  }

  /** No user other than `uid` gains, loses or changes a record. */
  ghost predicate OthersUntouched(s: Store, s': Store, uid: UserId) {
    forall u :: u != uid ==> Lookup(s, u) == Lookup(s', u)
  }

  /** Edit mode: the record already holds a key named after its current state. */
  predicate Editing(r: Record) {
    "state" in r && r["state"].Str? && r["state"].s in r
  }
}
