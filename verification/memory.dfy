/** The in-process `user_memory` dictionary: one record per user id, with the
    three memory operations of the service (register, shallow-merge update,
    strict read). */
module Memory {
  import opened Basics
  import opened Conversation

  /** One user's coaching memory. `role` is absent for a record that the message
      handler created for an id that was never registered. Preference values are
      opaque to the service and are kept as strings. */
  datatype UserState = UserState(
    goals: seq<string>,
    preferences: map<string, string>,
    history: seq<Turn>,
    role: Option<string>)

  type Store = map<string, UserState>

  /** The record `create_user` writes for a newly registered user. */
  function Registered(role: string): UserState {
    UserState([], map[], [], Some(role))
  }

  /** The stand-in `handle_message` uses for an id with no record. */
  const Transient: UserState := UserState([], map[], [], None)

  /** The fields a memory update may carry; an absent field is left alone. */
  datatype Patch = Patch(
    goals: Option<seq<string>>,
    preferences: Option<map<string, string>>,
    history: Option<seq<Turn>>,
    role: Option<string>)

  const EmptyPatch: Patch := Patch(None, None, None, None)

  function Pick<T>(supplied: Option<T>, current: T): T {
    if supplied.Some? then supplied.value else current
  }

  /** Python's `dict.update`: each supplied key replaces the old value whole. */
  function Merge(s: UserState, p: Patch): UserState {
    UserState(
      Pick(p.goals, s.goals),
      Pick(p.preferences, s.preferences),
      Pick(p.history, s.history),
      if p.role.Some? then p.role else s.role)
  }

  /** Register a user. The chat provider is asked first; `provisioned` says
      whether it accepted. On success any earlier record for `id`, history
      included, is replaced by an empty one carrying the given role. */
  function Create(store: Store, id: string, role: string, provisioned: bool): (r: Result<Store>)
    ensures r.Ok? <==> provisioned
    ensures r.Err? ==> r.error == ProvisioningFailed
    ensures r.Ok? ==> r.value.Keys == store.Keys + {id}
    ensures r.Ok? ==> r.value[id].goals == [] && r.value[id].preferences == map[]
                      && r.value[id].history == [] && r.value[id].role == Some(role)
    ensures r.Ok? ==> forall other :: other in store && other != id ==> r.value[other] == store[other]
  {
    if provisioned then Ok(store[id := Registered(role)]) else Err(ProvisioningFailed)
  }

  /** Shallow-merge a patch into an existing record; unknown ids are refused. */
  function Update(store: Store, id: string, patch: Patch): (r: Result<Store>)
    ensures r.Err? <==> id !in store
    ensures r.Err? ==> r.error == NotFound
    ensures r.Ok? ==> r.value.Keys == store.Keys
    ensures r.Ok? ==> forall other :: other in store && other != id ==> r.value[other] == store[other]
    ensures r.Ok? ==> var s, s' := store[id], r.value[id];
      && (patch.goals.Some? ==> s'.goals == patch.goals.value)
      && (patch.goals.None? ==> s'.goals == s.goals)
      && (patch.preferences.Some? ==> s'.preferences == patch.preferences.value)
      && (patch.preferences.None? ==> s'.preferences == s.preferences)
      && (patch.history.Some? ==> s'.history == patch.history.value)
      && (patch.history.None? ==> s'.history == s.history)
      && (patch.role.Some? ==> s'.role == patch.role)
      && (patch.role.None? ==> s'.role == s.role)
  {
    if id !in store then Err(NotFound) else Ok(store[id := Merge(store[id], patch)])
  }

  /** Strict read: unknown ids are an error, never an implicit creation. */
  function Get(store: Store, id: string): (r: Result<UserState>)
    ensures r.Ok? <==> id in store
    ensures r.Ok? ==> r.value == store[id]
    ensures r.Err? ==> r.error == NotFound
  {
    if id in store then Ok(store[id]) else Err(NotFound)
  }

  /** Registering again wipes the earlier goals, preferences and history. */
  lemma CreateThenGet(store: Store, id: string, role: string)
    ensures Create(store, id, role, true).Ok?
    ensures Get(Create(store, id, role, true).value, id) == Ok(Registered(role))
  {
  }

  /** Reading back after an update yields the merged record. */
  lemma UpdateThenGet(store: Store, id: string, patch: Patch)
    requires id in store
    ensures Get(Update(store, id, patch).value, id) == Ok(Merge(store[id], patch))
  {
  }

  /** Applying the same patch twice is the same as applying it once. */
  lemma UpdateIdempotent(store: Store, id: string, patch: Patch)
    requires id in store
    ensures Update(Update(store, id, patch).value, id, patch) == Update(store, id, patch)
  {
    var once := store[id := Merge(store[id], patch)];
    assert Merge(Merge(store[id], patch), patch) == Merge(store[id], patch);
    assert once[id := Merge(once[id], patch)] == once;
  }

  /** An update that supplies nothing leaves the store as it was. */
  lemma EmptyUpdateIsIdentity(store: Store, id: string)
    requires id in store
    ensures Update(store, id, EmptyPatch) == Ok(store)
  {
    assert Merge(store[id], EmptyPatch) == store[id];
    assert store[id := store[id]] == store;
  }

  /** Merging preferences `{"x": "y"}` and reading back shows the preference
      and the untouched history. */
  lemma PreferenceRoundTrip(store: Store, id: string)
    requires id in store
    ensures var r := Update(store, id, Patch(None, Some(map["x" := "y"]), None, None));
      && r.Ok?
      && Get(r.value, id).value.preferences["x"] == "y"
      && Get(r.value, id).value.history == store[id].history
  {
  }
}
