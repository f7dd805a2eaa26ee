/**
 * The preferences provider: the signed-in user's preference record, kept in
 * the client and persisted in that user's document of the 'users' collection.
 * Loading merges the stored document over a fixed default record; an update
 * merges a partial record into the current one and changes the local copy
 * only once the remote merge-write has succeeded.
 */
module Preferences {
  import opened Options
  import opened Firebase

  const LastLogin := "lastLogin"
  const LoadError := "Failed to load preferences"
  const UpdateError := "Failed to update preferences"

  /** The record every user starts from. */
  const DefaultPreferences: Record := map[
    "theme" := Str("cyberpunk"),
    LastLogin := Null,
    "accentColor" := Str("violet"),
    "glowIntensity" := Str("medium"),
    "animationsEnabled" := Bool(true)
  ]

  /** What spreading an optional object contributes: nothing for null. */
  function Spread(p: Option<Record>): Record {
    if p.Some? then p.value else map[]
  }

  /** `{...base, ...over, lastLogin: serverTimestamp()}`: the fields of `over`
      win over those of `base`, and the login stamp is always fresh. */
  function Stamped(base: Record, over: Record): (r: Record)
    ensures r.Keys == base.Keys + over.Keys + {LastLogin}
    ensures r[LastLogin] == ServerTimestamp
    ensures forall k :: k in over && k != LastLogin ==> r[k] == over[k]
    ensures forall k :: k in base && k !in over && k != LastLogin ==> r[k] == base[k]
  {
    base + over + map[LastLogin := ServerTimestamp]
  }

  /** The preferences of a user whose stored document is `doc`. */
  function LoadedPreferences(doc: Record): (r: Record)
    ensures r.Keys == DefaultPreferences.Keys + doc.Keys
    ensures r[LastLogin] == ServerTimestamp
    ensures forall k :: k in doc && k != LastLogin ==> r[k] == doc[k]
    ensures forall k :: k in DefaultPreferences && k !in doc && k != LastLogin ==> r[k] == DefaultPreferences[k]
  {
    Stamped(DefaultPreferences, doc)
  }

  /** The preferences written for a user who has no document yet. */
  function NewUserPreferences(): (r: Record)
    ensures r == DefaultPreferences[LastLogin := ServerTimestamp]
  {
    Stamped(DefaultPreferences, map[])
  }

  /** The record an update computes from the current preferences. */
  function UpdatedPreferences(current: Option<Record>, partial: Record): (r: Record)
    ensures r.Keys == Spread(current).Keys + partial.Keys + {LastLogin}
    ensures r[LastLogin] == ServerTimestamp
    ensures forall k :: k in partial && k != LastLogin ==> r[k] == partial[k]
    ensures current.Some? ==> forall k :: k in current.value && k !in partial && k != LastLogin ==> r[k] == current.value[k]
  {
    Stamped(Spread(current), partial)
  }

  /** Two successful updates in a row leave the same record as one update
      carrying both partial records, the later one winning. */
  lemma SuccessiveUpdates(current: Option<Record>, p1: Record, p2: Record)
    ensures UpdatedPreferences(Some(UpdatedPreferences(current, p1)), p2)
         == UpdatedPreferences(current, MergeInto(p1, p2))
  {
  }

  class Provider {
    var preferences: Option<Record>
    var loading: bool
    var error: Option<string>
    const store: Store

    /** The state before the first load: nothing loaded, loading, no error. */
    constructor (store: Store)
      ensures this.store == store
      ensures preferences == None && loading && error == None
    {
      this.store := store;
      preferences := None;
      loading := true;
      error := None;
    }

    /** Runs whenever the signed-in user changes. `readFails` and `writeFails`
        are the store's answers to the read and to the write for a new user. */
    method LoadPreferences(user: Option<User>, readFails: bool, writeFails: bool)
      modifies this, store
      ensures !loading
      // an error, once set, is never cleared
      ensures error == old(error) || error == Some(LoadError)
      // signed out: no preferences, no remote call
      ensures user.None? ==> preferences == None && error == old(error)
      ensures user.None? ==> store.log == old(store.log) && store.docs == old(store.docs)
      // the read failed: preferences kept, error set
      ensures user.Some? && readFails ==>
        && store.log == old(store.log) + [GetCall(user.value.uid)]
        && store.docs == old(store.docs)
        && preferences == old(preferences) && error == Some(LoadError)
      // a stored document: merged over the defaults, nothing written
      ensures user.Some? && !readFails && user.value.uid in old(store.docs) ==>
        && store.log == old(store.log) + [GetCall(user.value.uid)]
        && store.docs == old(store.docs)
        && preferences == Some(LoadedPreferences(old(store.docs)[user.value.uid]))
        && error == old(error)
      // no document: exactly one plain write of the defaults, then the local copy
      ensures user.Some? && !readFails && user.value.uid !in old(store.docs) ==>
        store.log == old(store.log) + [GetCall(user.value.uid), SetCall(user.value.uid, NewUserPreferences(), false)]
      ensures user.Some? && !readFails && user.value.uid !in old(store.docs) && !writeFails ==>
        && store.docs == old(store.docs)[user.value.uid := NewUserPreferences()]
        && preferences == Some(NewUserPreferences())
        && error == old(error)
      ensures user.Some? && !readFails && user.value.uid !in old(store.docs) && writeFails ==>
        && store.docs == old(store.docs)
        && preferences == old(preferences) && error == Some(LoadError)
    {
      if user.None? {
        preferences := None;
        loading := false;
        return;
      }
      var uid := user.value.uid;
      var fetched := store.Get(uid, readFails);
      if fetched.Err? {
        error := Some(LoadError);
      } else if fetched.value.Some? {
        preferences := Some(LoadedPreferences(fetched.value.value));
      } else {
        var initial := NewUserPreferences();
        var written := store.Set(uid, initial, false, writeFails);
        if written {
          preferences := Some(initial);
        } else {
          error := Some(LoadError);
        }
      }
      loading := false;
    }

    /** Merges `partial` into the current preferences. The merged record is
        written with a merge-write first; the local copy changes only when that
        write succeeds. Without a signed-in user nothing happens. */
    method UpdatePreferences(user: Option<User>, partial: Record, writeFails: bool)
      modifies this, store
      ensures loading == old(loading)
      ensures error == old(error) || error == Some(UpdateError)
      ensures user.None? ==>
        && preferences == old(preferences) && error == old(error)
        && store.log == old(store.log) && store.docs == old(store.docs)
      ensures user.Some? ==>
        store.log == old(store.log) + [SetCall(user.value.uid, UpdatedPreferences(old(preferences), partial), true)]
      ensures user.Some? && writeFails ==>
        && store.docs == old(store.docs)
        && preferences == old(preferences) && error == Some(UpdateError)
      ensures user.Some? && !writeFails ==>
        && preferences == Some(UpdatedPreferences(old(preferences), partial))
        && error == old(error)
      // a successful write merges the updated record into the user's document
      // (or creates it); no other document changes
      ensures user.Some? && !writeFails ==>
        store.docs == old(store.docs)[user.value.uid :=
          if user.value.uid in old(store.docs)
          then MergeInto(old(store.docs)[user.value.uid], UpdatedPreferences(old(preferences), partial))
          else UpdatedPreferences(old(preferences), partial)]
      // so the stored document then agrees with the local copy on every field
      // but the login stamp, which the server resolves
      ensures user.Some? && !writeFails ==>
        && user.value.uid in store.docs
        && forall k :: k in preferences.value && k != LastLogin ==>
             k in store.docs[user.value.uid] && store.docs[user.value.uid][k] == preferences.value[k]
    {
      if user.None? {
        return;
      }
      var updated := UpdatedPreferences(preferences, partial);
      var written := store.Set(user.value.uid, updated, true, writeFails);
      if written {
        preferences := Some(updated);
      } else {
        error := Some(UpdateError);
      }
    }
  }
}
