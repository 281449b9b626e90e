/**
 * The profile form hook (hooks/useProfile.ts): the form fields, and saving
 * them to the provider and the device, with the user's new picture copied
 * into every stored follower and following list.
 */
module Profile {
  import opened Wrappers
  import opened Records
  import opened Text
  import opened Storage

  /** The key under which the form is kept on the device. */
  const ProfileDataKey: string := "@user_profile_data"

  /** The lists a save visits: those under a "followers_" or "following_" key. */
  predicate IsFollowListKey(key: string) {
    StartsWith(key, "followers_") || StartsWith(key, "following_")
  }

  /**
   * One follower or following list after a save: the user's own entries get
   * the new picture and nothing else; every other entry is as it was.
   */
  function WithAvatar(list: seq<UserRef>, userId: string, imageUrl: Option<string>): (r: seq<UserRef>)
    ensures |r| == |list|
    ensures forall i :: 0 <= i < |r| && list[i].id != userId ==> r[i] == list[i]
    ensures forall i :: 0 <= i < |r| && list[i].id == userId ==>
      r[i].avatar == imageUrl && r[i].(avatar := list[i].avatar) == list[i]
  {
    seq(|list|, i requires 0 <= i < |list| => if list[i].id == userId then list[i].(avatar := imageUrl) else list[i])
  }

  /** Copying the same picture a second time changes nothing. */
  lemma WithAvatarIdempotent(list: seq<UserRef>, userId: string, imageUrl: Option<string>)
    ensures WithAvatar(WithAvatar(list, userId, imageUrl), userId, imageUrl) == WithAvatar(list, userId, imageUrl)
  {
  }

  /** The user lists after a save: the follow lists rewritten, every other list as it was. */
  function WithAvatarEverywhere(m: map<string, seq<UserRef>>, userId: string, imageUrl: Option<string>): map<string, seq<UserRef>> {
    map k | k in m :: if IsFollowListKey(k) then WithAvatar(m[k], userId, imageUrl) else m[k]
  }

  /** The user lists part-way through a save: the follow lists still `pending` are as they were. */
  function RewrittenExcept(m: map<string, seq<UserRef>>, pending: set<string>, userId: string, imageUrl: Option<string>): (r: map<string, seq<UserRef>>)
    ensures r.Keys == m.Keys
  {
    map k | k in m :: if IsFollowListKey(k) && k !in pending then WithAvatar(m[k], userId, imageUrl) else m[k]
  }

  /** Rewriting one more pending follow list takes it off the pending set. */
  lemma RewriteOneMore(m: map<string, seq<UserRef>>, pending: set<string>, k: string, userId: string, imageUrl: Option<string>)
    requires k in pending && k in m && IsFollowListKey(k)
    ensures var cur := RewrittenExcept(m, pending, userId, imageUrl);
            cur[k := WithAvatar(cur[k], userId, imageUrl)] == RewrittenExcept(m, pending - {k}, userId, imageUrl)
  {
    var cur := RewrittenExcept(m, pending, userId, imageUrl);
    var next := RewrittenExcept(m, pending - {k}, userId, imageUrl);
    assert cur[k := WithAvatar(cur[k], userId, imageUrl)].Keys == next.Keys;
  }

  /** With nothing pending, every follow list is rewritten. */
  lemma NothingPending(m: map<string, seq<UserRef>>, userId: string, imageUrl: Option<string>)
    ensures RewrittenExcept(m, {}, userId, imageUrl) == WithAvatarEverywhere(m, userId, imageUrl)
  {
  }

  /** The form initially: four empty fields. */
  const InitialForm: map<string, string> := map["firstName" := "", "username" := "", "bio" := "", "location" := ""]

  /** How a save ends. */
  datatype SaveOutcome = NoUser | Failed | Saved

  class ProfileForm {
    const user: Option<ProviderUser>
    const store: Store
    var formData: map<string, string>
    var isUpdating: bool

    constructor (user: Option<ProviderUser>, store: Store)
      ensures this.user == user && this.store == store
      ensures formData == InitialForm && !isUpdating
    {
      this.user := user;
      this.store := store;
      formData := InitialForm;
      isUpdating := false;
    }

    /** `updateFormField`: only the named field changes. */
    method UpdateFormField(field: string, value: string)
      modifies this`formData
      ensures formData == old(formData)[field := value]
      ensures forall f :: f in old(formData) && f != field ==> f in formData && formData[f] == old(formData)[f]
    {
      formData := formData[field := value];
    }

    /** The loop over the follow-list keys: each stored list under such a key is rewritten. */
    method RewriteFollowLists(userId: string, imageUrl: Option<string>)
      modifies store`userLists
      ensures store.userLists == WithAvatarEverywhere(old(store.userLists), userId, imageUrl)
    {
      ghost var start := store.userLists;
      var keys := set k | k in store.userLists && IsFollowListKey(k);
      while keys != {}
        invariant forall k :: k in keys ==> k in start && IsFollowListKey(k)
        invariant store.userLists == RewrittenExcept(start, keys, userId, imageUrl)
        decreases |keys|
      {
        var k :| k in keys;
        RewriteOneMore(start, keys, k, userId, imageUrl);
        store.userLists := store.userLists[k := WithAvatar(store.userLists[k], userId, imageUrl)];
        keys := keys - {k};
      }
      NothingPending(start, userId, imageUrl);
    }

    /**
     * `saveProfile`; `providerOk` says whether the provider accepted the
     * update. Without a user nothing happens; when the provider fails nothing
     * is written; otherwise the form is stored and the user's current picture
     * is copied into the follow lists.
     */
    method SaveProfile(providerOk: bool) returns (outcome: SaveOutcome)
      modifies this`isUpdating, store`profileData, store`userLists
      ensures user.None? ==>
        outcome == NoUser && isUpdating == old(isUpdating) &&
        store.profileData == old(store.profileData) && store.userLists == old(store.userLists)
      ensures user.Some? ==> !isUpdating
      ensures user.Some? && !providerOk ==>
        outcome == Failed && store.profileData == old(store.profileData) && store.userLists == old(store.userLists)
      ensures user.Some? && providerOk ==>
        outcome == Saved &&
        store.profileData == old(store.profileData)[ProfileDataKey := formData] &&
        store.userLists == WithAvatarEverywhere(old(store.userLists), user.value.id, user.value.imageUrl)
    {
      if user.None? {
        return NoUser;
      }
      isUpdating := true;
      if !providerOk {
        isUpdating := false;
        return Failed;
      }
      store.profileData := store.profileData[ProfileDataKey := formData];
      RewriteFollowLists(user.value.id, user.value.imageUrl);
      isUpdating := false;
      outcome := Saved;
    }
  }
}
