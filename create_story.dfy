/**
 * Publishing a story (app/create-story.tsx): the new story is put at the
 * front of the signed-in user's story list.
 */
module CreateStory {
  import opened Wrappers
  import opened Records
  import opened Text
  import opened Storage

  /** The key of a user's story list. */
  function StoriesKey(userId: string): (k: string)
    ensures StartsWith(k, "@stories:")
    ensures |k| == |"@stories:"| + |userId| && k[|"@stories:"|..] == userId
  {
    "@stories:" + userId
  }

  /**
   * `currentUser.name || "Você"`. The signed-in user record has no `name`
   * field, so the label is always the fallback.
   */
  function StoryLabel(u: CurrentUser): string {
    "Você"
  }

  /** The unviewed story published at time `now`; its id is the time's decimal numeral. */
  function NewStory(image: string, u: CurrentUser, now: nat): (s: Story)
    ensures s.image == image && s.userId == u.id && !s.viewed && s.createdAt == now
    ensures s.user == "Você"
  {
    Story(NatToString(now), image, u.id, StoryLabel(u), now, false)
  }

  /** The story screen for one picture and one (possibly absent) signed-in user. */
  class StoryScreen {
    const image: Option<string>
    const currentUser: Option<CurrentUser>
    const store: Store

    constructor (image: Option<string>, currentUser: Option<CurrentUser>, store: Store)
      ensures this.image == image && this.currentUser == currentUser && this.store == store
    {
      this.image := image;
      this.currentUser := currentUser;
      this.store := store;
    }

    /**
     * `publishStory` at time `now`: without a picture or a user the screen
     * offers nothing to publish; otherwise the new story becomes the first
     * element of the user's list, the earlier stories following in order.
     */
    method PublishStory(now: nat) returns (published: Option<Story>)
      modifies store`stories
      ensures !Truthy(image) || currentUser.None? ==> store.stories == old(store.stories) && published == None
      ensures Truthy(image) && currentUser.Some? ==>
        var key := StoriesKey(currentUser.value.id);
        published == Some(NewStory(image.value, currentUser.value, now)) &&
        store.stories == old(store.stories)[key := [published.value] + ListOrEmpty(old(store.stories), key)]
    {
      if !Truthy(image) || currentUser.None? {
        return None;
      }
      var u := currentUser.value;
      var key := StoriesKey(u.id);
      var story := NewStory(image.value, u, now);
      var stories := ListOrEmpty(store.stories, key);
      stories := [story] + stories;
      store.stories := store.stories[key := stories];
      published := Some(story);
    }
  }
}
