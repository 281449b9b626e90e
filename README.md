# A model of a small social app's list and record rules

The app is a React Native social network: a feed of posts with likes and
comments, stories, one-to-one chats, notifications and a profile editor, with
a small Express server that mails e-mail verification codes. The screens keep
their data in the device's key-value store as JSON lists, and most of what
they do is read a list, change it and write it back. This project models
those rules in Dafny and proves what they promise:

- **Chat.** The conversation key, ordering and read-marking of messages, sending, muting, "last seen" and grouping by day (`chat.dfy`).
- **Chat list.** Loading, newest-first order and the other participant (`chats_list.dfy`).
- **Post card.** Relative time, likes and double taps, comments and deleting a post (`post_card.dfy`).
- **Posting.** Writing a post (`create_post.dfy`) and publishing a story (`create_story.dfy`).
- **Feed helpers.** The feed's author filter (`posts_list.dfy`) and the post screen's normalisation (`posts_screen.dfy`).
- **Profile.** The profile editor's username checks and author-field rewrites (`edit_profile.dfy`), and the profile hook's follower-list rewrite (`profile.dfy`).
- **Signed-in user.** Deriving it (`current_user.dfy`) and signing in with Google or Apple, including username generation (`social_auth.dfy`).
- **Notifications.** The guards and message table of `addNotification` (`notifications.dfy`).
- **Server.** Its one-time e-mail codes (`verification.dfy`).

The model also includes:
- **Records** (`records.dfy`) and the key-value store (`storage.dfy`).
  - The store is a class with one `map<string, seq<T>>` per kind of record, because no key prefix holds two kinds.
  - A missing key is a key with no stored value.
- **JavaScript behaviour** the rules rely on (`text.dfy`, `seqs.dfy`, `wrappers.dfy`):
  - truthiness of optional strings;
  - `trim`, `toLowerCase`, `substring` and `split(...).pop()`;
  - `filter`, `map`, `find` and numeric `sort`.

Screen state that the source updates in place becomes a class:
- `ChatScreen`, `Card`, `ProfileEditor`, `ProfileForm`, `Composer`, `StoryScreen`, `SocialAuthFlow` and `CodeStore`.
- Each holds the `Store` it writes to.
- Each method states the whole new state in terms of specification functions, and lemmas state what those functions promise.

Time, random draws, generated ids and the identity provider's answers are method parameters:
- `now` and `newId`;
- `offset` and the `parts`/`numbers` draws;
- `providerOk` and `accepts`.

Where the description of the system and the code differ, the model follows the code:
- The "post" notification text ends in " 🚀".
- A story's label is always "Você", because the signed-in user record has no `name` field.

## Model

| member | source | states |
|---|---|---|
| Chat.SortPair | app/ChatScreen.tsx:192-193 | the two participant ids, ordered by string order, are the same two ids in either order |
| Chat.ConversationKey | app/ChatScreen.tsx:192-195 | the key is "conversation_" followed by the sorted ids joined by "_" |
| Chat.ConversationKeySymmetric | app/ChatScreen.tsx:192-195 | swapping the two users gives the same key, so both sides of a chat read and write one conversation |
| Chat.MarkRead | app/ChatScreen.tsx:200-203 | same length and order; a message is read afterwards iff it was read or the viewer received it; only `read` changes; messages the viewer did not receive are unchanged |
| Chat.MarkReadIdempotent | app/ChatScreen.tsx:200-203 | marking twice is marking once |
| Chat.LoadedConversationShape | app/ChatScreen.tsx:216-225 | a loaded conversation holds the stored messages, each marked read when the viewer received it, as the same multiset, in ascending time order; so it has as many messages as were stored and every message the viewer received is read |
| Chat.Without | app/ChatScreen.tsx:116 | the filtered muted list no longer contains the peer |
| Chat.ToggledMuteFlips | app/ChatScreen.tsx:113-125 | after a toggle the peer is muted iff it was not; every other id keeps its number of occurrences |
| Chat.UnmuteKeepsOrder | app/ChatScreen.tsx:115-116 | unmuting keeps the other ids in their order |
| Chat.ToggleMuteTwice | app/ChatScreen.tsx:113-125 | two toggles restore the membership of every id, and restore the list itself when the peer was not muted |
| Chat.GetLastSeen | app/ChatScreen.tsx:165-180 | nothing when online or without a last-online time; otherwise exactly one bucket: seconds under a minute, "1 minuto", whole minutes under an hour, "1 hora", whole hours, each with the elapsed time in its range |
| Chat.LastSeenTextShape | app/ChatScreen.tsx:172-179 | after "Visto há " a digit starts every text but the one for a few seconds; the last two characters tell minutes from hours and one from several; the count's numeral stands between |
| Chat.LastSeenTextDistinct | app/ChatScreen.tsx:172-179 | the "last seen" text determines its bucket and count |
| Chat.MessagesOn | app/ChatScreen.tsx:397-405 | the messages of one day are exactly the messages whose timestamp falls on it |
| Chat.MessagesOnIsFilter | app/ChatScreen.tsx:397-405 | a day's group equals the list filtered by that day, so it keeps the messages' relative order |
| Chat.DaysIn | app/ChatScreen.tsx:397-405 | a day has a group iff some message falls on it |
| Chat.EachMessageInOneGroup | app/ChatScreen.tsx:397-405 | each message is in the group of its own day and in no other group |
| Chat.PushToGroup | app/ChatScreen.tsx:401-402 | pushing a message creates its day's group if missing and appends the message to it; every other day keeps its group |
| Chat.PushToGroupStep | app/ChatScreen.tsx:398-403 | one step of the reduce keeps the groups equal to the per-day filter of the messages seen so far |
| Chat.GroupsOfIsGrouping | app/ChatScreen.tsx:398-403 | the map the reduce builds, one message at a time, has a group exactly for the days with messages, each holding that day's messages in order |
| Chat.GroupMessagesByDate | app/ChatScreen.tsx:397-405 | every group is the ordered list of that day's messages, there is a group exactly for the days that have messages, and the days are listed once each |
| Chat.ChatScreen.constructor | app/ChatScreen.tsx:77-93 | a screen for two users over a store starts with no messages, an empty input, loading, not sending and not muted |
| Chat.ChatScreen.LoadMessages | app/ChatScreen.tsx:213-231 | without a stored conversation nothing changes; otherwise the screen shows the loaded conversation, which is written back; loading ends either way |
| Chat.ChatScreen.MarkMessagesAsRead | app/ChatScreen.tsx:197-211 | the screen shows and stores the list with the received messages read |
| Chat.ChatScreen.SaveMessage | app/ChatScreen.tsx:233-241 | the shown and stored conversation is the previous one followed by exactly the new message |
| Chat.ChatScreen.NotifyReceiver | app/ChatScreen.tsx:132-147 | a muted chat makes no call; otherwise the call passes no target and is skipped |
| Chat.ChatScreen.Deliver | app/ChatScreen.tsx:246-266 | the message is appended and stored, the receiver is notified unless muted, the input is cleared and the sending flag is off |
| Chat.ChatScreen.SendMessage | app/ChatScreen.tsx:244-276 | nothing happens when the trimmed text is empty or a send is in flight; otherwise exactly one unread message from the logged user to the peer, holding the trimmed text, is appended and stored, and the input is cleared |
| Chat.ChatScreen.SendImageMessage | app/ChatScreen.tsx:279-297 | exactly one unread image message to the peer is appended and stored |
| Chat.ChatScreen.LoadMuted | app/ChatScreen.tsx:102-107 | the flag says whether the peer is in the logged user's muted list, a missing list being empty |
| Chat.ChatScreen.ToggleMute | app/ChatScreen.tsx:109-129 | the stored muted list is the toggled list and the flag says the peer is now muted iff it was not in the list |
| Chat.ChatScreen.DeleteConversation | app/ChatScreen.tsx:731-736 | the conversation under the screen's own key is removed, no other conversation changes, and the screen is emptied |
| ChatsList.LoadChats | app/ChatsList.tsx:40-49 | without a current user nothing is loaded; otherwise the stored list for "conversations_" + id, or empty |
| ChatsList.DisplayOrder | app/ChatsList.tsx:89 | the same chats, as a multiset, with `updatedAt` never increasing |
| ChatsList.OtherParticipant | app/ChatsList.tsx:59-61 | the first participant whose id differs from the current user's, and none iff every participant is the current user |
| ChatsList.SelfChatHasNoOther | app/ChatsList.tsx:59-63 | a chat whose only participant is the current user has no other participant |
| ChatsList.OpenChat | app/ChatsList.tsx:58-77 | no navigation iff there is no other participant; otherwise the route carries the chat id and the other user's id, username and avatar or "" |
| ChatsList.LastMessageText | app/ChatsList.tsx:118 | the last message when truthy, else "Nova conversa" |
| ChatsList.RenderRow | app/ChatsList.tsx:92-119 | no row iff there is no other participant; otherwise a row with the other user's picture or the default one, their username and the last message text |
| PostCard.FormatInstagramTime | components/PostCard.tsx:49-69 | exactly one bucket for the elapsed time: now under a minute, "1 min", whole minutes under an hour, "1 h", whole hours under a day, "1 d", whole days under a week, otherwise the post's date; each count matches the elapsed time |
| PostCard.CaptionShape | components/PostCard.tsx:55-68 | a caption exists iff the bucket is not a calendar date; its last character names the unit ("agora", min, h, d) and the digits after "há " are the count |
| PostCard.PluralCountsTwo | components/PostCard.tsx:55-68 | a bucket counted in minutes, hours or days always counts at least two |
| PostCard.CaptionDistinct | components/PostCard.tsx:49-69 | two ages with a caption show the same caption only when they fall in the same bucket with the same count |
| PostCard.ToggledLikes | components/PostCard.tsx:186-195 | liking appends exactly one entry `{id, username, avatar}` at the end; unliking keeps, in order, exactly the entries of other users, each as many times as before, and none of the liker's |
| PostCard.ToggleLikeIn | components/PostCard.tsx:182-198 | fails iff the post's likes are not a list; otherwise same length, only posts with the card's id change and only in their likes |
| PostCard.UnlikeUndoesLikeOnList | components/PostCard.tsx:186-195 | unliking after liking restores a like list that did not hold the user |
| PostCard.UnlikeUndoesLike | components/PostCard.tsx:182-198 | unliking after liking restores the stored posts |
| PostCard.LikeNotice | components/PostCard.tsx:203-213 | a notification call is made iff the write succeeded, it is a like, and the author is someone else; the call passes no target and is skipped |
| PostCard.WithoutPost | components/PostCard.tsx:302 | exactly the posts with another id remain, in their order and each as many times as before |
| PostCard.NewCommentFields | components/PostCard.tsx:257-266 | the new comment's id is a numeral that reads back as the time, which is also its creation time; it holds the text and the author `{id, username, avatar}`, and no other author fields |
| PostCard.Card.constructor | components/PostCard.tsx:98-109 | liked iff the current user is among the likers; the count is the number of likes; comments default to none |
| PostCard.Card.LoadComments | components/PostCard.tsx:123-128 | a stored comment list replaces the shown one; without one nothing changes |
| PostCard.Card.LoadLikers | components/PostCard.tsx:145-155 | the likers become the likes of the stored post with the card's id, if there is one |
| PostCard.Card.HandleLikePost | components/PostCard.tsx:165-215 | nothing without a current user; otherwise `liked` flips, the count moves by one in the same direction, the stored posts are toggled, and the notification decision follows `LikeNotice` |
| PostCard.Card.HandleTap | components/PostCard.tsx:220-248 | a tap within 300 ms of the recorded one likes the post unless already liked, and forgets the tap; any other tap is recorded and changes nothing else |
| PostCard.Card.HandleAddComment | components/PostCard.tsx:253-287 | nothing when the trimmed text is empty or there is no user; otherwise exactly one comment with the trimmed text is appended and stored under "@comments:" + post id, and the input is cleared |
| PostCard.Card.HandleDeletePost | components/PostCard.tsx:292-311 | the stored feed loses every post with the card's id and keeps the rest in order |
| EditProfile.NormalizeUsername | components/EditProfileModal.tsx:71-79 | the normalised name has no capital letters, is no longer than the input, and is empty iff the input is all white space |
| EditProfile.ToLowerKeepsTrimmed | components/EditProfileModal.tsx:71 | lower-casing a trimmed name leaves it trimmed |
| EditProfile.NormalizeUsernameIdempotent | components/EditProfileModal.tsx:71 | normalising twice is normalising once |
| EditProfile.UsernameTaken | components/EditProfileModal.tsx:85-98 | the name is taken iff some stored post by a different user id shows it, ignoring case |
| EditProfile.OwnPostsNeverCollide | components/EditProfileModal.tsx:85-98 | the editor's own posts never block a name |
| EditProfile.AvatarExtension | components/EditProfileModal.tsx:109 | the extension is the text after the last "." when non-empty, else "jpg"; it has no "." and is never empty |
| EditProfile.MimeType | components/EditProfileModal.tsx:110-115 | "image/png" iff "png", "image/jpeg" iff "jpg" or "jpeg", otherwise "image/*" |
| EditProfile.AvatarUpload | components/EditProfileModal.tsx:117-124 | the file sent is the picture named "profile." plus its extension, with the matching type |
| EditProfile.NoExtensionIsJpeg | components/EditProfileModal.tsx:109-124 | a picture path ending in "." is sent as "profile.jpg" with type "image/jpeg" |
| EditProfile.RewritePosts | components/EditProfileModal.tsx:135-149 | fails iff some post has no user; otherwise same length and order, the editor's posts change only in username, display name and avatar, and all other posts are unchanged |
| EditProfile.RewritePostsIdempotent | components/EditProfileModal.tsx:135-149 | rewriting twice with the same fields is rewriting once |
| EditProfile.RewriteComments | components/EditProfileModal.tsx:160-178 | same length; a comment changes only if the editor wrote it (by `user.id` or `userId`) and then only in its author fields |
| EditProfile.RewriteCommentsIdempotent | components/EditProfileModal.tsx:160-178 | rewriting twice is rewriting once |
| EditProfile.RewriteNotifications | components/EditProfileModal.tsx:187-196 | same length; notifications whose `userId` is the editor get the new author fields and nothing else changes; the others are unchanged |
| EditProfile.RewriteNotificationsIdempotent | components/EditProfileModal.tsx:187-196 | rewriting twice is rewriting once |
| EditProfile.ProfileEditor.constructor | components/EditProfileModal.tsx:30-40 | the form starts from the metadata username, else the account username, else ""; the names or ""; the picture or none |
| EditProfile.ProfileEditor.UpdateFormField | components/EditProfileModal.tsx:42-44 | only the named field changes |
| EditProfile.ProfileEditor.PickImage | components/EditProfileModal.tsx:58-60 | the chosen picture becomes the avatar |
| EditProfile.ProfileEditor.RewriteAllComments | components/EditProfileModal.tsx:152-181 | every list under a "@comments:" key is rewritten and every other key is as it was |
| EditProfile.ProfileEditor.WriteAuthorFields | components/EditProfileModal.tsx:135-201 | the posts, every comment list and the notifications are rewritten with the new author fields |
| EditProfile.SaveDecision | components/EditProfileModal.tsx:70-149 | the outcome of a save with a user: an empty normalised username, else a taken one, else a provider failure or a stored post without a user fails, else it is saved; each outcome holds exactly under its condition |
| EditProfile.ProfileEditor.Commit | components/EditProfileModal.tsx:100-201 | saved iff the provider calls succeed and every stored post has a user, and then the posts, comments and notifications are rewritten with the given author fields; otherwise it fails and the store is unchanged |
| EditProfile.ProfileEditor.SaveChecked | components/EditProfileModal.tsx:100-201 | after the checks: the picture is uploaded iff the provider call succeeded and the avatar is new and non-empty, under `AvatarUpload`'s name and type; the author fields written are the reloaded username or the normalised one, the trimmed joined names, and the reloaded picture or the chosen one |
| EditProfile.ProfileEditor.SaveProfile | components/EditProfileModal.tsx:66-214 | nothing without a user; otherwise the outcome is `SaveDecision`'s and the busy flag ends off; a save that is not completed writes nothing; a completed save rewrites every record the editor wrote with the new username, display name and avatar; the picture is uploaded iff the checks passed, the provider call succeeded and the avatar is new |
| EditProfile.DisplayNameJoin | components/EditProfileModal.tsx:128-132 | the display name is the two trimmed names joined by one space, or the one that is present |
| Profile.WithAvatar | hooks/useProfile.ts:51-53 | same length and order; the user's own entries get the new avatar and nothing else; every other entry is unchanged |
| Profile.WithAvatarIdempotent | hooks/useProfile.ts:51-53 | rewriting a list twice is rewriting it once |
| Profile.ProfileForm.constructor | hooks/useProfile.ts:11-17 | the form starts with four empty fields and no save in progress |
| Profile.ProfileForm.UpdateFormField | hooks/useProfile.ts:19-21 | only the named field changes |
| Profile.RewriteOneMore | hooks/useProfile.ts:47-55 | rewriting one more pending follow list takes it off the pending set and touches no other list |
| Profile.NothingPending | hooks/useProfile.ts:42-55 | once no follow list is pending, every follow list is rewritten and every other list is as it was |
| Profile.ProfileForm.RewriteFollowLists | hooks/useProfile.ts:42-55 | exactly the stored lists under "followers_" or "following_" keys are rewritten; all other lists are unchanged |
| Profile.ProfileForm.SaveProfile | hooks/useProfile.ts:23-64 | nothing without a user; nothing written when the provider fails; otherwise the form is stored under "@user_profile_data" and the user's picture is copied into the follow lists |
| PostsList.ByActiveAuthor | components/PostsList.tsx:70-77 | every post without an active author; otherwise exactly the posts whose author's username matches ignoring case, each as many times as in the feed; always an order-preserving sub-list |
| PostsList.SliceEnd | components/PostsList.tsx:79 | `slice(0, limit)` keeps exactly `limit` entries when the limit is between 0 and the length, all of them when it is larger, drops exactly the last `-limit` entries for a negative limit no longer than the list, and keeps nothing for a more negative one |
| PostsList.FilteredPosts | components/PostsList.tsx:65-82 | empty without posts; always an order-preserving sub-list; at most `limit` posts for a positive limit; a zero or absent limit keeps all filtered posts, otherwise the first entries up to where `slice(0, limit)` ends |
| PostsList.ShownIffByAuthor | components/PostsList.tsx:68-77 | with an active author and no limit, a post is shown iff it is in the feed and its author's username matches ignoring case |
| PostsList.NoUsernameHidden | components/PostsList.tsx:73-76 | a post whose author has no username is never shown under an active author |
| PostsScreen.Normalize | app/posts-screen.tsx:73-83 | likes and comments become lists (empty when missing), a missing author becomes the default, and every other field is kept |
| PostsScreen.NormalizeKeepsNormal | app/posts-screen.tsx:73-83 | a post that already has lists and an author is unchanged |
| PostsScreen.Present | app/posts-screen.tsx:71-72 | exactly the present entries, in their order: wrapping each result back as an entry gives the stored list with the missing entries filtered out |
| PostsScreen.NormalizePosts | app/posts-screen.tsx:61-89 | no stored list gives no posts; otherwise the present entries, in order, each normalised, so every result is normal |
| PostsScreen.NormalizePostsIdempotent | app/posts-screen.tsx:61-89 | loading already normalised posts gives them back unchanged |
| PostsScreen.PresentAll | app/posts-screen.tsx:71-72 | no present entry is dropped |
| PostsScreen.ActivePost | app/posts-screen.tsx:103-106 | nothing without an id; otherwise the first post with that id, or nothing when no post has it |
| CreatePost.RemainingChars | hooks/useCreatePost.ts:135 | the count is non-negative iff the caption has at most 2200 UTF-16 code units |
| CreatePost.Sanitize | hooks/useCreatePost.ts:61 | the result has no "\n" or "\r" and is no longer than the input |
| CreatePost.SanitizeNoBreaks | hooks/useCreatePost.ts:61 | text without line breaks is unchanged |
| CreatePost.SanitizeIdempotent | hooks/useCreatePost.ts:61 | sanitising twice is sanitising once |
| CreatePost.SanitizeKeepsOther | hooks/useCreatePost.ts:61 | a character that is not a line break is kept |
| CreatePost.SanitizeLeadingBreak | hooks/useCreatePost.ts:61 | a leading CR LF, LF or lone CR becomes one space |
| CreatePost.SanitizeBreak | hooks/useCreatePost.ts:61 | each CR LF, LF or lone CR becomes exactly one space and the text around it is kept |
| CreatePost.NewPostMessageIsPostTemplate | hooks/useCreatePost.ts:91 | the stored notification text is the "post" message of `addNotification` for "conectdesigner" |
| CreatePost.NewPostFields | hooks/useCreatePost.ts:66-79 | the new post's id is a numeral that reads back as its creation time; its author is the signed-in user or the anonymous one, its picture the chosen one, and it has no likes or comments |
| CreatePost.NewPostNotificationFields | hooks/useCreatePost.ts:88-95 | the notification is an unread "post" notification for the new post, with an id that reads back as its time, and the "post" message of `addNotification` for "conectdesigner" |
| CreatePost.StoredContentClean | hooks/useCreatePost.ts:61-74 | the stored caption has no line breaks and no white space at either end |
| CreatePost.Composer.constructor | hooks/useCreatePost.ts:15-17 | the composer starts empty and idle |
| CreatePost.Composer.SetContent | hooks/useCreatePost.ts:125 | the caption becomes the text |
| CreatePost.Composer.SelectImage | hooks/useCreatePost.ts:27-29 | the chosen picture is selected |
| CreatePost.Composer.RemoveImage | hooks/useCreatePost.ts:46 | no picture is selected |
| CreatePost.Composer.StorePost | hooks/useCreatePost.ts:63-100 | the post goes first in the stored feed and its notification last in the stored notifications; no other key changes |
| CreatePost.Composer.Publish | hooks/useCreatePost.ts:57-115 | the post is built from the caption, picture and author, stored with its notification, the device alert is raised iff the author is the featured account, and the composer is cleared |
| CreatePost.Composer.CreatePost | hooks/useCreatePost.ts:49-121 | nothing when there is neither text nor picture, or the caption is over 2200 code units; otherwise the new post, with no likes or comments and the author or the anonymous user, goes first in the feed before the old posts in order; one unread "post" notification for it goes last; the composer is cleared |
| CreateStory.StoriesKey | app/create-story.tsx:17 | a user's stories are kept under "@stories:" followed by exactly the user's id |
| CreateStory.NewStory | app/create-story.tsx:19-26 | the new story has the picture, the user's id, the time, is unviewed, and is labelled "Você" |
| CreateStory.StoryScreen.constructor | app/create-story.tsx:10-11 | the screen holds the picture parameter and the current user |
| CreateStory.StoryScreen.PublishStory | app/create-story.tsx:13-32 | nothing without a picture or a user; otherwise the new story becomes the first element of the user's list, the earlier stories following in order, and no other list changes |
| CurrentUserHook.DeriveCurrentUser | hooks/useCurrentUser.ts:14-32 | none iff not loaded or no user; the id and picture are copied; the username is the account's, else the metadata's, else "usuário", never empty; the display name is the trimmed full name, else the username, never empty |
| CurrentUserHook.DisplayNameOfTrimmedNames | hooks/useCurrentUser.ts:22-24 | for names needing no trim, the display name is both names joined by a space, the one present, or the username |
| Notifications.AddNotification | utils/addNotification.ts:12-47 | skipped iff there is no target; skipped as a self-notification iff the actor is the target and it is not forced; otherwise the fixed title, the type's message, and sound and vibration iff it is a chat message |
| Notifications.NoTargetNeverShown | utils/addNotification.ts:21 | a call without a target is skipped whatever the type, as every chat and post card call is |
| Notifications.MessageDeterminesTypeAndActor | utils/addNotification.ts:28-44 | the message text determines both the type and the actor's username |
| Notifications.FirstChar | utils/addNotification.ts:28-44 | a chat message starts with "N", every other message with "@" |
| Notifications.SuffixSignature | utils/addNotification.ts:29-43 | the four non-chat suffixes differ in their last or sixteenth-from-last character |
| Verification.GenerateCode | server.js:46-48 | a code is six digits with no leading zero, worth 100000 plus the draw |
| Verification.GenerateCodeInjective | server.js:46-48 | different draws give different codes |
| Verification.EmptyRequestVerifiesAsWritten | server.js:79-85 | as written, a request without e-mail and code on a server with no codes is verified |
| Verification.VerifiesNeedsIssuedCode | server.js:79-85 | with the intended test nothing verifies for an address without a stored code, and for a submitted code it agrees with the written test |
| Verification.VerifiedCodeIsConsumed | server.js:82-84 | a code that verified cannot verify a second time |
| Verification.CodeStore.constructor | server.js:44 | the server starts with no codes |
| Verification.CodeStore.SendCode | server.js:58-77 | 400 without an e-mail and nothing stored; otherwise the new code replaces any earlier one for that address only, and the answer is 200 or 500 by the mail's fate, the code staying stored |
| Verification.CodeStore.VerifyCode | server.js:79-88 | implements the corrected test (see Findings): verified iff a code was submitted and equals the stored one; then it is removed with 200; otherwise 400 with nothing changed; other addresses are never touched |
| SocialAuth.GenerateUsernameFormat | hooks/useSocialAuth.ts:9-13 | a candidate is "user_", at most six characters of the draw, "_" and a three-digit numeral whose value is 100 plus the second draw, with no capital letters |
| SocialAuth.ProviderLabel | hooks/useSocialAuth.ts:59 | the label is "Google" exactly for the Google strategy and "Apple" exactly for the Apple one |
| SocialAuth.FailureMessageNamesProvider | hooks/useSocialAuth.ts:59-63 | the two providers' failure messages differ, so the message tells which provider failed |
| SocialAuth.SocialAuthFlow.RetryUsername | hooks/useSocialAuth.ts:39-50 | between one and five candidates are sent, each built from its own draws; every one but the last was refused; the first accepted becomes the username, and when none is accepted exactly five were tried and the username is unchanged |
| SocialAuth.SocialAuthFlow.constructor | hooks/useSocialAuth.ts:16 | the flow starts idle |
| SocialAuth.SocialAuthFlow.HandleSocialAuth | hooks/useSocialAuth.ts:20-67 | a missing session or `setActive` fails with the provider's message and tries no username; only a user without a username gets candidates; at most five are sent, each refused but the last, stopping at the first accepted, which becomes the username |
| Seqs.Filter | app/ChatScreen.tsx:116 | `filter` keeps exactly the passing elements, in their order, and is no longer than its input |
| Seqs.FilterCounts | app/ChatScreen.tsx:116 | each passing value occurs in the result as often as in the input, every other value not at all |
| Seqs.MapPermutation | app/ChatScreen.tsx:219-225 | mapping two rearrangements of the same elements gives rearrangements of the same images, so marking after sorting holds the same messages as marking the stored list |
| Seqs.SortBy | app/ChatScreen.tsx:219-222 | the numeric `sort` gives a permutation in ascending key order |
| Seqs.Find | app/posts-screen.tsx:103-106 | `find` gives the first passing element, or none when no element passes |
| Text.Trim | hooks/useCreatePost.ts:50 | `trim` gives a string with no white space at either end, empty iff the input was all white space |
| Text.Utf16Length | hooks/useCreatePost.ts:52 | a string's `length` lies between its number of characters and twice that |
| Text.SubstringPiece | hooks/useSocialAuth.ts:10 | `substring` gives one contiguous piece of the string, starting at the smaller end clamped to the length, no longer than the distance between the ends, and exactly that long when both ends lie within the string |
| Text.SubstringSymmetric | hooks/useSocialAuth.ts:10 | swapping the two ends of `substring` gives the same piece |
| Text.LastSegment | components/EditProfileModal.tsx:109 | `split(".").pop()` is the longest suffix without the separator: it is preceded by the separator unless it is the whole string |
| Text.ToLower | components/EditProfileModal.tsx:71 | `toLowerCase` keeps the length and lower-cases each character in place |
| Text.NatToStringRoundTrip | server.js:47 | reading back a decimal numeral gives the number |

## Left out

- Rendering, styling, animation, keyboard handling, navigation, modals and alert dialogs are not modelled. An alert shows up only as an outcome value where a rule decides it.
- The identity provider's calls (`user.update`, `setProfileImage`, `reload`, `startSSOFlow`, `setActive`) are parameters:
  - whether they succeed (`providerOk`, `accepts`);
  - what they return (`reloadedUsername`, `reloadedImageUrl`, `SsoResult`).
- Device storage:
  - Its asynchronous calls and JSON parsing are left out.
  - Stored values are typed lists, so a value that fails to parse is not modelled.
  - An empty stored string counts as missing.
- The race in `saveMessage`, where a second send builds on a stale `messages`, is left out because it needs concurrency.
- Timers are left out: online-status polling, scrolling after a send, and the sound's unload.
- The online flags are read from storage every five seconds; they are parameters of `Chat.GetLastSeen`.
- The message link handler's URL regular expression is left out.
- Randomness and clocks are parameters:
  - `Date.now()` is `now`;
  - message ids are `newId`;
  - `Math.random()` draws are `offset`, `parts` and `numbers`.
- Timestamps are integers of milliseconds since the epoch. Parsing ISO strings and `toISOString().split("T")[0]` are modelled as the UTC day number `timestamp / 86400000`.
- Locale formatting is left out: `toLocaleDateString` for posts older than a week (`PostCard.Caption` gives no text) and date-fns formatting.
- These device effects are recorded only as outcome values:
  - `showNotification`, haptics and sound;
  - the scheduled notification for the featured account.
- `postEvents.emit("post-updated")`, which tells other screens to reload the feed, is left out. It is an event to listeners that are not part of this model (useProfile.ts:58, useCreatePost.ts:112, PostCard.tsx:201, 272 and 305).
- CreatePost.NewPostFields: the post reads the clock once, as `now`. The source calls `Date.now()` separately for `id` and `createdAt` (useCreatePost.ts:67, 77), so the two can differ by a millisecond; "the id reads back as its creation time" holds in the model only.
- CreatePost.NewPostNotificationFields: the notification uses the same `now` as its post. The source reads the clock again after two storage calls (useCreatePost.ts:89, 92), so its id and time can be later than the post's; that the notification's id equals the post's id holds in the model only.
- PostCard.NewCommentFields: the comment reads the clock once. The source calls `Date.now()` separately for `id` and `createdAt` (PostCard.tsx:257, 264).
- CreateStory.NewStory: the story reads the clock once. The source calls `Date.now()` separately for `id` and `createdAt` (create-story.tsx:20, 24).
- Notifications.AddNotification: takes the type as a required parameter. The source's default type "like" (addNotification.ts:14) is not modelled; every call in the app passes a type.
- Chat.GroupMessagesByDate: does not state the order of `days`. The loop appends each day when its first message is reached, but no contract says that the days follow the order of first appearance.
- PostCard.Card.constructor: requires the post to carry a likes array. The source reads `post.likes.some` and `post.likes.length` when the card is first rendered, so it throws on a post without one; that failure is not modelled.
- The card's `onComment` and `onDelete` callbacks and the delete confirmation dialog are left out.
- The mail transport, the server's routing and its database endpoints are left out. The send result is the parameter `mailOk`.
- Text.ToLower: lower-cases ASCII letters only. JavaScript's `toLowerCase` also maps other letters. `EditProfile.NormalizeUsername`, `PostsList.ByAuthor` and `SocialAuth.GenerateUsernameFormat` inherit this.
- Text.LexLe: compares code points. JavaScript compares UTF-16 code units, which orders ids with characters outside the Basic Multilingual Plane differently.
- Chat.LoadedConversationShape: does not state that messages with equal timestamps keep their stored order. The sort the source uses is stable, and so is `Seqs.SortBy`, but no contract says so.
- ChatsList.DisplayOrder: is a value. The source sorts the `chats` state array in place during rendering, and that mutation of the state is not modelled.
- Verification.CodeStore: an e-mail such as "__proto__" or "constructor", which names a property every JavaScript object has, is treated like any other address.
- SocialAuth.SocialAuthFlow.HandleSocialAuth: `user` is the value the hook saw before signing in. The model does not capture that it may be stale, and it does not model `setActive` itself failing.
- Numbers are unbounded integers. The source's double-precision numbers are exact at these magnitudes.

## Findings

| source | as written | input that shows it | evidently intended | confidence | as-written member | corrected member |
|---|---|---|---|---|---|---|
| server.js:79-85 | `/verify-code` answers `verified: true` when `verificationCodes[email] === code` | a request with no `email` and no `code` to a server with no code stored under "undefined": `undefined === undefined`, so it is verified | verify only when a code was submitted and equals the code stored for that address | not executed | Verification.EmptyRequestVerifiesAsWritten | Verification.VerifiesNeedsIssuedCode, Verification.CodeStore.VerifyCode |
