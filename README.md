# Social network front end: view-model logic in Dafny

The repository is a front-end prototype for a social network: feed, profile,
notifications and explore pages. Almost all of it is markup over dummy data.
This project models the small pieces of view-model logic that some components
hold, and proves what they promise:

- **Notifications page.** The state is a list of notifications and an active
  filter. From it the page derives the filtered list, per-filter counts and the
  unread count. Three handlers replace the list: mark all read, mark one read,
  and clear all. A notification card decides when a click asks for a read. The
  filter pills decide which filter is active and how the count badge looks.
- **Suggested users.** A set of followed ids, toggled by each card's button.
- **Post composer.** The 280-character budget, the counter, the post guard,
  posting, discarding on close and removing an image.
- **Profile edit form.** A copy of the profile, edited one field at a time,
  reset on cancel and when the profile changes, and handed over on save.
- **Small state machines.** The search box, the profile tabs, the like and
  retweet toggles of a post, and the follow toggle and edit modal of the
  profile header.

There is one module per source file. `Wrappers` (an `Option` type) and
`Decimal` (decimal numerals and their parser) are shared helpers. Stateful
components are classes whose fields are the component's state. A handler is a
method that states the whole new state. An `onX` callback becomes a returned
value. The answer to a browser confirmation dialog becomes a `bool` parameter.
Derived values (filtered list, counts, unread count, counter text, badge) are
functions, and lemmas relate them: counts sum to the length, mark-all-read
drives the unread count to 0, toggling twice is the identity, and similar facts.

In `components/post/Post.tsx` the numbers shown are always the post's own
stats, whatever the like and retweet toggles are. `Post.ActionRowOf` states that.

## Model

| member | source | states |
|---|---|---|
| NotificationItem.ConfigDistinguishesTypes | components/notifications/NotificationItem.tsx:53-89 | the display table has an entry for each of the five types (a total match), and two types never share an icon or action text |
| NotificationItem.HandleClick | components/notifications/NotificationItem.tsx:99-104 | a click asks for a read, with the card's own id, exactly when the card is unread; the notification itself is reported on every click |
| NotificationItem.MarkerMatchesReadRequest | components/notifications/NotificationItem.tsx:116-120 | the unread marker is shown exactly when `isRead` is false, which is exactly when a click asks for a read |
| NotificationFilter.IndexOf | components/notifications/NotificationFilter.tsx:36-43 | every filter has a position among the pills, and the pill there carries that filter |
| NotificationFilter.FiltersAreTheFilterTypes | components/notifications/NotificationFilter.tsx:28-43 | there are six pills, no two with the same id, in the order all, like, comment, retweet, follow, mention |
| NotificationFilter.CountFor | components/notifications/NotificationFilter.tsx:59 | a missing counts record, or a missing entry for a filter, counts as 0; otherwise the supplied count is used |
| NotificationFilter.ExactlyOneActive | components/notifications/NotificationFilter.tsx:46-60 | with no `activeFilter` prop "all" is active, and a pill is active exactly when it is at the position of the filter in force |
| NotificationFilter.ClickFilter | components/notifications/NotificationFilter.tsx:50-65 | clicking pill i reports pill i's id unchanged; once the page adopts it, pill i and no other is active |
| NotificationFilter.Badge | components/notifications/NotificationFilter.tsx:81-89 | the badge appears exactly when the count is positive; it reads "99+" above 99, and otherwise it is a numeral of at most two digits, without leading zero, that reads back as the count (so, by `NumeralIsUnique`, the plain number) |
| Decimal.NumeralIsUnique | components/notifications/NotificationFilter.tsx:89 | a numeral without leading zero that reads back as n is the one numeral printed for n, so the badge and counter contracts fix their text |
| NotificationFilter.BadgeIsShort | components/notifications/NotificationFilter.tsx:89 | a badge is never longer than three characters |
| NotificationsPage.CountOf | app/notifications/page.tsx:171-173 | the number of notifications of one type is at most the list length |
| NotificationsPage.UnreadCount | app/notifications/page.tsx:179-181 | the unread count is at most the list length, and it is 0 exactly when every notification is read |
| NotificationsPage.FilterByType | app/notifications/page.tsx:157 | the filtered list has `CountOf` elements, all of that type; it contains every notification of that type and nothing outside the list |
| NotificationsPage.FilterByTypeKeepsOrder | app/notifications/page.tsx:157 | the filtered list is a subsequence of the list: original order is kept |
| NotificationsPage.FilteredNotifications | app/notifications/page.tsx:153-158 | under "all" the view is the whole list; under a type it holds exactly the notifications of that type |
| NotificationsPage.CountsOf | app/notifications/page.tsx:161-176 | the counts record has an entry for every filter, and "all" is the list length |
| NotificationsPage.CountsSumToLength | app/notifications/page.tsx:161-176 | the five per-type counts add up to the "all" count |
| NotificationsPage.FilteredLengthIsCount | app/notifications/page.tsx:153-176 | the list shown under a filter is exactly as long as the count on that filter's pill |
| NotificationsPage.AllRead | app/notifications/page.tsx:184-186 | every entry becomes read, and otherwise stays as it was, at its position |
| NotificationsPage.AllReadProperties | app/notifications/page.tsx:183-187 | after mark-all-read the unread count is 0; ids, types, order and every count are unchanged |
| NotificationsPage.MarkedRead | app/notifications/page.tsx:196-198 | entries with the id become read; every other entry is untouched; length and positions are kept |
| NotificationsPage.MarkedReadIdempotent | app/notifications/page.tsx:195-199 | marking the same id read twice is the same as marking it once |
| NotificationsPage.MarkedReadCommutes | app/notifications/page.tsx:195-199 | marks for two ids can be applied in either order |
| NotificationsPage.MarkedReadLowersUnread | app/notifications/page.tsx:195-199 | marking read never raises the unread count, and lowers it when an unread entry has the id |
| NotificationsPage.MarkedReadKeepsCounts | app/notifications/page.tsx:195-199 | marking read leaves every per-filter count unchanged |
| NotificationsPage.MarkedReadNoUnreadIsIdentity | app/notifications/page.tsx:195-199 | marking an id that has no unread entry leaves the list as it was |
| NotificationsPage.AfterItemClick | components/notifications/NotificationItem.tsx:99-104 | a click routed through the page's read handler leaves the list unchanged for a read card; for an unread card the list becomes `MarkedRead` on the card's id, every entry with that id is read, and the unread count drops when the card is in the list |
| NotificationsPage.PageState.constructor | app/notifications/page.tsx:149-150 | the page starts with the ten initial notifications and filter "all" |
| NotificationsPage.PageState.Counts | app/notifications/page.tsx:161-176 | the counts accumulated one notification at a time equal `CountsOf` of the list |
| NotificationsPage.PageState.SelectFilter | app/notifications/page.tsx:270 | the filter reported by a pill becomes the active filter, and the list is unchanged |
| NotificationsPage.PageState.HandleMarkAllRead | app/notifications/page.tsx:183-187 | the list becomes `AllRead` of the old list, the unread count is 0, and the filter is unchanged |
| NotificationsPage.PageState.HandleClearAll | app/notifications/page.tsx:189-193 | a confirmed clear empties the list, so every count and the unread count are 0; a declined one changes nothing |
| NotificationsPage.PageState.HandleNotificationRead | app/notifications/page.tsx:195-199 | the list becomes `MarkedRead` of the old list, and the unread count does not rise |
| NotificationsPage.PageState.HandleItemClick | app/notifications/page.tsx:280-285 | a card click updates the list as `AfterItemClick` says and reports the notification |
| SuggestedUsers.Toggled | components/explore/SuggestedUsers.tsx:97-104 | an absent id is added and a present id removed; every other id keeps its membership |
| SuggestedUsers.ToggledTwice | components/explore/SuggestedUsers.tsx:97-104 | two clicks on the same card give back the original set |
| SuggestedUsers.ToggledCommutes | components/explore/SuggestedUsers.tsx:97-104 | clicks on two cards can happen in either order |
| SuggestedUsers.FollowTracker.constructor | components/explore/SuggestedUsers.tsx:92-94 | initially no user is followed |
| SuggestedUsers.FollowTracker.HandleFollowClick | components/explore/SuggestedUsers.tsx:96-107 | the followed set becomes `Toggled` of the old set on the user's id, and the user is reported once, in both directions |
| SuggestedUsers.FollowTracker.CardLabel | components/explore/SuggestedUsers.tsx:231-240 | a card's button reads "Following" exactly when its id is followed, and "Follow" otherwise |
| CreatePostModal.LimitBands | components/post/CreatePostModal.tsx:56-59 | characters left is 280 minus the length; over the limit iff the length exceeds 280; near the limit iff the length is 260 to 280; never both |
| CreatePostModal.CounterText | components/post/CreatePostModal.tsx:155 | over the limit the counter is "+" and a numeral, without leading zero, that reads back as length minus 280; otherwise such a numeral for the characters left ("0" at exactly 280) |
| CreatePostModal.TrimStart | components/post/CreatePostModal.tsx:70 | the result is a suffix of the text, what it drops is all white space, and it does not start with white space |
| CreatePostModal.TrimEnd | components/post/CreatePostModal.tsx:70 | the result is a prefix of the text, what it drops is all white space, and it does not end with white space |
| CreatePostModal.TrimEmptyIffBlank | components/post/CreatePostModal.tsx:70 | the trimmed text is empty exactly when the text has no non-white-space character |
| CreatePostModal.PostDisabledMeans | components/post/CreatePostModal.tsx:245 | the Post button is disabled exactly when the text is blank, longer than 280, or a post is in progress |
| CreatePostModal.RemoveAt | components/post/CreatePostModal.tsx:174 | removing index i deletes exactly that element and keeps the others in order; an index with no element changes nothing |
| CreatePostModal.Composer.constructor | components/post/CreatePostModal.tsx:51-53 | the composer starts with empty text, no images and no post in progress |
| CreatePostModal.Composer.SetContent | components/post/CreatePostModal.tsx:138 | typing sets the text and nothing else |
| CreatePostModal.Composer.HandlePost | components/post/CreatePostModal.tsx:69-84 | blank or over-limit text changes nothing and emits nothing; otherwise `onPost` receives the text and images as they were, the form is reset, no post is in progress, and the modal asks to close |
| CreatePostModal.Composer.HandleClose | components/post/CreatePostModal.tsx:91-98 | non-blank text with a declined confirmation keeps all state; otherwise text and images are cleared and the modal asks to close |
| CreatePostModal.Composer.RemoveImage | components/post/CreatePostModal.tsx:174 | the images become `RemoveAt` of the old images, and the text is unchanged |
| EditProfileModal.WithField | components/profile/EditProfileModal.tsx:74-79 | the changed field reads the new value; every other field, and both counts, read as before |
| EditProfileModal.WithFieldOverwrites | components/profile/EditProfileModal.tsx:74-79 | two changes to one field keep only the last value |
| EditProfileModal.WithFieldCommutes | components/profile/EditProfileModal.tsx:74-79 | changes to two different fields can be made in either order |
| EditProfileModal.EditForm.constructor | components/profile/EditProfileModal.tsx:66-67 | the form starts equal to the profile and not saving, with Save and Cancel enabled |
| EditProfileModal.EditForm.ReceiveProfile | components/profile/EditProfileModal.tsx:70-72 | a changed profile prop is copied into the form; an unchanged one leaves the form as it is |
| EditProfileModal.EditForm.HandleInputChange | components/profile/EditProfileModal.tsx:74-79 | the form becomes `WithField` of the old form; profile and saving flag are unchanged |
| EditProfileModal.EditForm.StartSave | components/profile/EditProfileModal.tsx:81-82 | saving starts, the form data at that moment is captured for `onSave`, and Save and Cancel become disabled (their `disabled={isSaving}`) |
| EditProfileModal.EditForm.FinishSave | components/profile/EditProfileModal.tsx:87-89 | `onSave` receives the captured data, saving ends so Save and Cancel are enabled again, and the modal asks to close |
| EditProfileModal.EditForm.HandleSave | components/profile/EditProfileModal.tsx:81-90 | `onSave` receives the form data as it was when Save was pressed; saving ends, Save and Cancel are enabled, and the modal asks to close |
| EditProfileModal.EditForm.HandleCancel | components/profile/EditProfileModal.tsx:92-95 | the form goes back to the profile and the modal asks to close |
| SearchBar.SearchBox.constructor | components/explore/SearchBar.tsx:42 | the query starts as the `value` prop, and the clear button shows iff that value is non-empty |
| SearchBar.SearchBox.HandleInputChange | components/explore/SearchBar.tsx:45-49 | the query becomes the new value and the parent is told the same value; the clear button (line 88) then shows iff the value is non-empty |
| SearchBar.SearchBox.HandleClear | components/explore/SearchBar.tsx:51-55 | the query becomes "" and the parent is told ""; the clear button disappears |
| SearchBar.SearchBox.HandleKeyDown | components/explore/SearchBar.tsx:57-61 | Enter hands the current query to `onSearch`; any other key hands over nothing |
| ProfileTabs.Position | components/profile/ProfileTabs.tsx:32-36 | each tab type sits at exactly one of the three positions: posts, followers, following |
| ProfileTabs.FindIndex | components/profile/ProfileTabs.tsx:43 | the result is the first index whose tab has the id, or -1 when no tab has it |
| ProfileTabs.TabBar.constructor | components/profile/ProfileTabs.tsx:42-44 | the active index starts at the position of `activeTab`, so it lies in 0..2 for every tab type (the invariant `Valid`) |
| ProfileTabs.TabBar.HandleTabClick | components/profile/ProfileTabs.tsx:46-49 | clicking the tab at index i makes i active, keeps the invariant, and reports that tab's id |
| ProfileTabs.ClickReportsTabAtIndex | components/profile/ProfileTabs.tsx:59 | the id reported for index i is the tab type whose position is i |
| ProfileTabs.TabBar.ReceiveActiveTab | components/profile/ProfileTabs.tsx:42-44 | a later `activeTab` prop does not move the active index, so the invariant is kept |
| ProfileTabs.TabBar.ExactlyOneTabActive | components/profile/ProfileTabs.tsx:61 | while the active index names a tab (the invariant every step keeps), exactly one of the three buttons has the active style |
| Post.ActionRowOf | components/post/Post.tsx:127-167 | the comment, retweet and like numbers shown are the post's stats, whatever the toggles; the highlights are the toggles |
| Post.TogglesLeaveNumbers | components/post/Post.tsx:134-167 | changing the toggles changes the highlights and nothing else |
| Post.PostCard.constructor | components/post/Post.tsx:60-61 | like and retweet both start off |
| Post.PostCard.ToggleLike | components/post/Post.tsx:155 | a like click flips the like flag and leaves the retweet flag |
| Post.PostCard.ToggleRetweet | components/post/Post.tsx:134 | a retweet click flips the retweet flag and leaves the like flag |
| Post.PostCard.Displayed | components/post/Post.tsx:127-167 | the displayed numbers are the post's stats; the highlights are the current flags |
| Post.DoubleToggle | components/post/Post.tsx:134-155 | two clicks on each button give back the flags, and the displayed row, they started with |
| ProfileHeader.ActionButtonText | components/profile/ProfileHeader.tsx:120-138 | one's own profile shows "Edit Profile"; otherwise the follow button reads "Following" exactly when following |
| ProfileHeader.Header.constructor | components/profile/ProfileHeader.tsx:51-52 | not following and modal closed at first; the edit modal exists exactly on one's own profile, showing the header's profile |
| ProfileHeader.Header.HandleFollowClick | components/profile/ProfileHeader.tsx:54-56 | a follow click flips the following flag and leaves the modal flag |
| ProfileHeader.FollowTwice | components/profile/ProfileHeader.tsx:54-56 | two follow clicks give back the state they started from |
| ProfileHeader.Header.HandleEditProfile | components/profile/ProfileHeader.tsx:58-60 | Edit opens the modal |
| ProfileHeader.Header.SetEditModalOpen | components/profile/ProfileHeader.tsx:209 | the modal's open-change sets the flag to the value passed |
| ProfileHeader.Header.SaveFromEditModal | components/profile/ProfileHeader.tsx:62-65 | saving hands the modal's form data to a handler that only logs it; the modal closes, and the profile the header and the modal show is unchanged |
| ProfileHeader.Header.ButtonText | components/profile/ProfileHeader.tsx:120-138 | "Edit Profile" on one's own profile; otherwise "Following" exactly when following and "Follow" exactly when not |

## Left out

- Rendering: JSX, Tailwind classes, icons, animations and layout. Also left out are the unread summary line and the visibility of the mark-all-read and clear-all buttons on the notifications page, and the empty-list messages.
- The other components and pages (layout, sidebar, timeline, trending, widgets, auth forms, page shells). They are static markup over dummy data or framework routing.
- The simulated one-second delays in posting and saving. Posting is one atomic step. Saving is split into a start and a finish step so that the saving flag and the captured form data can be stated.
- The browser confirmation dialogs. Each becomes a `bool` parameter.
- DOM side effects: text-area auto-resize, input focus after clear, and the image, cover and avatar upload stubs and click handlers that only log.
- The `maxLength` limits on the profile inputs. The browser enforces them, not the form state, so form fields are not claimed to be bounded.
- The tab indicator's position and width. These are floating-point CSS percentages.
- Locale-dependent number formatting in the profile header.
- The default suggested-user list and the profile dummy data. Only the notification list the page starts from is modelled.
- CreatePostModal.LimitBands: lengths count characters. JavaScript counts UTF-16 code units, so a character outside the Basic Multilingual Plane counts as two there and one here.
- CreatePostModal.TrimStart: white space is a fixed set (ASCII white space, no-break space, byte-order mark, line and paragraph separators), not the full Unicode definition that `String.prototype.trim` uses.
- CreatePostModal.Composer.HandlePost: because posting is atomic, `isPosting` is false between steps. The "in progress" case of the button state is stated only in `PostDisabledMeans`.
- EditProfileModal.EditForm.ReceiveProfile: the effect fires on a new prop object (reference identity). The model compares profiles by value, so a new object equal to the old one does not reset the form here.
- EditProfileModal.EditForm.HandleInputChange: only the text fields are modelled. Setting the numeric `followers` or `following` key to a string is a type confusion that the form never does.
- ProfileTabs.TabBar.HandleTabClick: requires an index below 3, because buttons exist only for the three tabs.
