# VibeMesh core, modelled in Dafny

VibeMesh is a campus social app: a React front end over a hosted document
store. It has four parts. The *vibe wall* shows short anonymous notes that
readers can heart. The *sections* are topic boards with tagged posts and
emoji reactions. The *collab board* lists calls for teammates, filtered by
type, branch and year of study. An *onboarding wizard* and a *profile page*
handle the student's year, branch, interests and skills.

This project models the logic in that front end:

- the display formatters: ordinal suffixes, "N mins ago" and truncation;
- the three data-access services for collabs, vibes and section posts;
- the four forms: onboarding, create collab, create post and create vibe;
- the vibe card's heart button;
- the section page, the collab board and the profile page.

The hosted store is a `Store.Collection` object holding a `map<string, Doc>`.
A failure of the store is a boolean parameter `fails`. Queries are
descriptors (`Store.Query`). The store's answer to a query is a parameter
`run`, and `Store.Answers` states what a correct answer is: exactly the
selected documents, ordered as asked, cut at the limit.

JavaScript values are the `Js.Value` datatype. A thrown exception is the
`Err` case of `Js.Result`. `Array.filter` with a callback that may throw is
`Js.TryFilter`. Pieces of UI state that the source updates in place are
classes, one per form or page:

- `Onboarding.Wizard`;
- `CreateCollabModal.Form`, `CreatePostModal.Form` and `CreateVibeModal.Form`;
- `VibeCard.Card`;
- `SectionDetail.Page` and `CollabBoard.Board`.

Their handlers are methods. Where a class has a `Valid()` predicate, it is
the invariant its handlers keep.

## Model

| member | source | states |
|---|---|---|
| Formatters.EnglishOrdinal | src/utils/formatters.js:1-5 | The English ordinal suffix, defined without the lookup table; it is always one of st, nd, rd, th |
| Formatters.GetYearSuffixIsOrdinal | src/utils/formatters.js:6-10 | For every integer year, the table lookup with JavaScript's truncating `%` yields the English ordinal suffix, so `getYearSuffix` is the numeral followed by that suffix |
| Formatters.NegativeYear | src/utils/formatters.js:8-9 | A negative year gives negative table indices, which read `undefined`, so the suffix is "th" |
| Formatters.SingleDigit | src/utils/formatters.js:8-9 | Last two digits 0-9: the first lookup misses, except for index -0, and the second one gives the English suffix |
| Formatters.Teens | src/utils/formatters.js:8-9 | Last two digits 10-19 give "th" |
| Formatters.TwentyAndUp | src/utils/formatters.js:8-9 | Last two digits 20-99 give the suffix of the last digit |
| Formatters.GetYearSuffixForYearsOfStudy | src/utils/formatters.js:2-3 | Years 1 to 4 read "1st", "2nd", "3rd", "4th" |
| Formatters.SuffixDependsOnLastTwoDigits | src/utils/formatters.js:8 | Two non-negative years equal modulo 100 get the same suffix |
| Formatters.RelativeTimeBuckets | src/utils/formatters.js:17-33 | Under a minute (future times included) gives "Just now". After that come whole minutes below an hour, whole hours below a day, whole days below a week, then the locale date. The figure shown is at least 1 and below the next unit |
| Formatters.AgoTextPlural | src/utils/formatters.js:28-30 | The unit takes an "s" exactly when the figure is above one |
| Formatters.TruncateTextBounds | src/utils/formatters.js:41-44 | Text within the limit is returned unchanged. Longer text ends in "..." and is at most limit + 3 long |
| Formatters.TruncatedBody | src/utils/formatters.js:43 | What precedes the ellipsis is the kept prefix trimmed: only characters of the prefix, no white space at either end, and the whole prefix when it has none there |
| Formatters.TruncateTextDefault | src/utils/formatters.js:41 | The default limit is 100 |
| Js.Includes | src/services/collabService.js:48 | `v?.includes(x)`: an absent or null value gives false, an array is searched for the element, and a string for the substring. Any other value throws a TypeError, exactly then |
| Js.WithId | src/services/collabService.js:24 | `{ id, ...data }` has the data's keys plus "id"; a stored "id" field wins over the document id |
| Js.Materialize | src/services/collabService.js:41 | Every entry of a snapshot becomes its data with its id, position by position |
| Js.TryFilter | src/services/collabService.js:45 | `filter` throws exactly when some callback throws, and the error is that of the first element whose callback throws. Otherwise it keeps exactly the elements whose test is true |
| Js.TryFilterKeepsPairs | src/services/collabService.js:44-53 | A relation between every earlier and later element still holds between every earlier and later kept element |
| Js.TryFilterThrice | src/services/collabService.js:44-53 | When no test throws, three successive filters keep what one filter by "all three tests are true" keeps |
| Js.TryFilterIsSublist | src/services/collabService.js:44-53 | A filter keeps elements in their original order |
| Js.TryFilterKeepAll | src/services/collabService.js:44-53 | A pass whose filter is off returns the list unchanged |
| Js.TryFilterTwice | src/services/collabService.js:44-53 | Two successive filters equal one filter by the short-circuit conjunction; one throws exactly when the other does |
| Js.TryFilterCommute | src/services/collabService.js:44-53 | When no test throws, the order of two filters does not matter |
| Js.TryFilterAgree | src/services/collabService.js:44-53 | Filters whose tests agree on the list give the same result |
| Lists.RemoveKeepsOthers | src/pages/Onboarding.jsx:35 | `filter(x => x !== v)` removes every `v` and keeps every other element with its multiplicity |
| Lists.ToggleFlipsOne | src/pages/Onboarding.jsx:31-38 | The toggle flips the membership of one value. Every other value keeps its multiplicity, and removing the value undoes the difference |
| Lists.ToggleTwice | src/pages/Onboarding.jsx:31-38 | Toggling an unselected value twice restores the list exactly |
| Lists.ToggleKeepsNoDuplicates | src/pages/Onboarding.jsx:31-38 | A selection list without repeats never gains one |
| Strings.TrimNonEmpty | src/components/collab/CreateCollabModal.jsx:221 | `s.trim()` is truthy exactly when `s` has a non-space character |
| Strings.TrimFacts | src/components/collab/CreateCollabModal.jsx:47 | `trim` gives a result no longer than its input, with no white space at either end and only characters of the input. It is empty exactly when the input is all white space |
| Strings.Split | src/components/collab/CreateCollabModal.jsx:46 | `split` always yields at least one piece |
| Strings.JoinSplit | src/components/collab/CreateCollabModal.jsx:46 | Joining the pieces of a split with the separator restores the text |
| Strings.SplitJoin | src/components/collab/CreateCollabModal.jsx:46 | Splitting separator-free pieces joined by the separator gives the pieces back |
| Strings.LocalPart | src/pages/Onboarding.jsx:46 | `email.split('@')[0]` is the prefix of the address before its first '@': a prefix with no '@' that is followed by '@' or is the whole address |
| Strings.LocalPartBeforeFirstAt | src/pages/Onboarding.jsx:46 | The local part of `a@b`, where `a` has no '@', is `a`, whatever `b` holds |
| Strings.ParseNatToString | src/pages/CollabBoard.jsx:86 | `parseInt` reads back the numeral of every natural number |
| Strings.ToUpper | src/pages/Profile.jsx:66 | `toUpperCase` maps each ASCII letter to its capital and keeps everything else, position by position |
| Store.MaterializeKeepsOrder | src/services/vibeService.js:62 | Adding ids to the documents keeps an answer's order on any other field |
| Store.AnswerSize | src/services/sectionService.js:77-82 | Without a limit, an answer has exactly one entry per selected document |
| Store.Incremented | src/services/vibeService.js:75-77 | `increment(1)` adds one to the numeric field, counting a missing or non-numeric one as 0 (so such a field becomes 1, as the store does), and leaves the other fields alone |
| Store.IncrementedNested | src/services/sectionService.js:64-66 | Incrementing `reactions.<emoji>` adds one to that counter only. The other counters and fields are kept, and an absent or non-object parent becomes an object |
| Store.NameOr | src/components/section/CreatePostModal.jsx:41 | The display name, else the e-mail's local part (before its first '@') when that is non-empty, else the fallback. The result is never empty with a non-empty fallback |
| Store.Collection.constructor | src/services/collabService.js:35 | A store collection over the given documents |
| Store.Collection.Add | src/services/collabService.js:23 | `addDoc` stores the document under the new id, or fails with nothing changed |
| Store.Collection.Put | src/pages/Onboarding.jsx:43-49 | `setDoc` replaces the document under the id, or fails with nothing changed |
| Store.Collection.SetField | src/services/collabService.js:79-80 | `updateDoc` sets one field of an existing document. A missing document is NotFound, and either failure changes nothing |
| Store.Collection.Increment | src/services/vibeService.js:75-77 | `updateDoc` with `increment(1)` bumps one counter of an existing document, or fails with nothing changed |
| Store.TimesInOrder | src/services/collabService.js:36 | Over timestamps, an order that holds between neighbours holds between any earlier and later document |
| Store.Collection.IncrementNested | src/services/sectionService.js:64-66 | `updateDoc` with a dotted path bumps one nested counter of an existing document, or fails with nothing changed |
| CollabService.StampCollab | src/services/collabService.js:19-22 | The caller's fields plus `createdAt`, where the stamp overrides any caller value |
| CollabService.CreateCollab | src/services/collabService.js:17-29 | On success the stamped collab is stored under the new id and returned with that id. A store failure is re-thrown and nothing is stored |
| CollabService.FetchCollabs | src/services/collabService.js:32-59 | The three successive passes give the single filter by `Matches` of the answer to the newest-50 query. A store failure is re-thrown, and a pass can only throw a TypeError |
| CollabService.PassesCompose | src/services/collabService.js:44-53 | The chain of type, branch and year passes equals one filter by their short-circuit conjunction |
| CollabService.PassErrors | src/services/collabService.js:47-52 | The branch and year passes can only throw TypeErrors |
| CollabService.MatchesKeeps | src/services/collabService.js:44-53 | The result is an ordered sublist. Each active filter holds of every kept collab, and collabs lacking `branches`/`targetYears` are dropped by those filters. With no active filter the page is returned whole |
| CollabService.MatchesComplete | src/services/collabService.js:44-53 | A collab of the page is kept exactly when it passes every active filter |
| CollabService.PassOrderIrrelevant | src/services/collabService.js:44-49 | When no test throws, branch-then-type keeps the same list as type-then-branch |
| CollabService.AnyPassOrder | src/services/collabService.js:44-53 | When no test throws, the type, branch and year passes run in any of the six orders keep the same list as the source's order |
| CollabService.FetchCollabsShows | src/services/collabService.js:34-53 | For a correct store answer with no pass throwing: at most 50 collabs, each a stored collab with its id; newest first whenever every stored `createdAt` is a timestamp; when fewer than 50 came back, every stored collab with a `createdAt` that passes the filters is shown |
| CollabService.CollabsNewestFirst | src/services/collabService.js:34-53 | The kept collabs are newest first when every stored `createdAt` is a timestamp |
| CollabService.CollabsComplete | src/services/collabService.js:34-53 | Below the limit, every stored collab with a `createdAt` that passes the filters is kept |
| CollabService.UpdateCollabStatus | src/services/collabService.js:77-86 | Only the `status` field of that collab changes. A missing collab or a store failure is re-thrown with nothing changed |
| CollabService.ShowInterest | src/services/collabService.js:62-74 | As written it always throws a ReferenceError (`increment` is not imported) and never touches the store |
| VibeService.StampVibe | src/services/vibeService.js:19-24 | Sets `heartsCount` 0, `heartedBy` [] and `createdAt`, overriding caller values; the other caller fields are kept |
| VibeService.CreateVibe | src/services/vibeService.js:17-31 | Stores the stamped vibe and returns it with its id, or re-throws a store failure with nothing stored |
| VibeService.FetchVibes | src/services/vibeService.js:34-67 | The result is the answer to the query the filter value selects, each vibe with its id, or the store's error |
| VibeService.FetchVibesStored | src/services/vibeService.js:45-62 | Every filter shows at most 100 vibes, each a stored vibe with its id |
| VibeService.FetchVibesToday | src/services/vibeService.js:38-46 | "today" shows only vibes created at or after local midnight |
| VibeService.FetchVibesOrdered | src/services/vibeService.js:47-59 | "loved" is in descending heart count; every other value, "all" and unknown ones included, is newest first |
| VibeService.FetchVibesComplete | src/services/vibeService.js:53-62 | Under any filter other than "today" and "loved", an answer below the limit shows every stored vibe that has a creation time |
| VibeService.ToggleHeart | src/services/vibeService.js:70-83 | Adds exactly one to `heartsCount` of that vibe, ignoring the user; all other fields are unchanged. A missing vibe or store failure is re-thrown with nothing changed |
| VibeService.HeartsAccumulate | src/services/vibeService.js:75-77 | After n successful heart calls the count has grown by n and every other field is unchanged |
| VibeService.NewVibeHearts | src/services/vibeService.js:19-24 | A new vibe hearted n times shows n hearts and still has nobody in `heartedBy` |
| SectionService.StampPost | src/services/sectionService.js:19-23 | Sets reactions to three zeroed emoji counters and stamps `createdAt`, overriding caller values; the other fields are kept |
| SectionService.CreateSectionPost | src/services/sectionService.js:17-30 | Stores the stamped post and returns it with its id, or re-throws a store failure with nothing stored |
| SectionService.FetchSectionPosts | src/services/sectionService.js:33-58 | The result is the answer to the section's query, each post with its id, or the store's error |
| SectionService.FetchSectionPostsShows | src/services/sectionService.js:35-50 | At most 50 posts are shown, all of that section and (with a tag other than "all") carrying the tag, newest first. Below the limit no such post is missing |
| SectionService.AddReaction | src/services/sectionService.js:61-72 | Adds exactly one to that emoji's counter of that post and nothing else. A missing post or store failure is re-thrown with nothing changed |
| SectionService.ReactOnNewPost | src/services/sectionService.js:21 | A reaction on a new post gives that emoji 1 and keeps the other two at 0 |
| SectionService.GetSectionPostCount | src/services/sectionService.js:75-86 | The size of the answer, or 0 instead of an error when the store fails |
| SectionService.PostCountIsExact | src/services/sectionService.js:77-82 | A correct answer's size is the number of stored posts of the section |
| Onboarding.YearButtonLabelsAgree | src/pages/Onboarding.jsx:107 | The wizard's hand-written year labels equal the shared ordinal formatter plus " Year" |
| Onboarding.ProfileName | src/pages/Onboarding.jsx:46 | The display name, else exactly the e-mail's local part (before its first '@'). With neither, reading `split` of null throws a TypeError, exactly then |
| Onboarding.Wizard.constructor | src/pages/Onboarding.jsx:20-26 | Step 1 with nothing chosen, satisfying the wizard's invariant |
| Onboarding.Wizard.FormDoc | src/pages/Onboarding.jsx:21-26 | The form object has the four keys year, branch, interests, skills, with the selections as string arrays |
| Onboarding.Wizard.SelectYear | src/pages/Onboarding.jsx:101 | A year button sets the year (on step 1) and nothing else; the invariant is kept |
| Onboarding.Wizard.SelectBranch | src/pages/Onboarding.jsx:121 | A branch button sets the branch (on step 1) and nothing else; the invariant is kept |
| Onboarding.Wizard.ToggleInterest | src/pages/Onboarding.jsx:146 | On step 2 toggles one interest, nothing else changes; no repeats and only offered interests |
| Onboarding.Wizard.ToggleSkill | src/pages/Onboarding.jsx:169 | On step 3 toggles one skill, nothing else changes; no repeats and only offered skills |
| Onboarding.Wizard.Next | src/pages/Onboarding.jsx:190-198 | Advances exactly when below step 3 and `canProceed()` holds, so step 2 needs year and branch and step 3 needs three interests |
| Onboarding.Wizard.Back | src/pages/Onboarding.jsx:184-188 | Goes back one step above step 1 and keeps every selection |
| Onboarding.Wizard.Complete | src/pages/Onboarding.jsx:40-56 | Writes only on step 3 with a skill. The write is the form plus e-mail, name, `onboardingComplete` and `createdAt`, under the user's id. A saved profile has a year, a branch, three interests and a skill. It saves exactly when there is a user with a name and the store does not fail; any failure writes nothing |
| CreateCollabModal.RolesOfMembers | src/components/collab/CreateCollabModal.jsx:45-48 | Every parsed role is the non-empty trim of some piece |
| CreateCollabModal.RolesOfKeeps | src/components/collab/CreateCollabModal.jsx:45-48 | Every piece whose trim is non-empty yields a role |
| CreateCollabModal.RolesOfAppend | src/components/collab/CreateCollabModal.jsx:46-48 | Trimming and dropping empties distributes over concatenation of the pieces, keeping input order |
| CreateCollabModal.ParsedRolesClean | src/components/collab/CreateCollabModal.jsx:45-48 | Every role is non-empty, has no comma and no surrounding white space, and every non-blank piece comes out trimmed |
| CreateCollabModal.ParseRolesAppend | src/components/collab/CreateCollabModal.jsx:45-48 | Roles of `a,b` are the roles of `a` followed by those of `b` (order kept) |
| CreateCollabModal.ParseRolesJoin | src/components/collab/CreateCollabModal.jsx:45-48 | Clean roles joined with commas parse back to the same list |
| CreateCollabModal.ParseSingleRole | src/components/collab/CreateCollabModal.jsx:45-48 | A clean role parses to itself alone |
| CreateCollabModal.CanSubmitIffText | src/components/collab/CreateCollabModal.jsx:221 | Submit is enabled exactly when not loading, the title and the description have text and a branch is chosen |
| CreateCollabModal.Form.constructor | src/components/collab/CreateCollabModal.jsx:9-16 | The blank form: type "project", everything else empty |
| CreateCollabModal.Form.SelectType | src/components/collab/CreateCollabModal.jsx:104 | Sets the type to an offered one and nothing else |
| CreateCollabModal.Form.EditTitle | src/components/collab/CreateCollabModal.jsx:129-133 | Sets the title when within 100 characters, nothing else |
| CreateCollabModal.Form.EditDescription | src/components/collab/CreateCollabModal.jsx:144-149 | Sets the description when within 500 characters, nothing else |
| CreateCollabModal.Form.EditRolesAndDeadline | src/components/collab/CreateCollabModal.jsx:182-200 | Sets the roles text and the deadline, nothing else |
| CreateCollabModal.Form.ToggleBranch | src/components/collab/CreateCollabModal.jsx:82-89 | Toggles one offered branch, nothing else; the branches stay offered and without repeats |
| CreateCollabModal.Form.Reset | src/components/collab/CreateCollabModal.jsx:64-71 | The form returns to its blank state |
| CreateCollabModal.Form.Send | src/components/collab/CreateCollabModal.jsx:50-61 | `createCollab` with the form's document stores the stamped collab, or fails with nothing stored |
| CreateCollabModal.Form.HandleSubmit | src/components/collab/CreateCollabModal.jsx:28-80 | No user: no write. No branch: no write. A store failure: no write and the form is kept. Success: the collab is stored and the form resets |
| CreateCollabModal.SubmittedCollabIsOpen | src/components/collab/CreateCollabModal.jsx:50-61 | A created collab is open, owned by the user, with no interested users, count 0, and stamped |
| CreateCollabModal.SubmittedCollabType | src/components/collab/CreateCollabModal.jsx:53 | A created collab carries the chosen type |
| CreateCollabModal.SubmittedCollabBranches | src/components/collab/CreateCollabModal.jsx:54 | A created collab carries exactly the chosen branches |
| CreateCollabModal.SubmittedCollabRoles | src/components/collab/CreateCollabModal.jsx:55 | A created collab carries the parsed roles |
| CreateCollabModal.SubmittedCollabHasNoYears | src/components/collab/CreateCollabModal.jsx:50-61 | A created collab has no `targetYears` field |
| CreatePostModal.StoredPostOwner | src/components/section/CreatePostModal.jsx:40-44 | A stored post belongs to the section and is created by the submitter. Its author is the submitter's uid and fallback name (`AuthorName`). Its reactions start at zero and it carries its creation time |
| CreatePostModal.StoredPostContent | src/components/section/CreatePostModal.jsx:35-39 | A stored post carries the form's title, body and tags |
| CreatePostModal.CanSubmitIffText | src/components/section/CreatePostModal.jsx:146 | Submit is enabled exactly when not loading and the title and the body have text |
| CreatePostModal.Form.constructor | src/components/section/CreatePostModal.jsx:9-13 | The blank form |
| CreatePostModal.Form.EditTitle | src/components/section/CreatePostModal.jsx:79-83 | Sets the title when within 100 characters, nothing else |
| CreatePostModal.Form.EditBody | src/components/section/CreatePostModal.jsx:97-102 | Sets the body when within 500 characters, nothing else |
| CreatePostModal.Form.ToggleTag | src/components/section/CreatePostModal.jsx:59-66 | Flips the membership of one offered tag; every other tag's membership is unchanged |
| CreatePostModal.Form.Reset | src/components/section/CreatePostModal.jsx:48 | The form returns to `{title:'', body:'', tags:[]}` |
| CreatePostModal.Form.Send | src/components/section/CreatePostModal.jsx:35-45 | `createSectionPost` with the form's post stores it stamped, or fails with nothing stored |
| CreatePostModal.Form.HandleSubmit | src/components/section/CreatePostModal.jsx:24-57 | No user: no write. A store failure: no write and the form is kept. Success: the post is stored and the form resets |
| CreateVibeModal.RandomColor | src/components/vibe/CreateVibeModal.jsx:22-30 | For every `Math.random()` value the colour is one of the seven palette entries |
| CreateVibeModal.RemainingBounds | src/components/vibe/CreateVibeModal.jsx:53-107 | Within the input limit the counter is between 0 and 300: 0 exactly when full, 300 exactly when empty |
| CreateVibeModal.CounterColorByLength | src/components/vibe/CreateVibeModal.jsx:116-121 | Grey up to 200 characters, yellow from 201 to 250, red above 250 |
| CreateVibeModal.CanSubmitIffText | src/components/vibe/CreateVibeModal.jsx:143 | Submit is enabled exactly when not loading and the text has a non-space character |
| CreateVibeModal.StoredVibeIsCreateVibe | src/components/vibe/CreateVibeModal.jsx:32-39 | The form's direct write is the document `createVibe` would store for the same text, type and colour |
| CreateVibeModal.StoredVibeFacts | src/components/vibe/CreateVibeModal.jsx:32-39 | The stored vibe has the form's text and type, a palette colour, 0 hearts and nobody in `heartedBy` |
| CreateVibeModal.Form.constructor | src/components/vibe/CreateVibeModal.jsx:10-13 | The blank form `{text:'', type:'compliment'}` |
| CreateVibeModal.Form.SelectType | src/components/vibe/CreateVibeModal.jsx:71 | Sets an offered type, nothing else |
| CreateVibeModal.Form.EditText | src/components/vibe/CreateVibeModal.jsx:104-107 | Sets the text when within 300 characters, so the counter stays in 0..300 |
| CreateVibeModal.Form.Reset | src/components/vibe/CreateVibeModal.jsx:42 | The form returns to `{text:'', type:'compliment'}` |
| CreateVibeModal.Form.HandleSubmit | src/components/vibe/CreateVibeModal.jsx:24-51 | Success stores the vibe with a palette colour and resets the form. A failure stores nothing and keeps the form |
| VibeCard.ColorClass | src/components/vibe/VibeCard.jsx:56 | The class is always one of the palette's classes; an unknown or missing colour gets the blue one |
| VibeCard.PaletteHasClasses | src/components/vibe/VibeCard.jsx:13-21 | Every colour the create form picks has its own class, named after it |
| VibeCard.InitialHearts | src/components/vibe/VibeCard.jsx:9 | The stored count, or 0 when absent |
| VibeCard.Card.constructor | src/components/vibe/VibeCard.jsx:9-11 | Starts with the stored count, not liked, not expanded |
| VibeCard.Card.ToggleExpanded | src/components/vibe/VibeCard.jsx:55-78 | Flips expansion: text over 120 characters switches between clamped and whole; shorter text is never clamped |
| VibeCard.Card.HandleHeart | src/components/vibe/VibeCard.jsx:29-48 | When already liked, nothing happens. Otherwise the count and the store both gain one, or on failure both are rolled back. The count is always the initial one or one more |
| SectionDetail.SectionOf | src/pages/SectionDetail.jsx:46-49 | A known section's metadata, otherwise "Unknown Section" |
| SectionDetail.BumpReaction | src/pages/SectionDetail.jsx:87-93 | The post with one more for that emoji (a missing count as 0), the other counters and fields kept. Missing or null reactions throw a TypeError |
| SectionDetail.BumpPostsEffect | src/pages/SectionDetail.jsx:85-96 | Only the posts with that id change, each by its bump; order and length are kept; the map throws exactly when some matching post's bump throws |
| SectionDetail.BumpMatchesStore | src/pages/SectionDetail.jsx:85-96 | The local bump of a fetched post equals the fetched form of the store's `addReaction` update |
| SectionDetail.FilteredPostsKeeps | src/pages/SectionDetail.jsx:119-121 | "all" shows every post; a tag shows exactly the posts carrying it, in order |
| SectionDetail.Page.constructor | src/pages/SectionDetail.jsx:40-43 | Tag "all", no posts, loading |
| SectionDetail.Page.SelectTag | src/pages/SectionDetail.jsx:152 | Sets the tag, nothing else |
| SectionDetail.Page.LoadPosts | src/pages/SectionDetail.jsx:63-74 | The fetched posts, or [] when the fetch fails; loading ends either way |
| SectionDetail.Page.HandleReaction | src/pages/SectionDetail.jsx:76-101 | No user: nothing happens. The store is bumped first, and the shown post only after that succeeds. A store failure leaves store and posts unchanged, and so does a local bump that throws after the store has counted |
| CollabBoard.YearOptionsParse | src/pages/CollabBoard.jsx:29 | Each year option other than "all" is a numeral that `parseInt` reads as 1 to 4 and prints back |
| CollabBoard.FilteredCollabsKeeps | src/pages/CollabBoard.jsx:85-90 | "all" keeps everything. Otherwise a collab is dropped exactly when it has truthy `targetYears` not containing the parsed year; order is kept |
| CollabBoard.CountNoun | src/pages/CollabBoard.jsx:174 | "opportunity" exactly for one collab, "opportunities" otherwise |
| CollabBoard.YearOptionLabelsAgree | src/pages/CollabBoard.jsx:164 | The hand-written option labels equal the shared ordinal formatter plus " Year" |
| CollabBoard.YearFilterHidesTargetedCollabs | src/services/collabService.js:50-52 | As written: a collab targeting year 2 as the number 2, and one without target years, both pass the board's test, yet the board shows neither |
| CollabBoard.YearFilterNeedsBothForms | src/pages/CollabBoard.jsx:85-90 | As written: every collab shown under a year has target years, containing the year as a string and, for an array, also as a number |
| CollabBoard.FixedYearFilterShows | src/services/collabService.js:44-53 | Corrected: a collab is fetched exactly when its type and branch match and the board's year test keeps it, and the board's own filter then removes nothing |
| CollabBoard.FixedYearPassKeepsUntargeted | src/services/collabService.js:50-52 | Corrected: a collab without target years passes the year pass for every year |
| CollabBoard.Board.constructor | src/pages/CollabBoard.jsx:11-17 | All three filters "all", no collabs, loading |
| CollabBoard.Board.SelectYear | src/pages/CollabBoard.jsx:159 | Sets the year to an offered option, nothing else |
| CollabBoard.Board.SelectTypeAndBranch | src/pages/CollabBoard.jsx:125-141 | Sets the type and the branch to offered options, nothing else |
| CollabBoard.Board.LoadCollabs | src/pages/CollabBoard.jsx:35-46 | `fetchCollabs` of the current filters, or [] when it throws; loading ends either way |
| CollabBoard.Board.HandleShowInterest | src/pages/CollabBoard.jsx:48-63 | No user gives the login message and no call; otherwise the call always fails with a ReferenceError |
| Profile.InitialsAppend | src/pages/Profile.jsx:66 | The initials of two space-joined names are the first's followed by the second's |
| Profile.InitialsOfWord | src/pages/Profile.jsx:66 | A word gives its upper-cased first letter; an empty name gives nothing |
| Profile.InitialsIgnoreOuterSpace | src/pages/Profile.jsx:66 | A leading or trailing space adds no initial |
| Profile.InitialsIgnoreRepeatedSpace | src/pages/Profile.jsx:66 | A repeated space adds no initial |
| Profile.YearLabelIsOrdinal | src/pages/Profile.jsx:71 | Years 1-4 match the shared ordinal formatter; anything else, strings included, reads "4th" |
| Profile.PhoneLabel | src/pages/Profile.jsx:91 | A truthy phone is shown as it is, otherwise "Not provided" |
| Profile.ShownProfile | src/pages/Profile.jsx:50 | A stored profile is shown as it is |
| Profile.FallbackProfileFacts | src/pages/Profile.jsx:50-57 | Without a stored profile: a non-empty name (the display name, else the e-mail's non-empty local part, else "User"), year 1 shown as "1st", branch "N/A", no interests or skills |

## Left out

- The hosted store and auth provider are not modelled. A store call succeeds or fails by the `fails` parameter, and the signed-in user is an `Option<User>` parameter.
- Query execution is not modelled: the answer is the parameter `run`. `Store.Answers` states what a correct answer is, and the lemmas about fetched pages assume it. Ties in ordering and indexing are not modelled.
- Clock, randomness and locale are parameters: `now`, local `midnight`, `random` (the value of `Math.random()`) and `localeDate`. `formatDate` (src/utils/formatters.js:51-58) is left out because it is only a locale rendering.
- Asynchronous interleaving is not modelled. Each handler runs to completion, so out-of-order responses and repeated clicks are not captured. The `loading` flag is modelled as an input of the `CanSubmit` predicates.
- Strings are ASCII. `trim` treats space, tab, newline, carriage return, vertical tab and form feed as white space. `toUpperCase` maps only a-z. Emoji are opaque keys.
- Input `maxLength` limits are modelled by refusing an edit that is too long. The browser's check of the deadline's `min` date is not modelled.
- Logging is not modelled: the `console.error` call in every service's `catch` before the re-throw, and in the page and modal handlers. Errors are modelled only as re-thrown or returned.
- The modals' `onClose()` and `onSuccess()` callbacks to their parent page are not modelled. A submit ends with the form's own reset.
- Rendering is not modelled: type labels, tag badge colours, markup and toasts.
- Routing, the login page, `userService.js` and the seed script are not modelled.
- `showInterest` is modelled as written: it always fails. The intended union-plus-increment is not modelled.
- Counts are not asserted to equal set sizes (`interestedCount` against `interestedUsers`, `heartsCount` against `heartedBy`), because the code does not keep them equal.
- SectionDetail.BumpReaction: a non-numeric truthy count `c` gives `c + 1` in JavaScript: 2 for `true`, and a concatenated string for strings, arrays and objects. The model gives 1. Reactions that are a string or an array spread into index keys, and reactions that are a timestamp spread into the timestamp's own fields. In both cases JavaScript keeps those keys beside the emoji, while the model gives `{emoji: 1}`.
- SectionDetail.BumpMatchesStore: stated only for object reactions and a document without its own "id" field. An emoji containing '.' is not modelled, although it would address a deeper path in the store.
- Js.Value: numbers are integers. Fractions, NaN, the infinities and -0 are not modelled.
- Formatters.TruncateText: the text is a string and the limit a natural number. A null or undefined text, which JavaScript returns as it is, is not modelled. Neither is a negative limit, for which `substring` cuts to nothing and non-empty text becomes "...".
- Formatters.GetRelativeTime: the timestamp is its millisecond value, and an absent one is `None`. A timestamp given as the number 0 is falsy in JavaScript and reads "Recently", while the model computes the elapsed time from it. Stored timestamps are objects, which are always truthy.
- VibeCard.InitialHearts: a non-numeric `heartsCount` is read as 0.
- CollabBoard.FilteredCollabs: `parseInt` is modelled only on the offered year options, which are the only values the select produces.
- SectionDetail.SectionOf and VibeCard.ColorClass: keys inherited from `Object.prototype`, such as "constructor", are not modelled.
- CreateVibeModal.Form.HandleSubmit: models the form's own `addDoc` write. It does not go through `createVibe`; `StoredVibeIsCreateVibe` proves the two documents equal.
- Profile: the fetch of the stored profile and the logout are not modelled. The page is modelled from the stored profile as an `Option<Doc>`.
- Profile.YearLabelIsOrdinal: the label for a stored year that is not 1 to 4 is the fixed "4th", as written.

## Findings

| source | as written | input that shows it | evidently intended | confidence | as-written member | corrected member |
|---|---|---|---|---|---|---|
| src/services/collabService.js:50-52 | The service's year pass keeps a collab only when `targetYears` includes the year string from the select ("2"). The board then keeps collabs whose `targetYears` include the parsed number 2, or that have no `targetYears` (src/pages/CollabBoard.jsx:85-90). The create form never writes `targetYears`, so under any year other than "all" no collab it created is shown. A collab targeting year 2 as a number is hidden too | `fetchCollabs({type:'all', branch:'all', year:'2'})` over `[{type:'project', targetYears:[2]}, {type:'project'}]` returns `[]`, although the board's year test keeps both | One year test for both layers: a collab without target years, or one whose target years include the parsed year, is shown | high, not executed | CollabBoard.YearFilterHidesTargetedCollabs | CollabBoard.FixedYearFilterShows |
