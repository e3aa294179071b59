# Hikari: a verified model of the app's financial and social logic

Hikari is a React Native app with two halves. One is a personal-finance
manager: accounts, transactions, categories, budgets and targets, stored in
a Supabase backend. The other is a social feed of posts and comments. This
project models, in Dafny, the logic behind the screens and contexts of both
halves:

- the financial cache (`FinancialContext`): fetching the five lists,
  reacting to a profile change, and the add/update/delete operations;
- the editors: the transaction form, the account manager and the category
  manager, with their guards, alerts and backend calls;
- the account tile and the transaction list: labels, icons, signs and
  lookups by id;
- the feed: the feed query, its normalisation and post creation; the social
  context; the post card's layout; the comment box;
- the header's navigation state and avatar, and the searchable picker;
- the image upload hook: object names, URLs and the `loading` flag.

Each source file is one module. Code that computes a value is a function.
A React component or context whose state hooks change over time is a class:
its fields are the state, and its handlers are methods with `modifies`
clauses. Each handler's decision logic is a function, which the method's
postcondition names.

Everything outside the code is an input:
- each backend answer is a `Result` parameter of the operation that awaits
  it;
- `parseFloat` and `String(number)` are the parameters `parse` and `render`;
- the clock is a parameter (`now`, `stamp`);
- a nullable column is an `Option`.

JavaScript semantics are written out wherever they matter:
- `a || b` on strings is `Text.Or`, and the number 0 is falsy
  (`!accountId`, `!profile?.id`, `category_id || null`);
- `replace` with a string pattern replaces only the first occurrence
  (`Text.ReplaceFirst`);
- `find` returns the first match, and `filter` keeps order;
- `split('.').pop()` is the last piece (`Storage.Extension`).

Support modules:
- `Wrappers`: `Option`, `Result` and `Error`.
- `Text`: ASCII `trim`, case maps, `indexOf`/`lastIndexOf`, `includes`,
  `split`/`join` with their round trips.
- `Lists`: `filter` and `find` with exact characterisations.
- `Schema`: rows and enumerations of `lib/database.types.ts`.
- `Initials`: the `getInitials` function that three components repeat,
  held once.

## Model

| member | source | states |
|---|---|---|
| FinancialContext.OrEmpty | context/FinancialContext.tsx:130 | `data \|\| []`: the data when present, the empty list when null |
| FinancialContext.FirstError | context/FinancialContext.tsx:124-128 | the recorded error is that of the first failing answer in the order accounts, transactions, categories, budgets, targets; none exactly when all five succeed |
| FinancialContext.Fetched | context/FinancialContext.tsx:124-134 | any error keeps all five lists; otherwise each list is its answer's data or empty |
| FinancialContext.FetchIsAllOrNothing | context/FinancialContext.tsx:124-137 | a fetch never mixes old and new lists; a successful one does not depend on the lists before it |
| FinancialContext.FetchIdempotent | context/FinancialContext.tsx:130-134 | applying the same answers twice gives what applying them once gives |
| FinancialContext.Stamp | context/FinancialContext.tsx:163 | an insert carries the viewer's id as owner and the draft's columns |
| FinancialContext.StampIgnoresClaimedOwner | context/FinancialContext.tsx:163 | whatever owner a draft claims, the spread overwrites it with the viewer's id |
| FinancialContext.FinancialStore.constructor | context/FinancialContext.tsx:92-98 | empty lists, `loading` set, no error |
| FinancialContext.FinancialStore.BeginFetch | context/FinancialContext.tsx:101-107 | signed out (no id, or id 0), only `loading` is cleared; otherwise `loading` is set and the error cleared; the lists stay |
| FinancialContext.FinancialStore.FinishFetch | context/FinancialContext.tsx:124-141 | the lists become `Fetched(old lists, answers)`, the first error is recorded, and `loading` is cleared |
| FinancialContext.FinancialStore.FetchData | context/FinancialContext.tsx:100-142 | a fetch happens exactly when signed in; it leaves the fetched lists and the first error; `loading` ends cleared either way |
| FinancialContext.FinancialStore.ProfileChanged | context/FinancialContext.tsx:144-154 | signed in, the data is fetched; signed out, the five lists are emptied, and `loading` and the error stay as they were |
| FinancialContext.FinancialStore.Add | context/FinancialContext.tsx:161-167 | signed out, nothing is sent and "User not authenticated" is thrown; otherwise the stamped insert is sent; a failed insert changes nothing; a successful one refetches and returns the rows (also lines 184-190, 207-213, 230-236) |
| FinancialContext.FinancialStore.Change | context/FinancialContext.tsx:169-174 | an update or delete returns its answer; an error changes nothing; success refetches (also lines 176-181 and their account, category and target twins) |
| TransactionForm.SignedAmount | components/financials/TransactionForm.tsx:80 | an expense is stored non-positive and an income non-negative, both with the magnitude typed |
| TransactionForm.KindOf | components/financials/TransactionForm.tsx:51 | a loaded transaction is an income exactly when its amount is at least zero |
| TransactionForm.SignRoundTrip | components/financials/TransactionForm.tsx:47-51 | reading the type off the sign and storing the magnitude with that type's sign gives the amount back |
| TransactionForm.ZeroDiscrepancy | components/financials/TransactionForm.tsx:51 | the form loads the amount 0 as an income, while the list shows it as an expense; every other amount is classified alike |
| TransactionForm.KeptCategory | components/financials/TransactionForm.tsx:49 | `category_id \|\| null` drops both a missing id and the id 0 and keeps any other |
| TransactionForm.DefaultAccount | components/financials/TransactionForm.tsx:59 | the first account's id; none exactly when there are no accounts |
| TransactionForm.DefaultCategory | components/financials/TransactionForm.tsx:60-61 | the id of the first expense category; none exactly when there is no expense category |
| TransactionForm.Opened | components/financials/TransactionForm.tsx:42-52 | the loaded form: the transaction's fields, its magnitude printed, its type from its sign, missing texts as empty, a missing switch as off |
| TransactionForm.Cleared | components/financials/TransactionForm.tsx:53-64 | the new form: empty texts, an expense, the default account and category, dated now |
| TransactionForm.ClearedIsIncomplete | components/financials/TransactionForm.tsx:69-72 | a freshly cleared form never passes the first save check |
| TransactionForm.Decimal | components/financials/TransactionForm.tsx:74 | only the first comma of the amount becomes a point; everything else is unchanged |
| TransactionForm.SaveRequest | components/financials/TransactionForm.tsx:68-98 | a missing title, amount or account (id 0 included) is refused first; then an amount that does not parse; otherwise the fields are sent with the signed amount, as an update in edit mode and an insert otherwise |
| TransactionForm.LoadSaveRoundTrip | components/financials/TransactionForm.tsx:41-98 | opening a transaction and saving it untouched updates it with its own amount, account, date and texts, when `parse` reads back what `render` printed |
| TransactionForm.CategoryChoices | components/financials/TransactionForm.tsx:105 | exactly the categories of the current type, in their order, one entry per matching category |
| TransactionForm.Form.constructor | components/financials/TransactionForm.tsx:28-39 | the initial state of the hooks |
| TransactionForm.Form.Load | components/financials/TransactionForm.tsx:41-66 | every field is set, from the transaction (`Opened`) or to the new-form defaults (`Cleared`) |
| TransactionForm.Form.ChooseKind | components/financials/TransactionForm.tsx:118-128 | the toggle changes the type and nothing else |
| TransactionForm.Form.Edit | components/financials/TransactionForm.tsx:147-229 | the title, account, category, notes and corporate inputs change those fields; the description, date, type, amount and edit mode stay |
| TransactionForm.Form.TypeAmount | components/financials/TransactionForm.tsx:161 | typing changes the amount text and nothing else |
| TransactionForm.Form.HandleSave | components/financials/TransactionForm.tsx:68-103 | at most one call, exactly the one `SaveRequest` allows; the refusal's alert or the thrown message; `onSave` only after a successful call |
| TransactionList.SignOf | components/financials/TransactionList.tsx:92 | '+' exactly when the amount is positive, '-' otherwise |
| TransactionList.DisplayGivesAmountBack | components/financials/TransactionList.tsx:41-55 | the sign and the magnitude shown give the amount back; zero shows as '-' |
| TransactionList.RowTitle | components/financials/TransactionList.tsx:76 | the title when it is a non-empty string, the description otherwise |
| TransactionList.AccountName | components/financials/TransactionList.tsx:118 | the name of the first account with the transaction's account id; none exactly when no account has it |
| TransactionList.CategoryName | components/financials/TransactionList.tsx:119 | the name of the first category with the transaction's category id; none without a category id or a match |
| TransactionList.RenderRow | components/financials/TransactionList.tsx:66-99 | a row shows income exactly for positive amounts, the magnitude and the title; the notes and each looked-up name appear exactly when they are non-empty strings |
| TransactionList.Render | components/financials/TransactionList.tsx:103-132 | the empty state exactly for no transactions, otherwise one row per transaction in order |
| TransactionList.SharePayload | components/financials/TransactionList.tsx:57-64 | the share opens the post editor with "Shared a transaction: " and the row title, the formatted magnitude, and the `transaction_share` type |
| TransactionList.ShareIgnoresSign | components/financials/TransactionList.tsx:55-59 | an amount and its negation are shared with the same amount text |
| AccountCard.AccountIcon | components/financials/AccountCard.tsx:46-62 | the icon of the lower-cased type; both spellings of checking and savings share an icon; cash and every unknown type get the wallet |
| AccountCard.TypeLabel | components/financials/AccountCard.tsx:65-73 | every label in the map is non-empty |
| AccountCard.AccountTypeName | components/financials/AccountCard.tsx:64-75 | the map's label of the lower-cased type, or the type with its first underscore turned into a space |
| AccountCard.IconIgnoresCase | components/financials/AccountCard.tsx:47 | types that lower-case alike get the same icon |
| AccountCard.KnownNameIgnoresCase | components/financials/AccountCard.tsx:74 | a known type gets the same label whatever its case |
| AccountCard.UpperCaseTypeKnown | components/financials/AccountCard.tsx:47 | upper-casing a type never changes its icon |
| AccountCard.IconsAndLabelsAgree | components/financials/AccountCard.tsx:46-75 | each icon goes with exactly one label; the wallet goes with "Dinheiro" or with no label |
| AccountCard.AccountTile | components/financials/AccountCard.tsx:77-123 | the tile's icon and label; "Disponível" exactly for credit cards; dimmed exactly when the balance is negative; the currency tagged exactly when set and not BRL |
| AccountCard.AvailableCaptionIsCreditCard | components/financials/AccountCard.tsx:107 | the "Disponível" caption appears exactly with the credit-card icon |
| AccountManager.OwnedAccounts | components/financials/AccountManager.tsx:66-68 | exactly the viewer's accounts, in order, one entry per owned row; none without a viewer |
| AccountManager.EditFields | components/financials/AccountManager.tsx:71-77 | the loaded form: the account's values, an empty currency as BRL, missing switches as off |
| AccountManager.FormFor | components/financials/AccountManager.tsx:70-86 | the form after the effect: the loaded fields, or the blank form |
| AccountManager.FormHasCurrency | components/financials/AccountManager.tsx:75 | the form's currency is never empty |
| AccountManager.SaveRequest | components/financials/AccountManager.tsx:96-135 | empty name or balance refused first, then a balance that does not parse; an edit is always sent as an update; a create needs a truthy viewer id |
| AccountManager.UpdateIgnoresViewer | components/financials/AccountManager.tsx:108-122 | the viewer check applies only to creation |
| AccountManager.LoadSaveRoundTrip | components/financials/AccountManager.tsx:70-117 | saving a freshly loaded account sends its own columns back as an update |
| AccountManager.TypeName | components/financials/AccountManager.tsx:168-177 | the five enumeration values get their labels, matched with their case; anything else is shown unchanged |
| AccountManager.PickerLabelsAgree | components/financials/AccountManager.tsx:46-52 | each picker choice's label is the name the list gives its value |
| AccountManager.LabelMapsAgree | components/financials/AccountManager.tsx:168-177 | on the picker's five values, this screen and the account tile give the same label |
| AccountManager.LabelAgrees | components/financials/AccountManager.tsx:168-177 | on one of the five lower-case values, both label maps agree |
| AccountManager.LabelMapsDiffer | components/financials/AccountManager.tsx:176 | "CHECKING" and "checking_account" are labelled by the tile but shown raw here |
| AccountManager.Editor.constructor | components/financials/AccountManager.tsx:58-64 | nothing being edited, the blank form |
| AccountManager.Editor.SelectAccount | components/financials/AccountManager.tsx:70-90 | the account is being edited; its values fill the form unless it was already the one being edited, when what was typed stays |
| AccountManager.Editor.ClearForm | components/financials/AccountManager.tsx:92-94 | nothing being edited, the blank form |
| AccountManager.Editor.Edit | components/financials/AccountManager.tsx:224-298 | typing or switching changes the form and nothing else |
| AccountManager.Editor.HandleSave | components/financials/AccountManager.tsx:96-142 | the call `SaveRequest` allows, or its alert; a failure changes nothing; a successful update clears the form; a successful insert edits its first returned row |
| AccountManager.Editor.HandleDelete | components/financials/AccountManager.tsx:144-166 | the edited account's id is deleted only after confirmation; success clears the form, failure alerts and changes nothing |
| CategoryManager.OwnedCategories | components/financials/CategoryManager.tsx:65-67 | exactly the viewer's categories, in order, one entry per owned row; none without a viewer |
| CategoryManager.FormFor | components/financials/CategoryManager.tsx:69-79 | the category's name and type, a missing switch as off; or the blank form |
| CategoryManager.SaveRequest | components/financials/CategoryManager.tsx:89-111 | an empty name is refused first; an edit is sent as an update; a create needs a truthy viewer id |
| CategoryManager.LoadSaveRoundTrip | components/financials/CategoryManager.tsx:69-98 | saving a freshly loaded category with a name sends its own name and type back |
| CategoryManager.BlankIsRefused | components/financials/CategoryManager.tsx:89-93 | the blank form is always refused |
| CategoryManager.Editor.constructor | components/financials/CategoryManager.tsx:59-62 | nothing being edited, the blank form |
| CategoryManager.Editor.SelectCategory | components/financials/CategoryManager.tsx:69-83 | the category is being edited; its values fill the form unless it was already the one being edited, when what was typed stays |
| CategoryManager.Editor.ClearForm | components/financials/CategoryManager.tsx:85-87 | nothing being edited, the blank form |
| CategoryManager.Editor.Edit | components/financials/CategoryManager.tsx:189-216 | typing or switching changes the form and nothing else |
| CategoryManager.Editor.HandleSave | components/financials/CategoryManager.tsx:89-118 | the call `SaveRequest` allows, or its error toast; a failure toasts and changes nothing; an update clears the form; an insert edits its first returned row; both toast success |
| CategoryManager.Editor.HandleDelete | components/financials/CategoryManager.tsx:120-143 | the edited category's id is deleted only after confirmation; success toasts and clears, failure toasts and changes nothing |
| Storage.BucketName | hooks/useStorage.ts:7 | the two bucket names |
| Storage.Extension | hooks/useStorage.ts:23 | what follows the last point, or the whole uri without one; never holds a point |
| Storage.FileName | hooks/useStorage.ts:23 | the object name lies in the user's folder and has the stated length |
| Storage.FileNameKeepsExtension | hooks/useStorage.ts:23 | the extension read back from the object name is the picked file's |
| Storage.UrlsNameSameObject | hooks/useStorage.ts:34-49 | the upload and public addresses end with the same object path; the public one is 7 characters longer |
| Storage.PublicUrlInjective | hooks/useStorage.ts:49 | in one bucket, two uploads share a public address exactly when they share an object name |
| Storage.MimeType | hooks/useStorage.ts:29 | only a missing type becomes image/jpeg |
| Storage.Uploader.constructor | hooks/useStorage.ts:12 | `loading` starts clear |
| Storage.Uploader.Upload | hooks/useStorage.ts:14-57 | without a user or session, nothing is sent and `loading` is untouched; otherwise one request to the upload address, `loading` cleared afterwards, and exactly one of a public address or an error |
| SocialApi.FirstCount | lib/social.ts:29 | `entries[0]?.count ?? 0` |
| SocialApi.FirstAuthor | lib/social.ts:31 | an array's first author (none when empty); otherwise the author as given |
| SocialApi.Normalize | lib/social.ts:27-32 | every `feed_posts` column (`shared_data` and the source ids included) and both aggregates kept; the two counts and the single author added |
| SocialApi.NormalizeIsProjection | lib/social.ts:27-32 | normalising a normalised post again changes nothing |
| SocialApi.NormalizeConsistent | lib/social.ts:27-32 | every normalised post's counts agree with its aggregates |
| SocialApi.GetFeedPosts | lib/social.ts:11-36 | on error, no data and the error's message; otherwise every row normalised, in the query's order |
| SocialApi.CreatePost | lib/social.ts:38-56 | a failed insert returns its error; a successful one returns the feed read that follows |
| SocialApi.CreatePostFailureIgnoresFeed | lib/social.ts:50-53 | a failed insert never depends on the feed |
| SocialApi.CreatePostSuccessIsFeedRead | lib/social.ts:55 | after a successful insert the answer is a fresh feed read |
| SocialContext.Stamped | context/SocialContext.tsx:41 | the post is sent with the viewer's id and the draft's fields, `shared_data` included |
| SocialContext.SocialStore.constructor | context/SocialContext.tsx:18-19 | no posts, `loading` set |
| SocialContext.SocialStore.StartRefresh | context/SocialContext.tsx:23 | `loading` set; posts unchanged |
| SocialContext.SocialStore.FinishRefresh | context/SocialContext.tsx:24-31 | posts replaced only when data came back; `loading` cleared |
| SocialContext.SocialStore.RefreshFeed | context/SocialContext.tsx:22-32 | posts become the normalised feed on success and stay on error; `loading` ends cleared |
| SocialContext.SocialStore.CreatePost | context/SocialContext.tsx:34-47 | without a profile, nothing is sent and an error is returned; otherwise the stamped post is sent; posts follow the feed on success; `loading` untouched |
| SocialContext.SocialStore.ProfileChanged | context/SocialContext.tsx:49-53 | a non-null profile triggers a refresh; a null one changes nothing else |
| Initials.GetInitials | components/social/CommentSection.tsx:8-13 | "?" for the empty name; otherwise one upper-case letter for a one-word name and two when it holds a space |
| Initials.InitialsOfTrimmed | components/social/CommentSection.tsx:10-12 | one letter without a space, two with one, none lower-case |
| Initials.InitialsOfTrimmedPieces | components/social/CommentSection.tsx:10-12 | the letters are the upper-cased first characters of the first piece and, with several pieces, the last |
| Initials.InitialsOfName | components/social/CommentSection.tsx:10 | the initials of a name are those of its trimmed form |
| Initials.InitialsOfOneWord | components/social/CommentSection.tsx:11 | a one-word name gives its upper-cased first character |
| Initials.InitialsOfSeveralWords | components/social/CommentSection.tsx:12 | a trimmed name holding a space gives the upper-cased first character and the one after the last space (padding is covered by `InitialsIgnorePadding`) |
| Initials.InitialsIgnorePadding | components/social/CommentSection.tsx:10 | white space around a name never changes its initials |
| Initials.InitialsOfWords | components/social/CommentSection.tsx:10-12 | the words of a single-spaced name give the first letters of the first and last word |
| Initials.AuthorName | components/social/CommentSection.tsx:62 | `profiles?.name \|\| ''` |
| Initials.AuthorAvatar | components/social/CommentSection.tsx:54-64 | the author's picture address exactly when the author has one; otherwise the `GetInitials` of the author's name: "?" without a name, one or two letters with one |
| Text.Shown | components/social/PostCard.tsx:40-41 | a field is shown exactly when it is a non-empty string, and then as it is (also components/financials/TransactionList.tsx:78,84) |
| PostCard.RenderContent | components/social/PostCard.tsx:28-44 | boxed exactly for shared transactions and achievements, showing both fields as they are; otherwise only truthy fields |
| PostCard.PlainPostWithoutText | components/social/PostCard.tsx:38-43 | a plain post without text shows nothing |
| CustomHeader.NavHrefsDistinct | components/ui/CustomHeader.tsx:44-48 | the three routes differ |
| CustomHeader.ActiveItem | components/ui/CustomHeader.tsx:79-80 | the item whose route is the path, or none when no item's is |
| CustomHeader.AtMostOneActive | components/ui/CustomHeader.tsx:80 | any active item is the one `ActiveItem` names |
| CustomHeader.HighlightFollowsProfileItem | components/ui/CustomHeader.tsx:131-140 | the avatar is highlighted exactly when the profile item is active |
| CustomHeader.HeaderInitials | components/ui/CustomHeader.tsx:55-60 | "?" without a profile or name; otherwise one or two letters |
| CustomHeader.HeaderInitialsAgree | components/ui/CustomHeader.tsx:55-60 | the header's initials equal those the comment list and post card compute |
| CustomHeader.HeaderAvatar | components/ui/CustomHeader.tsx:113-144 | the profile's `avatar_url` exactly when the profile has one; otherwise the header's initials |
| CustomPicker.SelectedLabel | components/ui/CustomPicker.tsx:61-64 | the label of the first item holding the value, or the placeholder when none does |
| CustomPicker.FilteredItems | components/ui/CustomPicker.tsx:66-73 | all items for an empty query; otherwise exactly the matching items, in order, one entry per matching item |
| CustomPicker.EmptyQueryKeepsAll | components/ui/CustomPicker.tsx:67-69 | filtering by the empty query would also keep every item |
| CustomPicker.FilterIgnoresQueryCase | components/ui/CustomPicker.tsx:71 | queries that lower-case alike select the same items |
| CustomPicker.FilterIgnoresUpperCase | components/ui/CustomPicker.tsx:71 | upper-casing the query changes nothing |
| CustomPicker.Picker.constructor | components/ui/CustomPicker.tsx:58-59 | modal hidden, empty search |
| CustomPicker.Picker.PressTrigger | components/ui/CustomPicker.tsx:85 | the modal opens only when the picker is enabled |
| CustomPicker.Picker.Search | components/ui/CustomPicker.tsx:131 | typing sets the search and nothing else |
| CustomPicker.Picker.Select | components/ui/CustomPicker.tsx:75-79 | reports the item's value, hides the modal, clears the search |
| CustomPicker.Picker.Close | components/ui/CustomPicker.tsx:101-104 | hides the modal and clears the search (also lines 112-115) |
| CommentSection.AddRequest | components/social/CommentSection.tsx:22 | a draft is sent exactly when it is not all white space, and sent untrimmed |
| CommentSection.UpdateRequest | components/social/CommentSection.tsx:39 | an edit is sent exactly when one is open and its text is not all white space |
| CommentSection.OwnerActions | components/social/CommentSection.tsx:92-135 | only the owner gets actions: save and cancel while editing, edit and delete otherwise |
| CommentSection.CommentBox.constructor | components/social/CommentSection.tsx:18-19 | empty draft, nothing being edited |
| CommentSection.CommentBox.TypeComment | components/social/CommentSection.tsx:174 | typing sets the draft and nothing else |
| CommentSection.CommentBox.HandleAddComment | components/social/CommentSection.tsx:21-25 | a non-blank draft is sent for this post; the draft clears only after delivery |
| CommentSection.CommentBox.StartEditing | components/social/CommentSection.tsx:116 | editing opens with the comment's id and text |
| CommentSection.CommentBox.EditText | components/social/CommentSection.tsx:78 | typing changes the edit's text, keeping its id |
| CommentSection.CommentBox.CancelEditing | components/social/CommentSection.tsx:105 | editing ends; the draft stays |
| CommentSection.CommentBox.HandleUpdateComment | components/social/CommentSection.tsx:38-42 | a valid edit is sent and edit mode ends at once; otherwise nothing changes |

## Left out

- Rendering: JSX layout, styles, SVG icons, and the `Alert`, toast and
  navigation side effects. They become returned values: the alert text, the
  toast, the share payload, the active item.
- Money and date formatting (`Intl.NumberFormat`, `toLocaleDateString`,
  `toISOString`, `new Date`). Formatting is a parameter where its output
  matters, and a date is the text it is stored as.
- `parseFloat` and `String(number)` are the parameters `parse` and `render`.
  The model does not distinguish `Infinity` or partial parses such as
  "12abc".
- Asynchrony. Each awaited call happens inside one method, with its answer
  as an input. This covers `Promise.all`, interleaving with other events,
  and the un-awaited `refetch()` that follows a write (applied at once
  here). `StartRefresh`/`BeginFetch` make the transient `loading` state
  visible as separate steps.
- The backend queries' filters and ordering (`or`, `eq`, `order`): they are
  the backend's behaviour, and their results are inputs.
- `console.error` logging.
- JavaScript strings are ASCII here: `trim`, `toUpperCase` and
  `toLowerCase` follow their ASCII behaviour only.
- A `typeMap` lookup on a key such as `constructor` reads an inherited
  property in JavaScript. The model treats every key outside the map as
  absent.
- `getInitials` on a name that is not empty but trims to nothing indexes an
  empty string and throws. `Initials.GetInitials` requires such names away
  (`Drawable`) instead of modelling the throw.
- The comment context's operations (`comments`, `addComment`,
  `updateComment`, `deleteComment`, `loadingComments`). `CommentSection`
  calls them, but SocialContext does not define them, and the `Comment`
  type it imports is not in `lib/social.ts`. Their outcomes are inputs of
  `CommentBox`.
- An author array that is empty reads `undefined` in JavaScript; it is
  `None` here.
- Each editor's separate `useState` hooks are one record field, and each
  `setX` updates one part of it. React's batching of state updates is not
  modelled. The effect that reloads a form when the edited row changes is
  folded into the operations that change that row. React compares the
  new `isEditing` with the old one by object identity; the model compares
  rows by value, so re-selecting an equal but refetched row keeps the typed
  form here where the original would reload it.
- Budgets are fetched and cached, but no modelled screen edits them.
- FinancialContext.FinancialStore.ProfileChanged: signed out, the effect
  clears the lists but leaves `loading` as it was. The provider starts with
  `loading` set, so a visitor who never signs in sees it set for good. The
  contract states this behaviour as written.
