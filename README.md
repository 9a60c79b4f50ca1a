# Gift exchange mobile client — a Dafny model of its core

This project models four parts of the React Native client of a gift-exchange
system, and proves properties of each:

- **The notification store** (`NotificationStore.dfy`). This is a Zustand store that holds
  the SignalR hub connection and the user's notification list, newest first. Pushed
  notifications go to the front of the list, and the list is capped at 100. One page of
  history replaces the list. Every `createdAt` is normalised to a date.
- **The "create post" screen** (`CreatePost.dfy`). It covers the ordered form validation and
  the initial category. It also covers the image list, which the user grows by uploading
  and shrinks by removing. It covers the file name and MIME type sent with an upload, and
  the post record that is submitted.
- **The registration screen** (`Register.dfy`). It covers the province → district → ward
  picker, with its cascading resets. It covers the checks `registerUser` makes, the
  address line it composes and the OTP gate in front of the request. It also covers
  `resetForm`.
- **The search results screen** (`Search.dfy`). It covers the status filter of the
  default search mode and the mode → icon and mode → entry lookups.

`JsString.dfy` defines the two JavaScript string built-ins the forms depend on:
- `trim`, over the ECMAScript white-space set;
- `match` with a pattern that has no special characters, which is a substring search.

`Wrappers.dfy` holds `Option`, the model's stand-in for `null` and `undefined`.

State that the TypeScript code updates in place is modelled as a class with `modifies` clauses:
- the store's state;
- each screen's `useState` hooks.

Each method is specified against pure functions, and the lemmas state the properties of
those functions. The search screen's logic is pure, so it is modelled with functions only.

The world outside the client is modelled as parameters:
- The clock (`new Date()`) becomes a `now` parameter.
- Date parsing (`new Date(text)`) is kept symbolic, as `ParsedFrom(text)`.
- `Number`/`isNaN` and `parseInt` are parameters.
- The answers of HTTP requests, SignalR, the image picker and the upload are parameters.
- A React effect is modelled as running when the value it watches changes.

The store behaves as follows, which a reader might not expect of a notification cache:
- The store does not deduplicate by id. A push whose id is already listed is added again
  (`ArrivalKeepsDuplicates`).
- The 100-entry cap is applied only by `addNotification`. `setNotifications` and the
  history fetch store lists of any length.
- The store has no reconnect loop, attempt counter or backoff clamp. The retry schedule
  `[0, 2000, 5000, 10000, 20000]` is handed to the SignalR library.
- A hub that started but failed to join the user's group is not stored and is not stopped.
- A second successful `initializeConnection` overwrites the stored hub without stopping it
  (`InitializeConnection` returns that hub as `orphaned`).

## Model

| member | source | states |
|---|---|---|
| NotificationStore.Normalized | src/stores/notificationStore.ts:95-97 | the result is always a date; a date keeps its value; an absent or empty `createdAt` becomes the current time; any other text is parsed |
| NotificationStore.Processed | src/stores/notificationStore.ts:92-99 | same length and order; each entry keeps every field except `createdAt`, which is normalised |
| NotificationStore.ProcessedIdempotent | src/stores/notificationStore.ts:92-99 | processing an already processed list again changes nothing, whatever the clock reads |
| NotificationStore.Stamped | src/stores/notificationStore.ts:104-108 | the stored entry keeps id, type, data and status, is unread, and is dated at the arrival time |
| NotificationStore.WithArrival | src/stores/notificationStore.ts:101-111 | the new list is non-empty, at most 100 long, and starts with the stamped record |
| NotificationStore.ArrivalLength | src/stores/notificationStore.ts:101-111 | after a push the list holds min(old length + 1, 100) entries, so never more than `MAX_NOTIFICATIONS` |
| NotificationStore.ArrivalAtFront | src/stores/notificationStore.ts:101-111 | the pushed notification is first, unread, stamped with the arrival time, with its id, type, data and status |
| NotificationStore.ArrivalShiftsExisting | src/stores/notificationStore.ts:101-111 | the old entries follow in their order; below capacity all stay, otherwise only the first 99 stay and everything from position 99 on is dropped |
| NotificationStore.ArrivalKeepsDuplicates | src/stores/notificationStore.ts:101-111 | a push with an id already listed is added as a second entry with that id (no deduplication) |
| NotificationStore.AfterArrivalsIsNewestFirst | src/stores/notificationStore.ts:101-111 | after any run of pushes the list is the pushes, latest first, ahead of the old list, cut to 100 |
| NotificationStore.FromInbound | src/stores/notificationStore.ts:63-72 | the handler's record copies id, type, data and status, sets `read` false and parses `createdAt` |
| NotificationStore.PushedEntry | src/stores/notificationStore.ts:63-73 | a pushed notification is listed unread with the arrival time; the server's `read` and `createdAt` are discarded |
| NotificationStore.AfterFetch | src/stores/notificationStore.ts:122-132 | the list is kept unless the answer has `isSuccess`; then it has one entry per entry of the page |
| NotificationStore.FetchReplacesOnlyOnSuccess | src/stores/notificationStore.ts:112-136 | the fetch keeps the list unless the answer has `isSuccess`; then the list is the page, same ids in the same order, dates normalised |
| NotificationStore.NotificationState.constructor | src/stores/notificationStore.ts:44-46 | the store starts with no connection and no notifications |
| NotificationStore.NotificationState.AddNotification | src/stores/notificationStore.ts:101-111 | the list becomes the arrival function of the old list, at most 100 entries; the connection is unchanged |
| NotificationStore.NotificationState.SetNotifications | src/stores/notificationStore.ts:92-99 | the list becomes the processed input, uncut; the connection is unchanged |
| NotificationStore.NotificationState.FetchInitialNotifications | src/stores/notificationStore.ts:112-136 | the list becomes the processed page on a successful answer and is kept otherwise; a failed request is swallowed |
| NotificationStore.NotificationState.ClearNotifications | src/stores/notificationStore.ts:137 | the list becomes empty; the connection is unchanged |
| NotificationStore.NotificationState.DisconnectSignalR | src/stores/notificationStore.ts:85-91 | with a connection, a successful stop forgets it; a failed stop propagates and keeps it; without one, nothing happens |
| NotificationStore.NotificationState.ReceiveNotification | src/stores/notificationStore.ts:63-79 | a push adds its mapped record through `addNotification` |
| NotificationStore.NotificationState.InitializeConnection | src/stores/notificationStore.ts:47-84 | no user: nothing; a start or join failure: nothing changes; otherwise the history is fetched and then the hub is stored; `orphaned` is the hub left running unstopped (the new one after a join failure, the old one after an overwrite) |
| JsString.Trim | src/screens/CreatePost/CreatePostScreen.tsx:220-221 | `trim` never lengthens a string, and a non-empty result has no white space at either end |
| JsString.Contains | src/screens/Register/RegisterScreen.tsx:235 | the substring search can succeed only when the pattern fits in the text |
| JsString.TrimEmptyIffBlank | src/screens/CreatePost/CreatePostScreen.tsx:69-76 | `!s.trim()` holds exactly when `s` is all white space |
| JsString.TrimShape | src/screens/CreatePost/CreatePostScreen.tsx:220-221 | `trim` keeps a contiguous piece with only white space around it, and the piece has no white space at either end |
| JsString.ContainsIffOccurs | src/screens/Register/RegisterScreen.tsx:235 | the substring search succeeds exactly when some position starts a copy of the pattern |
| CreatePost.ValidateForm | src/screens/CreatePost/CreatePostScreen.tsx:68-94 | an accepted form has a category, a condition and an image; a free gift is never rejected for its points |
| CreatePost.ValidateFormSpec | src/screens/CreatePost/CreatePostScreen.tsx:68-94 | the form is accepted exactly when all six checks pass; a rejection names a failing check whose predecessors all pass |
| CreatePost.FreeGiftSkipsPoints | src/screens/CreatePost/CreatePostScreen.tsx:85 | for a free gift, neither the point text nor the number parser changes the verdict |
| CreatePost.LastSegment | src/screens/CreatePost/CreatePostScreen.tsx:101 | `split('/').pop()` is the suffix without '/', with a '/' just before it when shorter than the URI |
| CreatePost.FileName | src/screens/CreatePost/CreatePostScreen.tsx:101 | the file name is never empty and has no '/'; it is 'photo.jpg' or a suffix of the URI |
| CreatePost.FileNameOfPath | src/screens/CreatePost/CreatePostScreen.tsx:101 | the file name is what follows the last '/', and 'photo.jpg' when nothing does |
| CreatePost.Extension | src/screens/CreatePost/CreatePostScreen.tsx:102 | a found extension is word characters that end the name after a '.' |
| CreatePost.ExtensionIff | src/screens/CreatePost/CreatePostScreen.tsx:102 | `/\.(\w+)$/` can capture only one thing, and `Extension` returns exactly that capture |
| CreatePost.MimeType | src/screens/CreatePost/CreatePostScreen.tsx:102-103 | the MIME type always starts with 'image/' and has a non-empty subtype |
| CreatePost.MimeTypeOfExtension | src/screens/CreatePost/CreatePostScreen.tsx:102-103 | a name ending in '.' and word characters gets 'image/' followed by those characters |
| CreatePost.MimeTypeWithoutExtension | src/screens/CreatePost/CreatePostScreen.tsx:103 | a name without such an ending gets 'image/jpeg' |
| CreatePost.FallbackNameType | src/screens/CreatePost/CreatePostScreen.tsx:101-103 | the fallback name 'photo.jpg' is typed 'image/jpg' |
| CreatePost.UploadFile | src/screens/CreatePost/CreatePostScreen.tsx:101-117 | the file part has a non-empty name without '/' and an 'image/' type |
| CreatePost.UploadOfPicture | src/screens/CreatePost/CreatePostScreen.tsx:101-117 | a picture at `dir/base.ext` is uploaded as `base.ext` with type `image/ext` |
| CreatePost.KeepOthers | src/screens/CreatePost/CreatePostScreen.tsx:202 | the index filter never lengthens the list and keeps only images from it |
| CreatePost.WithoutImage | src/screens/CreatePost/CreatePostScreen.tsx:201-204 | the new image list is never longer and holds only images that were there |
| CreatePost.RemoveImageSpec | src/screens/CreatePost/CreatePostScreen.tsx:201-204 | removing index i removes exactly that image and keeps the rest in order; an index outside the list changes nothing |
| CreatePost.FindById | src/screens/CreatePost/CreatePostScreen.tsx:44 | `find` returns the first category with the id, or none exactly when no category has it |
| CreatePost.InitialCategory | src/screens/CreatePost/CreatePostScreen.tsx:41-47 | the passed category wins; otherwise a non-empty id selects a listed category with that id; otherwise none |
| CreatePost.BuildPost | src/screens/CreatePost/CreatePostScreen.tsx:219-228 | the post has the trimmed title and description, the category's id, point 0 for a gift or else `parseInt` of the text, and quantity 1 |
| CreatePost.ValidPostShape | src/screens/CreatePost/CreatePostScreen.tsx:210-228 | a post built from a valid form has a category, a non-empty trimmed name and description, a condition and at least one image |
| CreatePost.CreatePostScreen.constructor | src/screens/CreatePost/CreatePostScreen.tsx:41-59 | empty fields and no images; the category is the initial category |
| CreatePost.CreatePostScreen.HandleImageUpload | src/screens/CreatePost/CreatePostScreen.tsx:158-182 | a picked URI is uploaded and the returned URL appended; a picker or upload failure is reported and the list is kept; the spinner ends off |
| CreatePost.CreatePostScreen.RemoveImage | src/screens/CreatePost/CreatePostScreen.tsx:201-204 | the image list becomes the list without that index; nothing else changes |
| CreatePost.CreatePostScreen.HandleSubmit | src/screens/CreatePost/CreatePostScreen.tsx:210-246 | an invalid form is rejected with its first failing check and nothing is sent; otherwise the built post is sent and loading ends off |
| Register.CheckRegistration | src/screens/Register/RegisterScreen.tsx:206-214 | the request may be built exactly when the passwords match and province, district, ward and street are all set; the password check comes first |
| Register.ComposeAddress | src/screens/Register/RegisterScreen.tsx:225 | the address line's length is the parts' lengths plus the 7 separator characters |
| Register.AddressSplitsBack | src/screens/Register/RegisterScreen.tsx:225 | splitting the address line at commas gives back the street and each name after its spaces, when no part has a comma |
| Register.BuildPayload | src/screens/Register/RegisterScreen.tsx:217-228 | the payload carries the typed fields and the composed address, with "0" for both coordinates whatever the form holds |
| Register.OtpAccepted | src/screens/Register/RegisterScreen.tsx:235 | an accepted OTP has at least six characters |
| Register.OtpGate | src/screens/Register/RegisterScreen.tsx:235 | the OTP is accepted exactly when "111111" occurs somewhere in it: text around the code passes, shorter text fails |
| Register.ListFor | src/screens/Register/RegisterScreen.tsx:158-172 | each modal level shows its own list: provinces, districts or wards |
| Register.Refreshed | src/screens/Register/RegisterScreen.tsx:114-155 | a loaded reply replaces the list, a failed request keeps it |
| Register.RegisterScreen.constructor | src/screens/Register/RegisterScreen.tsx:51-88 | empty fields, the current date, no selections, empty lists, closed modal at the province level |
| Register.RegisterScreen.FetchProvinces | src/screens/Register/RegisterScreen.tsx:114-125 | the province list becomes the answer; a failure is reported and keeps the list |
| Register.RegisterScreen.OpenModal | src/screens/Register/RegisterScreen.tsx:158-172 | the modal shows the list of the requested level and is open |
| Register.RegisterScreen.PressPicker | src/screens/Register/RegisterScreen.tsx:372-394 | the district and ward fields open their modal only once their parent is selected; a disabled press changes nothing |
| Register.RegisterScreen.HandleSelect | src/screens/Register/RegisterScreen.tsx:174-187 | the item goes into the slot of the open level only, the modal closes, and `changed` tells whether the slot changed |
| Register.RegisterScreen.ProvinceEffect | src/screens/Register/RegisterScreen.tsx:97-104 | with a province, its districts are loaded and the district and ward are cleared; without one, nothing happens |
| Register.RegisterScreen.DistrictEffect | src/screens/Register/RegisterScreen.tsx:106-111 | with a district, its wards are loaded and the ward is cleared; without one, nothing happens |
| Register.RegisterScreen.SelectAddress | src/screens/Register/RegisterScreen.tsx:97-111 | a new province clears district and ward and reloads districts; a new district clears the ward and reloads wards; re-picking the same value or a ward loads nothing and reports nothing; an error is reported exactly when a triggered reload fails |
| Register.RegisterScreen.ResetForm | src/screens/Register/RegisterScreen.tsx:190-203 | personal fields, OTP and coordinates are cleared, the date is now, and the OTP field is hidden |
| Register.RegisterScreen.RegisterUser | src/screens/Register/RegisterScreen.tsx:205-248 | a failed check changes nothing; otherwise the OTP field shows, the payload is sent only with an accepted OTP, success resets the form, and loading ends off |
| Search.KeepListed | src/screens/Search/SearchResultsScreen.tsx:78-81 | the filter never lengthens the list and keeps only products with status "Approved" or "In_Transaction" |
| Search.FilterProducts | src/screens/Search/SearchResultsScreen.tsx:74-86 | outside the default mode the list is shown unchanged, and the filter never lengthens it |
| Search.KeepListedMembers | src/screens/Search/SearchResultsScreen.tsx:77-82 | a product is kept exactly when it is in the input with status "Approved" or "In_Transaction" |
| Search.KeepListedCounts | src/screens/Search/SearchResultsScreen.tsx:77-82 | every copy of a listed product is kept and every copy of another one is dropped |
| Search.FilterIsSubsequence | src/screens/Search/SearchResultsScreen.tsx:74-86 | in every mode the shown list is an order-preserving subsequence of the results |
| Search.FilterProductsSpec | src/screens/Search/SearchResultsScreen.tsx:74-86 | the default filter keeps exactly the listed products, and filtering again in the same mode changes nothing |
| Search.SearchModeIcon | src/screens/Search/SearchResultsScreen.tsx:88-97 | "need" gets "category", "have" gets "people", and every other mode gets "search" |
| Search.FindMode | src/screens/Search/SearchResultsScreen.tsx:70 | the first entry whose value is the mode, or none exactly when no entry has it |
| Search.SearchModeInfo | src/screens/Search/SearchResultsScreen.tsx:68-72 | the first entry for the mode if there is one; otherwise the first entry, or undefined for an empty table |
| Search.FetchSearchResults | src/screens/Search/SearchResultsScreen.tsx:43-66 | on an answer, the products are the results and the shown list is their filtered form; a failure keeps both; loading ends off |
| Search.FetchShowsFiltered | src/screens/Search/SearchResultsScreen.tsx:110-112 | the shown list, whose length is the result count, is a subsequence of the results, and in the default mode holds only listed products |

## Left out

- SignalR transport is outside the model: building the hub, the URL, the access-token
  factory, `start`, `invoke("JoinNotificationGroup")`, `on` and `stop`. Their success or
  failure are inputs. Reconnection is the library's: the model has no retry loop, because
  the code has none.
- NotificationStore.NotificationState.InitializeConnection: the model does not track which
  hubs deliver pushes. A hub left running after a second `initializeConnection` stays in
  the user's group with its `ReceiveNotification` handler still registered, so each later
  push can be added twice. `ReceiveNotification` models one delivery per call.
- Toasts, alerts, `console` output and navigation are outside the model. The only visible
  effects modelled are the `reported` and outcome results that say which alert a path
  shows.
- HTTP requests, the Cloudinary upload and the image picker are outside the model. Their
  answers are inputs. A `secure_url` missing from a successful upload is treated as a
  returned URL.
- The clock and date parsing are outside the model. Each `map` over a list reads the clock
  once (`now`), where the code reads it once per entry.
- `Number`/`isNaN` and `parseInt` are parameters, not definitions of JavaScript's
  numeric parsing.
- `JSON.parse` of a pushed message is outside the model. The push arrives already parsed
  as an `Inbound` record, and a message that fails to parse is not modelled.
- Asynchronous interleaving is outside the model: two pushes racing a history fetch, or
  a request that answers after the screen's state has moved on. Each operation runs to
  completion with its answers given.
- The iOS-only `file://` prefix removal in the upload's file part is outside the model.
- `loadingAddress` is not modelled, nor the pickers being disabled while it is set. The
  ward list of a reply without a `wards` field is the empty list; the code stores
  `undefined`, which the picker shows as an empty list.
- `formatDateOnlyDate`, `getSearchValue` and the `searchModes` table are not part of this
  model. The payload's `dob` is the selected date itself, and the mode table is a
  parameter.
- Search results whose `data` field is missing are not modelled: `reply` is a list or a
  failure.
- The categories hook's asynchronous loading is not modelled. The initial category is
  computed from the list given to the constructor.
- `pickVideo`, `removeVideo`, the title and description hints, and all rendering and
  styles are not modelled. They hold no logic beyond setting a field.
