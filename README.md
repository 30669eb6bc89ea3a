# Listing views of an Airbnb-style app, modelled in Dafny

This project models the client-side state handling of two React components of
an Airbnb-style listing site.

- **The property detail/edit view** (`property.jsx`, module `PropertyPage`).
  The class `PropertyView` holds the component state: `property`, `loading`,
  the two modal flags, `previewImage`, `changedFields`, the authentication
  result and `currentImageIndex`. Each handler is a method of the class.
  - The image carousel moves its index with JavaScript's `%`, in both directions.
  - Every input change appends the input's name to `changedFields`.
  - `handleSubmit` turns `changedFields` into a multipart payload. It skips
    `id` and `user`, appends once per occurrence, and sends `images` as one
    entry per file.
  - render shows the current image, or a CDN placeholder numbered `id - 1`
    when there are no images.
  - The Edit/Delete buttons appear only for the owner.
- **The host (create) view** (`hostProperty.jsx`, module `HostPropertyPage`).
  The class `HostView` holds a draft with fixed keys and defaults, a
  completeness flag and the authentication result.
  - After every input change, the flag is recomputed by the predicate
    `FormComplete`.
  - `handleSubmit` builds a payload with `set` for each scalar key and
    `append` for each image file.
  - render shows a login prompt until the view is authenticated.

Shared modules:
- `JsValues`: the JavaScript values involved (strings, numbers with NaN,
  arrays or FileLists of images, the owner object), plus `%`, `!==` and `.length`.
- `Fields`: the attribute enumeration and the multipart keys
  `property[<name>]` and `property[images][]`.
- `FormData`: the browser's FormData list with `append`, `set` and `getAll`.
- `Browser`: input events, backend requests and page effects, all as values.

Network calls, reloads and navigation are not performed. A method returns the
request or effect it would trigger, and the result of a fetch is the argument
of a method (`PropertyFetched`, `AuthChecked`, `SubmitSucceeded`). `parseFloat`
is not modelled: a text event carries the parsed number as data.

Points where the code's behaviour may surprise:
- **Zero values.** Completeness rejects only a price parsed to the number 0.
  Every input except `price_per_night` stores its raw text, so a typed `"0"`
  passes `value !== 0`, and a price parsed to NaN passes too
  (`TypedValuesAndCompleteness`).
- **Initial draft.** It fails completeness because of its empty `images` and
  also its empty text fields. Only its numeric defaults pass
  (`InitialDraftIncomplete`).
- **Duplicate changes.** Each duplicate in `changedFields` is sent again: the
  loop uses `append`, once per occurrence (`EditFormScalar`, `EditFormImages`).
- **Owner check.** The code compares `currentUser` with `user.username`.
- **Stale image index.** A file change replaces `images` but keeps
  `currentImageIndex`. If no more files are picked than the index, render
  reads past the end and throws (`UploadCanStrandIndex`, and the last
  postcondition of `PropertyView.HandleInputChange`).

## Model

| member | source | states |
|---|---|---|
| JsValues.JsRem | app/javascript/src/property/property.jsx:80-86 | JavaScript's `%` on integers. For a non-negative dividend it is Dafny's Euclidean remainder, in `[0, |b|)`. For a negative dividend it lies in `(-|b|, 0]`. |
| JsValues.JsRemOdd | app/javascript/src/property/property.jsx:80-86 | The remainder takes the dividend's sign: `(-a) % b` is `-(a % b)`, which with `JsRem` fixes the value for negative dividends. |
| JsValues.Length | app/javascript/src/host_property/hostProperty.jsx:75 | `.length` exists exactly for strings and arrays/FileLists, and is 0 exactly for the empty string and the empty list. For a list it is the number of items; for a string it is the number of characters (see "## Left out"). Numbers and objects give undefined. |
| FormData.Append | app/javascript/src/property/property.jsx:143-146 | `formData.append` adds the part to what `getAll` of that key returns. Every other key reads as before. |
| FormData.Set | app/javascript/src/host_property/hostProperty.jsx:92 | After `formData.set`, `getAll` of the key returns exactly the new part, and every other key reads as before. With no earlier entry, set is an append at the end. |
| FormData.FileEntries | app/javascript/src/property/property.jsx:142-144 | Appending each file under one key stores one part per file, in file order, and nothing under any other key. |
| Browser.Uploads | app/javascript/src/property/property.jsx:98 | A FileList stored as `images` holds one picked file per item, in order, and no image records. |
| Browser.InputValue | app/javascript/src/property/property.jsx:108 | An input stores the parsed number exactly when it is `price_per_night`. Every other input, numeric ones included, stores its raw text. |
| PropertyPage.NextIndex | app/javascript/src/property/property.jsx:78-81 | `nextImage` stays in `[0, n)`, moves to `i + 1` before the last image, and wraps from `n - 1` to 0. |
| PropertyPage.PrevIndex | app/javascript/src/property/property.jsx:84-87 | `prevImage` stays in `[0, n)`, moves to `i - 1` from a positive in-range index, and wraps from 0 to `n - 1`. |
| PropertyPage.PrevUndoesNext | app/javascript/src/property/property.jsx:80-86 | For an in-range index, previous undoes next and next undoes previous. |
| PropertyPage.NextTimesShifts | app/javascript/src/property/property.jsx:78-81 | Pressing next k times from index i reaches `(i + k) mod n`. |
| PropertyPage.PrevTimesShifts | app/javascript/src/property/property.jsx:84-87 | Pressing previous k times from index i reaches `(i - k) mod n`. |
| PropertyPage.NextCycle | app/javascript/src/property/property.jsx:78-81 | n presses of next return to the starting image, and no fewer presses (0 < k < n) do. |
| PropertyPage.PrevCycle | app/javascript/src/property/property.jsx:84-87 | n presses of previous return to the starting image, and no fewer presses (0 < k < n) do. |
| PropertyPage.CurrentImage | app/javascript/src/property/property.jsx:193-196 | The placeholder numbered `id - 1` is shown iff there are no images. Otherwise the shown URL is that of `images[i]`. Reading past the end of a non-empty list throws. |
| PropertyPage.OwnerControls | app/javascript/src/property/property.jsx:245-248 | Edit/Delete appear only with a signed-in username, and then iff it equals the owner's. |
| PropertyPage.RenderView | app/javascript/src/property/property.jsx:188-263 | While loading only the loading text shows. Render throws iff the index is past the end of a non-empty image list. On the page the picture is `CurrentImage` of the images, index and id: `images[index].url`, or the placeholder numbered `id - 1` iff there are no images. Owner controls iff currentUser is the owner; arrows iff two or more images; modals as in state. |
| PropertyPage.UploadCanStrandIndex | app/javascript/src/property/property.jsx:94-196 | For every property, once a file change stores a non-empty list of no more files than the index, render throws. |
| PropertyPage.BuildEditForm | app/javascript/src/property/property.jsx:139-149 | The `forEach`/`for` loop builds exactly the form `EditForm` gives for `changedFields` in order. |
| PropertyPage.EditFormScalar | app/javascript/src/property/property.jsx:139-149 | A sent scalar field appears under `property[<name>]` once per occurrence in `changedFields`, duplicates included, each time with its current value. |
| PropertyPage.EditFormImages | app/javascript/src/property/property.jsx:141-144 | Each occurrence of `images` sends every file under `property[images][]`, in file order. |
| PropertyPage.EditFormNoOtherKey | app/javascript/src/property/property.jsx:139-149 | A key is empty unless it belongs to a sent field that occurs in `changedFields`, or it is the image key and `images` occurs. |
| PropertyPage.EditFormOmitsIdAndUser | app/javascript/src/property/property.jsx:140 | `property[id]` and `property[user]` are never sent, however often `id` or `user` occur. |
| PropertyPage.PropertyView.constructor | app/javascript/src/property/property.jsx:14-27 | Initial state: empty property, loading, both modals closed, no preview, no changes, unauthenticated, index 0. |
| PropertyPage.PropertyView.PropertyFetched | app/javascript/src/property/property.jsx:31-38 | The fetched property is stored and loading ends. Nothing else changes. |
| PropertyPage.PropertyView.AuthChecked | app/javascript/src/property/property.jsx:41-50 | Stores the authentication flag and username. Nothing else changes. |
| PropertyPage.PropertyView.OpenEditModal | app/javascript/src/property/property.jsx:54-56 | Sets `showEditModal` and changes nothing else. |
| PropertyPage.PropertyView.CloseEditModal | app/javascript/src/property/property.jsx:59-65 | Clears `showEditModal` and empties `changedFields` (nothing else changes), then reloads the page. |
| PropertyPage.PropertyView.OpenDeleteModal | app/javascript/src/property/property.jsx:68-70 | Sets `showDeleteModal` and changes nothing else. |
| PropertyPage.PropertyView.CloseDeleteModal | app/javascript/src/property/property.jsx:73-75 | Clears `showDeleteModal` and changes nothing else. |
| PropertyPage.PropertyView.NextImage | app/javascript/src/property/property.jsx:78-81 | The index becomes `NextIndex` of the old one, stays in range, and nothing else changes. |
| PropertyPage.PropertyView.PrevImage | app/javascript/src/property/property.jsx:84-87 | The index becomes `PrevIndex` of the old one, stays in range, and nothing else changes. |
| PropertyPage.PropertyView.HandleInputChange | app/javascript/src/property/property.jsx:90-113 | A text change replaces only `property[name]` and appends `name` to `changedFields`, keeping earlier entries. A file change replaces only `images`, previews the first file and appends the name; when no more files than the index are picked, render then throws. An empty FileList throws inside the state updater, so the state object is not updated. |
| PropertyPage.PropertyView.HandleDelete | app/javascript/src/property/property.jsx:116-122 | Issues exactly the DELETE of this property and changes no state. |
| PropertyPage.PropertyView.DeleteSucceeded | app/javascript/src/property/property.jsx:123-128 | Closes the delete modal (nothing else changes) and navigates to `/`. |
| PropertyPage.PropertyView.HandleSubmit | app/javascript/src/property/property.jsx:132-160 | Sets `loading` and issues a PATCH of this property whose body is `EditForm(changedFields, property)`. |
| PropertyPage.PropertyView.SubmitSucceeded | app/javascript/src/property/property.jsx:161-165 | Stores the returned property, closes the edit modal, empties `changedFields`, ends loading, then reloads. |
| HostPropertyPage.InitialDraftDefaults | app/javascript/src/host_property/hostProperty.jsx:12-24 | The initial draft has exactly the draft keys: empty strings for the texts, 1 for every numeric key, no images. |
| HostPropertyPage.Filled | app/javascript/src/host_property/hostProperty.jsx:75 | `v !== '' && v !== 0 && v.length !== 0` per kind: a string passes iff non-empty, a number iff not 0 (NaN passes), a list iff non-empty, an object always. |
| HostPropertyPage.FormCompleteMeans | app/javascript/src/host_property/hostProperty.jsx:73-76 | For a draft, `every` over `Object.values` holds iff every draft key in order passes. A complete form has at least one image. |
| HostPropertyPage.InitialDraftIncomplete | app/javascript/src/host_property/hostProperty.jsx:12-29 | The initial draft is incomplete. A key of it passes iff it is numeric; the empty texts and empty images fail. |
| HostPropertyPage.TypedValuesAndCompleteness | app/javascript/src/host_property/hostProperty.jsx:59-75 | A price parsed to 0 fails and a price parsed to NaN passes. A typed `"0"` in any other field passes, and an emptied field fails. |
| HostPropertyPage.BuildCreateForm | app/javascript/src/host_property/hostProperty.jsx:86-94 | The loop over `Object.keys` builds exactly the form `CreateForm` gives: `set` per scalar key, `append` per image file. |
| HostPropertyPage.CreateFormOverScalar | app/javascript/src/host_property/hostProperty.jsx:91-93 | After any prefix of the keys, a visited scalar key holds its value exactly once and an unvisited one holds nothing. |
| HostPropertyPage.CreateFormOverImages | app/javascript/src/host_property/hostProperty.jsx:87-90 | After any prefix of the keys, the image key holds the files in order, once per visit of `images`. |
| HostPropertyPage.CreateFormOverNoOtherKey | app/javascript/src/host_property/hostProperty.jsx:86-94 | A key that is neither a visited attribute's key nor the image key stays empty. |
| HostPropertyPage.CreateFormScalars | app/javascript/src/host_property/hostProperty.jsx:86-94 | The create payload holds every scalar draft key exactly once, with its value. No draft key is omitted. |
| HostPropertyPage.CreateFormImages | app/javascript/src/host_property/hostProperty.jsx:87-90 | The create payload holds the draft's image files under `property[images][]`, in order. |
| HostPropertyPage.CreateFormNoOtherKey | app/javascript/src/host_property/hostProperty.jsx:86-94 | The create payload has no entry under any key except the draft attributes' keys and the image key. |
| HostPropertyPage.HostView.constructor | app/javascript/src/host_property/hostProperty.jsx:9-30 | Starts with the initial draft, unauthenticated, loading, no preview and `completeForm` false, which agrees with `FormComplete`. |
| HostPropertyPage.HostView.AuthChecked | app/javascript/src/host_property/hostProperty.jsx:32-42 | Stores the authentication flag and ends loading. Nothing else changes. |
| HostPropertyPage.HostView.CheckFormCompletion | app/javascript/src/host_property/hostProperty.jsx:73-77 | Sets `completeForm` to `FormComplete` of the current draft and changes nothing else. |
| HostPropertyPage.HostView.HandleInputChange | app/javascript/src/host_property/hostProperty.jsx:44-70 | A text change replaces only the named key. A file change replaces only `images` and previews the first file. Then `completeForm` equals `FormComplete` of the new draft. An empty FileList throws inside the state updater, so the state object is not updated and the completion callback does not run. |
| HostPropertyPage.HostView.HandleSubmit | app/javascript/src/host_property/hostProperty.jsx:80-103 | Issues a POST whose body is `CreateForm` of the draft and changes no state. |
| HostPropertyPage.HostView.SubmitSucceeded | app/javascript/src/host_property/hostProperty.jsx:105-109 | A successful create navigates to `/`. |
| HostPropertyPage.HostView.Render | app/javascript/src/host_property/hostProperty.jsx:112-143 | The login prompt, with `redirect_url` set to the current path, shows iff unauthenticated. The form shows only when authenticated, with the state's draft, preview and completeness flag. |

## Left out

- Network I/O: every `fetch`, `handleErrors`, `safeCredentials`/`safeCredentialsForm` and the promise chains. A request is returned as a value, and a response is the argument of the method for the state change that follows it. A rejected fetch has no modelled outcome.
- Browser effects: `window.location.reload()` and `window.location.href = '/'` are returned as `Effect` values.
- `URL.createObjectURL`: the preview is the picked file itself. The call's throw on an empty FileList is modelled.
- PropertyPage.PropertyView.HandleInputChange and HostPropertyPage.HostView.HandleInputChange: the throw on an empty FileList happens while React renders, and with no error boundary it unmounts the whole component tree, so `threw` ends the page. The model keeps the old state after it only as a placeholder; what follows the unmount is not modelled.
- JsValues.Length: strings are sequences of Unicode scalar values, so for text with characters outside the Basic Multilingual Plane the count is below JavaScript's `.length`, which counts UTF-16 code units. The views only test the length against 0, where the two agree.
- `parseFloat`: the parsed number is part of the input event. Infinity and -0 are not represented among numbers.
- FormData's conversion of non-file values to strings: a `Text` part keeps the JavaScript value.
- React's batching and asynchronous `setState`: a state update and its callback run as one step in the model.
- JSX markup, Bootstrap modals, FontAwesome icons and `console.log`. The loading text in the detail view is the one render detail kept.
- `PropertyForm`, `BookingWidget`, `Layout` and the fetch helpers are not part of this model. The input names PropertyForm produces are assumed to be attribute names of the `Field` enumeration.
- PropertyPage.PropertyView.HandleInputChange: text inputs named `id`, `user` or `images` are excluded by its precondition. The model cannot say whether the form has such inputs.
- HostPropertyPage.HostView.HandleInputChange: text inputs must name a draft key other than `images`. A name outside the draft would add a new key to the object, and that is not modelled.
- PropertyPage.PropertyView.NextImage and PrevImage require at least one image. With none, JavaScript's `% 0` gives NaN, which the index cannot hold. The arrows are hidden below two images anyway.
- PropertyPage.PropertyView.Render is stated through `RenderView`. The detail view's `isAuthenticated` flag is stored and never read by render.
- The host view's render ignores `loading`, as the code does, so the login prompt also shows before the authentication check resolves.
- The booking confirmation view (`success.jsx`): a read-only render after one fetch.
- The migration adding `amenities`, `policies` and `neighborhood`: a schema change with no logic. These attributes are not in the views' records.
