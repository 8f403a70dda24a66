# Carrucel camera page, modelled in Dafny

Carrucel is a one-page browser camera: it opens a device camera (back camera
by default, front camera on request), grabs still frames, keeps them in a
gallery shown newest first, and persists the whole gallery as one item of
the browser's local storage under the key `carrucel-photos`. This project
models the module-level state of `app.js` and the functions that change it:

- **Camera session** (`Session.CameraSession`): the held stream, the facing
  mode (`"environment"` / `"user"`), the pending capture, whether the preview
  is mirrored, and the device's side: which tracks are live and every call
  made into the device, in order. The class invariant `Valid()` says that the
  live tracks are exactly the tracks of the one held stream (no handle leak)
  and that a live preview is mirrored exactly for the front camera.
- **Gallery** (`Gallery.GalleryStore` over `Storage.LocalStorage`): the photo
  list, the entries shown on the page (each carrying its id, as the page's
  `data-id` does), the shown count and "clear all" button, and the storage
  item. `InSync()` (page shows the list newest first), `Durable()` (storage
  holds exactly the list) and `CountShown()` are the properties each
  operation is stated against.
- **Pure rules** (`CameraRules`, `Naming`, `PhotoList`): the facing-mode
  flip, the camera label, the device constraints, the video-device count
  behind the "switch camera" control, the download name, and the list
  operations of the gallery.
- **The page** (`App.CameraApp`): startup (load the gallery, check the
  cameras) and `savePhoto`, which moves the pending capture into the gallery
  and reopens the camera.

Everything the page asks of the browser is a parameter: the device's answer
to a stream request (`grant: Option<Stream>`, `None` when access fails), the
answer to `confirm()` (`confirmed`), whether a storage write hits the quota
(`quotaExceeded`), `Date.now()` (`timestamp`), the formatted date (`date`),
the video frame drawn (`frame`) and the device list (`listing`, `None` when
listing fails).

The model keeps these traits of `app.js`: ids are `Date.now()` values and
are not checked for uniqueness; deleting and clearing return nothing to
their caller (the model's `persisted` result is false when the user
declined, when there was nothing to save, or when the quota was hit; only
the last shows the storage error alert); a failed camera request shows one
message whatever the cause; the download name is `foto-<camera>-<id>.jpg`;
a photo taken with no stream is refused with an alert and changes nothing.

## Model

| member | source | states |
|---|---|---|
| CameraRules.Toggle | app.js:71-72 | the switch always changes the facing mode |
| CameraRules.ToggleTwice | app.js:70-75 | two switches restore the facing mode |
| CameraRules.CameraLabel | app.js:139-140 | the label is "Trasera" exactly for the back camera and "Frontal" exactly for the front one, and holds no dash |
| CameraRules.RequestFor | app.js:29-35 | a stream request asks for the current facing mode at an ideal 1920x1080 |
| CameraRules.VideoInputs | app.js:293 | the filtered device list holds only video inputs, every video input of the list, and as many entries as the list has video inputs |
| CameraRules.SwitchButtonHidden | app.js:290-303 | the switch control is hidden exactly when the device list was obtained and no two of its entries are video inputs; a failed listing does not hide it |
| CameraRules.AtMostOneCameraIffCount | app.js:293-297 | counting the video inputs (at most one) and finding no two of them agree |
| Naming.DecimalString | app.js:154 | the id is written as a non-empty string of digits without leading zeros |
| Naming.DecimalRoundTrip | app.js:154 | reading the written id back gives the id |
| Naming.DownloadName | app.js:154 | the download name starts with `foto-` and ends with `.jpg` |
| Naming.DownloadNameRoundTrip | app.js:154 | the camera label and the id are recovered from the download name |
| Naming.DownloadNameInjective | app.js:154 | photos with different ids or cameras get different download names |
| PhotoList.Filter | app.js:205 | after a delete the list holds exactly the entries whose id differs; it shrinks exactly when the id was present |
| PhotoList.FilterAppend | app.js:205 | the filter of a concatenation is the concatenation of the filters, so survivors keep their order |
| PhotoList.RemoveFirst | app.js:208-211 | removing a shown entry drops one entry when the id is shown and nothing otherwise |
| PhotoList.RemoveFirstAt | app.js:208-211 | what is removed is the first shown entry with the id; the rest keep their order |
| PhotoList.RemoveFirstAppend | app.js:208-211 | the first match in a concatenation is found in the first part when it has one |
| PhotoList.ReverseAt | app.js:195-196 | the k-th shown entry is the k-th newest entry of the list |
| PhotoList.ReverseAppend | app.js:148-150 | appending an entry to the list shows it first, before the entries already shown |
| PhotoList.DeleteKeepsDisplayInSync | app.js:202-211 | with distinct ids, removing the first shown entry leaves exactly the filtered list, newest first |
| PhotoList.DuplicateIdsDesyncDisplay | app.js:205-211 | two entries with one id: the filter drops both while the page drops only one, so page and list disagree |
| Session.CameraSession.constructor | app.js:18-20 | page load: no stream, back camera, no capture, no live track |
| Session.CameraSession.CloseCamera | app.js:267-277 | stops every track of the held stream in order and holds none afterwards; with no stream nothing changes |
| Session.CameraSession.OpenCamera | app.js:27-67 | the held stream's tracks are stopped before the request; afterwards the held stream is the device's answer (none on failure) and the live tracks are exactly its tracks |
| Session.CameraSession.SwitchCamera | app.js:70-75 | flips the facing mode, releases the held stream, then requests the new mode |
| Session.CameraSession.TakePhoto | app.js:91-118 | refused without a stream; else the capture has the stream's actual size, is mirrored exactly for the front camera and so matches the preview |
| Session.CameraSession.RetakePhoto | app.js:260-264 | drops the pending capture and reopens the camera |
| Session.SwitchTwice | app.js:70-75 | two switches leave the facing mode as it was |
| Storage.LocalStorage.SetItem | app.js:238 | a write stores the list under the key, or fails on quota and changes nothing |
| Gallery.GalleryStore.constructor | app.js:21 | before loading, the list and the page are empty |
| Gallery.GalleryStore.UpdatePhotoCount | app.js:230-233 | the count equals the list length and "clear all" is visible exactly when it is positive |
| Gallery.GalleryStore.AddPhotoToGallery | app.js:168-199 | the entry is shown before all others and the count is refreshed |
| Gallery.GalleryStore.SavePhotosToStorage | app.js:236-243 | on success storage holds exactly the list; on quota failure storage keeps its previous value |
| Gallery.GalleryStore.LoadPhotosFromStorage | app.js:246-257 | a stored list becomes the list and is shown newest first, refreshing the count when it is not empty; an empty stored list leaves the count and "clear all" as they were; an absent or unparsable item changes nothing |
| Gallery.GalleryStore.Append | app.js:148-150 | appends exactly one entry at the end, shows it first, keeps page and list in step, and persists unless the quota is hit, rewriting only the gallery item |
| Gallery.GalleryStore.DeletePhoto | app.js:202-215 | declined: nothing changes; confirmed: every entry with the id leaves the list, the first shown one leaves the page, a successful write rewrites only the gallery item, and with distinct ids page and list stay in step |
| Gallery.GalleryStore.ClearGallery | app.js:218-227 | declined: nothing changes; confirmed: list and page are empty, count 0, "clear all" hidden, and a successful write rewrites only the gallery item |
| App.CameraApp.Start | app.js:18-24 | startup loads the stored list, shows it newest first with the count set when it is not empty, and hides the switch control as the device check decides |
| App.CameraApp.SavePhoto | app.js:131-165 | without a capture nothing changes; else one entry with id = timestamp and the current camera's label is appended, offered as `foto-<camera>-<id>.jpg`, a successful write rewrites only the gallery item, the capture is dropped and the camera reopened |
| App.ReloadAfterWrite | app.js:246-257 | after a successful write a reload finds exactly the written list |
| App.QuotaFailureIsLostOnReload | app.js:236-243 | a save that hits the quota stays in the list and count, but a reload finds the list from before it |

## Left out

- `sw.js` (the offline cache worker) is not part of this model: it is network and cache plumbing.
- Page markup, styles, button texts, the camera indicator (`updateCameraIndicator`), `showPhoto`, `alert` and `console` output: user interface only. The count and "clear all" rule and the preview mirroring are kept.
- The wait for the video's metadata is taken to complete; a request that never resolves, and the interleavings of the asynchronous steps, are not modelled.
- Stream acquisition, device listing and `track.stop()` are the abstract answers and effects described above; the device choosing among several cameras is not modelled.
- Canvas drawing and JPEG encoding: a capture is the drawn frame's identity, the canvas size and the mirror flag.
- JSON text: writing a list and parsing it back are taken to be exact, and any other stored text is "unparsable". Text that parses to something other than a photo list is not modelled.
- Gallery.GalleryStore.LoadPhotosFromStorage: an empty stored string is folded into "unparsable" (both leave the state as it was).
- Gallery.GalleryStore.constructor: the gallery element is taken to start with no photo entries, as the page markup has it; the markup is not part of this model.
- Gallery.GalleryStore.constructor: the count and "clear all" button start as the page markup sets them, which is not part of this model, so nothing is stated about them until the first update.
- `Date.now()` is taken as a non-negative integer, and the localized date as a given string.
- The event-listener wiring and the `beforeunload` hook, which only call the modelled functions.
