# Orphanage listing submission, modelled in Dafny

The Happy project registers "orphanage" listings from two client screens. On
mobile, `OrphanageData` receives a map position as a route parameter. On the
web, `CreateOrphanage` lets the user click a point on its own map. Both screens
hold a draft of the listing in component state: name, about, instructions,
opening hours, an open-on-weekends flag and an ordered list of images. Each
edit handler overwrites one field of the draft. On submit, the screen turns
the draft and the position into a multipart `FormData` body and posts it to
`orphanages`.

The model has four modules:

- `Draft` (`draft.dfy`) holds the draft as a value, `ListingDraft<Img>`. It
  is generic in the image type: a URI string on mobile, a browser `File` on
  the web. One edit is a value of `Edit<Img>`, and `Apply`/`ApplyAll` give the
  reference meaning of one edit and of a sequence of edits. Lemmas prove that
  the last write wins and that appends concatenate.
- `FormData` (`form_data.dfy`) holds the body. It is the ordered list of
  (key, part) pairs that successive `append` calls build. `Get` and `GetAll`
  read it the way `FormData.get` and `FormData.getAll` do. The module also
  has the decimal rendering of an index and the log of side effects a handler
  issues (post, navigate, alert, history push).
- `MobileOrphanageData` (`mobile_orphanage_data.dfy`) has the class
  `OrphanageData`. Its fields are the mobile screen's state, and its methods
  are the screen's handlers. `BuildPayload` appends the scalar parts, then
  loops over the images. Both it and `HandleCreateOrphanage` are proved equal
  to the specification function `SubmissionPayload`. Lemmas about that
  function prove the key order, every field's value, and the image parts.
- `WebCreateOrphanage` (`web_create_orphanage.dfy`) has the class
  `CreateOrphanage` for the web page, built the same way. It adds the
  position state, the map-click handler, the preview list and the yes/no
  weekend buttons.

The outside world enters as parameters:

- `String(number)` is `fmt: real -> string`.
- `URL.createObjectURL` is `objectUrl`.
- The camera-roll permission status and the picker result are arguments of the
  mobile image handler.
- The browser's file list is `Option<seq<BrowserFile>>`, where `None` stands
  for a null list.
- Whether the post call resolves is a boolean. When it rejects, the handler
  stops after issuing the post.

Posts, navigation, alerts and history pushes are recorded as `Effect` values,
in order.

In three places the code does something a reader may not expect; the model follows the code:

- The web image selector replaces the list. It does not append.
- The web form posts latitude 0, longitude 0 when the map was never clicked.
  It does not refuse the submission. `MissingPositionPostsOrigin` states this.
- Neither form checks for a position before posting, and neither reports a
  failed post. A failed post simply ends the handler.

## Model

| member | source | states |
|---|---|---|
| Draft.WriteTextIsLocal | mobile/src/pages/CreateOrphanage/OrphanageData.tsx:98-144 | a text edit sets its own field to the given text and leaves the other text fields, the weekend flag and the image list as they were |
| Draft.IndependentEditsCommute | mobile/src/pages/CreateOrphanage/OrphanageData.tsx:33-38 | two edits of different pieces of the draft give the same draft in either order |
| Draft.LastTextWriteWins | mobile/src/pages/CreateOrphanage/OrphanageData.tsx:98-144 | after any sequence of edits, a text field holds the text of the last edit that wrote it |
| Draft.UnwrittenTextKept | mobile/src/pages/CreateOrphanage/OrphanageData.tsx:33-36 | a text field that no edit of a sequence writes keeps its initial value |
| Draft.AddsConcatenate | mobile/src/pages/CreateOrphanage/OrphanageData.tsx:85-87 | with no wholesale replacement, the image list is the initial list followed by every added image in call order, duplicates kept |
| Draft.LastSelectionWins | web/src/pages/CreateOrphanage.tsx:42-44 | after a replacing selection with no later image edit, the image list is exactly that selection, whatever came before |
| FormData.NatToString | mobile/src/pages/CreateOrphanage/OrphanageData.tsx:56 | the rendered index is non-empty, all decimal digits, and a single digit exactly when the index is below 10 |
| FormData.NatToStringRoundTrip | mobile/src/pages/CreateOrphanage/OrphanageData.tsx:56 | the digits of the rendered index, read back most significant first, spell exactly that index, and a rendering of more than one digit has no leading zero |
| FormData.NatToStringInjective | mobile/src/pages/CreateOrphanage/OrphanageData.tsx:56 | two indices with the same rendering are equal, as a consequence of the round trip |
| MobileOrphanageData.OrphanageData.constructor | mobile/src/pages/CreateOrphanage/OrphanageData.tsx:31-38 | a fresh screen keeps the route position and has empty texts, open on weekends and no images |
| MobileOrphanageData.OrphanageData.SetName | mobile/src/pages/CreateOrphanage/OrphanageData.tsx:98 | the new draft is the old one with the name edit applied, so nothing else changes |
| MobileOrphanageData.OrphanageData.SetAbout | mobile/src/pages/CreateOrphanage/OrphanageData.tsx:106 | the new draft is the old one with the about edit applied |
| MobileOrphanageData.OrphanageData.SetInstructions | mobile/src/pages/CreateOrphanage/OrphanageData.tsx:137 | the new draft is the old one with the instructions edit applied |
| MobileOrphanageData.OrphanageData.SetOpeningHours | mobile/src/pages/CreateOrphanage/OrphanageData.tsx:144 | the new draft is the old one with the opening-hours edit applied |
| MobileOrphanageData.OrphanageData.SetOpenOnWeekends | mobile/src/pages/CreateOrphanage/OrphanageData.tsx:153 | the new draft is the old one with the weekend flag set to the switch value |
| MobileOrphanageData.OrphanageData.HandleSelectImages | mobile/src/pages/CreateOrphanage/OrphanageData.tsx:67-88 | permission not granted: one alert with the gallery message and the draft unchanged; picker cancelled: no effect and the draft unchanged; otherwise the picked URI is appended to the images |
| MobileOrphanageData.OrphanageData.BuildPayload | mobile/src/pages/CreateOrphanage/OrphanageData.tsx:42-60 | the appended body equals the specification body of the current draft at the route position |
| MobileOrphanageData.OrphanageData.HandleCreateOrphanage | mobile/src/pages/CreateOrphanage/OrphanageData.tsx:40-65 | the first effect is the post of the complete body to `orphanages`; navigation to OrphanagesMap follows exactly when the post resolves |
| MobileOrphanageData.PayloadKeyOrder | mobile/src/pages/CreateOrphanage/OrphanageData.tsx:46-60 | the keys are name, latitude, longitude, about, instructions, opening_hours, open_on_weekends, then `images` once per image, and nothing else |
| MobileOrphanageData.PayloadFields | mobile/src/pages/CreateOrphanage/OrphanageData.tsx:42-52 | each scalar key reads back as its draft field, the route position's formatted coordinates, and "true" or "false" for the weekend flag |
| MobileOrphanageData.PayloadImages | mobile/src/pages/CreateOrphanage/OrphanageData.tsx:54-60 | the `images` parts are one per image in list order; part k is named image_k, typed image/jpg and carries images[k] |
| MobileOrphanageData.ImageNamesDistinct | mobile/src/pages/CreateOrphanage/OrphanageData.tsx:54-56 | image parts at different indices have different names |
| WebCreateOrphanage.Previews | web/src/pages/CreateOrphanage.tsx:46-48 | one preview per selected file, in order, preview i made from file i |
| WebCreateOrphanage.PayloadKeyOrder | web/src/pages/CreateOrphanage.tsx:61-71 | the keys are name, about, latitude, longitude, instructions, opening_hours, open_on_weekends, then `images` once per file, and nothing else |
| WebCreateOrphanage.PayloadFields | web/src/pages/CreateOrphanage.tsx:57-67 | each scalar key reads back as its draft field, "true" or "false" for the weekend flag, and the clicked coordinates, or 0 for both when there was no click |
| WebCreateOrphanage.PayloadImages | web/src/pages/CreateOrphanage.tsx:69-71 | the `images` parts are exactly the selected files, in order |
| WebCreateOrphanage.MissingPositionPostsOrigin | web/src/pages/CreateOrphanage.tsx:57 | the body posted without a click is the body posted for a click at (0, 0) |
| WebCreateOrphanage.CreateOrphanage.constructor | web/src/pages/CreateOrphanage.tsx:18-26 | a fresh page has no position, empty texts, open on weekends, and no files or previews |
| WebCreateOrphanage.CreateOrphanage.HandleMapClick | web/src/pages/CreateOrphanage.tsx:28-35 | the position becomes the clicked point whatever it was, and the draft and previews are unchanged |
| WebCreateOrphanage.CreateOrphanage.SetName | web/src/pages/CreateOrphanage.tsx:112 | the new draft is the old one with the name edit applied |
| WebCreateOrphanage.CreateOrphanage.SetAbout | web/src/pages/CreateOrphanage.tsx:117-122 | the new draft is the old one with the about edit applied; the about text stays within 300 characters |
| WebCreateOrphanage.CreateOrphanage.SetInstructions | web/src/pages/CreateOrphanage.tsx:157 | the new draft is the old one with the instructions edit applied |
| WebCreateOrphanage.CreateOrphanage.SetOpeningHours | web/src/pages/CreateOrphanage.tsx:166 | the new draft is the old one with the opening-hours edit applied |
| WebCreateOrphanage.CreateOrphanage.ChooseOpenOnWeekends | web/src/pages/CreateOrphanage.tsx:174-180 | the "Sim" button sets the weekend flag to true and changes nothing else |
| WebCreateOrphanage.CreateOrphanage.ChooseClosedOnWeekends | web/src/pages/CreateOrphanage.tsx:181-187 | the "Não" button sets the weekend flag to false and changes nothing else |
| WebCreateOrphanage.CreateOrphanage.HandleSelectImages | web/src/pages/CreateOrphanage.tsx:37-51 | a null file list changes neither list; a selection replaces the images with the selected files and the previews with their previews, so the two lists keep the same length |
| WebCreateOrphanage.CreateOrphanage.BuildPayload | web/src/pages/CreateOrphanage.tsx:55-71 | the appended body equals the specification body of the current draft and position state |
| WebCreateOrphanage.CreateOrphanage.HandleSubmit | web/src/pages/CreateOrphanage.tsx:53-78 | the first effect is the post of the complete body to `orphanages`; the success alert and then the push of `/app` follow exactly when the post resolves |

## Left out

- The rendering of both screens is not modelled: JSX, styles, the map and tile configuration, and the Mapbox token URL. None of it changes the draft.
- `mobile/src/pages/OrphanagesMap.tsx` is not modelled. It is a static map with one fixed marker and a button that does nothing.
- The position-picking screen that feeds the mobile route parameter is not part of this model. The mobile form takes the position as given.
- The network, navigation, alert and history calls are not modelled as I/O. They are recorded as `Effect` values. The server's answer is reduced to whether the post resolves.
- The permission request and the image picker are foreign asynchronous calls. Their outcomes are arguments, and the picker is only consulted once permission is granted.
- `String(number)` is an abstract parameter, so the model says nothing about how a float is rendered. `URL.createObjectURL` is an abstract parameter too, so the model does not capture that each call makes a fresh URL.
- Asynchronous suspension and React's state batching are not modelled. Each handler runs as one step on the current state, so the stale closure a concurrent image pick could read is not captured.
- `event.preventDefault()` in the web submit handler is not modelled. It concerns the browser's form navigation, not the draft.
- The `Orphanage` interface in the mobile file is not modelled. Nothing uses it.
- WebCreateOrphanage.CreateOrphanage.SetAbout: requires the text to be within the 300-character `maxLength`. The browser enforces that cap, not the handler.
