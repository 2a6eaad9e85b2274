# Church self-service totem: a Dafny model

This project models the logic of a church self-service kiosk ("totem"). The
kiosk takes tithes and offerings, shows service schedules and announcements,
and runs a point-of-sale (POS) screen for the canteen and bookshop. A
passcode-protected administration panel edits the content. The model has
three parts:

- **The content store.** Four record collections (schedules, announcements,
  products, offer categories) and the payment configuration. Each collection
  has `add` (append under a generated id), `remove` (filter by id) and
  `update` (merge a `Partial<T>` into the record with that id). The
  configuration has `updatePaymentConfig`. The store starts with built-in
  contents.
- **The kiosk flow.** The eleven screens and the flow record: chosen category
  and offer type, amount buffer, CPF flag, passcode buffer and its error, and
  the POS cart. It covers the two keypad buffers, `goBack`, the admin login,
  the POS cart with its total and checkout, and the simulated payment.
- **The admin form controller.** For each collection there is a draft and an
  editing marker, with save (validate, then update or add), edit, confirmed
  delete, cancel and the tab buttons. There is also the configuration form.

The modules follow that structure:

- `Records`: the records, their patches and the merge performed by `{ ...r, ...p }`.
- `Collection`: the generic `add`/`remove`/`update`.
- `Store`: the store, its initial contents and the configuration update.
- `Numerals`: `parseInt` and `toString` on decimal numerals.
- `Keypad`: the digit buffers.
- `Cart`: the POS cart.
- `Kiosk`: the screen flow.
- `Editor`: the generic form controller.
- `Admin`: the panel.
- `Totem`: the whole application, with the kiosk and the panel sharing one store.

Records are `Keyed(id, fields)`, so the fields part is the `Omit<T, 'id'>`
that `add` takes. A `Partial<T>` is a `Patch` whose id and fields are all
`Option`s, and an absent field leaves the record's value alone. The form
controller is written once over a `Kind`. A `Kind` bundles one entity's
validation, field merge, record-to-draft loading, empty patch and default
draft. The four instances are proved `Lawful`, and that is all the
controller's proofs need.

JavaScript truthiness is kept where the code relies on it:

- an empty text field fails validation;
- a product price of `0` fails validation, while a negative price passes;
- an editing marker of `""` counts as "not editing": a valid save then adds a record, and, as in the code, leaves the marker set;
- `parseInt` of text without digits is `NaN`, modelled as `None`, which fails
  every check it meets.

## Model

| member | source | states |
|---|---|---|
| Records.MergeRecord | src/AppContext.tsx:77 | Merging a patch keeps the record's id when the patch has no id, and takes the patch's id when it has one. |
| Records.CompleteSchedule | src/Admin.tsx:50 | A schedule draft is accepted exactly when day, time and title are all non-empty, and the accepted record loads back into the same draft. |
| Records.CompleteAnnouncement | src/Admin.tsx:95 | An announcement draft is accepted exactly when title, date and description are non-empty and a type is set, and the accepted record loads back into the same draft. |
| Records.CompleteProduct | src/Admin.tsx:140 | A product draft is accepted exactly when it has a non-empty name, a price other than 0 and a category, and the accepted record loads back into the same draft. |
| Records.CompleteOfferCategory | src/Admin.tsx:185 | An offer-category draft is accepted exactly when its title is non-empty, and the accepted record loads back into the same draft. |
| Records.ScheduleKindLawful | src/AppContext.tsx:76-78 | For schedules, the empty patch changes nothing, a loaded record overwrites every field, and an accepted draft determines the merged record. |
| Records.AnnouncementKindLawful | src/AppContext.tsx:88-90 | The same laws hold for announcements. |
| Records.ProductKindLawful | src/AppContext.tsx:100-102 | The same laws hold for products. |
| Records.OfferCategoryKindLawful | src/AppContext.tsx:112-114 | The same laws hold for offer categories. |
| Collection.Add | src/AppContext.tsx:68-70 | Add yields exactly one more record, at the end, with the given fields and the new id. Earlier records are unchanged and in order. A fresh id keeps the ids distinct. |
| Collection.Remove | src/AppContext.tsx:72-74 | Every surviving record was in the collection and has a different id. Every record with a different id survives. An absent id changes nothing. |
| Collection.RemoveLeavesNoId | src/AppContext.tsx:73 | After removing an id, no record carries it. |
| Collection.RemoveDistinct | src/AppContext.tsx:72-74 | Remove keeps the ids distinct. |
| Collection.RemoveCount | src/AppContext.tsx:72-74 | On a collection with distinct ids, removing a present id deletes exactly one record. |
| Collection.RemoveConcat | src/AppContext.tsx:73 | Filtering distributes over concatenation, so the survivors keep their original order. |
| Collection.RemoveIdempotent | src/AppContext.tsx:72-74 | Removing the same id twice is the same as removing it once. |
| Collection.RemoveUndoesAdd | src/AppContext.tsx:68-74 | Removing the id that an add just generated restores the collection. |
| Collection.Update | src/AppContext.tsx:76-78 | Length and order are kept. Records with another id are unchanged. The matching records become the merge of the record with the patch. |
| Collection.UpdateAbsentIsNoop | src/AppContext.tsx:76-78 | An update on an absent id changes nothing. |
| Collection.UpdateKeepsIds | src/AppContext.tsx:77 | A patch without an id, or with the target's own id, leaves every id in place and keeps the ids distinct. |
| Collection.UpdateEmptyPatchIsIdentity | src/AppContext.tsx:77 | An empty patch leaves the collection unchanged. |
| Store.Initial | src/AppContext.tsx:27-59 | The built-in collections have pairwise-distinct ids and every built-in product price is positive. There are 4 schedules, 3 announcements, 6 products and 2 offer categories. |
| Store.UpdatePaymentConfig | src/AppContext.tsx:116-118 | Exactly the supplied configuration fields are replaced and the others are kept. No collection changes. |
| Store.UpdatePaymentConfigLaws | src/AppContext.tsx:116-118 | A full patch makes the configuration equal to it. The empty patch is the identity. |
| Numerals.LeadingDigits | src/App.tsx:313 | The digit prefix that `parseInt` reads is all digits and is followed by a non-digit or by the end. |
| Numerals.ParseInt | src/App.tsx:313 | `parseInt`: the empty string and a string that starts with neither a digit nor `-` give `NaN` (`None`). A leading digit gives a non-negative number, and only a leading `-` can give a negative one. With ParseIntOfDigits and ParseIntOfIntToString it reads digit strings and `toString` output back exactly. |
| Numerals.NatToString | src/App.tsx:417 | `toString` of a natural number is a canonical numeral: digits only, with no leading zero. |
| Numerals.IntToString | src/App.tsx:417 | `toString` of an integer is a canonical numeral, after a `-` when the number is negative. ParseIntOfIntToString reads it back as the same integer. |
| Numerals.ValueOfNatToString | src/App.tsx:417 | The numeral of n spells n. |
| Numerals.NatToStringOfValue | src/App.tsx:417 | Every canonical numeral is the numeral of the number it spells, so the two are inverse bijections. |
| Numerals.LeadingDigitsOfDigits | src/App.tsx:313 | `parseInt` reads a string made only of digits in full. |
| Numerals.ParseIntOfDigits | src/App.tsx:313 | `parseInt` of a non-empty digit string is the number it spells. |
| Numerals.ParseIntOfIntToString | src/App.tsx:417 | `parseInt(n.toString())` is n for every integer n. |
| Keypad.PressAmount | src/App.tsx:44-49 | A full buffer (8 or more characters) is unchanged, and the keypad never grows a buffer past 8. A canonical buffer stays canonical. Below 8 digits the value becomes 10·old + d. |
| Keypad.BackspaceAmount | src/App.tsx:51-56 | The result is never empty. A buffer of length at most 1 gives "0". Otherwise the last character is dropped, the value is divided by 10 and the buffer stays canonical. |
| Keypad.BackspaceUndoesPress | src/App.tsx:44-56 | On a non-empty buffer shorter than 8, backspace after a digit press restores the buffer. |
| Keypad.PressPasscode | src/App.tsx:104-109 | Below 6 digits the digit is appended. From 6 on the buffer is unchanged, so it never exceeds 6. |
| Keypad.BackspacePasscode | src/App.tsx:111-113 | Backspace on an empty buffer stays empty. Otherwise it drops exactly the last digit. |
| Keypad.TypePasscodeKeepsFirstSix | src/App.tsx:104-109 | Typing any digits keeps exactly the first six of the buffer followed by the typed digits. |
| Cart.Total | src/App.tsx:414 | The cart total, `reduce` of price times quantity over the lines. TotalNonNegative, BumpTotals, AddToCartTotals and AddFromCatalogue fix how it moves when products are added. |
| Cart.ItemCount | src/App.tsx:468 | The footer's item count, `reduce` of the quantities. ItemCountAtLeastLines, BumpTotals and AddToCartTotals show it counts every line and rises by one per add. |
| Cart.TotalNonNegative | src/App.tsx:414 | A cart with no negative price or quantity has a non-negative total. |
| Cart.ItemCountAtLeastLines | src/App.tsx:468 | With positive quantities the item count is at least the number of lines. |
| Cart.Bump | src/App.tsx:408 | Only the lines with the product's id get their quantity raised by one. The others are unchanged. |
| Cart.AddToCart | src/App.tsx:404-412 | A product already in the cart raises only its own quantity. A new product is appended with quantity 1. Distinct ids and positive quantities are preserved. |
| Cart.BumpTotals | src/App.tsx:414 | Bumping raises the total by the bumped lines' prices and the item count by their number. |
| Cart.AddToCartTotals | src/App.tsx:404-414 | Adding raises the item count by one. It raises the total by the product's price for a new line, or by the existing line's price. |
| Cart.AddFromCatalogue | src/App.tsx:404-414 | For a cart taken from a catalogue with distinct ids, adding a product raises the total by exactly its price, and the cart still comes from the catalogue. |
| Kiosk.GoBack | src/App.tsx:66-91 | Back always leads to Home, OfferType, ValueInput or PaymentMethod. From ValueInput it leads Home exactly when the category is the tithe. Off Home it strictly shortens the distance to Home. |
| Kiosk.Shown | src/App.tsx:117-547 | Which controls each screen renders and enables. The processing screen only waits for its timer, the success screen only offers the way back to the start, and the dashboard's only kiosk control is logout. |
| Kiosk.Handle | src/App.tsx:93-419 | The effect of each kiosk handler. The cart changes only when the POS screen opens or a product is tapped. The passcode changes only on the login keypad and submit. The amount changes only on the amount keypad, at checkout and on reset. The category changes only on the tithe and offering buttons and on reset. |
| Kiosk.Step | src/App.tsx:93-102 | An event whose control is not on screen changes nothing. The dashboard is entered only by submitting the passcode "123456" on the login screen. |
| Kiosk.ProcessingStatus | src/App.tsx:352-360 | The status names the card machine's address when the integration is enabled. Otherwise it is the generic message, which it never is when enabled. |
| Kiosk.ResetFlow | src/App.tsx:58-64 | Reset restores Home, "", "", "0" and false, and leaves the passcode buffer, its error and the cart alone. |
| Kiosk.SubmitPasscode | src/App.tsx:93-102 | The dashboard opens exactly when the buffer is "123456". Both paths clear the buffer. Success clears the error. Failure shows the error and keeps the screen. |
| Kiosk.StartInv | src/App.tsx:29-35 | The start state satisfies the flow invariant. |
| Kiosk.StepInv | src/App.tsx:402-412 | Every event keeps the invariant: passcode within 6 digits, OfferType never with the tithe, distinct cart lines with positive quantities, and on the POS screen the catalogue's prices. |
| Kiosk.RunInv | src/App.tsx:402-412 | The invariant holds after any sequence of events. |
| Kiosk.BackUndoesForward | src/App.tsx:66-91 | The back button returns to the screen that every forward move except checkout came from. |
| Kiosk.CheckoutThenBack | src/App.tsx:416-419 | Checkout goes to PaymentMethod, and back from there goes to ValueInput, not to the POS. |
| Kiosk.BackReachesHome | src/App.tsx:66-91 | At most four back presses reach Home from any screen. |
| Kiosk.TitheAndOffering | src/App.tsx:128-141 | The tithe goes to ValueInput with the tithe as offer type, and back returns Home. The offering goes to OfferType, where a category becomes the offer type, and back returns to OfferType. |
| Kiosk.ConfirmIffPositive | src/App.tsx:312-314 | On a keypad amount, confirm reaches PaymentMethod exactly when the amount is positive. Otherwise nothing changes. |
| Kiosk.PaymentIsSimulated | src/App.tsx:331-343 | PIX, debit and credit lead to the same state (Processing), and the timer then always gives Success. |
| Kiosk.CheckoutAmount | src/App.tsx:416-419 | After checkout the amount buffer reads back through `parseInt` as the cart total in cents. |
| Kiosk.PasscodeLogin | src/App.tsx:93-113 | Six digits typed on an empty buffer enable submit. Submitting opens the dashboard exactly when they are "123456", otherwise shows the error, and always clears the buffer. |
| Editor.SaveDraft | src/Admin.tsx:49-63 | An invalid draft changes nothing and raises the error. A valid one resets the draft. With a truthy marker, the record with that id becomes `{ ...record, ...draft }`, every other record is unchanged and the marker is cleared. With a falsy marker, `{ ...draft, id: newId }` is appended and the marker is left as it was. |
| Editor.EditRecord | src/Admin.tsx:65-69 | The marker and the draft's id become the record's id, and the draft is the loaded record. |
| Editor.Step | src/Admin.tsx:284-301 | Typing replaces the draft's fields and keeps its id, the marker and the collection. Cancel resets the form and keeps the collection. Edit leaves the collection alone. Only a save or a confirmed delete can change the collection. |
| Editor.DeleteRecord | src/Admin.tsx:71-91 | Only a confirmed delete removes the id. It resets the form when it removes the record being edited and otherwise leaves the form alone. |
| Editor.EmptyMarkerSurvivesAdd | src/Admin.tsx:51-59 | With a marker of `""`, a valid save appends a record and keeps the marker. A later confirmed delete of the id `""` then matches the marker and resets the form (lines 85-88). |
| Editor.SaveProvenance | src/Admin.tsx:49-63 | After a save, every record is an old one or carries exactly the validated draft's fields. |
| Editor.SaveInv | src/Admin.tsx:49-63 | A save with a fresh generated id keeps the invariant. Updated and added records are acceptable to the form, and the ids stay distinct. |
| Editor.DeleteInv | src/Admin.tsx:71-91 | A delete keeps the invariant. The marker survives only when it names another record, and that record is kept. |
| Editor.StepInv | src/Admin.tsx:65-91 | Save, edit, delete, cancel and typing keep the invariant: distinct ids, every record acceptable to its form, a non-null marker (even `""`) that names a present record, and a draft id, when set, equal to the marker. |
| Editor.EditThenSave | src/Admin.tsx:49-69 | For a record with a non-empty id, saving its unchanged edit form changes no record and closes the edit. |
| Editor.DeleteEditedThenSaveAdds | src/Admin.tsx:82-88 | Deleting the record being edited clears the marker, so the next valid save adds a record. |
| Admin.Open | src/Admin.tsx:12-34 | The panel mounts on the schedules tab with no edit in progress and the configuration form seeded from the store. |
| Admin.Select | src/Admin.tsx:241-269 | A tab button activates its tab and resets that tab's form. The configuration tab resets nothing, and every other form and the store are untouched. |
| Admin.SaveConfiguration | src/Admin.tsx:36-46 | Saving makes the stored configuration equal to the form, re-seeds the form with it and leaves every collection alone. |
| Admin.Step | src/Admin.tsx:13-19 | Each event touches only its own collection. The configuration changes only on save, and then to the form. |
| Admin.InvMeansValidStore | src/Admin.tsx:139-153 | The panel invariant implies a well-formed store in which every record has its required fields (products a non-zero price). Such a store opens into a panel that satisfies the invariant. |
| Admin.InitialRecordsValid | src/AppContext.tsx:27-52 | Every built-in record has the fields its form requires, and every built-in product a non-zero price. |
| Admin.OpenInitial | src/AppContext.tsx:27-59 | The panel opened on the built-in contents satisfies the invariant. |
| Admin.StepInv | src/Admin.tsx:241-269 | Every enabled panel event keeps the invariant, in particular that every set editing marker, `""` included, names an existing record. |
| Admin.RunInv | src/Admin.tsx:82-88 | After any enabled session the store is well formed and all its records are valid. |
| Admin.TypePrice | src/Admin.tsx:433 | Typing the price changes only the draft's price, to `parseInt` of the text. |
| Admin.TypedPriceAccepted | src/Admin.tsx:140 | A typed price passes validation exactly when it reads as a non-zero number: "0" and text without digits are refused, while "-5" is accepted. |
| Admin.SaveConfigIdempotent | src/Admin.tsx:43-46 | Saving the configuration stores the form, and a second save changes nothing. |
| Admin.SelectTabCancelsEdit | src/Admin.tsx:242 | Leaving the schedules tab and coming back discards a schedule edit in progress without touching the store. |
| Totem.Boot | src/AppContext.tsx:61-66 | The application starts with the built-in store and the kiosk's start state. |
| Totem.Step | src/App.tsx:541 | Kiosk events never write the store. Entering the dashboard mounts a fresh panel on the current store. Panel events count only while the dashboard shows. |
| Totem.BootInv | src/AppContext.tsx:61-66 | The boot state satisfies the application invariant. |
| Totem.StepInv | src/App.tsx:541 | Every enabled kiosk or panel event keeps the application invariant. |
| Totem.RunInv | src/App.tsx:541 | Any session keeps the invariant, so the kiosk only offers valid products and categories with distinct ids. |
| Totem.SavedConfigReachesKiosk | src/App.tsx:349-360 | A configuration saved on the dashboard is what the processing screen shows afterwards, including the saved address. |
| Totem.PanelNeedsLogin | src/App.tsx:541 | Panel events are ignored unless the dashboard is showing. |

## Left out

- Rendering, styling, icons and animations are not modelled. They are presentation only.
- SweetAlert2 dialogs are not modelled as UI. An alert is the `Alert` tag an action returns, and the delete dialog's answer is the `confirmed` input of `Delete`.
- `window.scrollTo` is not modelled. It has no effect on state.
- The four-second processing timer is the explicit `TimerFired` event. Its cancellation on unmount does not exist in a model without timers.
- Ids generated with `Math.random().toString(36)` are not modelled. The new id is the `newId` parameter of `Add` and `SaveDraft`. The application never checks it for collisions, so the invariants assume it is fresh (`Editor.Enabled`).
- Currency display (`toLocaleString`, the floating-point `/ 100`) is not modelled. Amounts are kept as integer cents.
- JavaScript number precision is not modelled. Integers are unbounded.
- Numerals.ParseInt: leading white space, a `+` sign and `0x` prefixes are not modelled. The keypad cannot produce them. The product form's price input has `type="number"`, and the browser passes it only a valid number or an empty string.
- React hook mechanics are not modelled. This covers setter closures, effect dependency arrays and the context-lookup error of `useAppData`, which do not affect the logic.
- The configuration form's effect, which copies the stored configuration into the form, runs only after `SaveConfig`. That is the one event that changes the stored configuration.
- Typing in a form is one `Type` action that replaces every draft field, rather than one field per keystroke. Any draft a sequence of keystrokes can produce is reachable this way.
- Form actions for one collection are accepted whatever tab is active. This is a superset of what the screen allows, so every invariant still covers the real application.
- The "Cancel" button is shown only while editing. The model accepts `Cancel` at any time, with the same reset as the button.
- The POS cart is state of the POS screen itself, so it is lost when the screen closes. The model empties it whenever the POS screen is opened.
- The processing screen shows the card-machine message for every payment method, PIX included, although the code's comment speaks of card payments. The model follows the code.
- The Processing case of `goBack` is modelled, but the back button is not shown on that screen, so it cannot be reached.
- Tab switches: a tab button resets the form of the tab it selects, not the form of the tab being left. This is what the code does, so switching away from a tab keeps that tab's draft until the tab is selected again.
- Kiosk invariants about amounts hold for keypad input only. A product saved with a negative price makes a checkout write a negative numeral into the amount buffer.
