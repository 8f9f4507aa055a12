# Hue Harmony core, modelled in Dafny

Hue Harmony is a browser tool that generates five-colour palettes, previews
Google Fonts, and lets a signed-in user keep up to five palettes and five
fonts. This project models the parts of it that hold logic:

- **Palette generator** (`color_utils.dfy`, module `ColorUtils`). It derives
  five colours from a base colour by one of five schemes: analogous, triadic,
  complementary, split-complementary and monochromatic. It sorts them by
  luminance, and `generatePalette` wraps the result with a randomly picked
  scheme and metadata. The colour library stays abstract. A colour is any
  value of a type `C`, and the library's operations (parse, hue, set hue,
  brighten, darken, luminance, hex, contrast) are the fields of a
  `ColorLib<C>` record. The model assumes nothing about them. Hue offsets use
  JavaScript's truncated remainder (`JsSemantics.JsRem`), so
  `(h - 30) % 360` is negative for a hue below 30. The sort is
  `Array.prototype.sort`, which is stable, so it is modelled as a stable
  insertion sort by luminance.
- **Per-user preference store** (`preference_store.dfy`, module
  `PreferenceStore`). Saving, listing and deleting palettes and fonts over a
  per-user document collection capped at five. A class `Store` holds a map from
  user to that user's documents. A counter stands for the database's generator
  of fresh document identifiers.
- **Sign-in panel** (`auth_screen.dfy`, module `AuthScreen`). This covers the
  table from identity-provider error codes to messages, and the panel's
  `mode`/`error`/`isLoading`/`email`/`password` state as its handlers change
  it. Each handler receives the outcomes of the provider calls it awaits as
  parameters. The panel records the calls it makes in `requests`, so that
  "no account is created" can be stated.
- **Font picker** (`font_picker.dfy`, module `FontPicker`). This covers the
  top-50 catalog, the stylesheet address built with a first-space-only
  `replace`, and the picker's state. The document head is a list of
  stylesheet addresses that grows by one per selection.

`wrappers.dfy` holds `Option` and `Result`. `js_semantics.dfy` holds
JavaScript's `%` and the `Math.floor(Math.random() * n)` index.

Two facts about the code are worth stating plainly:

- The analogous scheme rotates the hue by -30, +30, +60 and +90 degrees
  (src/utils/colorUtils.js:19-23).
- Fonts are kept as a capped list of up to five per user
  (src/utils/firestoreUtils.js:62-118).

## Model

| member | source | states |
|---|---|---|
| JsSemantics.JsRem | src/utils/colorUtils.js:19-23 | `%` as JavaScript computes it: the sign of the dividend, magnitude below the divisor, the Euclidean remainder for non-negative dividends |
| JsSemantics.JsRemSameAngle | src/utils/colorUtils.js:19 | modulo 360 the truncated remainder names the same angle as the dividend; a negative result is the Euclidean remainder minus 360 |
| JsSemantics.RandomIndex | src/utils/colorUtils.js:80 | `Math.floor(Math.random() * n)` is an index in [0, n) for a non-empty list, and 0 for an empty one |
| JsSemantics.RandomIndexReaches | src/components/FontPicker.js:43 | every index of a non-empty list is drawn by some value in [0, 1) |
| ColorUtils.SchemeOf | src/utils/colorUtils.js:3-9 | a name selects a scheme exactly when it is that scheme's name; any other name selects none |
| ColorUtils.SchemeName | src/utils/colorUtils.js:3-9 | each scheme's name is the `COLOR_SCHEMES` value at the scheme's place in the table |
| ColorUtils.SchemeNamesRoundTrip | src/utils/colorUtils.js:79 | every scheme's name selects that scheme, and every scheme is in the list the random pick draws from |
| ColorUtils.Rotated | src/utils/colorUtils.js:19-54 | `base.set('hsl.h', (baseHue + k) % 360)`: for a non-negative sum the hue set is the sum modulo 360; for a negative sum off a whole turn it is that angle minus 360, as JavaScript's remainder gives |
| ColorUtils.HueOffsets | src/utils/colorUtils.js:16-66 | each scheme rotates by at most four offsets, each a non-zero multiple of 30 strictly between -360 and 360 |
| ColorUtils.SchemeColors | src/utils/colorUtils.js:16-66 | every scheme builds exactly five colours, one of which is the unmodified base |
| ColorUtils.HueOffsetsInRange | src/utils/colorUtils.js:16-66 | for a hue in [0, 360), every positive offset of every scheme gives a hue in [0, 360); the -30 offset gives a negative hue exactly when the hue is below 30; all name the intended angle modulo 360 |
| ColorUtils.Insert | src/utils/colorUtils.js:73 | inserting into a sorted list keeps it sorted and adds exactly that colour |
| ColorUtils.SortBy | src/utils/colorUtils.js:73 | the sort returns a permutation of its input ordered by non-decreasing luminance |
| ColorUtils.InsertKeepsTies | src/utils/colorUtils.js:73 | inserting a colour puts it before the colours of equal luminance and keeps their order |
| ColorUtils.SortByStable | src/utils/colorUtils.js:73 | the sort is stable: for every luminance, the colours with that luminance come out in their input order |
| ColorUtils.SortBySortedIsIdentity | src/utils/colorUtils.js:73 | sorting a list that is already ordered leaves it unchanged |
| ColorUtils.SortByIdempotent | src/utils/colorUtils.js:73 | sorting twice gives the same list as sorting once |
| ColorUtils.ColorScheme | src/utils/colorUtils.js:16-73 | five colours, ordered by luminance, containing the base; a permutation of the named scheme's colours, or of the complementary ones for an unknown name |
| ColorUtils.UnknownSchemeIsComplementary | src/utils/colorUtils.js:68-69 | an unknown scheme name gives exactly the complementary scheme's list, in the same order |
| ColorUtils.GenerateColorScheme | src/utils/colorUtils.js:11-73 | the base is the given string when non-empty and the random colour otherwise; the call fails exactly when a given string cannot be read; the result has five luminance-ordered colours containing the base, and is a permutation of the named scheme's colours, or of the complementary scheme's colours for an unknown name |
| ColorUtils.Hexes | src/utils/colorUtils.js:86 | the hex list has one entry per colour, in the same order |
| ColorUtils.GeneratePalette | src/utils/colorUtils.js:76-96 | there is no palette exactly when generation fails; otherwise five hex strings in sorted-colour order, the scheme at index `Math.floor(random * 5)` of the scheme list, and a base colour that is the input when one is given and the third hex string otherwise |
| ColorUtils.PicksDrawnScheme | src/utils/colorUtils.js:79-83 | whenever generation succeeds, the palette is built with the scheme at index `Math.floor(random * 5)` |
| ColorUtils.EverySchemeCanBePicked | src/utils/colorUtils.js:79-80 | each of the five schemes is picked for some value of the random number |
| ColorUtils.ValidateContrast | src/utils/colorUtils.js:98-100 | true exactly when the contrast ratio is at least 4.5; unreadable colours make the call throw |
| ColorUtils.ValidateContrastMonotone | src/utils/colorUtils.js:99 | a pair at least as contrasting as a passing pair also passes |
| PreferenceStore.Any | src/utils/firestoreUtils.js:11-14 | `some` is true exactly when some document's fields match |
| PreferenceStore.SameColors | src/utils/firestoreUtils.js:11-14 | a saved palette is a duplicate exactly when its colour list equals the new palette's, metadata ignored |
| PreferenceStore.SameFamily | src/utils/firestoreUtils.js:69-71 | a saved font is a duplicate exactly when its family equals the new font |
| PreferenceStore.PaletteErrorMessage | src/utils/firestoreUtils.js:16-22 | the message each refusal of a palette save throws: "This palette is already saved" for a duplicate, "Maximum number of palettes (5) reached" for a full collection |
| PreferenceStore.FontErrorMessage | src/utils/firestoreUtils.js:73-79 | the message each refusal of a font save throws: "This font is already saved" for a duplicate, "Maximum number of fonts (5) reached" for a full collection |
| PreferenceStore.SaveCheck | src/utils/firestoreUtils.js:16-22 | a duplicate is refused whatever the size; otherwise five or more documents are refused; a save passes only with no duplicate and fewer than five |
| PreferenceStore.Limited | src/utils/firestoreUtils.js:39 | a `limit(5)` listing is the first min(n, 5) documents in store order |
| PreferenceStore.Without | src/utils/firestoreUtils.js:52-55 | deletion keeps exactly the documents with other identifiers, and is a no-op for an absent identifier |
| PreferenceStore.WithoutKeepsUnique | src/utils/firestoreUtils.js:110-113 | deletion keeps identifiers unique within the collection |
| PreferenceStore.WithoutKeepsBound | src/utils/firestoreUtils.js:52-55 | deletion leaves only documents whose identifiers were already issued |
| PreferenceStore.WithoutRemovesOne | src/utils/firestoreUtils.js:52-55 | with unique identifiers, deleting a present identifier removes exactly one document |
| PreferenceStore.WithoutAt | src/utils/firestoreUtils.js:52-55 | with unique identifiers, deleting the document at position k gives the collection without that one document, every other document kept once and in its original order (also for fonts, lines 110-113) |
| PreferenceStore.Store.constructor | src/utils/firestoreUtils.js:6 | the initial empty database: no user has palettes (the collection of line 6) or fonts (line 64), within capacity |
| PreferenceStore.ErrorMessagesDistinguished | src/utils/firestoreUtils.js:17-21 | the two refusals of a save throw different messages, and palette messages differ from font messages (lines 74-78) |
| PreferenceStore.Store.SavePalette | src/utils/firestoreUtils.js:4-34 | a refused save leaves the store unchanged and fails with the thrown message, "This palette is already saved" before "Maximum number of palettes (5) reached"; a successful one appends exactly one document under a fresh identifier with the palette and its creation time, returns that identifier, leaves every other collection alone, and keeps every collection within five |
| PreferenceStore.Store.GetUserPalettes | src/utils/firestoreUtils.js:36-50 | exactly the first min(n, 5) of the user's n palettes, in store order, each paired with its identifier |
| PreferenceStore.Store.DeletePalette | src/utils/firestoreUtils.js:52-60 | removes the palette with that identifier if present and nothing else; an absent identifier is a no-op; capacity is kept |
| PreferenceStore.Store.SaveFont | src/utils/firestoreUtils.js:62-91 | as for palettes, with an equal family name as the duplicate test and the font messages "This font is already saved" and "Maximum number of fonts (5) reached" |
| PreferenceStore.Store.GetUserFonts | src/utils/firestoreUtils.js:93-108 | exactly the first min(n, 5) of the user's n fonts, in store order, each with its identifier, family and creation time only |
| PreferenceStore.Store.DeleteFont | src/utils/firestoreUtils.js:110-118 | removes the font with that identifier if present and nothing else; an absent identifier is a no-op |
| PreferenceStore.DuplicateReportedBeforeLimit | src/utils/firestoreUtils.js:16-22 | a full collection that holds a duplicate reports the duplicate |
| PreferenceStore.DuplicateIgnoresMetadata | src/utils/firestoreUtils.js:11-18 | saving a palette whose colours the user already saved fails with "This palette is already saved", whatever its metadata or creation time, and changes neither collection |
| AuthScreen.ErrorMessage | src/components/Auth.js:49-69 | a known code gets one of the fixed messages; any other code gets the error's own message unchanged |
| AuthScreen.ErrorMessageTable | src/components/Auth.js:50-65 | each of the eight listed codes maps to its fixed message; the unknown-user and wrong-password codes share "Invalid email or password." |
| AuthScreen.KnownCodeIgnoresMessage | src/components/Auth.js:50-65 | for a known code the message depends on the code alone |
| AuthScreen.KnownCodesDistinguished | src/components/Auth.js:50-65 | two known codes share a message exactly when they are equal or are the unknown-user and wrong-password codes |
| AuthScreen.Toggled | src/components/Auth.js:253 | the toggle never leads to the options screen and always changes the form |
| AuthScreen.ToggleTwice | src/components/Auth.js:253 | toggling twice from a form returns to it |
| AuthScreen.AuthPanel.constructor | src/components/Auth.js:17-22 | no message, loading, options screen, empty fields, no calls made |
| AuthScreen.AuthPanel.EditEmail | src/components/Auth.js:229 | typing sets the email field and nothing else |
| AuthScreen.AuthPanel.EditPassword | src/components/Auth.js:236 | typing sets the password field and nothing else |
| AuthScreen.AuthPanel.ChooseSignUp | src/components/Auth.js:214 | the sign-up button shows the sign-up form and changes nothing else |
| AuthScreen.AuthPanel.ChooseSignIn | src/components/Auth.js:217 | the sign-in button shows the sign-in form and changes nothing else |
| AuthScreen.AuthPanel.ToggleMode | src/components/Auth.js:253 | the toggle swaps the two forms and changes nothing else |
| AuthScreen.AuthPanel.BackToOptions | src/components/Auth.js:258 | "Back" shows the options screen and changes nothing else |
| AuthScreen.AuthPanel.HandleGoogleAuth | src/components/Auth.js:71-81 | clears the message and requests the redirect; a failure shows its message and ends loading |
| AuthScreen.AuthPanel.HandleEmailSignUp | src/components/Auth.js:83-115 | a registered email gives the already-registered message and the sign-in form with no account request; otherwise the account is requested; a failed verification email keeps the account and sets its own message; loading always ends |
| AuthScreen.AuthPanel.HandleEmailSignIn | src/components/Auth.js:117-131 | requests sign-in with the typed credentials; success clears the fields, failure shows the mapped message; loading ends |
| AuthScreen.AuthPanel.HandlePasswordReset | src/components/Auth.js:133-144 | an empty email sets "Please enter your email first" and requests nothing; otherwise requests a reset and reports the outcome |
| AuthScreen.AuthPanel.HandleResendVerification | src/components/Auth.js:180-187 | requests a verification email and reports the outcome |
| AuthScreen.AuthPanel.HandleSignOut | src/components/Auth.js:146-158 | a successful sign-out clears the message and returns to the options; a failure keeps the mode and shows the message; loading ends |
| AuthScreen.SignUpWithRegisteredEmail | src/components/Auth.js:90-96 | signing up with a registered email makes no account-creation call and lands on the sign-in form |
| FontPicker.TopFonts | src/components/FontPicker.js:18 | the catalog is the prefix of the fetched list of length min(n, 50) |
| FontPicker.IndexOf | src/components/FontPicker.js:29-31 | the first position of a character, or -1 exactly when it does not occur |
| FontPicker.ReplaceFirst | src/components/FontPicker.js:29-31 | replacing with a string pattern changes only the first occurrence, and changes nothing when there is none |
| FontPicker.ReplaceFirstKeepsLaterSpaces | src/components/FontPicker.js:29-31 | every space after the first one stays a space |
| FontPicker.ReplaceFirstRoundTrip | src/components/FontPicker.js:29-31 | for a name without `+`, turning the first `+` back into a space restores the name |
| FontPicker.StylesheetUrl | src/components/FontPicker.js:29-32 | the address is the fixed prefix, the encoded family and the fixed variant suffix |
| FontPicker.FamilyOfStylesheetUrl | src/components/FontPicker.js:29-32 | a family without `+` can be read back from its address |
| FontPicker.FontPickerState.constructor | src/components/FontPicker.js:8-9 | empty catalog, nothing selected |
| FontPicker.FontPickerState.LoadFonts | src/components/FontPicker.js:12-25 | a fetched list becomes its top 50; a failed fetch or parse leaves the catalog unchanged |
| FontPicker.FontPickerState.FontChange | src/components/FontPicker.js:37-40 | selects the family and appends exactly one link, without deduplication |
| FontPicker.FontPickerState.RandomFont | src/components/FontPicker.js:42-46 | with a non-empty catalog, selects the entry at an index in range; with an empty one, reading the entry throws and nothing changes |
| FontPicker.SelectTwice | src/components/FontPicker.js:37-40 | selecting a family twice links its stylesheet twice |
| FontPicker.FailedLoadLeavesCatalogEmpty | src/components/FontPicker.js:19-21 | after a failed load the catalog is empty and a random pick fails |

## Left out

- The colour library's numerics (HSL conversion, brighten, darken, luminance, contrast, hex, random colour) are floating-point code in a foreign library. They are the uninterpreted fields of `ColorLib`.
- Hues are integers. Fractional hues, and the undefined hue the library gives grey colours, are not modelled.
- `adjustLightness` (src/utils/colorUtils.js:102-105) is a one-line call into the colour library and is not modelled.
- `Math.random()` is a parameter `random` in [0, 1), and the library's random colour is a parameter.
- A missing base colour and the empty string are both falsy in the source. The model uses `""` for both.
- Failures of the document database itself (network, permissions) are not modelled. Only the store's own refusals are.
- The store's native listing order is abstracted as the order of the collection's sequence.
- `createdAt` timestamps are opaque strings that the caller supplies.
- Concurrent saves from two tabs can both pass the capacity check. The model is sequential, so this race is not represented.
- The session subscription (`onAuthStateChanged`), redirect-result recovery and the `user` object (src/components/Auth.js:24-47) are not modelled. They are an external session source, so nothing here ever ends the initial loading state except a handler.
- `e.preventDefault()`, console logging, rendering, disabled-button states and the status-colour heuristic (src/components/Auth.js:205) are not modelled. The "Resend verification" button is shown only to a signed-in, unverified user; without a user object the model does not guard it.
- The font catalog's network request and API key, and real DOM link elements, are not modelled. The head is a list of addresses.
- src/components/ColorPalette.js and src/App.js only compose and render the modelled parts and are not modelled.
