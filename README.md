# Salon website editors and page logic in Dafny

This project models the behaviour of a beauty-salon website that keeps its
content in four backend tables: `services`, `gallery`, `content` (the two
rows "home" and "about") and `social_media`. The model covers:

- the four admin editors (`ServicesManager`, `ContentManager`,
  `SocialMediaManager`, `GalleryManager`). Each is a class whose fields are
  the component's state. Its handlers are methods that take the outcome of
  the backend request as a parameter, return the request they issue and the
  toasts they show, and update the state as the component does;
- the conversions between a form draft and a table row (split and filter
  of the benefits text, `|| null`, `|| ''`, trimmed list items, removal by
  index), with round-trip and normalisation lemmas;
- the public landing page: its four queries, the state its `fetchData`
  keeps, the fallback lists and texts, the icon switch and the benefit
  block of a service card;
- the session gate of the admin page and the flag transitions of the login
  page.

Shared pieces live in `Common` (Option, request outcomes, write requests,
queries, toasts), `JsText` (JavaScript's `trim`, `split`/`join` on one
character, `toLowerCase`, and `||` on strings) and `Rows` (the row shapes).

Some facts about the code as written, which the model follows:

- The admin editor lists services newest first, and the public page lists
  them oldest first.
- A social-link submit closes the form, resets the draft and refetches
  even when the write fails, so the draft is not kept for a retry.
- No editor uploads files or removes stored images. The gallery editor
  inserts a URL string.
- Required fields are enforced only by the form's `required` attributes,
  not by the handlers. The handlers are modelled as written.

## Model

| member | source | states |
|---|---|---|
| Common.Refreshed | src/components/admin/ServicesManager.tsx:42-51 | A failed fetch keeps the previous list. A successful one gives the rows returned, or the empty list when the data is null. |
| Common.FetchNotices | src/components/admin/GalleryManager.tsx:34-43 | A failed fetch shows exactly one toast: an Error titled "Error" with the fetch's own description. A successful fetch shows none. |
| JsText.OrNull | src/components/admin/ServicesManager.tsx:59-61 | `s \|\| null` is null exactly for the empty string, and otherwise the string itself. |
| JsText.OrEmpty | src/components/admin/ContentManager.tsx:55-57 | `o \|\| ''` is '' for null, and otherwise the value. |
| JsText.OrFallback | src/pages/Index.tsx:292-296 | `o \|\| fallback` is the value when it is non-null and non-empty, and otherwise the fallback. |
| JsText.OrNullOrEmpty | src/components/admin/GalleryManager.tsx:51-54 | `\|\| null` and `\|\| ''` undo each other: on strings always, and on optionals that are never the empty string. |
| JsText.TrimStart | src/components/admin/ContentManager.tsx:106 | Drops exactly the leading whitespace: the result is a suffix, everything dropped is whitespace, and the result does not start with whitespace. |
| JsText.TrimEnd | src/components/admin/ContentManager.tsx:106 | Drops exactly the trailing whitespace: the result is a prefix, everything dropped is whitespace, and the result does not end with whitespace. |
| JsText.Trim | src/components/admin/ContentManager.tsx:106 | `trim()` gives a contiguous substring of the input that neither starts nor ends with whitespace, and everything it removes on either side is whitespace. |
| JsText.TrimSlice | src/components/admin/ContentManager.tsx:106 | The trimmed middle starts right after the leading whitespace and ends right before the trailing whitespace. |
| JsText.TrimEmptyIffBlank | src/components/admin/ContentManager.tsx:106 | A string trims to '' exactly when it is all whitespace. |
| JsText.TrimOfTrimmed | src/components/admin/ContentManager.tsx:108-110 | A string with no whitespace at either end trims to itself. |
| JsText.TrimIdempotent | src/components/admin/ContentManager.tsx:108-110 | Trimming twice is trimming once. |
| JsText.Split | src/components/admin/ServicesManager.tsx:62 | `split('\n')` gives at least one part, and no part contains the separator. |
| JsText.JoinSplit | src/components/admin/ServicesManager.tsx:62 | Joining the parts of a split with the same separator gives back the string. |
| JsText.SplitWithoutSeparator | src/components/admin/ServicesManager.tsx:62 | A string without the separator splits into itself alone. |
| JsText.SplitAfterPart | src/components/admin/ServicesManager.tsx:62 | A separator-free part followed by the separator comes out as the first part. |
| JsText.SplitThreeParts | src/components/admin/ServicesManager.tsx:62 | Three separator-free parts joined by two separators split back into those three parts. |
| JsText.SplitJoin | src/components/admin/ServicesManager.tsx:118 | Splitting the join of separator-free parts gives back the parts. |
| JsText.SplitBlank | src/components/admin/ServicesManager.tsx:62 | Every part of an all-whitespace string is blank. |
| JsText.JoinNonEmpty | src/components/admin/ServicesManager.tsx:118 | Joining a list whose first part is not blank gives a non-empty string. |
| JsText.KeepNonBlank | src/components/admin/ServicesManager.tsx:62 | `filter(b => b.trim())` keeps exactly the non-blank lines and never grows the list. |
| JsText.KeepNonBlankCons | src/components/admin/ServicesManager.tsx:62 | The filter keeps the first line exactly when it is not blank, in front of the filtered rest. |
| JsText.KeepNonBlankCounts | src/components/admin/ServicesManager.tsx:62 | Each non-blank line is kept as often as it occurs, and each blank one never. |
| JsText.KeepNonBlankOne | src/components/admin/ServicesManager.tsx:62 | A single line is kept exactly when it is not blank. |
| JsText.KeepNonBlankAppend | src/components/admin/ServicesManager.tsx:62 | Filtering a concatenation gives the concatenation of the filtered parts, so the kept lines keep their order. |
| JsText.KeepNonBlankNoBlank | src/components/admin/ServicesManager.tsx:62 | A list with no blank line is kept whole. |
| JsText.KeepNonBlankDropsMiddle | src/components/admin/ServicesManager.tsx:62 | A blank line between two non-blank ones is dropped. |
| JsText.LowerChar | src/pages/Index.tsx:179 | A-Z lower to a-z. The Kelvin sign lowers to 'k'. Every other character is kept. |
| JsText.ToLower | src/pages/Index.tsx:179 | The model's lower-casing lowers each character on its own with `LowerChar`, so it keeps the length. |
| JsText.ToLowerIgnoresAsciiCase | src/pages/Index.tsx:179 | Strings that differ only in the case of ASCII letters lower to the same string. |
| JsText.ToLowerIdempotent | src/pages/Index.tsx:179 | Lower-casing twice is lower-casing once. |
| ServicesEditor.BenefitsFromText | src/components/admin/ServicesManager.tsx:62 | Empty text gives null. Otherwise the list holds each non-blank line as often as it occurs, no blank line, and no newline in any entry. |
| ServicesEditor.BenefitsOneLine | src/components/admin/ServicesManager.tsx:62 | A single non-empty line is one benefit, or none when it is blank. |
| ServicesEditor.BenefitsFirstLine | src/components/admin/ServicesManager.tsx:62 | The benefits of a text are those of its first line, in front of those of the rest, so the list follows the order of the lines. |
| ServicesEditor.BenefitsToText | src/components/admin/ServicesManager.tsx:118 | A null or empty list edits as empty text. A non-empty list of single-line entries splits back into itself. |
| ServicesEditor.ToPayload | src/components/admin/ServicesManager.tsx:57-63 | The name is kept verbatim. Each optional text is null exactly when empty and verbatim otherwise. The benefits are the list `BenefitsFromText` builds from the text, null exactly when the text is empty. |
| ServicesEditor.ToDraft | src/components/admin/ServicesManager.tsx:112-121 | The name is copied. Each optional text is copied when present and reads as '' when null. The benefits text is the lines of the list joined by newlines, or '' for null. |
| ServicesEditor.EditSubmitRoundTrip | src/components/admin/ServicesManager.tsx:57-63 | Editing a row that the editor can reproduce and submitting it unchanged writes back the same row, except that an empty benefits list comes back as null. |
| ServicesEditor.SubmitEditRoundTrip | src/components/admin/ServicesManager.tsx:112-121 | A submitted draft with no blank benefit line reads back as the same draft on edit. |
| ServicesEditor.AllBlankBenefits | src/components/admin/ServicesManager.tsx:62 | Non-empty benefits text made only of whitespace stores an empty list, not null. |
| ServicesEditor.BenefitsExample | src/components/admin/ServicesManager.tsx:62 | "Deep cleansing\n\nGlow" stores ["Deep cleansing", "Glow"]. |
| ServicesEditor.NameOnlyExample | src/components/admin/ServicesManager.tsx:57-63 | A draft with only a name stores nulls for every other field. |
| ServicesEditor.ServicesManager.constructor | src/components/admin/ServicesManager.tsx:21-29 | The editor starts with no rows, no edit and an all-empty draft. |
| ServicesEditor.ServicesManager.FetchServices | src/components/admin/ServicesManager.tsx:36-52 | Issues the newest-first query. The list is refreshed (a failure keeps it). The edit and the draft are untouched. A failure shows one toast. |
| ServicesEditor.ServicesManager.ResetForm | src/components/admin/ServicesManager.tsx:146-154 | The draft goes back to all-empty strings, and nothing else changes. |
| ServicesEditor.ServicesManager.HandleSubmit | src/components/admin/ServicesManager.tsx:54-110 | Updates the row being edited, or inserts. Failure: state unchanged and one error toast. Success: draft reset, a non-empty edit id cleared, list refetched, and the matching success toast. |
| ServicesEditor.ServicesManager.HandleEdit | src/components/admin/ServicesManager.tsx:112-121 | Opens the row for editing with `ToDraft` of it, and leaves the list unchanged. |
| ServicesEditor.ServicesManager.HandleDelete | src/components/admin/ServicesManager.tsx:123-144 | Deletes by id. The list is refetched only on success. The edit and the draft are kept. The toasts are exact. |
| ServicesEditor.ServicesManager.Cancel | src/components/admin/ServicesManager.tsx:196-202 | No edit and an empty draft, with no request and the list unchanged. |
| ContentEditor.DraftFromRow | src/components/admin/ContentManager.tsx:52-60 | Null texts become '' and others are copied. A null list becomes the empty list. |
| ContentEditor.BuildPatch | src/components/admin/ContentManager.tsx:67-76 | Title and body are sent verbatim. The philosophy and the list are sent exactly when the row is "about". |
| ContentEditor.EditSubmitNormalises | src/components/admin/ContentManager.tsx:52-76 | Editing a row and submitting it unchanged writes its texts back with null turned into '', and touches philosophy and list only for "about". |
| ContentEditor.AddItem | src/components/admin/ContentManager.tsx:105-113 | The trimmed input is appended and the input cleared exactly when it trims to non-empty. Otherwise nothing changes. |
| ContentEditor.WithoutIndex | src/components/admin/ContentManager.tsx:115-120 | Drops exactly the element at an in-range index and keeps the rest in order. An index out of range drops nothing. |
| ContentEditor.RemoveExample | src/components/admin/ContentManager.tsx:115-120 | Removing index 0 of ["A", "B"] gives ["B"]. |
| ContentEditor.AddKeepsTrimmed | src/components/admin/ContentManager.tsx:105-113 | Adding keeps a list of non-empty trimmed points non-empty and trimmed. |
| ContentEditor.RemoveKeepsTrimmed | src/components/admin/ContentManager.tsx:115-120 | Removing keeps a list of non-empty trimmed points non-empty and trimmed. |
| ContentEditor.ContentManager.constructor | src/components/admin/ContentManager.tsx:20-28 | The editor starts with no rows, no edit, an empty draft and an empty input. |
| ContentEditor.ContentManager.FetchContent | src/components/admin/ContentManager.tsx:35-50 | Issues the "home"/"about" query. The list is refreshed (a failure keeps it) and shows one toast on failure. |
| ContentEditor.ContentManager.HandleEdit | src/components/admin/ContentManager.tsx:52-60 | Opens the row with `DraftFromRow` of it. |
| ContentEditor.ContentManager.HandleSubmit | src/components/admin/ContentManager.tsx:62-98 | With no open edit: no request and nothing changes. Otherwise updates the row with `BuildPatch`. Failure keeps the edit and the draft. Success clears both and refetches. The toasts are exact. |
| ContentEditor.ContentManager.HandleCancel | src/components/admin/ContentManager.tsx:100-103 | No edit and an empty draft, with no request. |
| ContentEditor.ContentManager.AddWhatSetsApart | src/components/admin/ContentManager.tsx:105-113 | The draft's list and the input become `AddItem` of them, and the rest of the draft is kept. |
| ContentEditor.ContentManager.RemoveWhatSetsApart | src/components/admin/ContentManager.tsx:115-120 | The draft's list becomes `WithoutIndex` of it, and the rest is kept. |
| SocialEditor.ParseDisplayOrder | src/components/admin/SocialMediaManager.tsx:177 | `parseInt(v) \|\| 0`: NaN stores 0, and any number is stored as parsed. |
| SocialEditor.DraftFromLink | src/components/admin/SocialMediaManager.tsx:100-110 | The draft copies all five fields, so updating the row with it gives back the same row. |
| SocialEditor.SocialMediaManager.constructor | src/components/admin/SocialMediaManager.tsx:21-30 | The form starts closed with no target and the default draft (active, order 0). |
| SocialEditor.SocialMediaManager.FetchSocialMedia | src/components/admin/SocialMediaManager.tsx:37-52 | Issues the ascending `display_order` query. The list is refreshed (a failure keeps it). The form is untouched. |
| SocialEditor.SocialMediaManager.OpenAddForm | src/components/admin/SocialMediaManager.tsx:141-146 | Opens the form with no edit target. |
| SocialEditor.SocialMediaManager.SetDisplayOrder | src/components/admin/SocialMediaManager.tsx:177 | Only the draft's order changes, to `ParseDisplayOrder` of the input. |
| SocialEditor.SocialMediaManager.HandleSubmit | src/components/admin/SocialMediaManager.tsx:54-98 | Updates the target with the unchanged draft, or inserts it. Whatever the outcome, the form closes, the draft resets and the list is refetched. The toasts are exact. |
| SocialEditor.SocialMediaManager.HandleEdit | src/components/admin/SocialMediaManager.tsx:100-110 | Opens the form on the row, with the row as the target and all its fields in the draft. |
| SocialEditor.SocialMediaManager.HandleDelete | src/components/admin/SocialMediaManager.tsx:112-131 | Deletes by id. The list is refetched only on success. The form is untouched. |
| SocialEditor.SocialMediaManager.HandleCancel | src/components/admin/SocialMediaManager.tsx:133-137 | The same closed, reset form a submit leaves, with no request. |
| SocialEditor.AddThenSubmit | src/components/admin/SocialMediaManager.tsx:54-61 | "Add" followed by submit inserts the draft. |
| GalleryEditor.ToGalleryPayload | src/components/admin/GalleryManager.tsx:49-54 | The URL is kept verbatim. An empty caption becomes null, and any other caption is kept. |
| GalleryEditor.PayloadRoundTrip | src/components/admin/GalleryManager.tsx:49-54 | The inserted row reads back as the draft it came from. |
| GalleryEditor.GalleryManager.constructor | src/components/admin/GalleryManager.tsx:17-21 | The editor starts with no images and an empty draft. |
| GalleryEditor.GalleryManager.FetchGallery | src/components/admin/GalleryManager.tsx:28-44 | Issues the newest-first query. The list is refreshed (a failure keeps it) and shows one toast on failure. |
| GalleryEditor.GalleryManager.HandleSubmit | src/components/admin/GalleryManager.tsx:46-72 | Always an insert. Failure keeps the list and the draft. Success clears the draft and refetches. The toasts are exact. |
| GalleryEditor.GalleryManager.HandleDelete | src/components/admin/GalleryManager.tsx:74-95 | Deletes by id. The list is refetched only on success, and the draft is kept. |
| PublicPage.WithFallback | src/pages/Index.tsx:173-176 | A non-empty fetched list is shown, and otherwise the fallback. |
| PublicPage.DisplayServices | src/pages/Index.tsx:173 | The services shown are the fetched ones when there are any, and otherwise the three fallbacks. They are never empty. |
| PublicPage.DisplayGallery | src/pages/Index.tsx:174 | The images shown are the fetched ones when there are any, and otherwise the four fallbacks. They are never empty. |
| PublicPage.DisplaySocialMedia | src/pages/Index.tsx:175-176 | The links shown are the fetched ones when there are any, and otherwise the two fallbacks. They are never empty. |
| PublicPage.FindById | src/pages/Index.tsx:86-88 | The first row with the id, or null exactly when no row has it. |
| PublicPage.IconFor | src/pages/Index.tsx:178-187 | The Facebook icon exactly when the lower-cased name is "facebook", and the Instagram icon otherwise. |
| PublicPage.IconIgnoresAsciiCase | src/pages/Index.tsx:178-187 | Names that differ only in the case of ASCII letters get the same icon. |
| PublicPage.FacebookInAnyCase | src/pages/Index.tsx:178-187 | "facebook" written in any mix of cases gets the Facebook icon. |
| PublicPage.IconOfLowered | src/pages/Index.tsx:179 | Lower-casing a name first does not change its icon. |
| PublicPage.IconExamples | src/pages/Index.tsx:180-186 | "instagram" gives Instagram. "Facebook" and "FACEBOOK" give Facebook. "TikTok" gives Instagram. |
| PublicPage.BenefitBlock | src/pages/Index.tsx:355-373 | The block appears exactly for a non-null, non-empty list. It holds the first min(3, n) benefits, and the duration exactly when it is non-empty. |
| PublicPage.ServiceImage | src/pages/Index.tsx:339-342 | The photo when it is non-empty, and otherwise the default image. |
| PublicPage.ImageAlt | src/pages/Index.tsx:402 | The caption when it is non-empty, and otherwise "Gallery image". |
| PublicPage.Copy | src/pages/Index.tsx:292-296 | Each text is the row's field when that field is non-empty, and otherwise the default copy. The list is the row's whenever it is non-null, even when empty. No text is ever empty. |
| PublicPage.LandingPage.constructor | src/pages/Index.tsx:41-50 | Empty lists and no content rows. |
| PublicPage.LandingPage.FetchData | src/pages/Index.tsx:57-90 | Issues the four queries (services oldest first, six newest images, "home"/"about", active links by order). Null data gives an empty list. The content rows are looked up by id, or kept when the content data is null. |
| PublicPage.PageNeverEmpty | src/pages/Index.tsx:173-176 | Whatever was fetched, the page shows at least one service, one image and one link, and a content row found for an id has that id. |
| AdminGate.View | src/pages/Admin.tsx:28-111 | The loading screen exactly while loading. Nothing exactly when loaded without a user. The panel, on its services tab, exactly when a user is present. |
| AdminGate.Redirect | src/pages/Admin.tsx:17-21 | Navigates to "/auth" exactly when loaded without a user. |
| AdminGate.GateConsistent | src/pages/Admin.tsx:17-38 | The panel never shows together with a redirect. A redirect happens exactly when nothing is rendered. While loading, nothing navigates. |
| AdminGate.HandleSignOut | src/pages/Admin.tsx:23-26 | Signs out first, and navigates to "/" only after the sign-out completes without throwing. |
| AuthPage.ScreenOf | src/pages/Auth.tsx:98-156 | The login form exactly when the reset view is closed. The confirmation exactly when the view is open and the mail was sent. |
| AuthPage.AuthRedirect | src/pages/Auth.tsx:20-24 | Navigates to "/admin" exactly when a user is present. |
| AuthPage.OutcomeNotice | src/pages/Auth.tsx:33-92 | The success toast exactly when the request returns no error. Otherwise an error toast with the service's own message, titled "Authentication Error" for a sign-in error and "Error" for a reset error or an exception. |
| AuthPage.AuthPageState.constructor | src/pages/Auth.tsx:11-15 | Empty credentials and all three flags false. |
| AuthPage.AuthPageState.StartSignIn | src/pages/Auth.tsx:26-31 | Loading is set, and the request carries the current credentials. |
| AuthPage.AuthPageState.SettleSignIn | src/pages/Auth.tsx:33-53 | One toast from the outcome. Loading ends after success, an error or an exception. The handler never navigates. |
| AuthPage.AuthPageState.StartForgotPassword | src/pages/Auth.tsx:56-72 | An empty email gives an error toast, no request, and loading untouched. Otherwise loading is set and the reset is requested for the email. |
| AuthPage.AuthPageState.SettleForgotPassword | src/pages/Auth.tsx:74-95 | The mail is marked sent only when the request returns no error. Loading ends in every case. |
| AuthPage.AuthPageState.OpenForgotPassword | src/pages/Auth.tsx:197 | Opens the reset view. |
| AuthPage.AuthPageState.BackToLoginFromSent | src/pages/Auth.tsx:113-117 | Clears both the view flag and the sent flag. |
| AuthPage.AuthPageState.BackToLogin | src/pages/Auth.tsx:146 | Clears only the view flag. |
| AuthPage.SignInFlow | src/pages/Auth.tsx:26-54 | A whole sign-in sends the credentials, shows the outcome's toast and ends not loading. |
| AuthPage.ForgotPasswordFlow | src/pages/Auth.tsx:56-96 | A whole reset request with an email shows the confirmation exactly when it returned no error, and ends not loading. |

## Left out

- Backend semantics: the tables themselves, row ids, `created_at`, and the server-side filtering, ordering and limits. Queries are modelled as values, and each request's outcome is a parameter.
- The `updated_at` timestamp of a content update is left out: it is wall-clock time.
- Toast dismissal timers, toast variants beyond error/success, and toast rendering are left out.
- Asynchrony. A refetch that a handler starts without awaiting it is applied at once, inside the handler, and nothing interleaves with it. Only the login page's handlers are split at their `await`.
- The inputs' change handlers are modelled as direct assignments to the public draft fields. The one change handler with logic, the display-order parse, is `SetDisplayOrder`.
- `parseInt` itself is not modelled: its result is a parameter (None for NaN). `SocialEditor.ParseDisplayOrder` covers the `|| 0` on top of it.
- The authentication context: sign-in, sign-out, the session and its `loading` flag. Password-reset mail delivery and the redirect URL built from `window.location` are left out too.
- Markup, styling, scrolling, the mobile menu, the embedded review widget and the WhatsApp button are left out. So are the admin tab switching and the "View Site" button, which only navigate or re-render.
- AdminGate.View: whether the Tabs component mounts the inactive tabs' editors belongs to the UI library. The model states only that the editors appear inside the panel and that the panel opens on the services tab.
- JsText.ToLower maps only ASCII capitals and the Kelvin sign, and leaves every other character unchanged, one character for one. That is exact for comparing with ASCII words such as "facebook". It is not JavaScript's full Unicode `toLowerCase`, which can change other characters and can lengthen a string (U+0130 lowers to two code units).
- ServicesEditor.BenefitsToText states what splits back only for non-empty lists of single-line entries. Other lists do not survive an edit: their entries are cut at newlines or dropped when blank (see `EditSubmitRoundTrip` and `SubmitEditRoundTrip`).
- The generated database types declare `display_order` and `is_active` nullable, while the editors' own interfaces declare them non-null. The model follows the interfaces.
