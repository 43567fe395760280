# Carnival event front-end: a Dafny model of its page logic

The system is the web front-end of a university carnival event. It has:

- a public landing page whose sections, texts and colours come from one event-settings row;
- a registration form where attendees sign up with name, phone, e-mail, CPF and campus unit;
- a password-protected dashboard where staff hand out wristbands ("bracelet delivery") against a food donation, read statistics about registrations and donations, search and page through the attendee list, and edit the schedule of attractions.

Everything is stored in a hosted backend. The model takes the backend's answers as inputs and models what the pages compute from them and how the page state changes. It is organised one module per concern:

- `Domain`: the participant, attraction and event-settings records.
- `Statistics`: the dashboard counters, the three groupings and their chart colours.
- `Listing`: the search filter and the ten-per-page slice.
- `CheckIn`: the delivery update and the collection modal (class `CheckInModal`).
- `Schedule`: the attraction form and the delete confirmation (class `AttractionEditor`).
- `Auth`: the login error text (class `LoginPanel`).
- `Registration`: the CPF and phone masks and the registration form state (class `RegistrationForm`).
- `Landing`: section visibility, text fallbacks, footer links and the schedule timeline.
- `Strings`, `Wrappers`: shared helpers.

Conventions:

- A JavaScript `reduce` into a dictionary is a left fold (`Tally`) into a list of key/amount pairs. The list keeps keys in the order they are first seen, which is the order `Object.entries` returns them in.
- `food_kg` is a `real`. The delivery slider (1 to 10 kg, step 0.5) is counted in half kilograms.
- The current time is a parameter (`now`, `nowIso`).
- The outcome of each backend call is a parameter: `ok`, `updateOk`, `InsertOutcome`, `SignInResult`.

Three behaviours of the code are easy to misread:

- The page count is `ceil(n / 10)`, so it is 0 for an empty result.
- "Today" is the date prefix of the UTC ISO timestamp (`toISOString()`), so it is the UTC date.
- A second delivery replaces `notes`; it does not append to them.

## Model

| member | source | states |
|---|---|---|
| Statistics.DeliveredCount | pages/Dashboard.tsx:509 | the delivered count is at most the number of records |
| Statistics.DeliveredCountIsIndexCount | pages/Dashboard.tsx:509 | the delivered count is the number of positions whose `bracelet_delivered` is set (status is not consulted) |
| Statistics.DeliveredPlusPending | pages/Dashboard.tsx:508-510 | delivered + pending = number of records, 0 ≤ delivered ≤ length, and with nothing delivered every record is pending |
| Statistics.PendingCount | pages/Dashboard.tsx:510 | the pending count is at most the number of records, and equals it exactly when no record is delivered |
| Statistics.TotalKg | pages/Dashboard.tsx:511 | the total is non-negative when every weight is |
| Statistics.DatePart | pages/Dashboard.tsx:513 | `split('T')[0]` is a prefix of the timestamp without a 'T', ending at the first 'T' or at the end |
| Statistics.DeliveredToday | pages/Dashboard.tsx:514-516 | the delivered-today count never exceeds the delivered count |
| Statistics.DeliveredTodayIsIndexCount | pages/Dashboard.tsx:513-516 | the delivered-today count is the number of positions whose record is delivered and whose `delivery_at` starts with the UTC date of `now` |
| Statistics.ReplaceRecord | pages/Dashboard.tsx:509-516 | replacing one record changes the delivered count, total kg and today's count by exactly that record's old and new contributions |
| Statistics.BumpKeys | pages/Dashboard.tsx:520 | `acc[k] = (acc[k] \|\| 0) + v` keeps the keys when k is present and appends k at the end when it is new |
| Statistics.BumpAmount | pages/Dashboard.tsx:520 | the update adds v to key k only, and v to the total |
| Statistics.Tally | pages/Dashboard.tsx:518-522 | the `reduce` into a dictionary, one `Bump` per entry; its keys, amounts, total and order are stated by TallyKeys, TallyAmount, TallyTotal and TallyFirstSeen |
| Statistics.TallyKeys | pages/Dashboard.tsx:518-522 | a fold has no duplicate keys, and its keys are exactly the keys folded in |
| Statistics.TallyAmount | pages/Dashboard.tsx:518-522 | a fold's amount for each key is the sum of that key's entries |
| Statistics.TallyTotal | pages/Dashboard.tsx:518-522 | a fold's amounts sum to the sum of all entries |
| Statistics.TallyFirstSeen | pages/Dashboard.tsx:524-528 | a fold lists keys in first-seen order: an earlier key first occurs before a later key does |
| Statistics.CountGrouping | pages/Dashboard.tsx:518-522 | counting keys: each count is how often the key occurs, counts sum to the length, keys are distinct and first-seen ordered |
| Statistics.UnitCounts | pages/Dashboard.tsx:518-522 | `unitCounts`, one count per record under its unit or 'Não Informada'; stated by UnitCountsSpec |
| Statistics.UnitCountsSpec | pages/Dashboard.tsx:518-522 | unit counts sum to the number of records, each unit counts its records, an empty unit counts as 'Não Informada', keys are distinct and in first-seen order |
| Statistics.UserTypeCounts | pages/Dashboard.tsx:543-547 | `userTypeCounts`, one count per record under its user type or 'Aluno(a)'; stated by UserTypeCountsSpec |
| Statistics.UserTypeCountsSpec | pages/Dashboard.tsx:543-547 | user-type counts sum to the number of records, a missing or empty type counts as 'Aluno(a)', keys are distinct and in first-seen order |
| Statistics.FoodEntriesTotal | pages/Dashboard.tsx:530-535 | only delivered records with a food type contribute; their weights sum to the delivered food weight, which is at most the total kg when weights are non-negative |
| Statistics.FoodEntriesKeys | pages/Dashboard.tsx:530-535 | a food type appears exactly when some delivered record carries it |
| Statistics.FoodTypeKg | pages/Dashboard.tsx:530-535 | `foodTypeCounts`, the weights of delivered records with a food type summed per type; stated by FoodTypeKgSpec |
| Statistics.FoodTypeKgSpec | pages/Dashboard.tsx:530-535 | the food grouping sums to the delivered food weight, is at most total kg, its keys are the delivered food types, distinct, and each holds that type's weight |
| Statistics.ReplaceFoodKg | pages/Dashboard.tsx:530-535 | replacing one record changes the delivered food weight by exactly that record's old and new contributions |
| Statistics.ReplaceFoodAmount | pages/Dashboard.tsx:530-535 | replacing one record changes the weight under each food type by exactly that record's old and new contributions |
| Statistics.Chart | pages/Dashboard.tsx:524-528 | the `Object.entries(…).map` of the three charts (also lines 537-541, 549-553); its rows and colours are stated by ChartColours |
| Statistics.ChartColours | pages/Dashboard.tsx:524-528 | chart rows keep the grouping's names and values in order; with a palette of distinct colours two rows share a colour exactly when their positions agree modulo the palette length (5 for units and user types, 7 for food) |
| Statistics.PalettesDistinct | pages/Dashboard.tsx:527 | the three palettes have no repeated colour |
| Strings.LowerIdempotent | pages/Dashboard.tsx:556 | lower-casing twice is lower-casing once (used by LoweredQuerySame) |
| Strings.ContainsIffOccurs | pages/Dashboard.tsx:561 | `includes` holds exactly when the query occurs at some position |
| Listing.Filter | pages/Dashboard.tsx:555-562 | the result is no longer than the list |
| Listing.Matches | pages/Dashboard.tsx:556-561 | the search test: lower-cased query in the lower-cased name, in the cpf as stored, or in the lower-cased e-mail; its use is stated by FilterCounts, QueryCaseIgnored and EmptyQueryKeepsAll |
| Listing.FilterKeepsOrder | pages/Dashboard.tsx:555-562 | the result is an order-preserving subsequence of the list |
| Listing.FilterCounts | pages/Dashboard.tsx:555-562 | the result holds every record that matches (lower-cased query in the lower-cased name, in the raw cpf or in the lower-cased e-mail) as often as the list does, and no other record |
| Listing.EmptyQueryKeepsAll | pages/Dashboard.tsx:555-562 | the empty query returns the whole list in order |
| Listing.NoMatchEmpty | pages/Dashboard.tsx:555-562 | a query no record matches gives the empty list |
| Listing.QueryCaseIgnored | pages/Dashboard.tsx:556 | two queries that lower-case to the same text find the same records |
| Listing.LoweredQuerySame | pages/Dashboard.tsx:556 | searching for the lower-cased query finds exactly what the query as typed finds |
| Listing.PageCount | pages/Dashboard.tsx:566 | the page count is the least number of ten-record pages that hold n records (0 for n = 0) |
| Listing.Page | pages/Dashboard.tsx:567-568 | `slice(startIndex, startIndex + 10)` of the filtered list; stated by PageRule, PageZeroEmpty and PagesCoverList |
| Listing.PageRule | pages/Dashboard.tsx:567-568 | for page ≥ 1 the page is the records from (page−1)·10 up to page·10 or the end, at most ten, and non-empty exactly when page ≤ page count |
| Listing.PageZeroEmpty | pages/Dashboard.tsx:567-568 | page 0 is empty |
| Listing.TwentyFiveRecords | pages/Dashboard.tsx:566-568 | 25 records make 3 pages: page 1 is the first ten, page 3 the last five, page 4 is empty |
| Listing.PagesCoverList | pages/Dashboard.tsx:566-568 | reading pages 1 to the page count in turn gives back the whole list |
| CheckIn.KgTextRoundTrip | pages/Dashboard.tsx:480 | the weight text in the note reads back to the weight |
| CheckIn.KgText | pages/Dashboard.tsx:480 | the text `${kg}` writes for a slider weight; KgTextRoundTrip states that it reads back to the weight |
| CheckIn.DeliveryNote | pages/Dashboard.tsx:480 | the note written on delivery; NoteDeterminesDelivery states that it determines the food type and weight |
| CheckIn.NoteDeterminesDelivery | pages/Dashboard.tsx:480 | two delivery notes are equal only for the same food type and weight |
| CheckIn.ApplyDelivery | pages/Dashboard.tsx:474-481 | the update sets status 'entregue', the bracelet flag, the timestamp, the weight, the food type and the note, and every other field keeps its value |
| CheckIn.RedeliveryOverwrites | pages/Dashboard.tsx:474-481 | a second delivery overwrites the first entirely; the note is replaced, not appended |
| CheckIn.DeliveryEffect | pages/Dashboard.tsx:474-481 | delivering to a pending record raises the delivered count by one, lowers pending by one, replaces its weight in the total, adds one to today's count when the timestamp is non-empty, and adds the weight to the food grouping's total and to its food type's amount when the food type is non-empty |
| CheckIn.GateIffLabel | pages/Dashboard.tsx:1286 | the confirm button is enabled exactly when the label it sends is non-empty |
| CheckIn.ConfirmEnabled | pages/Dashboard.tsx:1286 | the `disabled` test of the confirm button, negated; GateIffLabel ties it to the label sent |
| CheckIn.LabelSent | pages/Dashboard.tsx:1286 | the label the button sends, the custom text for 'Outros'; GateIffLabel states that it is non-empty exactly when the button is enabled |
| CheckIn.CheckInModal.constructor | pages/Dashboard.tsx:52-65 | the modal starts closed, with nothing selected, no food and 1 kg |
| CheckIn.CheckInModal.Open | pages/Dashboard.tsx:863-864 | a pending participant is selected and the modal opens; the food choice is kept |
| CheckIn.CheckInModal.ShowDetails | pages/Dashboard.tsx:871 | "Ver Detalhes" on a delivered row selects that record and changes nothing else |
| CheckIn.CheckInModal.Close | pages/Dashboard.tsx:1285 | only the modal closes |
| CheckIn.CheckInModal.ChooseFood | pages/Dashboard.tsx:1267 | one of the nine food buttons becomes the choice |
| CheckIn.CheckInModal.TypeCustomFood | pages/Dashboard.tsx:1274 | the custom label is what was typed |
| CheckIn.CheckInModal.SlideWeight | pages/Dashboard.tsx:1280 | the weight becomes the slider value, between 1 and 10 kg |
| CheckIn.CheckInModal.Confirm | pages/Dashboard.tsx:469-505 | a request is sent exactly when the modal shows a participant and the gate is open; it carries the custom label for 'Outros' and the chosen food otherwise; it leaves the record fully delivered; on success the modal closes and resets to no food and 1 kg and the success message names the participant; on failure nothing changes |
| CheckIn.CheckInModal.DismissSuccess | pages/Dashboard.tsx:1350 | the success message closes |
| Schedule.SaveDecision | pages/Dashboard.tsx:325-339 | save is refused exactly when the name or the time is empty, updates the edited record exactly when `editingId` is truthy, and inserts otherwise |
| Schedule.LoadDraft | pages/Dashboard.tsx:357-363 | the form takes the record's name, time and type, and is featured exactly when `is_featured` is true |
| Schedule.IdOrNull | pages/Dashboard.tsx:364 | `id \|\| null` keeps a non-empty id and drops a missing or empty one |
| Schedule.ResetFormRefused | pages/Dashboard.tsx:346 | the reset form `{'', '', 'banda', false}` cannot be saved, so a success cannot be repeated by a second click |
| Schedule.EditThenSave | pages/Dashboard.tsx:357-364 | loading a record and saving it unchanged updates that record when it has an id and inserts it otherwise |
| Schedule.AttractionEditor.constructor | pages/Dashboard.tsx:46-58 | empty form, not editing, delete modal closed |
| Schedule.AttractionEditor.Type | pages/Dashboard.tsx:895 | an input replaces the draft and leaves the rest |
| Schedule.AttractionEditor.Save | pages/Dashboard.tsx:323-355 | the action is the save decision; a refused or failed save keeps the form, a successful one resets it to the empty draft and leaves edit mode |
| Schedule.AttractionEditor.EditClick | pages/Dashboard.tsx:357-366 | the form holds the record and edit mode holds its id, or none |
| Schedule.AttractionEditor.CancelEdit | pages/Dashboard.tsx:923 | the form is empty and edit mode ends |
| Schedule.AttractionEditor.OpenDelete | pages/Dashboard.tsx:962 | the confirmation opens with the record's id (or none) and name |
| Schedule.AttractionEditor.CancelDelete | pages/Dashboard.tsx:1313 | the confirmation closes and forgets the record |
| Schedule.AttractionEditor.ConfirmDelete | pages/Dashboard.tsx:433-446 | without an id nothing is sent and nothing changes; otherwise that id is deleted and the confirmation closes only on success |
| Auth.LoginError | pages/Dashboard.tsx:213 | the stored error is the backend's message when it has one, otherwise the fixed Portuguese text; never empty |
| Auth.ShownAuthError | pages/Dashboard.tsx:285 | the raw "Invalid login credentials" is never shown; it reads "E-mail ou senha incorretos", and every other message is shown as is |
| Auth.LoginPanel.SignIn | pages/Dashboard.tsx:199-217 | a submit clears the old error; a rejection stores a non-empty message, so the denial banner shows |
| Registration.CPFFirstDot | pages/RegistrationForm.tsx:43 | the first `(\d{3})(\d)` replace puts a dot after digit 3 once there are 4 digits |
| Registration.CPFSecondDot | pages/RegistrationForm.tsx:44 | the second replace finds its match after that dot, and puts a dot after digit 6 once there are 7 |
| Registration.CPFDash | pages/RegistrationForm.tsx:45 | the third replace puts a dash after digit 9 once there are 10 |
| Registration.CPFTrim | pages/RegistrationForm.tsx:46 | the trim keeps two digits after the dash, so at most 11 digits remain |
| Registration.MaskCPF | pages/RegistrationForm.tsx:40-47 | `maskCPF` as the chain of its four replace steps; MaskCPFClosedForm and MaskCPFProperties state what it produces |
| Registration.MaskCPFClosedForm | pages/RegistrationForm.tsx:40-47 | `maskCPF` is the layout `ddd.ddd.ddd-dd` of the first 11 digits of its input, filled as far as they go |
| Registration.PhoneWrap | pages/RegistrationForm.tsx:52 | the first replace wraps the first two digits as "(dd) " once there are 3 |
| Registration.PhoneDash | pages/RegistrationForm.tsx:53 | the second replace puts a dash after the next five digits once there are 8 |
| Registration.PhoneTrim | pages/RegistrationForm.tsx:54 | the trim keeps four digits after the dash |
| Registration.MaskPhone | pages/RegistrationForm.tsx:49-55 | `maskPhone` as the chain of its three replace steps; MaskPhoneClosedForm and MaskPhoneProperties state what it produces |
| Registration.MaskPhoneClosedForm | pages/RegistrationForm.tsx:49-55 | `maskPhone` is the layout `(dd) ddddd-dddd` of the first 11 digits of its input, filled as far as they go |
| Registration.CPFLayoutDigits | pages/RegistrationForm.tsx:40-47 | the CPF layout adds only separators: its digits are the laid-out digits |
| Registration.PhoneLayoutDigits | pages/RegistrationForm.tsx:49-55 | the phone layout adds only separators: its digits are the laid-out digits |
| Registration.MaskCPFProperties | pages/RegistrationForm.tsx:40-47 | the masked CPF's digits are the first 11 digits of the input (a prefix of them), it fits the field's 14 characters (line 227), masking is idempotent, and "" stays "" |
| Registration.MaskPhoneProperties | pages/RegistrationForm.tsx:49-55 | the masked phone's digits are the first 11 digits of the input, it fits the field's 15 characters (line 204), masking is idempotent, and up to two digits stay unformatted |
| Registration.LayoutsAreFixedPoints | pages/RegistrationForm.tsx:40-55 | a laid-out CPF or phone of at most 11 digits is left unchanged by its mask |
| Registration.SubmitError | pages/RegistrationForm.tsx:84-101 | a message is stored exactly when the insert did not succeed |
| Registration.SubmitErrorDistinguishes | pages/RegistrationForm.tsx:84-101 | the duplicate-CPF message comes exactly from code '23505', the generic one exactly from any other insert error, the connection one exactly from a thrown failure |
| Registration.RegistrationForm.constructor | pages/RegistrationForm.tsx:8-36 | empty fields, not submitted, no message |
| Registration.RegistrationForm.TypeName | pages/RegistrationForm.tsx:192 | only the name changes |
| Registration.RegistrationForm.TypeEmail | pages/RegistrationForm.tsx:215 | only the e-mail changes |
| Registration.RegistrationForm.ChooseUnit | pages/RegistrationForm.tsx:241 | only the unit changes |
| Registration.RegistrationForm.TypePhone | pages/RegistrationForm.tsx:61-63 | the phone field holds the masked text, so it is always a fixed point of the mask |
| Registration.RegistrationForm.TypeCPF | pages/RegistrationForm.tsx:57-59 | the CPF field holds the masked text, so it is always a fixed point of the mask |
| Registration.RegistrationForm.Submit | pages/RegistrationForm.tsx:65-104 | with an empty required field nothing is sent; otherwise exactly the five fields are sent; success clears them and shows the confirmation; any failure keeps the data, stays on the form and stores the outcome's message; loading ends false |
| Registration.RegistrationForm.Clear | pages/RegistrationForm.tsx:106-110 | empty fields, back to the form, no message |
| Landing.HiddenOnlyWhenFalse | pages/LandingPage.tsx:95 | hero, solidarity, schedule and footer (lines 95, 123, 201, 292) are hidden exactly when settings are loaded and the flag is false; missing settings or a missing flag show them |
| Landing.SectionShown | pages/LandingPage.tsx:95 | `settings?.show_… !== false`; HiddenOnlyWhenFalse states when a section is hidden |
| Landing.Fallback | pages/LandingPage.tsx:87-89 | every fallback text is non-empty |
| Landing.Text | pages/LandingPage.tsx:87-89 | each colour and text (also lines 138, 149, 207, 301, 311, 318, 333, 347, 352) is the stored value when settings are loaded and it is non-empty, and the fixed fallback otherwise; never empty |
| Landing.RemoveFirst | pages/LandingPage.tsx:318 | `replace('@', '')` removes exactly the first '@' and leaves a string without '@' unchanged |
| Landing.RemoveFirstCounts | pages/LandingPage.tsx:318 | removing the first '@' removes one character, an '@', and keeps all others |
| Landing.InstagramHref | pages/LandingPage.tsx:318 | the footer's Instagram link; InstagramHrefProfile and DefaultInstagramHref state the profile it points at |
| Landing.InstagramHrefProfile | pages/LandingPage.tsx:318 | an "@name" handle links to `https://www.instagram.com/name/`; a handle without '@' is linked as typed |
| Landing.DefaultInstagramHref | pages/LandingPage.tsx:318 | without settings the link is `https://www.instagram.com/uninassau/` |
| Landing.PhoneHref | pages/LandingPage.tsx:333 | the footer's `tel:` link; PhoneHrefDials states the number it dials |
| Landing.PhoneHrefDials | pages/LandingPage.tsx:333 | the link is "tel:" followed by exactly the digits of the phone text, in order; an all-digit phone is dialled as stored |
| Landing.TypeLabel | pages/LandingPage.tsx:254 | the label of an attraction's type; LabelMatchesIcon states which label each type gets |
| Landing.TypeIcon | pages/LandingPage.tsx:238 | the icon of an attraction's type; LabelMatchesIcon states that it agrees with the label |
| Landing.LabelMatchesIcon | pages/LandingPage.tsx:238-254 | the clock icon goes with "DJ Set" and only with type 'dj'; 'banda' alone reads "Banda / Show"; any other type reads "Atração" with the music icon |
| Landing.ScheduleTimeline | pages/LandingPage.tsx:213-240 | an empty list shows the placeholder; otherwise one card per attraction in order, the time shown exactly when non-empty, and a connector below every card but the last |
| Landing.ConnectorCount | pages/LandingPage.tsx:230 | n cards draw n − 1 connectors |

## Left out

- Backend traffic is not modelled: queries, inserts, updates, deletes, sign-in and sign-out, session listeners, realtime channels and storage upload (pages/Dashboard.tsx:70-195, pages/LandingPage.tsx:26-81, pages/RegistrationForm.tsx:18-30). It is network I/O to a service whose code is not part of this model. Each call's outcome is an input.
- After a save, delete or delivery the dashboard refetches its lists. The model does not update any stored list; `DeliveryEffect` states what the refetched list shows.
- The settings form and `handleUpdateSettings`, the image upload with its random file name, `handleDeleteParticipant` and `handleLogout` are left out. Apart from their remote writes and the `confirm` prompt, their local effects are these: a successful participant delete closes the detail modal and clears the selected participant (pages/Dashboard.tsx:459-460), and a successful upload writes the new `hero_image_url` into the local settings (pages/Dashboard.tsx:424). The detail modal is not modelled, and neither is the local settings copy of the dashboard.
- Rendering is left out: markup, styles, charts, `alert`/`confirm`, `navigator.vibrate`, `window.scrollTo`, `toLocaleString`, the detail modal, the loading spinners (`updateLoading`, `attractionLoading`, `authLoading`), and the active tab.
- Floating point is left out. Weights are real numbers and the slider value is exact half kilograms (`parseFloat` and IEEE rounding are not modelled).
- `KgText` writes weights as JavaScript prints the half-kilogram values of the slider. No other number formatting is modelled.
- `Strings.Lower` is not full Unicode lower-casing. It lowers ASCII and Latin-1 capitals only.
- Statistics.TallyFirstSeen: Object.entries lists integer-like keys (a food type "123", say) first, not in first-seen order. The model states first-seen order for every key.
- The groupings ignore inherited property names such as "constructor". In the source, `acc[k] || 0` would read the inherited value for such a key.
- The `Array.isArray(participants)` guards are left out. The model's list is always a sequence.
- Email format validation by the browser is left out. The model's submit is blocked only when a required field is empty.
- Races between concurrent fetches (`Promise.all`, realtime callbacks) and local actions are left out.
- The registration page's own colour fallbacks (pages/RegistrationForm.tsx:116-118) are not part of this model. They are a style variable like the landing page's.
- CheckIn.CheckInModal.Confirm: the request carries the participant id as `Option`. The source's non-null assertion `id!` is not modelled as a failure.
