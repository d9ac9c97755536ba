# ENSAJ Smart Park: a verified model of the app's logic

ENSAJ Smart Park is a client-side mock-up of a university parking app. Most of
it is rendering. This project models the three kinds of logic it does have,
with one Dafny module per source component:

- **Session and navigation** (`Index`, `Navigation`). The page holds four
  pieces of state: whether someone is signed in, which authentication form is
  shown, the current page id and the user record. Login and registration are
  simulated and always succeed. Logout clears the session. Any page id can be
  stored, and rendering falls back to the dashboard for unknown ids. The
  navigation bar has a mobile menu flag, highlights the active item and shows
  a four-item bottom bar.
- **Form state** (`LoginForm`, `ReservationForm`). The login form refuses
  empty fields. While onLogin runs it holds a loading flag, which is always
  cleared afterwards. It reports the outcome with a toast. The reservation
  form is a seven-field record that is edited one field at a time and reset
  on submit.
- **Occupancy classifiers** (`ParkingMap`, `Statistics`, `Dashboard`). These
  are threshold and lookup functions: green/yellow/red at 50% and 80%
  occupancy, a status to colour and text, and icons by zone type or activity.

Shared modules: `Wrappers` (Option, for the source's `null`), `Text`
(JavaScript's `s.split(sep)[0]`), `Palette` (the colour classes) and `Toasts`
(the kinds of notification, kept as a log by each component).

Stateful components are classes whose fields are the component's `useState`
hooks. Their methods are the event handlers, and each states the whole new
state. `IndexState.Valid()` is the session invariant: signed in exactly when a
user is present. Every handler keeps it. Pure switches and thresholds are
functions. The properties relating them are lemmas.

Three facts about the code that the model keeps:

- The page has four pieces of state. The fourth is the login/register form
  choice.
- `onPageChange` stores any string. Only rendering falls back to the
  dashboard for an unknown id.
- Red starts at 80% occupied, inclusive.

## Model

| member | source | states |
|---|---|---|
| `Text.FirstPart` | src/components/Navigation.tsx:142 | `split(sep)[0]` is a prefix of the text. No occurrence of the separator starts inside it. It stops at the first occurrence or at the end of the text. |
| `Text.FirstPartUnique` | src/components/ParkingMap.tsx:145 | Those three properties determine the first piece uniquely. |
| `Index.IndexState.constructor` | src/pages/Index.tsx:12-15 | Initially: signed out, login form, page `home`, no user, invariant holds. |
| `Index.MockUser` | src/pages/Index.tsx:23-30 | The login user has exactly the keys id, email, firstName, lastName, userType, department. Its email is the given one. |
| `Index.MockUserPlaceholders` | src/pages/Index.tsx:23-30 | Every field except email is the same fixed placeholder for all logins. Two login users are equal iff their emails are. |
| `Index.IndexState.HandleLogin` | src/pages/Index.tsx:18-35 | Always ends signed in on `home`, with the mock user for the given email. The password is never used. authMode and toasts are unchanged, and the invariant holds. |
| `Index.RegisteredUser` | src/pages/Index.tsx:42-45 | The registered user holds every submitted field unchanged, plus `id`. A submitted id overrides the generated one. Otherwise the id is the clock value. |
| `Index.IndexState.HandleRegister` | src/pages/Index.tsx:37-48 | Always ends signed in on `home`, with the registered user. authMode is unchanged and the invariant holds. |
| `Index.IndexState.HandleLogout` | src/pages/Index.tsx:50-58 | Signed out, user null, page `home`, authMode unchanged. One logout toast is appended, and the invariant holds. |
| `Index.PageId` | src/pages/Index.tsx:61-108 | The page id that selects each view is one of the five known ids. |
| `Index.RenderCurrentPage` | src/pages/Index.tsx:60-111 | The dashboard is rendered iff the id is `home` or unknown. A known id renders the view whose PageId is that id. `Index.RenderKnownPages` and `Index.RenderFallback` state the inverse and the fallback as lemmas. |
| `Index.RenderKnownPages` | src/pages/Index.tsx:60-111 | Each view is rendered by its own id. On the five known ids, rendering and PageId are inverse. |
| `Index.RenderFallback` | src/pages/Index.tsx:109-110 | Every unknown id renders the dashboard. A non-dashboard view comes only from a known id other than `home`. |
| `Index.ScreenOf` | src/pages/Index.tsx:114-145 | Signed out: the login form iff authMode is login, the register form otherwise. Signed in: the current page's view. |
| `Index.SignedOutIgnoresPage` | src/pages/Index.tsx:114-130 | Signed out, the screen does not depend on the current page. |
| `Index.IndexState.SwitchToRegister` | src/pages/Index.tsx:119 | Sets authMode to register and changes nothing else. |
| `Index.IndexState.SwitchToLogin` | src/pages/Index.tsx:126 | Sets authMode to login and changes nothing else. |
| `Index.IndexState.OnPageChange` | src/pages/Index.tsx:136 | Stores any page string unvalidated. Nothing else changes. A signed-in user then sees that page's view. |
| `Navigation.IsHighlighted` | src/components/Navigation.tsx:64-67 | An item is highlighted when its id is the current page. Its contract is carried by `Navigation.Highlighted` and `Navigation.HighlightedAtMostOne`: with distinct ids, at most one item is highlighted. |
| `Navigation.Highlighted` | src/components/Navigation.tsx:64-67 | The highlighted items are menu items whose id is the current page. |
| `Navigation.HighlightedAtMostOne` | src/components/Navigation.tsx:99-102 | If the ids are distinct, at most one item is highlighted. Exactly one is highlighted iff some item's id is the current page. |
| `Navigation.MenuHighlighting` | src/components/Navigation.tsx:22-28 | The five menu ids are distinct. At most one item is highlighted, and exactly one iff the page is one of the five ids. |
| `Navigation.BottomBarItems` | src/components/Navigation.tsx:128 | The bottom bar has four items. None is `settings`, and every other menu item is on it. |
| `Navigation.BottomLabel` | src/components/Navigation.tsx:142 | The bottom-bar label is a prefix of the item's label and contains no space. |
| `Navigation.OneWordLabel` | src/components/Navigation.tsx:142 | A label without a space is shown whole. |
| `Navigation.BottomLabelsWhole` | src/components/Navigation.tsx:142 | "Accueil", "Statistiques" and "Profil" are shown whole. |
| `Navigation.BottomLabelCarte` | src/components/Navigation.tsx:142 | "Carte Parking" is shown as "Carte". |
| `Navigation.Render` | src/components/Navigation.tsx:46-125 | Signed out: no menu button, page buttons, mobile menu or bottom bar. Mobile menu iff open and signed in. Bottom bar iff signed in. |
| `Navigation.NavigationState.constructor` | src/components/Navigation.tsx:20 | The menu starts closed. |
| `Navigation.NavigationState.ToggleMenu` | src/components/Navigation.tsx:51 | The menu button flips the flag, so two presses restore it. |
| `Navigation.NavigationState.HandlePageChange` | src/components/Navigation.tsx:30-33 | Forwards the id to onPageChange unchanged and leaves the menu closed. |
| `LoginForm.SubmitToast` | src/components/auth/LoginForm.tsx:24-45 | The toast is destructive iff a field is empty or onLogin threw. It is success iff both fields are filled and onLogin returned. It is the missing-fields toast iff a field is empty. |
| `LoginForm.PasswordInputType` | src/components/auth/LoginForm.tsx:91 | The password input is of type text iff showPassword. |
| `LoginForm.SubmitButtonOf` | src/components/auth/LoginForm.tsx:108-114 | The submit button is disabled iff loading, and loading selects its label. |
| `LoginForm.LoginFormState.constructor` | src/components/auth/LoginForm.tsx:16-19 | Empty fields, password hidden, not loading. |
| `LoginForm.LoginFormState.SetEmail` | src/components/auth/LoginForm.tsx:77 | Sets the email and changes nothing else. |
| `LoginForm.LoginFormState.SetPassword` | src/components/auth/LoginForm.tsx:93 | Sets the password and changes nothing else. |
| `LoginForm.LoginFormState.ToggleShowPassword` | src/components/auth/LoginForm.tsx:100 | Flips showPassword, and with it the input type. Nothing else changes. |
| `LoginForm.LoginFormState.HandleSubmit` | src/components/auth/LoginForm.tsx:22-49 | With an empty field: onLogin is not called, one missing-fields toast is added and isLoading is untouched. Otherwise: onLogin is called once with the current email and password, one outcome toast is added and isLoading ends false. The fields are never cleared. |
| `ReservationForm.Set` | src/components/ReservationForm.tsx:45-47 | Editing a field sets it to the value and leaves the other six unchanged. |
| `ReservationForm.SubmitDisabled` | src/components/ReservationForm.tsx:172 | The submit button is disabled iff some field is empty. |
| `ReservationForm.VehicleNumberStaysEmpty` | src/components/ReservationForm.tsx:62-141 | No rendered input writes the vehicle number, so after any edits and submits an empty one stays empty. |
| `ReservationForm.SubmitNeverEnabled` | src/components/ReservationForm.tsx:19 | From the initial form, any sequence of UI edits and submits leaves the submit button disabled. |
| `ReservationForm.AvailabilityOf` | src/components/ReservationForm.tsx:155-158 | professor gives 8 places, staff 12, visitor 22. Any other value gives the selection prompt. |
| `ReservationForm.Indicator` | src/components/ReservationForm.tsx:162 | The mark is ✓ iff a user type is set, otherwise ?. |
| `ReservationForm.ReservationFormState.constructor` | src/components/ReservationForm.tsx:12-20 | All seven fields start empty, so submit starts disabled. |
| `ReservationForm.ReservationFormState.HandleInputChange` | src/components/ReservationForm.tsx:45-47 | The record becomes the single-field update of the old one. |
| `ReservationForm.ReservationFormState.HandleSubmit` | src/components/ReservationForm.tsx:24-43 | Confirms the date and times read before the reset, without validating them. Then every field is empty. |
| `ParkingMap.OccupancyRate` | src/components/ParkingMap.tsx:60 | The rate times the total is the occupied count. |
| `ParkingMap.ZoneColor` | src/components/ParkingMap.tsx:59-64 | For total > 0: green iff 2·occupied < total, yellow iff total ≤ 2·occupied and 5·occupied < 4·total, red iff 4·total ≤ 5·occupied. Never gray. |
| `ParkingMap.ZoneColorBoundaries` | src/components/ParkingMap.tsx:61-62 | Exactly 50% occupied is yellow, and exactly 80% is red. |
| `ParkingMap.ZoneColorMonotone` | src/components/ParkingMap.tsx:59-64 | With the total fixed, fewer available places never give a greener colour. |
| `ParkingMap.ZoneIconOf` | src/components/ParkingMap.tsx:66-73 | electric, faculty and visitor each get their own icon. Every other type gets the car. |
| `ParkingMap.ShortName` | src/components/ParkingMap.tsx:145 | The map label is a prefix of the zone name. |
| `ParkingMap.ShortNameOfZoneName` | src/components/ParkingMap.tsx:145 | A name "Zone X - …" is labelled by its first six characters, "Zone X". |
| `ParkingMap.HardcodedZoneNames` | src/components/ParkingMap.tsx:11-57 | Every hardcoded zone name has the form "Zone X - …". |
| `ParkingMap.HardcodedShortNames` | src/components/ParkingMap.tsx:145 | Each hardcoded zone is labelled by the first six characters of its name. |
| `ParkingMap.ShortNameExample` | src/components/ParkingMap.tsx:145 | "Zone A - Principal" is labelled "Zone A". |
| `ParkingMap.Find` | src/components/ParkingMap.tsx:162 | The find gives none iff no zone has the id. Otherwise it gives the first zone of the table with that id: no earlier zone has it. |
| `ParkingMap.DetailsShown` | src/components/ParkingMap.tsx:158 | The details card shows for a non-null, non-empty selection. Its contract is carried by `ParkingMap.ParkingMapState.ClickZone`: after a click, details show iff a different, non-empty id was clicked. |
| `ParkingMap.FindDistinct` | src/components/ParkingMap.tsx:162-181 | If ids are distinct, looking a zone up by its own id returns that zone. |
| `ParkingMap.ZonesWellFormed` | src/components/ParkingMap.tsx:11-57 | The hardcoded zones have distinct ids, total > 0 and 0 ≤ available ≤ total. |
| `ParkingMap.ZoneLookupFindsItself` | src/components/ParkingMap.tsx:162-181 | The detail lookup of every hardcoded zone's id finds exactly that zone. |
| `ParkingMap.HardcodedZoneColors` | src/components/ParkingMap.tsx:11-64 | The colours are: A red (65/80), B yellow (42/60), C yellow (exactly 20/40), D yellow (15/20), E green (4/12). |
| `ParkingMap.Toggled` | src/components/ParkingMap.tsx:138 | A click deselects iff the zone was selected, and otherwise selects the clicked zone. |
| `ParkingMap.ToggledTwice` | src/components/ParkingMap.tsx:138 | Two clicks on a zone restore the selection iff it was empty or that zone. |
| `ParkingMap.DetailsIcon` | src/components/ParkingMap.tsx:162 | The details icon is the selected zone's icon. For an unknown id it is the car icon, as for "general". |
| `ParkingMap.ParkingMapState.constructor` | src/components/ParkingMap.tsx:9 | Nothing is selected initially. |
| `ParkingMap.ParkingMapState.ClickZone` | src/components/ParkingMap.tsx:138 | The selection becomes the toggle of the old one. Details are shown iff a different, non-empty id was clicked. |
| `Statistics.BarColor` | src/components/Statistics.tsx:46-50 | Green for p < 50, yellow for 50 ≤ p < 80, red for p ≥ 80. Never gray. |
| `Statistics.WeeklyColor` | src/components/Statistics.tsx:128-131 | The inline weekly ternary equals getBarColor on every percentage, so the weekly bar is green below 50%, yellow from 50% to below 80%, red from 80%, and never gray. |
| `Statistics.BarColorMonotone` | src/components/Statistics.tsx:46-50 | A higher percentage never gives a greener colour. |
| `Statistics.BarColorMatchesZoneColor` | src/components/Statistics.tsx:46-50 | getBarColor of 100 × occupied/total equals the map's getZoneColor(available, total). |
| `Statistics.BarHeight` | src/components/Statistics.tsx:42-44 | Percentages in 0..100 give heights in 0..120 px. |
| `Statistics.WeeklyBarHeight` | src/components/Statistics.tsx:133 | Percentages in 0..100 give heights in 0..60 px. |
| `Statistics.HeightsProportional` | src/components/Statistics.tsx:42-44 | Both heights are proportional to the percentage and monotone. 100% maps to 120 and 60 px, and the weekly bar is half as tall. |
| `Statistics.HardcodedPercentagesInRange` | src/components/Statistics.tsx:8-40 | Every weekly, hourly and zone percentage lies in 0..100, so the bars stay within 120 and 60 px. |
| `Statistics.HardcodedWeeklyColors` | src/components/Statistics.tsx:128-131 | The weekly bars are red except Tuesday (yellow), and the weekend is green. |
| `Dashboard.StatusColor` | src/components/Dashboard.tsx:32-39 | available gives green, moderate yellow, busy red, and gray iff the status is none of these. |
| `Dashboard.StatusText` | src/components/Dashboard.tsx:41-48 | The same statuses give Disponible, Modéré and Saturé. The text is Inconnu iff the status is unknown. |
| `Dashboard.ColorAndTextAgree` | src/components/Dashboard.tsx:32-48 | The colour is gray iff the text is Inconnu, and each level's colour pairs with its text. |
| `Dashboard.StatusBadge` | src/components/Dashboard.tsx:155 | The badge is `default` iff the status is available (green), otherwise `secondary`. |
| `Dashboard.ActivityIconOf` | src/components/Dashboard.tsx:175-181 | Green car iff the action is Entrée, red car iff Sortie, otherwise the check icon. |
| `Dashboard.OccupancyRate` | src/components/Dashboard.tsx:16 | With 0 ≤ occupied ≤ total the rate lies in 0..100. |
| `Dashboard.StatsConsistent` | src/components/Dashboard.tsx:9-16 | 142 + 58 = 200, there are no more reserved than free spaces, and the rate is exactly 71. |
| `Dashboard.ZoneStatusesKnown` | src/components/Dashboard.tsx:25-30 | Every hardcoded zone status is recognised (never gray or Inconnu), and occupied ≤ total. |

## Left out

- Rendering: JSX layout, CSS class strings, icons and UI library components. Colours, icons, badges and screens are small enums.
- The simulated delays (`setTimeout`, `async`/`await`) in handleLogin and handleRegister. Each handler is one atomic transition; there is no concurrency.
- LoginForm.LoginFormState.HandleSubmit: is atomic, so the transient state while onLogin is awaited (isLoading true, button disabled) is not a separate state. How onLogin ends is a parameter. The page's own handleLogin never throws.
- `Date.now()` is the `now` parameter of HandleRegister. The reservation date input's `min` (today's date) is dropped.
- The toast hook is not part of this model. Each component keeps a log of the toast kinds it emitted, without their wording.
- RegisterForm (src/components/auth/RegisterForm.tsx) is not part of this model. The submitted user data is an arbitrary field map, and no validation is assumed.
- ParkingMap.ZoneColor: requires total > 0. With a total of 0 the source's rate is NaN (red) when available is 0, −∞ (green) when available > 0 and +∞ (red) when available < 0.
- ParkingMap.ZoneColor: compares the exact ratio, not a JavaScript double. Double rounding could only differ from the exact result for totals far beyond any car park.
- Statistics.BarColor: takes an exact real percentage, not a JavaScript double.
- Dashboard.OccupancyRate: is exact. `toFixed(1)`, `toLocaleString` and the `px` strings are formatting.
- ReservationForm.ReservationFormState.HandleInputChange: takes one of the seven field names. The source accepts any string key, but every caller passes one of the seven.
- The dashboard's hardcoded statuses are not derived from the thresholds and are not checked against them. Zone D at 15/20 (75%) is labelled busy, while the map rule gives yellow.
- Decorative constants are not modelled: monthly figures, revenues, ratings, peak times, the environmental-impact figures and the zone positions and descriptions.
- The profile view's display of user fields is presentation.
