# SafeYatra and guggulr, modelled in Dafny

This project models the logic of two web front-ends and one demo backend.

- **SafeYatra** is a pilgrim-safety demo. The model covers:
  - its in-memory Express store and the send-otp, verify-otp, SOS and communication routes;
  - the record shapes and closed enumerations in `shared/schema.ts`;
  - the session provider (`AuthContext`), with local and session storage as maps;
  - the two login pages;
  - the simulated crowd-density samples of both dashboards, and the crowd levels derived from them;
  - the command dashboard's local message feed and alert-response desk;
  - the Firebase-backed communication feed and heatmap components;
  - the lost-and-found report form.
- **guggulr** is a marketing site. The model covers the home page's slideshow and rotation arithmetic, the contact form and the quote dialog.

Stateful components are classes. Their fields are what the component keeps: React state, the storage it writes, and an ordered log of the effects it causes (requests, toasts, navigation, events). Expressions over that state are functions.

Some things are passed in as parameters:

- the clock (`now`, epoch milliseconds);
- random draws;
- fresh ids (with a freshness precondition);
- what foreign code answers: a request's success, a database snapshot, a geolocation result, JSON decoding.

Timers become explicit tick and activity calls. The floating-point percentage tests are stated over exact rationals. They are decided by integer cross-multiplication.

Modules:

| module | file | models |
|---|---|---|
| `Wrappers`, `Text`, `Ordering`, `FormFields` | shared helpers | `Option`; `trim`, `toUpperCase` of one character, decimal rendering and `parseInt`; newest-first sort and `slice(0, n)`; flat form objects |
| `ParseIntFacts` | `parse_int.dfy` | what `parseInt` reads in general: whitespace, an optional sign, the digit run, and nothing after it |
| `Schema` | `schema.dfy` | `shared/schema.ts` |
| `Server` | `server.dfy` | `server-standalone.mjs` |
| `Session` | `session.dfy` | `client/src/contexts/AuthContext.tsx` |
| `Density`, `CommandDashboard`, `PilgrimDashboard` | `density.dfy`, `command_dashboard.dfy`, `pilgrim_dashboard.dfy` | the two dashboard pages |
| `CommunicationFeed`, `HeatmapView` | `communication_feed.dfy`, `heatmap.dfy` | the two Firebase components |
| `LoginSteps`, `PilgrimLogin`, `CommandLogin` | `login_steps.dfy`, `pilgrim_login.dfy`, `command_login.dfy` | the two login pages |
| `LostFoundForm` | `lost_found_form.dfy` | `client/src/components/lost-found-form.tsx` |
| `HomePage`, `ContactPage`, `QuoteModal` | `home_page.dfy`, `contact_page.dfy`, `quote_modal.dfy` | guggulr's home page, contact page and quote dialog |

## Model

Source paths are relative to the repository root.

| member | source | states |
|---|---|---|
| Schema.ParseRole | Downloads/yatra-main/yatra-main/shared/schema.ts:9 | a role text is accepted exactly when it names one of the five roles, and it parses to that role |
| Schema.RoleEnumIsClosed | Downloads/yatra-main/yatra-main/shared/schema.ts:9 | exactly five role strings are accepted |
| Schema.AlertTypeEnumIsClosed | Downloads/yatra-main/yatra-main/shared/schema.ts:23 | the alert type accepts exactly its five strings |
| Schema.AlertStatusEnumIsClosed | Downloads/yatra-main/yatra-main/shared/schema.ts:24 | the alert status accepts exactly its three strings |
| Schema.PriorityEnumIsClosed | Downloads/yatra-main/yatra-main/shared/schema.ts:25 | the alert priority accepts exactly its four strings |
| Schema.ParseAlertType | Downloads/yatra-main/yatra-main/shared/schema.ts:23 | an accepted text is the name of the parsed type; a rejected one names no type |
| Schema.ParseAlertStatus | Downloads/yatra-main/yatra-main/shared/schema.ts:24 | an accepted text is the name of the parsed status; a rejected one names none |
| Schema.ParsePriority | Downloads/yatra-main/yatra-main/shared/schema.ts:25 | an accepted text is the name of the parsed priority; a rejected one names none |
| Schema.ParseUnit | Downloads/yatra-main/yatra-main/shared/schema.ts:108 | an accepted unit text is the name of the parsed unit; a rejected one names none |
| Schema.UnitsAreTheNonPilgrimRoles | Downloads/yatra-main/yatra-main/shared/schema.ts:9-108 | every role but pilgrim names a communication unit, and pilgrim names none |
| Schema.ParseMessagePriority | Downloads/yatra-main/yatra-main/shared/schema.ts:111 | an accepted text is the name of the parsed message priority; a rejected one names none |
| Schema.ParseInsertUser | Downloads/yatra-main/yatra-main/shared/schema.ts:4-16 | the input is accepted exactly when its role is one of the five; an absent `verified` becomes false; the other fields are copied |
| Schema.StoreUser | Downloads/yatra-main/yatra-main/shared/schema.ts:16 | storing an insert record adds exactly the given id and creation time |
| Schema.StoreAlert | Downloads/yatra-main/yatra-main/shared/schema.ts:38 | storing an insert alert adds exactly the given id and timestamp |
| Schema.InsertShapesOmitOnlyIdAndTimestamp | Downloads/yatra-main/yatra-main/shared/schema.ts:16-38 | store and omit are inverse both ways for users and alerts: the insert shapes lose exactly the id and the timestamp |
| Schema.StoreCommunication | Downloads/yatra-main/yatra-main/shared/schema.ts:115 | storing an insert message adds exactly the given id and timestamp |
| Schema.CommunicationInsertRoundTrip | Downloads/yatra-main/yatra-main/shared/schema.ts:105-115 | store and omit are inverse both ways for messages |
| Schema.ParseInsertCommunication | Downloads/yatra-main/yatra-main/shared/schema.ts:105-115 | accepted exactly when the unit is one of the four units and the priority, if given, is valid; "pilgrim" is always rejected; an absent priority becomes normal; the message, user id and user name are copied |
| Schema.ParseOtpVerification | Downloads/yatra-main/yatra-main/shared/schema.ts:120-125 | the fields are copied and `verified` is true only when given as true |
| Server.ValuesInOrder | Downloads/yatra-main/yatra-main/server-standalone.mjs:117-139 | listing a map in its insertion order yields exactly its values |
| Server.ActiveOnly | Downloads/yatra-main/yatra-main/server-standalone.mjs:118 | the filter keeps exactly the elements whose status is active |
| Server.ActiveOnlyMultiplicity | Downloads/yatra-main/yatra-main/server-standalone.mjs:118 | each active alert is kept exactly as often as it occurs; inactive ones never |
| Server.ActiveOnlyAppend | Downloads/yatra-main/yatra-main/server-standalone.mjs:118 | an appended alert comes after the earlier kept ones exactly when it is active |
| Server.ActiveOnlyConcat | Downloads/yatra-main/yatra-main/server-standalone.mjs:118 | filtering a concatenation concatenates the filtered parts, so the order is kept |
| Server.InOrderAppend | Downloads/yatra-main/yatra-main/server-standalone.mjs:93 | adding a new key to a `Map` appends its value to the listing of its values |
| Server.ActiveCount | Downloads/yatra-main/yatra-main/server-standalone.mjs:152-161 | the number of active alerts in the list equals the number of keys holding an active alert |
| Server.FindUser | Downloads/yatra-main/yatra-main/server-standalone.mjs:80-84 | the result is the first index whose email or phone equals the identifier; `None` means no user matches |
| Server.FindUserAppend | Downloads/yatra-main/yatra-main/server-standalone.mjs:80-95 | creating a user never changes an earlier match, and a new match is found at the end |
| Server.OrElse | Downloads/yatra-main/yatra-main/server-standalone.mjs:252-254 | `value \|\| fallback`: an absent or empty text falls back |
| Server.MarkVerified | Downloads/yatra-main/yatra-main/server-standalone.mjs:111 | only the named entry changes, and only its `verified` flag |
| Server.VerifyDoesNotConsume | Downloads/yatra-main/yatra-main/server-standalone.mjs:106-115 | after a successful verification, the same code is accepted again at any time before its expiry |
| Server.ExpiryIsFinal | Downloads/yatra-main/yatra-main/server-standalone.mjs:106-115 | from the expiry on, the stored code is refused at that time and every later one |
| Server.OnlyTheStoredCodeIsAccepted | Downloads/yatra-main/yatra-main/server-standalone.mjs:106-115 | an accepted code is the one stored for the identifier, and it was accepted at every earlier time too |
| Server.StoreThenVerify | Downloads/yatra-main/yatra-main/server-standalone.mjs:97-115 | after storing a code, a verification succeeds exactly for that code strictly before issue time + 600000; other identifiers are unaffected |
| Server.OtpCode | Downloads/yatra-main/yatra-main/server-standalone.mjs:186 | the issued code is six decimal digits whose value is 100000 + draw, so it lies in [100000, 999999] |
| Server.OtpCodeInjective | Downloads/yatra-main/yatra-main/server-standalone.mjs:186 | distinct draws give distinct codes |
| Server.NewUser | Downloads/yatra-main/yatra-main/server-standalone.mjs:214-231 | email is set exactly when the identifier contains '@', otherwise phone; the user matches the identifier; the name is "Pilgrim User" for pilgrims, otherwise the capitalised role + " Officer"; an empty employee id is dropped |
| Server.SosAlertData | Downloads/yatra-main/yatra-main/server-standalone.mjs:248-255 | an SOS alert is emergency, active and critical; the description defaults to "SOS Emergency Alert" and the reporter to "anonymous" |
| Server.MemStorage.constructor | Downloads/yatra-main/yatra-main/server-standalone.mjs:19-78 | an empty store except for five sample heatmap areas and two active sample alerts |
| Server.SeedHeatmaps | Downloads/yatra-main/yatra-main/server-standalone.mjs:33-48 | the five sample areas under the given distinct ids, each stamped with the time, and nothing else |
| Server.MemStorage.UserByIdentifier | Downloads/yatra-main/yatra-main/server-standalone.mjs:80-84 | the first user in creation order that matches the identifier (the `FindUser` index in the listing); `None` exactly when no stored user matches |
| Server.MemStorage.CreateUser | Downloads/yatra-main/yatra-main/server-standalone.mjs:86-95 | exactly one user with the given fields (verify-otp passes `verified` true) is added under the fresh id, stamped with the creation time; nothing else in the store changes; every identifier that already had a matching user keeps finding the same one |
| Server.MemStorage.StoreOtp | Downloads/yatra-main/yatra-main/server-standalone.mjs:97-104 | the identifier's entry is replaced by an unverified one; every other entry and the rest of the store are unchanged |
| Server.MemStorage.VerifyOtp | Downloads/yatra-main/yatra-main/server-standalone.mjs:106-115 | true exactly when an entry exists, the code matches and `now` is strictly before expiry; only then is that entry marked verified; otherwise the store is unchanged |
| Server.MemStorage.ActiveAlerts | Downloads/yatra-main/yatra-main/server-standalone.mjs:117-119 | exactly the stored alerts whose status is active, one entry per active key, as the filter of the creation-order listing |
| Server.MemStorage.CreateAlert | Downloads/yatra-main/yatra-main/server-standalone.mjs:121-130 | exactly one alert is added under the fresh id; no other alert or field changes; an active new alert is listed after all earlier active alerts, which keep their order |
| Server.MemStorage.HeatmapData | Downloads/yatra-main/yatra-main/server-standalone.mjs:132-134 | exactly the stored heatmap areas, position by position the record stored under each created key, in creation order |
| Server.MemStorage.Communications | Downloads/yatra-main/yatra-main/server-standalone.mjs:136-139 | exactly the stored messages, with timestamps non-increasing; messages with equal timestamps keep their creation order |
| Server.MemStorage.CreateCommunication | Downloads/yatra-main/yatra-main/server-standalone.mjs:141-150 | exactly one message is added under the fresh id; nothing else changes |
| Server.MemStorage.OverviewStats | Downloads/yatra-main/yatra-main/server-standalone.mjs:152-161 | the active-alert count is the number of stored active alerts; the other figures are the fixed ones |
| Server.SendOtp | Downloads/yatra-main/yatra-main/server-standalone.mjs:181-199 | a six-digit code expiring at now + 600000 is stored for the identifier and echoed in the response |
| Server.VerifyOtpRoute | Downloads/yatra-main/yatra-main/server-standalone.mjs:205-242 | a rejected code answers 400 with nothing changed; an accepted one marks the code verified and then either reuses the matching user, or creates exactly one new one, or, with no role, answers 500 without creating a user |
| Server.SecondLoginReusesUser | Downloads/yatra-main/yatra-main/server-standalone.mjs:80-84 | a second login with the same identifier finds the user the first one created |
| Server.Sos | Downloads/yatra-main/yatra-main/server-standalone.mjs:246-262 | the alert is always stored; the route answers with it exactly when the request had a location, and otherwise fails |
| Server.PostCommunication | Downloads/yatra-main/yatra-main/server-standalone.mjs:323-337 | the message is stored as given, with priority defaulting to "normal"; nothing else changes |
| Density.CommandBands | Downloads/yatra-main/yatra-main/client/src/pages/command/dashboard.tsx:226-228 | on the command dashboard the high, medium and low populations are [200,599], [75,199] and [15,74] |
| Density.PilgrimBands | Downloads/yatra-main/yatra-main/client/src/pages/pilgrim/dashboard.tsx:125-127 | on the pilgrim dashboard the high, medium and low populations are [150,449], [50,149] and [10,49] |
| Density.Classify | Downloads/yatra-main/yatra-main/client/src/pages/command/dashboard.tsx:248-251 | high exactly above the high threshold, medium exactly between the thresholds, low otherwise |
| Density.ClassifyMonotone | Downloads/yatra-main/yatra-main/client/src/pages/pilgrim/dashboard.tsx:150-153 | a larger population is never classified lower |
| Density.GeneratedPoint | Downloads/yatra-main/yatra-main/client/src/pages/command/dashboard.tsx:220-231 | a generated point has id prefix + index and, on the command dashboard, sector index/5 + 1; its population lies in its intensity's band |
| Density.Count | Downloads/yatra-main/yatra-main/client/src/pages/command/dashboard.tsx:349-350 | the number of positions whose point has the intensity, at most the number of points |
| Density.CountAppend | Downloads/yatra-main/yatra-main/client/src/pages/command/dashboard.tsx:349-350 | an appended point adds one to its own intensity's count only |
| Density.CountUpdate | Downloads/yatra-main/yatra-main/client/src/pages/command/dashboard.tsx:349-350 | changing one point moves one from its old intensity's count to its new one's |
| Density.ZeroCoordinateDisablesGeneration | Downloads/yatra-main/yatra-main/client/src/pages/pilgrim/dashboard.tsx:91 | a 0 latitude or longitude disables generation |
| Density.Generate | Downloads/yatra-main/yatra-main/client/src/pages/command/dashboard.tsx:198-234 | the loop yields min + draw points (25-39 or 15-24); point i is built from draw i and lies in its band |
| Density.PointCounts | Downloads/yatra-main/yatra-main/client/src/pages/pilgrim/dashboard.tsx:97 | the command dashboard generates 25-39 points and the pilgrim dashboard 15-24 |
| Density.GenerationDisagreesWithThresholds | Downloads/yatra-main/yatra-main/client/src/pages/command/dashboard.tsx:226-251 | a point generated high with population 250 would be reclassified medium |
| Density.TickPoint | Downloads/yatra-main/yatra-main/client/src/pages/command/dashboard.tsx:243-260 | id, coordinates and sector are kept; without the coin the point is unchanged; with it the population is redrawn from the old band and the intensity is its class |
| Density.TickAll | Downloads/yatra-main/yatra-main/client/src/pages/pilgrim/dashboard.tsx:140-163 | the tick keeps the length and each point's id, coordinates and sector; points not selected are unchanged; updated points are classified by population |
| Density.TickNeverRaises | Downloads/yatra-main/yatra-main/client/src/pages/pilgrim/dashboard.tsx:143-153 | on both dashboards a tick never raises a point's intensity |
| Density.SecondsUntilUpdate | Downloads/yatra-main/yatra-main/client/src/pages/command/dashboard.tsx:362-366 | max(0, cadence - elapsed): never negative, at most the cadence, 0 exactly once the cadence has elapsed |
| Density.TimeAgo | Downloads/yatra-main/yatra-main/client/src/pages/command/dashboard.tsx:320-326 | "Never" exactly without a date; seconds exactly under 60; whole minutes under an hour; whole hours exactly from 3600 s |
| Density.AgoTextInjective | Downloads/yatra-main/yatra-main/client/src/pages/command/dashboard.tsx:320-326 | different read-outs render as different texts: "Never", and the seconds, minutes and hours each with their own unit letter |
| Density.DensityMonitor.constructor | Downloads/yatra-main/yatra-main/client/src/pages/pilgrim/dashboard.tsx:86-91 | no samples before the position is known |
| Density.DensityMonitor.Refresh | Downloads/yatra-main/yatra-main/client/src/pages/pilgrim/dashboard.tsx:90-137 | with both coordinates truthy the samples are regenerated and the update time set; otherwise nothing changes |
| Density.DensityMonitor.Tick | Downloads/yatra-main/yatra-main/client/src/pages/command/dashboard.tsx:240-263 | the samples become the tick of the old ones and the update time is now; every sample stays explained by its generation band or by its class |
| Density.DensityMonitor.SecondsUntilNext | Downloads/yatra-main/yatra-main/client/src/pages/pilgrim/dashboard.tsx:234-238 | the countdown is never negative and at most the cadence |
| CommandDashboard.CountsFit | Downloads/yatra-main/yatra-main/client/src/pages/command/dashboard.tsx:349-351 | the high, medium and low counts add up to the total, so high and medium never exceed it |
| CommandDashboard.LevelOfCounts | Downloads/yatra-main/yatra-main/client/src/pages/command/dashboard.tsx:346-360 | over the exact percentages: Critical iff high% > 25; High iff not and (high% > 15 or medium% > 40); Medium iff neither and medium% > 20; else Low; Low with no points |
| CommandDashboard.PercentAbove | Downloads/yatra-main/yatra-main/client/src/pages/command/dashboard.tsx:353-358 | a percentage test equals its integer cross-multiplication |
| CommandDashboard.OverallLevel | Downloads/yatra-main/yatra-main/client/src/pages/command/dashboard.tsx:346-360 | Low for no points; otherwise Critical, High, Medium or Low exactly by the percentages of high and medium points among all points, with the thresholds of :353-358 |
| CommandDashboard.RaisingALowPointNeverLowers | Downloads/yatra-main/yatra-main/client/src/pages/command/dashboard.tsx:353-358 | over counts: one more medium or high in place of a low never lowers the level |
| CommandDashboard.RaisingALowSampleNeverLowers | Downloads/yatra-main/yatra-main/client/src/pages/command/dashboard.tsx:346-360 | turning one low sample medium or high never lowers the dashboard's overall level |
| CommandDashboard.MediumToHighCanLower | Downloads/yatra-main/yatra-main/client/src/pages/command/dashboard.tsx:356-358 | turning a medium point high can lower the level (41 medium of 100 is High; 1 high and 40 medium is Medium) |
| CommandDashboard.CommandFeed.constructor | Downloads/yatra-main/yatra-main/client/src/pages/command/dashboard.tsx:9-34 | the three seeded messages, ids 1-3 |
| CommandDashboard.CommandFeed.Edit | Downloads/yatra-main/yatra-main/client/src/pages/command/dashboard.tsx:82 | typing sets the draft to the typed text; the messages are unchanged |
| CommandDashboard.CommandFeed.Send | Downloads/yatra-main/yatra-main/client/src/pages/command/dashboard.tsx:36-48 | a blank draft changes nothing; otherwise exactly one message with id = old length + 1 from "Command Center" is put before the old list and the draft is cleared; ids stay 1..n and distinct |
| CommandDashboard.MockAlerts | Downloads/yatra-main/yatra-main/client/src/pages/command/dashboard.tsx:271-299 | three alerts, all active, at least three minutes old, with distinct ids, newest first; the first and last of high priority, the middle one medium |
| CommandDashboard.ResponseDesk.constructor | Downloads/yatra-main/yatra-main/client/src/pages/command/dashboard.tsx:98-101 | no responses yet, no dialog open, an empty text, not submitting |
| CommandDashboard.ResponseDesk.Edit | Downloads/yatra-main/yatra-main/client/src/pages/command/dashboard.tsx:1274 | typing sets the response text only; the dialog, the responses and the submitting flag are unchanged |
| CommandDashboard.ResponseFor | Downloads/yatra-main/yatra-main/client/src/pages/command/dashboard.tsx:415-422 | the response names the alert, the text and the time, from the fixed officer CMD001 |
| CommandDashboard.ResponseTemplate | Downloads/yatra-main/yatra-main/client/src/pages/command/dashboard.tsx:438-449 | the canned reply for medical, crowd and missing-person alerts, else the general one |
| CommandDashboard.ResponseDesk.Respond | Downloads/yatra-main/yatra-main/client/src/pages/command/dashboard.tsx:400-403 | for an answered alert the disabled button does nothing; otherwise the dialog opens empty for that alert |
| CommandDashboard.ResponseDesk.Close | Downloads/yatra-main/yatra-main/client/src/pages/command/dashboard.tsx:1251 | the dialog closes; nothing else changes |
| CommandDashboard.ResponseDesk.UseTemplate | Downloads/yatra-main/yatra-main/client/src/pages/command/dashboard.tsx:1283 | the text becomes the template for the open alert's type |
| CommandDashboard.ResponseDesk.Submit | Downloads/yatra-main/yatra-main/client/src/pages/command/dashboard.tsx:405-436 | a blank text changes nothing; otherwise `responses[alertId]` is set and all other keys are kept, and the dialog closes; the key was absent before, since the dialog only opens for an unanswered alert (button disabled at :900) |
| PilgrimDashboard.Nearby | Downloads/yatra-main/yatra-main/client/src/pages/pilgrim/dashboard.tsx:205-210 | exactly the points within reach |
| PilgrimDashboard.NearbyMultiplicity | Downloads/yatra-main/yatra-main/client/src/pages/pilgrim/dashboard.tsx:205-210 | each sample within reach is kept exactly as often as it occurs; others never |
| PilgrimDashboard.NearIndicesAppend | Downloads/yatra-main/yatra-main/client/src/pages/pilgrim/dashboard.tsx:205-210 | an appended sample adds its own position to the index set exactly when it is within reach with that intensity |
| PilgrimDashboard.NearbyCount | Downloads/yatra-main/yatra-main/client/src/pages/pilgrim/dashboard.tsx:212-213 | a nearby count is the number of positions with a sample within reach of that intensity |
| PilgrimDashboard.LevelOfNearby | Downloads/yatra-main/yatra-main/client/src/pages/pilgrim/dashboard.tsx:215-217 | High iff more than two high; Medium iff not and (any high or more than three medium); Low otherwise |
| PilgrimDashboard.CurrentLevel | Downloads/yatra-main/yatra-main/client/src/pages/pilgrim/dashboard.tsx:202-218 | Low without points or without a truthy latitude; otherwise the rule over the nearby counts |
| PilgrimDashboard.MoreCrowdNeverLowers | Downloads/yatra-main/yatra-main/client/src/pages/pilgrim/dashboard.tsx:212-217 | one more high or medium nearby point never lowers the level |
| PilgrimDashboard.NearbyAppend | Downloads/yatra-main/yatra-main/client/src/pages/pilgrim/dashboard.tsx:205-213 | a new nearby point adds one to its intensity's count and nothing else |
| PilgrimDashboard.NearbyCrowdNeverLowers | Downloads/yatra-main/yatra-main/client/src/pages/pilgrim/dashboard.tsx:202-218 | a new nearby high or medium sample never lowers the pilgrim's level |
| PilgrimDashboard.SosLocationOf | Downloads/yatra-main/yatra-main/client/src/pages/pilgrim/dashboard.tsx:222-228 | "Location unavailable" exactly when there is a location error or no truthy latitude; otherwise the coordinates |
| Session.ClearedStorage | Downloads/yatra-main/yatra-main/client/src/contexts/AuthContext.tsx:89-129 | the user key is gone; with clearAllData no listed or prefixed key remains; every other key keeps its value; without it only the user key goes |
| Session.CurrentUser | Downloads/yatra-main/yatra-main/client/src/contexts/AuthContext.tsx:319-330 | a user exactly when the stored text is non-empty and parses to something other than `null`, and then the parsed value |
| Session.IsUserSessionValid | Downloads/yatra-main/yatra-main/client/src/contexts/AuthContext.tsx:304-316 | valid exactly when there is a current user and it has a non-empty id and role |
| Session.HasRole | Downloads/yatra-main/yatra-main/client/src/contexts/AuthContext.tsx:333-336 | a held role is the role of a stored user text that parses |
| Session.OneRoleAtATime | Downloads/yatra-main/yatra-main/client/src/contexts/AuthContext.tsx:333-336 | no two different roles are held at once |
| Session.RoleWithoutValidSession | Downloads/yatra-main/yatra-main/client/src/contexts/AuthContext.tsx:304-336 | a stored user with a role but no id holds that role while the session is not valid: `hasRole` does not validate |
| Session.NoRoleAfterLogout | Downloads/yatra-main/yatra-main/client/src/contexts/AuthContext.tsx:89-129 | after a completed logout no role is held |
| Session.RolePredicates | Downloads/yatra-main/yatra-main/client/src/contexts/AuthContext.tsx:333-346 | isAdmin iff the role is admin, administrator or command; isPilgrim iff pilgrim or user; never both |
| Session.LogoutInvalidatesSession | Downloads/yatra-main/yatra-main/client/src/contexts/AuthContext.tsx:304-316 | after a completed logout the stored session is never valid |
| Session.ClearListed | Downloads/yatra-main/yatra-main/client/src/contexts/AuthContext.tsx:96-106 | removes exactly the fixed keys |
| Session.PrefixedKeys | Downloads/yatra-main/yatra-main/client/src/contexts/AuthContext.tsx:108-121 | the scan collects exactly the stored keys with a session prefix |
| Session.RemoveKeys | Downloads/yatra-main/yatra-main/client/src/contexts/AuthContext.tsx:123-125 | removes exactly the collected keys |
| Session.ClearForLogout | Downloads/yatra-main/yatra-main/client/src/contexts/AuthContext.tsx:89-129 | the step-by-step removals leave exactly the cleared storage |
| Session.AuthProvider.constructor | Downloads/yatra-main/yatra-main/client/src/contexts/AuthContext.tsx:28-32 | no user, loading, timer not armed |
| Session.AuthProvider.IsAuthenticated | Downloads/yatra-main/yatra-main/client/src/contexts/AuthContext.tsx:32 | authenticated exactly while the inactivity timer is armed |
| Session.AuthProvider.Restore | Downloads/yatra-main/yatra-main/client/src/contexts/AuthContext.tsx:36-57 | the user is set exactly when the stored session is valid; otherwise a non-empty stored user is removed, and an absent or empty one is left as it was |
| Session.AuthProvider.Login | Downloads/yatra-main/yatra-main/client/src/contexts/AuthContext.tsx:62-75 | the user is set and the timer armed for 30 minutes; the user key is written and the login event sent exactly when storage accepts the write |
| Session.AuthProvider.Logout | Downloads/yatra-main/yatra-main/client/src/contexts/AuthContext.tsx:77-189 | the user and the user key are always gone, also on the error path; a completed logout leaves the cleared storage, empties session storage with clearAllData, sends the events, shows the toast and schedules the redirect 100 ms later |
| Session.AuthProvider.StorageChanged | Downloads/yatra-main/yatra-main/client/src/contexts/AuthContext.tsx:192-208 | local storage carries the other tab's write; only removal of the user key clears the user, with the storage-change event; any other event leaves the user, timer and events as they were |
| Session.OtherTabWrite | Downloads/yatra-main/yatra-main/client/src/contexts/AuthContext.tsx:192-194 | the write a `storage` event reports: no key empties the storage, no new value removes that key, otherwise that key is set; every other key keeps its value |
| Session.NoRoleAfterCrossTabLogout | Downloads/yatra-main/yatra-main/client/src/contexts/AuthContext.tsx:194-336 | after another tab removes the stored user or clears the storage, the session is not valid and no role is held |
| Session.AuthProvider.Activity | Downloads/yatra-main/yatra-main/client/src/contexts/AuthContext.tsx:215-244 | while there is a user the deadline moves to 30 minutes from now; without one nothing changes |
| Session.AuthProvider.InactivityTick | Downloads/yatra-main/yatra-main/client/src/contexts/AuthContext.tsx:212-256 | fires exactly once the deadline has passed, then logs out with all data cleared, the toast and a redirect to "/"; never sends the storage-change event |
| Session.AuthProvider.ClearAllUserData | Downloads/yatra-main/yatra-main/client/src/contexts/AuthContext.tsx:293-302 | both storages are emptied and a reload is requested |
| CommunicationFeed.Shown | Downloads/yatra-main/yatra-main/client/src/components/communication-feed.tsx:19-25 | at most 20 messages, exactly min(n, 20), newest first, all taken from the snapshot; among messages with equal timestamps the shown ones are the first of the snapshot, in its order |
| CommunicationFeed.OnSnapshot | Downloads/yatra-main/yatra-main/client/src/components/communication-feed.tsx:16-26 | a null snapshot keeps the list; any other replaces it by its newest twenty |
| CommunicationFeed.ShownAreNewest | Downloads/yatra-main/yatra-main/client/src/components/communication-feed.tsx:24-25 | a snapshot message that is not shown is no newer than any shown one |
| CommunicationFeed.SendRequest | Downloads/yatra-main/yatra-main/client/src/components/communication-feed.tsx:32-44 | no push exactly when the trimmed text is empty or there is no user; otherwise the trimmed text with unit = role, the user's id and name, priority normal and the time |
| CommunicationFeed.DraftAfterSend | Downloads/yatra-main/yatra-main/client/src/components/communication-feed.tsx:45-50 | the input is cleared exactly after a push that succeeded; otherwise it is kept |
| CommunicationFeed.SentMessageIsTrimmed | Downloads/yatra-main/yatra-main/client/src/components/communication-feed.tsx:37 | a sent message has no surrounding whitespace |
| CommunicationFeed.FormatTimestamp | Downloads/yatra-main/yatra-main/client/src/components/communication-feed.tsx:72-81 | "now" exactly under one whole minute; whole minutes under an hour; whole hours under a day; the date exactly from 1440 minutes |
| CommunicationFeed.StampTextInjective | Downloads/yatra-main/yatra-main/client/src/components/communication-feed.tsx:77-80 | "now", the minutes and the hours read-outs render as different texts |
| CommunicationFeed.ComposedMessagesNeverFromPilgrims | Downloads/yatra-main/yatra-main/client/src/components/communication-feed.tsx:130 | the input is shown only to a signed-in non-pilgrim, so a message sent from it goes out exactly for a non-blank draft and never under the pilgrim unit |
| CommunicationFeed.FutureIsNow | Downloads/yatra-main/yatra-main/client/src/components/communication-feed.tsx:75-77 | a future timestamp reads "now" |
| CommunicationFeed.UnitInitial | Downloads/yatra-main/yatra-main/client/src/components/communication-feed.tsx:68-70 | the upper-cased first character; empty exactly for an empty unit |
| CommunicationFeed.UnitColor | Downloads/yatra-main/yatra-main/client/src/components/communication-feed.tsx:53-66 | the four units' colours, gray for anything else |
| HeatmapView.PercentBelow | Downloads/yatra-main/yatra-main/client/src/components/heatmap.tsx:44-46 | a percentage test equals its integer cross-multiplication |
| HeatmapView.Size | Downloads/yatra-main/yatra-main/client/src/components/heatmap.tsx:43-48 | for any non-zero capacity, positive or negative: small exactly under 30% occupancy, medium exactly from 30% to under 70%, large exactly from 70%, whatever the level; for a zero capacity small exactly for a negative count, large otherwise |
| HeatmapView.SizeMonotone | Downloads/yatra-main/yatra-main/client/src/components/heatmap.tsx:43-48 | for a fixed positive capacity the size never shrinks as the count grows |
| HeatmapView.Color | Downloads/yatra-main/yatra-main/client/src/components/heatmap.tsx:30-41 | green, orange and red for safe, moderate and crowded; gray otherwise |
| HeatmapView.Top | Downloads/yatra-main/yatra-main/client/src/components/heatmap.tsx:76 | the top offset is one of 20, 35, 50, 65 |
| HeatmapView.Left | Downloads/yatra-main/yatra-main/client/src/components/heatmap.tsx:77 | the left offset is one of 20, 40, 60 |
| HeatmapView.PositionsRepeat | Downloads/yatra-main/yatra-main/client/src/components/heatmap.tsx:76-77 | the offsets repeat every four and every three records |
| HeatmapView.Markers | Downloads/yatra-main/yatra-main/client/src/components/heatmap.tsx:66-80 | one marker per record, in order, with its id as key, its colour, its size, and the offsets `Top` and `Left` of its index |
| HeatmapView.ColorFollowsStoredLevel | Downloads/yatra-main/yatra-main/client/src/components/heatmap.tsx:30-41 | the colour depends only on the stored level and is never the gray fallback |
| HeatmapView.OnSnapshot | Downloads/yatra-main/yatra-main/client/src/components/heatmap.tsx:18-24 | a null snapshot changes nothing; any other replaces the whole list and moves the update time |
| HeatmapView.BridgeJunctionDrawnLarge | Downloads/yatra-main/yatra-main/client/src/components/heatmap.tsx:43-48 | a record like the server's seeded Bridge Junction (moderate, 600 of 800) would be coloured moderate yet drawn with the large marker |
| LoginSteps.VerifyEffects | Downloads/yatra-main/yatra-main/client/src/pages/pilgrim/login.tsx:70-94 | the request comes first; a rejection shows the error; an acceptance calls login; navigation to the dashboard happens exactly when it is accepted and the session is saved |
| PilgrimLogin.PilgrimLoginPage.Identifier | Downloads/yatra-main/yatra-main/client/src/pages/pilgrim/login.tsx:25 | the e-mail or the phone, by contact method |
| PilgrimLogin.PilgrimLoginPage.constructor | Downloads/yatra-main/yatra-main/client/src/pages/pilgrim/login.tsx:14-19 | the page starts at the login step with empty fields |
| PilgrimLogin.PilgrimLoginPage.Edit | Downloads/yatra-main/yatra-main/client/src/pages/pilgrim/login.tsx:15-207 | the contact method, e-mail, phone and code become the entered ones; the step, the loading flag and the effects are unchanged |
| PilgrimLogin.PilgrimLoginPage.SendOtp | Downloads/yatra-main/yatra-main/client/src/pages/pilgrim/login.tsx:24-58 | an empty contact makes no request and stays put; otherwise a pilgrim OTP request, and the step becomes 'otp' exactly on success; not loading afterwards |
| PilgrimLogin.PilgrimLoginPage.VerifyOtp | Downloads/yatra-main/yatra-main/client/src/pages/pilgrim/login.tsx:60-95 | a code not of length 6 makes no request; otherwise the pilgrim verify request and its effects; the step is unchanged |
| PilgrimLogin.PilgrimLoginPage.Back | Downloads/yatra-main/yatra-main/client/src/pages/pilgrim/login.tsx:133 | the step returns to 'login' |
| CommandLogin.SelectableRolesAreStaffRoles | Downloads/yatra-main/yatra-main/client/src/pages/command/login.tsx:170-173 | the offered roles are exactly the schema's roles other than pilgrim |
| CommandLogin.CommandLoginPage.constructor | Downloads/yatra-main/yatra-main/client/src/pages/command/login.tsx:15-20 | the page starts at the login step with empty fields |
| CommandLogin.CommandLoginPage.Edit | Downloads/yatra-main/yatra-main/client/src/pages/command/login.tsx:17-197 | the employee id, phone and code become the entered ones; the role, the step, the loading flag and the effects are unchanged |
| CommandLogin.CommandLoginPage.SelectRole | Downloads/yatra-main/yatra-main/client/src/pages/command/login.tsx:166-174 | the role becomes the selected one; nothing else changes |
| CommandLogin.CommandLoginPage.SendOtp | Downloads/yatra-main/yatra-main/client/src/pages/command/login.tsx:25-58 | with role, employee id or phone empty no request is made; otherwise a phone OTP request, and the step becomes 'otp' exactly on success |
| CommandLogin.CommandLoginPage.VerifyOtp | Downloads/yatra-main/yatra-main/client/src/pages/command/login.tsx:60-96 | a code not of length 6 makes no request; otherwise the verify request with role and employee id, and navigation to the command dashboard exactly on an accepted, saved login |
| CommandLogin.CommandLoginPage.Back | Downloads/yatra-main/yatra-main/client/src/pages/command/login.tsx:134 | the step returns to 'login' |
| LostFoundForm.BeforeDot | client/src/components/lost-found-form.tsx:38 | the text up to the first dot, containing no dot |
| LostFoundForm.NestedKey | client/src/components/lost-found-form.tsx:38 | the second dot-separated component of a location field name |
| LostFoundForm.InputChange | client/src/components/lost-found-form.tsx:36-52 | a location field name sets only that key of the location object; any other name sets only that top-level field; everything else is unchanged |
| LostFoundForm.InitialFormIncomplete | client/src/components/lost-found-form.tsx:19-32 | the initial form does not pass the required-field check |
| LostFoundForm.RequiredFilled | client/src/components/lost-found-form.tsx:57 | the form passes the guard exactly when each of the four required fields is truthy |
| LostFoundForm.ClearingARequiredFieldBlocks | client/src/components/lost-found-form.tsx:36-57 | emptying any required field stops the submit, whatever else the form holds |
| LostFoundForm.TypingTheRequiredFieldsUnblocks | client/src/components/lost-found-form.tsx:36-57 | typing text into the four required fields lets any form pass the guard |
| LostFoundForm.WantsPosition | client/src/components/lost-found-form.tsx:69 | the position is asked for only where geolocation exists |
| LostFoundForm.InitialFormWantsPosition | client/src/components/lost-found-form.tsx:19-32 | the fresh form, with latitude 0, asks for the position |
| LostFoundForm.PositionNotAskedTwice | client/src/components/lost-found-form.tsx:69-79 | data carrying a non-zero latitude from the device would not ask again |
| LostFoundForm.ParseIntOf | client/src/components/lost-found-form.tsx:104 | never absent; NaN for an object and exactly for a text with no digits; a parsed text's number; a number's integer part, truncated toward zero |
| LostFoundForm.ReportOf | client/src/components/lost-found-form.tsx:102-113 | an empty age or gender is left out, a given one is sent (the age parsed); reportedBy groups reporter name, phone and relation; the rest are copied |
| LostFoundForm.TypedAgeIsSent | client/src/components/lost-found-form.tsx:104 | an age typed as digits reaches the request as that number |
| LostFoundForm.WithPosition | client/src/components/lost-found-form.tsx:72-79 | only the location changes, and it gains the device's latitude and longitude |
| LostFoundForm.LostFoundFormState.constructor | client/src/components/lost-found-form.tsx:19-32 | the initial form |
| LostFoundForm.LostFoundFormState.Change | client/src/components/lost-found-form.tsx:36-52 | the form becomes its input change |
| LostFoundForm.LostFoundFormState.Submit | client/src/components/lost-found-form.tsx:54-141 | without the required fields an error and no request; otherwise the position is asked for only when the latitude is falsy, the report is posted, and success resets the form and closes it; no report is ever posted without the required fields |
| HomePage.Prev | Downloads/guggulr-main/guggulr-main/src/pages/HomePage.tsx:50 | the previous slide, wrapping to the last, within [0, n) |
| HomePage.Next | Downloads/guggulr-main/guggulr-main/src/pages/HomePage.tsx:51 | the next slide, wrapping to the first, within [0, n) |
| HomePage.PrevNextInverse | Downloads/guggulr-main/guggulr-main/src/pages/HomePage.tsx:50-51 | previous and next are mutual inverses |
| HomePage.Advance | Downloads/guggulr-main/guggulr-main/src/pages/HomePage.tsx:42 | repeated advances stay within [0, n) |
| HomePage.AdvanceIsRotation | Downloads/guggulr-main/guggulr-main/src/pages/HomePage.tsx:42 | k ≤ n advances move k places round the ring |
| HomePage.FullCycleReturns | Downloads/guggulr-main/guggulr-main/src/pages/HomePage.tsx:42 | n advances return to the start |
| HomePage.VisibleItems | Downloads/guggulr-main/guggulr-main/src/pages/HomePage.tsx:48-58 | exactly three entries, tagged prev, current and next, with current = items[i] |
| HomePage.AutoSlideshow.Tick | Downloads/guggulr-main/guggulr-main/src/pages/HomePage.tsx:39-46 | advances one slide with wrap-around unless hovered |
| HomePage.AutoSlideshow.constructor | Downloads/guggulr-main/guggulr-main/src/pages/HomePage.tsx:36-37 | the slideshow starts at the first slide, not hovered |
| HomePage.AutoSlideshow.Hover | Downloads/guggulr-main/guggulr-main/src/pages/HomePage.tsx:63-64 | sets the hover flag only |
| HomePage.AutoSlideshow.Select | Downloads/guggulr-main/guggulr-main/src/pages/HomePage.tsx:90 | the index becomes exactly the clicked one |
| HomePage.AutoSlideshow.Shown | Downloads/guggulr-main/guggulr-main/src/pages/HomePage.tsx:48-58 | the current slide is in the middle of the three shown |
| HomePage.FeatureRotation.Tick | Downloads/guggulr-main/guggulr-main/src/pages/HomePage.tsx:178-183 | the next of the five features, wrapping after the fifth |
| HomePage.FeatureRotation.constructor | Downloads/guggulr-main/guggulr-main/src/pages/HomePage.tsx:135 | the rotation starts at the first feature |
| HomePage.Duplicated | Downloads/guggulr-main/guggulr-main/src/pages/HomePage.tsx:243-246 | the list twice over, of length 2n |
| HomePage.StripRepeatsAfterOneCopy | Downloads/guggulr-main/guggulr-main/src/pages/HomePage.tsx:243-260 | the strip is the list twice; card i+n is card i; the strip is given 2n·326px and one cycle scrolls n·326px |
| HomePage.RestartFallsShortOfSecondCopy | Downloads/guggulr-main/guggulr-main/src/pages/HomePage.tsx:203-260 | with cards of 320px plus a 24px gap, one cycle of n cards stops 18n px before the second copy's first card, so the restart is not seamless |
| HomePage.SixTestimonialsRestartInsideTheLastCard | Downloads/guggulr-main/guggulr-main/src/pages/HomePage.tsx:160-260 | for the six testimonials the cycle scrolls 1956px and ends 236px into the sixth card |
| FormFields.SetField | Downloads/guggulr-main/guggulr-main/src/pages/ContactPage.tsx:28-31 | only the named field changes |
| FormFields.SetFieldFills | Downloads/guggulr-main/guggulr-main/src/components/QuoteModal.tsx:17-20 | setting a non-empty value fills that field and leaves whether the others are filled as it was |
| FormFields.StoredList | Downloads/guggulr-main/guggulr-main/src/pages/ContactPage.tsx:43 | a missing stored list reads as empty, a present one as itself |
| ContactPage.ContactForm.Change | Downloads/guggulr-main/guggulr-main/src/pages/ContactPage.tsx:28-31 | the form changes only in the named field |
| ContactPage.ContactForm.constructor | Downloads/guggulr-main/guggulr-main/src/pages/ContactPage.tsx:9-13 | the form starts empty, so it cannot be sent as it is; the stored list is the one given and there are no messages shown |
| ContactPage.ContactForm.Submit | Downloads/guggulr-main/guggulr-main/src/pages/ContactPage.tsx:33-52 | with name, e-mail or message empty the error toast and nothing else; otherwise exactly one entry (form plus id) is appended after the unchanged earlier ones, and the form is emptied |
| QuoteModal.InitialQuoteForm | Downloads/guggulr-main/guggulr-main/src/components/QuoteModal.tsx:8-14 | empty contact fields, quantity "10", and a message naming the product |
| QuoteModal.OpeningFormNeedsContact | Downloads/guggulr-main/guggulr-main/src/components/QuoteModal.tsx:24 | the opening form fails validation, and passes once name and e-mail are filled |
| QuoteModal.QuoteDialog.Change | Downloads/guggulr-main/guggulr-main/src/components/QuoteModal.tsx:17-20 | the form changes only in the named field |
| QuoteModal.QuoteDialog.constructor | Downloads/guggulr-main/guggulr-main/src/components/QuoteModal.tsx:8-14 | the dialog starts with the opening form for its product, the stored list given, no messages shown and no close requested |
| QuoteModal.QuoteDialog.Submit | Downloads/guggulr-main/guggulr-main/src/components/QuoteModal.tsx:22-47 | with name, e-mail or quantity empty the error toast and nothing stored; otherwise exactly one request (form, product name, id, timestamp) is appended after the unchanged earlier ones and the dialog asks to close; the form is never reset |
| Ordering.SortDesc | Downloads/yatra-main/yatra-main/server-standalone.mjs:138 | a permutation of the input, with timestamps non-increasing |
| Ordering.WithKeyConcat | Downloads/yatra-main/yatra-main/server-standalone.mjs:138 | the elements with one key of a concatenation are those of each part, in turn |
| Ordering.InsertDescStable | Downloads/yatra-main/yatra-main/server-standalone.mjs:138 | an inserted element comes after every element with the same key |
| Ordering.SortDescStable | Downloads/yatra-main/yatra-main/server-standalone.mjs:138 | the sort is stable: elements with equal timestamps keep their input order |
| Ordering.Take | Downloads/yatra-main/yatra-main/client/src/components/communication-feed.tsx:25 | `slice(0, n)`: the first min(length, n) elements |
| Ordering.TakeWithKey | Downloads/yatra-main/yatra-main/client/src/components/communication-feed.tsx:25 | cutting keeps, for each key, a prefix of the elements with that key |
| Text.Trim | Downloads/yatra-main/yatra-main/client/src/components/communication-feed.tsx:33 | the middle of the text: only whitespace around it, none at either of its ends, empty exactly for an all-whitespace text |
| Text.TrimIdempotent | Downloads/yatra-main/yatra-main/client/src/components/communication-feed.tsx:37 | trimming twice is trimming once |
| Text.Capitalize | Downloads/yatra-main/yatra-main/server-standalone.mjs:218 | the first character upper-cased, the rest kept |
| Text.ParseIntRoundTrip | client/src/components/lost-found-form.tsx:104 | `parseInt` of an integer's decimal rendering gives back the integer |
| Text.ParseInt | client/src/components/lost-found-form.tsx:104 | NaN exactly when, after leading whitespace and one optional sign, no digit follows |
| ParseIntFacts.ParseIntReads | client/src/components/lost-found-form.tsx:104 | for any whitespace, optional sign, digit run and a following text that does not start with a digit: the signed value of the digit run |
| ParseIntFacts.ParseIntAfterSpaces | client/src/components/lost-found-form.tsx:104 | leading whitespace does not change what is read |
| ParseIntFacts.ParseIntPlus | client/src/components/lost-found-form.tsx:104 | a leading `+` is read past: `"+5"` gives 5 |
| ParseIntFacts.ParseIntLeadingZeros | client/src/components/lost-found-form.tsx:104 | leading zeros are read past: `"007"` gives 7 |
| ParseIntFacts.ParseIntStopsAtLetter | client/src/components/lost-found-form.tsx:104 | reading stops at the first non-digit: `"12abc"` gives 12 |
| ParseIntFacts.ParseIntStopsAtPoint | client/src/components/lost-found-form.tsx:104 | a fraction is not read: `"-3.9"` gives -3 |
| Text.Unsigned | client/src/components/lost-found-form.tsx:104 | the text itself or its suffix one shorter, shorter exactly when it starts with a sign |
| Text.IntToStringInjective | Downloads/yatra-main/yatra-main/client/src/components/communication-feed.tsx:78-79 | different integers render differently |
| Text.AgoReadOutInjective | Downloads/yatra-main/yatra-main/client/src/components/communication-feed.tsx:78-79 | a number, a unit letter and " ago" give back both the number and the letter |

## Where the code and the design disagree

The model follows the code in each of these cases.

- **Codes are not consumed.** A correct OTP verifies again and again until it expires. `verified` is set but never read. Expiry is strict: a code is accepted only before `expiresAt`.
- **Generated intensities contradict the thresholds.** Generation picks an intensity from the distance to the centre and draws a population from that intensity's band. The tick then classifies a population with thresholds that do not match those bands (300/100 on the command dashboard, 200/75 on the pilgrim one). A point therefore matches its population's class only after a tick has redrawn it, and a tick never raises any point's intensity.
- **At most one response per alert.** Only the disabled Respond button ensures this. The submit itself overwrites the key.
- **Inactivity logout carries no reason.** It calls the ordinary logout. Only the cross-tab storage event sends the `storage_change` reason.
- **Only active alerts are listed.** `getActiveAlerts` returns exactly the alerts with status `active`, so responding alerts are not listed.
- **SOS without a location fails after storing.** The alert is stored before its location is read, so the route answers 500 and the alert stays stored.
- **verify-otp without a role fails after verifying.** For an unknown identifier and no role, the route answers 500 after the code has already been marked verified.
- **A failed session save still sets the user.** When login cannot write the session, the context holds the user but the page shows its error and does not navigate.
- **An empty snapshot clears the feed.** A snapshot of `{}` is truthy, so it empties the shown feed. Only `null` keeps it.
- **Some failures show no toast.** A lost-and-found report that fails after the position lookup shows no error: the failure happens inside the geolocation callback, outside the handler's `try`.
- **Colour and size disagree.** The heatmap colours a marker by its stored level but sizes it by occupancy. A record like the Express store's seeded Bridge Junction (moderate, 600 of 800) would therefore be drawn orange yet large, while the legend puts "moderate" at 31-70%. The component reads the Firebase `heatmaps` node, not that in-memory store, so this is about such a record, not about what the demo shows.
- **The testimonial strip jumps.** The comment promises a seamless infinite scroll, and the animation scrolls 326px per testimonial. Each card is 320px wide and does not shrink, and the gap is 24px, so a card really takes 344px. One cycle therefore ends 18px per card short of the second copy, and the view jumps when it restarts.
- **The quote dialog keeps its form.** After a successful submit the form is not reset; only `onClose` is called.

## Left out

- Rendering, styling, animation and the pages and components not named above. They are presentation only.
- Floating-point arithmetic. Percentages are exact rationals, decided by integer cross-multiplication. Double rounding at exact boundaries is not modelled.
- Geometry:
  - the random angles and distances of generation, and the intensity they imply (both are inputs);
  - the Euclidean "nearby" test of the pilgrim dashboard (a predicate parameter);
  - the SVG viewport percentages;
  - the CountUpAnimation easing.
- `Math.random`, `randomUUID` and `Date.now`. They are parameters with range or freshness preconditions.
- Timers, intervals and their cleanup. They are explicit tick and activity calls; interleavings are not modelled.
- Async intermediate states. A handler runs to completion, so `isLoading` and `isSubmitting` are only seen false between handlers.
- Firebase (`onValue`, `push`). A snapshot is an input sequence or `None` for null; a push's success is a parameter.
- Express plumbing: CORS, body parsing, logging, `listen`, the health route and the GET routes' error handling. The send-otp 500 path is also left out; it cannot be reached in the in-memory store.
- `server-standalone.js` and `server/storage.ts`. That storage module is not part of this model.
- Browser plumbing:
  - JSON parse and stringify: decoding is a function parameter, and stored lists are held decoded;
    the parameter is taken to decode the text `null` as `Null`;
  - `window.dispatchEvent` payloads beyond the event kind;
  - `window.location` redirects, which are recorded as effects;
  - toast descriptions, where only titles and variants are recorded;
  - a corrupted stored list on the contact page and in the quote dialog.
- Session.AuthProvider.Logout: storage can throw only when clearing starts. A failure part-way through the key loop is not modelled.
- Session.AuthProvider.Logout: every option is an explicit parameter. The defaults of `logout(options = {})` (clearAllData and showNotification true, no redirect) are not modelled; the inactivity tick passes clearAllData true itself.
- Session.AuthProvider.StorageChanged: every `storage` event is taken to be about local storage. Events for session storage, which the browser also delivers, are not told apart.
- CommunicationFeed.StampTextInjective: says nothing about the date read-out, since `toLocaleDateString` depends on the locale and is left out.
- LostFoundForm.Spread: spreading a text or a number is taken to copy no properties. JavaScript would copy a string's indexed characters.
- LostFoundForm.ParseIntOf and Text.ParseInt: decimal only. Hexadecimal prefixes and the exponent renderings of large numbers are not modelled.
- Text.Upper: ASCII only. There is no Unicode case mapping.
- ColorFollowsStoredLevel: holds because the stored level is typed as the three-valued enum. The component casts raw Firebase values without checking them, so an unknown level would be drawn gray there.
- HomePage.AutoSlideshow.constructor: requires a non-empty item list. With no items the source's index arithmetic yields NaN. The component is never rendered.
- Locale formatting (`toLocaleTimeString`, `toLocaleDateString`, `toFixed`). The date read-out of the feed is a tag carrying the timestamp.
- zod's `.email()` check, the drone schema, and the lost-and-found status component.
- Every request's missing-field handling. Absent body fields are `Option`s only where the route reads them.
