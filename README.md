# Parcel lifecycle model of a courier back end

This project models the parcel lifecycle engine of a courier service written in JavaScript on Express and Mongoose, and proves properties of it in Dafny. The engine covers:

- booking a parcel;
- moving it through the status state machine (BOOKED, ASSIGNED, PICKED_UP, IN_TRANSIT, DELIVERED, FAILED, CANCELLED);
- ingesting an agent's tracking points;
- fanning events out to socket.io rooms;
- notifying the customer by e-mail, by SMS and in-app.

Around the engine the project models:

- the administrator's and the agent's parcel operations;
- the account state machine of the authentication controller (registration with an e-mail OTP, verification, login, password reset and change, refresh-token rotation, logout);
- the small pure pieces: the role gate, locale resolution, the environment schema, the report filter, and the error-to-response classification.

## How the model is built

The database is one class, `Store.Database`, with one sequence per collection, kept in insertion order. Insertion order is taken as `createdAt` order, so "newest first" is reverse insertion order. `Database.Valid()` states what the `_id` fields and the unique tracking-code index guarantee.

The socket layer is the class `Emitter.SocketEmitter`. It holds the registered server handle and a log of every publication.

Each service operation that writes is a method over these two objects. Its `ensures` state the whole new state:

- each changed sequence, in terms of the old state and of specification functions;
- every sequence that stays the same.

Pure decisions are functions whose contracts state what the source promises. Examples: the transition table, the access guard, the checks of each operation in their order, the template renderer, and each step of the authentication controller.

Lemmas relate the pieces. Examples: the table is exactly ten pairs; assignment bypasses the table; notification logging is per channel; a refresh token is rejected once rotated; a second OTP entry fails.

Things outside the program's own logic become inputs:

- the clock (`now: Timestamp`);
- generated ids and tracking codes (fresh-id parameters);
- OTP and JWT tokens (parameters);
- JWT verification and bcrypt comparison (function-typed parameters);
- the e-mail and SMS transports (their outcome, `SendOutcome`);
- the Google directions service (a function parameter).

`Promise.all` and `Promise.allSettled` are modelled sequentially, in array order.

## Model

| member | source | states |
|---|---|---|
| ParcelModel.ParseStatus | model/parcel.model.js:3-11 | a string reads as a status iff it is one of the seven enum spellings, and it reads back as that spelling |
| ParcelModel.StatusNameRoundTrip | model/parcel.model.js:3-11 | spelling a status and reading it back gives the same status, and every spelling is in the enum |
| ParcelModel.ParsePayment | model/parcel.model.js:13 | a payment type is accepted iff it is COD or PREPAID |
| ParcelModel.ApplySchemaDefaults | model/parcel.model.js:15-36 | a created parcel gets status BOOKED and codAmount 0 when those are left out, no agent, no delivery time, no failure reason and no deletion marker, and keeps every supplied field (customer, both addresses, type, size, weight, payment type, schedule, codes) |
| Store.FindFirst | services/parcel.service.js:234 | findOne gives the first stored record that matches, and nothing only when no record matches |
| Store.Where | services/parcel.service.js:127 | find(filter) holds only the collection's matching records, and every one of them |
| Store.WhereAppend | services/parcel.service.js:186-191 | a new record joins the end of a filter's result iff it matches |
| Store.NewestFirstReorders | services/parcel.service.js:132 | sorting newest first only reorders the records (same multiset), and doing it twice gives back the insertion order |
| Store.Limit | services/parcel.service.js:132 | limit(n) keeps the first min(n, count) records, in order; as in MongoDB, limit(0) sets no limit and keeps them all |
| Store.NewestPrefix | services/parcel.service.js:132 | sorting newest first and keeping n gives the last min(n, count) records of the collection (all of them for n = 0), the newest at the head |
| Store.NewestFirstAppend | services/parcel.service.js:127 | a record stored last becomes the head of the newest-first order, ahead of the previous order |
| Store.LookupParcel | services/parcel.service.js:167 | findById gives a stored parcel with that id, and nothing only when no parcel has it |
| Store.LookupUser | services/admin.service.js:39 | findById gives a stored user with that id, and nothing only when no user has it |
| Store.LookupAddress | services/parcel.service.js:17-18 | populating an address id gives a stored address with that id, and nothing only when no address has it |
| UserModel.ParseLanguage | model/user.model.js:4 | a language string is accepted iff it is in LanguageEnum, and it maps back to itself |
| NotificationModel.SerializeForgetsOnlyOwner | services/notification.service.js:109-118 | two notifications have the same client view iff they differ at most in their owner and role: every other field reaches the client |
| NotificationModel.UnreadCount | services/notification.service.js:138-141 | the unread count of a user is at most the number of notifications, and is 0 iff none of them is that user's and unread |
| NotificationModel.UnreadCountAppend | services/notification.service.js:129-141 | a new notification adds one to its owner's unread count iff it is unread, and nothing to anyone else's |
| StatusMachine.CanTransition | services/parcel.service.js:153-164 | canTransition holds for exactly the ten listed pairs and is false for every other pair of strings |
| StatusMachine.NoSelfLoop | services/parcel.service.js:154-163 | no status may move to itself |
| StatusMachine.UnknownTargetRejected | services/parcel.service.js:163 | a target outside the status enum is never allowed |
| StatusMachine.TerminalsAreTheDeadEnds | services/parcel.service.js:154-162 | DELIVERED and CANCELLED allow no move, and every other status allows at least one |
| StatusMachine.HappyPathAllowed | services/parcel.service.js:155-158 | BOOKED, ASSIGNED, PICKED_UP, IN_TRANSIT, DELIVERED is allowed step by step |
| StatusMachine.StepGoesForward | services/parcel.service.js:154-163 | every allowed move raises the journey rank, except a retry out of FAILED |
| StatusMachine.PathClimbs | services/parcel.service.js:154-163 | along a valid path that never leaves FAILED, the rank grows by at least one per move |
| StatusMachine.BoundedWithoutRetry | services/parcel.service.js:154-163 | without a retry out of FAILED, a valid path has at most five statuses |
| Emitter.StatusFanOut | sockets/emitter.js:7-14 | with no server nothing is published; otherwise parcel:status goes with the same payload to parcel:<id> and customer:<id>, and to agent:<id> iff the agent id is truthy (2 or 3 publications) |
| Emitter.TrackingFanOut | sockets/emitter.js:16-19 | with no server nothing is published; otherwise exactly one parcel:tracking publication goes to parcel:<id> |
| Emitter.StatusFanOutRooms | sockets/emitter.js:9-13 | a room hears a status event iff it is the parcel's, the customer's or (for a truthy agent) the agent's room |
| Emitter.SocketEmitter.constructor | sockets/emitter.js:1 | the module starts with no server and nothing sent |
| Emitter.SocketEmitter.RegisterSocketServer | sockets/emitter.js:3-5 | later emits go through the new server; nothing is published |
| Emitter.SocketEmitter.EmitParcelStatus | sockets/emitter.js:7-14 | the publish log grows by exactly StatusFanOut of the call |
| Emitter.SocketEmitter.EmitTrackingPoint | sockets/emitter.js:16-19 | the publish log grows by exactly TrackingFanOut of the call |
| Emitter.SocketEmitter.EmitUserNotification | services/notification.service.js:143-150 | the user event is handed over once; no room publication is made |
| Templates.NormalizeLanguage | utils/templates/parcelNotificationTemplates.js:11 | BN is chosen exactly for "BN", "Bn", "bN" and "bn"; anything else, including a missing language, gives EN |
| Templates.GetStatusLabel | utils/templates/parcelNotificationTemplates.js:117-120 | a known status gives STATUS_LABELS in the normalised language; any other string is returned as it is |
| Templates.GetStatusLabelKnown | utils/templates/parcelNotificationTemplates.js:117-120 | the label of each stored status is the table's entry for it |
| Templates.Render | utils/templates/parcelNotificationTemplates.js:96-115 | an unknown template key renders an empty subject, html and SMS; in either language, PARCEL_BOOKED and PARCEL_STATUS_UPDATED give a non-empty subject, html and SMS that each contain the tracking code |
| Templates.StatusUpdateShowsLabel | utils/templates/parcelNotificationTemplates.js:65-92 | the status update shows getStatusLabel's label (or the raw status) in the subject, the html and the SMS |
| Templates.StatusUpdateShowsNote | utils/templates/parcelNotificationTemplates.js:65-92 | a non-empty note ends the SMS with "Note: <note>" (or the Bengali prefix) and gets its own paragraph in the html |
| Templates.EmptyNoteIsNoNote | utils/templates/parcelNotificationTemplates.js:68-82 | an empty note renders exactly like a missing one |
| Templates.BookedShowsSchedule | utils/templates/parcelNotificationTemplates.js:30-62 | the booking message shows the scheduled pickup time when there is one, and the notify-on-assignment sentence otherwise, in the html and the SMS |
| Templates.EtaOnlyInEnglish | utils/templates/parcelNotificationTemplates.js:74-92 | only the English status update shows the next milestone; in Bengali the eta changes nothing |
| NotificationService.EmailAction | services/notification.service.js:72-75 | the e-mail action throws iff the transport throws, and otherwise settles with status SENT |
| NotificationService.DispatchLogEntry | services/notification.service.js:28-49 | the log entry is FAILED iff the action threw or reported FAILED; it carries the parcel, channel, recipient, template and the provider id of a resolved result |
| NotificationService.SkippedIsLoggedAsSent | services/notification.service.js:36 | a transport result of SKIPPED is logged as SENT |
| NotificationService.PlannedDispatches | services/notification.service.js:63-90 | e-mail is planned iff the customer has an e-mail and the subject and html are non-empty; SMS iff there is a phone and the SMS text is non-empty; e-mail comes first |
| NotificationService.DispatchLogs | services/notification.service.js:92-93 | one log entry per planned dispatch, in order, each with its own channel and recipient |
| NotificationService.MergeContext | services/notification.service.js:54-61 | the render context keeps the caller's values, defaults status to the parcel's, and takes the tracking code, customer name and address texts from the parcel |
| NotificationService.EventLogsPerChannel | services/notification.service.js:63-93 | an event logs at most two entries, one per channel; there is an SMS entry iff SMS was eligible and an e-mail entry iff e-mail was, whatever the other channel did |
| NotificationService.PlannedLogsPerChannel | services/notification.service.js:63-93 | for one customer and one rendering: at most two entries, an e-mail entry iff e-mail is eligible, an SMS entry iff SMS is, and no channel twice |
| NotificationService.BookingAlwaysEmails | services/notification.service.js:65-78 | a booking for a customer with an e-mail always fires the e-mail channel first, and that entry is FAILED iff the transport threw |
| NotificationService.DispatchChannel | services/notification.service.js:28-49 | exactly one log entry is appended and nothing else changes; nothing is rethrown |
| NotificationService.SettleDispatches | services/notification.service.js:92-93 | settling the planned tasks appends exactly their log entries, in push order, and changes no other collection |
| NotificationService.NotifyParcelEvent | services/notification.service.js:51-94 | the log grows by exactly EventLogs of the event: nothing without a resolvable customer, else one entry per eligible channel in push order |
| NotificationService.NewNotification | services/notification.service.js:129-136 | a created notification is unread with no read time and carries the given fields |
| NotificationService.CreateUserNotification | services/notification.service.js:120-153 | with a missing owner, role, type or title: null, and nothing is stored or emitted; otherwise one unread record is stored and emitted with the owner's unread count, which grew by one |
| NotificationService.MarkRead | services/notification.service.js:179-183 | the result is read; an unread notification gets the current time, and a read one keeps its readAt; no other field changes |
| NotificationService.MarkReadIdempotent | services/notification.service.js:179-183 | marking twice keeps the first read time |
| NotificationService.MarkNotificationAsRead | services/notification.service.js:173-191 | the method fails with 404 "Notification not found" unless the notification is the user's; otherwise only that record becomes MarkRead of itself, and the reply carries it and the fresh unread count |
| NotificationService.MarkAllRead | services/notification.service.js:194-197 | the store keeps its length; each of the user's notifications becomes MarkRead of itself (so only unread ones change, and only in isRead and readAt), and every other user's stays as it was; a notification is read afterwards iff it was read before or is the user's |
| NotificationService.MarkAllReadClears | services/notification.service.js:193-201 | after the bulk update the user has no unread notification, and no other user's notifications or counts change |
| NotificationService.MarkAllReadKeepsCount | services/notification.service.js:194-197 | the bulk update for one user leaves every other user's unread count as it was |
| NotificationService.MarkAllNotificationsAsRead | services/notification.service.js:193-201 | the store becomes MarkAllRead of itself, and the returned 0 equals the user's true unread count |
| ParcelService.EnsureParcelAccess | services/parcel.service.js:24-36 | a missing parcel and an admin always pass; a customer passes iff it owns the parcel; an agent passes iff it is assigned; every failure is 403 |
| ParcelService.DocumentText | services/parcel.service.js:27-32 | the text of a populated user document holds more than its id, so it is never equal to that id |
| ParcelService.EnsureParcelAccessAsWritten | services/parcel.service.js:24-36 | the guard run on populated references, as written: a missing parcel and an admin pass; the owning customer is refused (403, or a TypeError when the customer document is missing); the assigned agent is refused 403 "Parcel not assigned to this agent" |
| ParcelService.OwnerRefusedAsWritten | services/parcel.service.js:24-36 | every owning customer and every assigned agent passes the id comparison and is refused by the guard as written |
| ParcelService.FindParcelForUser | services/parcel.service.js:116-123 | a live parcel the user may see (by the id comparison of EnsureParcelAccess) is returned; a missing or deleted parcel gives 404 "Parcel not found" |
| ParcelService.StatusUpdateCheckCases | services/parcel.service.js:167-179 | the update passes iff the parcel is live, an agent actor is the assigned agent, and the move is allowed; the first failing check (not found, then the agent guard, then the table) decides the error |
| ParcelService.Transitioned | services/parcel.service.js:181-183 | status becomes the target; deliveredAt is set only for DELIVERED and otherwise kept; failureReason is the note for FAILED and otherwise null; nothing else changes |
| ParcelService.TransitionKeepsConsistent | services/parcel.service.js:153-183 | an allowed transition keeps "delivery time only when delivered, failure reason only when failed" |
| ParcelService.StatusAudit | services/parcel.service.js:193-199 | a status change writes one PARCEL_STATUS_UPDATED audit entry iff the actor is ADMIN |
| ParcelService.UpdateParcelStatus | services/parcel.service.js:166-231 | a failed check returns its error with no write and no publish; otherwise the parcel is replaced by Transitioned, plus one history record, an admin's audit entry, the status fan-out, for an agent the in-app notice to the customer and its user event (none for an admin), and the PARCEL_STATUS_UPDATED notification logs |
| ParcelService.SaveStatusChange | services/parcel.service.js:181-206 | the checked change replaces the parcel, adds one history record, an admin's audit entry and the status fan-out, and keeps every id and tracking code unique |
| ParcelService.NoticeCustomer | services/parcel.service.js:208-222 | an agent's update stores one unread in-app notice for the parcel's customer and emits exactly AgentNoticeEvents; nothing when the parcel has no customer |
| ParcelService.AgentNoticeEvents | services/notification.service.js:143-150 | one user event iff the parcel has a customer, addressed to that customer as CUSTOMER, carrying the serialised notice and the customer's unread count including it |
| ParcelService.BookedParcelRules | services/parcel.service.js:50-63 | a booked parcel is BOOKED with no agent; PREPAID forces codAmount 0, and COD keeps the given amount (0 when none); both scan codes are the tracking code |
| ParcelService.CreateParcelBooking | services/parcel.service.js:38-86 | an unknown payment type fails 400 "Invalid payment type" before anything is created; otherwise both addresses are stored; a taken tracking code is a duplicate-key error; otherwise one parcel, one BOOKED "Booking created" history record, the fan-out without an agent, and the PARCEL_BOOKED notification logs |
| ParcelService.SaveBooking | services/parcel.service.js:50-77 | the new parcel is appended with one BOOKED "Booking created" history record and the fan-out without an agent; ids and tracking codes stay unique |
| ParcelService.AgentAssignmentCheck | services/parcel.service.js:137-140 | tracking passes iff the parcel exists and is assigned to exactly this agent; otherwise it fails 403 "Parcel not assigned to agent" |
| ParcelService.CreateTracking | services/parcel.service.js:136-151 | a failed check returns 403 and stores nothing; otherwise exactly one point is appended and published only to the parcel's room |
| ParcelService.TrailOf | services/parcel.service.js:132 | find({parcelId}) on the tracking points holds only that parcel's stored points, and every one of them |
| ParcelService.FeedOf | services/parcel.service.js:132-133 | the feed holds the newest min(n, count) points of the parcel (all of them for n = 0), newest first; latest is the first of them, or null |
| ParcelService.GetTrackingFeed | services/parcel.service.js:130-134 | access errors pass through; a parcel the user may see always succeeds, and the feed has at most 20 points |
| ParcelService.HistoryOf | services/parcel.service.js:127 | the parcel's history holds exactly the parcel's own records |
| ParcelService.ChangeIsNewest | services/parcel.service.js:186-191 | a new history record heads the parcel's history, followed by the history as it was |
| ParcelService.GetStatusHistory | services/parcel.service.js:125-128 | access errors pass through; a parcel the user may see always succeeds, with the parcel's history, newest first |
| ParcelService.GetParcelTrackingByCode | services/parcel.service.js:233-252 | with no live parcel of that code the result is 404; for the first live parcel with that code, a refused access gives that 403 error, and an allowed one gives that parcel, its whole history and its newest 50 points |
| AdminService.AssignedTo | services/admin.service.js:44-48 | assignment sets status ASSIGNED and the agent, and changes nothing else |
| AdminService.AssignmentBypassesTable | services/admin.service.js:44-48 | assignment gives ASSIGNED from every status, although the table allows ASSIGNED only from BOOKED and FAILED |
| AdminService.AssignmentCanBreakConsistency | services/admin.service.js:44-48 | assigning a delivered parcel gives an ASSIGNED parcel that still has a delivery time, a state no allowed transition produces |
| AdminService.AssignCheck | services/admin.service.js:39-51 | assignment passes iff the agent exists with role AGENT and the parcel exists; a bad agent fails 400 "Invalid agent" before the parcel is looked at, and a good agent with a missing parcel fails 404 "Parcel not found" |
| AdminService.AssignParcelAgent | services/admin.service.js:38-74 | a failed check returns its error with no write and no publish; otherwise the parcel becomes AssignedTo, plus one "Assigned to <name>" history record, one PARCEL_ASSIGNED audit entry, and the ASSIGNED fan-out to the parcel, customer and agent rooms |
| AdminService.AdminParcelFilters | services/admin.service.js:19-27 | each filter key is present iff its parameter is truthy; createdAt carries exactly the bounds given |
| AdminService.PageOf | services/admin.service.js:28-32 | limit 0 sets no limit, as in MongoDB, and gives every record; otherwise the page holds at most limit records, taken in order from offset (page-1)*limit; it is full when enough records remain, and empty past the end |
| AdminService.PagesAreConsecutive | services/admin.service.js:32 | for a positive limit, a full page and the next one together are the records from the first one's offset on |
| AdminService.CountStatus | services/admin.service.js:92-97 | the count of a status is at most the number of parcels, and is 0 iff no parcel has it |
| AdminService.CountsAreDisjoint | services/admin.service.js:92-97 | the FAILED and DELIVERED counts together never exceed the number of parcels |
| AdminService.FiguresAppend | services/admin.service.js:92-97 | a new parcel adds only to the count of its own status and, if COD, to the COD total |
| AdminService.CodTotal | services/admin.service.js:93-103 | with only prepaid parcels the COD total is 0, and non-negative amounts give a non-negative total |
| AdminService.DashboardMetrics | services/admin.service.js:87-106 | failedDeliveries and deliveredTotal are the FAILED and DELIVERED counts (their sum is at most the parcel count); codTotal is the COD sum |
| AgentService.ScanCodes | services/agent.service.js:78 | the codes are exactly the non-empty ones among trackingCode, qrCodeData and barcodeData |
| AgentService.ScanParcelCode | services/agent.service.js:73-83 | a scan fails 403 unless the parcel is assigned to the agent; it then verifies iff the code is one of the parcel's non-empty codes, and otherwise fails 400 "Invalid code for parcel" |
| AgentService.EmptyCodeNeverVerifies | services/agent.service.js:78-81 | an empty code never verifies |
| AgentService.BuildDirectionsRequest | services/agent.service.js:49-58 | the origin is the first waypoint and the destination the last; the parameter list is optimize:true followed by the interior waypoints in order |
| AgentService.SplitRoundTrip | services/agent.service.js:49-51 | origin, stops and destination put together are the waypoints again |
| AgentService.OptimizeRoute | services/agent.service.js:41-71 | a missing key fails 400, then fewer than two waypoints fails 400; no route fails 400 "Unable to optimize route"; otherwise order and polyline default to [] and "" |
| AgentService.ChecksPrecedeRemoteCall | services/agent.service.js:42-47 | when an input check fails, the answer does not depend on the directions service |
| AgentService.ChangeParcelStatus | services/agent.service.js:35-36 | the status update with status passed on as nextStatus, with its whole promise: a failed check returns its error with no write and no publish; otherwise the parcel becomes Transitioned, plus the history record, an admin's audit entry, the status fan-out, an agent's notice and user event, and the notification logs; users, addresses and tracking stay as they were |
| AgentService.RecordTrackingPoint | services/agent.service.js:33 | tracking ingestion with the same arguments and its whole promise: a failed check gives 403 with nothing stored or published; otherwise exactly one point is stored and published only to the parcel's room; every other store stays as it was |
| Rbac.Rbac | middleware/rbac.middleware.js:3-13 | a request passes iff there is a user whose role is listed; no user fails 401 "Authentication required"; an unlisted role fails 403 "Forbidden" |
| Rbac.AuthenticationFirst | middleware/rbac.middleware.js:6-8 | without a user the answer is 401 whatever roles are listed, even none |
| Rbac.MoreRolesAdmitMore | middleware/rbac.middleware.js:9 | a gate listing more roles admits everything a gate listing fewer admits |
| JsStrings.Trim | config/env.js:7 | trim returns the slice of its input left after dropping only whitespace at both ends, and the slice has no whitespace at either edge |
| JsStrings.TrimIdempotent | config/env.js:7 | trimming twice is trimming once |
| JsStrings.BeforeFirst | config/env.js:7 | split(sep)[0] is the longest prefix without the separator |
| JsStrings.UpperIdempotent | middleware/locale.middleware.js:5 | upper-casing an upper-cased string changes nothing |
| Locale.HeaderPreference | middleware/locale.middleware.js:5 | a header's preference has no comma, no edge whitespace and no lower-case ASCII letter |
| Locale.ResolveLocale | middleware/locale.middleware.js:3-8 | the locale is always EN or BN; it is BN iff the preferred value is "BN", and a preferred value in LanguageEnum is used as it is |
| Locale.UserLanguageWins | middleware/locale.middleware.js:5 | a truthy user language decides alone; the headers are ignored |
| Locale.CustomHeaderWins | middleware/locale.middleware.js:4 | a truthy x-user-language hides accept-language |
| Locale.HeaderBn | middleware/locale.middleware.js:5 | a header resolves to "BN" iff its trimmed first comma segment is "bn" in any letter case |
| Locale.AcceptLanguageExample | middleware/locale.middleware.js:4-6 | "bn,en;q=0.8" gives BN |
| Locale.RegionTagFallsBack | middleware/locale.middleware.js:4-6 | a header value without the letter B, such as "EN-US", falls back to EN from either header |
| Locale.HeaderWithoutB | middleware/locale.middleware.js:5 | a header value without the letter B never prefers BN |
| Report.BuildFilters | services/report.service.js:5-15 | status and assignedAgentId are present iff truthy; createdAt is present iff a bound is given and carries exactly the bounds given; no parameters give the empty filter |
| ErrorMappers.HandleValidationError | errors/handleValidationError.js:1-16 | status 400; one source per error entry, in order; the message is the first source's message if non-empty, else "Validation Error" |
| ErrorMappers.ValidationMessageNonEmpty | errors/handleValidationError.js:2-14 | the message is never empty and there are as many sources as entries |
| ErrorMappers.HandleCastError | errors/HandleCastError.js:1-15 | status 400 and message "Invalid ID", with exactly one source carrying the error's path and message |
| ErrorMappers.ExtractQuoted | errors/handleDuplicateError.js:2-4 | a name is extracted iff the message has two double quotes, and the name holds no quote |
| ErrorMappers.ExtractQuotedRoundTrip | errors/handleDuplicateError.js:2-4 | from a message shaped prefix "name" suffix, with no quote before the name, exactly the name is extracted |
| ErrorMappers.HandleDuplicateError | errors/handleDuplicateError.js:1-20 | status 400; the message is "<extracted> is already exists", and the single source has path "" and the same message |
| ErrorMappers.DuplicateMessages | errors/handleDuplicateError.js:4-17 | a quoted value gives "<value> is already exists", and a message without quotes gives "null is already exists" |
| GlobalErrorHandler.Classify | middleware/globalErrorHandler.js:17-41 | the first matching test decides the kind: name ValidationError, then name CastError, then code 11000, then AppError |
| GlobalErrorHandler.GlobalErrorHandler | middleware/globalErrorHandler.js:6-50 | success is always false; other errors give 500 with their message and one source with path ""; an AppError gives its own status and message; the three mappers decide their kinds |
| GlobalErrorHandler.SourcesPresent | middleware/globalErrorHandler.js:10-41 | the response has no error source iff the error is a validation error with no entries |
| GlobalErrorHandler.NameTakesPrecedence | middleware/globalErrorHandler.js:17-32 | a ValidationError that also has code 11000 and is an AppError is answered as a validation error |
| GlobalErrorHandler.ServiceErrorsPassThrough | middleware/globalErrorHandler.js:32-41 | an AppError reaches the client with its own status and message |
| Env.CleanText | config/env.js:5-8 | clean's result is the part before the first '#' with only whitespace removed at its two ends: it has no '#', no edge whitespace, and is no longer than its input |
| Env.Clean | config/env.js:5-8 | a missing value stays missing; a present one is cleaned |
| Env.CleanIdempotent | config/env.js:5-8 | cleaning twice is cleaning once |
| Env.CleanExample | config/env.js:4 | "value # comment" cleans to "value" |
| Env.CleanedString | config/env.js:10-11 | a required string is accepted iff it is non-empty before and after cleaning, and the cleaned value is kept |
| Env.Secret | config/env.js:30-40 | a JWT secret is accepted iff it has at least 32 characters before and after cleaning |
| Env.CommentCanShortenSecret | config/env.js:30-34 | a raw value of 38 characters whose text before '#' is short is still rejected |
| Env.NodeEnv | config/env.js:14-18 | NODE_ENV, defaulted to "development" and cleaned, is accepted iff it is development, test or production |
| Env.NodeEnvDefault | config/env.js:16 | an unset NODE_ENV is "development" |
| Env.Defaulted | config/env.js:42-43 | a defaulted string is the cleaned value, or the cleaned default when unset |
| Env.ParseEnv | config/env.js:13-72 | parsing succeeds iff no variable fails its constraint; then NODE_ENV, the database and redis URLs, both JWT secrets and the three cloudinary settings are each the cleaned raw value (NODE_ENV defaulted to development), and meet their constraints; a failure is reported as one error |
| Env.Environment.constructor | config/env.js:74 | the exported object starts as the parsed values |
| Env.Environment.DefaultSocketOrigins | config/env.js:76-78 | socket origins become CLIENT_URL iff they are unset and CLIENT_URL is set; otherwise nothing changes |
| Env.SocketDefaultEffect | config/env.js:76-78 | after the default, origins are set iff either variable was, and origins that were set are never replaced |
| Auth.ByEmail | controller/auth.controller.js:61 | findOne({email}) gives the first stored user with that e-mail, and nothing only when no user has it |
| Auth.RegisterStep | controller/auth.controller.js:48-97 | missing fields, mismatched passwords and an existing e-mail each fail 400 with their message; then a missing name fails the required-path validation and a phone number already in use fails on the unique phone index; otherwise an unverified active customer account holding the OTP token, and a 201 reply with the e-mail |
| Auth.Register | controller/auth.controller.js:48-97 | a rejected registration stores nothing; otherwise exactly the new account is appended, after its token has been set |
| Auth.VerifyEmailStep | controller/auth.controller.js:104-140 | missing input fails 400, an unknown e-mail 404, a missing token, an undecodable token and a different OTP 400 each with their message; success iff the token decodes to the OTP, and it then marks the account verified and clears the token |
| Auth.VerifyEmail | controller/auth.controller.js:104-140 | a rejected verification writes nothing; otherwise only that account is saved as decided; no other collection changes |
| Auth.Commit | controller/auth.controller.js:130-132 | the decided user record is saved in place, keeping the ids unique, and nothing else changes |
| Auth.LoginStep | controller/auth.controller.js:147-207 | missing input fails 400, an unknown e-mail 404, a wrong or absent password 401; an unverified account gets a fresh OTP token and a 403 reply; a verified one stores the new refresh token and gets the access token, role and id |
| Auth.LoginIssuesOnlyWhenVerified | controller/auth.controller.js:165-191 | a login stores a refresh token only for a verified account, and then exactly the new one; an unverified account keeps its refresh token and gets a failed 403 reply |
| Auth.Login | controller/auth.controller.js:147-207 | a rejected login writes nothing; otherwise only that account is saved as decided; no other collection changes |
| Auth.ForgetPasswordStep | controller/auth.controller.js:214-240 | a missing e-mail fails 400 and an unknown one 404; otherwise the reset OTP token is stored |
| Auth.ForgetPassword | controller/auth.controller.js:214-240 | a rejected request writes nothing; otherwise only that account is saved as decided; no other collection changes |
| Auth.ResetPasswordStep | controller/auth.controller.js:247-285 | missing input fails 400, an unknown e-mail 404, a missing reset token, an undecodable token and a different OTP 400; success iff the stored reset token decodes to the OTP, and it then sets the password and clears the reset token |
| Auth.ResetPassword | controller/auth.controller.js:247-285 | a rejected reset writes nothing; otherwise only that account is saved as decided; no other collection changes |
| Auth.ChangePasswordStep | controller/auth.controller.js:292-328 | the three input checks come first, then the user lookup (404), then the old password (401 "Current password wrong"); only then is the password replaced |
| Auth.ChangePasswordChecksFirst | controller/auth.controller.js:295-311 | a request failing an input check fails identically whatever users are stored |
| Auth.ChangePassword | controller/auth.controller.js:292-328 | a rejected change writes nothing; otherwise only that account is saved as decided; no other collection changes |
| Auth.RefreshStep | controller/auth.controller.js:335-361 | the cookie's token is preferred over the body's; no token fails 400, an undecodable one is the token error; success iff the decoded user stores exactly that token, which is then replaced by the new one; otherwise 401 "Invalid refresh token" |
| Auth.RefreshRotates | controller/auth.controller.js:343-351 | after a token has been exchanged for a different one, presenting the old token again fails |
| Auth.RefreshToken | controller/auth.controller.js:335-361 | a rejected refresh writes nothing; otherwise only that account is saved as decided; no other collection changes |
| Auth.LogoutStep | controller/auth.controller.js:368-388 | the reply is always 200 "Logged out successfully"; an authenticated user that exists gets the stored refresh token "" |
| Auth.LogoutRevokes | controller/auth.controller.js:343-373 | after logout no refresh for that user succeeds, whatever token is shown |
| Auth.Logout | controller/auth.controller.js:368-388 | the users become as LogoutStep decides, no other collection changes, and the reply is the fixed one |
| Auth.RegisterThenVerify | controller/auth.controller.js:70-132 | registering a new e-mail with a name and an unused phone, and then entering the OTP carried by the e-mailed token, verifies the account and clears the token; entering the same OTP again fails "Verification token missing" |

## Left out

- Persistence, `populate`, query execution and most of Mongoose schema validation. Collections are in-memory sequences in insertion order; a failed write or log write is not modelled. The model keeps the schema enums and defaults, the unique `trackingCode` index, and at registration the required `name` and the sparse unique `phone` index of model/user.model.js. The unique `email` index never fires in the model, because the controller's lookup by e-mail runs first; other required paths are not checked. Populated references are not modelled as documents, with one exception: the access guard reads `customerId` and `assignedAgentId` after `populate`, and the model carries that version beside the id comparison (see Findings). Everywhere else the model compares ids.
- Concurrency. `Promise.all`/`allSettled` run sequentially; concurrent-transition races are not modelled. Effects on different stores are stated per store, not as one interleaved trace.
- One `now` per request: every timestamp a request writes uses the same instant.
- Network and foreign libraries: sending e-mail and SMS (only the transport outcome is an input), the Google Maps client (a function parameter), QR/CSV/PDF generation (`generateParcelQrCode`, `generateCsvReport`, `generatePdfReport`), cloudinary, braintree, redis, the rate limiter.
- Crypto and randomness: tracking codes, OTPs and JWTs are parameters; JWT verification and bcrypt are uninterpreted function parameters. `hashWaypoints` is not modelled.
- Floating point: coordinates, speed, heading and amounts are integers; the "lat,lng" formatting of `optimizeRoute` is not modelled (waypoints are passed as values).
- `formatDateTime` is the opaque locale text of a timestamp; its invalid-date branch is not modelled. The 24-hour `dailyBookings` figure of `dashboardMetrics` is not modelled.
- `listCustomerParcels`, `listAgentParcels`, `adminUsersList`, `listUserNotifications`, `testNotification` and `updateAgentLocation` are not part of this model. For `adminParcelList`, only the filter it builds and the page window are modelled; the `meta` block and how a filter matches documents are not.
- AdminService.PageOf: requires page ≥ 1 and takes limit as a natural number. `Number(page)` and `Number(limit)` come straight from the query string (controller/admin.controller.js:14-18), and the query's behaviour for page < 1 (a negative skip) and for a negative, fractional or NaN limit is not modelled.
- `emitUserNotification` is imported by the notification service but not defined in sockets/emitter.js. The model records that the event is handed over (`EmitUserNotification`) and nothing more.
- The user schema in model/user.model.js declares a required `passwordHash` and none of the account fields the authentication controller writes (`password`, `verificationInfo`, `password_reset_token`, `refreshToken`). The model follows the controller and stores those fields on the user record. The `lowercase`/`trim` setters on `email` and the `trim` setters on `name` and `phone` are not modelled: values are stored and compared as given.
- `User.isUserExistsByEmail` and `User.isPasswordMatched` are called by the controller but are not defined by model/user.model.js. They are modelled as a find by e-mail and as the password-check parameter.
- Auth.LoginStep: the `user` object inside the login reply and the refresh cookie are not modelled.
- Auth.LogoutStep: clearing the cookie is not modelled.
- `toUpperCase` is modelled on ASCII letters only, so locale and language normalisation treat non-ASCII case differently from JavaScript.
- Lengths in the environment schema are counted in code points, not in UTF-16 units as JavaScript does.
- `PORT`, `RATE_LIMIT_POINTS` and `RATE_LIMIT_DURATION` (numeric coercion) are not modelled.
- Env.ParseEnv: `process.exit(1)` on a failed parse is modelled as an error result, and the printed field table is not modelled.
- GlobalErrorHandler.GlobalErrorHandler: the raw `err` and `stack` fields of the response are not modelled.
- errors/AppError.js and model/notification.model.js are not part of this model. An `AppError` is a status code and a message, and a notification record has the fields the service reads and writes.

## Findings

| source | as written | input that shows it | evidently intended | confidence | as-written member | corrected member |
|---|---|---|---|---|---|---|
| services/parcel.service.js:24-36 | `findParcelForUser` and `getParcelTrackingByCode` read the parcel with `populate(parcelInclude)` (lines 117 and 234). So `parcel.customerId` and `parcel.assignedAgentId` hold user documents, and `toString()` on a document prints the document, not its id. The comparison with `user._id.toString()` therefore fails for the owner. | a CUSTOMER asking for the status history or tracking feed of their own parcel, or the AGENT assigned to it, is refused 403 | compare the referenced ids (`parcel.customerId._id`), so the owner and the assigned agent pass | not executed; rests on Mongoose printing a document in `toString()` | ParcelService.OwnerRefusedAsWritten | ParcelService.EnsureParcelAccess |
