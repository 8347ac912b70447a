# Masks CoC backend — a Dafny model

The backend of a companion application for a Call of Cthulhu campaign ("Masks
of Nyarlathotep"). Keepers and players sign in and then manage:
- investigator sheets (characters);
- session logs with clues and items;
- personal notes;
- a shared campaign calendar.

This project models the parts of the backend that decide who may do what and
what gets stored:

- **Authentication and accounts.**
  - The `authenticate` middleware reads a bearer token from the `Authorization` header. `requireRole` / `requireKeeper` gate routes by role.
  - Registration checks its inputs in order, then refuses a taken email or username. Passwords are hashed; e-mail addresses are stored lower-cased.
  - Login gives one uniform failure message. The current-user lookup returns the public view of the account, which never carries the password hash.
- **Visibility and ownership.**
  - Notes are private by default. Only their owner may read a private note or edit a note; the owner or a keeper may delete one.
  - Calendar events are public by default. Their creator or any keeper may change or delete them; a private event is visible to its creator only.
  - Public projections: the public view of an account, the keeper's account list, and the public profile.
- **Repositories.** Each MongoDB collection is a class over a map from identifier to document, with these operations:
  - `find` + `sort` queries, specified as selections ordered by their sort key (date, creation time or text score);
  - `create`, which hands out a fresh identifier;
  - `findByIdAndUpdate` with `$set`, applied as a patch;
  - `findByIdAndDelete`.

  The use cases on top of the repositories turn a missing document into a 404 application error.
- **Request validation.** The Joi schemas for sessions and characters are modelled as data, with the parts of Joi they use:
  - required, optional and defaulted keys;
  - non-empty strings;
  - `valid(...)` sets and unknown-key refusal;
  - `abortEarly: false` reporting of every violation;
  - default filling.
- **HTTP edges.** The controllers map outcomes to status codes and bodies. The error handler maps application errors to their status and everything else to a 500 with a fixed message. The CORS origin check is modelled too.

Modules follow the source layout:

| Area | Modules |
|---|---|
| Shared types | `Common`, `Http`, `Access` |
| Ordering and queries | `Ordering`, `Store` |
| Entities | `Users`, `Notes`, `Events`, `Sessions`, `Characters` |
| Repositories | `UserRepository`, `NoteRepository`, `EventRepository`, `SessionRepository`, `CharacterRepository` |
| Use cases | `AuthUseCases`, `SessionUseCases`, `CharacterUseCases` |
| Validation | `Joi`, `SessionValidator`, `CharacterValidator` |
| Middleware and app setup | `AuthMiddleware`, `ErrorHandler`, `Cors` |
| Controllers | `AuthController`, `ProfileController`, `NoteController`, `EventController`, `SessionController`, `CharacterController` |
| Event routes | `EventRoutes` |

Several things the backend gets from libraries become parameters of the operations that use them:
- JWT signing and verification: `sign`, `verify`;
- bcrypt hashing and comparison: `hash`, `compare`;
- date parsing: `toDate`, `parseDate`;
- the clock: `now`;
- MongoDB's text index: `matches`, `score`.

## Model

| member | source | states |
|---|---|---|
| Common.Utf16Length | application/useCases/RegisterUser.ts:24 | JavaScript's `length`: at least the number of characters and at most twice it, and equal to it on text within the Basic Multilingual Plane. |
| Common.ToLowerNormalises | infrastructure/database/models/UserModel.ts:20-26 | Lower-casing an e-mail yields a lower-case string and is idempotent. |
| Store.Find | infrastructure/database/repositories/MongoNoteRepository.ts:19-22 | `findById` returns the stored document exactly when its id is in the collection, and null otherwise. |
| Store.Select | infrastructure/database/repositories/MongoNoteRepository.ts:24-27 | `find(filter).sort(spec)` returns every matching document once and nothing else, ordered by the sort key. |
| Store.SelectionsArePermutations | infrastructure/database/repositories/MongoCalendarEventRepository.ts:25-33 | Two answers to the same query hold the same documents and differ only in order. |
| Store.SelectionOfUnion | infrastructure/web/controllers/EventController.ts:17-26 | Concatenating the public events with the caller's private ones, in any order, answers "public, or private and created by the caller". |
| Store.FilteredSelection | infrastructure/web/controllers/EventController.ts:21-22 | Filtering the caller's events to the private ones answers the query "created by the caller and private". |
| Ordering.InsertBy | infrastructure/web/controllers/EventController.ts:25 | Inserting into a sorted list keeps it sorted and adds exactly that element. |
| Ordering.SortBy | infrastructure/web/controllers/EventController.ts:23-25 | Sorting the merged event list by date gives a sorted permutation of it. |
| Ordering.Filter | infrastructure/web/controllers/EventController.ts:22 | `filter` keeps each element satisfying the predicate with its multiplicity, and drops every other element. |
| Users.PublicViewHidesCredentials | domain/entities/User.ts:52-62 | Changing the password hash or the timestamps never changes the public view of an account. |
| Users.PublicViewDeterminesProfile | domain/entities/User.ts:52-62 | Two accounts share a public view exactly when they agree on every field but the hash and the timestamps. |
| UserRepository.UserWithEmail | infrastructure/database/repositories/MongoUserRepository.ts:26-29 | Finds an account with the given e-mail exactly when one exists. |
| UserRepository.MongoUserRepository.FindById | infrastructure/database/repositories/MongoUserRepository.ts:21-24 | The account under the id, or none when there is no such account. |
| UserRepository.MongoUserRepository.FindByEmail | infrastructure/database/repositories/MongoUserRepository.ts:26-29 | Looks the e-mail up lower-cased, as the schema stores it. |
| UserRepository.MongoUserRepository.FindByUsername | infrastructure/database/repositories/MongoUserRepository.ts:31-34 | An account with that username exactly when one exists. |
| UserRepository.MongoUserRepository.FindAll | infrastructure/database/repositories/MongoUserRepository.ts:36-39 | Every account, each once. |
| UserRepository.MongoUserRepository.Create | infrastructure/database/repositories/MongoUserRepository.ts:41-47 | Stores a new account under a fresh id with its e-mail lower-cased and the schema's default settings (notifications on, dark theme); no other account changes; e-mails stay unique. |
| UserRepository.ProfilePatchEdits | infrastructure/web/controllers/ProfileController.ts:49-56 | A profile update leaves id, username, e-mail, hash, role and creation time alone. A linked character is kept when left out, unlinked by null, and replaced by a value. |
| UserRepository.MongoUserRepository.Update | infrastructure/database/repositories/MongoUserRepository.ts:49-52 | A missing id changes nothing and returns null. Otherwise only that account changes, to the patched document, which is returned. |
| UserRepository.MongoUserRepository.Delete | infrastructure/database/repositories/MongoUserRepository.ts:54-57 | Reports whether the account existed; afterwards it is gone and nothing else changed. |
| NoteRepository.NewNoteDefaults | infrastructure/database/repositories/MongoNoteRepository.ts:44-52 | A new note belongs to the caller. Visibility defaults to private and tags to the empty list; values sent are kept. |
| NoteRepository.NoteLinkEdits | infrastructure/web/controllers/NoteController.ts:106 | Each note link is kept when left out of the body, removed when sent as null, and replaced when sent with a value. |
| NoteRepository.UnlinkedNoteLeavesSessionQuery | infrastructure/database/repositories/MongoNoteRepository.ts:34-37 | A note whose session link an update sends as null no longer matches any session's query. |
| NoteRepository.NotePatchKeepsIdentity | infrastructure/database/repositories/MongoNoteRepository.ts:54-57 | An update never changes a note's id, owner or creation time. |
| NoteRepository.MongoNoteRepository.FindById | infrastructure/database/repositories/MongoNoteRepository.ts:19-22 | The note under the id, or none. |
| NoteRepository.MongoNoteRepository.FindByUserId | infrastructure/database/repositories/MongoNoteRepository.ts:24-27 | Exactly the user's notes, newest first. |
| NoteRepository.MongoNoteRepository.FindPublic | infrastructure/database/repositories/MongoNoteRepository.ts:29-32 | Exactly the public notes, newest first. |
| NoteRepository.MongoNoteRepository.FindBySessionId | infrastructure/database/repositories/MongoNoteRepository.ts:34-37 | Exactly the notes linked to the session, newest first. |
| NoteRepository.MongoNoteRepository.FindByCharacterId | infrastructure/database/repositories/MongoNoteRepository.ts:39-42 | Exactly the notes linked to the character, newest first. |
| NoteRepository.MongoNoteRepository.Create | infrastructure/database/repositories/MongoNoteRepository.ts:44-52 | Adds the new note under a fresh id and changes nothing else. |
| NoteRepository.MongoNoteRepository.Update | infrastructure/database/repositories/MongoNoteRepository.ts:54-57 | A missing id changes nothing. Otherwise only that note changes, to the patched note. |
| NoteRepository.MongoNoteRepository.Delete | infrastructure/database/repositories/MongoNoteRepository.ts:59-62 | Reports whether the note existed; afterwards it is gone and nothing else changed. |
| EventRepository.NewEventDefaults | infrastructure/database/models/CalendarEventModel.ts:25-46 | A new event is created by the caller. Type defaults to "other", visibility to public and colour to "#c9a55c"; values sent are kept. |
| EventRepository.EndDateEdits | infrastructure/database/models/CalendarEventModel.ts:22-24 | An update keeps, clears or replaces the end date, as the patch says, and leaves the start date alone unless it is sent. |
| EventRepository.MongoCalendarEventRepository.FindById | infrastructure/database/repositories/MongoCalendarEventRepository.ts:20-23 | The event under the id, or none. |
| EventRepository.MongoCalendarEventRepository.FindByUserId | infrastructure/database/repositories/MongoCalendarEventRepository.ts:25-28 | Exactly the user's events, earliest first. |
| EventRepository.MongoCalendarEventRepository.FindPublic | infrastructure/database/repositories/MongoCalendarEventRepository.ts:30-33 | Exactly the public events, earliest first. |
| EventRepository.MongoCalendarEventRepository.FindByDateRange | infrastructure/database/repositories/MongoCalendarEventRepository.ts:35-40 | Exactly the events dated within the inclusive range, earliest first. |
| EventRepository.MongoCalendarEventRepository.FindAll | infrastructure/database/repositories/MongoCalendarEventRepository.ts:42-45 | Every event, earliest first. |
| EventRepository.MongoCalendarEventRepository.Create | infrastructure/database/repositories/MongoCalendarEventRepository.ts:47-55 | Adds the new event, with the schema's defaults for type, visibility and colour, under a fresh id and changes nothing else. |
| EventRepository.MongoCalendarEventRepository.Update | infrastructure/database/repositories/MongoCalendarEventRepository.ts:57-60 | A missing id changes nothing. Otherwise only that event changes, to the patched event. |
| EventRepository.MongoCalendarEventRepository.Delete | infrastructure/database/repositories/MongoCalendarEventRepository.ts:62-65 | Reports whether the event existed; afterwards it is gone. |
| SessionRepository.EmptySessionPatch | infrastructure/database/repositories/MongoSessionRepository.ts:65-72 | A `$set` of nothing only touches `updatedAt`. |
| SessionRepository.SessionPatchIdempotent | infrastructure/database/repositories/MongoSessionRepository.ts:65-72 | Applying the same update twice equals applying it once. |
| SessionRepository.SessionPatchKeepsIdentity | infrastructure/database/repositories/MongoSessionRepository.ts:65-72 | An update never changes a session's id or creation time. |
| SessionRepository.NoTagsMatchNothing | infrastructure/database/repositories/MongoSessionRepository.ts:46-49 | `$in` over no tags matches no session. |
| SessionRepository.MongoSessionRepository.FindAll | infrastructure/database/repositories/MongoSessionRepository.ts:36-39 | The query's answer: every session, latest date first. Mapping it after `.lean()` is `SessionController.LeanListingReply` (see Findings). |
| SessionRepository.MongoSessionRepository.FindById | infrastructure/database/repositories/MongoSessionRepository.ts:41-44 | The session under the id, or none. |
| SessionRepository.MongoSessionRepository.FindByTags | infrastructure/database/repositories/MongoSessionRepository.ts:46-49 | The query's answer: exactly the sessions sharing a tag with the list, latest date first. Mapping it after `.lean()` is `SessionController.LeanListingReply` (see Findings). |
| SessionRepository.MongoSessionRepository.Search | infrastructure/database/repositories/MongoSessionRepository.ts:51-58 | The query's answer: exactly the sessions the text index matches, highest score first. Mapping it after `.lean()` is `SessionController.LeanListingReply` (see Findings). |
| SessionRepository.MongoSessionRepository.Create | infrastructure/database/repositories/MongoSessionRepository.ts:60-63 | Adds the new session under a fresh id and changes nothing else. |
| SessionRepository.MongoSessionRepository.Update | infrastructure/database/repositories/MongoSessionRepository.ts:65-72 | A missing id changes nothing. Otherwise only that session changes, by `$set` of the fields sent. |
| SessionRepository.MongoSessionRepository.Delete | infrastructure/database/repositories/MongoSessionRepository.ts:74-77 | Reports whether the session existed; afterwards it is gone. |
| CharacterRepository.StoreMentalHealth | infrastructure/database/models/CharacterModel.ts:17-24 | The stored sanity sub-document keeps the sent sanity, maximum, phobias and manias; its two flags are the schema's defaults, false, whatever was sent. |
| CharacterRepository.SentSanityFlagsLost | infrastructure/database/models/CharacterModel.ts:20-21 | As written, two sanity objects that differ only in their flags are stored alike, and a raised flag is not read back. |
| CharacterRepository.IntendedSanityRoundTrip | domain/entities/Character.ts:12-19 | With the flag names matched, storing and reading back the sanity object are inverse. |
| CharacterRepository.EmptyCharacterPatch | infrastructure/database/repositories/MongoCharacterRepository.ts:48-55 | A `$set` of nothing only touches `updatedAt`. |
| CharacterRepository.CharacterPatchIdempotent | infrastructure/database/repositories/MongoCharacterRepository.ts:48-55 | Applying the same update twice equals applying it once. |
| CharacterRepository.CharacterPatchKeepsIdentity | infrastructure/database/repositories/MongoCharacterRepository.ts:48-55 | An update never changes a character's id or creation time. |
| CharacterRepository.MongoCharacterRepository.FindAll | infrastructure/database/repositories/MongoCharacterRepository.ts:33-36 | Every character, each once. |
| CharacterRepository.MongoCharacterRepository.FindById | infrastructure/database/repositories/MongoCharacterRepository.ts:38-41 | The character under the id, or none. |
| CharacterRepository.MongoCharacterRepository.Create | infrastructure/database/repositories/MongoCharacterRepository.ts:43-46 | Adds the new character under a fresh id, its sanity flags at the schema's default false, and changes nothing else. |
| CharacterRepository.MongoCharacterRepository.Update | infrastructure/database/repositories/MongoCharacterRepository.ts:48-55 | A missing id changes nothing. Otherwise only that character changes, by `$set` of the fields sent; a sent sanity object is stored with both flags false. |
| CharacterRepository.MongoCharacterRepository.Delete | infrastructure/database/repositories/MongoCharacterRepository.ts:57-60 | Reports whether the character existed; afterwards it is gone. |
| AuthUseCases.RegistrationError | application/useCases/RegisterUser.ts:24-46 | Registration is refused exactly when one of five checks fails: short username, bad e-mail, short password (lengths in UTF-16 code units), e-mail in use, username taken. |
| AuthUseCases.UsernameCountsCodeUnits | application/useCases/RegisterUser.ts:24 | Any three characters make a long enough username, and so do two when the second lies beyond the Basic Multilingual Plane. |
| AuthUseCases.FirstFailureReported | application/useCases/RegisterUser.ts:24-34 | The input checks run in order and the first failure is reported, whatever the accounts and later fields are. |
| AuthUseCases.RegisteredEmailRefused | application/useCases/RegisterUser.ts:37-40 | Well-formed input whose e-mail is already stored is refused with "Email already registered". |
| AuthUseCases.RegisterUser | application/useCases/RegisterUser.ts:22-61 | Fails with the first error and changes nothing. Otherwise it stores a player (unless a role is given), with the hashed password and the lower-cased e-mail, under a fresh id with the default settings, and returns its public view. |
| AuthUseCases.AddAccount | application/useCases/RegisterUser.ts:49-60 | Stores the new account under a fresh id with the default settings, changes no other account, and returns its public view. |
| AuthUseCases.CheckRegistration | application/useCases/RegisterUser.ts:24-46 | Performs the checks against the repository and reports the same error as the specification function. |
| AuthUseCases.ClaimsOf | application/useCases/LoginUser.ts:40-44 | The token claims are the account's id, e-mail and role. |
| AuthUseCases.Login | application/useCases/LoginUser.ts:21-51 | A missing e-mail or password fails with "required". An unknown e-mail or a wrong password fails with "Invalid credentials". Success signs the account's claims and returns its public view. |
| AuthUseCases.LoginFailureIsUniform | application/useCases/LoginUser.ts:28-37 | With both fields present, every failure is "Invalid credentials", so an unknown e-mail cannot be told from a wrong password. |
| AuthUseCases.LoginTokenClaims | application/useCases/LoginUser.ts:40-50 | A successful login signs exactly the claims of the stored account whose e-mail matches, and returns that account's public view. |
| AuthUseCases.RegisteredUserCanLogIn | application/useCases/LoginUser.ts:28-50 | A stored account whose hash accepts the password logs in and receives its own claims' token. |
| AuthUseCases.GetCurrentUser | application/useCases/GetCurrentUser.ts:13-27 | An empty id fails with "User ID is required", an unknown id with "User not found"; otherwise the public view. |
| AuthUseCases.CurrentUserOfOwnClaims | application/useCases/GetCurrentUser.ts:13-27 | The claims of a stored account always resolve to that account's public view. |
| AuthMiddleware.BearerToken | infrastructure/web/middlewares/authMiddleware.ts:14-21 | A token is read exactly when the header starts with "Bearer "; the token is the rest of the header. |
| AuthMiddleware.BearerRoundTrip | infrastructure/web/middlewares/authMiddleware.ts:16-21 | Reading back a header built from a token gives that token. |
| AuthMiddleware.BearerPrefixIsExact | infrastructure/web/middlewares/authMiddleware.ts:16-19 | The prefix is case-sensitive and includes the space; a missing or empty header gives no token. |
| AuthMiddleware.AuthenticateStep | infrastructure/web/middlewares/authMiddleware.ts:13-31 | A request passes exactly when its bearer token verifies, carrying the verified claims. Otherwise it is a 401: "No token provided" or "Invalid or expired token". |
| AuthMiddleware.RoleStep | infrastructure/web/middlewares/authMiddleware.ts:33-47 | A request passes exactly when a user is set and its role is listed. Otherwise it is a 401 when no user is set and a 403 when the role is not listed. |
| AuthMiddleware.RequireKeeperAdmitsKeepers | infrastructure/web/middlewares/authMiddleware.ts:50 | The keeper gate admits exactly keepers and refuses players with 403. |
| AuthMiddleware.KeeperRouteGate | infrastructure/web/routes/authRoutes.ts:12 | `authenticate` followed by `requireKeeper` lets a request through exactly when its token verifies to keeper claims. |
| AuthMiddleware.Exchange.Authenticate | infrastructure/web/middlewares/authMiddleware.ts:13-31 | On success it sets `req.user` to the claims and calls `next` once. Otherwise it sends the 401 and does not call `next`. |
| AuthMiddleware.Exchange.RequireRole | infrastructure/web/middlewares/authMiddleware.ts:33-47 | Calls `next` or sends the refusal the role step decides, leaving `req.user` alone. |
| ErrorHandler.HandleError | infrastructure/web/middlewares/errorHandler.ts:12-29 | An application error is answered with its own status and message; any other error with 500 "Internal server error". |
| ErrorHandler.OtherErrorsLeakNothing | infrastructure/web/middlewares/errorHandler.ts:26-28 | Two unexpected errors give the same reply, whatever their messages. |
| ErrorHandler.ApplicationErrorStatuses | shared/errors/ValidationError.ts:5 | A not-found error becomes 404 and a validation error 400, each with its message. |
| ErrorHandler.InternalErrorIffUnexpected | infrastructure/web/middlewares/errorHandler.ts:20-28 | The reply is a 500 exactly for unexpected errors or application errors carrying 500. |
| Cors.AllowedOrigins | infrastructure/web/app.ts:16-23 | The five fixed origins, in order, plus the frontend URL when it is set and non-empty; never the empty string. |
| Cors.CheckOrigin | infrastructure/web/app.ts:27-34 | A request is allowed exactly when it has no (or an empty) origin or its origin is listed. Otherwise it is refused with "Not allowed by CORS". |
| Cors.ApplicationOrigins | infrastructure/web/app.ts:16-34 | The GitHub Pages origin and origin-less requests are allowed and an unlisted origin is refused, whatever the frontend URL is. |
| AuthController.Summaries | infrastructure/web/controllers/AuthController.ts:82-88 | One summary per account, in order, each holding only id, username, e-mail, role and character. |
| AuthController.SummariesIgnoreHashes | infrastructure/web/controllers/AuthController.ts:82-88 | The account list does not depend on password hashes. |
| AuthController.AuthController.Register | infrastructure/web/controllers/AuthController.ts:10-33 | A keeper account requested by a non-keeper gets 403 and changes nothing. A registration error gives 400 with its message and changes nothing. Otherwise 201 with the public view of the one new account, stored under a fresh id with the sent username, the lower-cased e-mail, the hashed password, the role (player by default) and the default settings; every other account is unchanged. |
| AuthController.AuthController.Login | infrastructure/web/controllers/AuthController.ts:35-55 | Failure gives 401 with the use case's message; success gives 200 with the token and the public view. |
| AuthController.AuthController.Me | infrastructure/web/controllers/AuthController.ts:57-77 | No caller gives 401; an empty or unknown id gives 404 with its message; otherwise 200 with the caller's public view. |
| AuthController.AuthController.GetAllUsers | infrastructure/web/controllers/AuthController.ts:79-94 | 200 with the summary of every stored account exactly once, and nothing else. |
| ProfileController.ProfileLimitError | infrastructure/web/controllers/ProfileController.ts:38-47 | Refuses a display name over 100 UTF-16 code units, checked first, and a bio over 500; accepts everything else, null fields included. |
| ProfileController.PublicProfileOf | infrastructure/web/controllers/ProfileController.ts:79-87 | The public profile carries id, username, display name, avatar, bio and role. |
| ProfileController.PublicProfileHidesPrivateFields | infrastructure/web/controllers/ProfileController.ts:79-87 | E-mail, password hash, settings and linked character never influence the public profile. |
| ProfileController.ProfileController.GetProfile | infrastructure/web/controllers/ProfileController.ts:8-26 | No caller gives 401; an unknown caller 404; otherwise 200 with the caller's public view. |
| ProfileController.ProfileController.UpdateProfile | infrastructure/web/controllers/ProfileController.ts:28-67 | No caller gives 401 and an over-long field gives 400, neither changing anything. An unknown caller gets 404. Otherwise only the caller's account changes: each profile field sent with a value is set, each sent as null is cleared, the rest stay. 200 returns its public view. |
| ProfileController.ProfileController.GetPublicProfile | infrastructure/web/controllers/ProfileController.ts:69-92 | An unknown id gives 404; otherwise 200 with that account's public profile. |
| NoteController.NoteAccess | infrastructure/web/controllers/NoteController.ts:32-141 | Reading needs no caller; changing needs one (401). A missing note is 404. Allowed exactly when the caller's role and ownership permit the action, and 403 otherwise. |
| NoteController.KeeperMayDeleteButNotEdit | infrastructure/web/controllers/NoteController.ts:100-133 | A keeper who does not own a note may delete it but not edit it. |
| NoteController.PrivateNoteHiddenFromOthers | infrastructure/web/controllers/NoteController.ts:42-46 | A private note is readable by its owner only; keepers and anonymous callers are refused. |
| NoteController.PublicNoteReadableByAll | infrastructure/web/controllers/NoteController.ts:42-48 | A public note is readable by anyone, signed in or not. |
| NoteController.OwnerAndStrangers | infrastructure/web/controllers/NoteController.ts:32-141 | The owner may do anything with a note. A player who does not own it may only read it, and only when it is public. |
| NoteController.MissingBeforeOwnership | infrastructure/web/controllers/NoteController.ts:92-104 | A missing note is reported as 404 to any caller, never as 403. |
| NoteController.NoteController.GetMyNotes | infrastructure/web/controllers/NoteController.ts:7-20 | No caller gives 401; otherwise 200 with exactly the caller's notes, newest first. |
| NoteController.NoteController.GetPublicNotes | infrastructure/web/controllers/NoteController.ts:22-30 | 200 with exactly the public notes, newest first. |
| NoteController.NoteController.GetNoteById | infrastructure/web/controllers/NoteController.ts:32-53 | 404, 403 or 200 with the stored note, as the read rule decides. |
| NoteController.NoteController.CreateNote | infrastructure/web/controllers/NoteController.ts:55-83 | 401 without a caller and 400 without title and content, neither changing anything. Otherwise 201 with a new note owned by the caller, stored under a fresh id. |
| NoteController.NoteController.UpdateNote | infrastructure/web/controllers/NoteController.ts:85-112 | Only the owner may update a note. A refusal (401, 404, 403) changes nothing; otherwise only that note is patched (a link sent as null removed) and returned. |
| NoteController.NoteController.DeleteNote | infrastructure/web/controllers/NoteController.ts:114-141 | The owner or a keeper may delete a note, which is then gone. A refusal changes nothing. |
| EventController.EventAccess | infrastructure/web/controllers/EventController.ts:37-151 | Changing needs a caller (401). A missing event is 404. Reading a private event needs its creator; changing an event needs its creator or a keeper; 403 otherwise. |
| EventController.KeepersMayChangeAnyEvent | infrastructure/web/controllers/EventController.ts:106-110 | A keeper may change any event; a player only the events they created. |
| EventController.PrivateEventHiddenFromOthers | infrastructure/web/controllers/EventController.ts:47-51 | A private event is readable by its creator only. |
| EventController.EventDataOf | infrastructure/web/controllers/EventController.ts:67-82 | A new event keeps the title, type and visibility sent and parses the dates; an end date is set exactly when one was sent. |
| EventController.EventPatchOf | infrastructure/web/controllers/EventController.ts:112-114 | An event update sets the fields sent and parses the non-empty dates it carries. An absent end date is kept, an empty one clears the stored end date, and any other is parsed and set. |
| EventController.EmptyEndDateClears | infrastructure/web/controllers/EventController.ts:112-116 | An update with an empty end date removes the event's end date; one without an end date keeps it. |
| EventController.EventController.GetAllEvents | infrastructure/web/controllers/EventController.ts:7-35 | 200, earliest first. With `mine=true` and a caller, the caller's events; with a caller otherwise, public events plus the caller's private ones; without a caller, public events only. |
| EventController.EventController.GetEventById | infrastructure/web/controllers/EventController.ts:37-58 | 404, 403 or 200 with the stored event, as the read rule decides. |
| EventController.EventController.CreateEvent | infrastructure/web/controllers/EventController.ts:60-89 | 401 without a caller and 400 without title and date, neither changing anything. Otherwise 201 with a new event created by the caller under a fresh id. |
| EventController.EventController.UpdateEvent | infrastructure/web/controllers/EventController.ts:91-122 | Creator or keeper only. A refusal changes nothing; otherwise only that event is patched, with the end-date edit `EventPatchOf` gives, and returned. |
| EventController.EventController.DeleteEvent | infrastructure/web/controllers/EventController.ts:124-151 | Creator or keeper only. A refusal changes nothing; otherwise the event is gone. |
| EventRoutes.OptionalCaller | infrastructure/web/middlewares/authMiddleware.ts:13-31 | The claims of a verified bearer token, or no caller; no header means no caller. |
| EventRoutes.GetEventByIdAsWired | infrastructure/web/routes/eventRoutes.ts:9 | As routed, with no authentication, the handler always sees an anonymous caller: a stored private event is a 403 even for its creator. |
| EventRoutes.GetAllEventsAsWired | infrastructure/web/routes/eventRoutes.ts:8 | As routed, the event list is always the public events only, whoever sends a token. |
| EventRoutes.CreatorOfPrivateEventRefusedAsWired | infrastructure/web/routes/eventRoutes.ts:8-9 | The creator of a private event, with a valid token, is refused as routed, although the handler's rule admits them once the token is read. |
| EventRoutes.GetEventByIdOptionalAuth | infrastructure/web/controllers/EventController.ts:37-58 | With the token read when present, the read rule applies to the actual caller. |
| EventRoutes.GetAllEventsOptionalAuth | infrastructure/web/controllers/EventController.ts:7-35 | With the token read when present, signed-in callers also see their own private events, and `mine=true` works. |
| EventRoutes.OptionalAuthOnlyWidens | infrastructure/web/controllers/EventController.ts:37-58 | Reading an optional token never refuses an event an anonymous caller could read. |
| SessionController.TagArray | infrastructure/web/controllers/SessionController.ts:52 | A repeated query parameter is taken as is; a single or missing one becomes a one-element list. |
| SessionController.MissingTagsFilterOnUndefined | infrastructure/web/controllers/SessionController.ts:50-53 | Without a `tags` parameter, the filter matches sessions tagged with the literal "undefined". |
| SessionController.SearchTerm | infrastructure/web/controllers/SessionController.ts:63-66 | A search term exists exactly when the parameter is a single non-empty string. |
| SessionController.LeanListingReply | infrastructure/database/repositories/MongoSessionRepository.ts:6-8 | As written, mapping the `.lean()` documents succeeds only on an empty list; any session makes the handler answer 500 "Internal server error". |
| SessionController.LeanListingFailsOnAnyMatch | infrastructure/database/repositories/MongoSessionRepository.ts:36-58 | As written, a listing fails with 500 exactly when some stored session matches its filter, and never returns a session. |
| SessionController.SessionController.GetAllSessionsAsWritten | infrastructure/web/controllers/SessionController.ts:25-33 | As written, 500 exactly when any session is stored; otherwise 200 with the empty list. |
| SessionController.SessionController.GetSessionsByTagsAsWritten | infrastructure/web/controllers/SessionController.ts:49-59 | As written, 500 exactly when a stored session shares a tag with the normalised list; otherwise 200 with the empty list. |
| SessionController.SessionController.SearchSessionsAsWritten | infrastructure/web/controllers/SessionController.ts:61-74 | As written, 400 without a term; otherwise 500 exactly when the index matches a stored session, else 200 with the empty list. |
| SessionController.SessionController.GetAllSessions | infrastructure/web/controllers/SessionController.ts:25-33 | With the documents mapped as intended (see Findings): 200 with every session once, latest date first. |
| SessionController.SessionController.GetSessionById | infrastructure/web/controllers/SessionController.ts:35-47 | 200 with the stored session, or 404 "Session not found". |
| SessionController.SessionController.GetSessionsByTags | infrastructure/web/controllers/SessionController.ts:49-59 | With the documents mapped as intended: 200 with exactly the sessions sharing a tag with the normalised list, latest date first. |
| SessionController.SessionController.SearchSessions | infrastructure/web/controllers/SessionController.ts:61-74 | With the documents mapped as intended: 400 exactly when the term is missing; otherwise 200 with exactly the matching sessions, best score first. |
| SessionController.SessionController.CreateSession | infrastructure/web/controllers/SessionController.ts:76-99 | A body the schema refuses gives 400 with every violation and changes nothing. Otherwise 201 with a new session built from the filled body. |
| SessionController.SessionController.UpdateSession | infrastructure/web/controllers/SessionController.ts:101-121 | A refused body gives 400 and a missing session 404, neither changing anything. Otherwise only that session is patched with the validated fields. |
| SessionController.SessionController.DeleteSession | infrastructure/web/controllers/SessionController.ts:123-134 | 204 when the session existed, otherwise 404; afterwards it is gone. |
| CharacterController.CharacterController.GetAllCharacters | infrastructure/web/controllers/CharacterController.ts:24-32 | 200 with every character once. |
| CharacterController.CharacterController.GetCharacterById | infrastructure/web/controllers/CharacterController.ts:34-46 | 200 with the stored character, or 404 "Character not found". |
| CharacterController.CharacterController.CreateCharacter | infrastructure/web/controllers/CharacterController.ts:48-63 | A refused body gives 400 and changes nothing. Otherwise 201 with a new character built from the filled body, its sanity flags stored false. |
| CharacterController.CharacterController.UpdateCharacter | infrastructure/web/controllers/CharacterController.ts:65-85 | A refused body gives 400 and a missing character 404, neither changing anything. Otherwise only that character is patched; a sent sanity object is stored with both flags false. |
| CharacterController.CharacterController.DeleteCharacter | infrastructure/web/controllers/CharacterController.ts:87-99 | 204 when the character existed, otherwise 404; afterwards it is gone. |
| SessionUseCases.GetSessionById | application/useCases/session/GetSessionById.ts:8-17 | Fails with a 404 not-found error exactly when the id is unknown; otherwise returns the stored session. |
| SessionUseCases.UpdateSession | application/useCases/session/UpdateSession.ts:10-18 | A missing session fails with 404 and changes nothing; otherwise only that session is patched. |
| SessionUseCases.DeleteSession | application/useCases/session/DeleteSession.ts:7-13 | Fails with 404 exactly when the session was missing; afterwards it is gone. |
| CharacterUseCases.GetCharacterById | application/useCases/character/GetCharacterById.ts:8-16 | Fails with a 404 not-found error exactly when the id is unknown; otherwise returns the stored character. |
| CharacterUseCases.UpdateCharacter | application/useCases/character/UpdateCharacter.ts:10-18 | A missing character fails with 404 and changes nothing; otherwise only that character is patched, a sent sanity object stored with both flags false. |
| CharacterUseCases.DeleteCharacter | application/useCases/character/DeleteCharacter.ts:7-13 | Fails with 404 exactly when the character was missing; afterwards it is gone. |
| Joi.FieldIndex | infrastructure/web/validators/sessionValidator.ts:21-31 | Finds the declared field with a given key, or reports that the key is undeclared. |
| Joi.ConformsIffNoViolations | infrastructure/web/validators/sessionValidator.ts:45-50 | With `abortEarly: false`, a body is accepted exactly when the set of reported violations is empty. |
| Joi.MissingKeysAllReported | infrastructure/web/validators/sessionValidator.ts:45-50 | Every missing required key is reported, not only the first. |
| Joi.RequiredKeysPresent | infrastructure/web/validators/sessionValidator.ts:21-31 | An accepted object carries every required key. |
| Joi.UnknownKeysRefused | infrastructure/web/validators/sessionValidator.ts:12 | An undeclared key is reported and the object refused. |
| Joi.EmptyArrayFilled | infrastructure/web/validators/sessionValidator.ts:27-30 | The empty list is accepted and filled as the empty list. |
| Joi.FillObjectKeys | infrastructure/web/validators/sessionValidator.ts:27-30 | Filling adds exactly the defaulted keys to the keys sent. |
| Joi.FillWithoutDefaults | infrastructure/web/validators/sessionValidator.ts:33-43 | A schema with no defaults returns the body unchanged. |
| Joi.FillConforms | infrastructure/web/validators/sessionValidator.ts:45-50 | The value Joi returns for an accepted body is itself accepted. |
| Joi.FillIdempotent | infrastructure/web/validators/sessionValidator.ts:45-50 | Validating the returned value again returns it unchanged. |
| Joi.Validate | infrastructure/web/validators/sessionValidator.ts:45-50 | Accepts exactly the conforming bodies. A refusal lists every violation; an accepted value conforms. |
| SessionValidator.ClueSchemaWellFormed | infrastructure/web/validators/sessionValidator.ts:4-12 | The clue schema has unique keys and valid defaults. |
| SessionValidator.ItemSchemaWellFormed | infrastructure/web/validators/sessionValidator.ts:14-19 | The item schema has unique keys and valid defaults. |
| SessionValidator.CreateSessionSchemaWellFormed | infrastructure/web/validators/sessionValidator.ts:21-31 | The create schema has unique keys, and each default conforms to its field. |
| SessionValidator.UpdateSessionSchemaWellFormed | infrastructure/web/validators/sessionValidator.ts:33-43 | The update schema has unique keys and no defaults. |
| SessionValidator.CreateSessionRequiredKeys | infrastructure/web/validators/sessionValidator.ts:22-26 | An accepted new session carries title, date, location, summary and details as non-empty strings. |
| SessionValidator.CreateSessionDefaults | infrastructure/web/validators/sessionValidator.ts:27-28 | Absent tags and images are filled with empty lists. |
| SessionValidator.CreatedSessionKeepsStrings | infrastructure/web/validators/sessionValidator.ts:22-26 | A stored new session holds the title, location, summary and details sent, and the parsed date. |
| SessionValidator.CreatedSessionListsDefault | infrastructure/web/validators/sessionValidator.ts:27-30 | A new session sent without tags, images or clues stores empty lists. |
| SessionValidator.ClueAcceptsEmptyImage | infrastructure/web/validators/sessionValidator.ts:9 | A clue with an empty image is accepted. |
| SessionValidator.ClueRefusesEmptyName | infrastructure/web/validators/sessionValidator.ts:6 | A clue with an empty name is refused. |
| SessionValidator.UpdateSessionSchemaHasNoDefaults | infrastructure/web/validators/sessionValidator.ts:33-43 | The update schema fills nothing in. |
| SessionValidator.EmptySessionUpdateAccepted | infrastructure/web/validators/sessionValidator.ts:33-43 | The empty body is a valid update that asks for no change. |
| SessionValidator.UpdateSessionFillKeys | infrastructure/web/validators/sessionValidator.ts:33-43 | The validated update carries exactly the keys sent. |
| SessionValidator.SessionUpdateSetsSentKeys | infrastructure/web/validators/sessionValidator.ts:33-43 | An update sets a field exactly when the body sends it, and the title, date and location sent. |
| CharacterValidator.CategoryOf | infrastructure/web/validators/characterValidator.ts:24-28 | Each accepted category name maps to the category with that name. |
| CharacterValidator.EquipmentTypeOf | infrastructure/web/validators/characterValidator.ts:30-34 | Each accepted equipment type name maps to the type with that name. |
| CharacterValidator.CategoryRoundTrip | infrastructure/web/validators/characterValidator.ts:24-28 | Every category has an accepted name that reads back to it. |
| CharacterValidator.EquipmentTypeRoundTrip | infrastructure/web/validators/characterValidator.ts:30-34 | Every equipment type has an accepted name that reads back to it. |
| CharacterValidator.StatsSchemaWellFormed | infrastructure/web/validators/characterValidator.ts:4-13 | The stats schema has unique keys. |
| CharacterValidator.MentalHealthSchemaWellFormed | infrastructure/web/validators/characterValidator.ts:15-22 | The sanity schema has unique keys and conforming defaults. |
| CharacterValidator.SkillSchemaWellFormed | infrastructure/web/validators/characterValidator.ts:24-28 | The skill schema has unique keys. |
| CharacterValidator.EquipmentSchemaWellFormed | infrastructure/web/validators/characterValidator.ts:30-34 | The equipment schema has unique keys. |
| CharacterValidator.CreateCharacterSchemaWellFormed | infrastructure/web/validators/characterValidator.ts:36-48 | The create schema has unique keys, and each default conforms to its field. |
| CharacterValidator.CreateCharacterRequiredKeys | infrastructure/web/validators/characterValidator.ts:36-48 | Every key is required except skills, equipment and pulp talents. |
| CharacterValidator.StatsAllRequired | infrastructure/web/validators/characterValidator.ts:4-13 | Accepted stats carry all eight characteristics as numbers. |
| CharacterValidator.SkillCategoryAccepted | infrastructure/web/validators/characterValidator.ts:24-28 | An accepted skill's category is one of the listed names and is stored as that category. |
| CharacterValidator.EquipmentTypeAccepted | infrastructure/web/validators/characterValidator.ts:30-34 | An accepted item's type is one of the listed names and is stored as that type. |
| CharacterValidator.MentalHealthDefaults | infrastructure/web/validators/characterValidator.ts:15-22 | Sanity sent without flags and lists is filled with false flags and empty lists. |
| CharacterValidator.CreateCharacterFillDefaults | infrastructure/web/validators/characterValidator.ts:43-45 | Absent skills, equipment and pulp talents are filled with empty lists. |
| CharacterValidator.CreatedCharacterListsDefault | infrastructure/web/validators/characterValidator.ts:43-45 | A new character sent without those lists stores empty ones. |
| CharacterValidator.EmptyCharacterUpdateAccepted | infrastructure/web/validators/characterValidator.ts:50-62 | The empty body is a valid update that asks for no change. |
| CharacterValidator.UpdateCharacterFillKeys | infrastructure/web/validators/characterValidator.ts:50-62 | The validated update carries exactly the keys sent. |
| CharacterValidator.UpdateCharacterFillScalar | infrastructure/web/validators/characterValidator.ts:50-62 | A scalar field of an update is kept exactly as sent. |
| CharacterValidator.CharacterUpdateSetsSentKeys | infrastructure/web/validators/characterValidator.ts:50-62 | An update sets a field exactly when the body sends it, and keeps the name and wounds sent. |

## Left out

Each item below says what the backend does that this model does not.

**Libraries outside the model.** These become parameters, so their internals are not modelled:
- JWT signing and verification, and token expiry;
- bcrypt hashing and comparison;
- `new Date(...)` parsing;
- the clock;
- MongoDB's `$text` index and its score.

**Other I/O and infrastructure.**
- `console` logging.
- The database connection and the server start-up.
- Every `catch` branch that answers 500 after an unexpected exception, except the session listings' mapping failure (see Findings). The model raises no other such exception.
- The debug controller and its routes are not part of this model.
- `NotFoundError.ts` and the repository interfaces' own files are not part of this model. Their behaviour is taken from their use sites and from `Common.NotFoundError`.

**Route wiring.**
- Only the event read routes are modelled (see Findings), plus the keeper gate on `authRoutes.ts`.
- Every other route is assumed to run the middleware its handler expects.
- In the wiring, `register` sits behind `requireKeeper`, so the handler's own keeper check never refuses anything. `AuthController.AuthController.Register` models the handler as written.

**Data representation.**
- Mongoose `trim` and `maxlength` options are taken as the identity, and so are the document↔entity mappers, except for the `.lean()` listings of sessions and the sanity flags of characters (see Findings).
- Common.ToLowerNormalises: `toLowerCase` is modelled on the ASCII letters only. Other upper-case letters (É, Σ) stay as they are, so `EmailInUse`, `UserWithEmail` and the stored e-mail do not fold them.
- SessionRepository.MongoSessionRepository.Create: each clue and item gets a generated `_id` (their sub-schemas set `_id: true`), which the mapper returns as `id`. The model's `Clue` and `Item` carry no identifier; the same holds for `Update`.
- SessionController.TagArray: a `tags` parameter in bracket form (`?tags[a]=b`) is parsed into an object, which `String` turns into "[object Object]". `QueryValue` has no case for it.
- JSON numbers are integers; fractional stats or wounds are not modelled.
- Joi error messages are kept only as the paths of the violations. Joi type coercion is not modelled: `date` stays a string until parsed.

**Update bodies.**
- `updateNote` passes `req.body` straight to the repository, and `updateEvent` spreads it into the update. The model's `NotePatch` holds the six fields of the update DTO and `EventPatch` the seven of its DTO; any other key in a body is not modelled, although the source would set it too.
- NoteRepository.NotePatchKeepsIdentity: holds for the typed patch only. With the raw body, an owner who sends `userId` hands the note to another user, who then owns it for every later access check.
- EventController.EventPatchOf: covers the DTO's keys only. A body carrying `createdBy` makes another user the event's creator, and so changes who may later edit or delete it.
- EventController.EventPatchOf: a present but empty `date` is sent as "" and cast to null, so the stored event loses its date. The model's stored date is always a number, so such a patch keeps the old date. Dates sent as non-strings (null, numbers) are not modelled either, nor is null for the description or the colour.
- NoteController.NoteController.UpdateNote: null is modelled for the two links only. The update runs no validators, so a null title, content, visibility or tags would be stored as null; the model's note always holds those values. A link that is not a valid ObjectId fails the cast and is answered 500; the model stores it.
- ProfileController.ProfileController.UpdateProfile: a `characterId` that is not a valid ObjectId (such as "") fails the database cast and is answered 500; the model stores it as sent.
- The user `settings` object is replaced as a whole value rather than merged per key.

**Weakened contracts.**
- SessionValidator.SessionUpdateSetsSentKeys: gives the stored value only for title, date and location. The other keys are stated as "set exactly when sent", not value by value.
- CharacterValidator.CharacterUpdateSetsSentKeys: gives the stored value only for name and wounds. The other keys are stated as "set exactly when sent".
- CharacterValidator.CreateCharacterRequiredKeys: states the names and presence of the schema's keys, not their value types. Required values are reached through `Joi.RequiredKeysPresent`.
- CharacterRepository.MongoCharacterRepository.FindAll: the source queries without a sort, so the contract states the contents only, not an order.

## Findings

| source | as written | input that shows it | evidently intended | confidence | as-written member | corrected member |
|---|---|---|---|---|---|---|
| infrastructure/web/routes/eventRoutes.ts:8-9 | The two GET routes run no authentication, so `req.user` is never set. The handlers' signed-in branches (own private events, `mine=true`) are unreachable, and a creator reading their own private event by id gets 403. | A private event created by user U; `GET /events/<id>` with `Authorization: Bearer <valid token for U>`. | Read the token when one is present (optional authentication), so that the handlers' rules see the real caller. | not executed | EventRoutes.GetEventByIdAsWired, EventRoutes.CreatorOfPrivateEventRefusedAsWired | EventRoutes.GetEventByIdOptionalAuth |
| infrastructure/database/repositories/MongoSessionRepository.ts:36-58 | The three session listings end in `.lean()`, which returns plain objects. These carry `_id` but not the `id` getter, so `documentToEntity` calls `toString` on undefined (line 8) for the first session and throws; the handlers' catch answers 500. | One stored session; `GET /sessions`. | Map `_id` (or leave out `.lean()`), so that the listings return the sessions. | not executed | SessionController.LeanListingFailsOnAnyMatch, SessionController.SessionController.GetAllSessionsAsWritten | SessionController.SessionController.GetAllSessions |
| infrastructure/database/models/CharacterModel.ts:20-21 | The sanity sub-schema names its flags `temporaryInSanity` and `indefiniteInSanity`, while the validator and the entity use `tempSanity` and `indefiniteSanity`. In strict mode the sent flags are dropped and the stored ones keep their default, false. | `POST /characters` whose `mentalHealth` has `tempSanity: true`; the stored and returned character has `temporaryInSanity: false` and no `tempSanity`. | One name on both sides, so that the flags sent are stored and read back. | not executed | CharacterRepository.SentSanityFlagsLost | CharacterRepository.IntendedSanityRoundTrip |

The session listings elsewhere in the model (`GetAllSessions`, `GetSessionsByTags`, `SearchSessions`) use the corrected mapping. The character repository keeps the sanity cast as written, because that cast is what the database stores. The corrected mapping, `StoreMentalHealthIntended`, stands beside it.
