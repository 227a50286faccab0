# BugCrew bug tracker — a Dafny model of its core rules

BugCrew is a bug tracker with four roles: admin, manager, developer and tester.
Testers report bugs. Managers and admins assign them to developers. Developers
move them through the workflow. The reporting tester then closes a resolved bug
or reopens it. Projects carry a team of developers and testers. Users exchange
direct messages, and every bug event produces an in-app notification and an
email.

This project models the rules of that system in Dafny and proves properties
about them:

- **Bugs** (`Bugs`, in `bugs.dfy`): a `BugStore` class holds the bugs in
  creation order. It has one method per handler of the bug controller:
  - role-scoped listing, newest first;
  - creation, with the reporter forced to the caller;
  - the unrestricted update, which stamps the resolution time only on the
    first entry into resolved;
  - assignment to a developer, which forces in-progress;
  - the reporter-only verification;
  - lookup and deletion.

  Emails and notifications are appended to an `effects` log after the state
  change, so they can never block it. Whether an email goes out is a boolean
  parameter (`delivered`), because the mail transport is not modelled.
- **Projects** (`Projects`): a `ProjectStore` class.
  - Creation forces the manager to a managing caller.
  - Updates are validated.
  - Team membership uses an append that rejects duplicates and a filter that
    removes every entry for a user. Both keep "each user at most once".
- **Users** (`Users`): listing without passwords, the truthy-only profile
  merge with admin-only role changes, the active-flag toggle, deletion and
  lookup by role.
- **Comments** (`Comments`): the author-or-admin guard, with 404 before 403,
  and the oldest-first thread.
- **Direct messages** (`Messages`):
  - the conversation list, grouped by partner, with the newest message as
    preview and a per-partner unread count;
  - the thread fetch, which marks the partner's messages read after reading
    them;
  - send validation;
  - the contact directory sorted by name.
- **Notifications** (`Notifications`): the recipient-scoped store operations,
  the pagination arithmetic, the never-failing `createNotification`, and the
  four event builders.
- **The client reducer** (`NotificationReducer`): every action of the
  front-end notification reducer. Its unread badge is related to the listed
  notifications by a consistency invariant that counts the unread
  notifications on pages the client has not fetched.
- **Route permissions** (`Permissions`): the bug, project and user route
  tables, each tried in declaration order, with the role set each
  `authorize` guard admits.
- **Dashboards** (`DeveloperDashboard`, `TeamPage`, `TesterDashboard`): the
  client-side selection helpers:
  - the developer's "my projects" and kanban columns;
  - the team page's member filters, assignment guard and workload level;
  - the tester's reporter filter, status and priority filters, verify buttons
    and stat cards.

Modelling conventions:

- Record ids are natural numbers handed out in order (`nextId`).
- The clock is a natural-number parameter `now`.
- The authenticated caller is a `Caller` value.
- A collection that a handler only reads (users, projects) is passed in as a
  sequence.
- "Sorted by creation time" is each store's natural order. The store
  invariant `Valid()` keeps that order chronological.
- A Mongoose validation failure is `Err(ServerError)`, which the handlers
  answer with 500.

## Model

| member | source | states |
|---|---|---|
| Common.Page | backend/controllers/notificationController.js:11-16 | `skip(skip).limit(count)`: at most `count` elements, the slice starting at `skip`, empty when `skip` is past the end |
| Common.PageNewestFirst | backend/controllers/notificationController.js:11-16 | a page of a newest-first list is still newest first, and holds only elements of that list |
| Common.TrimEmptyIff | backend/models/Bug.js:4-8 | a trimmed title is empty exactly when the title is all white space, so only such titles fail the required check |
| Common.Trim | backend/models/Bug.js:4-8 | JavaScript `trim`: leading and trailing white space removed; used by the schema `trim` setters and by `content.trim()` at backend/routes/messages.js line 105; TrimEmptyIff and TrimIdempotent state its properties |
| Common.TrimIdempotent | backend/models/Bug.js:4-8 | trimming a stored (already trimmed) title again changes nothing |
| Models.FindUser | backend/controllers/userController.js:18-28 | the account with that id when one exists, and `None` exactly when no account has it |
| Models.FirstWithRole | backend/controllers/bugController.js:61 | `findOne({role})`: the first account in store order with the role, and `None` exactly when no account has it |
| Models.MakeBug | backend/models/Bug.js:4-58 | creation succeeds iff the trimmed title is non-empty, the description is non-empty, and project and reporter are present; the result keeps the id, time, reporter and project; a failure is a 500 |
| Models.Savable | backend/models/Bug.js:4-12 | the schema's required strings: a stored bug has a non-empty trimmed title and a non-empty description |
| Models.FreshBugDefaults | backend/models/Bug.js:27-46 | defaults: status open, priority medium, severity major, type bug, unassigned, never resolved |
| Models.FindProject | backend/controllers/projectController.js:16-26 | the project with that id when one exists, and `None` exactly when none has it |
| Models.ValidateRole | backend/models/Project.js:18-27 | a team entry's role is accepted iff it is absent, developer or tester; anything else (such as 'lead') fails with 500 |
| Models.MakeProject | backend/models/Project.js:3-53 | creation succeeds iff the trimmed name is non-empty, the description is non-empty, the manager is present and progress is within 0..100; a stored project is savable |
| Models.ProjectSavable | backend/models/Project.js:4-12 | the schema's checks on a stored project: non-empty trimmed name, non-empty description, progress from 0 to 100 |
| Models.FreshProjectDefaults | backend/models/Project.js:28-50 | defaults: status planning, priority medium, progress 0, empty team, start date now |
| Models.MakeNotification | backend/models/Notification.js:4-43 | creation succeeds iff the trimmed title and the message are non-empty; a new notification is unread, for that recipient, of that type |
| Models.MakeComment | backend/models/Comment.js:3-23 | creation succeeds iff the content is non-empty; bug, author, content and attachments are the given ones |
| Permissions.Resolve | backend/routes/bugRoutes.js:9-26 | the first route in declaration order whose verb and path pattern take the request; `None` exactly when no route does |
| Permissions.ResolveAt | backend/routes/bugRoutes.js:9-26 | a request goes to route k when k takes it and no earlier route does |
| Permissions.Dispatch | backend/routes/bugRoutes.js:9-26 | 404 when no route takes the request; otherwise the route's handler iff the guard admits the role, else 403 |
| Permissions.DispatchAt | backend/routes/bugRoutes.js:9-26 | for a request that route k is the first to take, the answer is route k's handler or 403, according to its guard |
| Permissions.BugListingOpen | backend/routes/bugRoutes.js:9-10 | every role may list bugs, and `GET /stats` reaches the statistics, not the lookup by id |
| Permissions.BugRoutesReachable | backend/routes/bugRoutes.js:9-26 | the bug router's table, in declaration order: each route is the one a request shaped like its own pattern reaches, so no route is hidden by an earlier one |
| Permissions.BugLookupOpen | backend/routes/bugRoutes.js:11 | every role reaches the lookup for any id other than "stats" |
| Permissions.OnlyTestersReport | backend/routes/bugRoutes.js:14 | creating a bug is allowed iff the role is tester; any other role gets 403 |
| Permissions.OnlyDevelopersUpdate | backend/routes/bugRoutes.js:17 | the general bug update is allowed iff the role is developer |
| Permissions.OnlyAdminsDeleteBugs | backend/routes/bugRoutes.js:20 | deleting a bug is allowed iff the role is admin |
| Permissions.AssignByAdminOrManager | backend/routes/bugRoutes.js:23 | assigning a bug is allowed iff the role is admin or manager |
| Permissions.OnlyTestersVerify | backend/routes/bugRoutes.js:26 | verifying a bug is allowed iff the role is tester |
| Permissions.ProjectReadsOpen | backend/routes/projectRoutes.js:8-9 | every role may list projects and read one by id |
| Permissions.ProjectRoutesReachable | backend/routes/projectRoutes.js:8-17 | the project router's table, in declaration order: no route is hidden by an earlier one |
| Permissions.OnlyManagersCreateProjects | backend/routes/projectRoutes.js:12 | creating a project is allowed iff the role is manager |
| Permissions.UpdateByManagerOrDeveloper | backend/routes/projectRoutes.js:13-14 | updating a project is allowed iff the role is manager or developer; nothing restricts developers to their own projects |
| Permissions.OnlyManagersDeleteProjects | backend/routes/projectRoutes.js:15 | deleting a project is allowed iff the role is manager |
| Permissions.OnlyManagersManageTeams | backend/routes/projectRoutes.js:16-17 | adding and removing team members are allowed iff the role is manager |
| Permissions.CreatedProjectsManagedByCaller | backend/routes/projectRoutes.js:12 | every project that gets through the route is created with the caller as manager: the other branch of `createProject` is unreachable |
| Permissions.ListUsersByAdminOrManager | backend/routes/userRoutes.js:7 | listing all users is allowed iff the role is admin or manager |
| Permissions.UserRoutesReachable | backend/routes/userRoutes.js:7-12 | the user router's table, in declaration order: `/role/:role` comes before `/:id`, and no route is hidden by an earlier one |
| Permissions.UserLookupOpen | backend/routes/userRoutes.js:8-9 | every role may look up users by role and by id |
| Permissions.AnyoneUpdatesAnyAccount | backend/routes/userRoutes.js:10 | every role may update any account |
| Permissions.OnlyAdminsManageAccounts | backend/routes/userRoutes.js:11-12 | deleting an account and toggling its active flag are allowed iff the role is admin |
| Bugs.Sent | backend/controllers/bugController.js:164-186 | one guarded send: the email and then the notification go to the same user, and nothing is sent when the email fails |
| Bugs.FindBug | backend/controllers/bugController.js:35-46 | the bug with that id, or `None` exactly when no bug has it |
| Bugs.CreationEffects | backend/controllers/bugController.js:59-84 | after creation, only the first manager account is emailed and notified, and only when one exists |
| Bugs.Patched | backend/controllers/bugController.js:97-98 | `Object.assign` of the body: the id and creation time are never touched |
| Bugs.Updated | backend/controllers/bugController.js:97-118 | the body is applied as given, and the resolution time is then stamped now exactly on the first entry into resolved; no other field differs from the patched bug |
| Bugs.ResolutionEffects | backend/controllers/bugController.js:100-118 | the resolution email and notification go only to the bug's reporter |
| Bugs.Assigned | backend/controllers/bugController.js:140-156 | 404 for a missing bug, then 404 for a missing user, then 400 for a non-developer; on success only the assignee and the status (in-progress) change |
| Bugs.AssignmentEffects | backend/controllers/bugController.js:164-186 | nothing when the body says `sendEmail: false`; otherwise only the new assignee is emailed and notified |
| Bugs.Verified | backend/controllers/bugController.js:209-262 | 404, then 403 for a non-reporter, then 400 unless resolved, then close or reopen; any other action is 400; on success only the status changes |
| Bugs.ReopenEffects | backend/controllers/bugController.js:229-259 | the reopen email and notification go only to the assigned developer, and nothing is sent when there is none |
| Bugs.ResolutionStampedOnce | backend/controllers/bugController.js:100-118 | sending resolved again neither moves the resolution time nor counts as a first resolution |
| Bugs.UpdateAllowsAnyTransition | backend/controllers/bugController.js:92-125 | the update accepts every status from every status and keeps the assignee |
| Bugs.Lifecycle | backend/controllers/bugController.js:138-262 | assign, resolve at t, then reopen: the bug is reopened, still assigned, resolved at t; closing instead ends it closed, resolved at t |
| Bugs.BugStore.constructor | backend/models/Bug.js:3-61 | an empty bug collection satisfies the store invariant |
| Bugs.BugStore.GetBugs | backend/controllers/bugController.js:12-33 | exactly the bugs the caller's role and the project filter select, newest first |
| Bugs.Sees | backend/controllers/bugController.js:14-22 | the listing query: a developer sees the bugs assigned to them, a tester those they reported, admins and managers every bug; a project filter narrows any of these |
| Bugs.BugStore.GetBug | backend/controllers/bugController.js:35-46 | the stored bug with that id, or 404 exactly when there is none |
| Bugs.BugStore.CreateBug | backend/controllers/bugController.js:48-90 | the reporter is the caller and the screenshots are the uploaded files; a valid bug is appended and the manager effects follow; an invalid one changes nothing |
| Bugs.CreationFields | backend/controllers/bugController.js:50-54 | the stored body has the caller as reporter and the uploaded file names as screenshots, whatever the body says; every other field is the body's |
| Bugs.BugStore.UpdateBug | backend/controllers/bugController.js:92-125 | 404 for a missing bug; the resolution effects fire before the save; an unsavable result is a 500 that leaves the bug unchanged |
| Bugs.BugStore.DeleteBug | backend/controllers/bugController.js:127-136 | 404 for a missing bug; otherwise exactly that bug is removed |
| Bugs.BugStore.AssignBug | backend/controllers/bugController.js:138-192 | the answer is `Assigned`; an error changes nothing; success replaces the bug in place and logs the assignment effects |
| Bugs.BugStore.VerifyBug | backend/controllers/bugController.js:209-275 | the answer is `Verified`; an error changes nothing; success replaces the bug and, on reopen, logs the reopen effects |
| Projects.WithoutMember | backend/controllers/projectController.js:107 | the team keeps exactly the entries for other users, and the user is then on no entry |
| Projects.AddKeepsUnique | backend/controllers/projectController.js:69-75 | appending a user who is not on a team without repeats keeps it without repeats |
| Projects.RemoveKeepsUnique | backend/controllers/projectController.js:107 | removing a user keeps a team without repeats |
| Projects.AddThenRemove | backend/controllers/projectController.js:74-107 | adding a new user and then removing them gives back the team as it was |
| Projects.Patched | backend/controllers/projectController.js:40-48 | id and creation time are kept, and a body that passes validation keeps the project savable |
| Projects.PatchValid | backend/controllers/projectController.js:42 | `runValidators`: each path the body sets must pass its schema check (trimmed name non-empty, description non-empty, progress 0 to 100) |
| Projects.PatchKeepsProgress | backend/models/Project.js:45-50 | after an update, progress is within 0..100 iff the body's progress (if any) is |
| Projects.ProjectStore.constructor | backend/models/Project.js:3-53 | an empty project collection satisfies the store invariant |
| Projects.ProjectStore.GetProject | backend/controllers/projectController.js:16-26 | the stored project with that id, or 404 exactly when there is none |
| Projects.ProjectStore.CreateProject | backend/controllers/projectController.js:28-38 | a manager caller becomes the manager; a valid project is appended; an invalid one changes nothing |
| Projects.CreationFields | backend/controllers/projectController.js:30-33 | a manager caller becomes the manager whatever the body says; any other caller's body is stored unchanged |
| Projects.ProjectStore.UpdateProject | backend/controllers/projectController.js:40-48 | an invalid body is a 500, then 404 for a missing project; otherwise the body is applied in place |
| Projects.ProjectStore.DeleteProject | backend/controllers/projectController.js:50-59 | 404 for a missing project; otherwise exactly that project is removed |
| Projects.ProjectStore.AddTeamMember | backend/controllers/projectController.js:61-100 | 404, then 400 for a user already on the team, then 500 for a bad role; otherwise exactly one entry is appended at the end, uniqueness is kept, and the invitation is recorded unless suppressed |
| Projects.ProjectStore.RemoveTeamMember | backend/controllers/projectController.js:102-113 | 404 for a missing project; otherwise every entry for the user goes, uniqueness is kept, and removing a non-member changes nothing |
| Users.Public | backend/controllers/userController.js:8 | the listing view keeps the id, role and active flag of the account |
| Users.PublicHidesOnlyPassword | backend/controllers/userController.js:8 | two accounts list the same iff they differ at most in their password |
| Users.PublicList | backend/controllers/userController.js:8 | the listing is every account, in order, each without its password |
| Users.Keep | backend/controllers/userController.js:42-46 | `value \|\| current`: a non-empty value wins, and an absent or empty value leaves the current one |
| Users.Merged | backend/controllers/userController.js:42-51 | name and email change only to a non-empty value; phone, department and avatar follow Keep, so an empty value never clears them; the role changes only when an admin supplies one; id, password and active flag are kept |
| Users.MergeIdempotent | backend/controllers/userController.js:42-51 | sending the same update twice equals sending it once, and an empty body changes nothing |
| Users.RoleOnlyByAdmin | backend/controllers/userController.js:49-51 | for a non-admin the role in the body is ignored entirely |
| Users.UserStore.constructor | backend/controllers/userController.js:6-13 | the store starts from a given list of accounts with distinct ids |
| Users.UserStore.GetUsers | backend/controllers/userController.js:6-13 | every account in order, each without its password |
| Users.UserStore.GetUsersByRole | backend/controllers/userController.js:104-111 | exactly the active accounts with that role, without passwords: every qualifying account is listed, every entry is the public view of a stored qualifying account, and there is one entry per qualifying account |
| Users.UserStore.GetUser | backend/controllers/userController.js:18-28 | the account with that id, without its password, or 404 exactly when there is none |
| Users.UserStore.UpdateUser | backend/controllers/userController.js:33-66 | 404 for a missing account; otherwise the merge is stored in place and its profile returned, whoever the caller is |
| Users.UserStore.DeleteUser | backend/controllers/userController.js:71-82 | 404 for a missing account; otherwise exactly that account is removed |
| Users.UserStore.ToggleUserActive | backend/controllers/userController.js:87-99 | 404 for a missing account; otherwise only its active flag flips, and the new value is returned |
| Users.ToggleTwice | backend/controllers/userController.js:93 | two toggles restore the store |
| Comments.Guard | backend/controllers/commentController.js:29-35 | 404 for a missing comment before 403; allowed iff the caller is the author or an admin |
| Comments.CanModify | backend/controllers/commentController.js:33 | the ownership test: the comment's author or an admin |
| Comments.OnlyAuthorOrAdmin | backend/controllers/commentController.js:33-35 | refused exactly for a non-admin who is not the author; an admin may touch every comment |
| Comments.FindComment | backend/controllers/commentController.js:31 | the comment with that id, or `None` exactly when none has it |
| Comments.CommentStore.constructor | backend/models/Comment.js:3-23 | an empty comment collection satisfies the store invariant |
| Comments.CommentStore.GetCommentsByBug | backend/controllers/commentController.js:3-12 | exactly the bug's comments, oldest first |
| Comments.CommentStore.CreateComment | backend/controllers/commentController.js:14-27 | the author is the caller and the attachments are the uploaded files; empty content is a 500 that changes nothing |
| Comments.CommentStore.UpdateComment | backend/controllers/commentController.js:29-42 | 404, then 403 for anyone but the author or an admin, then 500 for empty content; otherwise only the content changes |
| Comments.CommentStore.DeleteComment | backend/controllers/commentController.js:44-56 | 404, then 403 for anyone but the author or an admin; otherwise exactly that comment is removed |
| Messages.ContactOf | backend/routes/messages.js:17-18 | a populated user shows its id and name |
| Messages.PartnerOf | backend/routes/messages.js:25-27 | the other party of a message: the receiver when the caller sent it, otherwise the sender |
| Messages.Gathered | backend/routes/messages.js:22-38 | the first-seen-wins grouping of the user's messages by partner, at most one entry per message |
| Messages.Resolvable | backend/routes/messages.js:17-30 | a message whose populated sender or partner is missing makes the listing throw, which answers 500 |
| Messages.GatheredPartners | backend/routes/messages.js:24-38 | a conversation exists for a partner iff some message of the user's is with that partner; each shows the partner's account; the counts start at 0 |
| Messages.GatheredDistinct | backend/routes/messages.js:29 | no partner has two conversations |
| Messages.GatheredFirst | backend/routes/messages.js:29-36 | each conversation shows the first message with its partner in the walk |
| Messages.WithUnread | backend/routes/messages.js:41-48 | each conversation's unread count is the number of unread messages the partner sent the user; nothing else changes |
| Messages.ConversationShowsLatest | backend/routes/messages.js:14-36 | walking the messages newest first, every conversation shows the latest message with its partner |
| Messages.MarkedRead | backend/routes/messages.js:75-78 | `updateMany`: exactly the messages from `from` to `to` become read, and nothing else changes |
| Messages.MarkedReadProperties | backend/routes/messages.js:134-141 | nothing stays unread from the partner; marking twice is marking once; other conversations' unread counts are unchanged |
| Messages.SortByName | backend/routes/messages.js:122-124 | a permutation of the accounts, in name order |
| Messages.MessageStore.constructor | backend/routes/messages.js:102-108 | an empty message collection satisfies the store invariant |
| Messages.MessageStore.Conversations | backend/routes/messages.js:9-56 | the grouped conversations with unread counts; a 500 exactly when some message's sender or partner account is missing |
| Messages.MessageStore.GatherConversations | backend/routes/messages.js:22-38 | the grouping loop yields exactly the first-seen-wins grouping of the walked messages, and fails exactly when some message's sender or partner account is missing |
| Messages.MessageStore.CountUnread | backend/routes/messages.js:41-48 | the counting loop sets each conversation's unread count to the number of unread messages its partner sent the user |
| Messages.MessageStore.Thread | backend/routes/messages.js:59-85 | the messages between the two users in both directions, oldest first, as they were before; then the partner's messages to the caller are marked read |
| Messages.Between | backend/routes/messages.js:64-69 | the thread query: messages from either user to the other |
| Messages.MessageStore.Send | backend/routes/messages.js:88-117 | 400 without a receiver or non-empty content, then 404 for a missing receiver; otherwise a new unread message with the trimmed content is appended; whitespace-only content passes and is stored empty |
| Messages.MessageStore.MarkRead | backend/routes/messages.js:134-146 | the partner's messages to the caller are marked read, and none is left unread |
| Messages.UsersForChat | backend/routes/messages.js:120-131 | every account except the caller, sorted by name, as name, email and role |
| Notifications.ParamOr | backend/controllers/notificationController.js:7-8 | `parseInt(q) \|\| fallback`: an absent, non-numeric or zero parameter gives the fallback, any other number is kept |
| Notifications.PageParam | backend/controllers/notificationController.js:7 | the page parameter, defaulting to 1 |
| Notifications.LimitParam | backend/controllers/notificationController.js:8 | the limit parameter, defaulting to 20 |
| Notifications.SkipOf | backend/controllers/notificationController.js:9 | `(page - 1) * limit` notifications are skipped |
| Notifications.CeilDiv | backend/controllers/notificationController.js:27 | for a positive limit, the least page count whose pages cover `total` |
| Notifications.DefaultPagination | backend/controllers/notificationController.js:7-9 | defaults: page 1 and limit 20, so the listing starts at skip 0 |
| Notifications.PagesTile | backend/controllers/notificationController.js:9-27 | consecutive pages start `limit` apart; the page count covers every notification; a page past the count starts past the end |
| Notifications.AssignedNote | backend/controllers/notificationController.js:115-124 | type bug_assigned with the bug's priority, about that bug |
| Notifications.ResolvedNote | backend/controllers/notificationController.js:126-135 | type bug_resolved, medium priority, about that bug |
| Notifications.CreatedNote | backend/controllers/notificationController.js:137-146 | type bug_created with the bug's priority, about that bug |
| Notifications.ReopenedNote | backend/controllers/notificationController.js:148-156 | type bug_reopened, high priority, about that bug |
| Notifications.BuiltNotesValidate | backend/controllers/notificationController.js:115-156 | every notification the builders produce passes the schema's required checks |
| Notifications.AllReadFor | backend/controllers/notificationController.js:56-59 | exactly the recipient's notifications become read |
| Notifications.AllReadForProperties | backend/controllers/notificationController.js:54-65 | afterwards the caller has nothing unread, other recipients' notifications are untouched, and a second call changes nothing |
| Notifications.NotificationStore.constructor | backend/models/Notification.js:4-43 | an empty notification collection satisfies the store invariant |
| Notifications.NotificationStore.GetNotifications | backend/controllers/notificationController.js:5-32 | the caller's notifications, newest first, paged by skip and limit, with the caller's unread count, the page asked for and ceil(total/limit) pages; a negative skip is a 500 |
| Notifications.NotificationStore.UnreadCount | backend/controllers/notificationController.js:86-97 | zero exactly when none of the caller's notifications is unread |
| Notifications.NotificationStore.MarkAsRead | backend/controllers/notificationController.js:35-51 | marks the notification only when the caller is its recipient; otherwise 404 and nothing changes |
| Notifications.NotificationStore.MarkAllAsRead | backend/controllers/notificationController.js:54-65 | the store becomes `AllReadFor` of the caller |
| Notifications.NotificationStore.DeleteNotification | backend/controllers/notificationController.js:68-84 | removes the notification only when the caller is its recipient; otherwise 404 and nothing changes |
| Notifications.NotificationStore.Create | backend/controllers/notificationController.js:100-112 | stores one unread notification, or answers `None` and changes nothing when the store refuses it |
| NotificationReducer.FindById | frontend/src/context/NotificationContext.js:44 | `find`: a listed notification with that id, or `None` exactly when none is listed |
| NotificationReducer.MarkedRead | frontend/src/context/NotificationContext.js:32-34 | only the notifications with that id become read |
| NotificationReducer.AllRead | frontend/src/context/NotificationContext.js:40 | every notification becomes read |
| NotificationReducer.Without | frontend/src/context/NotificationContext.js:47 | exactly the notifications without that id remain |
| NotificationReducer.UnreadMarkedRead | frontend/src/context/NotificationContext.js:29-36 | marking read lowers the listed unread count by the unread items with that id |
| NotificationReducer.UnreadWithout | frontend/src/context/NotificationContext.js:43-50 | deleting lowers the listed unread count by the unread items with that id |
| NotificationReducer.UnreadWithIdFound | frontend/src/context/NotificationContext.js:44-49 | with distinct ids, the unread items with an id are one exactly when `find` returns an unread item |
| NotificationReducer.InitialStateProperties | frontend/src/context/NotificationContext.js:67-74 | the initial state: empty, nothing unread, page 1 of 1, loading, consistent with an empty server |
| NotificationReducer.Reduce | frontend/src/context/NotificationContext.js:7-65 | the reducer; each field has its own actions: only the list actions change the list, only `SET_NOTIFICATIONS` the page fields, only `SET_ERROR` the error, only loading, listing and error actions the loading flag, and an unknown action changes nothing |
| NotificationReducer.SetNotificationsReplaces | frontend/src/context/NotificationContext.js:9-17 | a fetched page replaces the list, the count and the page fields, and ends loading |
| NotificationReducer.AddKeepsConsistent | frontend/src/context/NotificationContext.js:23-28 | the pushed notification goes first; the counter rises by one iff it is unread; the badge stays consistent |
| NotificationReducer.MarkAsReadEffect | frontend/src/context/NotificationContext.js:29-36 | only items with that id change, and only their read flag; the counter drops by one, floored at 0, whatever was listed |
| NotificationReducer.MarkAllIdempotent | frontend/src/context/NotificationContext.js:37-42 | nothing left unread, counter 0, the same items, and doing it twice is doing it once |
| NotificationReducer.DeleteEffect | frontend/src/context/NotificationContext.js:43-50 | exactly the items without that id remain; the counter drops by one only when a listed item with the id was unread |
| NotificationReducer.DeleteKeepsConsistent | frontend/src/context/NotificationContext.js:43-50 | with distinct ids, deleting keeps the badge consistent |
| NotificationReducer.UnknownAndErrorActions | frontend/src/context/NotificationContext.js:56-63 | an unknown action changes nothing; an error is stored and ends loading |
| NotificationReducer.CounterStaysNonNegative | frontend/src/context/NotificationContext.js:7-65 | the counter never goes negative unless the server sends a negative count |
| NotificationReducer.MarkAsReadMiscounts | frontend/src/context/NotificationContext.js:29-36 | as written, marking an already-read item read drops the badge from 1 to 0 while an unread notification remains on another page |
| NotificationReducer.MarkAsReadChecked | frontend/src/context/NotificationContext.js:29-36 | corrected marking: the same list change, and only the counter differs |
| NotificationReducer.MarkAsReadCheckedConsistent | frontend/src/context/NotificationContext.js:29-50 | with distinct ids, the corrected marking keeps the badge consistent and lowers it by exactly the unread items with that id |
| DeveloperDashboard.MyProjects | frontend/src/pages/DeveloperDashboard.js:54-60 | exactly the projects whose team has an entry for the user |
| DeveloperDashboard.ColumnOf | frontend/src/pages/DeveloperDashboard.js:26-30 | closed and resolved go to Done, and a reopened bug has no column |
| DeveloperDashboard.OrganizeBugs | frontend/src/pages/DeveloperDashboard.js:108-114 | each column holds exactly its bugs, in input order |
| DeveloperDashboard.ColumnsPartition | frontend/src/pages/DeveloperDashboard.js:108-114 | the three columns plus the reopened bugs account for every bug exactly once |
| DeveloperDashboard.ReopenedOnNoColumn | frontend/src/pages/DeveloperDashboard.js:109-112 | a reopened bug is in no column |
| DeveloperDashboard.DoneColumnExceedsResolvedCard | frontend/src/pages/DeveloperDashboard.js:173-175 | the Done column holds the Resolved card's count plus the closed bugs; the In Progress card equals the Doing column |
| DeveloperDashboard.StatsOf | frontend/src/pages/DeveloperDashboard.js:172-176 | the Assigned, In Progress and Resolved cards: all listed bugs, those in progress, those resolved; related to the board by DoneColumnExceedsResolvedCard |
| DeveloperDashboard.StatusChangeTouchesOnlyStatus | frontend/src/pages/DeveloperDashboard.js:83 | a status-only body changes only the status, plus the resolution time on a first resolution |
| TeamPage.MemberBugs | frontend/src/pages/TeamPage.js:70-78 | exactly the bugs assigned to the member; unassigned ones never count |
| TeamPage.AvailableBugs | frontend/src/pages/TeamPage.js:148-151 | empty unless the selected member is a developer; otherwise exactly the bugs that are unassigned or open |
| TeamPage.AvailableBugsIncludeAssignedOpen | frontend/src/pages/TeamPage.js:150 | an open bug assigned to someone else is still offered; an assigned bug that is not open is not |
| TeamPage.AvailableProjects | frontend/src/pages/TeamPage.js:154-159 | empty without a selected member |
| TeamPage.AvailableIsComplement | frontend/src/pages/TeamPage.js:154-159 | with distinct ids, exactly the listed projects whose team lacks the member |
| TeamPage.EntryRole | frontend/src/pages/TeamPage.js:131 | the entry carries the account role, which is outside the team enumeration exactly for admins and managers |
| TeamPage.AssignProject | frontend/src/pages/TeamPage.js:113-145 | nothing for an unknown project, an alert without a request iff the member is on its team, and otherwise a request with the team and the member's role |
| TeamPage.AssignProjectKeepsUnique | frontend/src/pages/TeamPage.js:120-136 | a request only adds a non-member; it validates iff the member is a developer or tester, and then keeps the team without repeats |
| TeamPage.LevelOf | frontend/src/pages/TeamPage.js:322-323 | heavy iff more than 5 assignments, light iff at most 3 |
| TeamPage.BarWidth | frontend/src/pages/TeamPage.js:325 | at most 100, ten per assignment, and full iff at least 10 assignments |
| TeamPage.Workload | frontend/src/pages/TeamPage.js:322-330 | the total assignments: the member's projects plus the bugs assigned to them, which LevelOf and BarWidth display |
| TeamPage.WorkloadMonotone | frontend/src/pages/TeamPage.js:321-335 | more assignments never show a lighter level or a shorter bar |
| TesterDashboard.ReportedBy | frontend/src/pages/TesterDashboard.js:44 | exactly the bugs the user reported |
| TesterDashboard.Filtered | frontend/src/pages/TesterDashboard.js:147-151 | exactly the bugs matching both selections, in list order |
| TesterDashboard.CanVerify | frontend/src/pages/TesterDashboard.js:299-326 | the close and reopen buttons show only on a resolved bug; ButtonsMatchServer ties this to the server's verify rule |
| TesterDashboard.FilteredAllIsIdentity | frontend/src/pages/TesterDashboard.js:147-151 | "all" and "all" give the whole list unchanged, and filtering is idempotent |
| TesterDashboard.ButtonsMatchServer | frontend/src/pages/TesterDashboard.js:299-326 | on the tester's own bugs, the buttons show exactly when the server accepts close and reopen; otherwise the server answers 400 |
| TesterDashboard.StatCardsBounded | frontend/src/pages/TesterDashboard.js:193-195 | open plus resolved plus reopened never exceeds the Reported card |
| TesterDashboard.StatsOf | frontend/src/pages/TesterDashboard.js:192-196 | the Reported, Open and Resolved cards: all listed bugs, those open, those resolved; bounded by StatCardsBounded |
| TesterDashboard.ReopenedNotOpen | frontend/src/pages/TesterDashboard.js:194 | reopened bugs count on neither the Open nor the Resolved card |

## Left out

- **Persistence mechanics.** Queries, `populate`, `save`, and the `$group` aggregation of `getBugStats` are not modelled. The plain `getProjects` listing is not modelled either. Each collection is a sequence in creation order.
- **Email.** SMTP transport and HTML templates are not modelled. Each send is reduced to whether it went out (`delivered`), and a failure is swallowed.
- **Authentication.** JWT, the auth middleware and token expiry are not modelled. The caller's identity and role are inputs.
- **Uploads.** Multer storage and the five-screenshot limit on bug creation are not modelled. Uploaded file names are an input.
- **Concurrency.** Races between concurrent requests and the client's 30-second polling of the unread count are not modelled.
- **Fetch and dispatch plumbing.**
  - The client provider's fetch-and-dispatch functions are I/O.
  - The team page's API base URL and axios calls are not modelled; only its helper functions are.
- **Pages and other files.**
  - Presentation-only pages and the floating-point report statistics are not modelled.
  - The unrouted "Enhanced" dashboards are not modelled.
  - `backend/utils/emailService.js` is not part of this model.
- **Schema validation of the User and Message models.** Email uniqueness, password hashing and registration are not modelled. The user store starts from a given list.
- **Ids and strings.**
  - Ids are natural numbers, not ObjectId strings. A malformed id, which the source answers with a cast error (500), is not modelled.
  - An enum value in a request body that lies outside its enumeration is not modelled. Statuses, priorities and roles are Dafny datatypes.
  - The exception is the team role, which keeps `OtherRole`.
- **`closedAt`.** `verifyBug` assigns `closedAt`, but the bug schema declares no such path, so nothing of that name is stored. The model follows the schema and stores no closing time.
- **Absent ids and teams.**
  - An absent `userId` in `assignBug` is modelled as a user that is not found.
  - An absent `userId` in `addTeamMember` is not modelled. `userId` is always a number there.
  - A project whose `team` is missing or is not an array is not modelled. The team is always a sequence.
- **Team-page duplicate check.** The client compares ids in one representation only, and the model compares plain ids.
- **Progress.** Progress is an integer. A fractional progress value is not modelled.
- **Query parsing.** Query parameters reach the model already parsed: `None` stands for a parameter that is absent or that `parseInt` turns into NaN.
- TeamPage.AvailableProjects: its own contract states only the empty case. The complement property is the lemma `TeamPage.AvailableIsComplement`, which needs distinct project ids.

## Findings

| source | as written | input that shows it | evidently intended | confidence | as-written member | corrected member |
|---|---|---|---|---|---|---|
| frontend/src/context/NotificationContext.js:29-36 | `MARK_AS_READ` lowers `unreadCount` by one (floored at 0) whether or not the notification was listed and unread | a state listing one already-read notification, with `unreadCount` 1 because one unread notification sits on another page; marking the listed one read sets the badge to 0 while one unread remains | lower the counter only when the notification `find` returns is unread, as `DELETE_NOTIFICATION` does; like `DELETE_NOTIFICATION`, this still leaves the badge one too high when the id names an unread notification that is not listed (on an unfetched page), the one case the as-written decrement gets right | medium, not executed | NotificationReducer.MarkAsReadMiscounts | NotificationReducer.MarkAsReadChecked |
