# School app data layer, in Dafny

A verified model of the client-side data-access layer of a school
communication app (parents, students, teachers), and of the decisions the
app's screens build on it.

- `DatabaseService` (services/db.ts) keeps five collections in memory:
  users, students, messages, the read-only classes, and the attendance map
  from `classId + "_" + date` to a day's roster (student id to status).
  Every mutation writes the changed collection back to a key/value storage
  that stands for the browser's localStorage. In the model this is the
  class `Db.DatabaseService`. Its fields are `seq`s and `map`s that the
  methods reassign, and `storage: map<string, Snapshot>` holds the last
  saved value of each collection.
- The queries are `filter`, `find` and a stable timestamp `sort`. They are
  modelled as functions: `login` and `getStudentById` return the first
  match; `getStudentsForParent` filters in store order; `getMessages`
  returns a conversation in both directions, sorted by timestamp.
- The App.tsx logic is kept without its rendering. This covers the
  attendance toggle cycle (present, absent, late), the chat screen's send
  guard, its outgoing message and its scripted `mock_` reply, the parent
  dashboard's outstanding balance, and routing a login to the right
  dashboard by role.

Files:
- `types.dfy`: the record shapes.
- `seqs.dfy`: `filter` and `find`, with their laws.
- `message_order.dfy`: the stable sort.
- `db.dfy`: the service.
- `app.dfy`: the screen logic, with the classes `ChatScreen` and `App` for
  the state the screens change.

Time, randomness and I/O are parameters. A message's id and timestamp are
passed to the method that builds it. An ISO timestamp is the integer
instant it denotes. Storage is a map value. Each asynchronous operation is
one atomic step.

## Model

| member | source | states |
|---|---|---|
| `Seqs.Filter` | services/db.ts:43 | `filter` keeps only elements that satisfy the predicate and never grows the sequence |
| `Seqs.FilterCount` | services/db.ts:43 | an element satisfying the predicate keeps all its occurrences; any other element loses all of them |
| `Seqs.FilterMembership` | services/db.ts:56-58 | an element is in the filtered sequence iff it is in the input and satisfies the predicate |
| `Seqs.FilterAppend` | services/db.ts:43 | filtering distributes over concatenation, so the output keeps the input's order |
| `Seqs.FilterSingleton` | services/db.ts:43 | a one-element sequence is kept or dropped whole |
| `Seqs.FilterCons` | services/db.ts:43 | the head of a sequence is filtered independently of the rest |
| `Seqs.FilterExtensional` | services/db.ts:56-58 | two predicates that agree on every element filter alike |
| `Seqs.FindFirst` | services/db.ts:31 | `find` returns the first index whose element satisfies the predicate, or none exactly when no element does |
| `Seqs.FindFirstAppend` | services/db.ts:36 | searching `s + t` returns the match in `s` if there is one, otherwise the match in `t` shifted past `s` |
| `MessageOrder.InsertByTime` | services/db.ts:59 | inserting a message adds exactly one occurrence of it |
| `MessageOrder.InsertKeepsSorted` | services/db.ts:59 | inserting into a timestamp-sorted sequence keeps it sorted |
| `MessageOrder.SortByTime` | services/db.ts:59 | the output is sorted non-decreasing by timestamp and is a permutation of the input |
| `MessageOrder.InsertKeepsSelection` | services/db.ts:59 | insertion leaves the relative order of same-timestamp messages unchanged |
| `MessageOrder.InsertPastHead` | services/db.ts:59 | the case of that where the message moves past a strictly earlier head |
| `MessageOrder.SortIsStable` | services/db.ts:59 | the sort is stable: messages with equal timestamps stay in input order |
| `Db.LoadUsers` | services/db.ts:11-14 | `loadData('users', …)`: the stored users when an entry of that collection's shape is stored under the key, otherwise the fallback |
| `Db.LoadStudents` | services/db.ts:11-14 | `loadData('students', …)`: the stored students when an entry of that collection's shape is stored under the key, otherwise the fallback |
| `Db.LoadMessages` | services/db.ts:11-14 | `loadData('messages', …)`: the stored messages when an entry of that collection's shape is stored under the key, otherwise the fallback |
| `Db.LoadClasses` | services/db.ts:11-14 | `loadData('classes', …)`: the stored classes when an entry of that collection's shape is stored under the key, otherwise the fallback |
| `Db.LoadAttendance` | services/db.ts:11-14 | `loadData('attendance', {})`: the stored attendance map when an entry of that collection's shape is stored under the key, otherwise the fallback |
| `Db.LoadSeesLastSave` | services/db.ts:11-18 | for each of the five keys, loading returns the last value saved under it, whatever the fallback; a save under another key does not change it |
| `Db.BetweenSymmetric` | services/db.ts:56-58 | the conversation predicate is symmetric in the two participants |
| `Db.DayKey` | services/db.ts:70 | the key is the class id, one underscore, then the date, and splits back into them at the class id's length |
| `Db.DayKeyInjective` | services/db.ts:70 | `classId + "_" + date` identifies one class and day when class ids contain no underscore |
| `Db.DayKeyCollision` | services/db.ts:70 | without that condition, two different class and date pairs give the same key |
| `Db.Decremented` | services/db.ts:79 | `Math.max(0, attendance - 1)`: one point lower, never below 0, other fields unchanged |
| `Db.AfterAbsences` | services/db.ts:75-81 | after a save, the students keep their number, every field except attendance, and a non-negative attendance stays in `[0, old]` |
| `Db.AbsencesKeepPercentages` | services/db.ts:79 | percentages that start in [0, 100] stay in [0, 100] |
| `Db.NoAbsenceNoChange` | services/db.ts:75-81 | a roster that marks nobody absent leaves the students unchanged |
| `Db.AbsencesTwice` | services/db.ts:75-81 | saving the same roster twice marks the same students down by two, floored at 0, and leaves everyone else unchanged |
| `Db.DatabaseService.constructor` | services/db.ts:21-25 | each collection is the saved value or its fixture; the attendance map is the saved one, or empty when none was saved; nothing is written |
| `Db.DatabaseService.Login` | services/db.ts:28-32 | the first user with that id; none exactly when no user has it |
| `Db.DatabaseService.RegisterUser` | services/db.ts:34-39 | appends the user with no uniqueness check, saves users, returns the argument; login with its id then succeeds with that id: the earlier match if one existed, otherwise the new user |
| `Db.DatabaseService.GetStudentsForParent` | services/db.ts:42-44 | exactly the students whose `parentId` is the argument, each as often as stored |
| `Db.DatabaseService.GetAllStudents` | services/db.ts:46-48 | the stored collection itself |
| `Db.DatabaseService.GetStudentById` | services/db.ts:50-52 | the first student with that id; none exactly when no student has it |
| `Db.DatabaseService.GetMessages` | services/db.ts:55-60 | the conversation comes back sorted non-decreasing by timestamp |
| `Db.DatabaseService.GetMessagesContents` | services/db.ts:56-58 | a conversation holds exactly the messages between the two ids in either direction, each as often as stored |
| `Db.GetMessagesSymmetric` | services/db.ts:55-60 | `getMessages(a, b) == getMessages(b, a)` |
| `Db.DatabaseService.SendMessage` | services/db.ts:62-66 | appends the message with no deduplication and saves messages; the sender and recipient's conversation gains exactly one occurrence of it; every other conversation is unchanged |
| `Db.DatabaseService.SaveAttendance` | services/db.ts:69-83 | overwrites the day's roster and leaves other days unchanged; the students become `AfterAbsences` of the old students, independent of visiting order; both collections are saved, and no saved key goes stale |
| `AppLogic.StatusOf` | App.tsx:281 | a student the roster does not mention counts as present |
| `AppLogic.NextStatus` | App.tsx:282 | each tap moves to a different status |
| `AppLogic.NextStatusCycle` | App.tsx:282 | present, absent, late is a cycle of length three |
| `AppLogic.ToggleStatus` | App.tsx:280-284 | the tapped student moves one step along the cycle; every other student's status is unchanged |
| `AppLogic.ToggleThriceRestores` | App.tsx:280-284 | three taps restore the student's status |
| `AppLogic.TogglesCommute` | App.tsx:283 | taps on two different students commute |
| `AppLogic.TrimStart` | App.tsx:59 | removes exactly the leading run of ECMAScript whitespace |
| `AppLogic.TrimEnd` | App.tsx:59 | removes exactly the trailing run of ECMAScript whitespace |
| `AppLogic.Trim` | App.tsx:59 | `trim()` never lengthens its input and leaves no whitespace at either end |
| `AppLogic.TrimEmptyIffBlank` | App.tsx:59 | the send guard fires exactly for empty or all-whitespace input |
| `AppLogic.IsScriptedBot` | App.tsx:75 | `startsWith('mock_')`: the id is at least five characters and its first five are `mock_` |
| `AppLogic.ChatScreen.constructor` | App.tsx:44-52 | mounting loads the conversation once |
| `AppLogic.ChatScreen.Poll` | App.tsx:45-48 | a poll replaces the list with a fresh read of the conversation |
| `AppLogic.ChatScreen.EditInput` | App.tsx:131 | the input box holds exactly the typed text; nothing else changes |
| `AppLogic.ChatScreen.HandleSend` | App.tsx:58-90 | blank input changes nothing; otherwise an unread message carrying the untrimmed text, the current user as sender and the recipient as recipient is stored once and appended to the list, the input is cleared, and a reply is scheduled only for a `mock_` recipient |
| `AppLogic.ChatScreen.DeliverReply` | App.tsx:76-88 | the canned reply, with sender and recipient swapped and unread, is stored once and appended to the current list; only a `mock_` recipient ever gets one |
| `AppLogic.SumAmounts` | App.tsx:345 | the `reduce` of non-negative amounts is non-negative |
| `AppLogic.SumAmountsAppend` | App.tsx:345 | the summing `reduce` distributes over concatenation |
| `AppLogic.OutstandingSumIsPerInvoiceSum` | App.tsx:345 | summing the filtered invoices equals adding, invoice by invoice, the amount of each unpaid invoice of one of the children |
| `AppLogic.TotalDue` | App.tsx:345 | `totalDue`, filter then `reduce`, equals the invoice-by-invoice reference sum `DueByInvoice` |
| `AppLogic.NothingOutstandingNothingDue` | App.tsx:345 | with no unpaid invoice of any child, `totalDue` is 0 |
| `AppLogic.TotalDueNonNegative` | App.tsx:345 | non-negative amounts give a non-negative balance |
| `AppLogic.OutstandingIsOwedBy` | App.tsx:343-345 | filtering by "one of `getStudentsForParent(p)` and unpaid" keeps exactly the unpaid invoices of students stored with parent `p`, in the same order |
| `AppLogic.ParentTotalDue` | App.tsx:343-345 | the dashboard's balance sums exactly the unpaid invoices of students stored with that parent |
| `AppLogic.HomeScreen` | App.tsx:733-735 | parents go to the parent dashboard, students to the student dashboard, everyone else to the teacher dashboard; the mapping is one to one |
| `AppLogic.App.constructor` | App.tsx:719-720 | the app starts on the splash screen with nobody signed in |
| `AppLogic.App.HandleLogin` | App.tsx:729-737 | a known id sets the user and the screen of their role; an unknown id leaves both unchanged |

## Left out

- localStorage and JSON (services/db.ts:11-18) are a map of typed
  snapshots. The source checks no shape: whatever `JSON.parse` returns is
  loaded as is (services/db.ts:13). In the model an entry of another
  collection's shape counts as missing and the fixture is used, and a
  `JSON.parse` that throws on a corrupt entry, failing the service at
  construction, is not modelled.
- `localStorage.setItem` can throw, for example when the storage quota is
  full. The saves at services/db.ts:37, 65, 72 and 82 each run after the
  in-memory update before them (lines 36, 64, 71 and the loop at 75-81),
  so memory and storage would then disagree. A throw at line 72 also
  rejects `saveAttendance` before its loop, so no student is marked down.
  The model's saves always succeed.
- The artificial delays in `login`, `registerUser` and `sendMessage`, the
  2-second poll timer, the 1.5-second reply timer and the 3-second splash
  timer (App.tsx:725-727, which moves the app from the splash screen to the
  login screen) are out: they are
  event-loop timing. Each operation is one atomic step. The reply timer
  firing is its own method, `DeliverReply`, allowed only after
  `HandleSend` scheduled a reply. Unmounting the chat screen, which stops
  the poll timer, is not modelled. `App.constructor` leaves the app on the
  splash screen; no method models the move to the login screen.
- `generateId` (services/db.ts:86-88) uses `Math.random`. Ids are
  parameters instead.
- Clock reads and `Date` parsing are out. Timestamps are integers from the
  caller, so an unparseable timestamp is also out: it would make the sort
  comparator return NaN.
- `gpa` is out: it is a floating-point field that nothing computes on.
  `attendance` and `amount` are integers.
- Aliasing is out. `getAllStudents`, `getStudentById` and `find` hand back
  the stored objects themselves, and `saveAttendance` mutates them in
  place. The model updates the `students` sequence instead, so a caller
  holding an object does not see the change.
- Db.DatabaseService.SaveAttendance takes statuses as the values
  `Present`, `Absent` and `Late`. The source accepts any string and
  compares it with `'absent'`. Any other string behaves like `Present` or
  `Late`: its student is not marked down.
- AppLogic.HomeScreen covers only the three declared roles. A role string
  outside the enum, which only a corrupt stored user could carry, would
  also go to the teacher dashboard.
- `services/geminiService.ts` is out: it calls a remote generative-AI
  service. `components/Components.tsx`, all JSX, `services/firebaseConfig.ts`
  and the fixture data in `constants.ts` are out too.
- The teacher dashboard's class filter (App.tsx:202) is display filtering
  and is out.
