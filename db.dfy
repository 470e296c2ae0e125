/** The in-memory data-access service of services/db.ts: five collections
    held by one `DatabaseService` object, every mutation mirrored into a
    key/value storage that stands for the browser's localStorage. */
module Db {

  import opened Types
  import opened Seqs
  import opened MessageOrder

  // ---------------------------------------------------------------------
  // Backing storage
  // ---------------------------------------------------------------------

  const UsersKey := "users"
  const StudentsKey := "students"
  const MessagesKey := "messages"
  const ClassesKey := "classes"
  const AttendanceKey := "attendance"

  /** What one storage entry holds: the last saved value of a collection. */
  datatype Snapshot =
    | UsersSnapshot(users: seq<User>)
    | StudentsSnapshot(students: seq<Student>)
    | MessagesSnapshot(messages: seq<Message>)
    | ClassesSnapshot(classes: seq<ClassSession>)
    | AttendanceSnapshot(days: map<string, Roster>)

  type Storage = map<string, Snapshot>

  /** `loadData`: the saved value under `key` when there is one, else the
      fallback. An entry of another collection's shape counts as absent. */
  function LoadUsers(st: Storage, initial: seq<User>): (r: seq<User>)
    ensures UsersKey in st && st[UsersKey].UsersSnapshot? ==> r == st[UsersKey].users
    ensures r == initial || (UsersKey in st && st[UsersKey] == UsersSnapshot(r))
  {
    if UsersKey in st && st[UsersKey].UsersSnapshot? then st[UsersKey].users else initial
  }

  function LoadStudents(st: Storage, initial: seq<Student>): (r: seq<Student>)
    ensures StudentsKey in st && st[StudentsKey].StudentsSnapshot? ==> r == st[StudentsKey].students
    ensures r == initial || (StudentsKey in st && st[StudentsKey] == StudentsSnapshot(r))
  {
    if StudentsKey in st && st[StudentsKey].StudentsSnapshot? then st[StudentsKey].students else initial
  }

  function LoadMessages(st: Storage, initial: seq<Message>): (r: seq<Message>)
    ensures MessagesKey in st && st[MessagesKey].MessagesSnapshot? ==> r == st[MessagesKey].messages
    ensures r == initial || (MessagesKey in st && st[MessagesKey] == MessagesSnapshot(r))
  {
    if MessagesKey in st && st[MessagesKey].MessagesSnapshot? then st[MessagesKey].messages else initial
  }

  function LoadClasses(st: Storage, initial: seq<ClassSession>): (r: seq<ClassSession>)
    ensures ClassesKey in st && st[ClassesKey].ClassesSnapshot? ==> r == st[ClassesKey].classes
    ensures r == initial || (ClassesKey in st && st[ClassesKey] == ClassesSnapshot(r))
  {
    if ClassesKey in st && st[ClassesKey].ClassesSnapshot? then st[ClassesKey].classes else initial
  }

  function LoadAttendance(st: Storage, initial: map<string, Roster>): (r: map<string, Roster>)
    ensures AttendanceKey in st && st[AttendanceKey].AttendanceSnapshot? ==> r == st[AttendanceKey].days
    ensures r == initial || (AttendanceKey in st && st[AttendanceKey] == AttendanceSnapshot(r))
  {
    if AttendanceKey in st && st[AttendanceKey].AttendanceSnapshot? then st[AttendanceKey].days else initial
  }

  /** Storage round trip: loading a collection returns what was last saved
      under its key, whatever the fallback, and a save under another key
      does not disturb it. */
  lemma LoadSeesLastSave(st: Storage, key: string, snap: Snapshot,
                         u: seq<User>, s: seq<Student>, m: seq<Message>,
                         c: seq<ClassSession>, a: map<string, Roster>)
    ensures key == UsersKey && snap.UsersSnapshot? ==> LoadUsers(st[key := snap], u) == snap.users
    ensures key == StudentsKey && snap.StudentsSnapshot? ==> LoadStudents(st[key := snap], s) == snap.students
    ensures key == MessagesKey && snap.MessagesSnapshot? ==> LoadMessages(st[key := snap], m) == snap.messages
    ensures key == ClassesKey && snap.ClassesSnapshot? ==> LoadClasses(st[key := snap], c) == snap.classes
    ensures key == AttendanceKey && snap.AttendanceSnapshot? ==> LoadAttendance(st[key := snap], a) == snap.days
    ensures key != UsersKey ==> LoadUsers(st[key := snap], u) == LoadUsers(st, u)
    ensures key != StudentsKey ==> LoadStudents(st[key := snap], s) == LoadStudents(st, s)
    ensures key != MessagesKey ==> LoadMessages(st[key := snap], m) == LoadMessages(st, m)
    ensures key != ClassesKey ==> LoadClasses(st[key := snap], c) == LoadClasses(st, c)
    ensures key != AttendanceKey ==> LoadAttendance(st[key := snap], a) == LoadAttendance(st, a)
  {
  }

  // ---------------------------------------------------------------------
  // Selection predicates of the queries
  // ---------------------------------------------------------------------

  function HasUserId(id: string): User -> bool {
    (u: User) => u.id == id
  }

  function HasStudentId(id: string): Student -> bool {
    (s: Student) => s.id == id
  }

  /** `s.parentId === parentId`; a student without a parent never matches. */
  function ChildOf(parentId: string): Student -> bool {
    (s: Student) => s.parentId == Some(parentId)
  }

  /** `m` was sent from one of `a`, `b` to the other. */
  predicate Between(m: Message, a: string, b: string) {
    (m.senderId == a && m.recipientId == b) || (m.senderId == b && m.recipientId == a)
  }

  function InThread(a: string, b: string): Message -> bool {
    (m: Message) => Between(m, a, b)
  }

  lemma BetweenSymmetric(m: Message, a: string, b: string)
    ensures Between(m, a, b) <==> Between(m, b, a)
  {
  }

  // ---------------------------------------------------------------------
  // Attendance
  // ---------------------------------------------------------------------

  /** The attendance map's key for one class on one day. */
  function DayKey(classId: string, date: string): (r: string)
    ensures |r| == |classId| + 1 + |date|
    ensures r[..|classId|] == classId && r[|classId|] == '_' && r[|classId| + 1..] == date
  {
    classId + "_" + date
  }

  /** The key names its class and day unambiguously as long as class ids
      contain no underscore (dates may). */
  lemma DayKeyInjective(c1: string, d1: string, c2: string, d2: string)
    requires '_' !in c1 && '_' !in c2
    requires DayKey(c1, d1) == DayKey(c2, d2)
    ensures c1 == c2 && d1 == d2
  {
    var k := DayKey(c1, d1);
    assert k[|c1|] == '_' && k[..|c1|] == c1;
    assert k[|c2|] == '_' && k[..|c2|] == c2;
    assert k[|c1| + 1..] == d1;
    assert k[|c2| + 1..] == d2;
  }

  /** Without that condition two different days can share one entry. */
  lemma DayKeyCollision()
    ensures DayKey("c_1", "2024-01-01") == DayKey("c", "1_2024-01-01")
  {
  }

  /** The student with `attendance` set to `Math.max(0, attendance - 1)`:
      one point lower, never below 0, every other field kept. */
  function Decremented(s: Student): (r: Student)
    ensures 0 <= r.attendance
    ensures s.attendance >= 1 ==> r.attendance == s.attendance - 1
    ensures s.attendance < 1 ==> r.attendance == 0
    ensures r == s.(attendance := r.attendance)
  {
    s.(attendance := if 0 < s.attendance - 1 then s.attendance - 1 else 0)
  }

  /** No earlier student has the id of the one at `i`: the one `find` picks. */
  predicate FirstWithId(s: seq<Student>, i: nat)
    requires i < |s|
  {
    forall j :: 0 <= j < i ==> s[j].id != s[i].id
  }

  /** The student at `i` is the one `saveAttendance` marks down. */
  predicate MarkedAbsent(s: seq<Student>, records: Roster, i: nat)
    requires i < |s|
  {
    s[i].id in records && records[s[i].id] == Absent && FirstWithId(s, i)
  }

  /** The students after a roster is saved: the first student with each id
      the roster marks absent loses one point, floored at 0; ids with no
      student are ignored and nothing else changes. The definition does not
      depend on the order in which the roster's entries are visited. */
  function AfterAbsences(s: seq<Student>, records: Roster): (r: seq<Student>)
    ensures |r| == |s|
    ensures forall i :: 0 <= i < |s| ==> r[i] == s[i].(attendance := r[i].attendance)
    ensures forall i :: 0 <= i < |s| && 0 <= s[i].attendance ==> 0 <= r[i].attendance <= s[i].attendance
  {
    seq(|s|, i requires 0 <= i < |s| => if MarkedAbsent(s, records, i) then Decremented(s[i]) else s[i])
  }

  /** Percentages that start in [0, 100] stay there. */
  lemma AbsencesKeepPercentages(s: seq<Student>, records: Roster)
    requires forall i :: 0 <= i < |s| ==> 0 <= s[i].attendance <= 100
    ensures forall i :: 0 <= i < |s| ==> 0 <= AfterAbsences(s, records)[i].attendance <= 100
  {
  }

  /** A roster that marks nobody absent leaves every student as it was. */
  lemma NoAbsenceNoChange(s: seq<Student>, records: Roster)
    requires forall id :: id in records ==> records[id] != Absent
    ensures AfterAbsences(s, records) == s
  {
  }

  /** Saving the same roster twice marks the same students down twice, and
      a percentage never goes below 0. */
  lemma AbsencesTwice(s: seq<Student>, records: Roster, i: nat)
    requires i < |s|
    ensures MarkedAbsent(s, records, i) ==>
      AfterAbsences(AfterAbsences(s, records), records)[i].attendance
        == if s[i].attendance >= 2 then s[i].attendance - 2 else 0
    ensures !MarkedAbsent(s, records, i) ==>
      AfterAbsences(AfterAbsences(s, records), records)[i] == s[i]
  {
  }

  // ---------------------------------------------------------------------
  // The service
  // ---------------------------------------------------------------------

  class DatabaseService {
    var users: seq<User>
    var students: seq<Student>
    var messages: seq<Message>
    const classes: seq<ClassSession>
    var attendance: map<string, Roster>     // DayKey(classId, date) to that day's roster
    var storage: Storage

    /** The snapshot of the collection stored under `key`, as it is now. */
    function Current(key: string): Option<Snapshot>
      reads this
    {
      if key == UsersKey then Some(UsersSnapshot(users))
      else if key == StudentsKey then Some(StudentsSnapshot(students))
      else if key == MessagesKey then Some(MessagesSnapshot(messages))
      else if key == ClassesKey then Some(ClassesSnapshot(classes))
      else if key == AttendanceKey then Some(AttendanceSnapshot(attendance))
      else None
    }

    /** The entry under `key` holds the collection as it is now, so a reload
        would restore it. */
    predicate InSync(key: string)
      reads this
    {
      key in storage && Current(key) == Some(storage[key])
    }

    /** Construction loads each collection from storage, or takes the
        fixture value when nothing was saved; nothing is written. */
    constructor (saved: Storage, initialUsers: seq<User>, initialStudents: seq<Student>,
                 initialMessages: seq<Message>, initialClasses: seq<ClassSession>)
      ensures users == LoadUsers(saved, initialUsers)
      ensures students == LoadStudents(saved, initialStudents)
      ensures messages == LoadMessages(saved, initialMessages)
      ensures classes == LoadClasses(saved, initialClasses)
      ensures attendance == LoadAttendance(saved, map[])
      ensures storage == saved
    {
      users := LoadUsers(saved, initialUsers);
      students := LoadStudents(saved, initialStudents);
      messages := LoadMessages(saved, initialMessages);
      classes := LoadClasses(saved, initialClasses);
      attendance := LoadAttendance(saved, map[]);
      storage := saved;
    }

    // --- Users ---

    /** The first user with this id, or none. */
    function Login(userId: string): (r: Option<User>)
      reads this
      ensures r.None? <==> forall u :: u in users ==> u.id != userId
      ensures r.Some? ==> exists i :: 0 <= i < |users| && users[i] == r.value && r.value.id == userId
                                      && forall j :: 0 <= j < i ==> users[j].id != userId
    {
      match FindFirst(users, HasUserId(userId))
      case Some(i) => Some(users[i])
      case None => None
    }

    /** Appends the user without any uniqueness check, saves the users and
        returns the argument; logging in with its id then succeeds. */
    method RegisterUser(user: User) returns (r: User)
      modifies this
      ensures r == user
      ensures users == old(users) + [user]
      ensures storage == old(storage)[UsersKey := UsersSnapshot(users)]
      ensures students == old(students) && messages == old(messages) && attendance == old(attendance)
      ensures InSync(UsersKey) && forall k :: old(InSync(k)) ==> InSync(k)
      ensures Login(user.id).Some? && Login(user.id).value.id == user.id
      ensures Login(user.id) == if old(Login(user.id)).Some? then old(Login(user.id)) else Some(user)
    {
      users := users + [user];
      storage := storage[UsersKey := UsersSnapshot(users)];
      r := user;
      FindFirstAppend(old(users), [user], HasUserId(user.id));
    }

    // --- Students ---

    /** The students whose parent is `parentId`, each as often as it is
        stored; their order is the store's (Seqs.FilterAppend). */
    function GetStudentsForParent(parentId: string): (r: seq<Student>)
      reads this
      ensures forall s :: s in r <==> s in students && s.parentId == Some(parentId)
      ensures forall s :: multiset(r)[s] == if s.parentId == Some(parentId) then multiset(students)[s] else 0
    {
      FilterCount(students, ChildOf(parentId));
      FilterMembership(students, ChildOf(parentId));
      Filter(students, ChildOf(parentId))
    }

    /** The live collection itself, not a copy. */
    function GetAllStudents(): (r: seq<Student>)
      reads this
      ensures r == students
    {
      students
    }

    /** The first student with this id, or none. */
    function GetStudentById(id: string): (r: Option<Student>)
      reads this
      ensures r.None? <==> forall s :: s in students ==> s.id != id
      ensures r.Some? ==> exists i :: 0 <= i < |students| && students[i] == r.value && r.value.id == id
                                      && FirstWithId(students, i)
    {
      match FindFirst(students, HasStudentId(id))
      case Some(i) => Some(students[i])
      case None => None
    }

    // --- Messages ---

    /** The conversation between `userId` and `otherId` in both directions:
        exactly the stored messages between them, each as often as stored,
        in non-decreasing timestamp order (ties keep the store's order:
        MessageOrder.SortIsStable). Nothing is marked read. */
    function GetMessages(userId: string, otherId: string): (r: seq<Message>)
      reads this
      ensures SortedByTime(r)
    {
      SortByTime(Filter(messages, InThread(userId, otherId)))
    }

    /** What a conversation holds: exactly the stored messages between the
        two ids, in either direction, each as often as stored. */
    lemma GetMessagesContents(userId: string, otherId: string)
      ensures forall m :: multiset(GetMessages(userId, otherId))[m]
                          == if Between(m, userId, otherId) then multiset(messages)[m] else 0
      ensures forall m :: m in GetMessages(userId, otherId) <==> m in messages && Between(m, userId, otherId)
    {
      FilterCount(messages, InThread(userId, otherId));
      FilterMembership(messages, InThread(userId, otherId));
    }

    /** Appends the message without deduplication and saves the messages.
        The conversation of its sender and recipient gains exactly one
        occurrence of it; every other conversation is unchanged. */
    method SendMessage(msg: Message)
      modifies this
      ensures messages == old(messages) + [msg]
      ensures storage == old(storage)[MessagesKey := MessagesSnapshot(messages)]
      ensures users == old(users) && students == old(students) && attendance == old(attendance)
      ensures InSync(MessagesKey) && forall k :: old(InSync(k)) ==> InSync(k)
      ensures multiset(GetMessages(msg.senderId, msg.recipientId))[msg]
           == multiset(old(GetMessages(msg.senderId, msg.recipientId)))[msg] + 1
      ensures forall a, b :: !Between(msg, a, b) ==> GetMessages(a, b) == old(GetMessages(a, b))
    {
      ghost var before := messages;
      GetMessagesContents(msg.senderId, msg.recipientId);
      messages := messages + [msg];
      GetMessagesContents(msg.senderId, msg.recipientId);
      storage := storage[MessagesKey := MessagesSnapshot(messages)];
      forall a, b | !Between(msg, a, b)
        ensures Filter(messages, InThread(a, b)) == Filter(before, InThread(a, b))
      {
        FilterAppend(before, [msg], InThread(a, b));
        FilterSingleton(msg, InThread(a, b));
      }
    }

    // --- Attendance ---

    /** Overwrites the day's roster and saves the attendance map, then marks
        down the students the roster lists as absent and saves the students. */
    method SaveAttendance(classId: string, date: string, records: Roster)
      modifies this
      ensures attendance == old(attendance)[DayKey(classId, date) := records]
      ensures students == AfterAbsences(old(students), records)
      ensures storage == old(storage)[AttendanceKey := AttendanceSnapshot(attendance)]
                                     [StudentsKey := StudentsSnapshot(students)]
      ensures users == old(users) && messages == old(messages)
      ensures InSync(AttendanceKey) && InSync(StudentsKey) && forall k :: old(InSync(k)) ==> InSync(k)
    {
      attendance := attendance[DayKey(classId, date) := records];
      storage := storage[AttendanceKey := AttendanceSnapshot(attendance)];
      ghost var before := students;
      var pending := records.Keys;
      while pending != {}
        invariant pending <= records.Keys
        invariant |students| == |before|
        invariant forall i :: 0 <= i < |before| ==> students[i].id == before[i].id
        invariant forall i :: 0 <= i < |before| ==>
          students[i] == if MarkedAbsent(before, records, i) && before[i].id !in pending
                         then Decremented(before[i]) else before[i]
        invariant users == old(users) && messages == old(messages)
        invariant attendance == old(attendance)[DayKey(classId, date) := records]
        invariant storage == old(storage)[AttendanceKey := AttendanceSnapshot(attendance)]
        decreases pending
      {
        var studentId :| studentId in pending;
        match FindFirst(students, HasStudentId(studentId)) {
          case Some(k) =>
            assert FirstWithId(before, k);
            if records[studentId] == Absent {
              students := students[k := Decremented(students[k])];
            }
          case None =>
        }
        pending := pending - {studentId};
      }
      storage := storage[StudentsKey := StudentsSnapshot(students)];
    }
  }

  /** A conversation reads the same from either side. */
  lemma GetMessagesSymmetric(db: DatabaseService, a: string, b: string)
    ensures db.GetMessages(a, b) == db.GetMessages(b, a)
  {
    FilterExtensional(db.messages, InThread(a, b), InThread(b, a));
  }
}
