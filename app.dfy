/** Decision logic of App.tsx over the store: the attendance toggle, the
    chat screen's send handler and scripted reply, the parent dashboard's
    outstanding balance and the login routing. Nothing is rendered. */
module AppLogic {

  import opened Types
  import opened Seqs
  import opened Db

  // ---------------------------------------------------------------------
  // AttendanceScreen.toggleStatus
  // ---------------------------------------------------------------------

  /** `attendance[studentId] || 'present'`: a student the roster does not
      mention counts as present. */
  function StatusOf(roster: Roster, studentId: string): (r: Status)
    ensures studentId !in roster ==> r == Present
    ensures studentId in roster ==> r == roster[studentId]
  {
    if studentId in roster then roster[studentId] else Present
  }

  /** present -> absent -> late -> present. */
  function NextStatus(s: Status): (r: Status)
    ensures r != s
  {
    match s
    case Present => Absent
    case Absent => Late
    case Late => Present
  }

  /** The cycle has length three. */
  lemma NextStatusCycle(s: Status)
    ensures NextStatus(NextStatus(NextStatus(s))) == s
  {
  }

  /** The roster after a tap on `studentId`: that student moves one step
      along the cycle and no other entry changes. */
  function ToggleStatus(roster: Roster, studentId: string): (r: Roster)
    ensures r.Keys == roster.Keys + {studentId}
    ensures StatusOf(r, studentId) == NextStatus(StatusOf(roster, studentId))
    ensures forall id :: id != studentId ==> StatusOf(r, id) == StatusOf(roster, id)
  {
    roster[studentId := NextStatus(StatusOf(roster, studentId))]
  }

  /** Three taps bring a student back to the status it had; the roster
      then also holds that status explicitly. */
  lemma ToggleThriceRestores(roster: Roster, studentId: string)
    ensures var r := ToggleStatus(ToggleStatus(ToggleStatus(roster, studentId), studentId), studentId);
            r == roster[studentId := StatusOf(roster, studentId)]
            && forall id :: StatusOf(r, id) == StatusOf(roster, id)
  {
  }

  /** Taps on two different students commute. */
  lemma TogglesCommute(roster: Roster, a: string, b: string)
    requires a != b
    ensures ToggleStatus(ToggleStatus(roster, a), b) == ToggleStatus(ToggleStatus(roster, b), a)
  {
  }

  // ---------------------------------------------------------------------
  // ChatScreen.handleSend
  // ---------------------------------------------------------------------

  /** The code points `String.prototype.trim` removes: the ECMAScript
      WhiteSpace and LineTerminator characters. */
  predicate IsJsWhitespace(c: char) {
    var n := c as int;
    (9 <= n <= 13) || n == 0x20 || n == 0xA0 || n == 0x1680 || (0x2000 <= n <= 0x200A)
    || n == 0x2028 || n == 0x2029 || n == 0x202F || n == 0x205F || n == 0x3000 || n == 0xFEFF
  }

  /** Drops the leading whitespace run: the result is the suffix of `s`
      that starts at its first non-whitespace character. */
  function TrimStart(s: string): (r: string)
    ensures |r| <= |s| && r == s[|s| - |r|..]
    ensures forall i :: 0 <= i < |s| - |r| ==> IsJsWhitespace(s[i])
    ensures r != [] ==> !IsJsWhitespace(r[0])
  {
    if s != [] && IsJsWhitespace(s[0]) then TrimStart(s[1..]) else s
  }

  /** Drops the trailing whitespace run: the result is the prefix of `s`
      that ends at its last non-whitespace character. */
  function TrimEnd(s: string): (r: string)
    ensures |r| <= |s| && r == s[..|r|]
    ensures forall i :: |r| <= i < |s| ==> IsJsWhitespace(s[i])
    ensures r != [] ==> !IsJsWhitespace(r[|r| - 1])
  {
    if s != [] && IsJsWhitespace(s[|s| - 1]) then TrimEnd(s[..|s| - 1]) else s
  }

  /** `s.trim()`. */
  function Trim(s: string): (r: string)
    ensures |r| <= |s|
    ensures r != "" ==> !IsJsWhitespace(r[0]) && !IsJsWhitespace(r[|r| - 1])
  {
    TrimEnd(TrimStart(s))
  }

  /** The send guard `!inputText.trim()` holds exactly for inputs made of
      whitespace only, the empty input included. */
  lemma TrimEmptyIffBlank(s: string)
    ensures Trim(s) == "" <==> forall i :: 0 <= i < |s| ==> IsJsWhitespace(s[i])
  {
  }

  /** `recipient.id.startsWith('mock_')`: a scripted participant. */
  predicate IsScriptedBot(id: string)
    ensures IsScriptedBot(id) <==>
      |id| >= 5 && id[0] == 'm' && id[1] == 'o' && id[2] == 'c' && id[3] == 'k' && id[4] == '_'
  {
    "mock_" <= id
  }

  /** The scripted participant's canned answer. */
  const CannedReply: string := "شكراً لرسالتك. سأقوم بالرد عليك قريباً."

  /** Whom the chat screen talks to. */
  datatype Recipient = Recipient(id: string, name: string, role: string, avatar: Option<string>)

  /** One open conversation: the list on screen, the input box, and the
      scripted replies that have been scheduled and not yet delivered. */
  class ChatScreen {
    const db: DatabaseService
    const currentUser: User
    const recipient: Recipient
    var view: seq<Message>
    var inputText: string
    var pendingReplies: nat

    /** Only a scripted participant ever has a reply scheduled. */
    predicate Valid()
      reads this
    {
      pendingReplies > 0 ==> IsScriptedBot(recipient.id)
    }

    /** Mounting the screen loads the conversation once. */
    constructor (db: DatabaseService, currentUser: User, recipient: Recipient)
      ensures Valid()
      ensures this.db == db && this.currentUser == currentUser && this.recipient == recipient
      ensures view == db.GetMessages(currentUser.id, recipient.id)
      ensures inputText == "" && pendingReplies == 0
    {
      this.db := db;
      this.currentUser := currentUser;
      this.recipient := recipient;
      view := db.GetMessages(currentUser.id, recipient.id);
      inputText := "";
      pendingReplies := 0;
    }

    /** One tick of the polling timer: the list is replaced by a fresh
        read of the conversation. */
    method Poll()
      requires Valid()
      modifies this`view
      ensures Valid()
      ensures view == db.GetMessages(currentUser.id, recipient.id)
    {
      view := db.GetMessages(currentUser.id, recipient.id);
    }

    /** The input box's change handler. */
    method EditInput(text: string)
      requires Valid()
      modifies this`inputText
      ensures Valid()
      ensures inputText == text
    {
      inputText := text;
    }

    /** `handleSend`: nothing happens for a blank input. Otherwise the
        untrimmed text is sent once as an unread message from the current
        user to the recipient, appended to the end of the list, the input
        is cleared, and a scripted recipient gets a reply scheduled. */
    method HandleSend(messageId: string, now: int)
      requires Valid()
      modifies this, db
      ensures Valid()
      ensures Trim(old(inputText)) == "" ==> unchanged(this) && unchanged(db)
      ensures Trim(old(inputText)) != "" ==>
        var sent := Message(messageId, currentUser.id, currentUser.name, recipient.id, old(inputText), now, false);
        && db.messages == old(db.messages) + [sent]
        && db.storage == old(db.storage)[MessagesKey := MessagesSnapshot(db.messages)]
        && db.users == old(db.users) && db.students == old(db.students) && db.attendance == old(db.attendance)
        && multiset(db.GetMessages(currentUser.id, recipient.id))[sent]
           == multiset(old(db.GetMessages(currentUser.id, recipient.id)))[sent] + 1
        && view == old(view) + [sent]
        && inputText == ""
        && pendingReplies == old(pendingReplies) + (if IsScriptedBot(recipient.id) then 1 else 0)
    {
      if Trim(inputText) == "" {
        return;
      }
      var sent := Message(messageId, currentUser.id, currentUser.name, recipient.id, inputText, now, false);
      db.SendMessage(sent);
      view := view + [sent];
      inputText := "";
      if IsScriptedBot(recipient.id) {
        pendingReplies := pendingReplies + 1;
      }
    }

    /** A scheduled reply timer fires: the scripted participant's canned,
        unread answer to the current user is stored and appended to the
        current list. */
    method DeliverReply(replyId: string, now: int)
      requires Valid()
      requires pendingReplies > 0
      modifies this, db
      ensures Valid()
      ensures IsScriptedBot(recipient.id)
      ensures
        var reply := Message(replyId, recipient.id, recipient.name, currentUser.id, CannedReply, now, false);
        && db.messages == old(db.messages) + [reply]
        && db.storage == old(db.storage)[MessagesKey := MessagesSnapshot(db.messages)]
        && db.users == old(db.users) && db.students == old(db.students) && db.attendance == old(db.attendance)
        && multiset(db.GetMessages(currentUser.id, recipient.id))[reply]
           == multiset(old(db.GetMessages(currentUser.id, recipient.id)))[reply] + 1
        && view == old(view) + [reply]
        && inputText == old(inputText)
        && pendingReplies == old(pendingReplies) - 1
    {
      var reply := Message(replyId, recipient.id, recipient.name, currentUser.id, CannedReply, now, false);
      GetMessagesSymmetric(db, currentUser.id, recipient.id);
      db.SendMessage(reply);
      GetMessagesSymmetric(db, currentUser.id, recipient.id);
      view := view + [reply];
      pendingReplies := pendingReplies - 1;
    }
  }

  // ---------------------------------------------------------------------
  // ParentDashboard: totalDue
  // ---------------------------------------------------------------------

  /** `myChildren.some(c => c.id === i.studentId) && i.status !== 'paid'`. */
  function Outstanding(children: seq<Student>): Invoice -> bool {
    (i: Invoice) => (exists c :: c in children && c.id == i.studentId) && i.status != Paid
  }

  /** `reduce((sum, i) => sum + i.amount, 0)`, folding from the left. */
  function SumAmounts(invoices: seq<Invoice>): (r: int)
    ensures (forall i :: i in invoices ==> i.amount >= 0) ==> r >= 0
  {
    if invoices == [] then 0
    else SumAmounts(invoices[..|invoices| - 1]) + invoices[|invoices| - 1].amount
  }

  lemma {:induction false} SumAmountsAppend(a: seq<Invoice>, b: seq<Invoice>)
    ensures SumAmounts(a + b) == SumAmounts(a) + SumAmounts(b)
  {
    if b == [] {
      assert a + b == a;
    } else {
      assert (a + b)[..|a + b| - 1] == a + b[..|b| - 1];
      SumAmountsAppend(a, b[..|b| - 1]);
    }
  }

  /** The parent's outstanding balance over `invoices`: filter, then sum.
      It equals the invoice-by-invoice reference sum `DueByInvoice`. */
  function TotalDue(invoices: seq<Invoice>, children: seq<Student>): (r: int)
    ensures r == DueByInvoice(invoices, children)
  {
    OutstandingSumIsPerInvoiceSum(invoices, children);
    SumAmounts(Filter(invoices, Outstanding(children)))
  }

  /** Reference definition: each invoice contributes its amount when it
      belongs to one of the children and is not paid, else nothing. */
  function DueByInvoice(invoices: seq<Invoice>, children: seq<Student>): int {
    if invoices == [] then 0
    else (if Outstanding(children)(invoices[0]) then invoices[0].amount else 0)
         + DueByInvoice(invoices[1..], children)
  }

  lemma {:induction false} OutstandingSumIsPerInvoiceSum(invoices: seq<Invoice>, children: seq<Student>)
    ensures SumAmounts(Filter(invoices, Outstanding(children))) == DueByInvoice(invoices, children)
  {
    if invoices != [] {
      var p := Outstanding(children);
      FilterCons(invoices, p);
      FilterSingleton(invoices[0], p);
      SumAmountsAppend(Filter([invoices[0]], p), Filter(invoices[1..], p));
      assert SumAmounts([invoices[0]]) == invoices[0].amount;
      OutstandingSumIsPerInvoiceSum(invoices[1..], children);
    }
  }

  /** No unpaid invoice of one of the children: nothing is due. */
  lemma {:induction false} NothingOutstandingNothingDue(invoices: seq<Invoice>, children: seq<Student>)
    requires forall i :: i in invoices ==> i.status == Paid || forall c :: c in children ==> c.id != i.studentId
    ensures TotalDue(invoices, children) == 0
  {
    FilterMembership(invoices, Outstanding(children));
  }

  /** With non-negative amounts the balance is non-negative. */
  lemma {:induction false} TotalDueNonNegative(invoices: seq<Invoice>, children: seq<Student>)
    requires forall i :: i in invoices ==> i.amount >= 0
    ensures TotalDue(invoices, children) >= 0
  {
    FilterMembership(invoices, Outstanding(children));
  }

  /** The invoices the parent dashboard charges to `parentId`: unpaid ones
      of a stored student whose parent that is. */
  function OwedBy(students: seq<Student>, parentId: string): Invoice -> bool {
    (i: Invoice) => (exists s :: s in students && s.parentId == Some(parentId) && s.id == i.studentId)
                    && i.status != Paid
  }

  /** `totalDue` of the parent dashboard, over the children the store
      lists for that parent. */
  function ParentTotalDue(db: DatabaseService, parentId: string, invoices: seq<Invoice>): (r: int)
    reads db
    ensures r == SumAmounts(Filter(invoices, OwedBy(db.students, parentId)))
  {
    OutstandingIsOwedBy(db, parentId, invoices);
    TotalDue(invoices, db.GetStudentsForParent(parentId))
  }

  /** The invoices the dashboard sums are exactly the unpaid invoices of
      students stored with that parent, in the same order. */
  lemma OutstandingIsOwedBy(db: DatabaseService, parentId: string, invoices: seq<Invoice>)
    ensures Filter(invoices, Outstanding(db.GetStudentsForParent(parentId)))
            == Filter(invoices, OwedBy(db.students, parentId))
  {
    var children := db.GetStudentsForParent(parentId);
    forall i | i in invoices ensures Outstanding(children)(i) == OwedBy(db.students, parentId)(i) {
      if Outstanding(children)(i) {
        var c :| c in children && c.id == i.studentId;
        assert c in db.students && c.parentId == Some(parentId);
      }
      if OwedBy(db.students, parentId)(i) {
        var s :| s in db.students && s.parentId == Some(parentId) && s.id == i.studentId;
        assert s in children;
      }
    }
    FilterExtensional(invoices, Outstanding(children), OwedBy(db.students, parentId));
  }

  // ---------------------------------------------------------------------
  // App.handleLogin
  // ---------------------------------------------------------------------

  datatype Screen =
    | Splash | Login | Register | Profile | Chat
    | StudentDash | LiveVoice | Studio | Analysis | Grades | AiTutor | StudentTeachers
    | ParentDash | ChildDetail | Payments | Reports
    | TeacherDash | Classes | ClassDetail | TeacherTools | AttendanceView | ExamGenerator

  /** The dashboard a role lands on: parents and students on their own,
      every other role on the teacher's. */
  function HomeScreen(role: UserRole): (r: Screen)
    ensures role == ParentRole <==> r == ParentDash
    ensures role == StudentRole <==> r == StudentDash
    ensures role == TeacherRole <==> r == TeacherDash
  {
    match role
    case ParentRole => ParentDash
    case StudentRole => StudentDash
    case TeacherRole => TeacherDash
  }

  /** The application shell: the current screen and the signed-in user. */
  class App {
    const db: DatabaseService
    var screen: Screen
    var currentUser: Option<User>

    constructor (db: DatabaseService)
      ensures this.db == db && screen == Splash && currentUser == None
    {
      this.db := db;
      screen := Splash;
      currentUser := None;
    }

    /** A known id signs that user in and opens the dashboard of their
        role; an unknown id changes nothing. */
    method HandleLogin(userId: string)
      modifies this`screen, this`currentUser
      ensures db.Login(userId).Some? ==>
        currentUser == db.Login(userId) && screen == HomeScreen(db.Login(userId).value.role)
      ensures db.Login(userId).None? ==> currentUser == old(currentUser) && screen == old(screen)
    {
      var user := db.Login(userId);
      if user.Some? {
        currentUser := user;
        screen := HomeScreen(user.value.role);
      }
    }
  }
}
