/** Record shapes of the school app (types.ts). Optional TypeScript
    properties become `Option` fields; ISO timestamps become integers
    supplied by the caller; the floating-point `gpa` is not modelled. */
module Types {

  datatype Option<+T> = None | Some(value: T)

  datatype UserRole = ParentRole | StudentRole | TeacherRole

  datatype User = User(
    id: string,
    name: string,
    role: UserRole,
    avatarUrl: Option<string>,
    email: Option<string>,
    phone: Option<string>,
    linkedStudentIds: Option<seq<string>>,   // parents only
    specialization: Option<string>,          // teachers only
    gradeLevel: Option<string>               // students only
  )

  datatype TuitionStatus = TuitionPaid | TuitionPartial | TuitionOverdue | TuitionPending

  datatype Student = Student(
    id: string,
    name: string,
    gradeLevel: string,
    avatarUrl: string,
    attendance: int,                  // a percentage
    nextExam: Option<string>,
    tuitionStatus: Option<TuitionStatus>,
    parentId: Option<string>
  )

  datatype ClassSession = ClassSession(
    id: string,
    subject: string,
    grade: string,
    time: string,
    topic: string,
    studentsCount: int,
    teacherId: string
  )

  /** `timestamp` stands for the instant the ISO string denotes. */
  datatype Message = Message(
    id: string,
    senderId: string,
    senderName: string,
    recipientId: string,
    content: string,
    timestamp: int,
    read: bool
  )

  datatype InvoiceStatus = Paid | Pending | Overdue

  datatype Invoice = Invoice(
    id: string,
    studentId: string,
    title: string,
    amount: int,
    dueDate: string,
    status: InvoiceStatus
  )

  /** One student's status on a day's roster. */
  datatype Status = Present | Absent | Late

  /** A day's roster: student id to status. */
  type Roster = map<string, Status>
}
