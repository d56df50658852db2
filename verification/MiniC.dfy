/** The fragment of C in which the generated update function is written, with its interpreter. */
module MiniC {
  import opened CStrings

  // Where a character pointer points: into the received payload, or to one of the client's own
  // string buffers.
  datatype Pointer = Null | Payload(at: nat) | Own(field: string)

  datatype Value = Int(n: int) | Ptr(p: Pointer) | Flag(b: bool)

  // A generated struct: its has_ flags and its members.
  datatype Struct = Struct(has: set<string>, values: map<string, Value>)

  datatype Object = Changes | Current | Buffer

  datatype Expr =
    | Has(object: Object, field: string)
    | Get(object: Object, field: string)
    | StrLen(text: Expr)
    | SizeOf(field: string)          // sizeof(buffer->field)
    | AtLeast(left: Expr, right: Expr)

  datatype Stmt =
    | If(cond: Expr, body: seq<Stmt>)
    | ReturnNoMem
    | CopyText(field: string, source: Expr, size: Expr)  // strncpy(buffer->field, source, size)
    | Assign(field: string, value: Expr)                 // current->field = value
    | SetHas(field: string)                              // current->has_field = true
    | Increment                                          // changed++

  datatype Machine = Machine(changes: Struct, current: Struct, buffers: map<string, seq<char>>,
                             payload: seq<char>, changed: nat)

  datatype Outcome = Next(m: Machine) | Returned(m: Machine)

  // The memory from a pointer to the end of the object it points into.
  function Bytes(p: Pointer, buffers: map<string, seq<char>>, payload: seq<char>): seq<char> {
    match p
    case Null => []
    case Payload(at) => if at <= |payload| then payload[at..] else []
    case Own(field) => if field in buffers then buffers[field] else []
  }

  function TextAt(v: Value, m: Machine): string {
    if v.Ptr? then CString(Bytes(v.p, m.buffers, m.payload)) else ""
  }

  function IntOf(v: Value): int {
    if v.Int? then v.n else 0
  }

  function Eval(e: Expr, m: Machine): Value {
    match e
    case Has(Changes, f) => Flag(f in m.changes.has)
    case Has(_, f) => Flag(f in m.current.has)
    case Get(Changes, f) => if f in m.changes.values then m.changes.values[f] else Int(0)
    case Get(Current, f) => if f in m.current.values then m.current.values[f] else Int(0)
    case Get(Buffer, f) => Ptr(Own(f))
    case StrLen(text) => Int(|TextAt(Eval(text, m), m)|)
    case SizeOf(f) => Int(if f in m.buffers then |m.buffers[f]| else 0)
    case AtLeast(left, right) => Flag(IntOf(Eval(left, m)) >= IntOf(Eval(right, m)))
  }

  function ExecStmt(s: Stmt, m: Machine): Outcome
    decreases s
  {
    match s
    case If(cond, body) => if Eval(cond, m) == Flag(true) then Exec(body, m) else Next(m)
    case ReturnNoMem => Returned(m)
    case CopyText(f, source, size) =>
      var n := IntOf(Eval(size, m));
      Next(m.(buffers := m.buffers[f := StrNCpy(TextAt(Eval(source, m), m), if n < 0 then 0 else n)]))
    case Assign(f, value) =>
      Next(m.(current := m.current.(values := m.current.values[f := Eval(value, m)])))
    case SetHas(f) => Next(m.(current := m.current.(has := m.current.has + {f})))
    case Increment => Next(m.(changed := m.changed + 1))
  }

  function Exec(stmts: seq<Stmt>, m: Machine): Outcome
    decreases stmts
  {
    if stmts == [] then Next(m)
    else
      match ExecStmt(stmts[0], m)
      case Next(m') => Exec(stmts[1..], m')
      case Returned(m') => Returned(m')
  }

  lemma ExecCons(s: Stmt, rest: seq<Stmt>, m: Machine)
    ensures Exec([s] + rest, m) ==
            if ExecStmt(s, m).Next? then Exec(rest, ExecStmt(s, m).m) else ExecStmt(s, m)
  {
  }
}
