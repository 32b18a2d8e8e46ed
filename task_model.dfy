/**
 * The Task document schema: the record stored in the task collection, the
 * closed status enumeration with its default, the string `trim` setter and
 * the `required`/`enum` validators that Mongoose runs when a document is
 * created.
 */
module TaskModel {
  import opened Wrappers

  /** Identifiers are opaque: only compared for equality. */
  type UserId = string
  type TaskId = string

  /** The three values the schema's `enum` admits. */
  datatype Status = Pending | InProgress | Completed {
    /** The string stored in the document for this status. */
    function Label(): string {
      match this
      case Pending => "Pending"
      case InProgress => "In Progress"
      case Completed => "Completed"
    }
  }

  /** The schema's `default` for `status`. */
  const DEFAULT_STATUS: Status := Pending

  /** The enum validator: which status, if any, a stored string names. */
  function ParseStatus(s: string): (r: Option<Status>)
    ensures r.Some? ==> r.value.Label() == s
    ensures r.None? ==> s != Pending.Label() && s != InProgress.Label() && s != Completed.Label()
  {
    if s == "Pending" then Some(Pending)
    else if s == "In Progress" then Some(InProgress)
    else if s == "Completed" then Some(Completed)
    else None
  }

  lemma {:induction false} ParseLabel(st: Status)
    ensures ParseStatus(st.Label()) == Some(st)
  {
    match st
    case Pending =>
    case InProgress => assert st.Label()[0] == 'I';
    case Completed => assert st.Label()[0] == 'C';
  }

  /** The status enum is exactly the three strings. */
  lemma StatusEnumIsExactly(s: string)
    ensures ParseStatus(s).Some? <==> s == "Pending" || s == "In Progress" || s == "Completed"
  {
  }

  /** A stored document. `user` and `dueDate` always have a value (the type has no null). */
  datatype Task = Task(user: UserId, title: string, description: string, dueDate: string, status: string)

  // ---------------------------------------------------------------------
  // The `trim: true` setter (String.prototype.trim)
  // ---------------------------------------------------------------------

  /** WhiteSpace and LineTerminator code points removed by String.prototype.trim. */
  predicate IsWhitespace(c: char) {
    var n := c as int;
    n == 0x09 || n == 0x0A || n == 0x0B || n == 0x0C || n == 0x0D || n == 0x20
    || n == 0xA0 || n == 0x1680 || (0x2000 <= n <= 0x200A) || n == 0x2028
    || n == 0x2029 || n == 0x202F || n == 0x205F || n == 0x3000 || n == 0xFEFF
  }

  predicate AllWhitespace(s: string) {
    forall i :: 0 <= i < |s| ==> IsWhitespace(s[i])
  }

  /** Neither end of `s` is whitespace. */
  predicate IsTrimmed(s: string) {
    s == [] || (!IsWhitespace(s[0]) && !IsWhitespace(s[|s| - 1]))
  }

  /** Drops the leading whitespace: the result is the suffix left after a whitespace-only prefix. */
  function TrimStart(s: string): (r: string)
    ensures |r| <= |s| && r == s[|s| - |r|..]
    ensures AllWhitespace(s[..|s| - |r|])
    ensures r == [] || !IsWhitespace(r[0])
    decreases |s|
  {
    if |s| > 0 && IsWhitespace(s[0]) then TrimStart(s[1..]) else s
  }

  /** Drops the trailing whitespace: the result is the prefix left before a whitespace-only suffix. */
  function TrimEnd(s: string): (r: string)
    ensures |r| <= |s| && r == s[..|r|]
    ensures AllWhitespace(s[|r|..])
    ensures r == [] || !IsWhitespace(r[|r| - 1])
    decreases |s|
  {
    if |s| > 0 && IsWhitespace(s[|s| - 1]) then TrimEnd(s[..|s| - 1]) else s
  }

  /** `s` without its leading and trailing whitespace. */
  function Trim(s: string): (r: string)
    ensures IsTrimmed(r)
  {
    TrimEnd(TrimStart(s))
  }

  /** Trimming removes a whitespace-only prefix and suffix and keeps what lies between. */
  lemma {:induction false} TrimIsSlice(s: string)
    ensures exists i, j :: 0 <= i <= j <= |s| && Trim(s) == s[i..j] && AllWhitespace(s[..i]) && AllWhitespace(s[j..])
  {
    var a := TrimStart(s);
    var r := TrimEnd(a);
    var i := |s| - |a|;
    assert r == s[i..i + |r|];
    assert s[i + |r|..] == a[|r|..];
  }

  /** Trimming leaves an already-trimmed string alone. */
  lemma {:induction false} TrimOfTrimmed(s: string)
    requires IsTrimmed(s)
    ensures Trim(s) == s
  {
    assert TrimStart(s) == s;
    assert TrimEnd(s) == s;
  }

  /** The trim setter is idempotent. */
  lemma TrimIdempotent(s: string)
    ensures Trim(Trim(s)) == Trim(s)
  {
    TrimOfTrimmed(Trim(s));
  }

  /** Trimming yields the empty string exactly for whitespace-only input. */
  lemma {:induction false} TrimEmptyIff(s: string)
    ensures Trim(s) == "" <==> AllWhitespace(s)
  {
    var a := TrimStart(s);
    if Trim(s) == "" {
      assert a[|TrimEnd(a)|..] == a;
      assert s == s[..|s| - |a|] + a;
    }
  }

  // ---------------------------------------------------------------------
  // Documents
  // ---------------------------------------------------------------------

  /** What every stored document has, whichever operation wrote it last: trimmed texts. */
  predicate Stored(t: Task) {
    IsTrimmed(t.title) && IsTrimmed(t.description)
  }

  /** The schema's validators: required (non-empty) texts and date, and a status from the enum. */
  predicate Conforms(t: Task) {
    && Stored(t)
    && t.title != "" && t.description != "" && t.dueDate != ""
    && ParseStatus(t.status).Some?
  }

  /**
   * `Task.create`: cast the fields (trim setters, status default), then
   * validate. `None` is the validation error that the store throws.
   */
  function Create(user: UserId, title: string, description: string, dueDate: string, status: Option<string>): (r: Option<Task>)
    ensures r.Some? <==>
      && Trim(title) != "" && Trim(description) != "" && dueDate != ""
      && (status.None? || ParseStatus(status.value).Some?)
    ensures r.Some? ==> Conforms(r.value) && r.value.user == user && r.value.dueDate == dueDate
    ensures r.Some? ==> r.value.title == Trim(title) && r.value.description == Trim(description)
    ensures r.Some? && status.None? ==> r.value.status == DEFAULT_STATUS.Label()
    ensures r.Some? && status.Some? ==> r.value.status == status.value
  {
    var doc := Task(user, Trim(title), Trim(description), dueDate,
                    if status.Some? then status.value else DEFAULT_STATUS.Label());
    if Conforms(doc) then Some(doc) else None
  }

  /**
   * `findByIdAndUpdate` with the four fields: the trim setters run on the
   * update, the validators do not.
   */
  function ApplyUpdate(t: Task, title: string, description: string, dueDate: string, status: string): (r: Task)
    ensures Stored(r)
    ensures r.user == t.user
  {
    t.(title := Trim(title), description := Trim(description), dueDate := dueDate, status := status)
  }
}
