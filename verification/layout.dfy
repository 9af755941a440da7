/**
 The table of text fields: which fields are shown in each mode, the row
 update performed when the mode changes, and where the return key moves the
 focus.
 */
module Layout {
  import opened Modes

  datatype Field = Email | Phone | Password

  /** The fields `getField` indexes into, in row order. */
  function Fields(m: Mode): seq<Field>
  {
    match m
    case SignIn => [Email, Password]
    case SignUp => [Email, Phone, Password]
  }

  /** The single section's row count. */
  function RowCount(m: Mode): (n: nat)
    ensures n == |Fields(m)|
  {
    if m == SignIn then 2 else 3
  }

  /** `getField`: the field shown in row `index`. */
  function GetField(m: Mode, index: nat): (f: Field)
    requires index < RowCount(m)
    ensures index == 0 ==> f == Email
    ensures index == RowCount(m) - 1 ==> f == Password
    ensures f == Phone <==> m == SignUp && index == 1
  {
    Fields(m)[index]
  }

  /** Email comes first, password last, and the phone row (row 1) exists only when signing up. */
  lemma FieldsShape(m: Mode)
    ensures |Fields(m)| >= 2
    ensures Fields(m)[0] == Email && Fields(m)[|Fields(m)| - 1] == Password
    ensures Phone in Fields(m) <==> m == SignUp
    ensures m == SignUp ==> Fields(m)[1] == Phone
    ensures forall i, j :: 0 <= i < j < |Fields(m)| ==> Fields(m)[i] != Fields(m)[j]
  {
  }

  datatype IndexPath = IndexPath(section: nat, row: nat)

  /** A one-row batch update of the table. */
  datatype RowChange = DeleteRow(path: IndexPath) | InsertRow(path: IndexPath)

  /** The effects of `updatePhoneRow`: the field that gets the focus, and the row change. */
  datatype PhoneRowUpdate = PhoneRowUpdate(focus: Field, change: RowChange)

  /** `updatePhoneRow`, run with the mode the screen has just switched to. */
  function UpdatePhoneRow(m: Mode): (u: PhoneRowUpdate)
    ensures u.focus == Fields(m)[0]
    ensures u.change.DeleteRow? <==> m == SignIn
    ensures u.change.path == IndexPath(0, 1)
  {
    var phone := IndexPath(0, 1);
    PhoneRowUpdate(Email, if m == SignIn then DeleteRow(phone) else InsertRow(phone))
  }

  /**
   A one-row batch update keeps every remaining cell showing the same field:
   the rows after it are the rows before it with the deleted row removed, or
   the rows before it are the rows after it with the inserted row removed.
   The table itself only checks the row counts (after = before + inserted -
   deleted); this condition is stronger and is what keeps the cells on screen
   right.
   */
  ghost predicate ConsistentUpdate(before: seq<Field>, change: RowChange, after: seq<Field>)
  {
    var p := change.path;
    p.section == 0 &&
    match change
    case DeleteRow(_) => p.row < |before| && after == before[..p.row] + before[p.row + 1..]
    case InsertRow(_) => p.row < |after| && before == after[..p.row] + after[p.row + 1..]
  }

  /**
   After any toggle the row change of `updatePhoneRow` agrees with the rows
   before and after: the phone row is the one removed or added, so the row
   count moves by one and email and password keep their order.
   */
  lemma PhoneRowUpdateConsistent(m: Mode)
    ensures ConsistentUpdate(Fields(m), UpdatePhoneRow(Toggle(m)).change, Fields(Toggle(m)))
    ensures UpdatePhoneRow(Toggle(m)).change.InsertRow? ==> RowCount(Toggle(m)) == RowCount(m) + 1
    ensures UpdatePhoneRow(Toggle(m)).change.DeleteRow? ==> RowCount(Toggle(m)) == RowCount(m) - 1
  {
  }

  /** What pressing return in a text field does. */
  datatype ReturnAction = Focus(field: Field) | Submit

  /** The reply of `textFieldShouldReturn`: the action and whether the field should also process the key itself. */
  datatype ReturnReply = ReturnReply(action: ReturnAction, processKey: bool)

  /** `textFieldShouldReturn`. */
  function TextFieldShouldReturn(m: Mode, f: Field): (r: ReturnReply)
    ensures !r.processKey
    ensures r.action.Submit? <==> f == Password
    ensures r.action.Focus? ==> r.action.field in Fields(m)
  {
    match f
    case Email => ReturnReply(Focus(if m == SignIn then Password else Phone), false)
    case Phone => ReturnReply(Focus(Password), false)
    case Password => ReturnReply(Submit, false)
  }

  /** Return moves the focus to the next row of the current mode, and submits from the last row. */
  lemma ReturnKeyFollowsRows(m: Mode, i: nat)
    requires i < |Fields(m)|
    ensures i + 1 < |Fields(m)| ==> TextFieldShouldReturn(m, Fields(m)[i]).action == Focus(Fields(m)[i + 1])
    ensures i + 1 == |Fields(m)| ==> TextFieldShouldReturn(m, Fields(m)[i]).action == Submit
  {
  }
}
