/** The account and group databases as rows of fields: lookups, conflicts and edits. */
module AccountRows {
  import opened Wrappers
  import opened Decimal
  import opened DelimitedText

  type U32 = n: int | 0 <= n < 0x1_0000_0000

  type Row = seq<string>

  datatype Account = Account(uid: U32, gid: U32, home: string)

  datatype Failure =
    | RootAccount | Malformed | InvalidUid | InvalidGid | MissingUser | MissingPrimaryGroup
    | UidConflict(owner: string) | GidConflict(owner: string) | UnsafeHome | NotRoot | ReplaceFailed | OwnershipFailed

  const PASSWD_FIELDS: nat := 7
  const GROUP_FIELDS: nat := 4

  /** An empty line. */
  predicate Blank(r: Row) {
    r == [""]
  }

  predicate WellFormed(rows: seq<Row>, minimum: nat) {
    forall i :: 0 <= i < |rows| ==> Blank(rows[i]) || |rows[i]| >= minimum
  }

  // ----- Numbers -----

  /** `str::parse::<u32>`: an optional plus sign, then digits. */
  function ParseU32(s: string): Option<U32> {
    var digits := if s != "" && s[0] == '+' then s[1..] else s;
    if digits != "" && AllDigits(digits) && Value(digits) < 0x1_0000_0000 then Some(Value(digits)) else None
  }

  function Print(n: U32): string {
    Pad(n, 1)
  }

  lemma PrintReads(n: U32)
    ensures ParseU32(Print(n)) == Some(n)
    ensures ':' !in Print(n) && '\n' !in Print(n) && '\r' !in Print(n)
  {
    PadReads(n, 1);
    assert IsDigit(Print(n)[0]);
  }

  lemma DigitsParse(digits: string, n: U32, width: nat)
    requires width > 0 && digits == Pad(n, width)
    ensures ParseU32(digits) == Some(n) && ParseU32("+" + digits) == Some(n)
  {
    PadReads(n, width);
    assert IsDigit(digits[0]);
    assert ("+" + digits)[1..] == digits;
  }

  /** A number is read from its decimal digits, after zeros and one plus sign at most. */
  lemma ParseMeans(s: string, n: U32)
    ensures ParseU32(s) == Some(n) <==> exists width: nat :: width > 0 && (s == Pad(n, width) || s == "+" + Pad(n, width))
  {
    if ParseU32(s) == Some(n) {
      var digits := if s[0] == '+' then s[1..] else s;
      ReadsPad(digits);
      assert s == Pad(n, |digits|) || s == "+" + Pad(n, |digits|);
    }
    forall width: nat | width > 0 && (s == Pad(n, width) || s == "+" + Pad(n, width))
      ensures ParseU32(s) == Some(n)
    {
      DigitsParse(Pad(n, width), n, width);
    }
  }

  // ----- Lookups -----

  function FindAccount(rows: seq<Row>, name: string): Result<Account, Failure> {
    if rows == [] then Err(MissingUser)
    else if Blank(rows[0]) then FindAccount(rows[1..], name)
    else if |rows[0]| < PASSWD_FIELDS then Err(Malformed)
    else if rows[0][0] != name then FindAccount(rows[1..], name)
    else if ParseU32(rows[0][2]).None? then Err(InvalidUid)
    else if ParseU32(rows[0][3]).None? then Err(InvalidGid)
    else Ok(Account(ParseU32(rows[0][2]).value, ParseU32(rows[0][3]).value, rows[0][5]))
  }

  function FindPrimaryGroup(rows: seq<Row>, gid: U32): Result<string, Failure> {
    if rows == [] then Err(MissingPrimaryGroup)
    else if Blank(rows[0]) then FindPrimaryGroup(rows[1..], gid)
    else if |rows[0]| < GROUP_FIELDS then Err(Malformed)
    else if ParseU32(rows[0][2]) == Some(gid) then Ok(rows[0][0])
    else FindPrimaryGroup(rows[1..], gid)
  }

  /** The owner of the first row under another name that holds the number. */
  function OtherHolder(rows: seq<Row>, minimum: nat, name: string, id: U32): Result<Option<string>, Failure>
    requires minimum > 2
  {
    if rows == [] then Ok(None)
    else if Blank(rows[0]) then OtherHolder(rows[1..], minimum, name, id)
    else if |rows[0]| < minimum then Err(Malformed)
    else if rows[0][0] != name && ParseU32(rows[0][2]) == Some(id) then Ok(Some(rows[0][0]))
    else OtherHolder(rows[1..], minimum, name, id)
  }

  /** The first entry that is incomplete or has the name decides. */
  lemma {:induction false} AccountIsFirst(rows: seq<Row>, name: string) returns (i: nat)
    ensures i <= |rows| && forall k :: 0 <= k < i ==> Blank(rows[k]) || (|rows[k]| >= 7 && rows[k][0] != name)
    ensures i < |rows| ==> !Blank(rows[i]) && (|rows[i]| < 7 || rows[i][0] == name)
    ensures FindAccount(rows, name) ==
            if i == |rows| then Err(MissingUser) else if |rows[i]| < 7 then Err(Malformed)
            else if ParseU32(rows[i][2]) == None then Err(InvalidUid)
            else if ParseU32(rows[i][3]) == None then Err(InvalidGid)
            else Ok(Account(ParseU32(rows[i][2]).value, ParseU32(rows[i][3]).value, rows[i][5]))
  {
    if rows == [] || (!Blank(rows[0]) && (|rows[0]| < 7 || rows[0][0] == name)) {
      i := 0;
    } else {
      var k := AccountIsFirst(rows[1..], name);
      i := k + 1;
      assert forall j :: 0 < j < |rows| ==> rows[j] == rows[1..][j - 1];
    }
  }

  /** The first entry that is incomplete or has the number decides. */
  lemma {:induction false} GroupIsFirst(rows: seq<Row>, gid: U32) returns (i: nat)
    ensures i <= |rows| && forall k :: 0 <= k < i ==> Blank(rows[k]) || (|rows[k]| >= 4 && ParseU32(rows[k][2]) != Some(gid))
    ensures i < |rows| ==> !Blank(rows[i]) && (|rows[i]| < 4 || ParseU32(rows[i][2]) == Some(gid))
    ensures FindPrimaryGroup(rows, gid) ==
            if i == |rows| then Err(MissingPrimaryGroup) else if |rows[i]| < 4 then Err(Malformed) else Ok(rows[i][0])
  {
    if rows == [] || (!Blank(rows[0]) && (|rows[0]| < 4 || ParseU32(rows[0][2]) == Some(gid))) {
      i := 0;
    } else {
      var k := GroupIsFirst(rows[1..], gid);
      i := k + 1;
      assert forall j :: 0 < j < |rows| ==> rows[j] == rows[1..][j - 1];
    }
  }

  /** The first entry that is incomplete, or has the number under another name, decides. */
  lemma {:induction false} HolderIsFirst(rows: seq<Row>, minimum: nat, name: string, id: U32) returns (i: nat)
    requires minimum > 2
    ensures i <= |rows| && forall k :: 0 <= k < i ==>
      Blank(rows[k]) || (|rows[k]| >= minimum && (rows[k][0] == name || ParseU32(rows[k][2]) != Some(id)))
    ensures i < |rows| ==> !Blank(rows[i]) && (|rows[i]| < minimum || (rows[i][0] != name && ParseU32(rows[i][2]) == Some(id)))
    ensures OtherHolder(rows, minimum, name, id) ==
            if i == |rows| then Ok(None) else if |rows[i]| < minimum then Err(Malformed) else Ok(Some(rows[i][0]))
  {
    if rows == [] || (!Blank(rows[0]) && (|rows[0]| < minimum || (rows[0][0] != name && ParseU32(rows[0][2]) == Some(id)))) {
      i := 0;
    } else {
      var k := HolderIsFirst(rows[1..], minimum, name, id);
      i := k + 1;
      assert forall j :: 0 < j < |rows| ==> rows[j] == rows[1..][j - 1];
    }
  }

  function RejectUidConflict(rows: seq<Row>, account: string, uid: U32, current: U32): Result<(), Failure> {
    if uid == current then Ok(())
    else
      var holder := OtherHolder(rows, PASSWD_FIELDS, account, uid);
      if holder.Err? then Err(holder.error)
      else if holder.value.Some? then Err(UidConflict(holder.value.value))
      else Ok(())
  }

  function RejectGidConflict(rows: seq<Row>, primary: string, gid: U32): Result<(), Failure> {
    var holder := OtherHolder(rows, GROUP_FIELDS, primary, gid);
    if holder.Err? then Err(holder.error)
    else if holder.value.Some? then Err(GidConflict(holder.value.value))
    else Ok(())
  }

  /** No row under another name holds the number. */
  ghost predicate OnlyHolder(rows: seq<Row>, name: string, id: U32) {
    forall i :: 0 <= i < |rows| && |rows[i]| > 2 && rows[i][0] != name ==> ParseU32(rows[i][2]) != Some(id)
  }

  lemma {:induction false} NoOtherHolder(rows: seq<Row>, minimum: nat, name: string, id: U32)
    requires minimum > 2
    ensures OtherHolder(rows, minimum, name, id) == Ok(None) <==>
              WellFormed(rows, minimum) && OnlyHolder(rows, name, id)
  {
    if rows != [] {
      NoOtherHolder(rows[1..], minimum, name, id);
      assert forall i :: 0 < i < |rows| ==> rows[i] == rows[1..][i - 1];
      assert WellFormed(rows, minimum) <==> (Blank(rows[0]) || |rows[0]| >= minimum) && WellFormed(rows[1..], minimum) by {
        if WellFormed(rows, minimum) {
          assert forall i :: 0 <= i < |rows[1..]| ==> rows[1..][i] == rows[i + 1];
        }
      }
      assert OnlyHolder(rows, name, id) <==>
             (|rows[0]| > 2 && rows[0][0] != name ==> ParseU32(rows[0][2]) != Some(id)) && OnlyHolder(rows[1..], name, id) by {
        if OnlyHolder(rows, name, id) {
          assert forall i :: 0 <= i < |rows[1..]| ==> rows[1..][i] == rows[i + 1];
        }
      }
    }
  }

  // ----- Edits -----

  datatype Edit = PasswdEdit(name: string, uid: U32, gid: U32) | GroupEdit(name: string, gid: U32)

  function Minimum(edit: Edit): nat {
    if edit.PasswdEdit? then PASSWD_FIELDS else GROUP_FIELDS
  }

  function Apply(edit: Edit, r: Row): (r': Row)
    requires |r| >= Minimum(edit)
    ensures |r'| == |r|
  {
    if r[0] != edit.name then r
    else if edit.PasswdEdit? then r[2 := Print(edit.uid)][3 := Print(edit.gid)]
    else r[2 := Print(edit.gid)]
  }

  /** The row after one more trip through the file: the last field loses one trailing carriage return. */
  function Reread(r: Row): (r': Row)
    requires |r| > 0
    ensures |r'| == |r|
  {
    r[|r| - 1 := StripCr(r[|r| - 1])]
  }

  function UpdateRow(edit: Edit, r: Row): Row
    requires Blank(r) || |r| >= Minimum(edit)
  {
    if Blank(r) then r else Reread(Apply(edit, r))
  }

  /** Every row updated, in place. */
  ghost predicate Updated(edit: Edit, rows: seq<Row>, rows': seq<Row>) {
    && WellFormed(rows, Minimum(edit)) && |rows'| == |rows|
    && forall i :: 0 <= i < |rows| ==> rows'[i] == UpdateRow(edit, rows[i])
  }

  lemma UpdatedTail(edit: Edit, rows: seq<Row>, rows': seq<Row>)
    requires Updated(edit, rows, rows') && rows != []
    ensures rows' != [] && rows'[0] == UpdateRow(edit, rows[0]) && Updated(edit, rows[1..], rows'[1..])
    ensures Blank(rows'[0]) <==> Blank(rows[0])
    ensures !Blank(rows[0]) ==> |rows'[0]| == |rows[0]| >= Minimum(edit)
  {
    assert forall i :: 0 <= i < |rows[1..]| ==> rows[1..][i] == rows[i + 1] && rows'[1..][i] == rows'[i + 1];
  }

  // ----- What an edit does to lookups -----

  /** The edited account is found under its new numbers with its old home. */
  lemma {:induction false} FindEditedAccount(edit: Edit, rows: seq<Row>, rows': seq<Row>)
    requires edit.PasswdEdit? && Updated(edit, rows, rows') && FindAccount(rows, edit.name).Ok?
    ensures FindAccount(rows', edit.name)
            == Ok(Account(edit.uid, edit.gid, FindAccount(rows, edit.name).value.home))
  {
    UpdatedTail(edit, rows, rows');
    PrintReads(edit.uid);
    PrintReads(edit.gid);
    if Blank(rows[0]) || rows[0][0] != edit.name {
      FindEditedAccount(edit, rows[1..], rows'[1..]);
    }
  }

  /** A group lookup for the number just given finds the edited group, if it has a row and no other group holds it. */
  lemma {:induction false} FindEditedGroup(edit: Edit, rows: seq<Row>, rows': seq<Row>)
    requires edit.GroupEdit? && Updated(edit, rows, rows') && OnlyHolder(rows, edit.name, edit.gid)
    requires HasRow(rows, edit.name)
    ensures FindPrimaryGroup(rows', edit.gid) == Ok(edit.name)
  {
    UpdatedTail(edit, rows, rows');
    PrintReads(edit.gid);
    if Blank(rows[0]) || rows[0][0] != edit.name {
      assert OnlyHolder(rows[1..], edit.name, edit.gid) && HasRow(rows[1..], edit.name) by {
        TailFacts(rows, edit.name, edit.gid);
      }
      FindEditedGroup(edit, rows[1..], rows'[1..]);
    }
  }

  ghost predicate HasRow(rows: seq<Row>, name: string) {
    exists i :: 0 <= i < |rows| && !Blank(rows[i]) && |rows[i]| > 2 && rows[i][0] == name
  }

  lemma TailFacts(rows: seq<Row>, name: string, id: U32)
    requires rows != []
    ensures OnlyHolder(rows, name, id) ==> OnlyHolder(rows[1..], name, id)
    ensures HasRow(rows, name) && (Blank(rows[0]) || |rows[0]| <= 2 || rows[0][0] != name) ==> HasRow(rows[1..], name)
    ensures HasRow(rows[1..], name) ==> HasRow(rows, name)
  {
    assert forall i :: 0 <= i < |rows[1..]| ==> rows[1..][i] == rows[i + 1];
    if HasRow(rows, name) && (Blank(rows[0]) || |rows[0]| <= 2 || rows[0][0] != name) {
      var i :| 0 <= i < |rows| && !Blank(rows[i]) && |rows[i]| > 2 && rows[i][0] == name;
      assert rows[1..][i - 1] == rows[i];
    }
  }

  lemma {:induction false} FoundGroupHasRow(rows: seq<Row>, gid: U32)
    requires FindPrimaryGroup(rows, gid).Ok?
    ensures HasRow(rows, FindPrimaryGroup(rows, gid).value)
  {
    if Blank(rows[0]) || ParseU32(rows[0][2]) != Some(gid) {
      FoundGroupHasRow(rows[1..], gid);
      TailFacts(rows, FindPrimaryGroup(rows, gid).value, gid);
    }
  }

  /** An update keeps a row's length and name, and the number of anyone else. */
  lemma UpdatedRowShape(edit: Edit, r: Row)
    requires Blank(r) || |r| >= Minimum(edit)
    ensures Blank(UpdateRow(edit, r)) <==> Blank(r)
    ensures !Blank(r) ==>
              && |UpdateRow(edit, r)| == |r| && UpdateRow(edit, r)[0] == r[0]
              && (r[0] != edit.name ==> UpdateRow(edit, r)[2] == r[2])
  {
  }

  /** Row for row, the same names, and the same numbers for everyone else. */
  ghost predicate SameShape(name: string, rows: seq<Row>, rows': seq<Row>) {
    |rows'| == |rows| && forall i :: 0 <= i < |rows| ==>
      && (Blank(rows'[i]) <==> Blank(rows[i]))
      && (!Blank(rows[i]) && |rows[i]| > 2 ==>
            && |rows'[i]| == |rows[i]| && rows'[i][0] == rows[i][0]
            && (rows[i][0] != name ==> rows'[i][2] == rows[i][2]))
  }

  lemma SameShapeSameHolders(name: string, rows: seq<Row>, rows': seq<Row>, minimum: nat, id: U32)
    requires minimum > 2 && WellFormed(rows, minimum) && SameShape(name, rows, rows')
    ensures WellFormed(rows', minimum)
    ensures OnlyHolder(rows', name, id) <==> OnlyHolder(rows, name, id)
    ensures HasRow(rows, name) ==> HasRow(rows', name)
  {
    if HasRow(rows, name) {
      var i :| 0 <= i < |rows| && !Blank(rows[i]) && |rows[i]| > 2 && rows[i][0] == name;
      assert !Blank(rows'[i]);
    }
  }

  /** Edits keep well-formedness, keep everyone else's numbers and keep the edited group. */
  lemma UpdatedRows(edit: Edit, rows: seq<Row>, rows': seq<Row>, id: U32)
    requires Updated(edit, rows, rows')
    ensures WellFormed(rows', Minimum(edit))
    ensures OnlyHolder(rows', edit.name, id) <==> OnlyHolder(rows, edit.name, id)
    ensures HasRow(rows, edit.name) ==> HasRow(rows', edit.name)
  {
    assert SameShape(edit.name, rows, rows') by {
      forall i | 0 <= i < |rows|
        ensures Blank(rows[i]) <==> Blank(rows'[i])
        ensures !Blank(rows[i]) && |rows[i]| > 2 ==>
                  && |rows'[i]| == |rows[i]| && rows'[i][0] == rows[i][0]
                  && (rows[i][0] != edit.name ==> rows'[i][2] == rows[i][2])
      {
        UpdatedRowShape(edit, rows[i]);
      }
    }
    SameShapeSameHolders(edit.name, rows, rows', Minimum(edit), id);
  }
}
