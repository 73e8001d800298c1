/** Renumbering the container account: the rewrite of both databases and what it leaves behind. */
module AccountUpdate {
  import opened Wrappers
  import opened DelimitedText
  import opened AccountRows

  // ----- Rewriting a database -----

  function Rows(contents: string): seq<Row> {
    SplitAll(Lines(contents))
  }

  function SplitAll(lines: seq<string>): (rows: seq<Row>)
    ensures |rows| == |lines| && forall i :: 0 <= i < |lines| ==> rows[i] == Split(lines[i], ':')
  {
    if lines == [] then [] else [Split(lines[0], ':')] + SplitAll(lines[1..])
  }

  lemma BlankIsEmpty(line: string)
    ensures Blank(Split(line, ':')) <==> line == ""
  {
    JoinOfSplit(line, ':');
  }

  lemma {:induction false} FreeParts(s: string, c: char, d: char)
    requires d !in s
    ensures Free(Split(s, c), d)
    decreases |s|
  {
    var i := IndexOf(s, c);
    if i < |s| {
      FreeParts(s[i + 1..], c, d);
    }
  }

  lemma {:induction false} FreeJoin(parts: seq<string>, c: char, d: char)
    requires |parts| > 0 && Free(parts, d) && c != d
    ensures d !in Join(parts, c)
  {
    if |parts| > 1 {
      FreeJoin(parts[1..], c, d);
    }
  }

  lemma ApplyIsFree(edit: Edit, r: Row, c: char)
    requires |r| >= Minimum(edit) && Free(r, c) && (c == ':' || c == '\n')
    ensures Free(Apply(edit, r), c)
  {
    PrintReads(edit.gid);
    if edit.PasswdEdit? {
      PrintReads(edit.uid);
    }
  }

  lemma RereadIsFree(r: Row)
    requires |r| > 0 && Free(r, ':')
    ensures Free(Reread(r), ':')
  {
  }

  /** One edited row, written and read back. */
  lemma EditedRowRereads(edit: Edit, row: Row)
    requires |row| >= Minimum(edit) && Free(row, ':') && Free(row, '\n')
    ensures '\n' !in Join(Apply(edit, row), ':')
    ensures Split(StripCr(Join(Apply(edit, row), ':')), ':') == Reread(Apply(edit, row))
  {
    var r := Apply(edit, row);
    ApplyIsFree(edit, row, ':');
    ApplyIsFree(edit, row, '\n');
    FreeJoin(r, ':', '\n');
    StripOfJoin(r);
    RereadIsFree(r);
    SplitOfJoin(Reread(r), ':');
  }

  /** `text` is what is written for the line. */
  ghost predicate WrittenFor(edit: Edit, line: string, text: string) {
    && (Blank(Split(line, ':')) || |Split(line, ':')| >= Minimum(edit))
    && '\n' !in text && Split(StripCr(text), ':') == UpdateRow(edit, Split(line, ':'))
  }

  method EditLine(edit: Edit, line: string) returns (r: Result<string, Failure>)
    requires '\n' !in line
    ensures r.Ok? <==> Blank(Split(line, ':')) || |Split(line, ':')| >= Minimum(edit)
    ensures if r.Ok? then WrittenFor(edit, line, r.value) else r.error == Malformed
  {
    BlankIsEmpty(line);
    if line == "" {
      return Ok("");
    }
    var entry := Split(line, ':');
    if |entry| < Minimum(edit) {
      return Err(Malformed);
    }
    JoinOfSplit(line, ':');
    FreeParts(line, ':', '\n');
    EditedRowRereads(edit, entry);
    return Ok(Join(Apply(edit, entry), ':'));
  }

  /** What the loop has written for the first lines. */
  ghost predicate Writing(edit: Edit, lines: seq<string>, written: seq<string>) {
    written == []
    || (|written| <= |lines| && Writing(edit, lines, written[..|written| - 1])
        && WrittenFor(edit, lines[|written| - 1], written[|written| - 1]))
  }

  lemma WritingStep(edit: Edit, lines: seq<string>, written: seq<string>, text: string)
    requires Writing(edit, lines, written) && |written| < |lines|
    requires WrittenFor(edit, lines[|written|], text)
    ensures Writing(edit, lines, written + [text])
  {
    assert (written + [text])[..|written|] == written;
  }

  lemma {:induction false} WrittenAt(edit: Edit, lines: seq<string>, written: seq<string>, k: nat)
    requires Writing(edit, lines, written) && k < |written| <= |lines|
    ensures WrittenFor(edit, lines[k], written[k])
  {
    if k < |written| - 1 {
      WrittenAt(edit, lines, written[..|written| - 1], k);
    }
  }

  lemma WrittenRereads(edit: Edit, contents: string, written: seq<string>)
    requires |written| == |Lines(contents)| && Writing(edit, Lines(contents), written)
    ensures Updated(edit, Rows(contents), Rows(Unlines(written)))
  {
    forall k | 0 <= k < |written|
      ensures '\n' !in written[k]
    {
      WrittenAt(edit, Lines(contents), written, k);
    }
    LinesOfUnlines(written);
    forall k | 0 <= k < |written|
      ensures Blank(Rows(contents)[k]) || |Rows(contents)[k]| >= Minimum(edit)
      ensures Rows(Unlines(written))[k] == UpdateRow(edit, Rows(contents)[k])
    {
      WrittenAt(edit, Lines(contents), written, k);
    }
  }

  /** `rewrite_database`: either a non-empty line has too few fields, or every row is updated in place. */
  method RewriteDatabase(contents: string, edit: Edit) returns (r: Result<string, Failure>)
    ensures r.Ok? <==> WellFormed(Rows(contents), Minimum(edit))
    ensures r.Err? ==> r.error == Malformed
    ensures r.Ok? ==> Updated(edit, Rows(contents), Rows(r.value))
  {
    var lines := Lines(contents);
    LinesAreFree(contents);
    ghost var written: seq<string> := [];
    var output := "";
    for i := 0 to |lines|
      invariant Writing(edit, lines, written) && |written| == i && output == Unlines(written)
    {
      var text := EditLine(edit, lines[i]);
      if text.Err? {
        assert Rows(contents)[i] == Split(lines[i], ':');
        return Err(text.error);
      }
      WritingStep(edit, lines, written, text.value);
      UnlinesAppend(written, text.value);
      written := written + [text.value];
      output := output + text.value;
      output := output + "\n";
    }
    WrittenRereads(edit, contents, written);
    return Ok(output);
  }

  // ----- Deciding -----

  datatype Request = Request(account: string, uid: U32, gid: U32)

  datatype Decision = Keep | Renumber(account: Account, primary: string)

  /** An absolute path other than the root, without parent components; empty and dot components vanish. */
  predicate SafeHome(home: string) {
    var parts := Split(home, '/');
    && home != "" && home[0] == '/' && ".." !in parts
    && exists i :: 0 <= i < |parts| && parts[i] != "" && parts[i] != "."
  }

  /** Absolute, something other than the root, and with no component that leads back to a parent. */
  ghost predicate ProperHome(home: string) {
    && home != "" && home[0] == '/'
    && (forall i: nat, j: nat :: IsPart(home, '/', i, j) ==> home[i..j] != "..")
    && exists i: nat, j: nat :: IsPart(home, '/', i, j) && home[i..j] != "" && home[i..j] != "."
  }

  lemma SafeHomeMeans(home: string)
    ensures SafeHome(home) <==> ProperHome(home)
  {
    var parts := Split(home, '/');
    SplitMeans(home, '/', "..");
    if SafeHome(home) {
      var k :| 0 <= k < |parts| && parts[k] != "" && parts[k] != ".";
      SplitMeans(home, '/', parts[k]);
    }
    if ProperHome(home) {
      var i: nat, j: nat :| IsPart(home, '/', i, j) && home[i..j] != "" && home[i..j] != ".";
      SplitMeans(home, '/', home[i..j]);
      var k :| 0 <= k < |parts| && parts[k] == home[i..j];
    }
  }

  /** The checks of `update_user` in their order, up to the first replacement. */
  function Check(passwd: seq<Row>, group: seq<Row>, q: Request): Result<Decision, Failure> {
    if q.account == "root" || q.uid == 0 then Err(RootAccount)
    else
      var account := FindAccount(passwd, q.account);
      if account.Err? then Err(account.error) else CheckAccount(passwd, group, q, account.value)
  }

  function CheckAccount(passwd: seq<Row>, group: seq<Row>, q: Request, account: Account): Result<Decision, Failure> {
    if account.uid == 0 then Err(RootAccount)
    else
      var uidFree := RejectUidConflict(passwd, q.account, q.uid, account.uid);
      var primary := FindPrimaryGroup(group, account.gid);
      if uidFree.Err? then Err(uidFree.error)
      else if primary.Err? then Err(primary.error)
      else
        var gidFree := RejectGidConflict(group, primary.value, q.gid);
        if gidFree.Err? then Err(gidFree.error)
        else if account.uid == q.uid && account.gid == q.gid then Ok(Keep)
        else if !SafeHome(account.home) then Err(UnsafeHome)
        else if !WellFormed(passwd, PASSWD_FIELDS) || !WellFormed(group, GROUP_FIELDS) then Err(Malformed)
        else Ok(Renumber(account, primary.value))
  }

  function PasswdChange(q: Request): Edit {
    PasswdEdit(q.account, q.uid, q.gid)
  }

  function GroupChange(q: Request, primary: string): Edit {
    GroupEdit(primary, q.gid)
  }

  // ----- What an accepted update leaves behind -----

  /** A decision to renumber, spelled out. */
  lemma RenumberMeans(passwd: seq<Row>, group: seq<Row>, q: Request)
    requires Check(passwd, group, q).Ok? && Check(passwd, group, q).value.Renumber?
    ensures var d := Check(passwd, group, q).value;
            && q.account != "root" && q.uid != 0 && d.account.uid != 0
            && FindAccount(passwd, q.account) == Ok(d.account) && ProperHome(d.account.home)
            && FindPrimaryGroup(group, d.account.gid) == Ok(d.primary) && HasRow(group, d.primary)
            && RejectUidConflict(passwd, q.account, q.uid, d.account.uid).Ok?
            && (d.account.uid != q.uid ==> OnlyHolder(passwd, q.account, q.uid))
            && OnlyHolder(group, d.primary, q.gid)
            && WellFormed(passwd, PASSWD_FIELDS) && WellFormed(group, GROUP_FIELDS)
  {
    var d := Check(passwd, group, q).value;
    FoundGroupHasRow(group, d.account.gid);
    SafeHomeMeans(d.account.home);
    NoOtherHolder(passwd, PASSWD_FIELDS, q.account, q.uid);
    NoOtherHolder(group, GROUP_FIELDS, d.primary, q.gid);
  }

  /** The account and its primary group can be found, and both numbers asked for are theirs or free. */
  ghost predicate Acceptable(passwd: seq<Row>, group: seq<Row>, q: Request, account: Account, primary: string) {
    && q.account != "root" && q.uid != 0 && account.uid != 0 && FindAccount(passwd, q.account) == Ok(account)
    && (q.uid != account.uid ==> WellFormed(passwd, 7) && OnlyHolder(passwd, q.account, q.uid))
    && FindPrimaryGroup(group, account.gid) == Ok(primary) && WellFormed(group, 4) && OnlyHolder(group, primary, q.gid)
  }

  /** Nothing to do, a renumbering, or a refusal: which of them, exactly. */
  lemma DecisionMeans(passwd: seq<Row>, group: seq<Row>, q: Request, account: Account, primary: string)
    ensures Check(passwd, group, q) == Ok(Renumber(account, primary)) <==>
              && Acceptable(passwd, group, q, account, primary) && (account.uid != q.uid || account.gid != q.gid)
              && ProperHome(account.home) && WellFormed(passwd, 7)
    ensures Acceptable(passwd, group, q, account, primary) && account.uid == q.uid && account.gid == q.gid ==>
              Check(passwd, group, q) == Ok(Keep)
    ensures Check(passwd, group, q) == Ok(Keep) && FindAccount(passwd, q.account) == Ok(account) &&
            FindPrimaryGroup(group, account.gid) == Ok(primary) ==>
              Acceptable(passwd, group, q, account, primary) && account.uid == q.uid && account.gid == q.gid
  {
    SafeHomeMeans(account.home);
    NoOtherHolder(passwd, PASSWD_FIELDS, q.account, q.uid);
    NoOtherHolder(group, GROUP_FIELDS, primary, q.gid);
  }

  /** Some complete row of that name holds the number. */
  ghost predicate Holds(rows: seq<Row>, name: string, id: U32) {
    exists i :: 0 <= i < |rows| && !Blank(rows[i]) && |rows[i]| > 2 && rows[i][0] == name && ParseU32(rows[i][2]) == Some(id)
  }

  /** What each refusal says about the two databases. */
  ghost predicate Cause(passwd: seq<Row>, group: seq<Row>, q: Request, e: Failure) {
    var account := FindAccount(passwd, q.account);
    match e
    case RootAccount => q.account == "root" || q.uid == 0 || (account.Ok? && account.value.uid == 0)
    case MissingUser => account == Err(MissingUser)
    case InvalidUid => account == Err(InvalidUid)
    case InvalidGid => account == Err(InvalidGid)
    case MissingPrimaryGroup => account.Ok? && FindPrimaryGroup(group, account.value.gid) == Err(MissingPrimaryGroup)
    case UidConflict(owner) =>
      account.Ok? && account.value.uid != q.uid && owner != q.account && Holds(passwd, owner, q.uid)
    case GidConflict(owner) =>
      account.Ok? && FindPrimaryGroup(group, account.value.gid).Ok? && Holds(group, owner, q.gid) &&
      owner != FindPrimaryGroup(group, account.value.gid).value
    case UnsafeHome => account.Ok? && !ProperHome(account.value.home)
    case Malformed => !WellFormed(passwd, 7) || !WellFormed(group, 4)
    case NotRoot => false
    case ReplaceFailed => false
    case OwnershipFailed => false
  }

  lemma RefusalMeans(passwd: seq<Row>, group: seq<Row>, q: Request)
    requires Check(passwd, group, q).Err?
    ensures Cause(passwd, group, q, Check(passwd, group, q).error)
  {
    var a := AccountIsFirst(passwd, q.account);
    var account := FindAccount(passwd, q.account);
    if account.Ok? {
      var u := HolderIsFirst(passwd, PASSWD_FIELDS, q.account, q.uid);
      var g := GroupIsFirst(group, account.value.gid);
      SafeHomeMeans(account.value.home);
      var primary := FindPrimaryGroup(group, account.value.gid);
      if primary.Ok? {
        var h := HolderIsFirst(group, GROUP_FIELDS, primary.value, q.gid);
      }
    }
  }

  /** Once an account is in place under the wanted numbers, the checks find nothing to do. */
  lemma SettledIsKept(passwd: seq<Row>, group: seq<Row>, q: Request, home: string, primary: string)
    requires q.account != "root" && q.uid != 0
    requires FindAccount(passwd, q.account) == Ok(Account(q.uid, q.gid, home))
    requires FindPrimaryGroup(group, q.gid) == Ok(primary)
    requires WellFormed(group, GROUP_FIELDS) && OnlyHolder(group, primary, q.gid)
    ensures Check(passwd, group, q) == Ok(Keep)
  {
    NoOtherHolder(group, GROUP_FIELDS, primary, q.gid);
  }

  /**
   After an accepted update the account is found under the new numbers with the same home, its
   primary group keeps its name under the new GID, nobody else holds the new numbers, and the same
   request has nothing left to do.
   */
  lemma AcceptedUpdate(passwd: seq<Row>, group: seq<Row>, passwd': seq<Row>, group': seq<Row>, q: Request)
    requires Check(passwd, group, q).Ok? && Check(passwd, group, q).value.Renumber?
    requires Updated(PasswdChange(q), passwd, passwd')
    requires Updated(GroupChange(q, Check(passwd, group, q).value.primary), group, group')
    ensures var d := Check(passwd, group, q).value;
            && FindAccount(passwd', q.account) == Ok(Account(q.uid, q.gid, d.account.home)) && ProperHome(d.account.home)
            && FindPrimaryGroup(group', q.gid) == Ok(d.primary) == FindPrimaryGroup(group, d.account.gid)
            && OnlyHolder(group', d.primary, q.gid)
            && (d.account.uid != q.uid ==> OnlyHolder(passwd', q.account, q.uid))
    ensures Check(passwd', group', q) == Ok(Keep)
  {
    var d := Check(passwd, group, q).value;
    RenumberMeans(passwd, group, q);
    FindEditedAccount(PasswdChange(q), passwd, passwd');
    FindEditedGroup(GroupChange(q, d.primary), group, group');
    UpdatedRows(PasswdChange(q), passwd, passwd', q.uid);
    UpdatedRows(GroupChange(q, d.primary), group, group', q.gid);
    SettledIsKept(passwd', group', q, d.account.home, d.primary);
  }

  /** Rows under other names keep every field; only a carriage return at the very end can be lost. */
  lemma OtherRowsAreKept(edit: Edit, rows: seq<Row>, rows': seq<Row>, i: nat)
    requires Updated(edit, rows, rows') && i < |rows|
    requires Blank(rows[i]) || rows[i][0] != edit.name
    ensures |rows'[i]| == |rows[i]| && forall k :: 0 <= k < |rows[i]| - 1 ==> rows'[i][k] == rows[i][k]
    ensures rows'[i] == rows[i] <==> Blank(rows[i]) || StripCr(rows[i][|rows[i]| - 1]) == rows[i][|rows[i]| - 1]
  {
  }

  /** The renumbered rows keep every field but the numbers. */
  lemma EditedRowsChangeOnlyNumbers(edit: Edit, rows: seq<Row>, rows': seq<Row>, i: nat)
    requires Updated(edit, rows, rows') && i < |rows| && !Blank(rows[i]) && rows[i][0] == edit.name
    ensures |rows'[i]| == |rows[i]|
    ensures forall k :: 0 <= k < |rows[i]| - 1 && k != 2 && (edit.GroupEdit? || k != 3) ==> rows'[i][k] == rows[i][k]
    ensures rows'[i][|rows[i]| - 1] == StripCr(rows[i][|rows[i]| - 1])
    ensures if edit.PasswdEdit? then ParseU32(rows'[i][2]) == Some(edit.uid) && ParseU32(rows'[i][3]) == Some(edit.gid)
            else ParseU32(rows'[i][2]) == Some(edit.gid)
  {
    PrintReads(edit.gid);
    if edit.PasswdEdit? {
      PrintReads(edit.uid);
    }
  }

  // ----- An update interrupted between the two replacements -----

  /** The edited group no longer answers to another number. */
  lemma {:induction false} EditedGroupLeaves(edit: Edit, rows: seq<Row>, rows': seq<Row>, gid: U32)
    requires edit.GroupEdit? && Updated(edit, rows, rows') && gid != edit.gid
    ensures FindPrimaryGroup(rows', gid) != Ok(edit.name)
  {
    PrintReads(edit.gid);
    if rows != [] {
      UpdatedTail(edit, rows, rows');
      EditedGroupLeaves(edit, rows[1..], rows'[1..], gid);
    }
  }

  /** A row of the edited group is a conflict for any other primary group. */
  lemma EditedGroupConflicts(edit: Edit, rows: seq<Row>, rows': seq<Row>, other: string)
    requires edit.GroupEdit? && Updated(edit, rows, rows') && HasRow(rows, edit.name) && other != edit.name
    ensures RejectGidConflict(rows', other, edit.gid).Err?
  {
    var i :| 0 <= i < |rows| && !Blank(rows[i]) && |rows[i]| > 2 && rows[i][0] == edit.name;
    PrintReads(edit.gid);
    assert rows'[i][0] != other && ParseU32(rows'[i][2]) == Some(edit.gid);
    NoOtherHolder(rows', GROUP_FIELDS, other, edit.gid);
  }

  /**
   When only the group database was replaced, repeating the request succeeds exactly when the GID was
   not to change: otherwise the account's old GID no longer leads to its group.
   */
  lemma RetryAfterHalfAnUpdate(passwd: seq<Row>, group: seq<Row>, group': seq<Row>, q: Request)
    requires Check(passwd, group, q).Ok? && Check(passwd, group, q).value.Renumber?
    requires Updated(GroupChange(q, Check(passwd, group, q).value.primary), group, group')
    ensures Check(passwd, group', q).Ok? <==> q.gid == Check(passwd, group, q).value.account.gid
  {
    var d := Check(passwd, group, q).value;
    var edit := GroupChange(q, d.primary);
    RenumberMeans(passwd, group, q);
    UpdatedRows(edit, group, group', q.gid);
    if q.gid == d.account.gid {
      FindEditedGroup(edit, group, group');
      NoOtherHolder(group', GROUP_FIELDS, d.primary, q.gid);
    } else {
      EditedGroupLeaves(edit, group, group', d.account.gid);
      var found := FindPrimaryGroup(group', d.account.gid);
      if found.Ok? {
        EditedGroupConflicts(edit, group, group', found.value);
      }
    }
  }

  // ----- The update as it runs -----

  lemma RenumberIsWellFormed(passwd: seq<Row>, group: seq<Row>, q: Request)
    requires Check(passwd, group, q).Ok? && Check(passwd, group, q).value.Renumber?
    ensures WellFormed(passwd, PASSWD_FIELDS) && WellFormed(group, GROUP_FIELDS)
  {
  }

  datatype Owner = Owner(uid: U32, gid: U32)

  /** `chown_tree` on one entry: each of the two numbers is replaced only where it is the old one. */
  function Reowned(o: Owner, account: Account, q: Request): Owner {
    Owner(if o.uid == account.uid then q.uid else o.uid, if o.gid == account.gid then q.gid else o.gid)
  }

  /** In the first `n` entries of the home the account's UID became the one asked for, and so did its GID. */
  ghost predicate ReownedUpTo(before: seq<Owner>, after: seq<Owner>, n: nat, account: Account, q: Request) {
    && |after| == |before| && n <= |before|
    && (forall i :: 0 <= i < n ==>
          && after[i].uid == (if before[i].uid == account.uid then q.uid else before[i].uid)
          && after[i].gid == (if before[i].gid == account.gid then q.gid else before[i].gid))
    && (forall i :: n <= i < |before| ==> after[i] == before[i])
  }

  /** How many entries are reached when the entry `failsAt`, if any, cannot be changed. */
  function Reached(entries: nat, failsAt: Option<nat>): nat {
    if failsAt.Some? && failsAt.value < entries then failsAt.value else entries
  }

  /** No entry from the `n`th on has a number of the account that is to change. */
  ghost predicate RestIsRight(before: seq<Owner>, n: nat, account: Account, q: Request) {
    forall i :: n <= i < |before| ==>
      && (before[i].uid == account.uid ==> before[i].uid == q.uid)
      && (before[i].gid == account.gid ==> before[i].gid == q.gid)
  }

  lemma FinishedExactly(before: seq<Owner>, after: seq<Owner>, n: nat, account: Account, q: Request)
    requires ReownedUpTo(before, after, n, account, q)
    ensures ReownedUpTo(before, after, |before|, account, q) <==> RestIsRight(before, n, account, q)
  {
  }

  class AccountFiles {
    var passwd: string
    var group: string
    var home: seq<Owner>  // the entries of the account's home in the order they are visited, without symbolic links

    /** Both rewrites are prepared first; then the group database is replaced, then the accounts. */
    method Replace(q: Request, primary: string, groupReplaced: bool, passwdReplaced: bool) returns (r: Result<(), Failure>)
      requires WellFormed(Rows(passwd), PASSWD_FIELDS) && WellFormed(Rows(group), GROUP_FIELDS)
      modifies this`passwd, this`group
      ensures r == if groupReplaced && passwdReplaced then Ok(()) else Err(ReplaceFailed)
      ensures if groupReplaced then Updated(GroupChange(q, primary), old(Rows(group)), Rows(group)) else group == old(group)
      ensures if groupReplaced && passwdReplaced then Updated(PasswdChange(q), old(Rows(passwd)), Rows(passwd))
              else passwd == old(passwd)
    {
      var newPasswd := RewriteDatabase(passwd, PasswdChange(q));
      var newGroup := RewriteDatabase(group, GroupChange(q, primary));
      if !groupReplaced {
        return Err(ReplaceFailed);
      }
      group := newGroup.value;
      if !passwdReplaced {
        return Err(ReplaceFailed);
      }
      passwd := newPasswd.value;
      return Ok(());
    }

    /** `chown_tree`: stops at the first entry that cannot be changed. */
    method ChownTree(account: Account, q: Request, failsAt: Option<nat>) returns (r: Result<(), Failure>)
      modifies this`home
      ensures ReownedUpTo(old(home), home, Reached(|old(home)|, failsAt), account, q)
      ensures r == if Reached(|old(home)|, failsAt) == |old(home)| then Ok(()) else Err(OwnershipFailed)
    {
      var i := 0;
      while i < |home|
        invariant ReownedUpTo(old(home), home, i, account, q)
        invariant failsAt.Some? ==> i <= Reached(|old(home)|, failsAt)
      {
        if failsAt == Some(i) {
          return Err(OwnershipFailed);
        }
        home := home[i := Reowned(home[i], account, q)];
        i := i + 1;
      }
      return Ok(());
    }

    /** `update_user`; either replacement may fail, and so may the change of the home after them. */
    method UpdateUser(q: Request, isRoot: bool, groupReplaced: bool, passwdReplaced: bool, failsAt: Option<nat>)
      returns (r: Result<(), Failure>)
      modifies this
      ensures var decided := Check(old(Rows(passwd)), old(Rows(group)), q);
              if !isRoot then r == Err(NotRoot) && unchanged(this)
              else if decided.Err? then r == Err(decided.error) && unchanged(this)
              else if decided.value.Keep? then r == Ok(()) && unchanged(this)
              else
                && (if groupReplaced then Updated(GroupChange(q, decided.value.primary), old(Rows(group)), Rows(group))
                    else group == old(group))
                && (if groupReplaced && passwdReplaced
                    then
                      && Updated(PasswdChange(q), old(Rows(passwd)), Rows(passwd))
                      && ReownedUpTo(old(home), home, Reached(|old(home)|, failsAt), decided.value.account, q)
                      && r == if Reached(|old(home)|, failsAt) == |old(home)| then Ok(()) else Err(OwnershipFailed)
                    else passwd == old(passwd) && home == old(home) && r == Err(ReplaceFailed))
    {
      if !isRoot {
        return Err(NotRoot);
      }
      var decided := Check(Rows(passwd), Rows(group), q);
      if decided.Err? {
        return Err(decided.error);
      }
      if decided.value.Keep? {
        return Ok(());
      }
      RenumberIsWellFormed(Rows(passwd), Rows(group), q);
      r := Replace(q, decided.value.primary, groupReplaced, passwdReplaced);
      if r.Ok? {
        r := ChownTree(decided.value.account, q, failsAt);
      }
    }

    /**
     A failure in the home is not made good by asking again: the second request succeeds at once and
     touches nothing, so the home is finished exactly when the entries not reached had nothing to change.
     */
    method UpdateTwice(q: Request, failsAt: Option<nat>) returns (first: Result<(), Failure>, second: Result<(), Failure>)
      modifies this
      ensures var decided := Check(old(Rows(passwd)), old(Rows(group)), q);
              var n, before := Reached(|old(home)|, failsAt), old(home);
              decided.Ok? && decided.value.Renumber? ==>
                && second == Ok(()) && ReownedUpTo(before, home, n, decided.value.account, q)
                && first == (if n == |before| then Ok(()) else Err(OwnershipFailed))
                && (ReownedUpTo(before, home, |before|, decided.value.account, q) <==>
                      RestIsRight(before, n, decided.value.account, q))
    {
      ghost var wasPasswd, wasGroup := Rows(passwd), Rows(group);
      first := UpdateUser(q, true, true, true, failsAt);
      ghost var decided := Check(wasPasswd, wasGroup, q);
      if decided.Ok? && decided.value.Renumber? {
        AcceptedUpdate(wasPasswd, wasGroup, Rows(passwd), Rows(group), q);
        FinishedExactly(old(home), home, Reached(|old(home)|, failsAt), decided.value.account, q);
      }
      second := UpdateUser(q, true, true, true, None);
    }
  }

  // ----- Inputs at which the limits show -----

  /** One account and its group, both under one number. */
  function DevPasswd(n: U32): seq<Row> {
    [["dev", "x", Print(n), Print(n), "", "/home/dev", "/bin/sh"]]
  }

  function DevGroup(n: U32): seq<Row> {
    [["dev", "x", Print(n), ""]]
  }

  lemma DevHomeIsSafe()
    ensures SafeHome("/home/dev")
  {
    var parts := ["", "home", "dev"];
    assert "dev" == Join(["dev"], '/') && "home/dev" == Join(["home", "dev"], '/') && "/home/dev" == Join(parts, '/');
    SplitOfJoin(parts, '/');
    assert parts[1] != "" && parts[1] != "." && ".." !in parts;
  }

  lemma DevIsFound(n: U32, other: U32)
    ensures FindAccount(DevPasswd(n), "dev") == Ok(Account(n, n, "/home/dev"))
    ensures OtherHolder(DevPasswd(n), PASSWD_FIELDS, "dev", other) == Ok(None)
    ensures WellFormed(DevPasswd(n), PASSWD_FIELDS)
  {
    PrintReads(n);
    assert DevPasswd(n)[1..] == [];
  }

  lemma DevGroupIsFound(n: U32, gid: U32)
    ensures FindPrimaryGroup(DevGroup(n), gid) == if gid == n then Ok("dev") else Err(MissingPrimaryGroup)
    ensures OtherHolder(DevGroup(n), GROUP_FIELDS, "dev", gid) == Ok(None)
    ensures WellFormed(DevGroup(n), GROUP_FIELDS)
  {
    PrintReads(n);
    assert DevGroup(n)[1..] == [];
  }

  lemma DevGroupIsUpdated(n: U32, q: Request)
    ensures Updated(GroupChange(q, "dev"), DevGroup(n), DevGroup(q.gid))
  {
    DevGroupIsFound(n, q.gid);
    assert StripCr("") == "";
  }

  lemma FreeIsRenumbered(passwd: seq<Row>, group: seq<Row>, q: Request, account: Account, primary: string)
    requires q.account != "root" && q.uid != 0 && account.uid != 0 && account.gid != q.gid
    requires FindAccount(passwd, q.account) == Ok(account) && SafeHome(account.home)
    requires OtherHolder(passwd, PASSWD_FIELDS, q.account, q.uid) == Ok(None) && WellFormed(passwd, PASSWD_FIELDS)
    requires FindPrimaryGroup(group, account.gid) == Ok(primary)
    requires OtherHolder(group, GROUP_FIELDS, primary, q.gid) == Ok(None) && WellFormed(group, GROUP_FIELDS)
    ensures Check(passwd, group, q) == Ok(Renumber(account, primary))
  {
  }

  lemma GrouplessIsRefused(passwd: seq<Row>, group: seq<Row>, q: Request, account: Account)
    requires q.account != "root" && q.uid != 0 && account.uid != 0
    requires FindAccount(passwd, q.account) == Ok(account)
    requires OtherHolder(passwd, PASSWD_FIELDS, q.account, q.uid) == Ok(None)
    requires FindPrimaryGroup(group, account.gid) == Err(MissingPrimaryGroup)
    ensures Check(passwd, group, q) == Err(MissingPrimaryGroup)
  {
  }

  /** A GID change is accepted, and refused once only the group was replaced. */
  lemma HalfAnUpdateIsRefused(n: U32, uid: U32, gid: U32)
    requires n != 0 && uid != 0 && gid != n
    ensures var q := Request("dev", uid, gid);
            && Check(DevPasswd(n), DevGroup(n), q) == Ok(Renumber(Account(n, n, "/home/dev"), "dev"))
            && Updated(GroupChange(q, "dev"), DevGroup(n), DevGroup(gid))
            && Check(DevPasswd(n), DevGroup(gid), q) == Err(MissingPrimaryGroup)
  {
    var q, account := Request("dev", uid, gid), Account(n, n, "/home/dev");
    DevIsFound(n, uid);
    DevGroupIsFound(gid, n);
    GrouplessIsRefused(DevPasswd(n), DevGroup(gid), q, account);
    DevHomeIsSafe();
    DevGroupIsFound(n, n);
    DevGroupIsFound(n, gid);
    FreeIsRenumbered(DevPasswd(n), DevGroup(n), q, account, "dev");
    DevGroupIsUpdated(n, q);
  }

  /** A database of one row, as text. */
  function Text(row: Row): string
    requires |row| > 0
  {
    Unlines([Join(row, ':')])
  }

  lemma TextRows(row: Row)
    requires |row| > 0 && Free(row, ':') && Free(row, '\n') && StripCr(row[|row| - 1]) == row[|row| - 1]
    ensures Rows(Text(row)) == [row]
  {
    var line := Join(row, ':');
    FreeJoin(row, ':', '\n');
    LinesOfUnlines([line]);
    StripOfJoin(row);
    assert row[|row| - 1 := row[|row| - 1]] == row;
    SplitOfJoin(row, ':');
  }

  lemma DevPasswdText(n: U32)
    ensures Rows(Text(DevPasswd(n)[0])) == DevPasswd(n)
  {
    PrintReads(n);
    assert StripCr("/bin/sh") == "/bin/sh";
    TextRows(DevPasswd(n)[0]);
  }

  lemma DevGroupText(n: U32)
    ensures Rows(Text(DevGroup(n)[0])) == DevGroup(n)
  {
    PrintReads(n);
    assert StripCr("") == "";
    TextRows(DevGroup(n)[0]);
  }

  /** The account, its group and one entry of its home, all under one number. */
  method DevFiles(n: U32) returns (files: AccountFiles)
    ensures fresh(files) && files.home == [Owner(n, n)]
    ensures Rows(files.passwd) == DevPasswd(n) && Rows(files.group) == DevGroup(n)
  {
    DevPasswdText(n);
    DevGroupText(n);
    files := new AccountFiles;
    files.passwd, files.group, files.home := Text(DevPasswd(n)[0]), Text(DevGroup(n)[0]), [Owner(n, n)];
  }

  /** A stop between the two replacements, and the same request again: it is refused for good. */
  method HalfAnUpdateStays(n: U32, uid: U32, gid: U32)
    returns (files: AccountFiles, first: Result<(), Failure>, second: Result<(), Failure>)
    requires n != 0 && uid != 0 && gid != n
    ensures fresh(files) && first == Err(ReplaceFailed) && second == Err(MissingPrimaryGroup)
    ensures Rows(files.passwd) == DevPasswd(n) && Rows(files.group) == DevGroup(gid) && files.home == [Owner(n, n)]
  {
    var q := Request("dev", uid, gid);
    HalfAnUpdateIsRefused(n, uid, gid);
    files := DevFiles(n);
    first := files.UpdateUser(q, true, true, false, None);
    assert Rows(files.group) == DevGroup(gid);
    second := files.UpdateUser(q, true, true, true, None);
  }

  /**
   The same account and the same request twice. Without a failure its entry gets both numbers; after a
   failure at that entry the second request still succeeds, and the entry keeps its old ones.
   */
  method HomeIsNotRepaired(n: U32, uid: U32, gid: U32, fails: bool)
    returns (files: AccountFiles, first: Result<(), Failure>, second: Result<(), Failure>)
    requires n != 0 && uid != 0 && gid != n
    ensures fresh(files) && second == Ok(())
    ensures first == if fails then Err(OwnershipFailed) else Ok(())
    ensures files.home == if fails then [Owner(n, n)] else [Owner(uid, gid)]
  {
    HalfAnUpdateIsRefused(n, uid, gid);
    files := DevFiles(n);
    first, second := files.UpdateTwice(Request("dev", uid, gid), if fails then Some(0) else None);
  }

  /** For instance from 1000 to 2000 and 2001. */
  lemma HalfAnUpdateFrom1000()
    ensures Check(DevPasswd(1000), DevGroup(1000), Request("dev", 2000, 2001)).Ok?
    ensures Check(DevPasswd(1000), DevGroup(2001), Request("dev", 2000, 2001)) == Err(MissingPrimaryGroup)
  {
    HalfAnUpdateIsRefused(1000, 2000, 2001);
  }

  /** A line that ends in two carriage returns and a newline keeps one of them when it is read. */
  lemma ExtraReturnIsRead(line: string)
    requires '\n' !in line
    ensures Lines(line + "\r\r\n") == [line + "\r"]
  {
    var s := line + "\r\r";
    assert line + "\r\r\n" == s + "\n" + "";
    IndexAfter(s, '\n', "");
    assert (s + "\n" + "")[..|s|] == s && (s + "\n" + "")[|s| + 1..] == "";
    assert StripCr(s) == line + "\r";
  }

  /** And loses it in the rewrite, although the row is another account's. */
  lemma ExtraReturnIsLost()
    ensures var row := ["other", "x", "1", "1", "", "/", "sh\r"];
            UpdateRow(PasswdEdit("dev", 2000, 2000), row) == row[6 := "sh"] && row[6 := "sh"] != row
  {
    assert StripCr("sh\r") == "sh";
    assert "other" != "dev";
  }
}
