/**
 The user repository over the users table. The table is a sequence of rows in the
 order the database scans them; a single-row query returns the first row that
 satisfies its WHERE clause. Infrastructure failures (a transaction that cannot
 start, a statement or commit the driver rejects, a broken connection) are
 boolean inputs.
 */
module Repository {
  import opened Fault
  import opened Model
  import opened Text

  type Table = seq<User>

  /** The table's constraints: ids (the primary key) and names are unique. */
  predicate Valid(t: Table)
  {
    forall i, j :: 0 <= i < j < |t| ==> t[i].id != t[j].id && t[i].name != t[j].name
  }

  predicate NameTaken(t: Table, name: string)
  {
    exists i :: 0 <= i < |t| && t[i].name == name
  }

  predicate IdTaken(t: Table, id: Uuid)
  {
    exists i :: 0 <= i < |t| && t[i].id == id
  }

  // ---------------------------------------------------------------------------
  // InsertUser
  // ---------------------------------------------------------------------------

  const BeginFailedMessage: string := "failed start db transaction"
  const InsertFailedMessage: string := "failed to insert user"
  const CommitFailedMessage: string := "failed to commit transaction"

  /** The outcomes of the three database steps of an insert, the id the database
      generates for the row and the clock reading it stamps on it. */
  datatype InsertEnv = InsertEnv(beginFails: bool, statementFails: bool, commitFails: bool, newId: Uuid, now: int)

  /** The result of an insert and the table after it. */
  datatype Inserted = Inserted(result: Result<Uuid>, table: Table)

  /** The row an insert writes. */
  function NewRow(user: RegisterUser, env: InsertEnv): (r: User)
    ensures r.id == env.newId && r.password == user.password
    ensures r.createdAt == r.updatedAt == env.now
    ensures Matches(r, UserDetailRequest(env.newId, user.name, user.email))
  {
    User(env.newId, user.password, user.name, user.email, env.now, env.now)
  }

  /** INSERT ... RETURNING id inside a transaction. A statement that violates a
      uniqueness constraint fails like any other statement failure, and every
      failure rolls the transaction back. */
  function InsertUser(t: Table, user: RegisterUser, env: InsertEnv): (out: Inserted)
    ensures out.result.Ok? <==> (!env.beginFails && !env.statementFails && !env.commitFails
                                 && !NameTaken(t, user.name) && !IdTaken(t, env.newId))
    ensures out.result.Ok? ==> out.result.value == env.newId && out.table == t + [NewRow(user, env)]
    ensures out.result.Err? ==> out.table == t
    ensures env.beginFails ==> out.result == Err(Fault(Conflict, BeginFailedMessage))
    ensures out.result.Err? && !env.beginFails ==> out.result.fault.kind == Unprocessable
    ensures Valid(t) ==> Valid(out.table)
  {
    if env.beginFails then
      Inserted(Err(Fault(Conflict, BeginFailedMessage)), t)
    else if env.statementFails || NameTaken(t, user.name) || IdTaken(t, env.newId) then
      Inserted(Err(Fault(Unprocessable, InsertFailedMessage)), t)
    else if env.commitFails then
      Inserted(Err(Fault(Unprocessable, CommitFailedMessage)), t)
    else
      Inserted(Ok(env.newId), t + [NewRow(user, env)])
  }

  // ---------------------------------------------------------------------------
  // GetUserDetail: the WHERE clause and its arguments
  // ---------------------------------------------------------------------------

  datatype Column = IdColumn | NameColumn | EmailColumn {
    /** The column's name in the users table. */
    function Name(): string
    {
      match this
      case IdColumn => "id"
      case NameColumn => "name"
      case EmailColumn => "email"
    }

    /** The position of the column's condition among the others. */
    function Rank(): nat
    {
      match this
      case IdColumn => 0
      case NameColumn => 1
      case EmailColumn => 2
    }
  }

  /** A query argument. */
  datatype Arg = IdArg(id: Uuid) | TextArg(text: string)

  /** `column = $placeholder`. */
  datatype Condition = Condition(column: Column, placeholder: nat)

  /** The conditions and arguments built so far, and the next placeholder number. */
  datatype Filter = Filter(conditions: seq<Condition>, args: seq<Arg>, argPos: nat)

  /** The argument a request gives for a column, or None when the request leaves
      that column out (the nil id, an empty name, an empty email). */
  function Given(req: UserDetailRequest, column: Column): Option<Arg>
  {
    match column
    case IdColumn => if req.userId != NilUuid then Some(IdArg(req.userId)) else None
    case NameColumn => if req.name != "" then Some(TextArg(req.name)) else None
    case EmailColumn => if req.email != "" then Some(TextArg(req.email)) else None
  }

  /** Whether the request gives at least one filter field. */
  predicate AnyGiven(req: UserDetailRequest)
  {
    req.userId != NilUuid || req.name != "" || req.email != ""
  }

  /** One condition appended, bound to the next placeholder. */
  function Append(f: Filter, column: Column, arg: Arg): Filter
  {
    Filter(f.conditions + [Condition(column, f.argPos)], f.args + [arg], f.argPos + 1)
  }

  /** The conditions and arguments of a lookup: one per given field, in the order
      id, name, email, numbered from $1 (see BuildFilterBinds, BuildFilterOrdered
      and BuildFilterCovers). */
  function BuildFilter(req: UserDetailRequest): (f: Filter)
    ensures |f.args| == |f.conditions| <= 3 && f.argPos == |f.conditions| + 1
    ensures |f.conditions| == 0 <==> !AnyGiven(req)
  {
    var f0 := Filter([], [], 1);
    var f1 := if req.userId != NilUuid then Append(f0, IdColumn, IdArg(req.userId)) else f0;
    var f2 := if req.name != "" then Append(f1, NameColumn, TextArg(req.name)) else f1;
    if req.email != "" then Append(f2, EmailColumn, TextArg(req.email)) else f2
  }

  /** Condition i uses placeholder $(i+1), and argument i is the value the request
      gives for that condition's column. */
  lemma BuildFilterBinds(req: UserDetailRequest)
    ensures var f := BuildFilter(req);
      forall i :: 0 <= i < |f.conditions| ==>
        f.conditions[i].placeholder == i + 1 && Given(req, f.conditions[i].column) == Some(f.args[i])
  {
  }

  /** The conditions follow the fixed column order id, name, email. */
  lemma BuildFilterOrdered(req: UserDetailRequest)
    ensures var f := BuildFilter(req);
      forall i, j :: 0 <= i < j < |f.conditions| ==> f.conditions[i].column.Rank() < f.conditions[j].column.Rank()
  {
  }

  /** Every column the request gives has a condition. */
  lemma BuildFilterCovers(req: UserDetailRequest, c: Column)
    requires Given(req, c).Some?
    ensures exists i :: 0 <= i < |BuildFilter(req).conditions| && BuildFilter(req).conditions[i].column == c
  {
    var f := BuildFilter(req);
    var f1 := if req.userId != NilUuid then Append(Filter([], [], 1), IdColumn, IdArg(req.userId)) else Filter([], [], 1);
    var f2 := if req.name != "" then Append(f1, NameColumn, TextArg(req.name)) else f1;
    match c
    case IdColumn => assert f.conditions[0].column == IdColumn;
    case NameColumn => assert f.conditions[|f2.conditions| - 1].column == NameColumn;
    case EmailColumn => assert f.conditions[|f.conditions| - 1].column == EmailColumn;
  }

  const NoFilterMessage: string := "at least one filter (user_id, name, or email) must be provided"
  const LookupFailedMessage: string := "failed to get user detail"
  const NotFoundMessage: string := "user not found based on provided filters"

  const SelectUser: string := "SELECT id, password, name, email, created_at, updated_at FROM users WHERE "

  /** `column = $n`: the column name, then the placeholder in decimal, which
      reads back as the placeholder number. */
  function ConditionText(c: Condition): (r: string)
    ensures c.column.Name() + " = $" <= r
    ensures forall i :: |c.column.Name()| + 4 <= i < |r| ==> '0' <= r[i] <= '9'
    ensures ParseDecimal(r[|c.column.Name()| + 4..]) == c.placeholder
  {
    var r := c.column.Name() + " = $" + Decimal(c.placeholder);
    DecimalRoundTrip(c.placeholder);
    assert r[|c.column.Name()| + 4..] == Decimal(c.placeholder);
    r
  }

  function ConditionTexts(cs: seq<Condition>): (texts: seq<string>)
    ensures |texts| == |cs|
    ensures forall i :: 0 <= i < |cs| ==> texts[i] == ConditionText(cs[i])
  {
    if |cs| == 0 then [] else [ConditionText(cs[0])] + ConditionTexts(cs[1..])
  }

  /** The query text of a lookup, or BadRequest when no field is given. */
  function DetailQuery(req: UserDetailRequest): (r: Result<string>)
    ensures r.Err? <==> !AnyGiven(req)
    ensures r.Err? ==> r.fault == Fault(BadRequest, NoFilterMessage)
    ensures r.Ok? ==> SelectUser <= r.value
  {
    var f := BuildFilter(req);
    if |f.conditions| == 0 then
      Err(Fault(BadRequest, NoFilterMessage))
    else
      Ok(SelectUser + Join(ConditionTexts(f.conditions), " AND "))
  }

  /** The query text of a lookup by id alone. */
  lemma DetailQueryById(id: Uuid)
    requires id != NilUuid
    ensures DetailQuery(ById(id)) == Ok(SelectUser + "id = $1")
  {
    assert BuildFilter(ById(id)).conditions == [Condition(IdColumn, 1)];
    assert ConditionText(Condition(IdColumn, 1)) == "id = $1" by {
      assert Decimal(1) == "1";
    }
    assert ConditionTexts([Condition(IdColumn, 1)]) == ["id = $1"];
  }

  /** The query text of a lookup by email alone. */
  lemma DetailQueryByEmail(email: string)
    requires email != ""
    ensures DetailQuery(ByEmail(email)) == Ok(SelectUser + "email = $1")
  {
    assert BuildFilter(ByEmail(email)).conditions == [Condition(EmailColumn, 1)];
    assert ConditionText(Condition(EmailColumn, 1)) == "email = $1" by {
      assert Decimal(1) == "1";
    }
    assert ConditionTexts([Condition(EmailColumn, 1)]) == ["email = $1"];
  }

  /** The query text when all three fields are given: conditions in the order
      id, name, email, joined by AND, placeholders $1 to $3. */
  lemma DetailQueryAllFields(id: Uuid, name: string, email: string)
    requires id != NilUuid && name != "" && email != ""
    ensures DetailQuery(UserDetailRequest(id, name, email))
         == Ok(SelectUser + "id = $1 AND name = $2 AND email = $3")
  {
    var cs := [Condition(IdColumn, 1), Condition(NameColumn, 2), Condition(EmailColumn, 3)];
    assert BuildFilter(UserDetailRequest(id, name, email)).conditions == cs;
    FullFilterClause();
  }

  /** The WHERE clause of a full request: its conditions rendered, then joined. */
  lemma FullFilterClause()
    ensures Join(ConditionTexts([Condition(IdColumn, 1), Condition(NameColumn, 2), Condition(EmailColumn, 3)]), " AND ")
         == "id = $1 AND name = $2 AND email = $3"
  {
    FullFilterConditionTexts();
    FullFilterJoin();
  }

  /** Each condition of a full request rendered as `column = $n`. */
  lemma FullFilterConditionTexts()
    ensures ConditionTexts([Condition(IdColumn, 1), Condition(NameColumn, 2), Condition(EmailColumn, 3)])
         == ["id = $1", "name = $2", "email = $3"]
  {
    var cs := [Condition(IdColumn, 1), Condition(NameColumn, 2), Condition(EmailColumn, 3)];
    SingleDigitCondition(cs[0], "id = $1");
    SingleDigitCondition(cs[1], "name = $2");
    SingleDigitCondition(cs[2], "email = $3");
  }

  /** A condition whose placeholder is a single digit renders as its name,
      ` = $` and that digit. */
  lemma SingleDigitCondition(c: Condition, text: string)
    requires 1 <= c.placeholder <= 9
    requires text == c.column.Name() + " = $" + [Digit(c.placeholder)]
    ensures ConditionText(c) == text
  {
    assert Decimal(c.placeholder) == [Digit(c.placeholder)];
  }

  /** The three rendered conditions joined with AND. */
  lemma FullFilterJoin()
    ensures Join(["id = $1", "name = $2", "email = $3"], " AND ") == "id = $1 AND name = $2 AND email = $3"
  {
    var texts := ["id = $1", "name = $2", "email = $3"];
    assert texts[1..] == ["name = $2", "email = $3"];
    assert texts[1..][1..] == ["email = $3"];
  }

  // ---------------------------------------------------------------------------
  // GetUserDetail: evaluating the query
  // ---------------------------------------------------------------------------

  /** SQL meaning of one condition for a row: `$k` stands for the k-th argument. */
  predicate Holds(u: User, c: Condition, args: seq<Arg>)
  {
    && 1 <= c.placeholder <= |args|
    && match c.column
       case IdColumn => args[c.placeholder - 1] == IdArg(u.id)
       case NameColumn => args[c.placeholder - 1] == TextArg(u.name)
       case EmailColumn => args[c.placeholder - 1] == TextArg(u.email)
  }

  /** A row satisfies the conjunction of a filter's conditions. */
  predicate Satisfies(u: User, f: Filter)
  {
    forall i :: 0 <= i < |f.conditions| ==> Holds(u, f.conditions[i], f.args)
  }

  /** What a lookup request means for a row: every given field equals the row's. */
  predicate Matches(u: User, req: UserDetailRequest)
  {
    && (req.userId != NilUuid ==> u.id == req.userId)
    && (req.name != "" ==> u.name == req.name)
    && (req.email != "" ==> u.email == req.email)
  }

  /** The built WHERE clause selects exactly the rows the request means. */
  lemma FilterSelectsMatches(u: User, req: UserDetailRequest)
    ensures Satisfies(u, BuildFilter(req)) <==> Matches(u, req)
  {
    if Satisfies(u, BuildFilter(req)) {
      SatisfiedColumn(u, req, IdColumn);
      SatisfiedColumn(u, req, NameColumn);
      SatisfiedColumn(u, req, EmailColumn);
    }
    if Matches(u, req) {
      MatchSatisfies(u, req);
    }
  }

  /** The field of a row a column compares, as an argument. */
  function FieldArg(u: User, c: Column): Arg
  {
    match c
    case IdColumn => IdArg(u.id)
    case NameColumn => TextArg(u.name)
    case EmailColumn => TextArg(u.email)
  }

  /** A row satisfying the filter agrees with the request on each given column. */
  lemma SatisfiedColumn(u: User, req: UserDetailRequest, c: Column)
    requires Satisfies(u, BuildFilter(req))
    ensures Given(req, c).Some? ==> Given(req, c) == Some(FieldArg(u, c))
  {
    if Given(req, c).Some? {
      var f := BuildFilter(req);
      BuildFilterCovers(req, c);
      BuildFilterBinds(req);
      var i :| 0 <= i < |f.conditions| && f.conditions[i].column == c;
      assert Holds(u, f.conditions[i], f.args);
    }
  }

  /** A row that matches the request satisfies every condition of its filter. */
  lemma MatchSatisfies(u: User, req: UserDetailRequest)
    requires Matches(u, req)
    ensures Satisfies(u, BuildFilter(req))
  {
    var f := BuildFilter(req);
    BuildFilterBinds(req);
    forall i | 0 <= i < |f.conditions|
      ensures Holds(u, f.conditions[i], f.args)
    {
      assert Given(req, f.conditions[i].column) == Some(f.args[i]);
    }
  }

  /** Some row matches the request. */
  predicate SomeMatch(t: Table, req: UserDetailRequest)
  {
    exists i :: 0 <= i < |t| && Matches(t[i], req)
  }

  /** `u` is the first row of the table that matches the request. */
  predicate IsFirstMatch(t: Table, req: UserDetailRequest, u: User)
  {
    exists i :: 0 <= i < |t| && t[i] == u && Matches(t[i], req) && forall j :: 0 <= j < i ==> !Matches(t[j], req)
  }

  /** The index of the first row satisfying a filter. */
  function FirstMatch(t: Table, f: Filter): (r: Option<nat>)
    ensures r.Some? ==> r.value < |t| && Satisfies(t[r.value], f)
    ensures r.Some? ==> forall j :: 0 <= j < r.value ==> !Satisfies(t[j], f)
    ensures r.None? ==> forall j :: 0 <= j < |t| ==> !Satisfies(t[j], f)
  {
    if |t| == 0 then None
    else if Satisfies(t[0], f) then Some(0)
    else
      match FirstMatch(t[1..], f)
      case None => None
      case Some(k) => Some(k + 1)
  }

  /** SELECT ... WHERE <filter>, single row. BadRequest without querying when no
      field is given; InternalServer when the query fails; NotFound when no row
      matches; otherwise the first matching row. */
  function GetUserDetail(t: Table, req: UserDetailRequest, queryFails: bool): (r: Result<User>)
    ensures !AnyGiven(req) <==> r == Err(Fault(BadRequest, NoFilterMessage))
    ensures AnyGiven(req) && queryFails ==> r == Err(Fault(InternalServer, LookupFailedMessage))
    ensures AnyGiven(req) && !queryFails ==> (r.Ok? <==> SomeMatch(t, req))
    ensures AnyGiven(req) && !queryFails && r.Err? ==> r.fault == Fault(NotFound, NotFoundMessage)
    ensures r.Ok? ==> IsFirstMatch(t, req, r.value)
  {
    var f := BuildFilter(req);
    if |f.conditions| == 0 then
      Err(Fault(BadRequest, NoFilterMessage))
    else if queryFails then
      Err(Fault(InternalServer, LookupFailedMessage))
    else
      var m := FirstMatch(t, f);
      forall j | 0 <= j < |t| {
        FilterSelectsMatches(t[j], req);
      }
      match m
      case None => Err(Fault(NotFound, NotFoundMessage))
      case Some(i) => Ok(t[i])
  }

  /** In a valid table a lookup by a row's id finds that row. */
  lemma LookupById(t: Table, i: nat)
    requires Valid(t) && i < |t| && t[i].id != NilUuid
    ensures GetUserDetail(t, ById(t[i].id), false) == Ok(t[i])
  {
    var r := GetUserDetail(t, ById(t[i].id), false);
    assert Matches(t[i], ById(t[i].id));
    var k :| 0 <= k < |t| && t[k] == r.value && Matches(t[k], ById(t[i].id));
    assert k == i;
  }

  // ---------------------------------------------------------------------------
  // UserExistsByName
  // ---------------------------------------------------------------------------

  function CountFailedMessage(name: string): string
  {
    "failed to count users by name '" + name + "'"
  }

  /** SELECT COUNT(*) FROM users WHERE name = $1. */
  function CountByName(t: Table, name: string): (n: nat)
    ensures n <= |t|
  {
    if |t| == 0 then 0
    else (if t[0].name == name then 1 else 0) + CountByName(t[1..], name)
  }

  /** Appending a row adds one to the count of its name and nothing to any other. */
  lemma {:induction false} CountAppend(t: Table, u: User, name: string)
    ensures CountByName(t + [u], name) == CountByName(t, name) + (if u.name == name then 1 else 0)
    decreases |t|
  {
    if |t| > 0 {
      assert (t + [u])[1..] == t[1..] + [u];
      CountAppend(t[1..], u, name);
    }
  }

  /** The count is positive exactly when some row has the name. */
  lemma {:induction false} CountPositiveIffTaken(t: Table, name: string)
    ensures CountByName(t, name) > 0 <==> NameTaken(t, name)
  {
    if |t| > 0 {
      CountPositiveIffTaken(t[1..], name);
      if NameTaken(t[1..], name) {
        var i :| 0 <= i < |t[1..]| && t[1..][i].name == name;
        assert t[i + 1].name == name;
      }
      if NameTaken(t, name) && t[0].name != name {
        var i :| 0 <= i < |t| && t[i].name == name;
        assert t[1..][i - 1].name == name;
      }
    }
  }

  /** Whether a user with the name exists; InternalServer when the count fails. */
  function UserExistsByName(t: Table, name: string, countFails: bool): (r: Result<bool>)
    ensures r.Err? <==> countFails
    ensures r.Err? ==> r.fault == Fault(InternalServer, CountFailedMessage(name))
    ensures r.Ok? ==> (r.value <==> NameTaken(t, name))
  {
    if countFails then Err(Fault(InternalServer, CountFailedMessage(name)))
    else
      CountPositiveIffTaken(t, name);
      Ok(CountByName(t, name) > 0)
  }

  /** The row an insert writes is what a lookup of the returned id finds. */
  lemma InsertThenLookup(t: Table, user: RegisterUser, env: InsertEnv)
    requires Valid(t) && env.newId != NilUuid
    requires InsertUser(t, user, env).result.Ok?
    ensures GetUserDetail(InsertUser(t, user, env).table, ById(env.newId), false) == Ok(NewRow(user, env))
  {
    var t' := InsertUser(t, user, env).table;
    assert t'[|t|] == NewRow(user, env);
    LookupById(t', |t|);
  }
}
