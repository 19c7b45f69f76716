/** The user store operations of server/models/User.ts that carry logic.

    The `users` table is a map from row id to row plus the next row id. Each
    statement becomes a function from the table before to the table after; the
    profile update's SET clause is built by a method that pushes clauses and
    parameters one field at a time, as the source does. */
module UserModel {
  import opened Js

  /** The columns of a `users` row that these operations read or write. */
  datatype UserRow = UserRow(
    email: string,
    password: string,
    name: Option<string>,
    avatar: Option<string>,
    isPremium: int,
    height: Option<real>,
    weight: Option<real>,
    gender: Option<string>,
    resetToken: Option<string>,
    resetTokenExpires: Option<int>)

  datatype Users = Users(rows: map<int, UserRow>, nextId: int)

  /** The AUTOINCREMENT invariant: every row id is below the next id, so the next
      insert can never reuse one. */
  predicate Fresh(db: Users)
  {
    forall id :: id in db.rows ==> id < db.nextId
  }

  datatype CreateResult = EmailTaken | Created(id: int)

  /** `create`: a new row with premium set, unless the UNIQUE email constraint rejects
      the insert. */
  function Create(db: Users, email: string, passwordHash: string): (r: (Users, CreateResult))
    requires Fresh(db)
    ensures Fresh(r.0)
    ensures db.nextId !in db.rows
    ensures forall id :: id in db.rows ==> id in r.0.rows && r.0.rows[id] == db.rows[id]
    ensures (exists id :: id in db.rows && db.rows[id].email == email) <==> r.1 == EmailTaken
    ensures r.1 == EmailTaken ==> r.0 == db
    ensures r.1.Created? ==>
              r.1.id == db.nextId && r.0.nextId == db.nextId + 1 &&
              r.0.rows == db.rows[db.nextId := UserRow(email, passwordHash, None, None, 1, None, None, None, None, None)]
    ensures r.1.Created? ==> r.0.rows[r.1.id].isPremium == 1
  {
    if exists id :: id in db.rows && db.rows[id].email == email then (db, EmailTaken)
    else
      var row := UserRow(email, passwordHash, None, None, 1, None, None, None, None, None);
      (Users(db.rows[db.nextId := row], db.nextId + 1), Created(db.nextId))
  }

  const DefaultResetWindow := 3600000

  /** `setResetToken`: the token expires `expiresIn` ms (one hour when omitted) after
      `now`; an unknown id updates nothing. */
  function SetResetToken(db: Users, userId: int, token: string, now: int, expiresIn: Option<int>): (after: Users)
    ensures userId !in db.rows ==> after == db
    ensures userId in db.rows ==>
              after.nextId == db.nextId && after.rows.Keys == db.rows.Keys &&
              after.rows[userId] == db.rows[userId].(resetToken := Some(token),
                                                      resetTokenExpires := Some(now + expiresIn.GetOr(DefaultResetWindow)))
    ensures forall id :: id in db.rows && id != userId ==> after.rows[id] == db.rows[id]
    ensures Fresh(db) ==> Fresh(after)
  {
    if userId !in db.rows then db
    else
      var expires := now + expiresIn.GetOr(DefaultResetWindow);
      db.(rows := db.rows[userId := db.rows[userId].(resetToken := Some(token), resetTokenExpires := Some(expires))])
  }

  /** The reset-token condition of `findByResetToken`. */
  predicate TokenMatches(row: UserRow, token: string, now: int)
  {
    row.resetToken == Some(token) && row.resetTokenExpires.Some? && row.resetTokenExpires.value > now
  }

  /** `findByResetToken`: some row whose token is `token` and whose expiry is still
      ahead of `now`, or none when there is no such row. */
  method FindByResetToken(db: Users, token: string, now: int) returns (found: Option<int>)
    ensures found.Some? ==> found.value in db.rows && TokenMatches(db.rows[found.value], token, now)
    ensures found.None? ==> forall id :: id in db.rows ==> !TokenMatches(db.rows[id], token, now)
  {
    if exists id :: id in db.rows && TokenMatches(db.rows[id], token, now) {
      var id :| id in db.rows && TokenMatches(db.rows[id], token, now);
      found := Some(id);
    } else {
      found := None;
    }
  }

  /** A freshly set token is found until exactly `expiresIn` ms have passed. */
  lemma ResetTokenWindow(db: Users, userId: int, token: string, setAt: int, expiresIn: Option<int>, now: int)
    requires userId in db.rows
    ensures TokenMatches(SetResetToken(db, userId, token, setAt, expiresIn).rows[userId], token, now) <==>
              now < setAt + expiresIn.GetOr(DefaultResetWindow)
  {
  }

  /** `updatePassword`: the new hash is stored and the reset token and its expiry are
      cleared, so the old token no longer matches. */
  function UpdatePassword(db: Users, userId: int, hashedPassword: string): (after: Users)
    ensures userId !in db.rows ==> after == db
    ensures userId in db.rows ==>
              after.nextId == db.nextId && after.rows.Keys == db.rows.Keys &&
              after.rows[userId] == db.rows[userId].(password := hashedPassword, resetToken := None, resetTokenExpires := None)
    ensures userId in db.rows ==> forall token, now :: !TokenMatches(after.rows[userId], token, now)
    ensures forall id :: id in db.rows && id != userId ==> after.rows[id] == db.rows[id]
    ensures Fresh(db) ==> Fresh(after)
  {
    if userId !in db.rows then db
    else db.(rows := db.rows[userId := db.rows[userId].(password := hashedPassword, resetToken := None, resetTokenExpires := None)])
  }

  /** The optional fields of `updateProfile`; `None` is `undefined`. */
  datatype ProfileFields = ProfileFields(
    height: Option<real>,
    weight: Option<real>,
    gender: Option<string>,
    name: Option<string>,
    avatar: Option<string>)

  datatype Param = Num(x: real) | Text(s: string) | RowId(id: int)

  /** One `column = ?` clause with its parameter. */
  datatype Assignment = Assignment(column: string, value: Param)

  /** The statement `updateProfile` runs: its clauses and parameters in order. */
  datatype ProfileUpdate = ProfileUpdate(clauses: seq<string>, params: seq<Param>)

  /** The assignment for one field: none when the field is undefined. */
  function Part(column: string, value: Option<Param>): (a: seq<Assignment>)
    ensures |a| <= 1 && (|a| == 0 <==> value.None?)
    ensures |a| == 1 ==> a[0] == Assignment(column, value.value)
  {
    if value.Some? then [Assignment(column, value.value)] else []
  }

  function NumParam(x: Option<real>): (p: Option<Param>)
    ensures p.None? <==> x.None?
  {
    if x.Some? then Some(Num(x.value)) else None
  }

  function TextParam(s: Option<string>): (p: Option<Param>)
    ensures p.None? <==> s.None?
  {
    if s.Some? then Some(Text(s.value)) else None
  }

  /** The assignments for the defined fields, in the order height, weight, gender,
      name, avatar. */
  function Assignments(fields: ProfileFields): (a: seq<Assignment>)
    ensures |a| <= 5
    ensures |a| == 0 <==>
              fields.height.None? && fields.weight.None? && fields.gender.None? && fields.name.None? && fields.avatar.None?
  {
    Part("height", NumParam(fields.height)) + Part("weight", NumParam(fields.weight)) +
    Part("gender", TextParam(fields.gender)) + Part("name", TextParam(fields.name)) +
    Part("avatar", TextParam(fields.avatar))
  }

  /** The `column = ?` texts of a list of assignments. */
  function ClausesOf(a: seq<Assignment>): (c: seq<string>)
    ensures |c| == |a| && forall i :: 0 <= i < |a| ==> c[i] == a[i].column + " = ?"
  {
    seq(|a|, i requires 0 <= i < |a| => a[i].column + " = ?")
  }

  /** The parameters of a list of assignments. */
  function ParamsOf(a: seq<Assignment>): (p: seq<Param>)
    ensures |p| == |a| && forall i :: 0 <= i < |a| ==> p[i] == a[i].value
  {
    seq(|a|, i requires 0 <= i < |a| => a[i].value)
  }

  /** One field's step of the builder: when the field is defined, its clause and its
      parameter are appended. */
  method PushIfDefined(updates: seq<string>, params: seq<Param>, ghost done: seq<Assignment>, column: string, value: Option<Param>)
    returns (updates': seq<string>, params': seq<Param>)
    requires updates == ClausesOf(done) && params == ParamsOf(done)
    ensures updates' == ClausesOf(done + Part(column, value)) && params' == ParamsOf(done + Part(column, value))
  {
    updates', params' := updates, params;
    if value.Some? {
      updates' := updates + [column + " = ?"];
      params' := params + [value.value];
    }
  }

  /** `updateProfile`'s builder: one clause and one parameter pushed per defined field,
      then the user id; no statement at all when no field is defined. */
  method BuildProfileUpdate(userId: int, fields: ProfileFields) returns (r: Option<ProfileUpdate>)
    ensures r.None? <==> |Assignments(fields)| == 0
    ensures r.Some? ==>
              var a := Assignments(fields);
              |r.value.clauses| == |a| && |r.value.params| == |a| + 1 &&
              (forall i :: 0 <= i < |a| ==> r.value.clauses[i] == a[i].column + " = ?" && r.value.params[i] == a[i].value) &&
              r.value.params[|a|] == RowId(userId)
  {
    var updates: seq<string> := [];
    var params: seq<Param> := [];
    ghost var done: seq<Assignment> := [];
    updates, params := PushIfDefined(updates, params, done, "height", NumParam(fields.height));
    done := done + Part("height", NumParam(fields.height));
    updates, params := PushIfDefined(updates, params, done, "weight", NumParam(fields.weight));
    done := done + Part("weight", NumParam(fields.weight));
    updates, params := PushIfDefined(updates, params, done, "gender", TextParam(fields.gender));
    done := done + Part("gender", TextParam(fields.gender));
    updates, params := PushIfDefined(updates, params, done, "name", TextParam(fields.name));
    done := done + Part("name", TextParam(fields.name));
    updates, params := PushIfDefined(updates, params, done, "avatar", TextParam(fields.avatar));
    done := done + Part("avatar", TextParam(fields.avatar));
    assert done == Assignments(fields);

    if |updates| == 0 {
      return None;
    }
    params := params + [RowId(userId)];
    r := Some(ProfileUpdate(updates, params));
  }

  /** What one `column = ?` assignment does to a row. */
  function Assign(row: UserRow, a: Assignment): UserRow
  {
    match a.value
    case Num(x) =>
      if a.column == "height" then row.(height := Some(x))
      else if a.column == "weight" then row.(weight := Some(x))
      else row
    case Text(s) =>
      if a.column == "gender" then row.(gender := Some(s))
      else if a.column == "name" then row.(name := Some(s))
      else if a.column == "avatar" then row.(avatar := Some(s))
      else row
    case RowId(_) => row
  }

  /** The assignments applied left to right. */
  function AssignAll(row: UserRow, a: seq<Assignment>): UserRow
    decreases |a|
  {
    if |a| == 0 then row else AssignAll(Assign(row, a[0]), a[1..])
  }

  /** The intended effect of a profile update on a row: each defined field is
      overwritten, everything else is untouched. */
  function WithProfile(row: UserRow, fields: ProfileFields): (after: UserRow)
    ensures after.email == row.email && after.password == row.password && after.isPremium == row.isPremium
    ensures after.resetToken == row.resetToken && after.resetTokenExpires == row.resetTokenExpires
  {
    row.(height := if fields.height.Some? then fields.height else row.height,
         weight := if fields.weight.Some? then fields.weight else row.weight,
         gender := if fields.gender.Some? then fields.gender else row.gender,
         name := if fields.name.Some? then fields.name else row.name,
         avatar := if fields.avatar.Some? then fields.avatar else row.avatar)
  }

  lemma {:induction false} AssignAllAppend(row: UserRow, a: seq<Assignment>, b: seq<Assignment>)
    ensures AssignAll(row, a + b) == AssignAll(AssignAll(row, a), b)
    decreases |a|
  {
    if |a| == 0 {
      assert a + b == b;
    } else {
      assert (a + b)[1..] == a[1..] + b;
      AssignAllAppend(Assign(row, a[0]), a[1..], b);
    }
  }

  /** Applying one optional part. */
  lemma AssignPart(row: UserRow, column: string, value: Option<Param>)
    ensures AssignAll(row, Part(column, value)) == if value.Some? then Assign(row, Assignment(column, value.value)) else row
  {
    if value.Some? {
      assert Part(column, value)[1..] == [];
    }
  }

  /** Running the built statement on a row has exactly the intended effect. */
  lemma AssignmentsImplementProfile(row: UserRow, fields: ProfileFields)
    ensures AssignAll(row, Assignments(fields)) == WithProfile(row, fields)
  {
    var h := Part("height", NumParam(fields.height));
    var w := Part("weight", NumParam(fields.weight));
    var g := Part("gender", TextParam(fields.gender));
    var n := Part("name", TextParam(fields.name));
    var v := Part("avatar", TextParam(fields.avatar));
    AssignAllAppend(row, h + w + g + n, v);
    AssignAllAppend(row, h + w + g, n);
    AssignAllAppend(row, h + w, g);
    AssignAllAppend(row, h, w);
    var r1 := AssignAll(row, h);
    AssignPart(row, "height", NumParam(fields.height));
    assert r1 == row.(height := if fields.height.Some? then fields.height else row.height);
    var r2 := AssignAll(r1, w);
    AssignPart(r1, "weight", NumParam(fields.weight));
    assert r2 == r1.(weight := if fields.weight.Some? then fields.weight else r1.weight);
    var r3 := AssignAll(r2, g);
    AssignPart(r2, "gender", TextParam(fields.gender));
    assert r3 == r2.(gender := if fields.gender.Some? then fields.gender else r2.gender);
    var r4 := AssignAll(r3, n);
    AssignPart(r3, "name", TextParam(fields.name));
    assert r4 == r3.(name := if fields.name.Some? then fields.name else r3.name);
    AssignPart(r4, "avatar", TextParam(fields.avatar));
  }

  /** `updateProfile` on the table: no statement when no field is defined, otherwise
      the user's row, if there is one, gets the defined fields. */
  function UpdateProfile(db: Users, userId: int, fields: ProfileFields): (after: Users)
    ensures |Assignments(fields)| == 0 || userId !in db.rows ==> after == db
    ensures userId in db.rows ==>
              after.nextId == db.nextId && after.rows.Keys == db.rows.Keys &&
              after.rows[userId] == WithProfile(db.rows[userId], fields)
    ensures forall id :: id in db.rows && id != userId ==> after.rows[id] == db.rows[id]
    ensures Fresh(db) ==> Fresh(after)
  {
    if |Assignments(fields)| == 0 || userId !in db.rows then db
    else
      AssignmentsImplementProfile(db.rows[userId], fields);
      db.(rows := db.rows[userId := AssignAll(db.rows[userId], Assignments(fields))])
  }
}
