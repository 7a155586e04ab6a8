/** What the provider sends to and receives from the Duo Admin API, and the
    diagnostics a lifecycle function hands back to Terraform. */
module AdminApi {
  import opened Wrappers
  import opened Terraform

  const Ok := "OK"
  const NotFound := "Resource not found"

  /** A decoded JSON reply: the `stat` field, the optional `message` field
      (a pointer in the client library) and the payload. */
  datatype Envelope<T> = Envelope(stat: string, message: Option<string>, response: T)

  /** The outcome of one call: the transport failed, the body did not decode,
      or it decoded to an envelope. */
  datatype Reply<T> = CallFailed | Undecodable | Decoded(env: Envelope<T>)

  /** One request to the remote API: a signed call with its verb, path and
      query parameters, or one of the client library's own lookups. */
  datatype Call =
    | Signed(verb: string, path: string, params: map<string, string>)
    | GetUser(userId: string)
    | GetGroup(groupId: string)

  datatype User = User(
    userId: string, username: string, realName: string, email: string,
    status: string, notes: string, firstName: string, lastName: string)

  datatype Group = Group(groupId: string, name: string, desc: string, status: string)

  /** A ValidateFunc error: the attribute key and the rejected value. */
  datatype StatusError = StatusError(key: string, got: string)

  datatype Cause = CallError | DecodeError | Rejected(message: string)

  /** Go run-time panics the source can reach. */
  datatype PanicReason = IndexOutOfRange | NilMessage

  /** diag.Diagnostics: nil, one error, or a crash of the provider process. */
  datatype Diag = NoError | Error(cause: Cause) | Panic(reason: PanicReason)

  predicate IsOk<T>(reply: Reply<T>)
  {
    reply.Decoded? && reply.env.stat == Ok
  }

  /** A non-OK reply whose message is exactly "Resource not found". */
  predicate IsNotFound<T>(reply: Reply<T>)
  {
    reply.Decoded? && reply.env.stat != Ok && reply.env.message == Some(NotFound)
  }

  /** The diagnostic of the shared check sequence: transport error, decode
      error, then a non-OK stat reported with its message (dereferencing a
      missing message panics). It is clean exactly when the stat is "OK". */
  function StatusDiag<T>(reply: Reply<T>): (diag: Diag)
    ensures diag == NoError <==> IsOk(reply)
    ensures diag.Panic? <==> reply.Decoded? && reply.env.stat != Ok && reply.env.message.None?
    ensures IsNotFound(reply) ==> diag == Error(Rejected(NotFound))
  {
    match reply
    case CallFailed => Error(CallError)
    case Undecodable => Error(DecodeError)
    case Decoded(env) =>
      if env.stat != Ok then
        match env.message
        case None => Panic(NilMessage)
        case Some(m) => Error(Rejected(m))
      else NoError
  }

  /** The seven user attributes of the schema, as Read and the data source
      copy them from a user record. */
  function UserAttributes(u: User): (attrs: map<string, string>)
  {
    map[
      "username" := u.username, "realname" := u.realName, "email" := u.email,
      "status" := u.status, "notes" := u.notes,
      "firstname" := u.firstName, "lastname" := u.lastName]
  }

  const UserAttributeNames: set<string> :=
    {"username", "realname", "email", "status", "notes", "firstname", "lastname"}

  /** Setting the seven attributes one after another gives the same map as
      merging in at once those of them the schema declares. */
  lemma SetEachUserAttribute(f: map<string, string>, schema: set<string>, u: User)
    ensures
      var f1 := Assigned(f, schema, "username", u.username);
      var f2 := Assigned(f1, schema, "realname", u.realName);
      var f3 := Assigned(f2, schema, "email", u.email);
      var f4 := Assigned(f3, schema, "status", u.status);
      var f5 := Assigned(f4, schema, "notes", u.notes);
      var f6 := Assigned(f5, schema, "firstname", u.firstName);
      Assigned(f6, schema, "lastname", u.lastName) == f + Declared(UserAttributes(u), schema)
  {
    var m0: map<string, string> := map[];
    assert f + Declared(m0, schema) == f;
    AssignedAfterDeclared(f, m0, schema, "username", u.username);
    var m1 := m0["username" := u.username];
    AssignedAfterDeclared(f, m1, schema, "realname", u.realName);
    var m2 := m1["realname" := u.realName];
    AssignedAfterDeclared(f, m2, schema, "email", u.email);
    var m3 := m2["email" := u.email];
    AssignedAfterDeclared(f, m3, schema, "status", u.status);
    var m4 := m3["status" := u.status];
    AssignedAfterDeclared(f, m4, schema, "notes", u.notes);
    var m5 := m4["notes" := u.notes];
    AssignedAfterDeclared(f, m5, schema, "firstname", u.firstName);
    var m6 := m5["firstname" := u.firstName];
    AssignedAfterDeclared(f, m6, schema, "lastname", u.lastName);
    assert m6["lastname" := u.lastName] == UserAttributes(u);
  }

  lemma UserAttributesCoverSchema(u: User)
    ensures UserAttributes(u).Keys == UserAttributeNames
  {
  }

  /** The three group attributes of the schema, as Read copies them from a
      group record. */
  function GroupAttributes(g: Group): map<string, string>
  {
    map["name" := g.name, "desc" := g.desc, "status" := g.status]
  }

  const GroupAttributeNames: set<string> := {"name", "desc", "status"}

  /** Setting the three attributes one after another gives the same map as
      merging in at once those of them the schema declares. */
  lemma SetEachGroupAttribute(f: map<string, string>, schema: set<string>, g: Group)
    ensures
      var f1 := Assigned(f, schema, "name", g.name);
      var f2 := Assigned(f1, schema, "desc", g.desc);
      Assigned(f2, schema, "status", g.status) == f + Declared(GroupAttributes(g), schema)
  {
    var m0: map<string, string> := map[];
    assert f + Declared(m0, schema) == f;
    AssignedAfterDeclared(f, m0, schema, "name", g.name);
    var m1 := m0["name" := g.name];
    AssignedAfterDeclared(f, m1, schema, "desc", g.desc);
    var m2 := m1["desc" := g.desc];
    AssignedAfterDeclared(f, m2, schema, "status", g.status);
    assert m2["status" := g.status] == GroupAttributes(g);
  }
}
