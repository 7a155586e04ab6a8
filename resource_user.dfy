/** The Duo user resource: status validation, Create/Update parameters,
    and the Create, Read, Update and Delete lifecycle functions. */
module ResourceUser {
  import opened AdminApi
  import opened Terraform

  const Statuses: set<string> := {"active", "bypass", "disabled"}
  const DefaultStatus := "active"

  /** The attributes Create sends only when the configuration sets them. */
  const OptionalAttributes: set<string> :=
    {"realname", "email", "status", "notes", "firstname", "lastname"}

  /** The `status` ValidateFunc: never a warning; no error exactly for the
      three lower-case statuses, otherwise a single error naming the key and
      the rejected value. */
  function ValidateStatus(val: string, key: string): (r: (seq<string>, seq<StatusError>))
    ensures r.0 == []
    ensures r.1 == [] <==> val in Statuses
    ensures r.1 != [] ==> r.1 == [StatusError(key, val)]
  {
    if val != "active" && val != "bypass" && val != "disabled" then
      ([], [StatusError(key, val)])
    else
      ([], [])
  }

  /** The schema default of `status` passes its own validator. */
  lemma DefaultStatusIsValid(key: string)
    ensures ValidateStatus(DefaultStatus, key).1 == []
  {
  }

  /** Create's parameters: `username` always, each optional attribute exactly
      when the configuration sets it, each with its configured value. */
  method CreateValues(d: ResourceData) returns (values: map<string, string>)
    ensures "username" in values
    ensures forall k :: k in values <==> k == "username" || (k in OptionalAttributes && k in d.present)
    ensures forall k :: k in values ==> values[k] == d.Get(k)
  {
    values := map[];
    values := values["username" := d.Get("username")];
    ghost var done: set<string> := {};
    values := SetIfPresent(d, values, done, "realname");
    done := done + {"realname"};
    values := SetIfPresent(d, values, done, "email");
    done := done + {"email"};
    values := SetIfPresent(d, values, done, "status");
    done := done + {"status"};
    values := SetIfPresent(d, values, done, "notes");
    done := done + {"notes"};
    values := SetIfPresent(d, values, done, "firstname");
    done := done + {"firstname"};
    values := SetIfPresent(d, values, done, "lastname");
    done := done + {"lastname"};
    assert done == OptionalAttributes;
  }

  /** After the optional attributes in `done` have been considered, `values`
      holds `username` and exactly the configured ones among them, each with
      its value. */
  ghost predicate Sent(d: ResourceData, values: map<string, string>, done: set<string>)
    reads d
  {
    && (forall k :: k in values <==> k == "username" || (k in done && k in d.present))
    && (forall k :: k in values ==> values[k] == d.Get(k))
  }

  /** One `if v, ok := d.GetOk(key); ok { values.Set(key, v) }` step. */
  method SetIfPresent(d: ResourceData, values: map<string, string>, ghost done: set<string>, key: string)
    returns (r: map<string, string>)
    requires key != "username"
    requires Sent(d, values, done)
    ensures Sent(d, r, done + {key})
  {
    r := values;
    var (v, ok) := d.GetOk(key);
    if ok {
      r := r[key := v];
    }
  }

  /** The effect of Read on a handle with the given schema: an OK reply
      overwrites those of the seven user attributes the schema declares and
      keeps the id; "Resource not found" clears the id without an error;
      anything else is an error that changes nothing. */
  function ReadOutcome(before: State, schema: set<string>, reply: Reply<User>): (r: (State, Diag))
    ensures IsOk(reply) ==> r.1 == NoError && r.0.id == before.id
    ensures IsOk(reply) ==> r.0.fields.Keys == before.fields.Keys + UserAttributeNames * schema
    ensures IsOk(reply) ==> forall k :: k in r.0.fields ==>
      r.0.fields[k] ==
        if k in UserAttributeNames && k in schema then UserAttributes(reply.env.response)[k]
        else before.fields[k]
    ensures IsNotFound(reply) ==> r == (State("", before.fields), NoError)
    ensures !IsOk(reply) && !IsNotFound(reply) ==> r.0 == before && r.1 == StatusDiag(reply) && r.1 != NoError
  {
    if IsOk(reply) then
      (State(before.id, before.fields + Declared(UserAttributes(reply.env.response), schema)), NoError)
    else if IsNotFound(reply) then
      (State("", before.fields), NoError)
    else
      (before, StatusDiag(reply))
  }

  method Read(d: ResourceData, reply: Reply<User>) returns (diag: Diag, calls: seq<Call>)
    modifies d
    ensures calls == [GetUser(old(d.id))]
    ensures (d.View(), diag) == ReadOutcome(old(d.View()), d.schema, reply)
  {
    var userId := d.Id();
    calls := [GetUser(userId)];
    if reply.CallFailed? || reply.Undecodable? {
      return StatusDiag(reply), calls;
    }
    var env := reply.env;
    if env.stat != Ok {
      if env.message.None? {
        return Panic(NilMessage), calls;
      }
      if env.message.value == NotFound {
        d.SetId("");
        return NoError, calls;
      }
      return Error(Rejected(env.message.value)), calls;
    }
    var user := env.response;
    ghost var before := d.fields;
    d.Set("username", user.username);
    d.Set("realname", user.realName);
    d.Set("email", user.email);
    d.Set("status", user.status);
    d.Set("notes", user.notes);
    d.Set("firstname", user.firstName);
    d.Set("lastname", user.lastName);
    SetEachUserAttribute(before, d.schema, user);
    diag := NoError;
  }

  /** Create posts the parameters; on an OK reply it adopts the remote user id
      and then reads the user back; otherwise the handle is untouched. */
  method Create(d: ResourceData, createReply: Reply<User>, readReply: Reply<User>)
    returns (diag: Diag, calls: seq<Call>)
    modifies d
    ensures |calls| >= 1 && calls[0].Signed? && calls[0].verb == "POST" && calls[0].path == "/admin/v1/users"
    ensures forall k :: k in calls[0].params <==> k == "username" || (k in OptionalAttributes && k in d.present)
    ensures forall k :: k in calls[0].params ==> calls[0].params[k] == old(d.Get(k))
    ensures !IsOk(createReply) ==>
      calls == [calls[0]] && diag == StatusDiag(createReply) && d.View() == old(d.View())
    ensures IsOk(createReply) ==>
      var userId := createReply.env.response.userId;
      calls[1..] == [GetUser(userId)] &&
      (d.View(), diag) == ReadOutcome(State(userId, old(d.fields)), d.schema, readReply)
  {
    var values := CreateValues(d);
    calls := [Signed("POST", "/admin/v1/users", values)];
    if !IsOk(createReply) {
      return StatusDiag(createReply), calls;
    }
    var user := createReply.env.response;
    d.SetId(user.userId);
    var more;
    diag, more := Read(d, readReply);
    calls := calls + more;
  }

  /** Update's parameters: exactly the changed user attributes, each with its
      planned value. */
  method UpdateValues(d: ResourceData) returns (values: map<string, string>)
    ensures forall k :: k in values <==> k in UserAttributeNames && d.HasChange(k)
    ensures forall k :: k in values ==> values[k] == d.Get(k)
  {
    values := map[];
    ghost var done: set<string> := {};
    values := SetIfChanged(d, values, done, "username");
    done := done + {"username"};
    values := SetIfChanged(d, values, done, "realname");
    done := done + {"realname"};
    values := SetIfChanged(d, values, done, "email");
    done := done + {"email"};
    values := SetIfChanged(d, values, done, "status");
    done := done + {"status"};
    values := SetIfChanged(d, values, done, "notes");
    done := done + {"notes"};
    values := SetIfChanged(d, values, done, "firstname");
    done := done + {"firstname"};
    values := SetIfChanged(d, values, done, "lastname");
    done := done + {"lastname"};
    assert done == UserAttributeNames;
  }

  /** After the attributes in `done` have been considered, `values` holds
      exactly the changed ones among them, each with its planned value. */
  ghost predicate SentChanged(d: ResourceData, values: map<string, string>, done: set<string>)
    reads d
  {
    && (forall k :: k in values <==> k in done && d.HasChange(k))
    && (forall k :: k in values ==> values[k] == d.Get(k))
  }

  /** One `if d.HasChange(key) { values.Set(key, d.Get(key)) }` step. */
  method SetIfChanged(d: ResourceData, values: map<string, string>, ghost done: set<string>, key: string)
    returns (r: map<string, string>)
    requires SentChanged(d, values, done)
    ensures SentChanged(d, r, done + {key})
  {
    r := values;
    if d.HasChange(key) {
      r := r[key := d.Get(key)];
    }
  }

  /** Update posts the changed attributes to the user's path; on an OK reply
      it reads the user back; otherwise the handle is untouched. */
  method Update(d: ResourceData, updateReply: Reply<User>, readReply: Reply<User>)
    returns (diag: Diag, calls: seq<Call>)
    modifies d
    ensures |calls| >= 1
    ensures calls[0].Signed? && calls[0].verb == "POST" && calls[0].path == "/admin/v1/users/" + old(d.id)
    ensures forall k :: k in calls[0].params <==> k in UserAttributeNames && k in d.changed
    ensures forall k :: k in calls[0].params ==> calls[0].params[k] == old(d.Get(k))
    ensures !IsOk(updateReply) ==>
      calls == [calls[0]] && diag == StatusDiag(updateReply) && d.View() == old(d.View())
    ensures IsOk(updateReply) ==>
      calls[1..] == [GetUser(old(d.id))] && (d.View(), diag) == ReadOutcome(old(d.View()), d.schema, readReply)
  {
    var userId := d.Id();
    var values := UpdateValues(d);
    calls := [Signed("POST", "/admin/v1/users/" + userId, values)];
    if !IsOk(updateReply) {
      return StatusDiag(updateReply), calls;
    }
    var more;
    diag, more := Read(d, readReply);
    calls := calls + more;
  }

  /** Delete issues a DELETE on the user's path and succeeds exactly when the
      reply's stat is "OK"; it never changes the handle. */
  method Delete(d: ResourceData, reply: Reply<string>) returns (diag: Diag, calls: seq<Call>)
    ensures calls == [Signed("DELETE", "/admin/v1/users/" + d.id, map[])]
    ensures diag == StatusDiag(reply)
    ensures diag == NoError <==> IsOk(reply)
  {
    var userId := d.Id();
    calls := [Signed("DELETE", "/admin/v1/users/" + userId, map[])];
    if reply.CallFailed? {
      return Error(CallError), calls;
    }
    if reply.Undecodable? {
      return Error(DecodeError), calls;
    }
    var env := reply.env;
    if env.stat != Ok {
      if env.message.None? {
        return Panic(NilMessage), calls;
      }
      return Error(Rejected(env.message.value)), calls;
    }
    diag := NoError;
  }
}
