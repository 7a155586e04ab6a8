/** The Duo group resource: status validation, Create/Update parameters,
    and the Create, Read, Update and Delete lifecycle functions. */
module ResourceGroup {
  import opened AdminApi
  import opened Terraform
  import ResourceUser

  /** Unlike the user resource, the group statuses are capitalised. */
  const Statuses: set<string> := {"Active", "Bypass", "Disabled"}
  const DefaultStatus := "Active"

  /** The `status` ValidateFunc: never a warning; no error exactly for the
      three capitalised statuses (compared case-sensitively), otherwise a
      single error naming the key and the rejected value. */
  function ValidateStatus(val: string, key: string): (r: (seq<string>, seq<StatusError>))
    ensures r.0 == []
    ensures r.1 == [] <==> val in Statuses
    ensures r.1 != [] ==> r.1 == [StatusError(key, val)]
  {
    if val != "Active" && val != "Bypass" && val != "Disabled" then
      ([], [StatusError(key, val)])
    else
      ([], [])
  }

  lemma DefaultStatusIsValid(key: string)
    ensures ValidateStatus(DefaultStatus, key).1 == []
  {
  }

  /** The two validators accept disjoint sets: each resource's default is
      rejected by the other resource's validator. */
  lemma StatusCaseMismatch(key: string)
    ensures ValidateStatus(ResourceUser.DefaultStatus, key).1 != []
    ensures ResourceUser.ValidateStatus(DefaultStatus, key).1 != []
    ensures Statuses !! ResourceUser.Statuses
  {
  }

  /** Create's parameters: `name` always, `desc` and `status` exactly when the
      configuration sets them, each with its configured value. */
  method CreateValues(d: ResourceData) returns (values: map<string, string>)
    ensures "name" in values
    ensures forall k :: k in values <==> k == "name" || ((k == "desc" || k == "status") && d.GetOk(k).1)
    ensures forall k :: k in values ==> values[k] == d.Get(k)
  {
    values := map[];
    values := values["name" := d.Get("name")];
    var (desc, okDesc) := d.GetOk("desc");
    if okDesc {
      values := values["desc" := desc];
    }
    var (status, okStatus) := d.GetOk("status");
    if okStatus {
      values := values["status" := status];
    }
  }

  /** The effect of Read on a handle with the given schema: an OK reply
      overwrites those of name, desc and status the schema declares and keeps
      the id; "Resource not found" clears the id without an error; anything
      else is an error that changes nothing. */
  function ReadOutcome(before: State, schema: set<string>, reply: Reply<Group>): (r: (State, Diag))
    ensures IsOk(reply) ==> r.1 == NoError && r.0.id == before.id
    ensures IsOk(reply) ==> r.0.fields.Keys == before.fields.Keys + GroupAttributeNames * schema
    ensures IsOk(reply) ==> forall k :: k in r.0.fields ==>
      r.0.fields[k] ==
        if k in GroupAttributeNames && k in schema then GroupAttributes(reply.env.response)[k]
        else before.fields[k]
    ensures IsNotFound(reply) ==> r == (State("", before.fields), NoError)
    ensures !IsOk(reply) && !IsNotFound(reply) ==> r.0 == before && r.1 == StatusDiag(reply) && r.1 != NoError
  {
    if IsOk(reply) then
      (State(before.id, before.fields + Declared(GroupAttributes(reply.env.response), schema)), NoError)
    else if IsNotFound(reply) then
      (State("", before.fields), NoError)
    else
      (before, StatusDiag(reply))
  }

  method Read(d: ResourceData, reply: Reply<Group>) returns (diag: Diag, calls: seq<Call>)
    modifies d
    ensures calls == [GetGroup(old(d.id))]
    ensures (d.View(), diag) == ReadOutcome(old(d.View()), d.schema, reply)
  {
    var groupId := d.Id();
    calls := [GetGroup(groupId)];
    if reply.CallFailed? || reply.Undecodable? {
      return StatusDiag(reply), calls;
    }
    var env := reply.env;
    if env.stat != Ok {
      if env.message.None? {
        return Panic(NilMessage), calls;
      }
      if env.message.value == NotFound {
        d.SetId("");
        return NoError, calls;
      }
      return Error(Rejected(env.message.value)), calls;
    }
    var group := env.response;
    ghost var before := d.fields;
    d.Set("name", group.name);
    d.Set("desc", group.desc);
    d.Set("status", group.status);
    SetEachGroupAttribute(before, d.schema, group);
    diag := NoError;
  }

  /** Create posts the parameters; on an OK reply it adopts the remote group
      id and then reads the group back; otherwise the handle is untouched. */
  method Create(d: ResourceData, createReply: Reply<Group>, readReply: Reply<Group>)
    returns (diag: Diag, calls: seq<Call>)
    modifies d
    ensures |calls| >= 1 && calls[0].Signed? && calls[0].verb == "POST" && calls[0].path == "/admin/v1/groups"
    ensures forall k :: k in calls[0].params <==> k == "name" || ((k == "desc" || k == "status") && k in d.present)
    ensures forall k :: k in calls[0].params ==> calls[0].params[k] == old(d.Get(k))
    ensures !IsOk(createReply) ==>
      calls == [calls[0]] && diag == StatusDiag(createReply) && d.View() == old(d.View())
    ensures IsOk(createReply) ==>
      var groupId := createReply.env.response.groupId;
      calls[1..] == [GetGroup(groupId)] &&
      (d.View(), diag) == ReadOutcome(State(groupId, old(d.fields)), d.schema, readReply)
  {
    var values := CreateValues(d);
    calls := [Signed("POST", "/admin/v1/groups", values)];
    if !IsOk(createReply) {
      return StatusDiag(createReply), calls;
    }
    var group := createReply.env.response;
    d.SetId(group.groupId);
    var more;
    diag, more := Read(d, readReply);
    calls := calls + more;
  }

  /** Update's parameters: exactly the changed group attributes, each with its
      planned value. */
  method UpdateValues(d: ResourceData) returns (values: map<string, string>)
    ensures forall k :: k in values <==> k in GroupAttributeNames && d.HasChange(k)
    ensures forall k :: k in values ==> values[k] == d.Get(k)
  {
    values := map[];
    if d.HasChange("name") {
      values := values["name" := d.Get("name")];
    }
    if d.HasChange("desc") {
      values := values["desc" := d.Get("desc")];
    }
    if d.HasChange("status") {
      values := values["status" := d.Get("status")];
    }
  }

  /** Update posts the changed attributes to the group's path; on an OK reply
      it reads the group back; otherwise the handle is untouched. */
  method Update(d: ResourceData, updateReply: Reply<Group>, readReply: Reply<Group>)
    returns (diag: Diag, calls: seq<Call>)
    modifies d
    ensures |calls| >= 1
    ensures calls[0].Signed? && calls[0].verb == "POST" && calls[0].path == "/admin/v1/groups/" + old(d.id)
    ensures forall k :: k in calls[0].params <==> k in GroupAttributeNames && k in d.changed
    ensures forall k :: k in calls[0].params ==> calls[0].params[k] == old(d.Get(k))
    ensures !IsOk(updateReply) ==>
      calls == [calls[0]] && diag == StatusDiag(updateReply) && d.View() == old(d.View())
    ensures IsOk(updateReply) ==>
      calls[1..] == [GetGroup(old(d.id))] && (d.View(), diag) == ReadOutcome(old(d.View()), d.schema, readReply)
  {
    var groupId := d.Id();
    var values := UpdateValues(d);
    calls := [Signed("POST", "/admin/v1/groups/" + groupId, values)];
    if !IsOk(updateReply) {
      return StatusDiag(updateReply), calls;
    }
    var more;
    diag, more := Read(d, readReply);
    calls := calls + more;
  }

  /** Delete issues a DELETE on the group's path and succeeds exactly when the
      reply's stat is "OK"; it never changes the handle. */
  method Delete(d: ResourceData, reply: Reply<string>) returns (diag: Diag, calls: seq<Call>)
    ensures calls == [Signed("DELETE", "/admin/v1/groups/" + d.id, map[])]
    ensures diag == StatusDiag(reply)
    ensures diag == NoError <==> IsOk(reply)
  {
    var groupId := d.Id();
    calls := [Signed("DELETE", "/admin/v1/groups/" + groupId, map[])];
    if reply.CallFailed? {
      return Error(CallError), calls;
    }
    if reply.Undecodable? {
      return Error(DecodeError), calls;
    }
    var env := reply.env;
    if env.stat != Ok {
      if env.message.None? {
        return Panic(NilMessage), calls;
      }
      return Error(Rejected(env.message.value)), calls;
    }
    diag := NoError;
  }
}
