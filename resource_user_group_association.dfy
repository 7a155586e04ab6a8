/** The user-group association resource. It has no remote id of its own: its
    id is "<group_id>-<user_id>", built by Create and taken apart again by
    Read and Delete. */
module ResourceUserGroupAssociation {
  import opened Wrappers
  import opened AdminApi
  import opened Terraform
  import GoStrings

  datatype Key = Key(groupId: string, userId: string)

  /** The id Create stores: the group id, a hyphen, the user id. */
  function Id(groupId: string, userId: string): (id: string)
    ensures id == groupId + "-" + userId
    ensures '-' in id
  {
    assert [groupId, userId][1..] == [userId];
    assert GoStrings.Join([userId], '-') == userId;
    var id := GoStrings.Join([groupId, userId], '-');
    assert id == groupId + ['-'] + userId;
    assert id[|groupId|] == '-';
    id
  }

  /** How Read and Delete take an id apart: split on '-' and keep the first
      two parts. Without a hyphen, indexing the second part panics. Otherwise
      both parts are hyphen-free and the id starts with them joined by a
      hyphen, followed by nothing or by a further hyphen. */
  function ParseId(id: string): (r: Result<Key, PanicReason>)
    ensures r.Success? <==> '-' in id
    ensures r.Failure? ==> r.error == IndexOutOfRange
    ensures r.Success? ==> '-' !in r.value.groupId && '-' !in r.value.userId
    ensures r.Success? ==>
      var p := r.value.groupId + "-" + r.value.userId;
      |p| <= |id| && id[..|p|] == p && (|p| == |id| || id[|p|] == '-')
  {
    var s := GoStrings.Split(id, '-');
    if |s| < 2 then
      Failure(IndexOutOfRange)
    else
      GoStrings.JoinStartsWithFirstTwo(s, '-');
      Success(Key(s[0], s[1]))
  }

  /** Parsing the id of Create gives back both ids exactly when neither holds
      a hyphen. */
  lemma {:induction false} IdRoundTrip(groupId: string, userId: string)
    ensures ParseId(Id(groupId, userId)) == Success(Key(groupId, userId))
            <==> '-' !in groupId && '-' !in userId
  {
    if '-' !in groupId && '-' !in userId {
      GoStrings.SplitJoin([groupId, userId], '-');
    }
  }

  /** A hyphen inside a group id shifts the parts: the group id is cut short
      and the rest of it is read as the user id. */
  lemma HyphenatedGroupIdIsMisread()
    ensures ParseId(Id("a-b", "c")) == Success(Key("a", "b"))
  {
    var id := Id("a-b", "c");
    assert id == ['a'] + "-" + "b-c";
    GoStrings.SplitAfterSeparator("a", "b-c", '-');
    assert "b-c" == ['b'] + "-" + "c";
    GoStrings.SplitAfterSeparator("b", "c", '-');
    GoStrings.SplitWithoutSeparator("c", '-');
  }

  /** Read never calls the remote API: it sets `group_id` and `user_id` from
      the parsed id, or panics when the id has no hyphen. */
  method Read(d: ResourceData) returns (diag: Diag)
    modifies d
    ensures d.id == old(d.id)
    ensures ParseId(old(d.id)).Failure? ==> diag == Panic(IndexOutOfRange) && d.fields == old(d.fields)
    ensures ParseId(old(d.id)).Success? ==>
      var key := ParseId(old(d.id)).value;
      diag == NoError &&
      d.fields == Assigned(Assigned(old(d.fields), d.schema, "group_id", key.groupId), d.schema, "user_id", key.userId)
  {
    var id := d.Id();
    var s := GoStrings.Split(id, '-');
    if |s| < 2 {
      return Panic(IndexOutOfRange);
    }
    var groupId, userId := s[0], s[1];
    d.Set("group_id", groupId);
    d.Set("user_id", userId);
    diag := NoError;
  }

  /** Create posts `group_id` to the user's group list; on an OK reply it
      stores the composite id and reads it back; otherwise the handle is
      untouched. */
  method Create(d: ResourceData, reply: Reply<string>) returns (diag: Diag, calls: seq<Call>)
    modifies d
    ensures calls == [Signed("POST", "/admin/v1/users/" + old(d.Get("user_id")) + "/groups",
                             map["group_id" := old(d.Get("group_id"))])]
    ensures !IsOk(reply) ==> diag == StatusDiag(reply) && d.View() == old(d.View())
    ensures IsOk(reply) ==>
      var id := Id(old(d.Get("group_id")), old(d.Get("user_id")));
      var key := ParseId(id).value;
      diag == NoError && d.id == id &&
      d.fields == Assigned(Assigned(old(d.fields), d.schema, "group_id", key.groupId), d.schema, "user_id", key.userId)
  {
    var groupId := d.Get("group_id");
    var userId := d.Get("user_id");
    var values := map["group_id" := groupId];
    calls := [Signed("POST", "/admin/v1/users/" + userId + "/groups", values)];
    if reply.CallFailed? {
      return Error(CallError), calls;
    }
    if reply.Undecodable? {
      return Error(DecodeError), calls;
    }
    if reply.env.stat != Ok {
      if reply.env.message.None? {
        return Panic(NilMessage), calls;
      }
      return Error(Rejected(reply.env.message.value)), calls;
    }
    var id := GoStrings.Join([groupId, userId], '-');
    d.SetId(id);
    diag := Read(d);
  }

  /** With hyphen-free ids, a successful Create leaves both attributes as
      they were configured (Read after Create restores them). */
  lemma CreateRestoresIds(fields: map<string, string>, schema: set<string>, groupId: string, userId: string)
    requires '-' !in groupId && '-' !in userId
    requires "group_id" in fields && fields["group_id"] == groupId
    requires "user_id" in fields && fields["user_id"] == userId
    ensures var key := ParseId(Id(groupId, userId)).value;
      Assigned(Assigned(fields, schema, "group_id", key.groupId), schema, "user_id", key.userId) == fields
  {
    IdRoundTrip(groupId, userId);
  }

  /** Delete splits the id and removes the user from the group, naming the
      user (second part) before the group (first part) in the path. */
  method Delete(d: ResourceData, reply: Reply<string>) returns (diag: Diag, calls: seq<Call>)
    ensures ParseId(d.id).Failure? ==> diag == Panic(IndexOutOfRange) && calls == []
    ensures ParseId(d.id).Success? ==>
      var key := ParseId(d.id).value;
      calls == [Signed("DELETE", "/admin/v1/users/" + key.userId + "/groups/" + key.groupId, map[])] &&
      diag == StatusDiag(reply)
    ensures diag == NoError <==> '-' in d.id && IsOk(reply)
  {
    var id := d.Id();
    var s := GoStrings.Split(id, '-');
    if |s| < 2 {
      return Panic(IndexOutOfRange), [];
    }
    var groupId, userId := s[0], s[1];
    calls := [Signed("DELETE", "/admin/v1/users/" + userId + "/groups/" + groupId, map[])];
    if reply.CallFailed? {
      return Error(CallError), calls;
    }
    if reply.Undecodable? {
      return Error(DecodeError), calls;
    }
    if reply.env.stat != Ok {
      if reply.env.message.None? {
        return Panic(NilMessage), calls;
      }
      return Error(Rejected(reply.env.message.value)), calls;
    }
    diag := NoError;
  }
}
