/** The Duo user data source: a lookup by `user_id` that treats every non-OK
    reply, "Resource not found" included, as an error. */
module DataSourceUser {
  import opened AdminApi
  import opened Terraform

  /** Read looks the user up by the configured `user_id`. On an OK reply it
      adopts the record's id and copies the seven user attributes (all of
      which the data source schema declares); on any
      other reply it reports the error of the status checks and changes
      nothing. */
  method Read(d: ResourceData, reply: Reply<User>) returns (diag: Diag, calls: seq<Call>)
    modifies d
    ensures calls == [GetUser(old(d.Get("user_id")))]
    ensures IsOk(reply) ==>
      diag == NoError &&
      d.View() == State(reply.env.response.userId, old(d.fields) + Declared(UserAttributes(reply.env.response), d.schema))
    ensures IsOk(reply) && UserAttributeNames <= d.schema ==>
      d.fields == old(d.fields) + UserAttributes(reply.env.response)
    ensures !IsOk(reply) ==> diag == StatusDiag(reply) && diag != NoError && d.View() == old(d.View())
  {
    var userId := d.Get("user_id");
    calls := [GetUser(userId)];
    if reply.CallFailed? || reply.Undecodable? {
      return StatusDiag(reply), calls;
    }
    var env := reply.env;
    if env.stat != Ok {
      if env.message.None? {
        return Panic(NilMessage), calls;
      }
      if env.message.value == NotFound {
        return Error(Rejected(env.message.value)), calls;
      }
      return Error(Rejected(env.message.value)), calls;
    }
    var user := env.response;
    d.SetId(user.userId);
    ghost var before := d.fields;
    d.Set("username", user.username);
    d.Set("realname", user.realName);
    d.Set("email", user.email);
    d.Set("status", user.status);
    d.Set("notes", user.notes);
    d.Set("firstname", user.firstName);
    d.Set("lastname", user.lastName);
    SetEachUserAttribute(before, d.schema, user);
    if UserAttributeNames <= d.schema {
      UserAttributesCoverSchema(user);
      DeclaredWhole(UserAttributes(user), d.schema);
    }
    diag := NoError;
  }
}
