# Duo Terraform provider: verified model of the lifecycle logic

The provider exposes Duo Security users, groups, policies and user-group
memberships as Terraform resources, plus a user data source. Each lifecycle
function (Create, Read, Update, Delete) reads attributes from Terraform's
resource handle, builds query parameters, makes one signed call to the Duo
Admin API, checks the `stat` field of the decoded reply, and writes the id and
attributes back into the handle.

This project models that decision logic in Dafny; the transport itself is out
of scope:

- `Terraform.ResourceData` is the resource handle, as a class. The id and the
  attribute map are mutable fields, written by `SetId`/`Set`. The attributes
  the schema declares, those the configuration sets (`GetOk`) and the changed
  ones (`HasChange`) are constant sets. `Set` of an attribute the schema does
  not declare writes nothing (the SDK returns an error, which every caller
  ignores). An attribute never set reads as `""`, Go's zero string.
- The reply to a call is an input, `AdminApi.Reply`: the transport failed,
  the body did not decode, or it decoded to an `Envelope(stat, message,
  response)`. The message is optional because the client library holds it
  as a pointer.
- Every lifecycle method that calls the API returns the requests it made, as `calls`. A request
  is a signed call with its verb, path and parameters, or one of the client
  library's `GetUser`/`GetGroup` lookups. Parameter sets are
  `map<string, string>` values, built by successive `Set`s as in the
  source's `url.Values`.
- A diagnostic, `AdminApi.Diag`, is one of three things:
  - no error;
  - an error with its cause (transport, decoding, or a rejection carrying
    the remote message);
  - a Go panic. Panics come from two places: indexing the second part of
    an id that has no hyphen, and dereferencing the message of a non-OK
    reply that has none.
- `GoStrings` models `strings.Split` and `strings.Join` for the one-character
  separator `-`. `Split` is proved to always give at least one part, to give
  hyphen-free parts, to give one part exactly when there is no hyphen, and
  to be undone by `Join`. `SplitJoin` proves the converse, for hyphen-free
  elements.

Three behaviours of the code are modelled as written, although they look
unintended:

- A non-OK reply without a message does not fail with the remote message: it
  panics at the dereference.
- Policy Delete is modelled as written, splitting the id as a membership id,
  although policy Create never stores such an id.
- Policy Update is modelled as written: it runs the user resource's Read. The
  policy schema declares none of the seven user attributes that Read sets,
  so on a policy handle it writes no attribute.

The user and group status validators are kept as the code has them: lower-case
for users, capitalised for groups. Lemma `ResourceGroup.StatusCaseMismatch`
shows that each default is rejected by the other resource's validator. Lemma
`ResourceUserGroupAssociation.HyphenatedGroupIdIsMisread` shows the loss of
information for ids that contain a hyphen: group `a-b` with user `c`
is read back as group `a`, user `b`.

## Model

| member | source | states |
|---|---|---|
| GoStrings.Join | provider/resource_user_group_association.go:68 | strings.Join: the result starts with the first element, followed by the separator when more elements follow |
| GoStrings.Split | provider/resource_user_group_association.go:78 | strings.Split on "-": at least one part, no part holds the separator, exactly one part iff the input has none, and joining the parts gives back the input |
| GoStrings.SplitAfterSeparator | provider/resource_user_group_association.go:78 | a separator-free prefix followed by the separator splits off as the first part, and the rest splits on its own |
| GoStrings.SplitWithoutSeparator | provider/resource_user_group_association.go:78 | a string without the separator splits into itself |
| GoStrings.SplitJoin | provider/resource_user_group_association.go:68-79 | Split undoes Join for a non-empty list of separator-free elements |
| GoStrings.JoinStartsWithFirstTwo | provider/resource_user_group_association.go:68 | a join of two or more elements starts with the first two joined by the separator, followed by nothing or the separator |
| AdminApi.StatusDiag | provider/resource_user.go:104-115 | the shared check sequence (transport error, decode error, non-OK stat) is clean iff the stat is "OK"; a non-OK stat without a message panics; "Resource not found" yields an error carrying that message |
| AdminApi.SetEachUserAttribute | provider/resource_user.go:144-150 | the seven successive `d.Set` calls equal merging into the map those of the seven user attributes the schema declares |
| AdminApi.UserAttributesCoverSchema | internal/data_source_user.go:86-92 | the attributes copied from a user record are exactly the seven schema attributes |
| AdminApi.SetEachGroupAttribute | provider/resource_group.go:108-110 | the three successive `d.Set` calls equal merging into the map those of name, desc and status the schema declares |
| ResourceUser.ValidateStatus | provider/resource_user.go:47-52 | no warnings; no error iff the value is "active", "bypass" or "disabled"; otherwise exactly one error naming the key and value |
| ResourceUser.DefaultStatusIsValid | provider/resource_user.go:46-48 | the default "active" passes the validator |
| ResourceUser.CreateValues | provider/resource_user.go:77-102 | `username` is always sent; each optional attribute is sent iff the configuration sets it; every value is the attribute's value unchanged |
| ResourceUser.SetIfPresent | provider/resource_user.go:80-82 | one optional-attribute step of Create: afterwards the map holds `username` and exactly the configured attributes among those considered so far, with their values |
| ResourceUser.ReadOutcome | provider/resource_user.go:135-152 | OK: no error, id kept, those of the seven attributes the handle's schema declares overwritten from the record, others unchanged; not found: id cleared, no error, attributes unchanged; otherwise: an error and nothing changes |
| ResourceUser.Read | provider/resource_user.go:124-153 | looks up the handle's id and changes the handle exactly as ReadOutcome says |
| ResourceUser.Create | provider/resource_user.go:73-122 | posts the Create parameters to /admin/v1/users; a reply that is not OK is an error and leaves the handle untouched; an OK reply adopts the returned user id and then behaves as Read of that id |
| ResourceUser.UpdateValues | provider/resource_user.go:160-190 | a user attribute is sent iff it changed, with its new value; unchanged attributes are absent |
| ResourceUser.SetIfChanged | provider/resource_user.go:164-166 | one step of Update: afterwards the map holds exactly the changed attributes among those considered so far, with their planned values |
| ResourceUser.Update | provider/resource_user.go:155-208 | posts the changed attributes to /admin/v1/users/{id}; a reply that is not OK is an error and leaves the handle untouched; an OK reply is followed by Read of the same id |
| ResourceUser.Delete | provider/resource_user.go:210-229 | issues DELETE /admin/v1/users/{id}; no error iff the stat is "OK"; the handle is untouched |
| ResourceGroup.ValidateStatus | provider/resource_group.go:42-47 | no warnings; no error iff the value is "Active", "Bypass" or "Disabled", case-sensitive; otherwise exactly one error |
| ResourceGroup.DefaultStatusIsValid | provider/resource_group.go:41-43 | the default "Active" passes the validator |
| ResourceGroup.StatusCaseMismatch | provider/resource_group.go:41-47 | the group validator rejects the user default "active", the user validator rejects "Active", and the two status sets are disjoint |
| ResourceGroup.CreateValues | provider/resource_group.go:57-66 | `name` is always sent; `desc` and `status` are sent iff configured; values are copied unchanged |
| ResourceGroup.ReadOutcome | provider/resource_group.go:99-112 | OK: those of name, desc and status the schema declares overwritten, id kept; not found: id cleared without error; otherwise: an error and nothing changes |
| ResourceGroup.Read | provider/resource_group.go:88-113 | looks up the handle's id and changes the handle exactly as ReadOutcome says |
| ResourceGroup.Create | provider/resource_group.go:53-86 | posts the Create parameters to /admin/v1/groups; a reply that is not OK is an error with the handle untouched; an OK reply adopts the returned group id and then behaves as Read |
| ResourceGroup.UpdateValues | provider/resource_group.go:120-134 | exactly the changed subset of name, desc and status is sent, with the new values |
| ResourceGroup.Update | provider/resource_group.go:115-152 | posts the changed attributes to /admin/v1/groups/{id}; a reply that is not OK is an error with the handle untouched; an OK reply is followed by Read |
| ResourceGroup.Delete | provider/resource_group.go:154-173 | issues DELETE /admin/v1/groups/{id}; no error iff the stat is "OK" |
| ResourceUserGroupAssociation.Id | provider/resource_user_group_association.go:68 | the membership id is exactly group_id + "-" + user_id and always holds a hyphen |
| ResourceUserGroupAssociation.ParseId | provider/resource_user_group_association.go:78-79 | an id without a hyphen panics (index out of range); otherwise the two parts are hyphen-free and the id starts with them joined by a hyphen, followed by nothing or a further hyphen |
| ResourceUserGroupAssociation.IdRoundTrip | provider/resource_user_group_association.go:68-82 | parsing the id built from two ids gives both back iff neither contains a hyphen |
| ResourceUserGroupAssociation.HyphenatedGroupIdIsMisread | provider/resource_user_group_association.go:68-79 | the id of group "a-b" and user "c" is read back as group "a" and user "b" |
| ResourceUserGroupAssociation.Read | provider/resource_user_group_association.go:75-85 | makes no remote call, keeps the id, and sets group_id and user_id (where declared) to the parsed parts; an id without a hyphen panics and changes nothing |
| ResourceUserGroupAssociation.Create | provider/resource_user_group_association.go:43-73 | posts only `group_id` to /admin/v1/users/{user_id}/groups; a reply that is not OK is an error with the handle untouched; an OK reply sets the id to Id(group_id, user_id) and then behaves as Read |
| ResourceUserGroupAssociation.CreateRestoresIds | provider/resource_user_group_association.go:68-82 | with hyphen-free ids, the Read that ends Create writes back exactly the configured group_id and user_id |
| ResourceUserGroupAssociation.Delete | provider/resource_user_group_association.go:87-112 | issues DELETE /admin/v1/users/{second part}/groups/{first part}, in the reverse of their order in the id; no error iff the id holds a hyphen and the stat is "OK"; without a hyphen it panics before any call |
| DataSourceUser.Read | internal/data_source_user.go:63-95 | looks up the configured user_id; OK: sets the id to the record's user id and copies the declared ones of the seven attributes, all seven on the data source's own schema; any other reply, "Resource not found" included, is an error and changes nothing |
| ResourcePolicy.WireKeyIsNotAnAttribute | provider/resource_policy.go:27-336 | the wire key "new-user-policy-activated" is not the name of any of the 59 schema attributes |
| ResourcePolicy.Create | provider/resource_policy.go:327-356 | posts to /policies `name`, plus "new-user-policy-activated" iff `new_user_policy` is configured, carrying its value; no other key and no other schema attribute is sent; the id is never set; no error iff the stat is "OK" |
| ResourcePolicy.Read | provider/resource_policy.go:358-368 | returns no error, makes no call and changes nothing |
| ResourcePolicy.Update | provider/resource_policy.go:370-423 | behaves exactly as the user resource's Read on the policy's handle; on a handle of the policy schema no attribute changes |
| ResourcePolicy.UserAttributesAreUndeclared | provider/resource_policy.go:27-322 | none of the seven user attributes that the user Read sets is a policy attribute |
| ResourcePolicy.Delete | provider/resource_policy.go:425-450 | parses the id as a membership id and issues DELETE /admin/v1/users/{second part}/groups/{first part}; no error iff the id holds a hyphen and the stat is "OK" |

## Left out

- Transport and request signing (`SignedCall`, `GetUser`, `GetGroup`, `duoapi.UseTimeout`): foreign library calls. Their results are the `Reply` inputs, and the requests are reported as `Call` values.
- JSON decoding: a library call. It is modelled only as "decoded to an envelope" or "did not decode".
- The remote service's state. Properties that need it are not stated, because nothing here models how the service answers: a user created and then read keeps its fields; a user deleted and then read is not found.
- Terraform SDK internals: schema types, `Required`/`ForceNew`/`Computed`, the importer and `d.Partial`. `GetOk`'s "non-zero value" rule is abstracted as the constant `present` set, so `Set` does not change what `GetOk` reports. Within one lifecycle call, the source calls `GetOk` only before any `Set`.
- The error returned by `d.Set` is ignored by the source and not modelled; only its effect, that nothing is written for an undeclared attribute, is.
- `d.Get` of an attribute the schema does not declare: the model reads it as `""`. Every `Get` in the source names an attribute of its own resource's schema.
- Logging (`tflog.Trace`): a side effect with no behaviour.
- Diagnostic message text. `Diag` keeps only the cause, and for a rejection only the remote message. It does not keep the stat, id or group id that the source formats into the text.
- ResourceUser.ValidateStatus: the error carries the key and the rejected value, not the formatted message.
- ResourceGroup.ValidateStatus: the error carries the key and the rejected value, not the formatted message. That message lists lower-case statuses although only capitalised ones are accepted.
- Provider configuration (internal/provider/provider.go): credentials and client construction. internal/provider/provider.go is not part of this model.
- Plugin serving (main.go) and the repository's `*_test.go` files, which need a live Duo account.
- The commented-out body of policy Update (provider/resource_policy.go:371-420): it is not code.
- `strings.Split`/`strings.Join` with separators longer than one character: the provider uses only `-`.
