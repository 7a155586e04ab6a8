/** The Duo policy resource. Of its 59 schema attributes, Create sends only
    `name` and `new_user_policy`; Read does nothing; Update only runs the
    user resource's Read; Delete treats the id as a user-group association
    id. */
module ResourcePolicy {
  import opened AdminApi
  import opened Terraform
  import GoStrings
  import ResourceUser
  import ResourceUserGroupAssociation

  /** Every attribute the policy schema declares, in the order it declares
      them, grouped by topic. */
  const GeneralAttributes: set<string> := {
    "name", "new_user_policy", "enroll_policy", "auth_status_activated", "auth_status",
    "user_locations_activated", "user_locations_default_action"
  }
  const DeviceTrustAttributes: set<string> := {
    "endpoint_health_activated", "endpoint_health_policy_macos",
    "endpoint_health_enroll_policy_macos", "endpoint_health_policy_windows",
    "endpoint_health_enroll_policy_windows", "trusted_sessions_activated",
    "trusted_devices_activated"
  }
  const MobilePlatformsAttributes: set<string> := {
    "platforms_activated", "android_allowed", "android_warn_policy_version",
    "android_block_policy_version", "blackberry_allowed", "chrome_os_allowed",
    "ios_allowed", "ios_warn_policy_version", "ios_block_policy_version"
  }
  const DesktopPlatformsAttributes: set<string> := {
    "linux_allowed", "macos_allowed", "macos_warn_policy_version",
    "macos_block_policy_version", "windows_allowed", "windows_warn_policy_version",
    "windows_block_policy_version", "windows_phone_allowed", "other_os_allowed"
  }
  const BrowsersAndNetworksAttributes: set<string> := {
    "browsers_activated", "plugins_activated", "flash_remediation", "java_remediation",
    "networks_activated", "networks_allow", "networks_2fa", "anonymous_ip_policy",
    "anonymous_ip_policy_activated", "risk_based_factor_selection_activated"
  }
  const AuthMethodsAttributes: set<string> := {
    "auth_methods_activated", "allow_factor_push", "allow_factor_mobile_otp",
    "allow_factor_sms", "allow_factor_web_auth", "web_auth_policies",
    "allow_factor_hard_token"
  }
  const DuoMobileAttributes: set<string> := {
    "duo_mobile_app_activated", "require_updated_duo_mobile",
    "mobile_rooted_devices_activated", "allow_rooted_devices", "mobile_lock_activated",
    "require_lock", "mobile_encryption_activated", "require_encryption",
    "mobile_touch_id_activated", "require_touch_id"
  }
  const SchemaAttributes: set<string> :=
    GeneralAttributes + DeviceTrustAttributes + MobilePlatformsAttributes + DesktopPlatformsAttributes
    + BrowsersAndNetworksAttributes + AuthMethodsAttributes + DuoMobileAttributes

  /** The query parameter `new_user_policy` is sent under. */
  const NewUserPolicyKey := "new-user-policy-activated"

  /** The wire key is not the name of any schema attribute. */
  lemma WireKeyIsNotAnAttribute()
    ensures NewUserPolicyKey !in SchemaAttributes
  {
    WireKeyNotInGeneral();
    WireKeyNotInDeviceTrust();
    WireKeyNotInMobilePlatforms();
    WireKeyNotInDesktopPlatforms();
    WireKeyNotInBrowsersAndNetworks();
    WireKeyNotInAuthMethods();
    WireKeyNotInDuoMobile();
  }

  lemma WireKeyNotInGeneral()
    ensures NewUserPolicyKey !in GeneralAttributes
  {
  }

  lemma WireKeyNotInDeviceTrust()
    ensures NewUserPolicyKey !in DeviceTrustAttributes
  {
  }

  lemma WireKeyNotInMobilePlatforms()
    ensures NewUserPolicyKey !in MobilePlatformsAttributes
  {
  }

  lemma WireKeyNotInDesktopPlatforms()
    ensures NewUserPolicyKey !in DesktopPlatformsAttributes
  {
  }

  lemma WireKeyNotInBrowsersAndNetworks()
    ensures NewUserPolicyKey !in BrowsersAndNetworksAttributes
  {
  }

  lemma WireKeyNotInAuthMethods()
    ensures NewUserPolicyKey !in AuthMethodsAttributes
  {
  }

  lemma WireKeyNotInDuoMobile()
    ensures NewUserPolicyKey !in DuoMobileAttributes
  {
  }

  /** Create posts `name` and, when configured, `new_user_policy` under its
      wire name, and nothing else; it never sets the id, and its result is
      that of the status checks (its Read adds nothing). */
  method Create(d: ResourceData, reply: Reply<string>) returns (diag: Diag, calls: seq<Call>)
    ensures |calls| == 1 && calls[0].Signed? && calls[0].verb == "POST" && calls[0].path == "/policies"
    ensures "name" in calls[0].params && calls[0].params["name"] == d.Get("name")
    ensures NewUserPolicyKey in calls[0].params <==> d.GetOk("new_user_policy").1
    ensures NewUserPolicyKey in calls[0].params ==> calls[0].params[NewUserPolicyKey] == d.Get("new_user_policy")
    ensures calls[0].params.Keys <= {"name", NewUserPolicyKey}
    ensures forall a :: a in SchemaAttributes && a != "name" ==> a !in calls[0].params
    ensures diag == StatusDiag(reply)
  {
    var values := map[];
    values := values["name" := d.Get("name")];
    var (newUserPolicy, ok) := d.GetOk("new_user_policy");
    if ok {
      values := values[NewUserPolicyKey := newUserPolicy];
    }
    WireKeyIsNotAnAttribute();
    calls := [Signed("POST", "/policies", values)];
    if reply.CallFailed? {
      return Error(CallError), calls;
    }
    if reply.Undecodable? {
      return Error(DecodeError), calls;
    }
    if reply.env.stat != Ok {
      if reply.env.message.None? {
        return Panic(NilMessage), calls;
      }
      return Error(Rejected(reply.env.message.value)), calls;
    }
    diag := Read(d);
  }

  /** Read fetches nothing, changes nothing and never fails. */
  method Read(d: ResourceData) returns (diag: Diag)
    ensures diag == NoError
  {
    diag := NoError;
  }

  /** Update sends nothing of its own: it is the user resource's Read run on
      the policy's handle. The policy schema declares none of the user
      attributes that Read sets, so on a policy handle it writes no attribute:
      at most "Resource not found" clears the id. */
  method Update(d: ResourceData, reply: Reply<User>) returns (diag: Diag, calls: seq<Call>)
    modifies d
    ensures calls == [GetUser(old(d.id))]
    ensures (d.View(), diag) == ResourceUser.ReadOutcome(old(d.View()), d.schema, reply)
    ensures d.schema == SchemaAttributes ==> d.fields == old(d.fields)
  {
    ghost var before := d.fields;
    diag, calls := ResourceUser.Read(d, reply);
    if d.schema == SchemaAttributes && IsOk(reply) {
      UserAttributesAreUndeclared();
      UserAttributesCoverSchema(reply.env.response);
      DeclaredNone(before, UserAttributes(reply.env.response), d.schema);
    }
  }

  /** None of the seven user attributes is a policy attribute. */
  lemma UserAttributesAreUndeclared()
    ensures UserAttributeNames !! SchemaAttributes
  {
    UserAttributesNotInGeneral();
    UserAttributesNotInDeviceTrust();
    UserAttributesNotInMobilePlatforms();
    UserAttributesNotInDesktopPlatforms();
    UserAttributesNotInBrowsersAndNetworks();
    UserAttributesNotInAuthMethods();
    UserAttributesNotInDuoMobile();
  }

  lemma UserAttributesNotInGeneral()
    ensures UserAttributeNames !! GeneralAttributes
  {
  }

  lemma UserAttributesNotInDeviceTrust()
    ensures UserAttributeNames !! DeviceTrustAttributes
  {
  }

  lemma UserAttributesNotInMobilePlatforms()
    ensures UserAttributeNames !! MobilePlatformsAttributes
  {
  }

  lemma UserAttributesNotInDesktopPlatforms()
    ensures UserAttributeNames !! DesktopPlatformsAttributes
  {
  }

  lemma UserAttributesNotInBrowsersAndNetworks()
    ensures UserAttributeNames !! BrowsersAndNetworksAttributes
  {
  }

  lemma UserAttributesNotInAuthMethods()
    ensures UserAttributeNames !! AuthMethodsAttributes
  {
  }

  lemma UserAttributesNotInDuoMobile()
    ensures UserAttributeNames !! DuoMobileAttributes
  {
  }

  /** Delete splits the id on '-' like the association resource and calls
      the endpoint that removes a user from a group. */
  method Delete(d: ResourceData, reply: Reply<string>) returns (diag: Diag, calls: seq<Call>)
    ensures ResourceUserGroupAssociation.ParseId(d.id).Failure? ==> diag == Panic(IndexOutOfRange) && calls == []
    ensures ResourceUserGroupAssociation.ParseId(d.id).Success? ==>
      var key := ResourceUserGroupAssociation.ParseId(d.id).value;
      calls == [Signed("DELETE", "/admin/v1/users/" + key.userId + "/groups/" + key.groupId, map[])] &&
      diag == StatusDiag(reply)
    ensures diag == NoError <==> '-' in d.id && IsOk(reply)
  {
    var id := d.Id();
    var s := GoStrings.Split(id, '-');
    if |s| < 2 {
      return Panic(IndexOutOfRange), [];
    }
    var groupId, userId := s[0], s[1];
    calls := [Signed("DELETE", "/admin/v1/users/" + userId + "/groups/" + groupId, map[])];
    if reply.CallFailed? {
      return Error(CallError), calls;
    }
    if reply.Undecodable? {
      return Error(DecodeError), calls;
    }
    if reply.env.stat != Ok {
      if reply.env.message.None? {
        return Panic(NilMessage), calls;
      }
      return Error(Rejected(reply.env.message.value)), calls;
    }
    diag := NoError;
  }
}
