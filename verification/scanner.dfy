/** Detection rules of backend/app/scanner.py. The cloud SDK is not called:
    each finder receives what its listing call returned, already fetched, as
    a `Listing` of descriptors, where `Rejected` stands for the listing call
    failing with invalid credentials. The region is only passed to the SDK
    and does not appear here. */
module Scanner {
  import opened Wrappers
  import opened Text
  import opened Sequences
  import opened Findings

  /** The access key and secret as passed in (None when omitted). */
  datatype Credentials = Credentials(accessKey: Option<string>, secretKey: Option<string>)

  const NoCredentials := Credentials(None, None)

  /** `not key or not secret`: a missing or empty key or secret. */
  predicate MissingCredentials(c: Credentials) {
    c.accessKey == None || c.accessKey == Some("")
    || c.secretKey == None || c.secretKey == Some("")
  }

  /** What the SDK listing call produced. */
  datatype Listing<T> = Rejected | Listed(items: seq<T>)

  const S3Type := "Public S3 Bucket"
  const S3PolicyType := "Public S3 Bucket Policy"
  const IamType := "Overly Permissive IAM Role"
  const SgType := "Unrestricted Security Group"

  const NoCredentialsReason := "provide credentials for real scan"
  const InvalidCredentialsReason := "invalid credentials"

  /** Details of a placeholder finding: the description, then the reason
      in a parenthesis that says the data is mock data. */
  function MockDetails(description: string, reason: string): (d: string)
    ensures Contains(d, "mock data")
  {
    var d := description + " (mock data - " + reason + ").";
    assert d[|description| + 2..|description| + 11] == "mock data";
    ContainsAt(d, "mock data", |description| + 2);
    d
  }

  function S3Mock(reason: string): Finding {
    Raw(S3Type, "mock-bucket-123", MockDetails("This bucket is publicly accessible", reason))
  }

  function IamMock(reason: string): Finding {
    Raw(IamType, "mock-role-abc", MockDetails("This role has overly permissive policies", reason))
  }

  function SgMock(reason: string): Finding {
    Raw(SgType, "sg-mock123", MockDetails("Security group allows unrestricted access", reason))
  }

  /** Concatenation of per-item findings, in item order. */
  function Flatten(ss: seq<seq<Finding>>): (r: seq<Finding>)
    ensures forall f :: f in r <==> exists i :: 0 <= i < |ss| && f in ss[i]
  {
    if |ss| == 0 then []
    else
      var rest := Flatten(ss[1..]);
      forall f | f in rest ensures exists i :: 0 <= i < |ss| && f in ss[i] {
        var i :| 0 <= i < |ss| - 1 && f in ss[1..][i];
        assert ss[1..][i] == ss[i + 1];
      }
      forall f, i | 0 <= i < |ss| && f in ss[i] ensures f in ss[0] + rest {
        if i > 0 {
          assert ss[1..][i - 1] == ss[i];
        }
      }
      ss[0] + rest
  }

  /** Flattening consumes the items in order: no items give no findings,
      and one more item appends its findings at the end. */
  lemma {:induction false} FlattenAppend(ss: seq<seq<Finding>>, s: seq<Finding>)
    ensures Flatten([]) == []
    ensures Flatten(ss + [s]) == Flatten(ss) + s
    decreases |ss|
  {
    if |ss| == 0 {
      assert ss + [s] == [s];
      assert Flatten([s]) == s + Flatten([s][1..]);
    } else {
      assert (ss + [s])[1..] == ss[1..] + [s];
      FlattenAppend(ss[1..], s);
    }
  }

  // ---- S3 ----

  /** An ACL grant; `granteeUri` is the Grantee's `URI` key, if present. */
  datatype Grant = Grant(granteeUri: Option<string>)

  /** A bucket: its ACL (None when reading it failed) and its policy
      document (None when the bucket has no policy). */
  datatype Bucket = Bucket(name: string, acl: Option<seq<Grant>>, policy: Option<string>)

  predicate GrantsAllUsers(g: Grant) {
    g.granteeUri.Some? && Contains(g.granteeUri.value, "AllUsers")
  }

  predicate PublicAcl(grants: seq<Grant>) {
    exists i :: 0 <= i < |grants| && GrantsAllUsers(grants[i])
  }

  const AnyPrincipal := "\"Principal\": \"*\""
  const AnyAwsPrincipal := "\"Principal\": {\"AWS\": \"*\"}"

  predicate PublicPolicy(policy: Option<string>) {
    policy.Some? && (Contains(policy.value, AnyPrincipal) || Contains(policy.value, AnyAwsPrincipal))
  }

  function AclFinding(bucket: string): Finding {
    Raw(S3Type, bucket, "This bucket is publicly accessible via ACL.")
  }

  function PolicyFinding(bucket: string): Finding {
    Raw(S3PolicyType, bucket, "This bucket has a policy allowing public access.")
  }

  /** Findings for one bucket: at most one for the ACL, then at most one for
      the policy; a bucket whose ACL cannot be read is skipped. */
  function BucketFindings(b: Bucket): (r: seq<Finding>)
    ensures |r| == (if b.acl.Some? && PublicAcl(b.acl.value) then 1 else 0)
                 + (if b.acl.Some? && PublicPolicy(b.policy) then 1 else 0)
    ensures AclFinding(b.name) in r <==> b.acl.Some? && PublicAcl(b.acl.value)
    ensures PolicyFinding(b.name) in r <==> b.acl.Some? && PublicPolicy(b.policy)
    ensures forall f :: f in r ==> f == AclFinding(b.name) || f == PolicyFinding(b.name)
    ensures |r| == 2 ==> r == [AclFinding(b.name), PolicyFinding(b.name)]
  {
    match b.acl
    case None => []
    case Some(grants) =>
      (if PublicAcl(grants) then [AclFinding(b.name)] else [])
      + (if PublicPolicy(b.policy) then [PolicyFinding(b.name)] else [])
  }

  /** find_public_s3_buckets */
  function FindPublicS3Buckets(c: Credentials, buckets: Listing<Bucket>): (r: seq<Finding>)
    ensures MissingCredentials(c) ==> r == [S3Mock(NoCredentialsReason)]
    ensures !MissingCredentials(c) && buckets.Rejected? ==> r == [S3Mock(InvalidCredentialsReason)]
    ensures !MissingCredentials(c) && buckets.Listed? ==>
      forall f :: f in r <==> exists i :: 0 <= i < |buckets.items| && f in BucketFindings(buckets.items[i])
  {
    if MissingCredentials(c) then [S3Mock(NoCredentialsReason)]
    else match buckets
      case Rejected => [S3Mock(InvalidCredentialsReason)]
      case Listed(bs) =>
        var parts := seq(|bs|, i requires 0 <= i < |bs| => BucketFindings(bs[i]));
        assert forall i :: 0 <= i < |bs| ==> parts[i] == BucketFindings(bs[i]);
        Flatten(parts)
  }

  /** A real S3 scan lists the buckets' findings bucket by bucket, in
      listing order: no buckets give no findings, and one more bucket
      appends its own findings at the end. */
  lemma S3Append(c: Credentials, bs: seq<Bucket>, b: Bucket)
    requires !MissingCredentials(c)
    ensures FindPublicS3Buckets(c, Listed([])) == []
    ensures FindPublicS3Buckets(c, Listed(bs + [b])) == FindPublicS3Buckets(c, Listed(bs)) + BucketFindings(b)
  {
    var bs' := bs + [b];
    var parts := seq(|bs|, i requires 0 <= i < |bs| => BucketFindings(bs[i]));
    var parts' := seq(|bs'|, i requires 0 <= i < |bs'| => BucketFindings(bs'[i]));
    assert parts' == parts + [BucketFindings(b)];
    FlattenAppend(parts, BucketFindings(b));
  }

  /** A real S3 scan reports a bucket's ACL exactly when some grant of a
      readable ACL names AllUsers, and its policy exactly when the policy
      text allows any principal. */
  lemma S3Detection(c: Credentials, bs: seq<Bucket>, name: string)
    requires !MissingCredentials(c)
    ensures AclFinding(name) in FindPublicS3Buckets(c, Listed(bs)) <==>
      exists i :: 0 <= i < |bs| && bs[i].name == name && bs[i].acl.Some? && PublicAcl(bs[i].acl.value)
    ensures PolicyFinding(name) in FindPublicS3Buckets(c, Listed(bs)) <==>
      exists i :: 0 <= i < |bs| && bs[i].name == name && bs[i].acl.Some? && PublicPolicy(bs[i].policy)
  {
    AclDetection(c, bs, name);
    PolicyDetection(c, bs, name);
  }

  lemma AclDetection(c: Credentials, bs: seq<Bucket>, name: string)
    requires !MissingCredentials(c)
    ensures AclFinding(name) in FindPublicS3Buckets(c, Listed(bs)) <==>
      exists i :: 0 <= i < |bs| && bs[i].name == name && bs[i].acl.Some? && PublicAcl(bs[i].acl.value)
  {
    if AclFinding(name) in FindPublicS3Buckets(c, Listed(bs)) {
      var i :| 0 <= i < |bs| && AclFinding(name) in BucketFindings(bs[i]);
    }
  }

  lemma PolicyDetection(c: Credentials, bs: seq<Bucket>, name: string)
    requires !MissingCredentials(c)
    ensures PolicyFinding(name) in FindPublicS3Buckets(c, Listed(bs)) <==>
      exists i :: 0 <= i < |bs| && bs[i].name == name && bs[i].acl.Some? && PublicPolicy(bs[i].policy)
  {
    if PolicyFinding(name) in FindPublicS3Buckets(c, Listed(bs)) {
      var i :| 0 <= i < |bs| && PolicyFinding(name) in BucketFindings(bs[i]);
    }
  }

  // ---- IAM ----

  /** A policy field that is either one string or a list of strings. */
  datatype PolicyValue = Text(text: string) | Items(items: seq<string>)

  datatype Statement = Statement(effect: Option<string>, action: Option<PolicyValue>, resource: Option<PolicyValue>)

  /** The `Statement` key of a policy document: one statement or a list. */
  datatype StatementField = Single(statement: Statement) | Multiple(statements: seq<Statement>)

  /** An attached policy with the statements of its default version; None
      when fetching the policy or its version failed. */
  datatype AttachedPolicy = AttachedPolicy(name: string, document: Option<StatementField>)

  /** A role with the listing of its attached policies. */
  datatype Role = Role(name: string, policies: Listing<AttachedPolicy>)

  /** A non-list `Statement` is treated as a one-element list. */
  function StatementsOf(field: StatementField): (r: seq<Statement>)
    ensures field.Single? ==> r == [field.statement]
    ensures field.Multiple? ==> r == field.statements
  {
    match field
    case Single(s) => [s]
    case Multiple(ss) => ss
  }

  /** Effect "Allow", Action "*" and Resource "*", compared as whole strings
      (a list `["*"]` does not match). */
  predicate AllowsEverything(s: Statement) {
    s.effect == Some("Allow") && s.action == Some(Text("*")) && s.resource == Some(Text("*"))
  }

  predicate Overly(p: AttachedPolicy) {
    p.document.Some?
    && exists i :: 0 <= i < |StatementsOf(p.document.value)| && AllowsEverything(StatementsOf(p.document.value)[i])
  }

  function RoleFinding(role: string, policy: string): Finding {
    Raw(IamType, role, "Role has policy " + policy + " allowing all actions on all resources.")
  }

  /** At most one finding per attached policy. */
  function PolicyFindings(role: string, p: AttachedPolicy): (r: seq<Finding>)
    ensures |r| <= 1
    ensures |r| == 1 <==> Overly(p)
    ensures |r| == 1 ==> r[0] == RoleFinding(role, p.name)
  {
    if Overly(p) then [RoleFinding(role, p.name)] else []
  }

  function RoleFindings(role: string, ps: seq<AttachedPolicy>): seq<Finding> {
    Flatten(seq(|ps|, i requires 0 <= i < |ps| => PolicyFindings(role, ps[i])))
  }

  /** A role's findings follow its attached policies in order. */
  lemma RoleFindingsAppend(role: string, ps: seq<AttachedPolicy>, p: AttachedPolicy)
    ensures RoleFindings(role, []) == []
    ensures RoleFindings(role, ps + [p]) == RoleFindings(role, ps) + PolicyFindings(role, p)
  {
    var ps' := ps + [p];
    var parts := seq(|ps|, i requires 0 <= i < |ps| => PolicyFindings(role, ps[i]));
    var parts' := seq(|ps'|, i requires 0 <= i < |ps'| => PolicyFindings(role, ps'[i]));
    assert parts' == parts + [PolicyFindings(role, p)];
    FlattenAppend(parts, PolicyFindings(role, p));
  }

  /** Some role's policy listing failed with invalid credentials, which
      abandons the whole IAM scan. */
  predicate SomeRoleRejected(roles: seq<Role>) {
    exists i :: 0 <= i < |roles| && roles[i].policies.Rejected?
  }

  /** find_permissive_iam_roles */
  function FindPermissiveIamRoles(c: Credentials, roles: Listing<Role>): (r: seq<Finding>)
    ensures MissingCredentials(c) ==> r == [IamMock(NoCredentialsReason)]
    ensures !MissingCredentials(c) && (roles.Rejected? || SomeRoleRejected(roles.items)) ==>
      r == [IamMock(InvalidCredentialsReason)]
    ensures !MissingCredentials(c) && roles.Listed? && !SomeRoleRejected(roles.items) ==>
      forall f :: f in r <==>
        exists i :: 0 <= i < |roles.items| && f in RoleFindings(roles.items[i].name, roles.items[i].policies.items)
  {
    if MissingCredentials(c) then [IamMock(NoCredentialsReason)]
    else match roles
      case Rejected => [IamMock(InvalidCredentialsReason)]
      case Listed(rs) =>
        if SomeRoleRejected(rs) then [IamMock(InvalidCredentialsReason)]
        else
          var parts := seq(|rs|, i requires 0 <= i < |rs| => RoleFindings(rs[i].name, rs[i].policies.items));
          assert forall i :: 0 <= i < |rs| ==> parts[i] == RoleFindings(rs[i].name, rs[i].policies.items);
          Flatten(parts)
  }

  /** A real IAM scan lists the roles' findings role by role, in listing
      order, each role's in the order of its attached policies. */
  lemma IamAppend(c: Credentials, rs: seq<Role>, role: Role)
    requires !MissingCredentials(c) && !SomeRoleRejected(rs) && role.policies.Listed?
    ensures FindPermissiveIamRoles(c, Listed([])) == []
    ensures FindPermissiveIamRoles(c, Listed(rs + [role]))
         == FindPermissiveIamRoles(c, Listed(rs)) + RoleFindings(role.name, role.policies.items)
  {
    var rs' := rs + [role];
    assert !SomeRoleRejected(rs') by {
      forall i | 0 <= i < |rs'| ensures !rs'[i].policies.Rejected? {
        if i < |rs| {
          assert rs'[i] == rs[i];
        }
      }
    }
    var parts := seq(|rs|, i requires 0 <= i < |rs| => RoleFindings(rs[i].name, rs[i].policies.items));
    var parts' := seq(|rs'|, i requires 0 <= i < |rs'| => RoleFindings(rs'[i].name, rs'[i].policies.items));
    assert parts' == parts + [RoleFindings(role.name, role.policies.items)];
    FlattenAppend(parts, RoleFindings(role.name, role.policies.items));
  }

  /** A real IAM scan reports role `role` for policy `policy` exactly when
      some listed role of that name has an attached policy of that name
      with a statement allowing every action on every resource. */
  lemma IamDetection(c: Credentials, rs: seq<Role>, role: string, policy: string)
    requires !MissingCredentials(c) && !SomeRoleRejected(rs)
    ensures RoleFinding(role, policy) in FindPermissiveIamRoles(c, Listed(rs)) <==>
      exists i, j :: 0 <= i < |rs| && rs[i].name == role
        && 0 <= j < |rs[i].policies.items| && rs[i].policies.items[j].name == policy
        && Overly(rs[i].policies.items[j])
  {
    if RoleFinding(role, policy) in FindPermissiveIamRoles(c, Listed(rs)) {
      IamReported(c, rs, role, policy);
    }
    if exists i, j :: 0 <= i < |rs| && rs[i].name == role
        && 0 <= j < |rs[i].policies.items| && rs[i].policies.items[j].name == policy
        && Overly(rs[i].policies.items[j]) {
      var i, j :| 0 <= i < |rs| && rs[i].name == role
        && 0 <= j < |rs[i].policies.items| && rs[i].policies.items[j].name == policy
        && Overly(rs[i].policies.items[j]);
      IamFound(c, rs, i, j);
    }
  }

  lemma IamReported(c: Credentials, rs: seq<Role>, role: string, policy: string)
    requires !MissingCredentials(c) && !SomeRoleRejected(rs)
    requires RoleFinding(role, policy) in FindPermissiveIamRoles(c, Listed(rs))
    ensures exists i, j :: (0 <= i < |rs| && rs[i].name == role
                            && 0 <= j < |rs[i].policies.items| && rs[i].policies.items[j].name == policy
                            && Overly(rs[i].policies.items[j]))
  {
    var f := RoleFinding(role, policy);
    var i :| 0 <= i < |rs| && f in RoleFindings(rs[i].name, rs[i].policies.items);
    var ps := rs[i].policies.items;
    var j :| 0 <= j < |ps| && f in PolicyFindings(rs[i].name, ps[j]);
    assert f == RoleFinding(rs[i].name, ps[j].name);
    assert "Role has policy " + policy + " allowing all actions on all resources." ==
           "Role has policy " + ps[j].name + " allowing all actions on all resources.";
    SuffixCancel("Role has policy ", policy, ps[j].name, " allowing all actions on all resources.");
  }

  lemma IamFound(c: Credentials, rs: seq<Role>, i: int, j: int)
    requires !MissingCredentials(c) && !SomeRoleRejected(rs)
    requires 0 <= i < |rs| && 0 <= j < |rs[i].policies.items| && Overly(rs[i].policies.items[j])
    ensures RoleFinding(rs[i].name, rs[i].policies.items[j].name) in FindPermissiveIamRoles(c, Listed(rs))
  {
    var ps := rs[i].policies.items;
    var f := RoleFinding(rs[i].name, ps[j].name);
    var parts := seq(|ps|, k requires 0 <= k < |ps| => PolicyFindings(rs[i].name, ps[k]));
    assert f in parts[j];
    assert f in RoleFindings(rs[i].name, ps);
    var roleParts := seq(|rs|, k requires 0 <= k < |rs| => RoleFindings(rs[k].name, rs[k].policies.items));
    assert f in roleParts[i];
  }

  /** The policy name can be read back from the details text. */
  lemma SuffixCancel(a: string, x: string, y: string, b: string)
    requires a + x + b == a + y + b
    ensures x == y
  {
    var s := a + x + b;
    assert |x| == |y|;
    assert x == s[|a|..|a| + |x|];
    assert y == (a + y + b)[|a|..|a| + |y|];
  }

  // ---- Security groups ----

  datatype IpRange = IpRange(cidr: Option<string>)

  /** An inbound rule; `fromPort` is None when the rule has no FromPort. */
  datatype Rule = Rule(fromPort: Option<int>, ipRanges: seq<IpRange>)

  datatype SecurityGroup = SecurityGroup(groupId: string, rules: seq<Rule>)

  /** Some range of the rule is exactly 0.0.0.0/0. */
  predicate OpenToWorld(rule: Rule) {
    exists i :: 0 <= i < |rule.ipRanges| && rule.ipRanges[i].cidr == Some("0.0.0.0/0")
  }

  /** The port description: a missing or zero FromPort is falsy. */
  function PortInfo(fromPort: Option<int>): string {
    if fromPort.None? || fromPort.value == 0 then "all ports"
    else "port " + IntToDecimal(fromPort.value)
  }

  /** "all ports" exactly for a missing or zero port; otherwise the port
      number can be read back from the text after "port ". */
  lemma PortInfoReadable(fromPort: Option<int>)
    ensures PortInfo(fromPort) == "all ports" <==> fromPort.None? || fromPort.value == 0
    ensures fromPort.Some? && fromPort.value != 0 ==>
      |PortInfo(fromPort)| > 5 && PortInfo(fromPort)[..5] == "port "
      && ParseInt(PortInfo(fromPort)[5..]) == fromPort.value
  {
    if fromPort.Some? && fromPort.value != 0 {
      PortText(fromPort.value, PortInfo(fromPort));
    }
  }

  /** The text "port " followed by a port number reads back and differs
      from "all ports". */
  lemma PortText(port: int, s: string)
    requires s == "port " + IntToDecimal(port)
    ensures s != "all ports"
    ensures |s| > 5 && s[..5] == "port " && ParseInt(s[5..]) == port
  {
    assert s[5..] == IntToDecimal(port);
    IntRoundTrip(port);
    assert s[4] == ' ';
    assert "all ports"[4] != ' ';
  }

  function RuleFinding(group: string, rule: Rule): Finding {
    Raw(SgType, group, "Security group allows inbound access from 0.0.0.0/0 on " + PortInfo(rule.fromPort) + ".")
  }

  /** Which rules are open to the world, rule by rule: a rule is flagged
      exactly when one of its ranges has CidrIp 0.0.0.0/0. */
  function OpenFlags(rules: seq<Rule>): (r: seq<bool>)
    ensures |r| == |rules|
    ensures forall i :: 0 <= i < |rules| ==>
      (r[i] <==> exists j :: 0 <= j < |rules[i].ipRanges| && rules[i].ipRanges[j].cidr == Some("0.0.0.0/0"))
  {
    seq(|rules|, i requires 0 <= i < |rules| => OpenToWorld(rules[i]))
  }

  /** One finding per open rule, in rule order, however many of its ranges
      are open. */
  function GroupFindings(group: string, rules: seq<Rule>): (r: seq<Finding>)
    ensures |r| == Count(OpenFlags(rules), true)
    ensures forall k :: 0 <= k < |r| ==> r[k].kind == Some(SgType) && r[k].resourceId == Some(group)
  {
    if |rules| == 0 then []
    else
      var init := rules[..|rules| - 1];
      var last := rules[|rules| - 1];
      assert OpenFlags(rules)[..|rules| - 1] == OpenFlags(init);
      GroupFindings(group, init) + (if OpenToWorld(last) then [RuleFinding(group, last)] else [])
  }

  /** A group's findings follow its rules in order: one more rule appends
      its finding, naming the group and the rule's port, when the rule is
      open to the world. */
  lemma GroupFindingsAppend(group: string, rules: seq<Rule>, rule: Rule)
    ensures GroupFindings(group, []) == []
    ensures GroupFindings(group, rules + [rule])
         == GroupFindings(group, rules) + (if OpenToWorld(rule) then [RuleFinding(group, rule)] else [])
  {
    assert (rules + [rule])[..|rules|] == rules;
  }

  /** find_unrestricted_security_groups */
  function FindUnrestrictedSecurityGroups(c: Credentials, groups: Listing<SecurityGroup>): (r: seq<Finding>)
    ensures MissingCredentials(c) ==> r == [SgMock(NoCredentialsReason)]
    ensures !MissingCredentials(c) && groups.Rejected? ==> r == [SgMock(InvalidCredentialsReason)]
    ensures !MissingCredentials(c) && groups.Listed? ==>
      forall f :: f in r <==>
        exists i :: 0 <= i < |groups.items| && f in GroupFindings(groups.items[i].groupId, groups.items[i].rules)
  {
    if MissingCredentials(c) then [SgMock(NoCredentialsReason)]
    else match groups
      case Rejected => [SgMock(InvalidCredentialsReason)]
      case Listed(gs) =>
        var parts := seq(|gs|, i requires 0 <= i < |gs| => GroupFindings(gs[i].groupId, gs[i].rules));
        assert forall i :: 0 <= i < |gs| ==> parts[i] == GroupFindings(gs[i].groupId, gs[i].rules);
        Flatten(parts)
  }

  /** A real security-group scan lists the groups' findings group by
      group, in listing order. */
  lemma SgAppend(c: Credentials, gs: seq<SecurityGroup>, g: SecurityGroup)
    requires !MissingCredentials(c)
    ensures FindUnrestrictedSecurityGroups(c, Listed([])) == []
    ensures FindUnrestrictedSecurityGroups(c, Listed(gs + [g]))
         == FindUnrestrictedSecurityGroups(c, Listed(gs)) + GroupFindings(g.groupId, g.rules)
  {
    var gs' := gs + [g];
    var parts := seq(|gs|, i requires 0 <= i < |gs| => GroupFindings(gs[i].groupId, gs[i].rules));
    var parts' := seq(|gs'|, i requires 0 <= i < |gs'| => GroupFindings(gs'[i].groupId, gs'[i].rules));
    assert parts' == parts + [GroupFindings(g.groupId, g.rules)];
    FlattenAppend(parts, GroupFindings(g.groupId, g.rules));
  }

  /** A real security-group scan reports group `group` exactly when some
      listed group with that id has a rule with a range whose CidrIp is
      0.0.0.0/0. */
  lemma SgDetection(c: Credentials, gs: seq<SecurityGroup>, group: string)
    requires !MissingCredentials(c)
    ensures (exists f :: f in FindUnrestrictedSecurityGroups(c, Listed(gs)) && f.resourceId == Some(group)) <==>
      exists i, j :: 0 <= i < |gs| && gs[i].groupId == group && 0 <= j < |gs[i].rules| && OpenToWorld(gs[i].rules[j])
  {
    if exists f :: f in FindUnrestrictedSecurityGroups(c, Listed(gs)) && f.resourceId == Some(group) {
      SgReported(c, gs, group);
    }
    if exists i, j :: 0 <= i < |gs| && gs[i].groupId == group && 0 <= j < |gs[i].rules| && OpenToWorld(gs[i].rules[j]) {
      var i, j :| 0 <= i < |gs| && gs[i].groupId == group && 0 <= j < |gs[i].rules| && OpenToWorld(gs[i].rules[j]);
      SgFound(c, gs, i, j);
    }
  }

  lemma SgReported(c: Credentials, gs: seq<SecurityGroup>, group: string)
    requires !MissingCredentials(c)
    requires exists f :: f in FindUnrestrictedSecurityGroups(c, Listed(gs)) && f.resourceId == Some(group)
    ensures exists i, j :: (0 <= i < |gs| && gs[i].groupId == group && 0 <= j < |gs[i].rules|
                            && OpenToWorld(gs[i].rules[j]))
  {
    var f :| f in FindUnrestrictedSecurityGroups(c, Listed(gs)) && f.resourceId == Some(group);
    var i :| 0 <= i < |gs| && f in GroupFindings(gs[i].groupId, gs[i].rules);
    var j := OpenRuleOf(gs[i].groupId, gs[i].rules);
  }

  lemma SgFound(c: Credentials, gs: seq<SecurityGroup>, i: int, j: int)
    requires !MissingCredentials(c)
    requires 0 <= i < |gs| && 0 <= j < |gs[i].rules| && OpenToWorld(gs[i].rules[j])
    ensures exists f :: f in FindUnrestrictedSecurityGroups(c, Listed(gs)) && f.resourceId == Some(gs[i].groupId)
  {
    var fs := GroupFindings(gs[i].groupId, gs[i].rules);
    assert OpenFlags(gs[i].rules)[j];
    assert |fs| > 0;
    assert fs[0] in fs;
  }

  /** A group with a finding has a rule open to the world. */
  lemma OpenRuleOf(group: string, rules: seq<Rule>) returns (j: int)
    requires |GroupFindings(group, rules)| > 0
    ensures 0 <= j < |rules| && OpenToWorld(rules[j])
  {
    assert true in OpenFlags(rules);
    j :| 0 <= j < |rules| && OpenFlags(rules)[j];
  }

  /** scan_with_credentials: S3 findings, then IAM, then security groups. */
  function ScanWithCredentials(c: Credentials, buckets: Listing<Bucket>, roles: Listing<Role>,
                               groups: Listing<SecurityGroup>): (r: seq<Finding>)
    ensures var s3 := FindPublicS3Buckets(c, buckets);
      var iam := FindPermissiveIamRoles(c, roles);
      && |r| == |s3| + |iam| + |FindUnrestrictedSecurityGroups(c, groups)|
      && r[..|s3|] == s3
      && r[|s3|..|s3| + |iam|] == iam
      && r[|s3| + |iam|..] == FindUnrestrictedSecurityGroups(c, groups)
  {
    var s3 := FindPublicS3Buckets(c, buckets);
    var iam := FindPermissiveIamRoles(c, roles);
    var sg := FindUnrestrictedSecurityGroups(c, groups);
    var r := s3 + iam + sg;
    assert r[..|s3|] == s3;
    assert r[|s3|..|s3| + |iam|] == iam;
    assert r[|s3| + |iam|..] == sg;
    r
  }

  /** scan_all: the finders called without credentials, so the listings
      are never consulted. */
  function ScanAll(): seq<Finding> {
    ScanWithCredentials(NoCredentials, Rejected, Rejected, Rejected)
  }

  /** Without usable credentials every scan is the three placeholder
      findings, one per service, whatever the account holds. */
  lemma MissingCredentialsScan(c: Credentials, buckets: Listing<Bucket>, roles: Listing<Role>,
                               groups: Listing<SecurityGroup>)
    requires MissingCredentials(c)
    ensures ScanWithCredentials(c, buckets, roles, groups) == ScanAll()
    ensures ScanAll() == [S3Mock(NoCredentialsReason), IamMock(NoCredentialsReason), SgMock(NoCredentialsReason)]
  {
    assert MissingCredentials(NoCredentials);
  }

  /** When every listing call is refused, the scan is the three placeholder
      findings for invalid credentials. */
  lemma RejectedScan(c: Credentials)
    requires !MissingCredentials(c)
    ensures ScanWithCredentials(c, Rejected, Rejected, Rejected)
         == [S3Mock(InvalidCredentialsReason), IamMock(InvalidCredentialsReason), SgMock(InvalidCredentialsReason)]
  {
  }

  /** Every placeholder finding is a raw finding whose details say it is
      mock data; one has each service's type. */
  lemma MocksAreLabelled(reason: string)
    ensures forall f :: f in [S3Mock(reason), IamMock(reason), SgMock(reason)] ==>
      IsRaw(f) && Contains(f.details.value, "mock data")
    ensures [S3Mock(reason), IamMock(reason), SgMock(reason)][0].kind == Some(S3Type)
    ensures [S3Mock(reason), IamMock(reason), SgMock(reason)][1].kind == Some(IamType)
    ensures [S3Mock(reason), IamMock(reason), SgMock(reason)][2].kind == Some(SgType)
  {
  }

  /** Every finding the scanner produces is raw: it has `type`,
      `resource_id` and `details` and nothing else. */
  lemma ScanOutputIsRaw(c: Credentials, buckets: Listing<Bucket>, roles: Listing<Role>,
                        groups: Listing<SecurityGroup>)
    ensures forall f :: f in ScanWithCredentials(c, buckets, roles, groups) ==> IsRaw(f)
  {
    var s3 := FindPublicS3Buckets(c, buckets);
    var iam := FindPermissiveIamRoles(c, roles);
    var sg := FindUnrestrictedSecurityGroups(c, groups);
    S3FindingsRaw(c, buckets);
    IamFindingsRaw(c, roles);
    SgFindingsRaw(c, groups);
    assert ScanWithCredentials(c, buckets, roles, groups) == s3 + iam + sg;
  }

  lemma S3FindingsRaw(c: Credentials, buckets: Listing<Bucket>)
    ensures forall f :: f in FindPublicS3Buckets(c, buckets) ==> IsRaw(f)
  {
  }

  lemma IamFindingsRaw(c: Credentials, roles: Listing<Role>)
    ensures forall f :: f in FindPermissiveIamRoles(c, roles) ==> IsRaw(f)
  {
    var iam := FindPermissiveIamRoles(c, roles);
    if !MissingCredentials(c) && roles.Listed? && !SomeRoleRejected(roles.items) {
      forall f | f in iam ensures IsRaw(f) {
        var rs := roles.items;
        var i :| 0 <= i < |rs| && f in RoleFindings(rs[i].name, rs[i].policies.items);
        var ps := rs[i].policies.items;
        var j :| 0 <= j < |ps| && f in PolicyFindings(rs[i].name, ps[j]);
      }
    }
  }

  lemma SgFindingsRaw(c: Credentials, groups: Listing<SecurityGroup>)
    ensures forall f :: f in FindUnrestrictedSecurityGroups(c, groups) ==> IsRaw(f)
  {
    var sg := FindUnrestrictedSecurityGroups(c, groups);
    if !MissingCredentials(c) && groups.Listed? {
      forall f | f in sg ensures IsRaw(f) {
        var gs := groups.items;
        var i :| 0 <= i < |gs| && f in GroupFindings(gs[i].groupId, gs[i].rules);
        GroupFindingsRaw(gs[i].groupId, gs[i].rules);
      }
    }
  }

  lemma {:induction false} GroupFindingsRaw(group: string, rules: seq<Rule>)
    ensures forall f :: f in GroupFindings(group, rules) ==> IsRaw(f)
    decreases |rules|
  {
    if |rules| > 0 {
      GroupFindingsRaw(group, rules[..|rules| - 1]);
    }
  }
}
