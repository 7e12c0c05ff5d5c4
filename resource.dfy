/** The resource-type registry and the field extractor: a Terraform
    resource group (`aws_spot_instance_request`) names a handler class
    (`AwsSpotInstanceRequestResource`) by title-casing and dropping the
    underscores; each handler has a canonical tag under which its ids are
    kept, and pulls its id out of `terraform state show` text with the
    pattern `(\n|^)(<field>\s+.*?)(\n)`. */
module Resource {
  import opened Wrappers
  import opened PyStr

  /** The classes of the module whose names end in `Resource`: the ten
      handlers and their abstract base. */
  datatype Handler =
    | AwsAlb | AwsLb | AwsInstance | AwsSpotInstanceRequest | AwsElb
    | AwsAutoscalingGroup | AwsSecurityGroup | AwsS3Bucket | AwsIamUser | AwsIamRole
    | Base

  /** What goes wrong while asking a handler for something. */
  datatype Fault =
    | NoHandler      // the group names no class: `None.get_name()`
    | AbstractName   // the abstract base has no tag of its own
    | Abstract       // the abstract base cannot be instantiated
    | NoMatch        // no line of the text matches: `None[0]`
    | NoEquals       // the matched line has no `=`: `[...][1]`

  /** The module namespace as `getattr` sees it, for names ending in
      `Resource`. */
  const Registry: map<string, Handler> := map[
    "AwsAlbResource" := AwsAlb,
    "AwsLbResource" := AwsLb,
    "AwsInstanceResource" := AwsInstance,
    "AwsSpotInstanceRequestResource" := AwsSpotInstanceRequest,
    "AwsElbResource" := AwsElb,
    "AwsAutoscalingGroupResource" := AwsAutoscalingGroup,
    "AwsSecurityGroupResource" := AwsSecurityGroup,
    "AwsS3BucketResource" := AwsS3Bucket,
    "AwsIamUserResource" := AwsIamUser,
    "AwsIamRoleResource" := AwsIamRole,
    "Resource" := Base
  ]

  /** The class name a group is looked up under. */
  function ClassName(group: string): string {
    Without(Title(group), '_') + "Resource"
  }

  /** `_class_from_group` (and `get_resource_handler`): the handler class
      for a group, or none. */
  function ClassFromGroup(group: string): (h: Option<Handler>)
    ensures h.Some? <==> ClassName(group) in Registry
    ensures h.Some? ==> Registry[ClassName(group)] == h.value
  {
    var name := ClassName(group);
    if name in Registry then Some(Registry[name]) else None
  }

  /** The snake_case words of the group each handler is named after. */
  function Words(h: Handler): seq<string> {
    match h
    case AwsAlb => ["aws", "alb"]
    case AwsLb => ["aws", "lb"]
    case AwsInstance => ["aws", "instance"]
    case AwsSpotInstanceRequest => ["aws", "spot", "instance", "request"]
    case AwsElb => ["aws", "elb"]
    case AwsAutoscalingGroup => ["aws", "autoscaling", "group"]
    case AwsSecurityGroup => ["aws", "security", "group"]
    case AwsS3Bucket => ["aws", "s3", "bucket"]
    case AwsIamUser => ["aws", "iam", "user"]
    case AwsIamRole => ["aws", "iam", "role"]
    case Base => []
  }

  /** The resource group a handler is named after. */
  function GroupOf(h: Handler): string {
    JoinWith(Words(h), '_')
  }

  /** The class attribute `_name`: the key ids are stored under. */
  function Tag(h: Handler): (tag: Option<string>)
    ensures tag.None? <==> h == Base
  {
    match h
    case AwsAlb => Some("aws_alb")
    case AwsLb => Some("aws_alb")
    case AwsInstance => Some("aws_instance")
    case AwsSpotInstanceRequest => Some("aws_instance")
    case AwsElb => Some("aws_elb")
    case AwsAutoscalingGroup => Some("aws_autoscaling_group")
    case AwsSecurityGroup => Some("aws_security_group")
    case AwsS3Bucket => Some("aws_s3")
    case AwsIamUser => Some("aws_iam_user")
    case AwsIamRole => Some("aws_iam_role")
    case Base => None
  }

  /** The field `get_state_resource` reads. */
  function Field(h: Handler): string {
    match h
    case AwsAlb | AwsLb | AwsElb | AwsAutoscalingGroup => "name"
    case AwsSpotInstanceRequest => "spot_instance_id"
    case _ => "id"
  }

  /** `ResourceGroupManager.get_name`: the tag of the group's handler;
      it fails for a group without one. */
  function GetName(group: string): (r: Result<string, Fault>)
    ensures ClassFromGroup(group).None? <==> r == Err(NoHandler)
    ensures r.Ok? <==> ClassFromGroup(group).Some? && ClassFromGroup(group).value != Base
    ensures r.Ok? ==> Some(r.value) == Tag(ClassFromGroup(group).value)
  {
    match ClassFromGroup(group)
    case None => Err(NoHandler)
    case Some(h) => if h == Base then Err(AbstractName) else Ok(Tag(h).value)
  }

  // -----------------------------------------------------------------------
  // The lookup table

  /** `title()` followed by dropping `_` turns a snake_case name into the
      concatenation of its capitalised words. */
  lemma SnakeClassName(words: seq<string>)
    requires forall i :: 0 <= i < |words| ==> '_' !in words[i]
    ensures ClassName(JoinWith(words, '_')) == Concat(TitleEach(words)) + "Resource"
  {
    TitleSnake(words);
    var titled := TitleEach(words);
    forall i | 0 <= i < |titled| ensures '_' !in titled[i] {
      TitleEachAt(words, i);
      TitleNoUnderscore(words[i]);
    }
    WithoutJoin(titled, '_');
  }

  lemma TitleNoUnderscore(w: string)
    requires '_' !in w
    ensures '_' !in Title(w)
  {
    var t := Title(w);
    forall i | 0 <= i < |t| ensures t[i] != '_' {
      TitleAt(w, false, i);
      assert w[i] != '_';
    }
  }

  lemma {:induction false} TitleEachAt(words: seq<string>, i: nat)
    requires i < |words|
    ensures TitleEach(words)[i] == Title(words[i])
  {
    if i > 0 {
      TitleEachAt(words[1..], i - 1);
    }
  }

  /** The name each class is declared under. */
  function ClassKey(h: Handler): string {
    match h
    case AwsAlb => "AwsAlbResource"
    case AwsLb => "AwsLbResource"
    case AwsInstance => "AwsInstanceResource"
    case AwsSpotInstanceRequest => "AwsSpotInstanceRequestResource"
    case AwsElb => "AwsElbResource"
    case AwsAutoscalingGroup => "AwsAutoscalingGroupResource"
    case AwsSecurityGroup => "AwsSecurityGroupResource"
    case AwsS3Bucket => "AwsS3BucketResource"
    case AwsIamUser => "AwsIamUserResource"
    case AwsIamRole => "AwsIamRoleResource"
    case Base => "Resource"
  }

  /** A group whose class name is a handler's finds that handler. */
  lemma KeyLookup(group: string, h: Handler)
    requires ClassName(group) == ClassKey(h)
    ensures ClassFromGroup(group) == Some(h)
  {
  }

  /** `title()` turns the word `w`, which holds no underscore, into `c`. */
  predicate TitledWord(w: string, c: string) {
    '_' !in w && Title(w) == c
  }

  /** Titling a snake_case name whose words title to `caps`. */
  lemma TitledSnakeClassName(words: seq<string>, caps: seq<string>)
    requires |words| == |caps|
    requires forall i :: 0 <= i < |words| ==> TitledWord(words[i], caps[i])
    ensures ClassName(JoinWith(words, '_')) == Concat(caps) + "Resource"
  {
    forall i | 0 <= i < |words| ensures TitleEach(words)[i] == caps[i] {
      TitleEachAt(words, i);
    }
    assert TitleEach(words) == caps;
    SnakeClassName(words);
  }

  /** `c` is the lower-case word `w` with its first letter raised. */
  predicate Capitalises(w: string, c: string) {
    w != [] && '_' !in w && (forall j :: 0 <= j < |w| ==> IsLower(w[j])) && c == [ToUpper(w[0])] + w[1..]
  }

  /** A lower-case word titles to its capitalised form. */
  lemma TitleOf(w: string, c: string)
    requires Capitalises(w, c)
    ensures TitledWord(w, c)
  {
    TitleLowerWord(w);
  }

  // The words of the handlers' names, titled one by one. Each word is a
  // lemma of its own, stated on literals, so that the solver computes one
  // short `title()` at a time; the lookups below then combine them per
  // handler (one `Lookup*` and one `*Key` lemma each) instead of asking
  // the solver for all of the registry's names in one proof.

  lemma AwsTitle()
    ensures TitledWord("aws", "Aws")
  {
    TitleOf("aws", "Aws");
  }

  lemma AlbTitle()
    ensures TitledWord("alb", "Alb")
  {
    TitleOf("alb", "Alb");
  }

  lemma LbTitle()
    ensures TitledWord("lb", "Lb")
  {
    TitleOf("lb", "Lb");
  }

  lemma InstanceTitle()
    ensures TitledWord("instance", "Instance")
  {
    TitleOf("instance", "Instance");
  }

  lemma SpotTitle()
    ensures TitledWord("spot", "Spot")
  {
    TitleOf("spot", "Spot");
  }

  lemma RequestTitle()
    ensures TitledWord("request", "Request")
  {
    TitleOf("request", "Request");
  }

  lemma ElbTitle()
    ensures TitledWord("elb", "Elb")
  {
    TitleOf("elb", "Elb");
  }

  lemma AutoscalingTitle()
    ensures TitledWord("autoscaling", "Autoscaling")
  {
    TitleOf("autoscaling", "Autoscaling");
  }

  lemma GroupTitle()
    ensures TitledWord("group", "Group")
  {
    TitleOf("group", "Group");
  }

  lemma SecurityTitle()
    ensures TitledWord("security", "Security")
  {
    TitleOf("security", "Security");
  }

  lemma BucketTitle()
    ensures TitledWord("bucket", "Bucket")
  {
    TitleOf("bucket", "Bucket");
  }

  lemma IamTitle()
    ensures TitledWord("iam", "Iam")
  {
    TitleOf("iam", "Iam");
  }

  lemma UserTitle()
    ensures TitledWord("user", "User")
  {
    TitleOf("user", "User");
  }

  lemma RoleTitle()
    ensures TitledWord("role", "Role")
  {
    TitleOf("role", "Role");
  }

  /** `3` is not cased, so `title()` leaves it and raises only the `s`. */
  lemma S3Title()
    ensures TitledWord("s3", "S3")
  {
  }

  lemma Titled2(words: seq<string>, caps: seq<string>)
    requires |words| == |caps| == 2
    requires TitledWord(words[0], caps[0]) && TitledWord(words[1], caps[1])
    ensures forall i :: 0 <= i < |words| ==> TitledWord(words[i], caps[i])
  {
  }

  lemma Titled3(words: seq<string>, caps: seq<string>)
    requires |words| == |caps| == 3
    requires TitledWord(words[0], caps[0]) && TitledWord(words[1], caps[1]) && TitledWord(words[2], caps[2])
    ensures forall i :: 0 <= i < |words| ==> TitledWord(words[i], caps[i])
  {
  }

  lemma Titled4(words: seq<string>, caps: seq<string>)
    requires |words| == |caps| == 4
    requires TitledWord(words[0], caps[0]) && TitledWord(words[1], caps[1])
    requires TitledWord(words[2], caps[2]) && TitledWord(words[3], caps[3])
    ensures forall i :: 0 <= i < |words| ==> TitledWord(words[i], caps[i])
  {
  }

  lemma LookupAwsAlb(group: string)
    requires group == GroupOf(AwsAlb)
    ensures ClassFromGroup(group) == Some(AwsAlb)
  {
    var ws, cs := Words(AwsAlb), ["Aws", "Alb"];
    AwsTitle();
    AlbTitle();
    Titled2(ws, cs);
    TitledSnakeClassName(ws, cs);
    AwsAlbKey(cs);
    KeyLookup(group, AwsAlb);
  }

  lemma AwsAlbKey(cs: seq<string>)
    requires cs == ["Aws", "Alb"]
    ensures Concat(cs) + "Resource" == ClassKey(AwsAlb)
  {
    assert Concat(cs[1..]) == "Alb" + [];
  }

  lemma LookupAwsLb(group: string)
    requires group == GroupOf(AwsLb)
    ensures ClassFromGroup(group) == Some(AwsLb)
  {
    var ws, cs := Words(AwsLb), ["Aws", "Lb"];
    AwsTitle();
    LbTitle();
    Titled2(ws, cs);
    TitledSnakeClassName(ws, cs);
    AwsLbKey(cs);
    KeyLookup(group, AwsLb);
  }

  lemma AwsLbKey(cs: seq<string>)
    requires cs == ["Aws", "Lb"]
    ensures Concat(cs) + "Resource" == ClassKey(AwsLb)
  {
    assert Concat(cs[1..]) == "Lb" + [];
  }

  lemma LookupAwsInstance(group: string)
    requires group == GroupOf(AwsInstance)
    ensures ClassFromGroup(group) == Some(AwsInstance)
  {
    var ws, cs := Words(AwsInstance), ["Aws", "Instance"];
    AwsTitle();
    InstanceTitle();
    Titled2(ws, cs);
    TitledSnakeClassName(ws, cs);
    AwsInstanceKey(cs);
    KeyLookup(group, AwsInstance);
  }

  lemma AwsInstanceKey(cs: seq<string>)
    requires cs == ["Aws", "Instance"]
    ensures Concat(cs) + "Resource" == ClassKey(AwsInstance)
  {
    assert Concat(cs[1..]) == "Instance" + [];
  }

  lemma LookupAwsSpotInstanceRequest(group: string)
    requires group == GroupOf(AwsSpotInstanceRequest)
    ensures ClassFromGroup(group) == Some(AwsSpotInstanceRequest)
  {
    var ws, cs := Words(AwsSpotInstanceRequest), ["Aws", "Spot", "Instance", "Request"];
    AwsTitle();
    SpotTitle();
    InstanceTitle();
    RequestTitle();
    Titled4(ws, cs);
    TitledSnakeClassName(ws, cs);
    AwsSpotInstanceRequestKey(cs);
    KeyLookup(group, AwsSpotInstanceRequest);
  }

  lemma AwsSpotInstanceRequestKey(cs: seq<string>)
    requires cs == ["Aws", "Spot", "Instance", "Request"]
    ensures Concat(cs) + "Resource" == ClassKey(AwsSpotInstanceRequest)
  {
    assert Concat(cs[3..]) == "Request" + [];
    assert Concat(cs[2..]) == "Instance" + "Request";
    assert Concat(cs[1..]) == "Spot" + "InstanceRequest";
  }

  lemma LookupAwsElb(group: string)
    requires group == GroupOf(AwsElb)
    ensures ClassFromGroup(group) == Some(AwsElb)
  {
    var ws, cs := Words(AwsElb), ["Aws", "Elb"];
    AwsTitle();
    ElbTitle();
    Titled2(ws, cs);
    TitledSnakeClassName(ws, cs);
    AwsElbKey(cs);
    KeyLookup(group, AwsElb);
  }

  lemma AwsElbKey(cs: seq<string>)
    requires cs == ["Aws", "Elb"]
    ensures Concat(cs) + "Resource" == ClassKey(AwsElb)
  {
    assert Concat(cs[1..]) == "Elb" + [];
  }

  lemma LookupAwsAutoscalingGroup(group: string)
    requires group == GroupOf(AwsAutoscalingGroup)
    ensures ClassFromGroup(group) == Some(AwsAutoscalingGroup)
  {
    var ws, cs := Words(AwsAutoscalingGroup), ["Aws", "Autoscaling", "Group"];
    AwsTitle();
    AutoscalingTitle();
    GroupTitle();
    Titled3(ws, cs);
    TitledSnakeClassName(ws, cs);
    AwsAutoscalingGroupKey(cs);
    KeyLookup(group, AwsAutoscalingGroup);
  }

  lemma AwsAutoscalingGroupKey(cs: seq<string>)
    requires cs == ["Aws", "Autoscaling", "Group"]
    ensures Concat(cs) + "Resource" == ClassKey(AwsAutoscalingGroup)
  {
    assert Concat(cs[2..]) == "Group" + [];
    assert Concat(cs[1..]) == "Autoscaling" + "Group";
  }

  lemma LookupAwsSecurityGroup(group: string)
    requires group == GroupOf(AwsSecurityGroup)
    ensures ClassFromGroup(group) == Some(AwsSecurityGroup)
  {
    var ws, cs := Words(AwsSecurityGroup), ["Aws", "Security", "Group"];
    AwsTitle();
    SecurityTitle();
    GroupTitle();
    Titled3(ws, cs);
    TitledSnakeClassName(ws, cs);
    AwsSecurityGroupKey(cs);
    KeyLookup(group, AwsSecurityGroup);
  }

  lemma AwsSecurityGroupKey(cs: seq<string>)
    requires cs == ["Aws", "Security", "Group"]
    ensures Concat(cs) + "Resource" == ClassKey(AwsSecurityGroup)
  {
    assert Concat(cs[2..]) == "Group" + [];
    assert Concat(cs[1..]) == "Security" + "Group";
  }

  lemma LookupAwsS3Bucket(group: string)
    requires group == GroupOf(AwsS3Bucket)
    ensures ClassFromGroup(group) == Some(AwsS3Bucket)
  {
    var ws, cs := Words(AwsS3Bucket), ["Aws", "S3", "Bucket"];
    AwsTitle();
    S3Title();
    BucketTitle();
    Titled3(ws, cs);
    TitledSnakeClassName(ws, cs);
    AwsS3BucketKey(cs);
    KeyLookup(group, AwsS3Bucket);
  }

  lemma AwsS3BucketKey(cs: seq<string>)
    requires cs == ["Aws", "S3", "Bucket"]
    ensures Concat(cs) + "Resource" == ClassKey(AwsS3Bucket)
  {
    assert Concat(cs[2..]) == "Bucket" + [];
    assert Concat(cs[1..]) == "S3" + "Bucket";
  }

  lemma LookupAwsIamUser(group: string)
    requires group == GroupOf(AwsIamUser)
    ensures ClassFromGroup(group) == Some(AwsIamUser)
  {
    var ws, cs := Words(AwsIamUser), ["Aws", "Iam", "User"];
    AwsTitle();
    IamTitle();
    UserTitle();
    Titled3(ws, cs);
    TitledSnakeClassName(ws, cs);
    AwsIamUserKey(cs);
    KeyLookup(group, AwsIamUser);
  }

  lemma AwsIamUserKey(cs: seq<string>)
    requires cs == ["Aws", "Iam", "User"]
    ensures Concat(cs) + "Resource" == ClassKey(AwsIamUser)
  {
    assert Concat(cs[2..]) == "User" + [];
    assert Concat(cs[1..]) == "Iam" + "User";
  }

  lemma LookupAwsIamRole(group: string)
    requires group == GroupOf(AwsIamRole)
    ensures ClassFromGroup(group) == Some(AwsIamRole)
  {
    var ws, cs := Words(AwsIamRole), ["Aws", "Iam", "Role"];
    AwsTitle();
    IamTitle();
    RoleTitle();
    Titled3(ws, cs);
    TitledSnakeClassName(ws, cs);
    AwsIamRoleKey(cs);
    KeyLookup(group, AwsIamRole);
  }

  lemma AwsIamRoleKey(cs: seq<string>)
    requires cs == ["Aws", "Iam", "Role"]
    ensures Concat(cs) + "Resource" == ClassKey(AwsIamRole)
  {
    assert Concat(cs[2..]) == "Role" + [];
    assert Concat(cs[1..]) == "Iam" + "Role";
  }

  /** Every handler is what its own group looks up. */
  lemma LookupRoundTrip(h: Handler)
    ensures ClassFromGroup(GroupOf(h)) == Some(h)
  {
    match h
    case AwsAlb => LookupAwsAlb(GroupOf(h));
    case AwsLb => LookupAwsLb(GroupOf(h));
    case AwsInstance => LookupAwsInstance(GroupOf(h));
    case AwsSpotInstanceRequest => LookupAwsSpotInstanceRequest(GroupOf(h));
    case AwsElb => LookupAwsElb(GroupOf(h));
    case AwsAutoscalingGroup => LookupAwsAutoscalingGroup(GroupOf(h));
    case AwsSecurityGroup => LookupAwsSecurityGroup(GroupOf(h));
    case AwsS3Bucket => LookupAwsS3Bucket(GroupOf(h));
    case AwsIamUser => LookupAwsIamUser(GroupOf(h));
    case AwsIamRole => LookupAwsIamRole(GroupOf(h));
    case Base => assert ClassName(GroupOf(Base)) == "Resource";
  }

  /** Upper- and lower-case spellings of a group find the same handler. */
  lemma LookupIgnoresCase(group: string)
    ensures ClassFromGroup(Lower(group)) == ClassFromGroup(group)
  {
    TitleIgnoresCase(group, false);
  }

  /** `get_name` of a handler's own group is that handler's tag. */
  lemma NameOfGroup(h: Handler)
    requires h != Base
    ensures GetName(GroupOf(h)) == Ok(Tag(h).value)
  {
    LookupRoundTrip(h);
  }

  /** The tags that differ from the group: `aws_lb` is kept as `aws_alb`,
      `aws_spot_instance_request` as `aws_instance` and `aws_s3_bucket` as
      `aws_s3`; every other handler keeps its own group. */
  lemma CanonicalTags(h: Handler)
    ensures h == AwsLb ==> GetName(GroupOf(h)) == Ok("aws_alb")
    ensures h == AwsSpotInstanceRequest ==> GetName(GroupOf(h)) == Ok("aws_instance")
    ensures h == AwsS3Bucket ==> GetName(GroupOf(h)) == Ok("aws_s3")
    ensures h !in {AwsLb, AwsSpotInstanceRequest, AwsS3Bucket, Base} ==> GetName(GroupOf(h)) == Ok(GroupOf(h))
  {
    if h != Base {
      NameOfGroup(h);
      if h !in {AwsLb, AwsSpotInstanceRequest, AwsS3Bucket} {
        TagIsGroup(h);
      }
    }
  }

  lemma TagIsGroup(h: Handler)
    requires h !in {AwsLb, AwsSpotInstanceRequest, AwsS3Bucket, Base}
    ensures Tag(h) == Some(GroupOf(h))
  {
    if h in {AwsAlb, AwsInstance, AwsElb} {
      TwoWordTag(h);
    } else {
      ThreeWordTag(h);
    }
  }

  lemma TwoWordTag(h: Handler)
    requires h in {AwsAlb, AwsInstance, AwsElb}
    ensures Tag(h) == Some(GroupOf(h))
  {
    var ws := Words(h);
    match h
    case AwsAlb => JoinPair(ws, "alb", "aws_alb");
    case AwsInstance => JoinPair(ws, "instance", "aws_instance");
    case AwsElb => JoinPair(ws, "elb", "aws_elb");
  }

  lemma ThreeWordTag(h: Handler)
    requires h in {AwsAutoscalingGroup, AwsSecurityGroup, AwsIamUser, AwsIamRole}
    ensures Tag(h) == Some(GroupOf(h))
  {
    var ws := Words(h);
    match h
    case AwsAutoscalingGroup => JoinTriple(ws, "autoscaling", "group", "aws_autoscaling_group");
    case AwsSecurityGroup => JoinTriple(ws, "security", "group", "aws_security_group");
    case AwsIamUser => JoinTriple(ws, "iam", "user", "aws_iam_user");
    case AwsIamRole => JoinTriple(ws, "iam", "role", "aws_iam_role");
  }

  lemma JoinPair(ws: seq<string>, second: string, joined: string)
    requires ws == ["aws", second] && joined == "aws_" + second
    ensures JoinWith(ws, '_') == joined
  {
    assert JoinWith(ws[1..], '_') == second;
  }

  lemma JoinTriple(ws: seq<string>, second: string, third: string, joined: string)
    requires ws == ["aws", second, third] && joined == "aws_" + second + "_" + third
    ensures JoinWith(ws, '_') == joined
  {
    assert JoinWith(ws[2..], '_') == third;
    assert JoinWith(ws[1..], '_') == second + "_" + third;
  }

  // -----------------------------------------------------------------------
  // The field extractor: re.search(r"(\n|^)(<field>\s+.*?)(\n)", text)[0]

  /** A field name as the handlers use it: lower-case letters and `_`, so
      it stands for itself inside the pattern. */
  predicate ValidField(field: string) {
    field != [] && forall i :: 0 <= i < |field| ==> IsLower(field[i]) || field[i] == '_'
  }

  /** Position `k` begins a line: the start of the text or just after a
      newline (what `(\n|^)` allows). */
  predicate LineStart(text: string, k: nat) {
    k == 0 || (k <= |text| && text[k - 1] == '\n')
  }

  /** At `k` the text reads the field name followed by whitespace. */
  predicate KeyAt(text: string, field: string, k: nat) {
    k + |field| < |text| && text[k..k + |field|] == field && IsSpace(text[k + |field|])
  }

  predicate NewlineIn(text: string, lo: nat, hi: nat) {
    exists j :: lo <= j < hi && j < |text| && text[j] == '\n'
  }

  /** The length of the whitespace run at `i` (`\s+` taken greedily). */
  function SpaceRun(text: string, i: nat): (w: nat)
    requires i <= |text|
    ensures i + w <= |text| && AllSpace(text[i..i + w])
    ensures i + w == |text| || !IsSpace(text[i + w])
    decreases |text| - i
  {
    if i == |text| || !IsSpace(text[i]) then 0
    else
      var w := SpaceRun(text, i + 1);
      assert text[i..i + 1 + w] == [text[i]] + text[i + 1..i + 1 + w];
      1 + w
  }

  /** The first newline at or after `i`. */
  function FirstNewline(text: string, i: nat): (e: Option<nat>)
    requires i <= |text|
    ensures e.Some? ==> i <= e.value < |text| && text[e.value] == '\n'
                        && forall j :: i <= j < e.value ==> text[j] != '\n'
    ensures e.None? ==> forall j :: i <= j < |text| ==> text[j] != '\n'
    decreases |text| - i
  {
    if i == |text| then None
    else if text[i] == '\n' then Some(i)
    else FirstNewline(text, i + 1)
  }

  /** The last newline in `[lo, hi)`. */
  function LastNewline(text: string, lo: nat, hi: nat): (e: Option<nat>)
    requires lo <= hi <= |text|
    ensures e.Some? ==> lo <= e.value < hi && text[e.value] == '\n'
    ensures e.None? ==> forall j :: lo <= j < hi ==> text[j] != '\n'
    decreases hi - lo
  {
    if hi == lo then None
    else if text[hi - 1] == '\n' then Some(hi - 1)
    else LastNewline(text, lo, hi - 1)
  }

  /** Where `<field>\s+.*?\n` matched from `k` ends. `\s+` first takes
      the whole whitespace run and `.*?` then stops at the first newline;
      when no newline follows the run, `\s+` gives back characters until
      it ends just before a newline of its own. The match exists exactly
      when the field and a whitespace character stand at `k` and a newline
      comes somewhere after that character. */
  function LineEnd(text: string, field: string, k: nat): (e: Option<nat>)
    requires k <= |text|
    ensures e.Some? <==> KeyAt(text, field, k) && NewlineIn(text, k + |field| + 1, |text|)
    ensures e.Some? ==> k + |field| < e.value <= |text| && text[e.value - 1] == '\n'
  {
    if !(k + |field| <= |text| && text[k..k + |field|] == field) then None
    else
      var m := k + |field|;
      var w := SpaceRun(text, m);
      if w == 0 then None
      else
        match FirstNewline(text, m + w)
        case Some(e) => Some(e + 1)
        case None =>
          match LastNewline(text, m + 1, m + w)
          case Some(e) => Some(e + 1)
          case None =>
            assert !NewlineIn(text, m + 1, |text|);
            None
  }

  /** Where a match starting at `p` ends: `(\n|^)` tries the newline
      first and the start of the text second. */
  function MatchAt(text: string, field: string, p: nat): (e: Option<nat>)
    requires p <= |text|
    ensures e.Some? ==> p < e.value <= |text|
  {
    if p < |text| && text[p] == '\n' && LineEnd(text, field, p + 1).Some? then LineEnd(text, field, p + 1)
    else if p == 0 then LineEnd(text, field, 0)
    else None
  }

  /** `re.search` from `p`: the leftmost start with a match. */
  function Search(text: string, field: string, p: nat): (r: Option<(nat, nat)>)
    requires p <= |text|
    ensures r.Some? ==> p <= r.value.0 <= |text| && MatchAt(text, field, r.value.0) == Some(r.value.1)
    ensures r.Some? ==> forall q :: p <= q < r.value.0 ==> MatchAt(text, field, q).None?
    ensures r.None? ==> forall q :: p <= q <= |text| ==> MatchAt(text, field, q).None?
    decreases |text| - p
  {
    match MatchAt(text, field, p)
    case Some(e) => Some((p, e))
    case None =>
      if p == |text| then None
      else
        var r := Search(text, field, p + 1);
        assert r.Some? ==> forall q :: p <= q < r.value.0 ==> MatchAt(text, field, q).None? by {
          if r.Some? {
            forall q | p <= q < r.value.0 ensures MatchAt(text, field, q).None? {
              if q > p {
                assert p + 1 <= q < r.value.0;
              }
            }
          }
        }
        r
  }

  /** `_get_field`: the text between the first and second `=` of the
      matched line(s), stripped. */
  function GetField(field: string, text: string): (r: Result<string, Fault>)
    requires ValidField(field)
    ensures r.Err? ==> r.error in {NoMatch, NoEquals}
  {
    match Search(text, field, 0)
    case None => Err(NoMatch)
    case Some((s, e)) =>
      var parts := SplitOn(text[s..e], '=');
      if |parts| < 2 then Err(NoEquals) else Ok(Strip(parts[1]))
  }

  /** `get_state_resource` of a handler. */
  function GetStateResource(h: Handler, text: string): (r: Result<string, Fault>)
    ensures h == Base <==> r == Err(Abstract)
  {
    if h == Base then Err(Abstract) else FieldNames(h); GetField(Field(h), text)
  }

  /** An empty `terraform state show` output yields no id. */
  lemma NothingInEmpty(h: Handler)
    ensures GetStateResource(h, "").Err?
  {
    if h != Base {
      FieldNames(h);
      assert MatchAt("", Field(h), 0).None?;
    }
  }

  lemma FieldNames(h: Handler)
    ensures ValidField(Field(h))
  {
    var f := Field(h);
    assert f in {"name", "spot_instance_id", "id"};
  }

  /** A key line: it starts the text or follows a newline, reads the field
      and whitespace, and a newline comes after that whitespace character. */
  predicate KeyLine(text: string, field: string, k: nat) {
    k <= |text| && LineStart(text, k) && KeyAt(text, field, k) && NewlineIn(text, k + |field| + 1, |text|)
  }

  /** Extraction raises "no match" exactly when the text has no key line. */
  lemma NoMatchIffNoKeyLine(field: string, text: string)
    requires ValidField(field)
    ensures GetField(field, text) == Err(NoMatch) <==> forall k: nat :: !KeyLine(text, field, k)
  {
    var r := Search(text, field, 0);
    if r.Some? {
      var s := r.value.0;
      if s < |text| && text[s] == '\n' && LineEnd(text, field, s + 1).Some? {
        assert KeyLine(text, field, s + 1);
      } else {
        assert KeyLine(text, field, 0);
      }
    } else {
      forall k: nat | KeyLine(text, field, k) ensures false {
        KeyLineMatches(text, field, k);
      }
    }
  }

  /** The first key line decides: with a field name, a run of blanks,
      `=` and a one-line value after it, extraction gives the value up to
      a second `=`, stripped; quotes stay. */
  lemma {:induction false} FirstKeyLine(field: string, text: string, k: nat, sep: string, value: string, rest: string)
    requires ValidField(field)
    requires k <= |text| && LineStart(text, k)
    requires text[k..] == field + sep + "=" + value + "\n" + rest
    requires sep != [] && AllSpace(sep) && '\n' !in sep && '\n' !in value
    requires forall q: nat :: q < k ==> !KeyLine(text, field, q)
    ensures GetField(field, text) == Ok(Strip(SplitOn(value + "\n", '=')[0]))
    ensures '=' !in value ==> GetField(field, text) == Ok(Strip(value))
  {
    var e := k + |field| + |sep| + 1 + |value| + 1;
    KeyLineEnd(field, text, k, sep, value, rest);
    var s := if k == 0 then 0 else k - 1;
    FirstMatch(field, text, k, e);
    assert '=' !in sep by {
      forall i | 0 <= i < |sep| ensures sep[i] != '=' { assert IsSpace(sep[i]); }
    }
    if '=' !in value { StripLine(value); }
    MatchedLine(field, text, k, e, sep, value);
  }

  /** The matched text: the key line, with the newline before it. */
  lemma MatchedLine(field: string, text: string, k: nat, e: nat, sep: string, value: string)
    requires ValidField(field) && k <= e <= |text| && LineStart(text, k)
    requires text[k..e] == field + sep + "=" + value + "\n"
    requires '=' !in sep
    ensures k == 0 ==> SplitOn(text[0..e], '=') == [field + sep] + SplitOn(value + "\n", '=')
    ensures k > 0 ==> SplitOn(text[k - 1..e], '=') == ["\n" + field + sep] + SplitOn(value + "\n", '=')
  {
    var head := if k == 0 then field + sep else "\n" + field + sep;
    var s := if k == 0 then 0 else k - 1;
    var line := field + sep + "=" + value + "\n";
    assert text[s..e] == head + "=" + (value + "\n") by {
      if k > 0 { assert text[s..e] == [text[k - 1]] + line; }
    }
    assert '=' !in head by {
      assert forall i :: 0 <= i < |field| ==> field[i] != '=';
    }
    SplitPrefix(head, '=', value + "\n");
  }

  lemma StripLine(value: string)
    requires '=' !in value && '\n' !in value
    ensures Strip(SplitOn(value + "\n", '=')[0]) == Strip(value)
  {
    var line := value + "\n";
    assert SplitOn(line, '=')[0] == line by {
      assert '=' !in line;
      var parts := SplitOn(line, '=');
      assert |parts| == 1 && JoinWith(parts, '=') == parts[0];
    }
    assert Strip(line) == Strip(value) by {
      var none: string := [];
      assert none + value + "\n" == line;
      assert AllSpace("\n") && AllSpace(none);
      StripPadded(none, value, "\n");
    }
  }

  /** A key line written out ends just after its own newline. */
  lemma KeyLineEnd(field: string, text: string, k: nat, sep: string, value: string, rest: string)
    requires ValidField(field)
    requires k <= |text|
    requires text[k..] == field + sep + "=" + value + "\n" + rest
    requires sep != [] && AllSpace(sep) && '\n' !in sep && '\n' !in value
    ensures LineEnd(text, field, k) == Some(k + |field| + |sep| + 1 + |value| + 1)
    ensures text[k..k + |field| + |sep| + 1 + |value| + 1] == field + sep + "=" + value + "\n"
  {
    var m := k + |field|;
    var eq := m + |sep|;
    var nl := eq + 1 + |value|;
    KeyLineParts(field, text, k, sep, value, rest);
    assert SpaceRun(text, m) == |sep| by { SpaceRunExact(text, m, sep); }
    assert FirstNewline(text, eq) == Some(nl) by { FirstNewlineExact(text, eq, nl); }
  }

  /** Where the pieces of a key line written out at `k` stand. */
  lemma KeyLineParts(field: string, text: string, k: nat, sep: string, value: string, rest: string)
    requires k <= |text|
    requires text[k..] == field + sep + "=" + value + "\n" + rest
    requires '\n' !in value
    ensures var m := k + |field|; var eq := m + |sep|; var nl := eq + 1 + |value|;
      nl < |text| && text[k..nl + 1] == field + sep + "=" + value + "\n"
      && text[k..m] == field && text[m..eq] == sep && text[eq] == '=' && text[nl] == '\n'
      && forall j :: eq <= j < nl ==> text[j] != '\n'
  {
    var line := field + sep + "=" + value + "\n";
    var m := k + |field|;
    var eq := m + |sep|;
    var nl := eq + 1 + |value|;
    assert text[k..k + |line|] == line;
    assert text[k..m] == field;
    assert text[m..eq] == sep;
    assert text[eq] == '=';
    assert text[nl] == '\n';
    forall j | eq <= j < nl ensures text[j] != '\n' {
      if j > eq { assert text[j] == value[j - eq - 1]; }
    }
  }

  /** A key line at `k` gives a match starting at the newline before it,
      or at the start of the text. */
  lemma KeyLineMatches(text: string, field: string, k: nat)
    requires ValidField(field) && KeyLine(text, field, k)
    ensures MatchAt(text, field, if k == 0 then 0 else k - 1) == LineEnd(text, field, k)
    ensures LineEnd(text, field, k).Some?
  {
    if k == 0 { assert text[0] == field[0]; }
  }

  /** The key line at `k` is the first one, so the search starts its
      match at the newline before it (or at the start of the text). */
  lemma FirstMatch(field: string, text: string, k: nat, e: nat)
    requires ValidField(field)
    requires k < |text| && LineStart(text, k) && LineEnd(text, field, k) == Some(e)
    requires forall q: nat :: q < k ==> !KeyLine(text, field, q)
    ensures Search(text, field, 0) == Some((if k == 0 then 0 else k - 1, e))
  {
    var s := if k == 0 then 0 else k - 1;
    assert KeyLine(text, field, k);
    KeyLineMatches(text, field, k);
    assert MatchAt(text, field, s) == Some(e);
    NoEarlierMatch(field, text, k);
    SearchFindsFirst(text, field, 0, s);
  }

  lemma NoEarlierMatch(field: string, text: string, k: nat)
    requires k <= |text|
    requires forall q: nat :: q < k ==> !KeyLine(text, field, q)
    ensures forall q: nat :: q + 1 < k ==> MatchAt(text, field, q).None?
  {
    forall q: nat | q + 1 < k ensures MatchAt(text, field, q).None? {
      if MatchAt(text, field, q).Some? {
        MatchGivesKeyLine(text, field, q);
      }
    }
  }

  /** A match starting at `q` comes from a key line right after it, or
      from one at the start of the text. */
  lemma MatchGivesKeyLine(text: string, field: string, q: nat)
    requires q <= |text| && MatchAt(text, field, q).Some?
    ensures KeyLine(text, field, q + 1) || (q == 0 && KeyLine(text, field, 0))
  {
  }

  lemma SpaceRunExact(text: string, m: nat, sep: string)
    requires m + |sep| < |text| && text[m..m + |sep|] == sep && AllSpace(sep) && !IsSpace(text[m + |sep|])
    ensures SpaceRun(text, m) == |sep|
    decreases |sep|
  {
    if sep != [] {
      assert text[m] == sep[0];
      assert text[m + 1..m + |sep|] == sep[1..];
      SpaceRunExact(text, m + 1, sep[1..]);
    }
  }

  lemma FirstNewlineExact(text: string, i: nat, e: nat)
    requires i <= e < |text| && text[e] == '\n' && forall j :: i <= j < e ==> text[j] != '\n'
    ensures FirstNewline(text, i) == Some(e)
    decreases e - i
  {
    if i < e {
      FirstNewlineExact(text, i + 1, e);
    }
  }

  lemma SearchFindsFirst(text: string, field: string, p: nat, s: nat)
    requires p <= s <= |text| && MatchAt(text, field, s).Some?
    requires forall q :: p <= q < s ==> MatchAt(text, field, q).None?
    ensures Search(text, field, p) == Some((s, MatchAt(text, field, s).value))
    decreases s - p
  {
    if p < s {
      SearchFindsFirst(text, field, p + 1, s);
    }
  }

  /** A longer key that merely begins with the field name is not the field. */
  lemma LongerKeyIgnored(text: string)
    requires text == "ids = x\n"
    ensures GetField("id", text) == Err(NoMatch)
  {
    forall k: nat | KeyLine(text, "id", k) ensures false {
    }
    NoMatchIffNoKeyLine("id", text);
  }
}
