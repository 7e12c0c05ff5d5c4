/** The comparator: for each resource group of a service, the live ids
    that the state does not track and the caller does not exclude, their
    number and, in a detailed scan, their live records; then the service's
    own reconciliation. A build is handed on to the state builder. */
module Casper {
  import opened Wrappers
  import opened Cloud
  import T = Terraform
  import S = Store
  import St = State
  import E = Ec2

  /** The services `get_service` knows. */
  datatype Service = Ec2Service | IamService | S3Service

  /** `SUPPORTED_SERVICES`: the table from a service name to its class. */
  const SupportedServices: map<string, Service> := map["ec2" := Ec2Service, "iam" := IamService, "s3" := S3Service]

  const IamUserGroup := "aws_iam_user"
  const IamRoleGroup := "aws_iam_role"
  const S3BucketGroup := "aws_s3_bucket"

  /** `resources_groups` of each service, in scan order. */
  function ResourceGroups(s: Service): seq<string> {
    match s
    case Ec2Service => E.ResourceGroups
    case IamService => [IamUserGroup, IamRoleGroup]
    case S3Service => [S3BucketGroup]
  }

  /** What ends a scan: a service `get_service` does not know, or a scan
      run before any state was built or loaded (`None.get`). */
  datatype Fault = UnsupportedService(name: string) | NoState

  /** `get_service`: the class of a named service, or an error. */
  function GetService(name: string): (r: Result<Service, Fault>)
    ensures r.Ok? <==> name == "ec2" || name == "iam" || name == "s3"
    ensures r.Err? ==> r.error == UnsupportedService(name)
  {
    if name in SupportedServices then Ok(SupportedServices[name]) else Err(UnsupportedService(name))
  }

  /** The account every service sees: EC2's paginated calls, and the one
      reply of `list_users`, `list_roles` and `list_buckets`. */
  datatype World = World(ec2: E.Account, users: seq<Record>, roles: seq<Record>, buckets: seq<Record>)

  /** `get_cloud_resources(group)` of a service: the live records of the
      group keyed by id; nothing for a group the service has no fetcher
      for. */
  function Live(w: World, s: Service, group: string): (m: Option<map<string, Record>>)
    ensures group in ResourceGroups(s) ==> m.Some?
  {
    match s
    case Ec2Service => E.Live(w.ec2, group)
    case IamService =>
      if group == IamUserGroup then Some(Keyed(w.users))
      else if group == IamRoleGroup then Some(Keyed(w.roles))
      else None
    case S3Service => if group == S3BucketGroup then Some(Keyed(w.buckets)) else None
  }

  method GetCloudResources(w: World, s: Service, group: string) returns (m: Option<map<string, Record>>)
    requires w.ec2.Valid()
    ensures m == Live(w, s, group)
  {
    match s
    case Ec2Service =>
      m := E.GetCloudResources(w.ec2, group);
    case IamService =>
      m := if group == IamUserGroup then Some(Keyed(w.users))
           else if group == IamRoleGroup then Some(Keyed(w.roles))
           else None;
    case S3Service =>
      m := if group == S3BucketGroup then Some(Keyed(w.buckets)) else None;
  }

  // -----------------------------------------------------------------------
  // One group

  /** The entry of one group: its ids are the live ids that are neither
      tracked nor excluded, each once; `count` is their number; a detailed
      entry gives the live record of each id at the same position, and a
      plain one has no records. */
  predicate GhostEntry(e: Entry, live: map<string, Record>, tracked: seq<string>, exclude: seq<string>, detailed: bool) {
    NoDup(e.ids) && Elems(e.ids) == live.Keys - Elems(tracked) - Elems(exclude)
    && e.count == |e.ids|
    && e.resources == (if detailed then Some(Aligned(e.ids, live)) else None)
  }

  /** The loop body of `scan`: the set difference of live and tracked
      ids, filtered by the exclusion list, listed in the set's order; with
      `detailed`, the records listed in that same order. */
  method ComputeGroup(live: map<string, Record>, tracked: seq<string>, exclude: seq<string>, detailed: bool)
    returns (e: Entry)
    ensures GhostEntry(e, live, tracked, exclude, detailed)
  {
    var diff := live.Keys - Elems(tracked);
    var ids := AsList(diff - Elems(exclude));
    var resources := if detailed then Some(Aligned(ids, live)) else None;
    e := Entry(ids, |ids|, resources);
  }

  /** An id is reported exactly when it is live, untracked and not
      excluded, and then exactly once. */
  lemma GhostIdsExact(e: Entry, live: map<string, Record>, tracked: seq<string>, exclude: seq<string>, detailed: bool, x: string)
    requires GhostEntry(e, live, tracked, exclude, detailed)
    ensures x in e.ids <==> x in live && x !in tracked && x !in exclude
    ensures x in e.ids ==> multiset(e.ids)[x] == 1
  {
    assert x in e.ids <==> x in Elems(e.ids);
    if x in e.ids {
      NoDupOnce(e.ids, x);
    }
  }

  /** The count is the number of distinct ghost ids. */
  lemma GhostCount(e: Entry, live: map<string, Record>, tracked: seq<string>, exclude: seq<string>, detailed: bool)
    requires GhostEntry(e, live, tracked, exclude, detailed)
    ensures e.count == |live.Keys - Elems(tracked) - Elems(exclude)|
  {
    NoDupSize(e.ids);
  }

  /** In a detailed entry every id has its live record beside it. */
  lemma DetailedRecords(e: Entry, live: map<string, Record>, tracked: seq<string>, exclude: seq<string>, i: nat)
    requires GhostEntry(e, live, tracked, exclude, true)
    requires i < |e.ids|
    ensures e.resources.Some? && |e.resources.value| == |e.ids|
    ensures e.ids[i] in live && e.resources.value[i] == Some(live[e.ids[i]])
  {
    assert e.ids[i] in Elems(e.ids);
  }

  /** One project tracks security group `sg-1`; the account has `sg-1`
      and `sg-2`: the report names `sg-2` alone. */
  lemma SecurityGroupScenario(e: Entry, r1: Record, r2: Record)
    requires r1.name == "sg-1" && r2.name == "sg-2"
    requires GhostEntry(e, map["sg-1" := r1, "sg-2" := r2], ["sg-1"], [], false)
    ensures e.ids == ["sg-2"] && e.count == 1 && e.resources.None?
  {
    var live := map["sg-1" := r1, "sg-2" := r2];
    assert Elems(["sg-1"]) == {"sg-1"};
    assert Elems([]) == {};
    assert live.Keys == {"sg-1", "sg-2"};
    assert Elems(e.ids) == {"sg-2"};
    NoDupSize(e.ids);
    assert e.ids[0] in Elems(e.ids);
  }

  /** A bucket the build found is filed under `aws_s3`, but the S3
      service reads the tracked ids of `aws_s3_bucket`: the bucket is
      reported as a ghost all the same. */
  lemma TrackedBucketStillReported(e: Entry, inv: St.Inventory, bucket: Record, tracked: seq<string>)
    requires inv == map["aws_s3" := tracked] && bucket.name in tracked
    requires GhostEntry(e, map[bucket.name := bucket], St.ListOf(inv, S3BucketGroup), [], false)
    ensures e.ids == [bucket.name] && e.count == 1
  {
    assert St.ListOf(inv, S3BucketGroup) == [];
    assert Elems([]) == {};
    assert Elems(e.ids) == {bucket.name};
    NoDupSize(e.ids);
    assert e.ids[0] in Elems(e.ids);
  }

  // -----------------------------------------------------------------------
  // The object

  /** `Casper`: where builds start, which cloud ids the caller excludes,
      and the state it builds and scans against. */
  class Casper {
    const startDir: string
    const profile: Option<string>
    const bucket: Option<string>
    const excludeResources: seq<string>
    const state: St.CasperState

    /** A start directory that is absent or `.` is the current working
        directory; no exclusion list is an empty one. The state keeps no
        inventory until a build or a load. */
    constructor (os: T.Os, environ: map<string, string>, storage: S.Storage, startDirectory: Option<string>,
                 bucketName: Option<string>, stateFile: string, profile: Option<string>,
                 excludeResources: Option<seq<string>>)
      ensures startDir == if startDirectory.None? || startDirectory.value == "." then os.cwd else startDirectory.value
      ensures this.excludeResources == if excludeResources.None? then [] else excludeResources.value
      ensures this.profile == profile && bucket == bucketName
      ensures fresh(state) && state.bucket == bucketName && state.profile == profile && state.storage == storage
      ensures state.stateObject == if stateFile != "" then stateFile else St.DefaultStateObject
      ensures state.command.os == os && state.inventory.None?
    {
      startDir := if startDirectory.None? || startDirectory.value == "." then os.cwd else startDirectory.value;
      this.excludeResources := if excludeResources.None? then [] else excludeResources.value;
      this.profile := profile;
      bucket := bucketName;
      state := new St.CasperState(os, environ, storage, profile, bucketName, Some(stateFile));
    }

    /** `build`: the state builder from the start directory, with the
        caller's exclusions handed on unchanged. */
    method Build(tree: St.Dir, excludeDirectories: set<string>, excludeStateRes: set<string>)
      returns (r: Result<St.Counter, St.Fault>)
      modifies state, state.command.os, state.storage
      ensures state.command.os.cwd == old(state.command.os.cwd) && state.inventory.Some?
      ensures var p := St.ScanDirs(state.Sh(), St.Start(old(state.Snapshot()), excludeStateRes),
                                   St.Walk(tree, startDir, [], excludeDirectories + St.IgnorePaths));
        (p.Ok? ==> r == Ok(state.counter) && state.inventory.Some? && state.Snapshot() == p.value
                   && state.storage.Contents()
                      == S.Saved(old(state.storage.Contents()), state.bucket, state.stateObject, state.LocalPath(), state.inventory))
        && (p.Err? ==> r == Err(p.error.fault) && state.Snapshot() == p.error.at
                       && state.storage.Contents() == old(state.storage.Contents()))
    {
      r := state.BuildStateResources(tree, startDir, excludeDirectories, excludeStateRes);
    }

    /** `scan`: one entry per resource group of the service, computed
        against the tracked state, then the service's hook (EC2's folds
        the members of ghost autoscaling groups into the instances).
        `before` is the report as it stood before the hook. Nothing of
        the state is changed or loaded. */
    method Scan(serviceName: string, detailed: bool, world: World)
      returns (r: Result<map<string, Entry>, Fault>, ghost before: map<string, Entry>)
      requires world.ec2.Valid()
      ensures r == Err(UnsupportedService(serviceName)) <==> GetService(serviceName).Err?
      ensures r == Err(NoState) <==> GetService(serviceName).Ok? && state.inventory.None?
      ensures r.Ok? <==> GetService(serviceName).Ok? && state.inventory.Some?
      ensures r.Ok? ==>
        var s := GetService(serviceName).value;
        before.Keys == Elems(ResourceGroups(s))
        && (forall g :: g in before ==>
              Live(world, s, g).Some?
              && GhostEntry(before[g], Live(world, s, g).value, St.ListOf(state.inventory.value, g),
                            excludeResources, detailed))
        && (s == Ec2Service ==> E.Hooked(world.ec2, before, r.value))
        && (s != Ec2Service ==> r.value == before)
    {
      before := map[];
      var service := GetService(serviceName);
      if service.Err? {
        return Err(service.error), before;
      }
      if state.inventory.None? {
        return Err(NoState), before;
      }
      var s := service.value;
      var tracked := state.inventory.value;
      var ghosts := ScanGroups(world, s, tracked, excludeResources, detailed);
      before := ghosts.entries;
      if s == Ec2Service {
        ReadyForHook(world.ec2, before, tracked, excludeResources, detailed);
        var hooked := E.ScanService(ghosts, world.ec2);
        assert hooked.Ok?;
      }
      r := Ok(ghosts.entries);
    }
  }

  /** The group loop of `scan`: a fresh report with one entry per
      resource group of the service. */
  method ScanGroups(world: World, s: Service, tracked: St.Inventory, exclude: seq<string>, detailed: bool)
    returns (ghosts: Ghosts)
    requires world.ec2.Valid()
    ensures fresh(ghosts)
    ensures ghosts.entries.Keys == Elems(ResourceGroups(s))
    ensures forall g :: g in ghosts.entries ==>
      Live(world, s, g).Some?
      && GhostEntry(ghosts.entries[g], Live(world, s, g).value, St.ListOf(tracked, g), exclude, detailed)
  {
    var groups := ResourceGroups(s);
    ghosts := new Ghosts();
    for i := 0 to |groups|
      invariant ghosts.entries.Keys == Elems(groups[..i])
      invariant forall g :: g in ghosts.entries ==>
        Live(world, s, g).Some?
        && GhostEntry(ghosts.entries[g], Live(world, s, g).value, St.ListOf(tracked, g), exclude, detailed)
    {
      var group := groups[i];
      assert groups[..i + 1] == groups[..i] + [group];
      var live := GetCloudResources(world, s, group);
      var e := ComputeGroup(live.value, St.ListOf(tracked, group), exclude, detailed);
      ghosts.Put(group, e);
    }
    assert groups[..|groups|] == groups;
  }

  /** The report the EC2 groups give never makes the hook raise: it has
      an instance entry, and every detailed record in it is present. */
  lemma ReadyForHook(acct: E.Account, entries: map<string, Entry>, tracked: St.Inventory,
                     exclude: seq<string>, detailed: bool)
    requires entries.Keys == Elems(E.ResourceGroups)
    requires forall g :: g in entries ==>
      E.Live(acct, g).Some? && GhostEntry(entries[g], E.Live(acct, g).value, St.ListOf(tracked, g), exclude, detailed)
    ensures E.InstanceGroup in entries
    ensures entries[E.InstanceGroup].resources.Some? ==> E.AllPresent(entries[E.InstanceGroup].resources.value)
  {
    assert E.InstanceGroup in Elems(E.ResourceGroups);
    var e := entries[E.InstanceGroup];
    var live := E.Live(acct, E.InstanceGroup).value;
    if e.resources.Some? {
      forall i | 0 <= i < |e.resources.value| ensures e.resources.value[i].Some? {
        assert e.ids[i] in Elems(e.ids);
      }
    }
  }
}
