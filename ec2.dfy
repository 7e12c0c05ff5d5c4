/** The EC2 service: its five resource groups, the fetchers that fold the
    pages of the describe calls into one dictionary per group, the filter
    that keeps only running instances outside autoscaling groups, and the
    `scan_service` hook that folds the members of ghost autoscaling groups
    into the instance ghosts. The account is an oracle: every describe
    call is answered by the pages recorded in an `Account`. */
module Ec2 {
  import opened Wrappers
  import opened Cloud

  const InstanceGroup := "aws_instance"
  const ScalingGroup := "aws_autoscaling_group"
  const SecurityGroup := "aws_security_group"
  const AlbGroup := "aws_alb"
  const ElbGroup := "aws_elb"
  const LbGroup := "aws_lb"
  const SpotGroup := "aws_spot_instance_request"

  /** `State.Code` of a running instance. */
  const RunningCode := 16
  /** At most this many group names go into one `describe_auto_scaling_groups`. */
  const BatchSize: nat := 50

  /** `EC2Service._resources_groups`, in scan order. */
  const ResourceGroups: seq<string> := [InstanceGroup, ScalingGroup, SecurityGroup, AlbGroup, ElbGroup]

  /** What the account answers: the pages of each paginated describe
      call, the one reply of `describe_instances` (its reservations, each
      a list of instances), and the pages `describe_auto_scaling_groups`
      returns when asked for some group names. */
  datatype Account = Account(
    loadBalancers: seq<Page>,
    classicBalancers: seq<Page>,
    scalingGroups: seq<Page>,
    securityGroups: seq<Page>,
    reservations: seq<seq<Record>>,
    scalingInstances: seq<Page>,
    groupsNamed: seq<string> -> seq<Page>)
  {
    /** Every paginated call ends: its last page carries no token. */
    ghost predicate Valid() {
      Chained(loadBalancers) && Chained(classicBalancers) && Chained(scalingGroups)
      && Chained(securityGroups) && Chained(scalingInstances)
      && forall names :: Chained(groupsNamed(names))
    }
  }

  // -----------------------------------------------------------------------
  // Paginated inventories

  /** A paginated fetcher: the first reply's records keyed by id, then
      `dict.update` with each further reply while the last one carries a
      token. */
  method FetchPages(pages: seq<Page>) returns (m: map<string, Record>)
    requires Chained(pages)
    ensures m == Keyed(Items(pages))
  {
    var page := pages[0];
    m := Keyed(page.items);
    assert pages[..1] == [page];
    ItemsOne(page);
    var i := 1;
    while page.next.Some?
      invariant 1 <= i <= |pages| && page == pages[i - 1]
      invariant m == Keyed(Items(pages[..i]))
      decreases |pages| - i
    {
      page := pages[i];
      assert pages[..i + 1] == pages[..i] + [page];
      ItemsOne(page);
      ItemsConcat(pages[..i], [page]);
      KeyedConcat(Items(pages[..i]), page.items);
      m := m + Keyed(page.items);
      i := i + 1;
    }
    assert pages[..i] == pages;
  }

  /** The inventory holds one entry per id found on any page. */
  lemma PagedIds(pages: seq<Page>, k: string)
    ensures k in Keyed(Items(pages)) <==> exists i, r :: 0 <= i < |pages| && r in pages[i].items && r.name == k
  {
    var all := Items(pages);
    if k in Keyed(all) {
      var j :| 0 <= j < |all| && all[j].name == k;
      var r := all[j];
      assert r in all;
      var i :| 0 <= i < |pages| && r in pages[i].items;
    }
    forall i, r | 0 <= i < |pages| && r in pages[i].items && r.name == k ensures k in Keyed(all) {
      assert r in all;
      var j :| 0 <= j < |all| && all[j] == r;
    }
  }

  /** The items of the pages around page `i`. */
  lemma ItemsAround(pages: seq<Page>, i: nat)
    requires i < |pages|
    ensures Items(pages) == Items(pages[..i]) + pages[i].items + Items(pages[i + 1..])
  {
    var before, from := pages[..i], pages[i..];
    assert pages == before + from;
    assert from[0] == pages[i] && from[1..] == pages[i + 1..];
    ItemsConcat(before, from);
  }

  /** A later page overrides an earlier one: a record no later record
      shares its id with is the one kept. */
  lemma LaterPageOverrides(pages: seq<Page>, i: nat, j: nat)
    requires i < |pages| && j < |pages[i].items|
    requires forall k :: j < k < |pages[i].items| ==> pages[i].items[k].name != pages[i].items[j].name
    requires forall p, r :: i < p < |pages| && r in pages[p].items ==> r.name != pages[i].items[j].name
    ensures pages[i].items[j].name in Keyed(Items(pages))
    ensures Keyed(Items(pages))[pages[i].items[j].name] == pages[i].items[j]
  {
    var before, items, after := Items(pages[..i]), pages[i].items, Items(pages[i + 1..]);
    ItemsAround(pages, i);
    var all := Items(pages);
    var at := |before| + j;
    assert all[at] == items[j];
    forall k | at < k < |all| ensures all[k].name != items[j].name {
      if k < |before| + |items| {
        assert all[k] == items[k - |before|];
      } else {
        var r := all[k];
        assert r == after[k - |before| - |items|];
        assert r in after;
        var p :| 0 <= p < |pages[i + 1..]| && r in pages[i + 1..][p].items;
        assert pages[i + 1..][p] == pages[i + 1 + p];
      }
    }
    KeyedLast(all, at);
  }

  // -----------------------------------------------------------------------
  // Instances

  /** The running instances of one reservation, in order. */
  function RunningIn(instances: seq<Record>): (rs: seq<Record>)
    ensures forall r :: r in rs <==> r in instances && r.code == RunningCode
  {
    if instances == [] then []
    else (if instances[0].code == RunningCode then [instances[0]] else []) + RunningIn(instances[1..])
  }

  /** The running instances of all reservations, in order. */
  function Running(reservations: seq<seq<Record>>): (rs: seq<Record>)
    ensures forall r :: r in rs <==> r.code == RunningCode && exists i :: 0 <= i < |reservations| && r in reservations[i]
  {
    if reservations == [] then []
    else
      var rest := Running(reservations[1..]);
      assert forall r :: r in rest <==> r.code == RunningCode && exists i :: 1 <= i < |reservations| && r in reservations[i] by {
        forall r | r in rest ensures exists i :: 1 <= i < |reservations| && r in reservations[i] {
          var i :| 0 <= i < |reservations[1..]| && r in reservations[1..][i];
          assert r in reservations[i + 1];
        }
        forall r: Record, i | r.code == RunningCode && 1 <= i < |reservations| && r in reservations[i] ensures r in rest {
          assert r in reservations[1..][i - 1];
        }
      }
      RunningIn(reservations[0]) + rest
  }

  /** The running instances keyed by id hold a running instance under
      each id, and an id for each running instance. */
  lemma RunningKeyed(reservations: seq<seq<Record>>, k: string)
    ensures k in Keyed(Running(reservations)) ==> Keyed(Running(reservations))[k].code == RunningCode
    ensures k in Keyed(Running(reservations)) <==>
      exists i, r :: 0 <= i < |reservations| && r in reservations[i] && r.code == RunningCode && r.name == k
  {
    var rs := Running(reservations);
    if k in Keyed(rs) {
      KeyedFrom(rs, k);
      var r := Keyed(rs)[k];
      var i :| 0 <= i < |reservations| && r in reservations[i];
    }
    forall i, r | 0 <= i < |reservations| && r in reservations[i] && r.code == RunningCode && r.name == k
      ensures k in Keyed(rs)
    {
      assert r in rs;
      var j :| 0 <= j < |rs| && rs[j] == r;
    }
  }

  /** `static_instances`: the running instances keyed by id, less every
      id the autoscaling-instance query returned. Every instance kept is
      running and is no autoscaling member. */
  function StaticInstances(reservations: seq<seq<Record>>, dynamic: seq<string>): (m: map<string, Record>)
    ensures forall k :: k in m <==> k !in dynamic && exists i, r :: 0 <= i < |reservations| && r in reservations[i] && r.code == RunningCode && r.name == k
    ensures forall k :: k in m ==> m[k].name == k && m[k].code == RunningCode
  {
    var ec2s := Keyed(Running(reservations));
    var m := map k | k in ec2s && k !in dynamic :: ec2s[k];
    assert forall k :: k in m ==> m[k].name == k && m[k].code == RunningCode by {
      forall k | k in m ensures m[k].name == k && m[k].code == RunningCode {
        RunningKeyed(reservations, k);
      }
    }
    assert forall k :: k in m <==> k !in dynamic && exists i, r :: 0 <= i < |reservations| && r in reservations[i] && r.code == RunningCode && r.name == k by {
      forall k ensures k in m <==> k !in dynamic && exists i, r :: 0 <= i < |reservations| && r in reservations[i] && r.code == RunningCode && r.name == k {
        RunningKeyed(reservations, k);
      }
    }
    m
  }

  /** `AwsInstanceResource.get_cloud_resource`: the running instances of
      the one `describe_instances` reply, less the instance ids of every
      page of `describe_auto_scaling_instances`. */
  method FetchInstances(acct: Account) returns (m: map<string, Record>)
    requires Chained(acct.scalingInstances)
    ensures m == StaticInstances(acct.reservations, Names(Items(acct.scalingInstances)))
  {
    var pages := acct.scalingInstances;
    var page := pages[0];
    var dynamic := Names(page.items);
    assert pages[..1] == [page];
    ItemsOne(page);
    var i := 1;
    while page.next.Some?
      invariant 1 <= i <= |pages| && page == pages[i - 1]
      invariant dynamic == Names(Items(pages[..i]))
      decreases |pages| - i
    {
      page := pages[i];
      assert pages[..i + 1] == pages[..i] + [page];
      ItemsOne(page);
      ItemsConcat(pages[..i], [page]);
      NamesConcat(Items(pages[..i]), page.items);
      dynamic := dynamic + Names(page.items);
      i := i + 1;
    }
    assert pages[..i] == pages;
    m := StaticInstances(acct.reservations, dynamic);
  }

  /** What `get_cloud_resources` answers for a group: the inventory of
      the handler class of that group, nothing for a group without one. */
  function Live(acct: Account, group: string): (m: Option<map<string, Record>>)
    ensures m.Some? <==> group in ResourceGroups || group == LbGroup || group == SpotGroup
  {
    if group == InstanceGroup || group == SpotGroup then
      Some(StaticInstances(acct.reservations, Names(Items(acct.scalingInstances))))
    else if group == ScalingGroup then Some(Keyed(Items(acct.scalingGroups)))
    else if group == SecurityGroup then Some(Keyed(Items(acct.securityGroups)))
    else if group == AlbGroup || group == LbGroup then Some(Keyed(Items(acct.loadBalancers)))
    else if group == ElbGroup then Some(Keyed(Items(acct.classicBalancers)))
    else None
  }

  /** `get_cloud_resources`: run the fetcher of the group's class. */
  method GetCloudResources(acct: Account, group: string) returns (m: Option<map<string, Record>>)
    requires acct.Valid()
    ensures m == Live(acct, group)
  {
    if group == InstanceGroup || group == SpotGroup {
      var found := FetchInstances(acct);
      m := Some(found);
    } else if group == ScalingGroup {
      var found := FetchPages(acct.scalingGroups);
      m := Some(found);
    } else if group == SecurityGroup {
      var found := FetchPages(acct.securityGroups);
      m := Some(found);
    } else if group == AlbGroup || group == LbGroup {
      var found := FetchPages(acct.loadBalancers);
      m := Some(found);
    } else if group == ElbGroup {
      var found := FetchPages(acct.classicBalancers);
      m := Some(found);
    } else {
      m := None;
    }
  }

  // -----------------------------------------------------------------------
  // Batches

  /** The batches laid end to end. */
  function Joined(bs: seq<seq<string>>): seq<string> {
    if bs == [] then [] else bs[0] + Joined(bs[1..])
  }

  /** `batch(xs, n)`: consecutive slices of `xs`, each non-empty, all of
      length `n` but the last, which holds the rest; together they are
      `xs` again. */
  function Batch(xs: seq<string>, n: nat): (bs: seq<seq<string>>)
    requires n > 0
    ensures Joined(bs) == xs
    ensures forall i :: 0 <= i < |bs| ==> 0 < |bs[i]| <= n
    ensures forall i :: 0 <= i < |bs| - 1 ==> |bs[i]| == n
    decreases |xs|
  {
    if xs == [] then []
    else if |xs| <= n then
      assert [xs][1..] == [] && xs + [] == xs;
      [xs]
    else
      var rest := Batch(xs[n..], n);
      var bs := [xs[..n]] + rest;
      assert bs[0] == xs[..n] && bs[1..] == rest;
      assert xs[..n] + xs[n..] == xs;
      bs
  }

  /** Every name lies in one of the batches it is split into. */
  lemma {:induction false} JoinedCovers(bs: seq<seq<string>>, x: string)
    requires x in Joined(bs)
    ensures exists b :: b in bs && x in b
  {
    if x !in bs[0] {
      JoinedCovers(bs[1..], x);
      var b :| b in bs[1..] && x in b;
      assert b in bs;
    }
  }

  // -----------------------------------------------------------------------
  // The `scan_service` hook

  /** The member instances of some autoscaling groups, group by group. */
  function Members(groups: seq<Record>): (ms: seq<Record>)
    ensures forall m :: m in ms <==> exists g :: g in groups && m in g.members
  {
    if groups == [] then [] else groups[0].members + Members(groups[1..])
  }

  /** The member instances the batched calls return for the given
      batches, batch by batch and page by page. */
  function BatchMembers(acct: Account, batches: seq<seq<string>>): seq<Record>
    decreases |batches|
  {
    if batches == [] then []
    else BatchMembers(acct, batches[..|batches| - 1]) + Members(Items(acct.groupsNamed(batches[|batches| - 1])))
  }

  /** `asg_instances`: the member instances of the ghost autoscaling
      groups `names`, keyed by instance id. */
  function Folded(acct: Account, names: seq<string>): map<string, Record> {
    Keyed(BatchMembers(acct, Batch(names, BatchSize)))
  }

  /** A page whose items are the member instances of the groups of
      another page, with the same token. */
  function MemberPages(pages: seq<Page>): (ps: seq<Page>)
    ensures |ps| == |pages|
    ensures forall i :: 0 <= i < |pages| ==> ps[i] == Page(Members(pages[i].items), pages[i].next)
  {
    seq(|pages|, i requires 0 <= i < |pages| => Page(Members(pages[i].items), pages[i].next))
  }

  lemma {:induction false} MembersConcat(a: seq<Record>, b: seq<Record>)
    ensures Members(a + b) == Members(a) + Members(b)
  {
    if a == [] {
      assert a + b == b;
    } else {
      assert (a + b)[0] == a[0] && (a + b)[1..] == a[1..] + b;
      MembersConcat(a[1..], b);
    }
  }

  lemma {:induction false} MemberPagesItems(pages: seq<Page>)
    ensures Items(MemberPages(pages)) == Members(Items(pages))
  {
    if pages != [] {
      var ps := MemberPages(pages);
      assert ps[1..] == MemberPages(pages[1..]);
      MemberPagesItems(pages[1..]);
      MembersConcat(pages[0].items, Items(pages[1..]));
    }
  }

  /** The loop over batches in `scan_service`: each batch's pages, member
      instances keyed by id, folded in with `dict.update`. */
  method FoldMembers(acct: Account, names: seq<string>) returns (m: map<string, Record>)
    requires acct.Valid()
    ensures m == Folded(acct, names)
  {
    var batches := Batch(names, BatchSize);
    m := map[];
    for i := 0 to |batches|
      invariant m == Keyed(BatchMembers(acct, batches[..i]))
    {
      var pages := acct.groupsNamed(batches[i]);
      MemberPagesItems(pages);
      var found := FetchPages(MemberPages(pages));
      assert batches[..i + 1][..i] == batches[..i];
      KeyedConcat(BatchMembers(acct, batches[..i]), Members(Items(pages)));
      m := m + found;
    }
    assert batches[..|batches|] == batches;
  }

  /** The member instances the batched calls return are those of the
      groups on the pages returned for the batches. */
  lemma {:induction false} BatchMembersHas(acct: Account, batches: seq<seq<string>>, inst: Record)
    ensures inst in BatchMembers(acct, batches) <==>
      exists b, g :: b in batches && g in Items(acct.groupsNamed(b)) && inst in g.members
    decreases |batches|
  {
    if batches != [] {
      var init, last := batches[..|batches| - 1], batches[|batches| - 1];
      BatchMembersHas(acct, init, inst);
      assert batches == init + [last];
      forall b, g | b in batches && g in Items(acct.groupsNamed(b)) && inst in g.members
        ensures inst in BatchMembers(acct, batches)
      {
        if b != last {
          assert b in init;
        }
      }
    }
  }

  /** An instance is folded in exactly when it is a member of a group the
      batched calls returned for the ghost autoscaling groups. */
  lemma FoldedMembers(acct: Account, batches: seq<seq<string>>, x: string)
    ensures x in Keyed(BatchMembers(acct, batches)) <==>
      exists b, g, inst :: b in batches && g in Items(acct.groupsNamed(b)) && inst in g.members && inst.name == x
  {
    var ms := BatchMembers(acct, batches);
    if x in Keyed(ms) {
      var j :| 0 <= j < |ms| && ms[j].name == x;
      assert ms[j] in ms;
      BatchMembersHas(acct, batches, ms[j]);
    }
    forall b, g, inst | b in batches && g in Items(acct.groupsNamed(b)) && inst in g.members && inst.name == x
      ensures x in Keyed(ms)
    {
      BatchMembersHas(acct, batches, inst);
      var j :| 0 <= j < |ms| && ms[j] == inst;
    }
  }

  /** Some autoscaling group is a ghost: the hook has work to do. */
  predicate HasGhostGroups(entries: map<string, Entry>) {
    ScalingGroup in entries && |entries[ScalingGroup].ids| > 0
  }

  /** Every slot of a detailed list holds a record. */
  predicate AllPresent(rs: seq<Option<Record>>) {
    forall i :: 0 <= i < |rs| ==> rs[i].Some?
  }

  /** The records of a detailed list, in order. */
  function Records(rs: seq<Option<Record>>): (out: seq<Record>)
    requires AllPresent(rs)
    ensures |out| == |rs| && forall i :: 0 <= i < |rs| ==> Some(out[i]) == rs[i]
  {
    seq(|rs|, i requires 0 <= i < |rs| && AllPresent(rs) => rs[i].value)
  }

  /** The ids of the instance entry `e1` after the hook, from the entry
      `e` before it and the member instances `folded` of the ghost
      autoscaling groups: the union, each once, and their number. */
  predicate Regrouped(e: Entry, folded: map<string, Record>, e1: Entry) {
    NoDup(e1.ids) && Elems(e1.ids) == Elems(e.ids) + folded.Keys && e1.count == |e1.ids|
  }

  /** The whole instance entry after the hook: regrouped ids, and the
      records, when there were any, realigned with the new ids, an
      instance's own record taking precedence over its member record. */
  predicate Refolded(e: Entry, folded: map<string, Record>, e1: Entry) {
    Regrouped(e, folded, e1)
    && (e.resources.None? ==> e1.resources.None?)
    && (e.resources.Some? ==>
          AllPresent(e.resources.value)
          && e1.resources == Some(Aligned(e1.ids, folded + Keyed(Records(e.resources.value)))))
  }

  /** What a hook that returns leaves in the report. */
  predicate Hooked(acct: Account, before: map<string, Entry>, after: map<string, Entry>) {
    if !HasGhostGroups(before) then after == before
    else
      InstanceGroup in before && InstanceGroup in after
      && after == before[InstanceGroup := after[InstanceGroup]]
      && Refolded(before[InstanceGroup], Folded(acct, before[ScalingGroup].ids), after[InstanceGroup])
  }

  /** What leaves the hook as an exception: no `aws_instance` entry
      (KeyError), or a detailed record that is `None` (TypeError). */
  datatype Fault = MissingGroup(group: string) | NullRecord

  /** `EC2Service.scan_service`. */
  method ScanService(ghosts: Ghosts, acct: Account) returns (r: Result<(), Fault>)
    requires acct.Valid()
    modifies ghosts
    ensures r.Ok? ==> Hooked(acct, old(ghosts.entries), ghosts.entries)
    ensures r.Err? ==> r == Err(MissingGroup(InstanceGroup)) || r == Err(NullRecord)
    ensures r == Err(MissingGroup(InstanceGroup)) <==> HasGhostGroups(old(ghosts.entries)) && InstanceGroup !in old(ghosts.entries)
    ensures r == Err(MissingGroup(InstanceGroup)) ==> ghosts.entries == old(ghosts.entries)
    ensures r == Err(NullRecord) <==>
      HasGhostGroups(old(ghosts.entries)) && InstanceGroup in old(ghosts.entries)
      && old(ghosts.entries)[InstanceGroup].resources.Some?
      && !AllPresent(old(ghosts.entries)[InstanceGroup].resources.value)
    ensures r == Err(NullRecord) ==>
      var e := old(ghosts.entries)[InstanceGroup];
      InstanceGroup in ghosts.entries && ghosts.entries == old(ghosts.entries)[InstanceGroup := ghosts.entries[InstanceGroup]]
      && Regrouped(e, Folded(acct, old(ghosts.entries)[ScalingGroup].ids), ghosts.entries[InstanceGroup])
      && ghosts.entries[InstanceGroup].resources == e.resources
  {
    if !HasGhostGroups(ghosts.entries) {
      return Ok(());
    }
    if InstanceGroup !in ghosts.entries {
      return Err(MissingGroup(InstanceGroup));
    }
    r := FoldGhostGroups(ghosts, acct);
  }

  /** The body of `scan_service` once there is a ghost autoscaling group
      and an instance entry: fold the member instances into the ids, then
      realign the records. */
  method FoldGhostGroups(ghosts: Ghosts, acct: Account) returns (r: Result<(), Fault>)
    requires acct.Valid() && HasGhostGroups(ghosts.entries) && InstanceGroup in ghosts.entries
    modifies ghosts
    ensures InstanceGroup in ghosts.entries
    ensures ghosts.entries == old(ghosts.entries)[InstanceGroup := ghosts.entries[InstanceGroup]]
    ensures var e := old(ghosts.entries)[InstanceGroup];
      var folded := Folded(acct, old(ghosts.entries)[ScalingGroup].ids);
      Regrouped(e, folded, ghosts.entries[InstanceGroup])
      && (r.Ok? ==> Refolded(e, folded, ghosts.entries[InstanceGroup]))
      && (r.Err? ==> r == Err(NullRecord) && ghosts.entries[InstanceGroup].resources == e.resources)
      && (r.Err? <==> e.resources.Some? && !AllPresent(e.resources.value))
  {
    var e := ghosts.entries[InstanceGroup];
    var found := FoldMembers(acct, ghosts.entries[ScalingGroup].ids);
    var e1 := Regroup(e, found);
    ghosts.Put(InstanceGroup, e1);
    if e.resources.Some? {
      if !AllPresent(e.resources.value) {
        return Err(NullRecord);
      }
      var e2 := Realign(e, found, e1);
      ghosts.Put(InstanceGroup, e2);
    }
    r := Ok(());
  }

  /** The instance ids of `scan_service`: `set(ids)`, updated with the
      folded member ids, back to a list; the count follows. */
  method Regroup(e: Entry, folded: map<string, Record>) returns (e1: Entry)
    ensures Regrouped(e, folded, e1) && e1.resources == e.resources
  {
    var instances := Elems(e.ids);
    instances := instances + folded.Keys;
    var ids := AsList(instances);
    e1 := e.(ids := ids, count := |ids|);
  }

  /** The detailed records of `scan_service`: the instance's own records
      keyed by id update the member records, and each new id gets its
      record. */
  method Realign(e: Entry, folded: map<string, Record>, e1: Entry) returns (e2: Entry)
    requires Regrouped(e, folded, e1) && e.resources.Some? && AllPresent(e.resources.value)
    ensures Refolded(e, folded, e2)
  {
    var found := folded + Keyed(Records(e.resources.value));
    e2 := e1.(resources := Some(Aligned(e1.ids, found)));
  }

  // -----------------------------------------------------------------------
  // What the hook promises

  /** Without a ghost autoscaling group the report is left as it was. */
  lemma NoGhostGroupsNoChange(acct: Account, before: map<string, Entry>, after: map<string, Entry>)
    requires Hooked(acct, before, after) && !HasGhostGroups(before)
    ensures after == before
  {
  }

  /** A member `x` of a ghost autoscaling group, on a page the batched
      call returned, ends up among the instance ghosts, whatever the
      exclusion list and the state said of it; no instance ghost is lost
      and every group but `aws_instance` is untouched. */
  lemma GhostGroupMembersReported(acct: Account, before: map<string, Entry>, after: map<string, Entry>,
                                  b: seq<string>, g: Record, x: Record)
    requires Hooked(acct, before, after) && HasGhostGroups(before)
    requires b in Batch(before[ScalingGroup].ids, BatchSize)
    requires g in Items(acct.groupsNamed(b)) && x in g.members
    ensures x.name in after[InstanceGroup].ids
    ensures forall y :: y in before[InstanceGroup].ids ==> y in after[InstanceGroup].ids
    ensures forall t :: t in before && t != InstanceGroup ==> t in after && after[t] == before[t]
  {
    FoldedMembers(acct, Batch(before[ScalingGroup].ids, BatchSize), x.name);
    assert x.name in Elems(after[InstanceGroup].ids);
  }

  /** Every ghost autoscaling group is asked about in some batch. */
  lemma EveryGhostGroupAsked(names: seq<string>, name: string)
    requires name in names
    ensures exists b :: b in Batch(names, BatchSize) && name in b
  {
    JoinedCovers(Batch(names, BatchSize), name);
  }

  /** An instance's own record, when it is the last with its id in the
      detailed list, is the one reported for it after the hook. */
  lemma OwnRecordWins(acct: Account, before: map<string, Entry>, after: map<string, Entry>, j: nat, i: nat)
    requires Hooked(acct, before, after) && HasGhostGroups(before)
    requires before[InstanceGroup].resources.Some?
    requires var rs := before[InstanceGroup].resources.value;
      j < |rs| && rs[j].Some?
      && forall k :: j < k < |rs| && rs[k].Some? ==> rs[k].value.name != rs[j].value.name
    requires i < |after[InstanceGroup].ids| && after[InstanceGroup].ids[i] == before[InstanceGroup].resources.value[j].value.name
    ensures after[InstanceGroup].resources.Some?
    ensures i < |after[InstanceGroup].resources.value|
    ensures after[InstanceGroup].resources.value[i] == before[InstanceGroup].resources.value[j]
  {
    var rs := before[InstanceGroup].resources.value;
    var recs := Records(rs);
    assert recs[j] == rs[j].value;
    KeyedLast(recs, j);
  }
}
