/** The state builder: walk the project tree, list the Terraform state of
    every directory holding `.tf` files, show each listed resource, pull
    its id out with the handler for its group and file it under the
    handler's canonical tag; then persist the inventory. */
module State {
  import opened Wrappers
  import opened PyStr
  import T = Terraform
  import R = Resource
  import S = Store

  /** Directory names the walk never enters. */
  const IgnorePaths: set<string> := {".git", ".terraform"}
  /** Resource groups never shown. */
  const IgnoreResourceGroup: set<string> := {"terraform_remote_state"}
  const DefaultStateObject := "terraform_state"
  const ListCommand := "terraform state list"

  function ShowCommand(line: string): string {
    "terraform state show " + line
  }

  type Inventory = S.Inventory

  /** An exception that ends a build: the runner raised, a listed line
      has no `.` (IndexError), the handler could not extract the id, or
      the local state file to load is missing. */
  datatype Fault = ShellFault(T.Fault) | NoGroup(line: string) | ExtractFault(R.Fault) | StoreFault(S.Fault)

  /** An exception raised part-way through a build, with what the build
      had reached when it was raised: everything filed, counted, excluded
      and started before the raise stays on the object. */
  datatype Raised = Raised(fault: Fault, at: Acc)

  /** `_counter`: projects listed, ids found, tags created. */
  datatype Counter = Counter(state: nat, resource: nat, resourceGroup: nat)

  // -----------------------------------------------------------------------
  // The directory walk

  /** A directory as `os.walk` sees it: its name, the names of its files
      and its subdirectories, in listing order. */
  datatype Dir = Dir(name: string, files: seq<string>, children: seq<Dir>)

  /** One `(dirpath, dirnames, filenames)` step: the path, the names
      leading to it from the start directory, and its files. */
  datatype Visit = Visit(path: string, chain: seq<string>, files: seq<string>)

  /** No name after the first `from` ones on the way to `v` is excluded. */
  predicate Clear(v: Visit, from: nat, ex: set<string>) {
    forall i :: from <= i < |v.chain| ==> v.chain[i] !in ex
  }

  /** `os.walk` top-down with `dirnames[:]` pruned by `ex`: the directory
      itself first, then each kept subdirectory in turn. Every visit lies
      below the start, and no name on the way to it is excluded. */
  function Walk(d: Dir, path: string, chain: seq<string>, ex: set<string>): (r: seq<Visit>)
    ensures |r| >= 1 && r[0] == Visit(path, chain, d.files)
    ensures forall v :: v in r ==> |chain| <= |v.chain| && v.chain[..|chain|] == chain
    ensures forall v :: v in r ==> Clear(v, |chain|, ex)
    decreases d
  {
    [Visit(path, chain, d.files)] + WalkAll(d.children, path, chain, ex)
  }

  function WalkAll(ds: seq<Dir>, parent: string, chain: seq<string>, ex: set<string>): (r: seq<Visit>)
    ensures forall v :: v in r ==> |chain| < |v.chain| && v.chain[..|chain|] == chain
    ensures forall v :: v in r ==> Clear(v, |chain|, ex)
    decreases ds
  {
    if ds == [] then []
    else
      var name := ds[0].name;
      var here := if name in ex then [] else Walk(ds[0], PathJoin(parent, name), chain + [name], ex);
      UnderName(here, chain, name);
      here + WalkAll(ds[1..], parent, chain, ex)
  }

  /** Visits below `chain + [name]` are below `chain`, through `name`. */
  lemma UnderName(vs: seq<Visit>, chain: seq<string>, name: string)
    requires forall v :: v in vs ==> |chain| + 1 <= |v.chain| && v.chain[..|chain| + 1] == chain + [name]
    ensures forall v :: v in vs ==> v.chain[..|chain|] == chain && v.chain[|chain|] == name
  {
    forall v | v in vs ensures v.chain[..|chain|] == chain && v.chain[|chain|] == name {
      assert v.chain[..|chain| + 1] == chain + [name];
      assert v.chain[..|chain|] == v.chain[..|chain| + 1][..|chain|];
    }
  }

  /** The visits of `vs` that pass no excluded name after the first
      `from` ones, in order. */
  function Keep(vs: seq<Visit>, from: nat, ex: set<string>): (r: seq<Visit>)
    ensures forall v :: v in r <==> v in vs && Clear(v, from, ex)
  {
    if vs == [] then []
    else (if Clear(vs[0], from, ex) then [vs[0]] else []) + Keep(vs[1..], from, ex)
  }

  lemma {:induction false} KeepConcat(a: seq<Visit>, b: seq<Visit>, from: nat, ex: set<string>)
    ensures Keep(a + b, from, ex) == Keep(a, from, ex) + Keep(b, from, ex)
  {
    if a == [] {
      assert a + b == b;
    } else {
      assert (a + b)[0] == a[0] && (a + b)[1..] == a[1..] + b;
      KeepConcat(a[1..], b, from, ex);
    }
  }

  /** Visits whose name at `from` is excluded are all dropped. */
  lemma {:induction false} KeepNone(vs: seq<Visit>, from: nat, ex: set<string>)
    requires forall v :: v in vs ==> from < |v.chain| && v.chain[from] in ex
    ensures Keep(vs, from, ex) == []
  {
    if vs != [] {
      assert vs[0] in vs;
      assert !Clear(vs[0], from, ex);
      KeepNone(vs[1..], from, ex);
    }
  }

  /** A kept name at `from` may be skipped by the filter. */
  lemma {:induction false} KeepShift(vs: seq<Visit>, from: nat, ex: set<string>)
    requires forall v :: v in vs ==> from < |v.chain| && v.chain[from] !in ex
    ensures Keep(vs, from, ex) == Keep(vs, from + 1, ex)
  {
    if vs != [] {
      assert Clear(vs[0], from, ex) == Clear(vs[0], from + 1, ex);
      KeepShift(vs[1..], from, ex);
    }
  }

  /** Pruning loses nothing else: the pruned walk is the full walk with
      the visits below an excluded name filtered out, in the same order. */
  lemma {:induction false} WalkPrunes(d: Dir, path: string, chain: seq<string>, ex: set<string>)
    ensures Walk(d, path, chain, ex) == Keep(Walk(d, path, chain, {}), |chain|, ex)
    decreases d
  {
    var top := Visit(path, chain, d.files);
    assert Clear(top, |chain|, ex);
    KeepConcat([top], WalkAll(d.children, path, chain, {}), |chain|, ex);
    WalkAllPrunes(d.children, path, chain, ex);
  }

  lemma {:induction false} WalkAllPrunes(ds: seq<Dir>, parent: string, chain: seq<string>, ex: set<string>)
    ensures WalkAll(ds, parent, chain, ex) == Keep(WalkAll(ds, parent, chain, {}), |chain|, ex)
    decreases ds
  {
    if ds != [] {
      var name := ds[0].name;
      var p := PathJoin(parent, name);
      var full := Walk(ds[0], p, chain + [name], {});
      var rest := WalkAll(ds[1..], parent, chain, {});
      var here := if name in ex then [] else Walk(ds[0], p, chain + [name], ex);
      assert WalkAll(ds, parent, chain, {}) == full + rest;
      assert WalkAll(ds, parent, chain, ex) == here + WalkAll(ds[1..], parent, chain, ex);
      assert here == Keep(full, |chain|, ex) by {
        forall v | v in full ensures |chain| < |v.chain| && v.chain[|chain|] == name {
          assert v.chain[..|chain| + 1] == chain + [name];
        }
        if name in ex {
          KeepNone(full, |chain|, ex);
        } else {
          KeepShift(full, |chain|, ex);
          WalkPrunes(ds[0], p, chain + [name], ex);
        }
      }
      WalkAllPrunes(ds[1..], parent, chain, ex);
      KeepConcat(full, rest, |chain|, ex);
    }
  }

  // -----------------------------------------------------------------------
  // Projects and listed lines

  /** A directory is a Terraform project when one of its file names ends
      in `.tf`. */
  predicate IsProject(files: seq<string>) {
    exists i :: 0 <= i < |files| && EndsWith(files[i], ".tf")
  }

  /** `_is_terraform_state`: a scan with a flag that stops at the first
      `.tf` file. */
  method IsTerraformState(files: seq<string>) returns (isState: bool)
    ensures isState <==> IsProject(files)
  {
    isState := false;
    var k := 0;
    while k < |files|
      invariant 0 <= k <= |files|
      invariant !isState
      invariant forall i :: 0 <= i < k ==> !EndsWith(files[i], ".tf")
    {
      if EndsWith(files[k], ".tf") {
        isState := true;
        break;
      }
      k := k + 1;
    }
  }

  /** A `.tfvars` file does not make a project. */
  lemma TfvarsIsNotTf(f: string)
    requires EndsWith(f, ".tfvars")
    ensures !EndsWith(f, ".tf")
  {
    assert f[|f| - 1] == 's';
  }

  /** The group of a listed address is its second-to-last `.` segment;
      an address without `.` raises. */
  function GroupOfLine(line: string): (r: Result<string, Fault>)
    ensures r.Err? <==> '.' !in line
    ensures r.Err? ==> r.error == NoGroup(line)
    ensures r.Ok? ==> '.' !in r.value
  {
    var parts := SplitOn(line, '.');
    if |parts| < 2 then Err(NoGroup(line)) else Ok(parts[|parts| - 2])
  }

  /** An address `<prefix><group>.<name>`, whatever module path the
      prefix holds, has that group. */
  lemma {:induction false} GroupOfAddress(prefix: string, group: string, name: string)
    requires prefix == [] || prefix[|prefix| - 1] == '.'
    requires '.' !in group && '.' !in name
    ensures GroupOfLine(prefix + group + ['.'] + name) == Ok(group)
  {
    var tail := group + ['.'] + name;
    var line := prefix + group + ['.'] + name;
    var parts := SplitOn(line, '.');
    TailPieces(group, name);
    if prefix == [] {
      assert line == tail;
    } else {
      var a := prefix[..|prefix| - 1];
      assert line == a + ['.'] + tail;
      assert parts == SplitOn(a, '.') + [group, name] by {
        SplitAround(a, '.', tail);
      }
    }
    assert |parts| >= 2 && parts[|parts| - 2] == group;
  }

  lemma TailPieces(group: string, name: string)
    requires '.' !in group && '.' !in name
    ensures SplitOn(group + ['.'] + name, '.') == [group, name]
  {
    SplitPrefix(group, '.', name);
  }

  /** The lines of a listing that are not blank, in order. */
  function NonBlank(lines: seq<string>): (r: seq<string>)
    ensures forall x :: x in r <==> x in lines && Strip(x) != []
    ensures |r| <= |lines|
  {
    if lines == [] then []
    else (if Strip(lines[0]) != [] then [lines[0]] else []) + NonBlank(lines[1..])
  }

  function ListedLines(data: string): seq<string> {
    NonBlank(SplitOn(data, '\n'))
  }

  // -----------------------------------------------------------------------
  // The build as a fold

  /** One id filed under a tag, in the order the build found them. */
  datatype Found = Found(tag: string, id: string)

  /** What a build has so far: the inventory, the counters, the excluded
      groups, how many processes the runner has started, and every id
      filed. */
  datatype Acc = Acc(inv: Inventory, counter: Counter, excluded: set<string>, launched: nat, found: seq<Found>)

  /** The runner as the builder sees it: the n-th process started ends as
      `script(n)`, and every command gets the same timeout. */
  datatype Shell = Shell(script: nat -> T.Outcome, timeout: nat)

  /** What `run_command` answers when `n` processes have started before. */
  function Answer(sh: Shell, n: nat, directory: string): T.Answer {
    T.Verdict(directory, sh.timeout, sh.script(n), sh.script(n + 1), sh.script(n + 2))
  }

  /** How many processes have started once that `run_command` returns. */
  function After(sh: Shell, n: nat): (m: nat)
    ensures n < m <= n + 3
  {
    n + T.Attempts(sh.script(n), sh.script(n + 1))
  }

  /** The list under a tag, a missing tag reading as empty. */
  function ListOf(inv: Inventory, tag: string): seq<string> {
    if tag in inv then inv[tag] else []
  }

  /** The ids filed under `tag`, in order, duplicates kept. */
  function Tagged(fs: seq<Found>, tag: string): (ids: seq<string>)
    ensures |ids| <= |fs|
  {
    if fs == [] then []
    else (if fs[0].tag == tag then [fs[0].id] else []) + Tagged(fs[1..], tag)
  }

  /** Filing an id: appended to a non-empty list, otherwise the tag gets a
      new one-element list and the group counter goes up. */
  function Add(acc: Acc, tag: string, id: string): (a: Acc)
    ensures ListOf(a.inv, tag) == ListOf(acc.inv, tag) + [id] && tag in a.inv
    ensures forall t :: t != tag ==> ListOf(a.inv, t) == ListOf(acc.inv, t) && (t in a.inv <==> t in acc.inv)
    ensures a.counter.resource == acc.counter.resource + 1
    ensures a.counter.resourceGroup == acc.counter.resourceGroup + (if ListOf(acc.inv, tag) == [] then 1 else 0)
    ensures a.counter.state == acc.counter.state
    ensures a.found == acc.found + [Found(tag, id)]
    ensures a.excluded == acc.excluded && a.launched == acc.launched
  {
    var c := acc.counter.(resource := acc.counter.resource + 1);
    if tag in acc.inv && acc.inv[tag] != [] then
      acc.(inv := acc.inv[tag := acc.inv[tag] + [id]], counter := c, found := acc.found + [Found(tag, id)])
    else
      acc.(inv := acc.inv[tag := [id]], counter := c.(resourceGroup := c.resourceGroup + 1),
           found := acc.found + [Found(tag, id)])
  }

  /** `_process_response`: the handler's id, or, for a group without a
      handler, nothing and the group remembered as excluded. */
  function Process(acc: Acc, group: string, text: string): (r: Result<(Acc, Option<string>), Fault>)
    ensures R.ClassFromGroup(group).None? ==> r == Ok((acc.(excluded := acc.excluded + {group}), None))
    ensures R.ClassFromGroup(group).Some? ==>
      var e := R.GetStateResource(R.ClassFromGroup(group).value, text);
      (e.Ok? ==> r == Ok((acc, Some(e.value)))) && (e.Err? ==> r == Err(ExtractFault(e.error)))
  {
    match R.ClassFromGroup(group)
    case None => Ok((acc.(excluded := acc.excluded + {group}), None))
    case Some(h) =>
      match R.GetStateResource(h, text)
      case Err(e) => Err(ExtractFault(e))
      case Ok(id) => Ok((acc, Some(id)))
  }

  /** `_get_state_resource`: show the address in `directory`; a failed or
      empty show gives nothing. */
  function Show(sh: Shell, directory: string, acc: Acc, line: string): (r: Result<(Acc, Option<string>), Raised>)
  {
    match GroupOfLine(line)
    case Err(f) => Err(Raised(f, acc))
    case Ok(group) =>
      var acc1 := acc.(launched := After(sh, acc.launched));
      match Answer(sh, acc.launched, directory)
      case Err(f) => Err(Raised(ShellFault(f), acc1))
      case Ok(reply) =>
        if !(reply.success && reply.data != "") then Ok((acc1, None))
        else
          match Process(acc1, group, reply.data)
          case Err(f) => Err(Raised(f, acc1))
          case Ok(shown) => Ok(shown)
  }

  /** One listed address in `_list_state_resources`. */
  function StepLine(sh: Shell, directory: string, acc: Acc, line: string): (r: Result<Acc, Raised>)
  {
    match GroupOfLine(line)
    case Err(f) => Err(Raised(f, acc))
    case Ok(group) =>
      if group in acc.excluded then Ok(acc)
      else
        var shown :- Show(sh, directory, acc, line);
        var (acc1, id) := shown;
        if id.Some? && id.value != "" then
          match R.GetName(group)
          case Err(e) => Err(Raised(ExtractFault(e), Counted(acc1)))
          case Ok(tag) => Ok(Add(acc1, tag, id.value))
        else Ok(acc1)
  }

  /** The `resource` count goes up before the tag is looked up. */
  function Counted(acc: Acc): (a: Acc)
    ensures a.counter.resource == acc.counter.resource + 1
  {
    acc.(counter := acc.counter.(resource := acc.counter.resource + 1))
  }

  function StepLines(sh: Shell, directory: string, acc: Acc, lines: seq<string>): (r: Result<Acc, Raised>)
    decreases |lines|
  {
    if lines == [] then Ok(acc)
    else
      var acc1 :- StepLine(sh, directory, acc, lines[0]);
      StepLines(sh, directory, acc1, lines[1..])
  }

  /** `_list_state_resources`: list the state of `directory`; a failed
      listing adds nothing and is not counted. */
  function ListState(sh: Shell, directory: string, acc: Acc): (r: Result<Acc, Raised>)
  {
    match Answer(sh, acc.launched, directory)
    case Err(f) => Err(Raised(ShellFault(f), acc.(launched := After(sh, acc.launched))))
    case Ok(reply) => Listed(sh, directory, acc.(launched := After(sh, acc.launched)), reply.success, ListedLines(reply.data))
  }

  /** What the listing does with the runner's reply: on success, count the
      project and step through the listed lines. */
  function Listed(sh: Shell, directory: string, acc: Acc, success: bool, lines: seq<string>): (r: Result<Acc, Raised>)
  {
    if success then
      StepLines(sh, directory, acc.(counter := acc.counter.(state := acc.counter.state + 1)), lines)
    else Ok(acc)
  }

  /** One directory of the walk: list it when it is a project. */
  function VisitStep(sh: Shell, acc: Acc, v: Visit): Result<Acc, Raised> {
    if IsProject(v.files) then ListState(sh, v.path, acc) else Ok(acc)
  }

  /** The walk of `build_state_resources`: list every project visited. */
  function ScanDirs(sh: Shell, acc: Acc, visits: seq<Visit>): (r: Result<Acc, Raised>)
    decreases |visits|
  {
    if visits == [] then Ok(acc)
    else
      var acc1 :- VisitStep(sh, acc, visits[0]);
      ScanDirs(sh, acc1, visits[1..])
  }

  /** The exclusion a build starts with: the caller's groups (none when
      the argument is empty) and the always-ignored ones; the excluded set
      of an earlier build is replaced. */
  function Start(acc: Acc, excludeStateRes: set<string>): (a: Acc)
    ensures IgnoreResourceGroup <= a.excluded && excludeStateRes <= a.excluded
    ensures a.inv == acc.inv && a.counter == acc.counter && a.found == acc.found && a.launched == acc.launched
  {
    acc.(excluded := excludeStateRes + IgnoreResourceGroup)
  }

  // -----------------------------------------------------------------------
  // What a build promises

  /** The inventory after filing `fs` in order. */
  function FileAll(inv: Inventory, fs: seq<Found>): Inventory
    decreases |fs|
  {
    if fs == [] then inv
    else FileAll(inv[fs[0].tag := ListOf(inv, fs[0].tag) + [fs[0].id]], fs[1..])
  }

  lemma {:induction false} FileAllConcat(inv: Inventory, a: seq<Found>, b: seq<Found>)
    ensures FileAll(inv, a + b) == FileAll(FileAll(inv, a), b)
    decreases |a|
  {
    if a == [] {
      assert a + b == b;
    } else {
      assert (a + b)[0] == a[0] && (a + b)[1..] == a[1..] + b;
      FileAllConcat(inv[a[0].tag := ListOf(inv, a[0].tag) + [a[0].id]], a[1..], b);
    }
  }

  /** Filing appends each id to its tag's list, in order and keeping
      duplicates, and creates exactly the tags that receive an id. */
  lemma {:induction false} FileAllLists(inv: Inventory, fs: seq<Found>, tag: string)
    ensures ListOf(FileAll(inv, fs), tag) == ListOf(inv, tag) + Tagged(fs, tag)
    ensures tag in FileAll(inv, fs) <==> tag in inv || Tagged(fs, tag) != []
    decreases |fs|
  {
    if fs != [] {
      var inv1 := inv[fs[0].tag := ListOf(inv, fs[0].tag) + [fs[0].id]];
      FileAllLists(inv1, fs[1..], tag);
    }
  }

  /** `b` continues `a`: ids are only ever filed after what was there,
      one `resource` count per id; counters, exclusions and processes
      started never go down. */
  predicate Extends(a: Acc, b: Acc) {
    |a.found| <= |b.found| && b.found[..|a.found|] == a.found
    && b.inv == FileAll(a.inv, b.found[|a.found|..])
    && b.counter.resource == a.counter.resource + (|b.found| - |a.found|)
    && a.counter.state <= b.counter.state
    && a.counter.resourceGroup <= b.counter.resourceGroup
    && a.excluded <= b.excluded
    && a.launched <= b.launched
  }

  lemma ExtendsRefl(a: Acc)
    ensures Extends(a, a)
  {
    assert a.found[|a.found|..] == [];
  }

  lemma ExtendsTrans(a: Acc, b: Acc, c: Acc)
    requires Extends(a, b) && Extends(b, c)
    ensures Extends(a, c)
  {
    var d1 := b.found[|a.found|..];
    var d2 := c.found[|b.found|..];
    assert c.found[..|b.found|] == b.found;
    assert c.found[|a.found|..] == d1 + d2;
    assert c.found[..|a.found|] == b.found[..|a.found|];
    FileAllConcat(a.inv, d1, d2);
  }

  /** Filing one id extends the build. */
  lemma AddExtends(acc: Acc, tag: string, id: string)
    ensures Extends(acc, Add(acc, tag, id))
  {
    var a := Add(acc, tag, id);
    assert a.found[|acc.found|..] == [Found(tag, id)];
    assert a.found[..|acc.found|] == acc.found;
    assert a.inv == acc.inv[tag := ListOf(acc.inv, tag) + [id]];
  }

  /** Changing only exclusions and processes started extends the build. */
  lemma BookkeepingExtends(acc: Acc, excluded: set<string>, launched: nat)
    requires acc.excluded <= excluded && acc.launched <= launched
    ensures Extends(acc, acc.(excluded := excluded, launched := launched))
  {
    ExtendsRefl(acc);
  }

  lemma CountStateExtends(acc: Acc)
    ensures Extends(acc, acc.(counter := acc.counter.(state := acc.counter.state + 1)))
  {
    assert acc.found[|acc.found|..] == [];
  }

  lemma StepLineExtends(sh: Shell, directory: string, acc: Acc, line: string)
    requires StepLine(sh, directory, acc, line).Ok?
    ensures Extends(acc, StepLine(sh, directory, acc, line).value)
    ensures StepLine(sh, directory, acc, line).value.counter.state == acc.counter.state
  {
    var group := GroupOfLine(line).value;
    if group in acc.excluded {
      ExtendsRefl(acc);
    } else {
      var shown := Show(sh, directory, acc, line).value;
      var acc1 := shown.0;
      ShowKeeps(sh, directory, acc, line);
      BookkeepingExtends(acc, acc1.excluded, acc1.launched);
      if shown.1.Some? && shown.1.value != "" {
        var tag := R.GetName(group).value;
        AddExtends(acc1, tag, shown.1.value);
        ExtendsTrans(acc, acc1, Add(acc1, tag, shown.1.value));
      }
    }
  }

  /** A show changes only the bookkeeping: the exclusions grow and the
      count of processes started moves on. */
  lemma ShowKeeps(sh: Shell, directory: string, acc: Acc, line: string)
    requires Show(sh, directory, acc, line).Ok?
    ensures var acc1 := Show(sh, directory, acc, line).value.0;
      acc.excluded <= acc1.excluded && acc1 == acc.(excluded := acc1.excluded, launched := acc1.launched)
  {
    var reply := Answer(sh, acc.launched, directory).value;
    if reply.success && reply.data != "" {
      var group := GroupOfLine(line).value;
      var acc1 := acc.(launched := After(sh, acc.launched));
      assert Process(acc1, group, reply.data).Ok?;
      assert Show(sh, directory, acc, line).value == Process(acc1, group, reply.data).value;
    }
  }

  lemma {:induction false} StepLinesExtends(sh: Shell, directory: string, acc: Acc, lines: seq<string>)
    requires StepLines(sh, directory, acc, lines).Ok?
    ensures Extends(acc, StepLines(sh, directory, acc, lines).value)
    ensures StepLines(sh, directory, acc, lines).value.counter.state == acc.counter.state
    decreases |lines|
  {
    if lines == [] {
      ExtendsRefl(acc);
    } else {
      var acc1 := StepLine(sh, directory, acc, lines[0]).value;
      StepLineExtends(sh, directory, acc, lines[0]);
      StepLinesExtends(sh, directory, acc1, lines[1..]);
      ExtendsTrans(acc, acc1, StepLines(sh, directory, acc1, lines[1..]).value);
    }
  }

  /** A listing extends the build and counts the project once when the
      listing succeeded. */
  lemma ListedExtends(sh: Shell, directory: string, acc: Acc, success: bool, lines: seq<string>)
    requires Listed(sh, directory, acc, success, lines).Ok?
    ensures Extends(acc, Listed(sh, directory, acc, success, lines).value)
    ensures Listed(sh, directory, acc, success, lines).value.counter.state == acc.counter.state + (if success then 1 else 0)
  {
    if success {
      var acc1 := acc.(counter := acc.counter.(state := acc.counter.state + 1));
      CountStateExtends(acc);
      StepLinesExtends(sh, directory, acc1, lines);
      ExtendsTrans(acc, acc1, Listed(sh, directory, acc, success, lines).value);
    } else {
      ExtendsRefl(acc);
    }
  }

  lemma ListStateExtends(sh: Shell, directory: string, acc: Acc)
    requires ListState(sh, directory, acc).Ok?
    ensures Extends(acc, ListState(sh, directory, acc).value)
  {
    var acc1 := acc.(launched := After(sh, acc.launched));
    var reply := Answer(sh, acc.launched, directory).value;
    BookkeepingExtends(acc, acc.excluded, acc1.launched);
    ListedExtends(sh, directory, acc1, reply.success, ListedLines(reply.data));
    ExtendsTrans(acc, acc1, ListState(sh, directory, acc).value);
  }


  /** A whole build only extends what the object held before: an earlier
      inventory stays as a prefix of every list, so building twice files
      every id twice. */
  lemma {:induction false} ScanDirsExtends(sh: Shell, acc: Acc, visits: seq<Visit>)
    requires ScanDirs(sh, acc, visits).Ok?
    ensures Extends(acc, ScanDirs(sh, acc, visits).value)
    decreases |visits|
  {
    if visits == [] {
      ExtendsRefl(acc);
    } else {
      var acc1 := if IsProject(visits[0].files) then ListState(sh, visits[0].path, acc).value else acc;
      if IsProject(visits[0].files) {
        ListStateExtends(sh, visits[0].path, acc);
      } else {
        ExtendsRefl(acc);
      }
      ScanDirsExtends(sh, acc1, visits[1..]);
      ExtendsTrans(acc, acc1, ScanDirs(sh, acc1, visits[1..]).value);
    }
  }

  /** After a build every tag's list is what it held before followed by
      the ids the build filed under it, in the order found, duplicates
      kept; `resource` counts exactly those ids. */
  lemma BuildAppends(sh: Shell, acc: Acc, visits: seq<Visit>, tag: string)
    requires ScanDirs(sh, acc, visits).Ok?
    ensures var b := ScanDirs(sh, acc, visits).value;
      |acc.found| <= |b.found|
      && ListOf(b.inv, tag) == ListOf(acc.inv, tag) + Tagged(b.found[|acc.found|..], tag)
      && b.counter.resource == acc.counter.resource + |b.found[|acc.found|..]|
  {
    var b := ScanDirs(sh, acc, visits).value;
    ScanDirsExtends(sh, acc, visits);
    FileAllLists(acc.inv, b.found[|acc.found|..], tag);
  }

  /** `get_name` is never asked for the tag of the abstract base: a
      group whose class is the base raises while its id is extracted,
      or files nothing, before `get_name` is reached. */
  lemma AbstractNameNeverRaised(sh: Shell, directory: string, acc: Acc, line: string)
    ensures StepLine(sh, directory, acc, line).Err? ==>
      StepLine(sh, directory, acc, line).error.fault != ExtractFault(R.AbstractName)
  {
    var g := GroupOfLine(line);
    if g.Ok? && g.value !in acc.excluded {
      var group := g.value;
      var shown := Show(sh, directory, acc, line);
      if shown.Ok? && shown.value.1.Some? && shown.value.1.value != "" {
        var acc1 := acc.(launched := After(sh, acc.launched));
        var data := Answer(sh, acc.launched, directory).value.data;
        assert Process(acc1, group, data).Ok?;
        assert shown.value == Process(acc1, group, data).value;
        var h := R.ClassFromGroup(group).value;
        assert R.GetStateResource(h, data).Ok?;
        assert R.GetName(group).Ok?;
      } else if shown.Err? {
        ShowFaults(sh, directory, acc, line);
      }
    }
  }

  /** The faults of a show: the runner's, or the extractor's other than
      the missing tag. */
  lemma ShowFaults(sh: Shell, directory: string, acc: Acc, line: string)
    requires Show(sh, directory, acc, line).Err?
    ensures Show(sh, directory, acc, line).error.fault != ExtractFault(R.AbstractName)
  {
    var g := GroupOfLine(line);
    if g.Ok? {
      var answer := Answer(sh, acc.launched, directory);
      if answer.Ok? && answer.value.success && answer.value.data != "" {
        var h := R.ClassFromGroup(g.value);
        if h.Some? && h.value != R.Base {
          R.FieldNames(h.value);
        }
      }
    }
  }

  /** A line whose group is already excluded starts no process and
      changes nothing. */
  lemma ExcludedGroupSkipped(sh: Shell, directory: string, acc: Acc, line: string)
    requires GroupOfLine(line).Ok? && GroupOfLine(line).value in acc.excluded
    ensures StepLine(sh, directory, acc, line) == Ok(acc)
  {
  }

  /** Remote-state addresses are never shown in a build, however far it
      has got. */
  lemma RemoteStateSkipped(sh: Shell, directory: string, acc: Acc, excludeStateRes: set<string>, b: Acc, line: string)
    requires Extends(Start(acc, excludeStateRes), b)
    requires GroupOfLine(line) == Ok("terraform_remote_state")
    ensures StepLine(sh, directory, b, line) == Ok(b)
  {
    assert "terraform_remote_state" in IgnoreResourceGroup;
  }

  /** A group without a handler is shown once: the first of its lines
      excludes it and the next one starts no process. */
  lemma UnsupportedShownOnce(sh: Shell, directory: string, acc: Acc, line1: string, line2: string, group: string)
    requires GroupOfLine(line1) == Ok(group) && GroupOfLine(line2) == Ok(group)
    requires group !in acc.excluded && R.ClassFromGroup(group).None?
    requires Answer(sh, acc.launched, directory).Ok?
    requires Answer(sh, acc.launched, directory).value.success && Answer(sh, acc.launched, directory).value.data != ""
    ensures StepLines(sh, directory, acc, [line1, line2])
            == Ok(acc.(excluded := acc.excluded + {group}, launched := After(sh, acc.launched)))
  {
    var acc1 := acc.(excluded := acc.excluded + {group}, launched := After(sh, acc.launched));
    assert StepLine(sh, directory, acc, line1) == Ok(acc1);
    assert StepLine(sh, directory, acc1, line2) == Ok(acc1);
    assert [line2][1..] == [];
    assert StepLines(sh, directory, acc1, [line2]) == Ok(acc1);
    assert [line1, line2][1..] == [line2];
  }

  /** A failed listing files nothing and is not counted. */
  lemma FailedListAddsNothing(sh: Shell, directory: string, acc: Acc)
    requires Answer(sh, acc.launched, directory).Ok? && !Answer(sh, acc.launched, directory).value.success
    ensures ListState(sh, directory, acc) == Ok(acc.(launched := After(sh, acc.launched)))
  {
  }

  /** A failed or empty show files nothing and leaves the group as it
      was. */
  lemma EmptyShowAddsNothing(sh: Shell, directory: string, acc: Acc, line: string)
    requires GroupOfLine(line).Ok? && GroupOfLine(line).value !in acc.excluded
    requires Answer(sh, acc.launched, directory).Ok?
    requires !Answer(sh, acc.launched, directory).value.success || Answer(sh, acc.launched, directory).value.data == ""
    ensures StepLine(sh, directory, acc, line) == Ok(acc.(launched := After(sh, acc.launched)))
  {
  }

  /** An extracted id that is empty counts as not found. */
  lemma EmptyIdNotFound(sh: Shell, directory: string, acc: Acc, line: string, h: R.Handler)
    requires GroupOfLine(line).Ok? && GroupOfLine(line).value !in acc.excluded
    requires R.ClassFromGroup(GroupOfLine(line).value) == Some(h)
    requires Answer(sh, acc.launched, directory).Ok?
    requires Answer(sh, acc.launched, directory).value.success
    requires R.GetStateResource(h, Answer(sh, acc.launched, directory).value.data) == Ok("")
    ensures StepLine(sh, directory, acc, line) == Ok(acc.(launched := After(sh, acc.launched)))
  {
    var group := GroupOfLine(line).value;
    var acc1 := acc.(launched := After(sh, acc.launched));
    var data := Answer(sh, acc.launched, directory).value.data;
    assert data != "" by { R.NothingInEmpty(h); }
    assert Process(acc1, group, data) == Ok((acc1, Some("")));
    assert Show(sh, directory, acc, line) == Ok((acc1, Some("")));
  }

  /** A non-empty id is filed under the canonical tag of the handler of
      its group. */
  lemma FoundIdFiled(sh: Shell, directory: string, acc: Acc, line: string, h: R.Handler, id: string)
    requires GroupOfLine(line).Ok? && GroupOfLine(line).value !in acc.excluded
    requires R.ClassFromGroup(GroupOfLine(line).value) == Some(h)
    requires Answer(sh, acc.launched, directory).Ok?
    requires Answer(sh, acc.launched, directory).value.success
    requires R.GetStateResource(h, Answer(sh, acc.launched, directory).value.data) == Ok(id) && id != ""
    ensures h != R.Base
    ensures StepLine(sh, directory, acc, line) == Ok(Add(acc.(launched := After(sh, acc.launched)), R.Tag(h).value, id))
  {
    var group := GroupOfLine(line).value;
    var acc1 := acc.(launched := After(sh, acc.launched));
    assert h != R.Base;
    assert Process(acc1, group, Answer(sh, acc.launched, directory).value.data) == Ok((acc1, Some(id)));
    assert Show(sh, directory, acc, line) == Ok((acc1, Some(id)));
    assert R.GetName(group) == Ok(R.Tag(h).value);
  }






  /** One line once its show has been answered. */
  lemma StepLineAfterShow(sh: Shell, directory: string, acc: Acc, line: string, group: string, acc1: Acc, id: Option<string>)
    requires GroupOfLine(line) == Ok(group) && group !in acc.excluded
    requires Show(sh, directory, acc, line) == Ok((acc1, id))
    ensures !(id.Some? && id.value != "") ==> StepLine(sh, directory, acc, line) == Ok(acc1)
    ensures id.Some? && id.value != "" && R.GetName(group).Err? ==>
      StepLine(sh, directory, acc, line) == Err(Raised(ExtractFault(R.GetName(group).error), Counted(acc1)))
    ensures id.Some? && id.value != "" && R.GetName(group).Ok? ==>
      StepLine(sh, directory, acc, line) == Ok(Add(acc1, R.GetName(group).value, id.value))
  {
  }

  /** The listing once the runner has answered. */
  lemma ListStateAfterAnswer(sh: Shell, directory: string, acc: Acc, reply: T.Reply)
    requires Answer(sh, acc.launched, directory) == Ok(reply)
    ensures ListState(sh, directory, acc) == Listed(sh, directory, acc.(launched := After(sh, acc.launched)), reply.success, ListedLines(reply.data))
  {
  }

  /** Stepping through `a` then `b` is stepping through `a`, then through
      `b` from where `a` left the build. */
  lemma {:induction false} StepLinesSplit(sh: Shell, directory: string, acc: Acc, a: seq<string>, b: seq<string>)
    requires StepLines(sh, directory, acc, a).Ok?
    ensures StepLines(sh, directory, acc, a + b) == StepLines(sh, directory, StepLines(sh, directory, acc, a).value, b)
    decreases |a|
  {
    if a == [] {
      assert a + b == b;
    } else {
      assert (a + b)[0] == a[0] && (a + b)[1..] == a[1..] + b;
      StepLinesSplit(sh, directory, StepLine(sh, directory, acc, a[0]).value, a[1..], b);
    }
  }

  /** A listed address without a `.` raises IndexError, and the build
      keeps everything the lines before it filed, counted and excluded. */
  lemma NoDotKeepsEarlier(sh: Shell, directory: string, acc: Acc, a: seq<string>, line: string, rest: seq<string>)
    requires StepLines(sh, directory, acc, a).Ok? && '.' !in line
    ensures StepLines(sh, directory, acc, a + [line] + rest)
            == Err(Raised(NoGroup(line), StepLines(sh, directory, acc, a).value))
  {
    assert a + [line] + rest == a + ([line] + rest);
    StepLinesSplit(sh, directory, acc, a, [line] + rest);
    assert ([line] + rest)[0] == line;
  }

  /** The same for the walk: a directory whose listing raises keeps what
      the directories before it built. */
  lemma {:induction false} ScanDirsSplit(sh: Shell, acc: Acc, a: seq<Visit>, b: seq<Visit>)
    requires ScanDirs(sh, acc, a).Ok?
    ensures ScanDirs(sh, acc, a + b) == ScanDirs(sh, ScanDirs(sh, acc, a).value, b)
    decreases |a|
  {
    if a == [] {
      assert a + b == b;
    } else {
      assert (a + b)[0] == a[0] && (a + b)[1..] == a[1..] + b;
      ScanDirsSplit(sh, VisitStep(sh, acc, a[0]).value, a[1..], b);
    }
  }

  // -----------------------------------------------------------------------
  // The object

  /** `CasperState`: the inventory, the counters and the excluded groups,
      kept across builds; a runner over the profile's environment; and the
      store the inventory is saved to. */
  class CasperState {
    const profile: Option<string>
    const bucket: Option<string>
    const stateObject: string
    const command: T.TerraformCommand
    const storage: S.Storage
    var inventory: Option<Inventory>
    var excluded: set<string>
    var counter: Counter
    /** Every id filed so far, under its tag, in order. */
    ghost var found: seq<Found>

    /** A new object holds no inventory and zero counters; the state
        object is named by `stateFile` when that is a non-empty string. */
    constructor (os: T.Os, environ: map<string, string>, storage: S.Storage,
                 profile: Option<string>, bucket: Option<string>, stateFile: Option<string>)
      ensures this.profile == profile && this.bucket == bucket && this.storage == storage
      ensures stateObject == if stateFile.Some? && stateFile.value != "" then stateFile.value else DefaultStateObject
      ensures command.os == os && command.timeout == T.DefaultTimeout && command.env == T.EnvFor(environ, profile)
      ensures inventory == None && excluded == {} && counter == Counter(0, 0, 0) && found == []
    {
      this.profile := profile;
      this.bucket := bucket;
      this.storage := storage;
      stateObject := if stateFile.Some? && stateFile.value != "" then stateFile.value else DefaultStateObject;
      command := new T.TerraformCommand(os, environ, profile, T.DefaultTimeout);
      inventory := None;
      excluded := {};
      counter := Counter(0, 0, 0);
      found := [];
    }

    /** The object as a build sees it; no inventory reads as empty. */
    ghost function Snapshot(): Acc
      reads this, command.os
    {
      Acc(if inventory.Some? then inventory.value else map[], counter, excluded, |command.os.launched|, found)
    }

    function Sh(): Shell {
      Shell(command.os.script, command.timeout)
    }

    /** The local state file, relative to the working directory. */
    function LocalPath(): string
      reads command.os
    {
      T.Resolve(command.os.cwd, stateObject)
    }

    /** `_process_response`. */
    method ProcessResponse(group: string, text: string) returns (r: Result<Option<string>, Fault>)
      modifies this`excluded
      ensures var p := Process(old(Snapshot()), group, text);
        (p.Ok? ==> r == Ok(p.value.1) && Snapshot() == p.value.0)
        && (p.Err? ==> r == Err(p.error) && Snapshot() == old(Snapshot()))
    {
      match R.ClassFromGroup(group)
      case None =>
        excluded := excluded + {group};
        r := Ok(None);
      case Some(h) =>
        var e := R.GetStateResource(h, text);
        if e.Err? {
          r := Err(ExtractFault(e.error));
        } else {
          r := Ok(Some(e.value));
        }
    }

    /** `_get_state_resource`: `terraform state show <address>` in
        `directory`, then the handler. */
    method GetStateResource(directory: string, line: string) returns (r: Result<Option<string>, Fault>)
      modifies this`excluded, command.os
      ensures command.os.cwd == old(command.os.cwd)
      ensures var p := Show(Sh(), directory, old(Snapshot()), line);
        (p.Ok? ==> r == Ok(p.value.1) && Snapshot() == p.value.0)
        && (p.Err? ==> r == Err(p.error.fault) && Snapshot() == p.error.at)
    {
      var group :- GroupOfLine(line);
      var answer := command.RunCommand(ShowCommand(line), directory);
      match answer
      case Err(f) =>
        r := Err(ShellFault(f));
      case Ok(reply) =>
        if reply.success && reply.data != "" {
          r := ProcessResponse(group, reply.data);
        } else {
          r := Ok(None);
        }
    }

    /** `_list_state_resources`: `terraform state list` in `directory`;
        a successful listing is counted and its non-blank lines stepped
        through. */
    method ListStateResources(directory: string) returns (r: Result<(), Fault>)
      requires inventory.Some?
      modifies this, command.os
      ensures inventory.Some? && command.os.cwd == old(command.os.cwd)
      ensures var p := ListState(Sh(), directory, old(Snapshot()));
        (p.Ok? ==> r.Ok? && Snapshot() == p.value) && (p.Err? ==> r == Err(p.error.fault) && Snapshot() == p.error.at)
    {
      ghost var acc0 := Snapshot();
      var answer := RunList(directory);
      assert Snapshot() == acc0.(launched := After(Sh(), acc0.launched));
      if answer.Ok? {
        ListStateAfterAnswer(Sh(), directory, acc0, answer.value);
      }
      r := ListAnswered(directory, answer);
    }

    /** `terraform state list` in `directory`. */
    method RunList(directory: string) returns (answer: T.Answer)
      modifies command.os
      ensures command.os.cwd == old(command.os.cwd)
      ensures answer == Answer(Sh(), |old(command.os.launched)|, directory)
      ensures |command.os.launched| == After(Sh(), |old(command.os.launched)|)
    {
      answer := command.RunCommand(ListCommand, directory);
    }

    /** `_list_state_resources` once the listing has been answered. */
    method ListAnswered(directory: string, answer: T.Answer) returns (r: Result<(), Fault>)
      requires inventory.Some?
      modifies this, command.os
      ensures inventory.Some? && command.os.cwd == old(command.os.cwd)
      ensures answer.Err? ==> r == Err(ShellFault(answer.error)) && Snapshot() == old(Snapshot())
      ensures answer.Ok? ==>
        var p := Listed(Sh(), directory, old(Snapshot()), answer.value.success, ListedLines(answer.value.data));
        (p.Ok? ==> r.Ok? && Snapshot() == p.value) && (p.Err? ==> r == Err(p.error.fault) && Snapshot() == p.error.at)
    {
      if answer.Err? {
        return Err(ShellFault(answer.error));
      }
      var lines := ListedLines(answer.value.data);
      r := ListReply(directory, answer.value.success, lines);
    }

    /** What `_list_state_resources` does with the listing's reply. */
    method ListReply(directory: string, success: bool, lines: seq<string>) returns (r: Result<(), Fault>)
      requires inventory.Some?
      modifies this, command.os
      ensures inventory.Some? && command.os.cwd == old(command.os.cwd)
      ensures var p := Listed(Sh(), directory, old(Snapshot()), success, lines);
        (p.Ok? ==> r.Ok? && Snapshot() == p.value) && (p.Err? ==> r == Err(p.error.fault) && Snapshot() == p.error.at)
    {
      if !success {
        return Ok(());
      }
      ghost var acc := Snapshot();
      counter := counter.(state := counter.state + 1);
      assert Snapshot() == acc.(counter := acc.counter.(state := acc.counter.state + 1));
      r := ListLines(directory, lines);
    }

    /** The line loop of `_list_state_resources`. */
    method ListLines(directory: string, lines: seq<string>) returns (r: Result<(), Fault>)
      requires inventory.Some?
      modifies this, command.os
      ensures inventory.Some? && command.os.cwd == old(command.os.cwd)
      ensures var p := StepLines(Sh(), directory, old(Snapshot()), lines);
        (p.Ok? ==> r.Ok? && Snapshot() == p.value) && (p.Err? ==> r == Err(p.error.fault) && Snapshot() == p.error.at)
    {
      ghost var target := StepLines(Sh(), directory, Snapshot(), lines);
      var i := 0;
      while i < |lines|
        invariant 0 <= i <= |lines|
        invariant inventory.Some? && command.os.cwd == old(command.os.cwd)
        invariant StepLines(Sh(), directory, Snapshot(), lines[i..]) == target
      {
        assert lines[i..][0] == lines[i] && lines[i..][1..] == lines[i + 1..];
        r := ListLine(directory, lines[i]);
        if r.Err? {
          return;
        }
        i := i + 1;
      }
      r := Ok(());
    }

    /** The body of the line loop of `_list_state_resources`. */
    method ListLine(directory: string, line: string) returns (r: Result<(), Fault>)
      requires inventory.Some?
      modifies this, command.os
      ensures inventory.Some? && command.os.cwd == old(command.os.cwd)
      ensures var p := StepLine(Sh(), directory, old(Snapshot()), line);
        (p.Ok? ==> r.Ok? && Snapshot() == p.value) && (p.Err? ==> r == Err(p.error.fault) && Snapshot() == p.error.at)
    {
      ghost var acc := Snapshot();
      var g := GroupOfLine(line);
      if g.Err? {
        return Err(g.error);
      }
      var group := g.value;
      if group in excluded {
        return Ok(());
      }
      var shown := GetStateResource(directory, line);
      if shown.Err? {
        return Err(shown.error);
      }
      var id := shown.value;
      StepLineAfterShow(Sh(), directory, acc, line, group, Snapshot(), id);
      if id.Some? && id.value != "" {
        r := FileId(group, id.value);
      } else {
        r := Ok(());
      }
    }

    /** Filing a non-empty id in `_list_state_resources`: count it, look
        up the group's tag, then append or start the tag's list. */
    method FileId(group: string, id: string) returns (r: Result<(), Fault>)
      requires inventory.Some?
      modifies this`counter, this`inventory, this`found
      ensures inventory.Some?
      ensures var n := R.GetName(group);
        (n.Ok? ==> r.Ok? && Snapshot() == Add(old(Snapshot()), n.value, id))
        && (n.Err? ==> r == Err(ExtractFault(n.error)) && Snapshot() == Counted(old(Snapshot())))
    {
      counter := counter.(resource := counter.resource + 1);
      var name := R.GetName(group);
      if name.Err? {
        return Err(ExtractFault(name.error));
      }
      var tag := name.value;
      var inv := inventory.value;
      if tag in inv && inv[tag] != [] {
        inventory := Some(inv[tag := inv[tag] + [id]]);
      } else {
        counter := counter.(resourceGroup := counter.resourceGroup + 1);
        inventory := Some(inv[tag := [id]]);
      }
      found := found + [Found(tag, id)];
      r := Ok(());
    }

    /** `build_state_resources`: start from an empty inventory when there
        is none, exclude the caller's groups and the always-ignored ones,
        walk `tree` from `startDir` pruning the caller's directories and the
        always-ignored ones, list every project met, then save; the
        counters are returned. */
    method BuildStateResources(tree: Dir, startDir: string, excludeDirectories: set<string>, excludeStateRes: set<string>)
      returns (r: Result<Counter, Fault>)
      modifies this, command.os, storage
      ensures command.os.cwd == old(command.os.cwd) && inventory.Some?
      ensures var p := ScanDirs(Sh(), Start(old(Snapshot()), excludeStateRes),
                                Walk(tree, startDir, [], excludeDirectories + IgnorePaths));
        (p.Ok? ==> r == Ok(counter) && inventory.Some? && Snapshot() == p.value
                   && storage.Contents() == S.Saved(old(storage.Contents()), bucket, stateObject, LocalPath(), inventory))
        && (p.Err? ==> r == Err(p.error.fault) && Snapshot() == p.error.at
                       && storage.Contents() == old(storage.Contents()))
    {
      if inventory.None? {
        inventory := Some(map[]);
      }
      excluded := excludeStateRes + IgnoreResourceGroup;
      var visits := Walk(tree, startDir, [], excludeDirectories + IgnorePaths);
      var scanned := ScanVisits(visits);
      if scanned.Err? {
        return Err(scanned.error);
      }
      SaveState();
      r := Ok(counter);
    }

    /** The walk loop of `build_state_resources`. */
    method ScanVisits(visits: seq<Visit>) returns (r: Result<(), Fault>)
      requires inventory.Some?
      modifies this, command.os
      ensures inventory.Some? && command.os.cwd == old(command.os.cwd)
      ensures var p := ScanDirs(Sh(), old(Snapshot()), visits);
        (p.Ok? ==> r.Ok? && Snapshot() == p.value) && (p.Err? ==> r == Err(p.error.fault) && Snapshot() == p.error.at)
    {
      ghost var target := ScanDirs(Sh(), Snapshot(), visits);
      var i := 0;
      while i < |visits|
        invariant 0 <= i <= |visits|
        invariant inventory.Some? && command.os.cwd == old(command.os.cwd)
        invariant ScanDirs(Sh(), Snapshot(), visits[i..]) == target
      {
        assert visits[i..][0] == visits[i] && visits[i..][1..] == visits[i + 1..];
        r := ScanVisit(visits[i]);
        if r.Err? {
          return;
        }
        i := i + 1;
      }
      r := Ok(());
    }

    /** The body of the walk loop of `build_state_resources`. */
    method ScanVisit(v: Visit) returns (r: Result<(), Fault>)
      requires inventory.Some?
      modifies this, command.os
      ensures inventory.Some? && command.os.cwd == old(command.os.cwd)
      ensures var p := VisitStep(Sh(), old(Snapshot()), v);
        (p.Ok? ==> r.Ok? && Snapshot() == p.value) && (p.Err? ==> r == Err(p.error.fault) && Snapshot() == p.error.at)
    {
      var isState := IsTerraformState(v.files);
      if isState {
        r := ListStateResources(v.path);
      } else {
        r := Ok(());
      }
    }

    /** `save_state`: upload to the bucket when one is set, falling back
        to the local file when the upload fails. */
    method SaveState()
      modifies storage
      ensures storage.Contents() == S.Saved(old(storage.Contents()), bucket, stateObject, LocalPath(), inventory)
    {
      if S.Truthy(bucket) {
        var ok := storage.Upload(bucket.value, stateObject, inventory);
        if !ok {
          SaveStateLocally();
        }
      } else {
        SaveStateLocally();
      }
    }

    /** `save_state_locally`: write the inventory to the state file in the
        working directory. */
    method SaveStateLocally()
      modifies storage`files
      ensures storage.files == old(storage.files)[LocalPath() := inventory]
    {
      storage.Write(LocalPath(), inventory);
    }

    /** `load_state`: read the object from the bucket when one is set and
        the read succeeds, otherwise the local file. */
    method LoadState() returns (r: Result<(), Fault>)
      modifies this`inventory
      ensures var l := S.Loaded(storage.Contents(), bucket, stateObject, LocalPath());
        (l.Ok? ==> r.Ok? && inventory == l.value)
        && (l.Err? ==> r == Err(StoreFault(l.error)) && inventory == old(inventory))
    {
      if S.Truthy(bucket) {
        var doc := storage.Download(bucket.value, stateObject);
        if doc.Some? {
          inventory := doc.value;
          return Ok(());
        }
      }
      r := LoadStateLocally();
    }

    /** `load_state_locally`: read the state file in the working
        directory; a missing file raises. */
    method LoadStateLocally() returns (r: Result<(), Fault>)
      modifies this`inventory
      ensures LocalPath() in storage.files ==> r.Ok? && inventory == storage.files[LocalPath()]
      ensures LocalPath() !in storage.files ==> r == Err(StoreFault(S.Missing(LocalPath()))) && inventory == old(inventory)
    {
      var doc := storage.Read(LocalPath());
      if doc.None? {
        return Err(StoreFault(S.Missing(LocalPath())));
      }
      inventory := doc.value;
      r := Ok(());
    }
  }
}
