# casper drift detection, modelled in Dafny

casper finds AWS resources that exist in an account but are not managed by
Terraform ("ghosts"). Its core has three parts:

* **build**: walk a directory tree. For every directory holding a `.tf` file,
  run `terraform state list`. Then run `terraform state show` for each
  listed address and extract the resource's cloud id from that text. File
  the ids by resource-group tag and save the inventory to an S3 bucket or
  to a local file.
* **scan**: for one service (`ec2`, `iam`, `s3`), fetch the live resources
  of each of the service's resource groups. Report the ones the inventory
  does not track and the caller did not exclude. Then run the service's
  hook: for EC2, the instances of ghost autoscaling groups are folded into
  the ghost instances.
* **terraform runner**: `run_command` with a timeout. When the first run
  fails, it runs `terraform init` and then retries the command once.

The model is split into modules that follow the program:

| file | module | models |
|---|---|---|
| `wrappers.dfy` | `Wrappers` | `Option` and `Result` (a raised exception is an `Err`) |
| `pystr.dfy` | `PyStr` | the Python `str` operations the core relies on: `title`, `replace`, `split`, `strip`, `endswith`, `str(int)` |
| `terraform.dfy` | `Terraform` | `casper/terraform.py`: the `Os` class (working directory, the log of launched processes, and a script of their outcomes), `StatePath`, `TerraformCommand` |
| `resource.dfy` | `Resource` | `casper/resource.py`: the class registry looked up by group name, the tags, and the regular-expression extractor `_get_field` |
| `store.dfy` | `Store` | the S3 bucket and the local files that `save_state`/`load_state` use |
| `state.dfy` | `State` | `casper/state.py`: `os.walk` with pruning, and the build written as a pure fold (`ScanDirs`). The class `CasperState` has methods whose `ensures` tie the new object state to that fold |
| `cloud.dfy` | `Cloud` | records, paged AWS replies, the ghost report (`Entry`, class `Ghosts`) |
| `ec2.dfy` | `Ec2` | `casper/services/ec2.py`: the paged fetchers, the running-instance filter, `batch`, `scan_service` |
| `casper.dfy` | `Casper` | `casper/casper.py` and the service table of `casper/services/base.py`: class `Casper` with `build` and `scan` |

Terraform, AWS and the file system are inputs, not actions:

* A `T.Os` holds a script `nat -> Outcome`: the n-th process launched
  exits, times out or cannot be started.
* An `E.Account` holds the pages each paginated AWS call returns. A page
  carries an optional continuation token.
* A `S.Storage` holds the bucket objects and the local files, and a flag
  that says whether the bucket can be reached.

How the code behaves, as the model states it:

* A timeout of the first run is reported with the timeout message and
  starts nothing else. A timeout of `terraform init` or of the retry leaves
  a process with code 2 and no captured output. Building the failure
  message from it then raises (`Terraform.LateTimeoutRaises`). That is the
  only way the runner raises on missing output
  (`Terraform.NoneDecodedOnlyOnLateTimeout`).
* The extractor finds the first line that starts with the field name
  followed by whitespace. It returns the stripped text between the first
  and second `=` of that line. Because `\s+` can cross a newline, a bare
  `id` line followed by another line picks up the next line's value. A
  longer key such as `ids` does not match `id`
  (`Resource.LongerKeyIgnored`).
* Building twice is not idempotent: the code appends the ids again on the
  second pass (`State.BuildAppends`).
* A bucket tracked by build is filed under `aws_s3`, the tag of
  `casper/resource.py`. The S3 scan reads group `aws_s3_bucket`, so a
  tracked bucket is still reported as a ghost
  (`Casper.TrackedBucketStillReported`).

## Model

| member | source | states |
|---|---|---|
| `PyStr.Lower` | casper/resource.py:12 | lower-casing keeps the length and maps each ASCII letter to its lower case |
| `PyStr.TitleIgnoresCase` | casper/resource.py:12 | `title()` gives the same result on a string and on its lower-cased form |
| `PyStr.TitleSnake` | casper/resource.py:12 | title-casing a `_`-joined name title-cases each word |
| `PyStr.Without` | casper/resource.py:12 | `replace("_", "")` leaves no `_` and never lengthens the string |
| `PyStr.WithoutJoin` | casper/resource.py:12 | dropping `_` from a `_`-joined name concatenates its words |
| `PyStr.SplitOn` | casper/state.py:77 | `split(sep)` gives at least one piece, none containing `sep`; joining the pieces with `sep` gives back the string; one piece exactly when `sep` is absent |
| `PyStr.SplitJoin` | casper/state.py:81 | splitting a `sep`-joined list of `sep`-free pieces gives back the pieces |
| `PyStr.SplitWhitespace` | casper/terraform.py:40 | `split()` gives non-empty words without whitespace whose concatenation is the string's non-space characters |
| `PyStr.SplitWhitespaceJoin` | casper/terraform.py:40 | `split()` of space-joined words gives back the words |
| `PyStr.Strip` | casper/resource.py:40 | `strip()` leaves no whitespace at either end and never lengthens the string |
| `PyStr.StripBounds` | casper/resource.py:40 | `strip()` is the slice between the leading and the trailing whitespace runs |
| `PyStr.StripUnique` | casper/resource.py:40 | any slice with only whitespace outside it and non-space ends is the result of `strip()` |
| `PyStr.StripPadded` | casper/state.py:77 | whitespace added around a string does not change `strip()` |
| `PyStr.NatToString` | casper/terraform.py:44-45 | `str(n)` is a non-empty digit string with no leading zero |
| `PyStr.NatToStringValue` | casper/terraform.py:44-45 | the decimal value of `str(n)` is `n` |
| `PyStr.PathJoin` | casper/state.py:152 | a file opened by relative name is the working directory path ending with that name |
| `Terraform.Resolve` | casper/terraform.py:19 | `chdir(".")` stays put, an absolute path is taken as is, a relative path is appended to the directory |
| `Terraform.EnvFor` | casper/terraform.py:29-35 | the environment copies the caller's, and sets `AWS_PROFILE` exactly when the profile is non-empty |
| `Terraform.Completion` | casper/terraform.py:67-76 | a timeout becomes a completed process with code 2 and no output; an exit keeps its code and output; a process that cannot start is an error |
| `Terraform.Attempts` | casper/terraform.py:43-56 | a command runs one, two or three processes |
| `Terraform.Trace` | casper/terraform.py:50-56 | the processes launched, one per attempt, all in the same directory with the same environment and timeout |
| `Terraform.Os.Chdir` | casper/terraform.py:19 | changing directory moves to the resolved path |
| `Terraform.Os.Launch` | casper/terraform.py:70-73 | a launch is logged with its argv, directory, environment and timeout; its outcome is the script's next entry |
| `Terraform.StatePath.constructor` | casper/terraform.py:14-16 | remembers the current directory and the destination |
| `Terraform.StatePath.Enter` | casper/terraform.py:18-19 | entering moves into the destination |
| `Terraform.StatePath.Exit` | casper/terraform.py:21-22 | leaving returns to the remembered directory |
| `Terraform.TerraformCommand.constructor` | casper/terraform.py:26-36 | keeps the timeout and the environment with the profile applied |
| `Terraform.TerraformCommand.Run` | casper/terraform.py:67-76 | `_run` launches one process in the directory, returns to the starting directory, and reports the outcome as `Completion` does |
| `Terraform.TerraformCommand.RunCommand` | casper/terraform.py:38-65 | `run_command` launches exactly the processes of `Trace` and answers as `Verdict` does; the working directory is restored |
| `Terraform.TimeoutFirstRun` | casper/terraform.py:43-48 | a first run ending with code 2 is answered with the timeout message, and nothing else is launched |
| `Terraform.InitThenRetry` | casper/terraform.py:50-56 | after a failed first run, `terraform init` runs; the command is retried only if init succeeds |
| `Terraform.FailureReportsLastRun` | casper/terraform.py:58-61 | a failing init, or a failing retry, is reported with that process's error output |
| `Terraform.SuccessReturnsOutput` | casper/terraform.py:63-65 | success returns the output of the first run, or of the retry after a successful init |
| `Terraform.SuccessOnlyFromZeroExit` | casper/terraform.py:43-65 | success is reported only when the first run or the retry exited with 0 |
| `Terraform.DummyCommandArgv` | tests/test_command.py:20-24 | `"dummy command"` is launched as `["dummy", "command"]` |
| `Terraform.DefaultTimeoutMessage` | casper/terraform.py:10 | with the default timeout the message reads "… - Ran out of default time of 300s" |
| `Terraform.LateTimeoutRaises` | casper/terraform.py:58-59 | a timeout of init or of the retry leaves no error output, and decoding it raises |
| `Terraform.NoneDecodedOnlyOnLateTimeout` | casper/terraform.py:58-76 | that raise happens only after a failed first run followed by a late timeout |
| `Resource.ClassFromGroup` | casper/resource.py:11-16 | a handler is found exactly when the title-cased, `_`-free group name plus `Resource` names a class, and it is that class |
| `Resource.Tag` | casper/resource.py:43-50 | every concrete handler has a tag; the abstract base has none |
| `Resource.GetName` | casper/resource.py:23-25 | an unknown group raises; a concrete handler gives its tag; the abstract base is an error here (see Left out) |
| `Resource.SnakeClassName` | casper/resource.py:12-13 | the class name of a `_`-joined group is its title-cased words concatenated, plus `Resource` |
| `Resource.KeyLookup` | casper/resource.py:15 | a group whose class name is a handler's resolves to that handler |
| `Resource.LookupRoundTrip` | casper/resource.py:11-16 | every handler is found again from its own group name |
| `Resource.LookupIgnoresCase` | casper/resource.py:12 | the lookup does not depend on the case of the group name |
| `Resource.NameOfGroup` | casper/resource.py:23-25 | `get_name` of a handler's group is that handler's tag |
| `Resource.CanonicalTags` | casper/resource.py:53-219 | `aws_lb` is tagged `aws_alb`, spot requests `aws_instance`, buckets `aws_s3`; every other handler is tagged with its own group |
| `Resource.TagIsGroup` | casper/resource.py:53-219 | the other handlers' tag equals their group name |
| `Resource.GetField` | casper/resource.py:37-41 | the extractor either yields a value or fails because nothing matched or the matched line has no `=` |
| `Resource.GetStateResource` | casper/resource.py:33-34 | only the abstract base refuses to extract |
| `Resource.FieldNames` | casper/resource.py:34 | every field searched for (`id`, `name`, `spot_instance_id`) is a lower-case identifier |
| `Resource.Search` | casper/resource.py:39 | the search returns the leftmost match position, and no earlier position matches |
| `Resource.LineEnd` | casper/resource.py:38 | a key line matches exactly when the field is followed by whitespace and a newline comes later; the match ends just after a newline |
| `Resource.NoMatchIffNoKeyLine` | casper/resource.py:38-39 | the search fails exactly when no line starts with the field followed by whitespace with a newline after it |
| `Resource.FirstKeyLine` | casper/resource.py:38-40 | on the first `field  = value` line the result is the stripped text up to the next `=`, or the whole stripped value when it holds no `=` |
| `Resource.KeyLineMatches` | casper/resource.py:38 | a key line is matched starting at its preceding newline |
| `Resource.MatchGivesKeyLine` | casper/resource.py:38 | every match is a key line |
| `Resource.LongerKeyIgnored` | casper/resource.py:38-39 | `ids = x` does not match field `id` |
| `Store.Saved` | casper/state.py:133-154 | with a bucket that can be reached, the bucket object is written and the local files are untouched; otherwise the local file is written; nothing else changes |
| `Store.Loaded` | casper/state.py:156-177 | loading fails exactly when neither the bucket object nor the local file can be read; without a bucket the local file is read |
| `Store.LoadAfterSave` | casper/state.py:133-177 | loading after saving gives back the saved document |
| `Store.RemoteFirst` | casper/state.py:157-165 | a readable bucket object is preferred to the local file |
| `Store.FallbackOnFailure` | casper/state.py:143-145 | when the upload fails, the local file is written instead |
| `Store.Storage.Upload` | casper/state.py:142 | an upload stores the object when the bucket can be reached, and reports whether it did |
| `Store.Storage.Download` | casper/state.py:162-163 | a download returns the object when the bucket can be reached and holds it |
| `Store.Storage.Write` | casper/state.py:152-154 | writing a file replaces its contents |
| `Store.Storage.Read` | casper/state.py:175-177 | reading returns the file's contents when it exists |
| `State.Walk` | casper/state.py:58-59 | the walk visits the start directory first; every directory visited lies below it on a path of unexcluded names |
| `State.WalkAll` | casper/state.py:58-59 | the children are walked with their names appended, pruning excluded names |
| `State.Keep` | casper/state.py:59 | keeps exactly the visits with no excluded name on their path |
| `State.WalkPrunes` | casper/state.py:58-59 | pruning while walking equals filtering a full walk afterwards |
| `State.WalkAllPrunes` | casper/state.py:58-59 | the same for the children of a directory |
| `State.IsTerraformState` | casper/state.py:124-131 | a directory holds state exactly when one of its files ends with `.tf` |
| `State.TfvarsIsNotTf` | casper/state.py:128 | a `.tfvars` file does not count |
| `State.GroupOfLine` | casper/state.py:81 | the group is the second-to-last dotted piece; an address without a dot raises |
| `State.GroupOfAddress` | casper/state.py:81 | for `prefix.group.name` the group is `group` |
| `State.NonBlank` | casper/state.py:76-78 | keeps exactly the lines that are not blank |
| `State.After` | casper/state.py:73 | one `run_command` launches one to three processes |
| `State.Add` | casper/state.py:84-91 | filing an id appends it to its tag's list and bumps the resource counter, and the group counter only for a new tag; nothing else changes |
| `State.Process` | casper/state.py:112-122 | an unsupported group is added to the excluded groups and gives no id; otherwise the handler's extraction result |
| `State.Start` | casper/state.py:45-56 | build starts with the caller's excluded groups plus `terraform_remote_state` |
| `State.FileAllConcat` | casper/state.py:80-91 | filing two runs of ids one after the other equals filing them together |
| `State.FileAllLists` | casper/state.py:87-91 | after filing, each tag's list is the old list followed by the new ids of that tag |
| `State.ExtendsTrans` | casper/state.py:70-91 | the inventory only grows: growth is transitive |
| `State.AddExtends` | casper/state.py:84-91 | filing an id grows the inventory |
| `State.StepLinesExtends` | casper/state.py:80-91 | processing the listed lines grows the inventory and leaves the state counter alone |
| `State.ListedExtends` | casper/state.py:74-91 | a listing grows the inventory and counts one more state directory exactly when it succeeded |
| `State.ScanDirsExtends` | casper/state.py:58-63 | the whole walk grows the inventory |
| `State.BuildAppends` | casper/state.py:58-91 | after a build each tag's list is the old list followed by the ids found for it, so a second build appends again |
| `State.AbstractNameNeverRaised` | casper/state.py:80-91 | no listed line ever reaches `get_name` for the abstract base: its extraction raises first or nothing is filed |
| `State.ExcludedGroupSkipped` | casper/state.py:82 | a line of an excluded group launches nothing and changes nothing |
| `State.RemoteStateSkipped` | casper/state.py:12 | `terraform_remote_state` lines are always skipped |
| `State.UnsupportedShownOnce` | casper/state.py:112-122 | an unsupported group is shown once, then excluded for the following lines |
| `State.FailedListAddsNothing` | casper/state.py:73-74 | a failed listing adds nothing and counts no state directory |
| `State.EmptyShowAddsNothing` | casper/state.py:97-110 | a failed or empty `state show` adds nothing |
| `State.EmptyIdNotFound` | casper/state.py:84 | an empty id is not filed |
| `State.FoundIdFiled` | casper/state.py:83-91 | a non-empty id is filed under its handler's tag |
| `State.StepLinesSplit` | casper/state.py:80-91 | the line loop over two runs of lines is the loop over the second, started where the first left the build |
| `State.NoDotKeepsEarlier` | casper/state.py:80-81 | an address without a dot raises IndexError, and the build keeps everything the lines before it filed, counted and excluded |
| `State.ScanDirsSplit` | casper/state.py:58-63 | the walk over two runs of directories is the walk over the second, started where the first left the build |
| `State.StepLineAfterShow` | casper/state.py:80-91 | after the show, a found id is filed under `get_name` of the group, which can raise |
| `State.ListStateAfterAnswer` | casper/state.py:73-78 | the listing processes the non-blank lines of the reply |
| `State.CasperState.constructor` | casper/state.py:16-39 | the default object name `terraform_state`, the runner with the profile, no inventory, zero counters |
| `State.CasperState.ProcessResponse` | casper/state.py:112-122 | `_process_response` does what `Process` says to the id and to the excluded groups; a raising extraction changes nothing |
| `State.CasperState.GetStateResource` | casper/state.py:93-110 | `_get_state_resource` runs `state show` and ends as `Show` says, also when it raises: the processes already started stay counted |
| `State.CasperState.ListStateResources` | casper/state.py:70-91 | `_list_state_resources` ends in the state `ListState` computes; on a raise the object keeps the state reached at the raise |
| `State.CasperState.RunList` | casper/state.py:73 | runs `terraform state list` through the runner |
| `State.CasperState.ListLines` | casper/state.py:80-91 | the loop over the listed lines ends in the state `StepLines` computes; a raise on a later line keeps what the earlier lines filed and counted |
| `State.CasperState.ListLine` | casper/state.py:80-91 | one listed line updates the state as `StepLine` says, on a raise too |
| `State.CasperState.FileId` | casper/state.py:85-91 | files an id under `get_name` of its group, as `Add` says; when `get_name` raises, the `resource` count has already gone up |
| `State.CasperState.BuildStateResources` | casper/state.py:41-68 | the object holds an inventory afterwards, also after a raise; build ends in the state of the fold over the pruned walk, saves it as `Saved` says and returns the counters; on a raise nothing is saved and the object keeps the inventory, counters and exclusions reached at the raise |
| `State.CasperState.ScanVisits` | casper/state.py:58-63 | the loop over the walk ends as `ScanDirs` says; a raise in a later directory keeps what the earlier ones built |
| `State.CasperState.ScanVisit` | casper/state.py:60-62 | one visited directory is listed exactly when a file name in it ends in `.tf`, as `VisitStep` says, on a raise too |
| `State.CasperState.SaveState` | casper/state.py:133-147 | saving writes to the bucket, or locally when there is no bucket or the upload fails |
| `State.CasperState.SaveStateLocally` | casper/state.py:149-154 | writes the inventory to the state file in the working directory |
| `State.CasperState.LoadState` | casper/state.py:156-170 | loads the document `Loaded` names; a failure raises and keeps the old inventory |
| `State.CasperState.LoadStateLocally` | casper/state.py:172-177 | reads the local state file; a missing file raises |
| `Cloud.Items` | casper/services/ec2.py:14-18 | the records of all pages are exactly those of some page |
| `Cloud.ItemsConcat` | casper/services/ec2.py:16-18 | reading more pages appends their records |
| `Cloud.Keyed` | casper/services/ec2.py:14 | a dict built by id has exactly the ids of the records, each mapped to a record with that id |
| `Cloud.KeyedConcat` | casper/services/ec2.py:18 | `update` with a later page's dict is a map union where the later page wins |
| `Cloud.KeyedLast` | casper/services/ec2.py:14 | the last record with an id is the one kept |
| `Cloud.KeyedFrom` | casper/services/ec2.py:14 | every value of the dict is one of the records |
| `Cloud.NoDupSize` | casper/casper.py:67-69 | a list without duplicates has as many elements as its set |
| `Cloud.AsList` | casper/services/ec2.py:199 | `list(set)` lists every element once |
| `Cloud.Aligned` | casper/services/ec2.py:207-209 | `[m.get(k) for k in ids]`: one entry per id, the record or nothing |
| `Cloud.Ghosts.Put` | casper/services/ec2.py:199-211 | replaces one group's entry |
| `Ec2.FetchPages` | casper/services/ec2.py:11-20 | following the continuation tokens yields the dict by name of all pages' records |
| `Ec2.PagedIds` | casper/services/ec2.py:122-134 | an id is fetched exactly when some page holds a record with it |
| `Ec2.LaterPageOverrides` | casper/services/ec2.py:16-18 | a record not repeated later is the one returned for its id |
| `Ec2.Running` | casper/services/ec2.py:35-41 | keeps exactly the instances of all reservations whose state code is 16 |
| `Ec2.RunningKeyed` | casper/services/ec2.py:36-41 | an id is kept exactly when a running instance has it, and its record is running |
| `Ec2.StaticInstances` | casper/services/ec2.py:59-61 | an id is reported exactly when a running instance has it and no autoscaling group lists it |
| `Ec2.FetchInstances` | casper/services/ec2.py:31-63 | `get_cloud_resource` of instances returns the static running instances, with the group members read from every page |
| `Ec2.Live` | casper/services/ec2.py:137-147 | every EC2 resource group, `aws_lb` and spot requests have a fetcher |
| `Ec2.GetCloudResources` | casper/services/ec2.py:4-134 | the fetch returns the live resources of the group |
| `Ec2.Batch` | casper/services/ec2.py:150-153 | `batch` cuts the list into non-empty pieces of at most `n` that join back to it, all but the last of size `n` |
| `Ec2.JoinedCovers` | casper/services/ec2.py:150-153 | every element lies in some batch |
| `Ec2.EveryGhostGroupAsked` | casper/services/ec2.py:163-170 | every ghost autoscaling group is asked for in some batch of 50 |
| `Ec2.Members` | casper/services/ec2.py:172-178 | the members of a list of groups are exactly their instances |
| `Ec2.MemberPagesItems` | casper/services/ec2.py:171-195 | the members of all pages are the members of the pages' records |
| `Ec2.FoldMembers` | casper/services/ec2.py:164-195 | the batched, paged loop yields `Folded`: the member instances of the ghost groups, keyed by id |
| `Ec2.BatchMembersHas` | casper/services/ec2.py:167-195 | an instance is collected exactly when a group named in some batch lists it |
| `Ec2.FoldedMembers` | casper/services/ec2.py:167-195 | an id is collected exactly when a member of a ghost group has it |
| `Ec2.Records` | casper/services/ec2.py:204 | the records of a list in which none is missing |
| `Ec2.ScanService` | casper/services/ec2.py:155-211 | without ghost groups nothing changes; with them the instance ids become the union of the old ones and the members, counted, with the records realigned; a missing instance entry or a missing record raises |
| `Ec2.FoldGhostGroups` | casper/services/ec2.py:162-211 | the folding branch of `scan_service` |
| `Ec2.Regroup` | casper/services/ec2.py:162-200 | the new ids list each old id and each member once, and the count is their number |
| `Ec2.Realign` | casper/services/ec2.py:202-211 | the records follow the new ids; the entry's own record wins over a member's |
| `Ec2.NoGhostGroupsNoChange` | casper/services/ec2.py:155-158 | with no ghost autoscaling group the report is unchanged |
| `Ec2.GhostGroupMembersReported` | casper/services/ec2.py:162-199 | every member of a ghost group is reported, every old ghost instance is kept, and the other groups are unchanged |
| `Ec2.OwnRecordWins` | casper/services/ec2.py:202-209 | for an id that already had a record, the realigned list holds that same record |
| `Casper.GetService` | casper/services/base.py:6-10 | `ec2`, `iam` and `s3` are supported; any other name raises |
| `Casper.Live` | casper/services/base.py:27-35 | every resource group of a service has a fetcher |
| `Casper.GetCloudResources` | casper/casper.py:59 | the fetch returns the live resources of the group |
| `Casper.ComputeGroup` | casper/casper.py:59-75 | the entry of one group holds the live ids that are neither tracked nor excluded, once each, their count, and in detailed mode their records in the same order |
| `Casper.GhostIdsExact` | casper/casper.py:60-66 | an id is reported exactly when it is live, untracked and not excluded, and then only once |
| `Casper.GhostCount` | casper/casper.py:67-69 | the count is the size of that set difference |
| `Casper.DetailedRecords` | casper/casper.py:71-75 | the i-th record is the live record of the i-th id |
| `Casper.SecurityGroupScenario` | casper/casper.py:59-69 | with `sg-1` tracked and `sg-1`, `sg-2` live, only `sg-2` is reported |
| `Casper.TrackedBucketStillReported` | casper/services/s3.py:20 | a bucket filed under `aws_s3` is still reported by the S3 scan, which reads `aws_s3_bucket` |
| `Casper.Casper.constructor` | casper/casper.py:11-39 | `None` or `.` start in the working directory, no exclusions by default, and a fresh state with the same bucket, profile and state file |
| `Casper.Casper.Build` | casper/casper.py:40-47 | `build` is the state's build from the start directory, with the state reached at a raise kept and an inventory present on both paths |
| `Casper.Casper.Scan` | casper/casper.py:49-79 | an unknown service raises, a missing inventory raises, and the scan succeeds exactly when neither happens; then one entry per resource group as `GhostEntry` says, then the service's hook (EC2 as `Hooked`, the others unchanged) |
| `Casper.ScanGroups` | casper/casper.py:57-75 | the loop over the resource groups fills one entry per group |
| `Casper.ReadyForHook` | casper/casper.py:71-77 | after the loop the EC2 report has an instance entry and no missing record, so the hook cannot raise |

## Left out

- Logging, `boto3` sessions and clients, `tempfile`, and JSON encoding are not modelled. A saved document is the inventory value itself, with `None` for an inventory that was never built.
- AWS replies are records with a name, a state code and member records; every other field of a reply is dropped.
- `subprocess.run` is modelled as an outcome script. A process that cannot be started is `LaunchError`. Its other exceptions are not modelled.
- `Terraform.TerraformCommand.RunCommand`: the output of a process is taken to be valid UTF-8 text. The `UnicodeDecodeError` that `.decode('utf-8')` raises on other bytes, at `casper/terraform.py:59` and `:64`, is not modelled.
- `casper/services/__init__.py` is not part of this model. The model assumes `get_cloud_resources` dispatches to the fetchers of `casper/services/ec2.py`, `iam.py` and `s3.py` by group, and that the hook does nothing for IAM and S3.
- `Casper.GetService`: `get_service` imports `casper.services.<name>` before it consults the table, so an unknown name raises `ModuleNotFoundError` rather than `UnsupportedServiceException`. Both are the one `UnsupportedService` error here.
- `Casper.Casper.constructor`: as written it passes a `load_state` keyword that `CasperState.__init__` does not accept, so the Python constructor raises `TypeError`. The model builds the state as if that keyword were absent, and it does not load state at construction.
- `Casper.Casper.Build`: when the caller passes non-empty sets, `build_state_resources` changes them in place. It adds `.git` and `.terraform` to the caller's directory set and `terraform_remote_state` to the caller's group set. Every group met without a handler is also added to the caller's group set, through `_exclude_state_res.add` at `casper/state.py:120`. An empty or `None` argument is replaced by a fresh set, so it is left alone. The model takes the sets by value, so the caller never sees these changes.
- `Casper.Casper.Scan`: Python sets iterate in an unspecified order. The contract therefore fixes the reported ids only as a duplicate-free list of the right set, and the records only as aligned with that list.
- `Resource.GetName`: for a group whose class name is plain `Resource` (such as `""` or `"_"`), Python's `get_name` returns the abstract `_name` property object instead of a string and does not raise. The model gives the `AbstractName` error there. No build can observe the difference, because the build calls `get_name` only after the handler has been instantiated, which raises for the abstract base; `State.AbstractNameNeverRaised` proves that a build step never yields this error.
- `Resource.ClassFromGroup`: the case mapping of `title()` (`PyStr.Lower`, `PyStr.TitleIgnoresCase`, `PyStr.TitleSnake` and the `IsCased`/`ToUpper`/`ToLower` they use) covers ASCII letters only. Python also maps other letters, so a group such as `aws_ıam_user` (dotless i) or one with a Kelvin sign finds a handler in Python and none in the model.
- `Terraform.Os.Chdir`: changing into a directory always succeeds in the model, whereas `os.chdir` raises `FileNotFoundError` or `NotADirectoryError` for a missing path. A build only enters directories its walk found.
- `Terraform.StatePath.Enter`: entering a directory always succeeds, for the same reason, so `run_command` on a missing directory launches in the model where Python raises before launching anything.
- `Resource.GetField`: the regular expression is modelled only for the field names the core searches (lower-case identifiers), not for arbitrary patterns.
- IAM users and roles and S3 buckets are read from a single reply, as the source does. `Casper.World` holds each of them as a plain list of records.
