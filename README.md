# do-autoscale core, modelled in Dafny

This project models the decision rules and bookkeeping of the do-autoscale
service and proves properties of them. do-autoscale is a DigitalOcean
droplet autoscaler: a Go backend plus an Ember dashboard. The model covers:

- scaling decisions: scale rules with inclusive bounds, overlap-checked
  insertion and first-match lookup, and the value policy with its clamp at zero;
- the backoff table with bounded jitter;
- group-lifecycle bookkeeping:
  - the in-memory run list;
  - the group monitor's tick and quit;
  - the monitor's reconcile step;
  - the scheduler's disabled-group state machine;
  - the activity fan-out;
  - the projections of scheduler activity to notifications and to group-status rows;
- the local resource counter and its allocation list;
- the comma-separated string-slice codec;
- the group/template name validator, the defaults, and template IDs;
- the file-load options;
- the API resources' status-code mapping;
- the Caddyfile and env-file generation and the yes/no prompt of host setup;
- the dashboard's scheduler-alerts component.

There is one Dafny module per source file. `Wrappers` holds `Option` and
`Result`. `Autoscale` holds what the Go package shares: its error values, the
group record and decimal formatting. Where the source keeps state in fields
(run list, monitors, scheduler, activity manager, local resource, file load,
template, dashboard component), the model is a class whose methods change
those fields. Each method is proved against a specification function, and
the properties are lemmas about that function. Pure code is modelled as
functions with lemmas.

Channels, timers and goroutines become explicit events, each handled to
completion. Some values come from outside the core and are passed in as
parameters:

- what the repository, the DigitalOcean client or a group action reports;
- random draws, uuids and clock readings;
- what `os.Stat` and the JSON decoder say;
- the input lines read from stdin, one per prompt;
- the page's host.

Some details of the dashboard component, as the source has them:

- an entry starts with the group's `name`;
- a delta of 0 reads as "grew";
- the default websocket endpoint is always `wss://`, whatever the page's scheme;
- the component has no handling of malformed frames and no teardown.

## Model

| member | source | states |
|---|---|---|
| ScaleRules.IntBounds.IsValid | src/autoscale/scale_rule.go:112-114 | a valid count range holds both of its endpoints and no negative count |
| ScaleRules.IntBounds.Includes | src/autoscale/scale_rule.go:117-119 | the inclusive test; a range that includes any count is non-empty |
| ScaleRules.FloatBounds.IsValid | src/autoscale/scale_rule.go:94-96 | a valid metric range holds both of its endpoints and no negative value |
| ScaleRules.FloatBounds.Includes | src/autoscale/scale_rule.go:99-101 | the inclusive test; a range that includes any value is non-empty |
| ScaleRules.ScaleRule.IsMatch | src/autoscale/scale_rule.go:66-68 | a rule matches exactly the points whose count lies in its count range and whose metric lies in its metric range |
| ScaleRules.ScaleRule.SetMetric | src/autoscale/scale_rule.go:71-78 | the rule keeps its count bounds and step, and its metric range becomes exactly [lower, upper] |
| ScaleRules.IntBoundsValidity | src/autoscale/scale_rule.go:109-119 | an integer range is valid iff it contains its lower end and only non-negative counts; a valid range includes both endpoints |
| ScaleRules.FloatBoundsValidity | src/autoscale/scale_rule.go:91-101 | the same characterisation for metric ranges |
| ScaleRules.BoundsValidityExamples | src/autoscale/scale_rule_test.go:45-89 | (0,20) is valid, (10,5) and (-10,5) are not; the test rule matches (5, 15) |
| ScaleRules.CoversIsContainment | src/autoscale/scale_rule.go:44-56 | for non-empty ranges, "overlap" holds iff the existing rule matches every point of the new ranges (containment, not intersection) |
| ScaleRules.FirstMatch | src/autoscale/scale_rule.go:16-24 | the index found is that of a matching rule with no matching rule before it; none is found iff no rule matches |
| ScaleRules.FirstMatchAppend | src/autoscale/scale_rule.go:16-42 | appending a rule leaves the answer unchanged where an earlier rule matches; elsewhere the new rule decides |
| ScaleRules.ScaleGroup.constructor | src/autoscale/scale_rule.go:10-13 | a new scale group has no rules |
| ScaleRules.ScaleGroup.FindAction | src/autoscale/scale_rule.go:16-24 | returns the step of the first rule, in insertion order, that matches, and 0 when none does |
| ScaleRules.ScaleGroup.IsOverlap | src/autoscale/scale_rule.go:46-56 | true iff some existing rule contains both the count range and the metric range |
| ScaleRules.ScaleGroup.AddRule | src/autoscale/scale_rule.go:27-42 | fails with the overlap error iff an existing rule covers the new one, and then leaves the rules unchanged; otherwise appends exactly the new rule |
| ScaleRules.ScaleGroupExamples | src/autoscale/scale_rule_test.go:9-43 | the package's rule tests: the three additions succeed, fail with the overlap error and succeed, and the four lookups give the steps 5, 3, 0 and 0 |
| Policy.NewValuePolicy | src/autoscale/policy.go:21-37 | fails iff scaleDownValue >= scaleUpValue; otherwise returns the policy with the given fields |
| Policy.Scale | src/autoscale/policy.go:41-54 | never negative; at or below the down threshold it is count - scaleDownBy, at or above the up threshold count + scaleUpBy, strictly between them the count, each clamped at 0 |
| Policy.ScaleMonotoneInCount | src/autoscale/policy.go:41-54 | a larger current count never gives a smaller result |
| Policy.ScaleMonotoneInValue | src/autoscale/policy.go:21-54 | for an accepted policy with non-negative steps, a higher metric value never gives fewer resources, and the result stays within one step of the count |
| Policy.ScaleExamples | src/autoscale/policy_test.go:17-30 | with up 0.8 by 3 and down 0.2 by 2: (5,0.5)→5, (5,0.1)→3, (5,0.8)→8, (1,0.1)→0 |
| Backoff.Jitter | src/pkg/backoff/backoff.go:30-36 | 0 for 0 ms; otherwise within [m/2, m/2 + m) |
| Backoff.Duration | src/pkg/backoff/backoff.go:22-28 | fails iff the attempt is past the table, with the exhausted error; otherwise it is the jittered entry in nanoseconds, non-negative and within the jitter bounds |
| Backoff.DefaultPolicyBounds | src/pkg/backoff/backoff.go:15-17 | the default table has 11 entries: attempts 0..10 succeed, later ones fail, and no wait reaches 15 s |
| RunList.MemoryRunList.constructor | src/autoscale/run_list.go:23-28 | a new run list is empty |
| RunList.MemoryRunList.IsRunning | src/autoscale/run_list.go:74-77 | true iff the ID is a key of the run list, which is then non-empty |
| RunList.MemoryRunList.Add | src/autoscale/run_list.go:42-50 | returns nil; the ID is now running and no other ID's membership changes |
| RunList.MemoryRunList.Remove | src/autoscale/run_list.go:52-60 | returns nil; the ID is no longer running and no other ID's membership changes |
| RunList.MemoryRunList.List | src/autoscale/run_list.go:62-77 | an ID is listed iff it is running, each exactly once |
| RunList.MemoryRunList.Reset | src/autoscale/run_list.go:79-85 | returns nil and empties the run list |
| RunList.RunListExamples | src/autoscale/run_list.go:42-85 | for two distinct IDs: adding `a` twice, adding `b` and removing `a` twice leaves a list holding `b` and not `a`, and after a reset `b` is no longer running |
| GroupMonitor.Names | src/autoscale/group_monitor.go:89 | the names of the listed groups, one per group, in listing order |
| GroupMonitor.UnseenSpec | src/autoscale/group_monitor.go:89-95 | a tick calls back exactly the listed names not already running, each once, and no more often than names are listed |
| GroupMonitor.TwoUnseenGroups | src/autoscale/group_monitor_test.go:24-56 | one tick of the package's test: two unseen groups give exactly two callbacks, in order |
| GroupMonitor.DuplicateNameFiresOnce | src/autoscale/group_monitor.go:89-95 | a name listed twice in one tick is called back once |
| GroupMonitor.RunningNameDoesNotFire | src/autoscale/group_monitor.go:90 | a name already in the run list gives no callback |
| GroupMonitor.GroupMonitor.constructor | src/autoscale/group_monitor.go:30-48 | a new group monitor has a fresh, empty run list |
| GroupMonitor.GroupMonitor.SetRunList | src/autoscale/group_monitor.go:120-122 | the monitor uses the given run list from now on |
| GroupMonitor.GroupMonitor.InRunList | src/autoscale/group_monitor.go:116-118 | asks the run list in use now, and is true iff the name is in it |
| GroupMonitor.GroupMonitor.Visit | src/autoscale/group_monitor.go:90-94 | the callback fires iff the name was not in the run list, and afterwards the name is in it |
| GroupMonitor.GroupMonitor.VisitAll | src/autoscale/group_monitor.go:89-95 | calls back the unseen names, and afterwards every listed name is in the run list |
| GroupMonitor.GroupMonitor.Tick | src/autoscale/group_monitor.go:83-97 | a tick's callbacks and run-list growth are those of its listing; a failed listing gives none; after quit, nothing (corrected loop) |
| GroupMonitor.GroupMonitor.Quit | src/autoscale/group_monitor.go:98-101 | quit empties the run list and ends the loop (corrected loop) |
| GroupMonitor.GroupMonitor.Step | src/autoscale/group_monitor.go:81-104 | handling one event extends the callbacks exactly as the trace function says (corrected loop) |
| GroupMonitor.GroupMonitor.Run | src/autoscale/group_monitor.go:80-105 | the callbacks over a run of events are exactly Trace, which stops at quit (corrected loop) |
| GroupMonitor.TraceFiresOnce | src/autoscale/group_monitor.go:89-101 | over a whole run each name is called back at most once, and never one running at the start |
| GroupMonitor.NothingAfterQuit | src/autoscale/group_monitor.go:98-102 | events after quit add no callbacks (corrected loop) |
| GroupMonitor.TraceAsWrittenRefiresAfterQuit | src/autoscale/group_monitor.go:98-102 | as written, a group announced before quit is announced again by a tick after it; the corrected loop announces it once |
| GroupMonitor.StopThenTickTest | src/autoscale/group_monitor_test.go:45-56 | the package's test, stop right after start and then a tick listing g1 and g2: as written both are called back, which the test waits for; the corrected loop calls back neither |
| Monitor.StringInSlice | src/autoscale/monitor.go:128-135 | true iff the string is an element of the list |
| Monitor.Ids | src/autoscale/monitor.go:96-98 | the IDs of the listed groups, one per group, in order |
| Monitor.ToEnableSpec | src/autoscale/monitor.go:97-102 | enable messages go to exactly the listed IDs that are not running |
| Monitor.Reconcile | src/autoscale/monitor.go:89-110 | a failed listing changes nothing and sends nothing; otherwise the disabled IDs and the run list after the tick split the old run list between them, so the run list never grows |
| Monitor.ReconcileKeepsListed | src/autoscale/monitor.go:105-106 | an ID both listed and running stays running and is not disabled |
| Monitor.Monitor.constructor | src/autoscale/monitor.go:37-55 | a new monitor has a fresh, empty run list |
| Monitor.Monitor.EnablePass | src/autoscale/monitor.go:96-102 | collects the listed IDs in order, and the enable messages for those not running, in listing order |
| Monitor.Monitor.DisablePass | src/autoscale/monitor.go:104-110 | every running ID not listed is removed from the run list and sent a disable message once; nothing else is removed |
| Monitor.Monitor.Tick | src/autoscale/monitor.go:88-112 | a tick sends and removes exactly what Reconcile says |
| Monitor.Monitor.Run | src/autoscale/monitor.go:81-118 | the outcomes over successive ticks are RunTicks, in which every tick reconciles (corrected loop) |
| Monitor.RunTicks | src/autoscale/monitor.go:86-112 | one outcome per tick |
| Monitor.FailedTickIsSkipped | src/autoscale/monitor.go:89-93 | a failed listing is a tick with no messages, and later ticks go on as if it had not happened (corrected loop) |
| Monitor.RunTicksAsWrittenStalls | src/autoscale/monitor.go:89-112 | as written, after one failed listing no later tick ever runs |
| Monitor.OneNewGroupEnabled | src/autoscale/monitor.go:96-102 | a first tick that lists one new group enables it and disables nothing |
| Monitor.StallExample | src/autoscale/monitor.go:89-112 | a failed listing followed by a listing of group "1": as written no enable is ever sent; the corrected loop sends it |
| Monitor.EnableExample | src/autoscale/monitor_test.go:13-43 | three new groups are enabled in listing order |
| Monitor.DisableExample | src/autoscale/monitor_test.go:45-85 | with "1", "2", "3" running and "1", "2" listed, only "3" is disabled and leaves the run list |
| Schedule.HandleActionStatus | src/autoscale/schedule.go:143-154 | the action's own error when it finishes first, the timeout error otherwise; no error only when it finished without one |
| Schedule.Scheduler.constructor | src/autoscale/schedule.go:42-52 | a new scheduler has no disabled groups |
| Schedule.Scheduler.IsDisabled | src/autoscale/schedule.go:76-112 | true iff the ID is a key of the disabled set; since every stored flag is true, the key test at line 76 and the flag test at line 112 agree |
| Schedule.Scheduler.DisableGroup | src/autoscale/schedule.go:135-137 | marks the group disabled |
| Schedule.Scheduler.Schedule | src/autoscale/schedule.go:73-103 | a disabled group gets the disabled-group activity and no action; otherwise the action runs, its activity carries the ID, outcome, delta and count, and a failed action disables the group |
| Schedule.Scheduler.Enable | src/autoscale/schedule.go:105-107 | the group is no longer disabled, and nothing else changes |
| Schedule.Scheduler.Disable | src/autoscale/schedule.go:109-129 | the group is disabled afterwards; the disable action runs and reports iff the group was not already disabled |
| Schedule.DisableTwice | src/autoscale/schedule.go:112-129 | a repeated disable starts no second disable action |
| Schedule.ScheduleExamples | src/autoscale/scheule_test.go:10-76 | the package's scheduler tests: an enabled group's scale action runs and its activity carries the group's ID and no error; for a disabled group no scale action runs, and the activity carries the ID and the disabled-group error |
| Activity.Send | src/autoscale/activity.go:45-56 | (corrected) sending fails iff the listener is closed |
| Activity.SendAsWritten | src/autoscale/activity.go:45-56 | as written, send returns nil, so it agrees with the intended send exactly on the open listeners and differs on every closed one |
| Activity.KeptSpec | src/autoscale/activity.go:32-40 | after a broadcast the listeners kept are exactly the registered open ones, with no new duplicates, and no more than before |
| Activity.KeptIdempotent | src/autoscale/activity.go:32-40 | pruning again against the same closed listeners removes nothing more |
| Activity.KeptAsWrittenKeepsAll | src/autoscale/activity.go:31-56 | as written, a broadcast never drops a listener |
| Activity.ClosedListenerExample | src/autoscale/activity.go:45-56 | a closed listener stays registered as written and is dropped when corrected |
| Activity.ActivityManager.constructor | src/autoscale/activity.go:15-20 | a new manager has no listeners |
| Activity.ActivityManager.RegisterListener | src/autoscale/activity.go:23-25 | appends the listener at the end and keeps the others |
| Activity.ActivityManager.Broadcast | src/autoscale/activity.go:31-40 | the listeners afterwards are the in-order subsequence of those the send succeeded on |
| Notify.ToNotification | src/autoscale/notify.go:44-68 | none iff delta is 0 or the group lookup fails; otherwise the fresh ID, the activity's group ID and the group's name, with the error text and zero counts for an error, or the delta and count and no message otherwise |
| Notify.NotificationsSpec | src/autoscale/notify.go:43-71 | at most one notification per activity, and a notification is sent iff some activity yields it |
| Notify.NotificationShape | src/autoscale/notify.go:57-68 | an error notification carries no counts; a success notification always reports a non-zero delta and no message |
| Notify.Notifier.Start | src/autoscale/notify.go:42-72 | the notifications sent, in order, are those of the activities received |
| Status.ToGroupStatus | src/autoscale/status.go:28-34 | a row iff the activity has no error and a non-zero delta, holding its ID, delta, count and the clock reading |
| Status.LoggedSpec | src/autoscale/status.go:27-41 | every stored row records a change from a successful activity whose write succeeded, and every such activity is stored; failed writes are dropped and later activities are still processed |
| Status.StatusLog.Start | src/autoscale/status.go:26-42 | the rows stored, in order, are those of the activities received |
| LocalResource.InstanceNameParses | src/autoscale/local_resource.go:66 | an instance name is "instance-" followed by digits that read back as its number |
| LocalResource.InstanceNamesDistinct | src/autoscale/local_resource.go:66 | different numbers give different names |
| LocalResource.LocalResource.constructor | src/autoscale/local_resource.go:34-36 | a new local resource has count 0 |
| LocalResource.LocalResource.Actual | src/autoscale/local_resource.go:40-43 | returns the count |
| LocalResource.LocalResource.ScaleUp | src/autoscale/local_resource.go:46-51 | the count grows by exactly the amount |
| LocalResource.LocalResource.ScaleDown | src/autoscale/local_resource.go:54-59 | the count shrinks by exactly the amount, with no clamp |
| LocalResource.LocalResource.Allocated | src/autoscale/local_resource.go:62-72 | max(count, 0) allocations named "instance-1".."instance-k" in order, all distinct |
| LocalResource.ScaleRoundTrip | src/autoscale/local_resource.go:46-59 | scaling up and then down by the same amount restores the count |
| StringSlice.Split | src/autoscale/string_slice.go:26 | a split always has at least one part |
| StringSlice.Value | src/autoscale/string_slice.go:13-15 | the empty slice is stored as ""; a non-empty slice of comma-free strings is stored as text that splits back into exactly that slice |
| StringSlice.Scan | src/autoscale/string_slice.go:18-28 | the slice read back is the split, on ",", of the column's bytes |
| StringSlice.SplitNoComma | src/autoscale/string_slice.go:26 | no part of a split holds a comma |
| StringSlice.JoinSplit | src/autoscale/string_slice.go:13-28 | joining what a split gives returns the original text |
| StringSlice.SplitJoin | src/autoscale/string_slice.go:13-28 | splitting the join of a non-empty list of comma-free parts gives the parts back |
| StringSlice.EmptySliceReadsBackAsOneEmptyString | src/autoscale/string_slice.go:13-28 | the empty slice is stored as "" and reads back as one empty string |
| StringSlice.ValueExample | src/autoscale/repo_test.go:93-101 | ["1","2"] is stored as "1,2" and "1,2" reads back as ["1","2"] |
| Config.RunSpec | src/autoscale/config.go:55 | the matcher is at its start state iff nothing was read, and accepting iff the input is a valid name |
| Config.NameMatches | src/autoscale/config.go:55 | the pattern `^\w[A-Za-z0-9\-]*$` accepts a name iff it starts with a word character and continues with letters, digits and '-' |
| Config.EmptyNameRejected | src/autoscale/config.go:55 | the empty name is rejected |
| Config.NameExamples | src/autoscale/group_test.go:16-18 | "1234" and "a-template" are accepted and "-1234" is rejected, as the group test expects |
| Config.PatternExamples | src/autoscale/repo_test.go:72 | "!!!", the repository test's invalid template name, is rejected; "_" is accepted, not a test vector but a consequence of the pattern, since \w includes the underscore |
| Config.DefaultValuePolicyValid | src/autoscale/config.go:45-53 | the default sizes form a non-empty range, and the default thresholds are a policy NewValuePolicy accepts |
| Template.Template.constructor | src/autoscale/template.go:6-14 | a new template holds the given name, region, size, image, SSH keys and user data, and an empty ID |
| Template.Template.IsValid | src/autoscale/template.go:20-26 | a template is valid iff its name matches the name pattern, so a valid name is never empty |
| Template.Template.GetID | src/autoscale/template.go:29-31 | returns the template's ID |
| Template.Template.SetID | src/autoscale/template.go:34-37 | returns nil, sets the ID, and changes no other field |
| Template.ValidityDependsOnNameOnly | src/autoscale/template.go:20-26 | a template is valid iff its name is, whatever its other fields |
| Template.SetThenGet | src/autoscale/template.go:29-37 | the ID set is the ID read back, and validity is unaffected |
| FileLoad.Apply | src/autoscale/file_load.go:51-81 | a path option fails iff the path is missing or not a directory, and otherwise sets it; a JSON option never fails: it sets "/tmp" on unparseable input, the "stats_dir" string when the input holds one, and otherwise keeps the current directory |
| FileLoad.FailureStops | src/autoscale/file_load.go:37-41 | once an option has failed, later options change nothing |
| FileLoad.NoOptionsGiveDefault | src/autoscale/file_load.go:43-45 | with no options the stats directory is "/tmp" |
| FileLoad.ConfiguredNeverEmpty | src/autoscale/file_load.go:43-45 | a constructed file load never has an empty stats directory |
| FileLoad.JsonOptionsNeverFail | src/autoscale/file_load.go:68-81 | a list of JSON options always constructs |
| FileLoad.LaterPathOverrides | src/autoscale/file_load.go:34-65 | a later directory option overrides whatever came before it |
| FileLoad.FirstErrorAborts | src/autoscale/file_load.go:37-41 | a failing option makes construction fail with its error, whatever follows |
| FileLoad.FileLoad.constructor | src/autoscale/file_load.go:35 | a fresh file load has an empty stats directory |
| FileLoad.FileLoad.ApplyOption | src/autoscale/file_load.go:51-81 | running an option changes the directory as Apply says, and only when it succeeds |
| FileLoad.FileLoad.Config | src/autoscale/file_load.go:117-122 | the configuration has the single key "statsDir", holding the stats directory |
| FileLoad.FileLoad.Update | src/autoscale/file_load.go:110-115 | always returns nil |
| FileLoad.FileLoad.Remove | src/autoscale/file_load.go:140-144 | always returns nil |
| FileLoad.NewFileLoad | src/autoscale/file_load.go:33-48 | no instance and the first option's error when an option fails; otherwise a new instance whose directory is the options' result, or "/tmp" when that is empty |
| Resource.FindOne | src/autoscale/api/resource.go:77-88 | 404 iff the object is missing, 500 for any other error, 200 with the object on success (the group resource, lines 131-142, is the same) |
| Resource.Create | src/autoscale/api/resource.go:90-102 | 400 iff the body has the wrong type, whatever the repository says; 500 on a repository error; 201 with the created object otherwise (the group resource, lines 144-156, is the same) |
| Resource.Delete | src/autoscale/api/resource.go:104-110 | 404 on any repository error, 204 otherwise, never with an object (the group resource, lines 158-164, is the same) |
| Resource.GroupUpdate | src/autoscale/api/resource.go:166-178 | 400 for a body of the wrong type, 500 on a save error, 200 with the input group unchanged otherwise |
| Resource.FindAll | src/autoscale/api/resource.go:116-123 | 500 iff listing fails, 200 with the list otherwise (the group, user-config and group-config resources, lines 180-187, 210-218 and 242-250, are the same) |
| Resource.NotImplemented | src/autoscale/api/resource.go:112-114 | 501 with no object (as are the config resources' other methods, lines 194-208 and 226-240) |
| Resource.RepositoryErrorsAreNeverSuccess | src/autoscale/api/resource.go:77-164 | a repository failure never yields a 2xx status, and a success on a well-typed body always does |
| Resource.FindOneStatusDeterminesOutcome | src/autoscale/api/resource.go:77-88 | the status of a lookup tells whether it succeeded and, if not, whether the object was missing |
| Setup.CaddyLines | src/autoscale/ctl/setup.go:23-36 | three lines ending in the proxy line: the host and "tls "+e-mail with automatic TLS, or host+":443" and the fixed certificate line without it |
| Setup.EnvLines | src/autoscale/ctl/setup.go:49-62 | eight lines, the first holding the access token and the last the web password |
| Setup.LinesUnlines | src/autoscale/ctl/setup.go:23-62 | text written as lines without newlines reads back as those lines |
| Setup.Buffer.WriteLine | src/autoscale/ctl/setup.go:27-34 | writing a line extends the text by the line and a newline (as `Env` does at lines 52-59) |
| Setup.Generate | src/autoscale/ctl/setup.go:23-36 | the Caddyfile is exactly the Caddyfile lines, each ended by a newline |
| Setup.Env | src/autoscale/ctl/setup.go:49-62 | the env file is exactly the eight env lines, each ended by a newline |
| Setup.CaddyfileLines | src/autoscale/ctl/setup.go:23-36 | a Caddyfile reads back as its three lines when the host and e-mail hold no newline |
| Setup.CaddyfileDependsOn | src/autoscale/ctl/setup.go:23-36 | the Caddyfile ignores the token, password and allowed hosts, and without automatic TLS also the e-mail |
| Setup.EnvDependsOn | src/autoscale/ctl/setup.go:49-62 | the env file depends on the token and the password only |
| Setup.TrimLeft | src/autoscale/ctl/setup.go:268 | the result is a suffix of the input that does not start with white space |
| Setup.TrimRight | src/autoscale/ctl/setup.go:268 | the result is a prefix of the input that does not end with white space |
| Setup.ToLower | src/autoscale/ctl/setup.go:291 | lower-cases each character in place, keeping the length |
| Setup.ClassifySpec | src/autoscale/ctl/setup.go:268-297 | an answer is yes iff, trimmed, it is "y" or "Y", and no iff it is "n" or "N" |
| Setup.ClassifyPaddedYes | src/autoscale/ctl/setup.go:268-294 | " Y" followed by a newline is a yes |
| Setup.ClassifyNo | src/autoscale/ctl/setup.go:291-296 | "n" is a no |
| Setup.ClassifyWord | src/autoscale/ctl/setup.go:291-297 | "yes" is neither, so it prompts again |
| Setup.AnswerAt | src/autoscale/ctl/setup.go:260-299 | the prompt's outcome is decided by the first line that is yes, no or a read error |
| Setup.NoAnswer | src/autoscale/ctl/setup.go:260-299 | input that runs out without a yes or a no ends the prompt with the EOF read error |
| Setup.CollectYesNo | src/autoscale/ctl/setup.go:284-299 | the prompt loop returns exactly the answer YesNoAnswer gives |
| SchedulerAlerts.ResolveEndpoint | src/autoscale/dashboard/app/components/scheduler-alerts.js:19-23 | never empty; the configured URL when there is one; otherwise the scheme "wss://", then exactly the page's host, then the path "/api/notifications" |
| SchedulerAlerts.ReconnectDelay | src/autoscale/dashboard/app/components/scheduler-alerts.js:28-33 | the floor of random×3000, an integer in [0, 3000) |
| SchedulerAlerts.Action | src/autoscale/dashboard/app/components/scheduler-alerts.js:47-50 | "shrank" iff the delta is negative, "grew" otherwise (also for 0) |
| SchedulerAlerts.Entries | src/autoscale/dashboard/app/components/scheduler-alerts.js:39-57 | one entry per notification, in the same order |
| SchedulerAlerts.EntriesAppend | src/autoscale/dashboard/app/components/scheduler-alerts.js:39-76 | a new notification adds exactly its own entry at the end |
| SchedulerAlerts.EntryShape | src/autoscale/dashboard/app/components/scheduler-alerts.js:47-53 | an entry's ID is the group ID, and its text is the name, a space, and then "shrank to " or "grew to " |
| SchedulerAlerts.NoticeList.constructor | src/autoscale/dashboard/app/components/scheduler-alerts.js:38 | the prototype's notification array starts empty |
| SchedulerAlerts.SchedulerAlerts.constructor | src/autoscale/dashboard/app/components/scheduler-alerts.js:8-38 | a new component has no socket and uses the shared notification array as it finds it, possibly already holding notifications |
| SchedulerAlerts.SchedulerAlerts.WebsocketConnect | src/autoscale/dashboard/app/components/scheduler-alerts.js:15-36 | opens the socket at the resolved endpoint and keeps the notifications |
| SchedulerAlerts.SchedulerAlerts.MessageHandler | src/autoscale/dashboard/app/components/scheduler-alerts.js:71-76 | appends the message's notification to the shared array, keeping the existing ones in order, and changes nothing else |
| SchedulerAlerts.SchedulerAlerts.NotificationEntries | src/autoscale/dashboard/app/components/scheduler-alerts.js:39-57 | the list built is Entries of the shared array's notifications |
| SchedulerAlerts.SchedulerAlerts.BadgeHasAlerts | src/autoscale/dashboard/app/components/scheduler-alerts.js:59-66 | "badge-with-alerts" iff the alert list built from the shared array has entries, "badge-with-no-alerts" iff it is empty |
| SchedulerAlerts.ReceiveThenList | src/autoscale/dashboard/app/components/scheduler-alerts.js:59-76 | after any message the badge shows alerts, and the list gains that message's entry |
| SchedulerAlerts.SharedNotifications | src/autoscale/dashboard/app/components/scheduler-alerts.js:38-76 | because the array belongs to the prototype, a message handled by one instance is listed by another when that one computes its list afresh, and an instance created later starts with the alert badge |

## Left out

- Concurrency: channels, goroutines, timers, the run list's mutex, and the unlocked `IsRunning`. Each event is handled to completion before the next one starts, so interleavings are not modelled.
- `time.AfterFunc` in src/autoscale/schedule.go:100-102, which re-enqueues a group after it is scheduled. The model handles the events it would produce but does not generate them.
- The later `Scheduler` declared in src/autoscale/monitor.go:137-247. The scheduler model follows src/autoscale/schedule.go.
- Logging, `ctxutil` contexts and `console.info`.
- Values from outside the core are inputs to the model:
  - uuid generation, `time.Now`, `rand.Intn` and `Math.random`;
  - repository calls, group actions and the DigitalOcean client;
  - `os.Stat` and `json.Unmarshal`;
  - reads from stdin;
  - `window.location.host`.
- `defaultTagName` in src/autoscale/config.go:63-70: it needs an md5 hash.
- Go's `int` is 64 bits wide, but the model's integers are unbounded. The wrap-around of `LocalResource.count`, of `Policy.Scale` on extreme counts, and of the nanosecond product in `Backoff.Duration` is not modelled.
- Backoff.Duration: a negative attempt number would make the table index panic, so the attempt is a `nat`. A negative table entry would make `rand.Intn` panic, so it is excluded by the precondition.
- Metric values are `float64` in the source and real numbers here. NaN and rounding are not modelled.
- `fmt`'s `%q` quoting in the file-load errors is written as plain double quotes, without Go escaping.
- StringSlice.Scan: Go's `string(ba)` copies the bytes unchanged, and `strings.Split` then works on bytes, so mapping each byte to the character with that code and splitting is what the source does for ASCII text. The rest of the model treats strings as sequences of Unicode code points, though. `Value` joins code points, while `Scan` reads back one character per byte. So a non-ASCII element written by `Value` does not read back unchanged from `Scan` in the model, although in Go it does, because bytes go in and the same bytes come out. UTF-8 encoding is not modelled. The type assertion on the source value, which panics for anything but a byte slice, is not modelled either.
- Setup.ToLower: only ASCII letters are lower-cased, where Go's `strings.ToLower` covers all of Unicode. No other character lower-cases to "y" or "n", so the yes/no classification is the same.
- Setup.CollectYesNo: `collectResponse` (src/autoscale/ctl/setup.go:261) opens a new buffered reader on stdin for every prompt, so with piped input a reader can consume lines beyond the one it returns, and the next prompt never sees them. The model hands each prompt exactly the next line, as happens with typed input.
- The rest of src/autoscale/ctl/setup.go is not modelled: running docker, writing files, and the formatted prompts.
- `os.Stat`'s error text is a parameter of the file-load model.
- The error result of every API resource method is always nil in the source. The model returns only the response.
- The error results of `LocalResource.Actual`, `ScaleUp`, `ScaleDown` and `Allocated`, of `StringSlice.Value` and `Scan`, and of `Template.SetID` are always nil in the source. The model returns only the value, except for `SetID`, whose result is always `None`.
- The repository lookups of the user-config and group-config resources are `FindAll`'s parameter.
- The dashboard's `addObject` appends only objects not already in the list. The object is a freshly parsed JSON value, so it is never already there, and the model always appends. The array itself is one `NoticeList` object that every component instance receives, as the prototype's array is shared; the model does not capture Ember's `notifyPropertyChange` re-rendering. `notificationEntries` and `badgeHasAlerts` are computed properties that Ember caches per instance, and `notifyPropertyChange` invalidates only the instance that handled the message. So another instance's cached list stays stale until its own property changes. `SharedNotifications` shows what an instance computes afresh.
- The dashboard's unused date formatting, `JSON.parse` failures (the source has no handling for them) and the websocket service's own behaviour are not modelled.
- `FileLoad.Measure`, `Values`, `InstanceValues`, `Value` and `Scan` read files, call the clock or use the JSON codec; none of them is modelled.
- The monitor's `Stop`, the group monitor's `Stop` and the `done` channel are represented only by the quit event.

## Findings

| source | as written | input that shows it | evidently intended | confidence | as-written member | corrected member |
|---|---|---|---|---|---|---|
| src/autoscale/group_monitor.go:98-102 | the `break` in the quit case leaves only the `select`, so the `for` loop keeps running. The quit channel is now nil, and the pending timer goes on firing ticks against the emptied run list | events Tick([g1]), Quit, Tick([g1]) from an empty run list: the callback receives "g1" twice | the monitoring loop ends at quit, so no callback follows it. The package's test (group_monitor_test.go:19 and :45-56) depends on the as-written behaviour: it stops the monitor right after starting it and then waits for two callbacks, which only a tick after quit delivers. So the original authors may rely on this behaviour, and the correction is a judgment on the `Stop` contract, not on the test | not executed; the test relies on the as-written behaviour, so intent is uncertain | GroupMonitor.TraceAsWritten, GroupMonitor.TraceAfterQuit, GroupMonitor.TraceAsWrittenRefiresAfterQuit, GroupMonitor.StopThenTickTest | GroupMonitor.Trace, GroupMonitor.NothingAfterQuit, GroupMonitor.GroupMonitor.Run |
| src/autoscale/monitor.go:89-93 | after a failed `ListGroups` the tick `continue`s past `timer.Reset`, so the timer never fires again and the monitor stops reconciling | ticks Failure, then a listing of group "1", from an empty run list: no enable message is ever sent for "1" | a failed listing is logged and the next tick runs as usual | not executed | Monitor.RunTicksAsWritten, Monitor.RunTicksAsWrittenStalls, Monitor.StallExample | Monitor.RunTicks, Monitor.FailedTickIsSkipped, Monitor.Monitor.Run |
| src/autoscale/activity.go:45-56 | `send` recovers the closed-channel panic into a local variable, not into a named result, so it returns nil; the broadcast never drops a closed listener | one registered listener, closed: after a broadcast it is still registered | sending to a closed listener reports an error, and the broadcast drops that listener | not executed | Activity.SendAsWritten, Activity.KeptAsWrittenKeepsAll, Activity.ClosedListenerExample | Activity.Send, Activity.KeptSpec, Activity.ActivityManager.Broadcast |
