# Supervisors: application status, deployment rules and the main page

Supervisors runs a cluster of Supervisor instances. This Dafny project models three parts
of it:

- **Application status** (`Application.dfy`, from `supervisors/application.py`). An
  `ApplicationStatus` object holds the processes of one application. `UpdateStatus`
  derives the application state (STARTING, STOPPING, RUNNING or STOPPED) from the process
  states. It also sets the major and minor failure flags, which hold only while the
  application is running. `SequenceDeployment` groups the processes into buckets by
  their sequence rank. `ApplicationRules` holds the rules that the deployment file gives
  to an application.
- **Deployment rules** (`Parser.dfy`, from `supervisors/parser.py`). Each child element
  of the deployment file is optional text. Each rule turns that text into a value:
  Python's `int()` for ranks, clamped to 0 when not positive; a flag; an expected loading
  in 0..100, which falls back to 1; or a list of addresses, trimmed and deduplicated, in
  which `*` wins. The program element of a process is the one found by its direct name,
  or else the element of the longest pattern contained in the process namespec. If that
  element references a model, the model replaces it. Loading assigns the rule fields one
  after the other. A malformed value raises part-way, and the fields already assigned
  keep their new values.
- **Main page decisions** (`ViewSupervisors.dfy`, from `supervisors/viewsupervisors.py`).
  These are the conciliation strategies the page offers (every strategy but USER), the
  callback each requested action triggers, and the rows of the table of conflicts. They
  also cover the stop requests that the `pstop` and `pkeep` actions send, and the waiters
  that report when those requests have taken effect.

`Wrappers.dfy` holds `Option`, `Result`, `Outcome`, Python's truthiness of an optional
text, and duplicate-free sequences. A duplicate-free sequence stands for a Python set in
its iteration order.

The XML file, the logger, the RPC requester, the conciliation and the cluster context are
outside the model. They become parameters:
- an already-parsed `Deployment` value;
- an `Externals` record of functions: `boolean`, `list_of_strings`, the address mapper's
  `filter`, and `check_dependencies` (an optional error message);
- a `rejects` map from each address whose `stop_process` request raises to the message
  of that error;
- the set of running addresses at the time a waiter polls.

Points where the code is not what its names or comments suggest, and the model follows the code:
- `sequence_deployment` groups processes by `rules.sequence`, a field the parser never
  assigns: the parser only sets `start_sequence` and `stop_sequence`. The model groups
  by the process's `sequence` field, as the code does.
- `get_program_addresses` carries a comment saying "sort", but nothing is sorted: the
  code only drops empty entries and removes duplicates, keeping the first occurrence.
  The model keeps that order and proves it (`Parser.NormalizedAddressesOrder`).
- The program is Python 2 code, so `int()` is Python 2's: white space may surround the
  number and may also stand between the sign and the digits (`Parser.ParseIntSpaceAfterSign`).
- The enumerations of `supervisors.types` are not part of this model, so their members
  and order are assumed: the conciliation strategies are SENIOR, RECENT, USER, STOP and
  RESTART, in that order, and the application states and failure strategies are
  assumed in the same way. The process states come from
  `supervisor.states`.

## Model

| member | source | states |
|---|---|---|
| Application.Classify | supervisors/application.py:121-135 | Each process contributes exactly one thing. RUNNING means running. STARTING or BACKOFF means starting. STOPPING means stopping. FATAL, or EXITED with an unexpected exit, is a major failure when the process is required and a minor one otherwise. Every other state contributes nothing. Each of these is stated as an if-and-only-if. |
| Application.Rollup | supervisors/application.py:139-149 | The derived state is never UNKNOWN. The failure flags are false unless the state is STARTING or RUNNING. An application without processes is STOPPED with no failure. |
| Application.RollupPrecedence | supervisors/application.py:118-149 | The states in terms of the raw process states, with precedence STARTING > STOPPING > RUNNING > STOPPED. Each state holds exactly when a process is in one of its states and no process is in a state of higher precedence. A major (resp. minor) failure is reported exactly when the application runs and a required (resp. optional) process has crashed. |
| Application.RollupReadsOnlyObservedFields | supervisors/application.py:118-135 | Two process maps with the same names, whose processes agree on state, expected exit and `required`, give the same status. |
| Application.AddQuietProcessKeepsRollup | supervisors/application.py:135 | Adding a process that contributes nothing, such as a STOPPED one or one that exited as expected, leaves the status unchanged. |
| Application.AddStartingProcessMakesStarting | supervisors/application.py:139-140 | Adding a STARTING or BACKOFF process always makes the application STARTING. |
| Application.RequiredFatalWhileStarting | supervisors/application.py:128-149 | A required FATAL process next to a STARTING process gives STARTING with a major failure. Next to a STOPPED process it gives STOPPED with no failure reported. |
| Application.Scan | supervisors/application.py:117-135 | The loop over the processes sets each of the five flags exactly when some process makes that contribution. |
| Application.ApplicationRules.constructor | supervisors/application.py:32-40 | The defaults: no autostart, sequence -1, ABORT on starting failure, CONTINUE on running failure, no start or stop sequence yet. |
| Application.ApplicationStatus.constructor | supervisors/application.py:58-70 | A new application is UNKNOWN, with no failure, no processes, an empty sequencing and fresh default rules. |
| Application.ApplicationStatus.Running | supervisors/application.py:73-75 | A running application (STARTING or RUNNING) is never stopped. |
| Application.ApplicationStatus.Stopped | supervisors/application.py:77-79 | An application is stopped exactly when it is neither running nor STOPPING. |
| Application.RollupRunningOrStopped | supervisors/application.py:73-79 | After an update the application runs exactly when some process is starting, or none is stopping and some runs. It is stopped exactly when every process is in a stopped-like state, and never both. |
| Application.ApplicationStatus.SetState | supervisors/application.py:86-89 | The setter leaves the state equal to the new state. |
| Application.ApplicationStatus.AddProcess | supervisors/application.py:103-105 | The process map gains (or replaces) the entry under the process name. Every entry stays keyed by its own process name. |
| Application.ApplicationStatus.SequenceDeployment | supervisors/application.py:107-112 | The buckets are rebuilt from nothing. No bucket is empty, and each holds only owned processes of its own rank. Every owned process sits in the bucket of its rank exactly once. |
| Application.ApplicationStatus.UpdateStatus | supervisors/application.py:115-149 | The state and the flags become the rollup of the processes, and the flags are false unless the application is running. When the rollup equals the current status, nothing changes. |
| Parser.ParseInt | supervisors/parser.py:114 | Text without a digit never parses, and a negative result needs a minus sign in the text. |
| Parser.ParseIntSpaceAfterSign | supervisors/parser.py:114 | As in Python 2, white space may stand between the sign and the digits: `" - 5 "` reads as -5 and `"+\t07"` as 7. |
| Parser.ParseIntOfDecimal | supervisors/parser.py:113-114 | `int()` reads back the decimal text of every integer, negative ones included. |
| Parser.SequenceRule | supervisors/parser.py:113-117 | A rank is never negative. It fails exactly when the text is non-empty and not an integer (`int()` raises). A positive result is exactly the parsed positive value. Missing or empty text, or a number that is not positive, gives 0. |
| Parser.SequenceRuleOfNumber | supervisors/parser.py:113-114 | On the text of n, the rank is n when n > 0 and 0 otherwise. |
| Parser.LoadingRule | supervisors/parser.py:125-126 | The loading lies in 0..100. It fails exactly on non-empty text that is not an integer. Missing or empty text gives 1, an in-range number is kept, and any number out of range gives 1. |
| Parser.LoadingRuleOfNumber | supervisors/parser.py:125-126 | On the text of n, the loading is n when 0 <= n <= 100 and 1 otherwise. |
| Parser.FlagRule | supervisors/parser.py:119-123 | Missing or empty text gives false. Otherwise the flag is what `boolean` returns, and the rule fails exactly when `boolean` rejects the text. |
| Parser.NonEmpty | supervisors/parser.py:135 | The entries kept are exactly the non-empty ones. |
| Parser.Dedup | supervisors/parser.py:135 | The result has no duplicates and holds exactly the entries given. |
| Parser.NormalizedAddressesOrder | supervisors/parser.py:135 | The normalized addresses have no duplicates and are exactly the non-empty entries. They come in the order of their first occurrence. |
| Parser.AddressesRule | supervisors/parser.py:135-136 | `*` among the entries gives `["*"]`. Otherwise the result is the filter applied to the normalized entries. |
| Parser.Matching | supervisors/parser.py:144 | The matching patterns are exactly those whose name is a substring of the namespec. |
| Parser.LongestIndex | supervisors/parser.py:147 | The chosen pattern has a name of maximal length, and it is the first such pattern in iteration order, as `max(key=len)` picks. |
| Parser.ChosenPattern | supervisors/parser.py:144-148 | No pattern is chosen exactly when none matches. A chosen pattern matches, and no matching pattern has a longer name. |
| Parser.DirectProgram | supervisors/parser.py:140 | A direct program exists exactly when the process's application has a program of that name, and it is one of that application's programs. |
| Parser.ResolveReference | supervisors/parser.py:150-155 | An element that references a known model is replaced by that model. Any other element is kept. |
| Parser.GetProgramElement | supervisors/parser.py:138-156 | There is no element exactly when there is no direct program and no matching pattern. A direct program wins. Otherwise the element is that of a longest matching pattern. In every case the reference is resolved. |
| Parser.AddressesStep | supervisors/parser.py:132-136 | Without addresses text the addresses stay as they were. With `*` among the listed entries they become `["*"]`. Otherwise they become the filtered, normalized entries. |
| Parser.LoadedProcessRules | supervisors/parser.py:110-128 | The addresses step always applies. Then start rank, stop rank, `required`, `wait_exit` and loading are set in that order, each to its rule's value. The first rule that raises ends the load with exactly the fields before it set. When all succeed, the rules are the six rule values and the outcome is the dependency check's. The load passes exactly when every rule succeeds and the dependency check finds nothing. On success the ranks are non-negative, the loading lies in 0..100, and `required` and `wait_exit` are false when absent. |
| Parser.GetProgramAddresses | supervisors/parser.py:131-136 | Without an addresses text the addresses are unchanged. Otherwise they become the addresses rule of the listed entries. |
| Parser.LoadProcessRules | supervisors/parser.py:106-128 | Without a program element the rules are unchanged and nothing is raised. Otherwise the rules and the outcome are those of `LoadedProcessRules`. |
| Parser.LoadProgramRules | supervisors/parser.py:110-128 | The step-by-step assignments, with early exits, leave exactly the rules and outcome that `LoadedProcessRules` computes. |
| Parser.LoadApplicationRules | supervisors/parser.py:92-102 | Without an application element the rules are unchanged. Otherwise the start rank is set first and then the stop rank. A malformed start rank raises with nothing set. A malformed stop rank raises with only the start rank set. The other rules never change. |
| ViewSupervisors.FromName | supervisors/viewsupervisors.py:233 | A name yields a strategy exactly when it is that strategy's name. |
| ViewSupervisors.NameSpelling | supervisors/viewsupervisors.py:49-50 | Lower-casing a strategy name gives its spelling. Upper-casing the spelling gives the name back. |
| ViewSupervisors.RemoveFirstDropsOne | supervisors/viewsupervisors.py:50 | `list.remove` drops one occurrence of the value and keeps every other element. |
| ViewSupervisors.LowerNamesOfAll | supervisors/viewsupervisors.py:49 | The lower-cased names of all strategies, in declaration order. |
| ViewSupervisors.OfferedStrategiesSpelled | supervisors/viewsupervisors.py:48-50 | The page offers senior, recent, stop and restart, in that order. |
| ViewSupervisors.OfferedStrategiesAreAllButUser | supervisors/viewsupervisors.py:48-50 | A strategy is offered exactly when it is not USER. |
| ViewSupervisors.SupervisorsView.constructor | supervisors/viewsupervisors.py:44-54 | The page keeps the lower-case names of every strategy but USER. |
| ViewSupervisors.MakeCallback | supervisors/viewsupervisors.py:163-174 | No callback exactly when the action is neither global, nor a strategy, nor a process action. Global actions come first. A strategy action conciliates with the upper-cased action. A process action receives the namespec and the form's address. Each name triggers its own callback: `refresh`, `sup_restart` and `sup_shutdown` their global action, `pstop` the stop action, `pkeep` the keep action. |
| ViewSupervisors.OfferedStrategyDispatch | supervisors/viewsupervisors.py:169-170 | On the page's own list, each offered strategy name triggers the conciliation with that very strategy. The user strategy triggers nothing. |
| ViewSupervisors.Poll | supervisors/viewsupervisors.py:204-225 | A stop waiter is done exactly when its address is no longer running. A keep waiter is done exactly when at most one address is still running. |
| ViewSupervisors.KeepWaiterDoneOnceOthersStopped | supervisors/viewsupervisors.py:222-225 | A keep waiter is done once the process runs on the kept address alone, or nowhere. |
| ViewSupervisors.GlobalReply | supervisors/viewsupervisors.py:176-194 | Refresh never fails. Restart and shutdown report an error exactly when the remote call raised. |
| ViewSupervisors.Without | supervisors/viewsupervisors.py:215-216 | The copy without the kept address holds exactly the other running addresses. |
| ViewSupervisors.StopAction | supervisors/viewsupervisors.py:196-209 | One request stops the process on the address without waiting. A rejection gives its error message. Otherwise a stop waiter on that address is returned. |
| ViewSupervisors.KeepStops | supervisors/viewsupervisors.py:217-227 | At most one request per other address. The reply is a waiter or an error, and a waiter comes only after every address has been requested. |
| ViewSupervisors.Keep | supervisors/viewsupervisors.py:214-227 | A kept address that is not running raises KeyError with no request sent. Otherwise the reply is a waiter or an error, with fewer requests than running addresses. |
| ViewSupervisors.KeepStopsOutcome | supervisors/viewsupervisors.py:217-227 | The requests cover a prefix of the other addresses, in order. The action defers exactly when no request fails, and then every address is stopped and the waiter names the last one. Otherwise it stops at the first failing address and reports that address's error. |
| ViewSupervisors.KeepStopsAllButKept | supervisors/viewsupervisors.py:211-227 | No request goes to the kept address. The action defers exactly when no other running address rejects. When it defers, every other running address has received a stop request. |
| ViewSupervisors.KeepAction | supervisors/viewsupervisors.py:211-227 | The loop issues exactly the requests and reply of `Keep`, with a KeyError when the kept address is not running. |
| ViewSupervisors.ConflictRowsBelong | supervisors/viewsupervisors.py:123-125 | Every row belongs to a conflicting process and to one of its addresses, and carries that address's uptime. |
| ViewSupervisors.ProcessRows | supervisors/viewsupervisors.py:123-125 | One row per address of the process, in order. Each row carries the namespec, the address and that address's uptime. The first row spans all of the process's addresses, and every other row spans 0. |
| ViewSupervisors.ConflictRowsLayout | supervisors/viewsupervisors.py:123-125 | The rows of each process follow one another in the order of the conflicts. The i-th row of the k-th process sits right after the rows of the processes before it. |
| ViewSupervisors.ConflictRowsShape | supervisors/viewsupervisors.py:123-125 | There is one row per process and address, and the rowspans add up to the number of rows. |
| ViewSupervisors.ShowsConflicts | supervisors/viewsupervisors.py:72 | The table of conflicts replaces the address boxes exactly in CONCILIATION with at least one conflict. |
| ViewSupervisors.ConciliationAction | supervisors/viewsupervisors.py:229-238 | The named strategy is applied to the one process a non-empty namespec names, or else to all conflicts. An info message is always returned. |

## Left out

- Logging, `to_json`, `state_string` and `__str__` (`supervisors/application.py:42-44`, `93-101`) are left out: they are output only.
- Reading and validating the XML file (`Parser.__init__`, `parse`) is left out. The model starts from a `Deployment` value with the application elements, the models and the patterns already collected.
- The HTML rendering of the page (`write_*`) is left out. Only the decision at `supervisors/viewsupervisors.py:72` and the row data of the conflicts table are modelled.
- The remote calls (`restart`, `shutdown`, `stop_process`), `conciliate`, `process_from_namespec` and `context.conflicts()` are not part of this model. They enter as parameters: an optional RPC error, a `rejects` map, and sequences of namespecs and addresses.
- The delay of the waiters and the web server's polling of `NOT_DONE_YET` are left out. `Poll` models one poll against the running addresses at that moment. The source's waiters read a live reference to the process's address set.
- ViewSupervisors.StopAction: the address comes from the request form and may be absent in the source. The model takes it as present.
- ViewSupervisors.KeepAction: the same holds for the address, which is taken as present.
- ViewSupervisors.ConciliationAction: requires a valid strategy name. `_from_string` on any other name belongs to `supervisors.types`, which is not part of this model. `OfferedStrategyDispatch` shows that the page only ever passes valid names.
- `ProcessStatus` and `ProcessRules` (`supervisors/process.py`) are not part of this model. A process is a value with the fields `update_status` and `sequence_deployment` read. The rules of a process are a class with the six fields the parser writes.
- Parser.LoadProcessRules: `check_dependencies` is modelled as a function that returns an error message or nothing, and it does not change the rules.
- Application.ApplicationStatus.SequenceDeployment: does not state the order of the processes inside one bucket, which follows dictionary iteration order. The buckets also hold process values rather than shared references to the process objects.
- Parser.ParseIntOfDecimal: `int()` is modelled on ASCII white space and digits only. Unicode digits that Python's `int()` also accepts are not modelled.
- The order of the `patterns` dictionary is taken as given: `Deployment.patterns` is a sequence in iteration order. Distinct pattern names are not required of it, so duplicate names, which a dictionary would collapse to its last element, are allowed in the model.
