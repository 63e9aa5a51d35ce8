# ServiceManagerMiu, modelled in Dafny

ServiceManagerMiu is a MoviePilot plugin. It takes over six of the host's
built-in scheduled jobs:
- site data refresh;
- subscription search completion;
- cache clearing;
- wallpaper caching;
- subscription metadata update;
- media server sync.

While the plugin is enabled, each job is registered as a plugin service when
its setting is non-empty. Subscription search is registered only if the host's
`SUBSCRIBE_SEARCH` is also on.
The source's comment dates a host change from v2.5.1 onwards: from that
version the host registers its built-in jobs under a plugin prefix, so the
plugin's jobs would run alongside them. The code, however, removes the host's
own copies of those jobs (30 seconds after start-up) only on hosts strictly
above v2.5.1. A v2.5.1 host, with any build number, therefore keeps its
built-in copies; `MigrationBoundary` states that boundary.

The model is split into these modules:
- `Wrappers` (an `Option` type).
- `Builtins`. It holds the Python built-ins the plugin relies on, as pure functions over a small Python value type (`None`, `bool`, `int`, `float`, `str`): truthiness, `int(x)`, `str.lstrip`, `str.split`, `str.join`, `str(int)` and `int(str)`.
- `Version`. It holds `is_version_greater_than` as a specification function and the lemmas about the ordering it defines.
- `ServiceManager`. It holds the plugin class `ServiceManagerMiu`. The class's fields are the plugin's eight private attributes. Its methods are `init_plugin`, `get_state`, `get_service`, `_remove_system_services` and `is_version_greater_than`. Each method is proved against a specification function on the attributes.

Everything the plugin asks of the host is returned as a list of `HostCall`
values rather than performed:
- starting the removal timer;
- saving the configuration;
- re-initialising the scheduler;
- removing a job.

The host's `APP_VERSION` and `settings.SUBSCRIBE_SEARCH` are parameters.

## Model

| member | source | states |
|---|---|---|
| Builtins.Truthy | plugins.v2/servicemanagermiu/__init__.py:370-429 | A value is falsy exactly when it is `None`, `False`, `0`, `0.0` or `""`. |
| Builtins.ParseDigits | plugins.v2/servicemanagermiu/__init__.py:514 | `int(piece)` succeeds on a component exactly when the piece is a non-empty string of ASCII digits. |
| Builtins.ParseDigitsCanonical | plugins.v2/servicemanagermiu/__init__.py:514 | `str(int(s)) == s` for a digit string without leading zeros. |
| Builtins.ParseInt | plugins.v2/servicemanagermiu/__init__.py:415 | `int(s)` accepts exactly a non-empty digit string, optionally after one `+` or `-`. Only a `-` gives a negative result. |
| Builtins.IntOf | plugins.v2/servicemanagermiu/__init__.py:415-417 | `int(None)` fails. `int(x)` of a float truncates toward zero: below it for a non-negative float, above it for a negative one, by less than one. |
| Builtins.LStrip | plugins.v2/servicemanagermiu/__init__.py:510-511 | `lstrip('v')` returns a suffix of its input. The dropped prefix holds only `v`s, and the result does not start with `v`. |
| Builtins.Split | plugins.v2/servicemanagermiu/__init__.py:510-515 | `split(sep)` returns at least one piece. No piece contains the separator, and joining the pieces with it gives back the input. |
| Builtins.SplitJoin | plugins.v2/servicemanagermiu/__init__.py:514-515 | Splitting undoes joining when no piece contains the separator. |
| Builtins.ParseDigitsRoundTrip | plugins.v2/servicemanagermiu/__init__.py:514-515 | `int(str(n)) == n` for every natural number. |
| Builtins.ParseIntRoundTrip | plugins.v2/servicemanagermiu/__init__.py:415 | `int(str(i)) == i` for every integer, including negative ones. |
| Version.Parse | plugins.v2/servicemanagermiu/__init__.py:510-515 | A version that parses has one component per dot-separated piece of its core, and at least one. |
| Version.LexGreater | plugins.v2/servicemanagermiu/__init__.py:523-528 | When the loop returns true, the lists are non-empty and the first component of the current version is at least the target's. |
| Version.PartsGreater | plugins.v2/servicemanagermiu/__init__.py:517-528 | A list that is greater than another is not equal to it after padding. |
| Version.Core | plugins.v2/servicemanagermiu/__init__.py:510-511 | After the `v`s are stripped and the text is cut at the first `-`, no `-` is left. |
| Version.ParseParts | plugins.v2/servicemanagermiu/__init__.py:514-515 | The list comprehension of `int`s succeeds exactly when every piece is a digit string. It then yields one number per piece, each that piece's value. |
| Version.Pad | plugins.v2/servicemanagermiu/__init__.py:518-520 | Padding with zeros gives exactly the common width. |
| Version.VersionGreater | plugins.v2/servicemanagermiu/__init__.py:494-528 | The result is an error exactly when either version fails to parse. Otherwise it is the zero-padded component comparison. |
| Version.LexFirstDifference | plugins.v2/servicemanagermiu/__init__.py:523-528 | The loop's answer is true exactly when there is a first differing index and the current version is larger there. |
| Version.LexZeroTail | plugins.v2/servicemanagermiu/__init__.py:517-520 | Appending equally many zeros to both lists does not change the comparison. |
| Version.PartsAtWidth | plugins.v2/servicemanagermiu/__init__.py:517-528 | Padding to any width at least the longer length gives the same answer and the same equality. |
| Version.VersionIrreflexive | plugins.v2/servicemanagermiu/__init__.py:494-528 | No version is greater than itself. A parseable one compares as `False`. |
| Version.VersionAsymmetric | plugins.v2/servicemanagermiu/__init__.py:494-528 | Two versions are never each greater than the other. |
| Version.VersionTrichotomy | plugins.v2/servicemanagermiu/__init__.py:494-528 | For parseable versions, they have equal padded components exactly when neither is greater. Otherwise exactly one is greater. |
| Version.VersionTransitive | plugins.v2/servicemanagermiu/__init__.py:494-528 | "Greater than" is transitive. |
| Version.CoreBuildSuffix | plugins.v2/servicemanagermiu/__init__.py:510-511 | A `-build` suffix is cut away. |
| Version.CoreLeadingV | plugins.v2/servicemanagermiu/__init__.py:510-511 | Any number of leading `v`s is stripped. |
| Version.BuildSuffixIgnored | plugins.v2/servicemanagermiu/__init__.py:503-511 | A build suffix never changes the comparison, on either side. |
| Version.LeadingVIgnored | plugins.v2/servicemanagermiu/__init__.py:510-511 | Leading `v`s never change the comparison, on either side. |
| Version.PartsTrailingZero | plugins.v2/servicemanagermiu/__init__.py:517-528 | A trailing zero component changes neither comparison nor equality. |
| Version.CoreWithoutSuffix | plugins.v2/servicemanagermiu/__init__.py:510-511 | Without a `-`, only the `v`s are stripped. |
| Version.ParsePartsAppendZero | plugins.v2/servicemanagermiu/__init__.py:514-515 | Appending a `"0"` piece appends a zero component. |
| Version.ParseAppendZero | plugins.v2/servicemanagermiu/__init__.py:510-515 | Without a build suffix, `s.0` parses to the components of `s` followed by a zero. |
| Version.TrailingZeroIgnored | plugins.v2/servicemanagermiu/__init__.py:514-528 | `s.0` parses to `s`'s components plus a zero and compares like `s`, on either side. |
| Version.GreaterByParts | plugins.v2/servicemanagermiu/__init__.py:514-528 | Once both strings parse, the comparison is the padded comparison of their components. |
| Version.PartsIrreflexive | plugins.v2/servicemanagermiu/__init__.py:517-528 | No component list is greater than itself. |
| Version.Components | plugins.v2/servicemanagermiu/__init__.py:514-515 | The written form of each component is its decimal representation. |
| Version.ParseFormat | plugins.v2/servicemanagermiu/__init__.py:498-515 | A version written as dotted decimals parses back to its components. This holds with any number of leading `v`s and any build suffix. |
| Version.ParseWritten | plugins.v2/servicemanagermiu/__init__.py:498-515 | The same, for any string spelled in one of those two forms. |
| Version.Format2510 | plugins.v2/servicemanagermiu/__init__.py:505 | `[2, 5, 10]` is written `2.5.10`. |
| Version.Format259 | plugins.v2/servicemanagermiu/__init__.py:505 | `[2, 5, 9]` is written `2.5.9`. |
| Version.Format251 | plugins.v2/servicemanagermiu/__init__.py:506 | `[2, 5, 1]` is written `2.5.1`. |
| Version.Format250 | plugins.v2/servicemanagermiu/__init__.py:506 | `[2, 5, 0]` is written `2.5.0`. |
| Version.Format25 | plugins.v2/servicemanagermiu/__init__.py:518-520 | `[2, 5]` is written `2.5`. |
| Version.Format2500 | plugins.v2/servicemanagermiu/__init__.py:518-520 | `[2, 5, 0, 0]` is written `2.5.0.0`. |
| Version.ParseV2510 | plugins.v2/servicemanagermiu/__init__.py:505 | `v2.5.10` parses to `[2, 5, 10]`. |
| Version.ParseV259Build1 | plugins.v2/servicemanagermiu/__init__.py:505 | `v2.5.9-1` parses to `[2, 5, 9]`. |
| Version.ParseV251 | plugins.v2/servicemanagermiu/__init__.py:82 | `v2.5.1` parses to `[2, 5, 1]`. |
| Version.ParseV251Build | plugins.v2/servicemanagermiu/__init__.py:503-507 | `v2.5.1-` followed by any build suffix parses to `[2, 5, 1]`. |
| Version.ParseV250 | plugins.v2/servicemanagermiu/__init__.py:506 | `v2.5.0` parses to `[2, 5, 0]`. |
| Version.ParsePlain25 | plugins.v2/servicemanagermiu/__init__.py:518-520 | `2.5` parses to `[2, 5]`. |
| Version.ParsePlain2500 | plugins.v2/servicemanagermiu/__init__.py:518-520 | `2.5.0.0` parses to `[2, 5, 0, 0]`. |
| Version.ParsePlain251 | plugins.v2/servicemanagermiu/__init__.py:518-520 | `2.5.1` parses to `[2, 5, 1]`. |
| Version.ExampleTenAfterNine | plugins.v2/servicemanagermiu/__init__.py:505 | `v2.5.10 > v2.5.9-1`: components compare as numbers, not as text. |
| Version.ExamplePatchLevel | plugins.v2/servicemanagermiu/__init__.py:506 | `v2.5.1 > v2.5.0`, and not the other way round. |
| Version.ExampleBuildNumber | plugins.v2/servicemanagermiu/__init__.py:507 | `v2.5.1-2` and `v2.5.1` are equal: neither is greater than the other. |
| Version.ExampleBuilds | plugins.v2/servicemanagermiu/__init__.py:503 | Any two builds of v2.5.1, such as `v2.5.1-9` and `v2.5.1-1`, are equal: neither is greater than the other. |
| Version.SameComponentsNotGreater | plugins.v2/servicemanagermiu/__init__.py:517-528 | Two versions that parse to the same components are each not greater than the other. |
| Version.ExamplePadding | plugins.v2/servicemanagermiu/__init__.py:517-520 | `2.5` and `2.5.0.0` have equal padded components, and neither is greater than the other. `2.5.1 > 2.5`. |
| ServiceManager.MigrationGreater | plugins.v2/servicemanagermiu/__init__.py:82 | The test against v2.5.1 fails exactly when the host version does not parse. When it is true, the host's padded components differ from `[2, 5, 1]`. |
| ServiceManager.Load | plugins.v2/servicemanagermiu/__init__.py:62-69 | Each job attribute is the configuration's entry under that job's key, or `None`. A missing `enabled` or `reset_and_disable` is falsy. |
| ServiceManager.FilterConfigured | plugins.v2/servicemanagermiu/__init__.py:459-483 | The selection is no longer than the table, and holds only jobs of the table that are configured. |
| ServiceManager.RemovalJobs | plugins.v2/servicemanagermiu/__init__.py:459-483 | At most six jobs are removed, each of them configured. |
| ServiceManager.ServicesOf | plugins.v2/servicemanagermiu/__init__.py:358-437 | A disabled plugin registers no service. An enabled one registers one service per job `_remove_system_services` removes. |
| ServiceManager.InitOutcomeOf | plugins.v2/servicemanagermiu/__init__.py:71-90 | `init_plugin` with a configuration never skips. A version error requires the plugin to be enabled, and removal requires it to be enabled on a host above v2.5.1. |
| ServiceManager.AfterReset | plugins.v2/servicemanagermiu/__init__.py:92-94 | A set reset flag turns both flags off. Without it the attributes stay as they are. Job settings are kept either way. |
| ServiceManager.ResetConfig | plugins.v2/servicemanagermiu/__init__.py:95-96 | With the reset flag set, both keys are present in the saved configuration and `False`. Without it the configuration is returned untouched. Every other key keeps its value either way. |
| ServiceManager.InitCalls | plugins.v2/servicemanagermiu/__init__.py:82-98 | The timer is started first exactly when removal is scheduled. Saving the configuration and then re-initialising the scheduler come last exactly when a reset was made. Nothing else is asked of the host. |
| ServiceManager.MigrationBoundary | plugins.v2/servicemanagermiu/__init__.py:71-82 | v2.5.1 itself, with or without a build suffix, is not above v2.5.1, so `init_plugin` schedules no removal on it. |
| ServiceManager.MigrationComparison | plugins.v2/servicemanagermiu/__init__.py:82 | Comparing with `"v2.5.1"` is comparing the parsed host version with `[2, 5, 1]`. |
| ServiceManager.TmdbHours | plugins.v2/servicemanagermiu/__init__.py:413-417 | The interval is at least one hour. It is the setting's integer value when that is at least 1, and 1 when `int` fails or the value is below 1. |
| ServiceManager.ServiceFor | plugins.v2/servicemanagermiu/__init__.py:374-435 | Each descriptor carries its job's id. Cron jobs take their trigger from their own setting, and the metadata job uses an interval of at least one hour. Only subscription search passes `state = "R"`. |
| ServiceManager.Ids | plugins.v2/servicemanagermiu/__init__.py:376-430 | The ids of a service list, one per service, in order. |
| ServiceManager.Keys | plugins.v2/servicemanagermiu/__init__.py:463-483 | The ids of a job list, one per job, in order. |
| ServiceManager.RegisteredJobs | plugins.v2/servicemanagermiu/__init__.py:358-437 | A disabled plugin registers nothing. An enabled one registers exactly the ids `_remove_system_services` removes, in the same order, each with its own descriptor. |
| ServiceManager.FilterAppend | plugins.v2/servicemanagermiu/__init__.py:459-483 | Each further row of the table adds its job exactly when that job is configured. |
| ServiceManager.RegistrationStep | plugins.v2/servicemanagermiu/__init__.py:373-435 | Each `if … services.append(…)` row extends the registered list by that row's descriptor exactly when the row is selected, in step with the job list. |
| ServiceManager.RemovalTable | plugins.v2/servicemanagermiu/__init__.py:459-483 | The removal list is the six rows in the fixed order, each kept when its setting is non-empty. Subscription search is also kept only with SUBSCRIBE_SEARCH. |
| ServiceManager.RegisteredTable | plugins.v2/servicemanagermiu/__init__.py:370-437 | An enabled plugin's services are the descriptors of those same six rows, in the same order. |
| ServiceManager.FilterConfiguredMembers | plugins.v2/servicemanagermiu/__init__.py:459-483 | A job is selected exactly when it is in the table and configured. |
| ServiceManager.FilterConfiguredDistinct | plugins.v2/servicemanagermiu/__init__.py:459-483 | Selecting from a table without duplicates gives no duplicates. |
| ServiceManager.KeyInjective | plugins.v2/servicemanagermiu/__init__.py:376-433 | Different jobs have different ids. |
| ServiceManager.ConfiguredJobs | plugins.v2/servicemanagermiu/__init__.py:459-489 | The jobs removed (and registered) are exactly the configured ones, and subscription search counts only with SUBSCRIBE_SEARCH. Each appears once, and no id is removed twice. |
| ServiceManager.InitOutcomeCases | plugins.v2/servicemanagermiu/__init__.py:71-90 | `init_plugin` fails on the host version only when enabled and only when that version does not parse. Removal is scheduled exactly when the plugin is enabled and the host is above v2.5.1. |
| ServiceManager.ResetDisables | plugins.v2/servicemanagermiu/__init__.py:92-97 | After reset-and-disable both flags are off, nothing is registered, and acting on the flag again changes nothing. |
| ServiceManager.ResetConfigLoads | plugins.v2/servicemanagermiu/__init__.py:92-97 | The saved configuration loads back into the attributes the reset left. Every job setting is kept, and both flags are false. |
| ServiceManager.ServiceManagerMiu.constructor | plugins.v2/servicemanagermiu/__init__.py:39-54 | A fresh plugin is disabled, with both flags `False` and every job setting `""`. |
| ServiceManager.ServiceManagerMiu.InitPlugin | plugins.v2/servicemanagermiu/__init__.py:58-99 | An empty configuration changes nothing. Otherwise the eight attributes are loaded, and a host version that does not parse (when enabled) stops `init_plugin` there. Otherwise the removal timer is started exactly on hosts above v2.5.1. A reset turns both flags off in the attributes and in the saved configuration, which is then written back, and the scheduler is re-initialised. |
| ServiceManager.ServiceManagerMiu.AboveMigrationVersion | plugins.v2/servicemanagermiu/__init__.py:82 | The version test of `init_plugin` is the component comparison with `[2, 5, 1]`. |
| ServiceManager.ServiceManagerMiu.GetState | plugins.v2/servicemanagermiu/__init__.py:101-102 | The state is the truthiness of `_enabled`. While it is false, no job is registered for either SUBSCRIBE_SEARCH setting. |
| ServiceManager.ServiceManagerMiu.GetService | plugins.v2/servicemanagermiu/__init__.py:358-437 | The returned list is the registration list of the current attributes. |
| ServiceManager.ServiceManagerMiu.ServicesToRemove | plugins.v2/servicemanagermiu/__init__.py:458-483 | The list built is the selection of configured jobs, in registration order. |
| ServiceManager.ServiceManagerMiu.RemoveSystemServices | plugins.v2/servicemanagermiu/__init__.py:452-492 | It makes one `remove_plugin_job(pid="None", job_id=…)` call per selected job, in order, and no others. |
| ServiceManager.ServiceManagerMiu.IsVersionGreaterThan | plugins.v2/servicemanagermiu/__init__.py:494-528 | The strip, split, parse, pad and compare loop computes `VersionGreater`. |

## Left out

- Threads and timers: the 30-second `threading.Timer` is the `StartRemovalTimer(30)` host call. The later run of `_remove_system_services` is a separate method call.
- Host services: the host's scheduler, its configuration store, `update_config`, `Scheduler().init()`, `Scheduler().clear_cache()` and the chain objects are outside the model. They appear as `HostCall` values, and the job callables as `Job` tags.
- Cron triggers: `CronTrigger.from_crontab` is not modelled. A cron trigger keeps the raw setting, so an invalid expression, which raises in the host library, is not modelled.
- UI and stubs: `get_form`, `get_page`, `get_command`, `get_api` and `stop_service` build UI or do nothing, and are not modelled. The `kwargs`/`func_kwargs` distinction is kept only as far as `Service.funcKwargs` and `Interval(hours)` go.
- Logging is not modelled.
- ServiceManager.TmdbHours: a float setting is a `PyFloat` holding a real number, and `int` truncates it toward zero. Infinity and NaN are not modelled. `int(float('inf'))` raises `OverflowError`, which the source does not catch, and `int(float('nan'))` raises a `ValueError` that it does catch. List and dictionary values, which make `int` raise `TypeError`, are not modelled either.
- ServiceManager.ServiceManagerMiu.RemoveSystemServices: an exception from the host's `remove_plugin_job` is caught and logged in the source. The model treats every call as returning normally, so the sequence of calls it states is the sequence attempted.
- Builtins.ParseInt: Python's `int(str)` also accepts surrounding whitespace, `_` digit separators and non-ASCII digits. The model accepts only an optional sign followed by ASCII digits, so it is stricter than Python on those inputs.
- Version.VersionGreater: the source raises `ValueError` on a component that is not a number. In the model that is the `None` result. A component is parsed by the stricter `ParseDigits`, so some pieces Python's `int` accepts also give `None` here: `"+5"`, `" 5"`, `"1\n"`, `"5_0"` and non-ASCII digits. For example, `2.+5` is `[2, 5]` in Python but does not parse in the model.
- ServiceManager.ServiceManagerMiu.InitPlugin: the `ValueError` that `is_version_greater_than` raises inside `init_plugin` becomes the `VersionError` outcome. In that outcome the attributes are loaded and nothing else happens, which matches the source, where the exception propagates before the reset branch.
- ServiceManager.ServiceManagerMiu.InitPlugin: `config` is a value, so the source's in-place update of the caller's dictionary is the returned `newConfig`. A missing (`None`) configuration and an empty one are both the empty map.
- ServiceManager.ServiceManagerMiu.GetState: the source returns the raw `_enabled` value. The model returns its truthiness, which is how the host uses it.
- ServiceManager.ServiceManagerMiu.GetService and RemoveSystemServices take `settings.SUBSCRIBE_SEARCH` as the `searchEnabled` parameter. `init_plugin` takes `APP_VERSION` as the `appVersion` parameter.
- Job ids are the `JobId` enumeration, and `Key` gives the string id the source uses.
- Removal list: `_remove_system_services` builds `services_to_remove` in one function in the source. The model builds it in the helper method `ServicesToRemove`.
- Version test: `init_plugin` tests the version inline in the source. The model makes the test in the helper method `AboveMigrationVersion`.
- The leading `v`: the format description in the docstring shows a single `v` prefix. The code strips every leading `v` (`lstrip('v')`), and the model follows the code.
