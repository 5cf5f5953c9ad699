# niceman core, modelled in Dafny

This project models three pieces of niceman:

- **The job orchestrators of `niceman run`** (`niceman/support/jobs/orchestrators.py`).
  - `DataladPairOrchestrator` and `DataladRunOrchestrator` are one class, `Orchestrators.Orchestrator`, told apart by a `Kind`.
  - Each orchestrator builds its job id and resolves the root directory, memoized and consuming the `root_directory` override of `job_spec`.
  - It derives the working and metadata directories.
  - `prepare_remote` creates directories only when they are missing, and dispatches on the resource type.
  - `submit` puts the run script and the submission file, hands the submission to the submitter, and writes the `idmap` only when an id comes back.
  - `follow` collects the results; the run variant ends quietly when the output tarball is missing.
- **File-to-package attribution** (`niceman/retrace/packagemanagers.py`).
  - `search_for_files` is the loop `PackageManagers.SearchForFiles`, over the two hooks `_get_package_for_file` and `_create_package`, passed in as functions.
  - The parsers of `dpkg-query -S` and `dpkg-query -W` output are modelled too, as is `identify_packages`.
- **Resource configuration** (`niceman/resource/base.py`).
  - The merge in `ResourceConfig.__init__`, and the dictionary-like accessors.
  - The module and class names that `Resource.factory` derives from a resource type.
  - `get_resource_list`.

Module layout, one file each:

- `Wrappers`: Option and Result.
- `Strings`: Python's `split`, `join`, `startswith` and the whitespace `split()`, and `capitalize` with ASCII-only case mapping.
- `Paths`: `os.path.join` and `isabs`. A join restarts at an absolute component.
- `Orchestrators`, `PackageManagers` and `ResourceBase`: the three pieces of niceman.

How the model stands in for what it does not run:

- **The resource session.** `Orchestrators.Session` is an in-memory session. It holds the directories and files that exist on the resource, and one ordered log of every effect the orchestrator asks for.
  - DataLad calls, git, and the submitter's `submit`/`follow` become entries of that log. They are not executed.
  - What the resource prints for a command comes from the function `respond`, which is fixed for the session.
- **Parameters.** Time, uuid, the DataLad availability probe and the template engine are all parameters.
- **Command output as data.** For `dpkg-query`, the caller supplies the output and exit status. For the configuration files, the caller supplies the parsed sections.
- **Exceptions** are `Failure` values of a `Result`.

Choices around the orchestrators:

- **Root resolved first.** `RootDirectory` resolves (and caches) the root before any other step of `Submit` and `PrepareRemote`.
  - In the source, the first access to `meta_directory`, `working_directory` or `root_directory` inside these methods does that resolution, and it is done before any file is put or directory made. So the logged effects are the same.
  - In `follow`, the point where resolution happens is modelled exactly (`WorkStep`, then `ResolveStep`).
- **Errors follow the code.** The code raises plain `ValueError` for a relative root and for an empty PWD, and the model follows the code.
- **ResourceConfig logging.** The accessors of `ResourceConfig` format a debug message that reads `_config['resource_config_id']` before doing anything else. After that key has been deleted, every get, set and delete raises `KeyError('resource_config_id')`. The model keeps this behaviour: see `ResourceBase.DeletedIdBlocksAccess`.

## Model

| member | source | states |
|---|---|---|
| `Orchestrators.JobId` | niceman/support/jobs/orchestrators.py:50-51 | the job id is the timestamp, "-", then the first four characters of the uuid string (fewer if it is shorter) |
| `Orchestrators.JobIdLastPiece` | niceman/support/jobs/orchestrators.py:50-51 | whatever dashes the timestamp holds, the uuid prefix is the last "-"-separated piece of the job id |
| `Orchestrators.SubmitterKey` | niceman/support/jobs/orchestrators.py:46 | a missing or empty submission type selects the "local" submitter; any other is its own key |
| `Orchestrators.Orchestrator.New` | niceman/support/jobs/orchestrators.py:220-231 | the orchestrator exists exactly when DataLad is available, the submitter key is registered and the dataset has an id; else MissingExternalDependency naming the orchestrator, KeyError of the key, or ValueError, in that order; the job id is fixed at construction and nothing is cached yet |
| `Orchestrators.RootOverride` | niceman/support/jobs/orchestrators.py:70 | the popped override is present exactly when job_spec has the key, with its value |
| `Orchestrators.ResolveRoot` | niceman/support/jobs/orchestrators.py:70-83 | a resolved root is always absolute; a non-empty override is returned verbatim exactly when absolute, else ValueError naming it; with no override an empty PWD is ValueError, otherwise the root lies under the PWD and succeeds exactly when the PWD is absolute |
| `Orchestrators.DefaultRoot` | niceman/support/jobs/orchestrators.py:75-78 | the default root lies under the PWD, and is absolute when the PWD is |
| `Orchestrators.DefaultRootPlain` | niceman/support/jobs/orchestrators.py:71-78 | with no override or an empty one, and an absolute PWD without trailing "/", the root is PWD + "/.niceman/datasets" |
| `Orchestrators.ResolveStep` | niceman/support/jobs/orchestrators.py:67-85 | a cached root is returned with nothing run and job_spec untouched; otherwise the override key is removed whatever happens, the PWD query is run only when the override is missing or empty, and the cache is set exactly on success |
| `Orchestrators.RootMemoized` | niceman/support/jobs/orchestrators.py:67-68 | after a successful resolution, the next access returns the same root, runs no command and leaves job_spec unchanged, whatever the PWD is then |
| `Orchestrators.RejectedOverrideIsGone` | niceman/support/jobs/orchestrators.py:70-83 | a relative override fails without setting the cache, yet is consumed: the next access queries the PWD instead |
| `Orchestrators.Orchestrator.RootDirectory` | niceman/support/jobs/orchestrators.py:57-85 | the property as a state change: result, new job_spec, cache and commands are those of the resolution step; a cached root returns at once; directories, files and the other fields are unchanged |
| `Orchestrators.WorkingPath` | niceman/support/jobs/orchestrators.py:236-237 | a non-empty `_working_directory` wins; otherwise the working directory lies under the root (for a relative dataset id) |
| `Orchestrators.WorkStep` | niceman/support/jobs/orchestrators.py:236-237 | with an override nothing is resolved or run; otherwise the root is resolved first and the result is root joined with the dataset id, failing exactly when the root fails |
| `Orchestrators.Orchestrator.WorkingDirectory` | niceman/support/jobs/orchestrators.py:233-237 | the property as a state change, as `WorkStep` describes |
| `Orchestrators.MetaPath` | niceman/support/jobs/orchestrators.py:97-98 | for a relative resource name and job id, meta_directory lies under the working directory, and is absolute when that is |
| `Orchestrators.MetaPathPlain` | niceman/support/jobs/orchestrators.py:97-98 | with plain names, meta_directory is working_directory + "/" + ".niceman" + "/" + "jobs" + "/" + resource name + "/" + job id |
| `Orchestrators.WorkingIsAncestorOfMeta` | niceman/support/jobs/orchestrators.py:292-293 | creating meta_directory with parents creates the working directory too |
| `Orchestrators.SshUrlRoundTrip` | niceman/support/jobs/orchestrators.py:261-264 | the ssh url `user@host:wd` (no `user@` for an empty user) reads back into exactly that user, host and working directory |
| `Orchestrators.RunscriptTemplate` | niceman/support/jobs/orchestrators.py:143-145 | a non-empty template name is used, else "<orchestrator name>.template.sh" |
| `Orchestrators.SubmissionTemplate` | niceman/support/jobs/orchestrators.py:162-164 | a non-empty template name is used, else "<submitter name>.template" |
| `Orchestrators.TemplateVars` | niceman/support/jobs/orchestrators.py:121-126 | the template sees jobid, root_directory, remote_directory and meta_directory plus every job_spec entry; a job_spec key repeating one of the four is a TypeError, and only then |
| `Orchestrators.Orchestrator.Rendered` | niceman/support/jobs/orchestrators.py:111-126 | the text is the renderer's output on the variables of `TemplateVars` (jobid, root, working and meta directory, plus job_spec); a job_spec key that repeats one of the four is the TypeError, and any other failure is the template engine's error |
| `Orchestrators.Orchestrator.RenderTemplate` | niceman/support/jobs/orchestrators.py:111-126 | the root is resolved first; its failure is the result, else the rendering of the variables |
| `Orchestrators.Orchestrator.RenderRunscript` | niceman/support/jobs/orchestrators.py:128-145 | renders the chosen or default run-script template from the "runscript" directory |
| `Orchestrators.Orchestrator.RenderSubmission` | niceman/support/jobs/orchestrators.py:147-164 | renders the chosen or default submission template from the "submission" directory |
| `Orchestrators.EnsureDir` | niceman/support/jobs/orchestrators.py:108-109 | the directories only grow, afterwards the path exists, and nothing changes when it existed |
| `Orchestrators.EnsureDirOps` | niceman/support/jobs/orchestrators.py:108-109 | exactly one `mkdir -p` of the path is issued when it does not exist, and nothing otherwise |
| `Orchestrators.Session.EnsureDirectory` | niceman/support/jobs/orchestrators.py:108-109 | "mkdir -p unless it exists" on the session: its directories and log as `EnsureDir` and `EnsureDirOps` say |
| `Orchestrators.EnsureDirsTwice` | niceman/support/jobs/orchestrators.py:108-109 | ensuring the root and the metadata directory a second time creates nothing and issues no mkdir |
| `Orchestrators.PrepareAgainCreatesNothing` | niceman/support/jobs/orchestrators.py:292-293 | once the root and the metadata directory have been ensured, the working directory exists too (the next preparation sees it present), and ensuring both again changes no directory and issues no mkdir |
| `Orchestrators.DataladPrepareOps` | niceman/support/jobs/orchestrators.py:260-286 | ssh: the sibling is created at the ssh url exactly when the working directory is missing, and first; the inputs are always published, last. shell: install exactly when missing, and first; get exactly when there are inputs. Nothing else is done |
| `Orchestrators.Orchestrator.MakeDatasetPresent` | niceman/support/jobs/orchestrators.py:260-291 | the type dispatch: supported exactly for "ssh" and "shell", logging the DataLad steps above; nothing otherwise |
| `Orchestrators.Orchestrator.PrepareUnderRoot` | niceman/support/jobs/orchestrators.py:240-293 | with the root known: root created only if missing, then the dataset steps, then meta created only if missing; an unsupported type is ValueError("Unsupported resource type ...") after the root step; the run orchestrator records its inputs |
| `Orchestrators.Orchestrator.PrepareRemote` | niceman/support/jobs/orchestrators.py:239-293 | `prepare_remote` of both orchestrators: the root is resolved first and its failure stops everything with nothing created; otherwise the steps of `PrepareUnderRoot`, and the root then exists |
| `Orchestrators.IdmapOps` | niceman/support/jobs/orchestrators.py:185-192 | the idmap command is issued exactly when the submitter returned an id, and writes that id to meta/idmap |
| `Orchestrators.Orchestrator.SubmitUnderRoot` | niceman/support/jobs/orchestrators.py:171-192 | effects in order: put meta/runscript, put meta/submit, hand meta/submit to the submitter, then the idmap command only for an id; a rendering failure stops before the put it would feed |
| `Orchestrators.Orchestrator.HandInSubmission` | niceman/support/jobs/orchestrators.py:178-192 | the second half of `submit`: a rendering failure of the submission template changes nothing; otherwise put meta/submit, hand it to the submitter, then the idmap command only for an id, and the file store holds the submission |
| `Orchestrators.Orchestrator.Submit` | niceman/support/jobs/orchestrators.py:166-192 | `submit`, with the root resolved before any file is put |
| `Orchestrators.Orchestrator.FollowPair` | niceman/support/jobs/orchestrators.py:296-310 | waits for the submission; ssh: update from the sibling and get the outputs if any; shell: git fetch of the working directory's master into refs/niceman/<jobid>, then merge; other types: nothing more |
| `Orchestrators.Orchestrator.FetchRunRefs` | niceman/support/jobs/orchestrators.py:335-342 | ssh: a fetch of refs/niceman/* from the sibling, nothing else; otherwise the working directory is resolved first (its failure ends the call) and then `git fetch <working directory> refs/niceman/*:refs/niceman/*` is run |
| `Orchestrators.Orchestrator.FinishRun` | niceman/support/jobs/orchestrators.py:344-363 | a missing `root/outputs/<jobid>.tar.gz` ends the call without get and without error; otherwise get it, then KeyError when job_spec lacks command_str, else the run record with the recorded inputs |
| `Orchestrators.Orchestrator.FollowRun` | niceman/support/jobs/orchestrators.py:332-343 | waits for the submission, fetches refs/niceman/* (from the sibling for ssh, from the working directory otherwise), then finishes as above |
| `Orchestrators.TarballPath` | niceman/support/jobs/orchestrators.py:345-346 | for a relative job id, the expected tarball root/outputs/<jobid>.tar.gz lies under the root, and is absolute when the root is |
| `PackageManagers.Search` | niceman/retrace/packagemanagers.py:50-75 | the fold of the loop over the files: on success the counter equals the number of packages found, and every unknown file is an input file |
| `PackageManagers.Assign` | niceman/retrace/packagemanagers.py:53-68 | one turn of the loop fails only when the file's package creation raises, with that error, and succeeds whenever it does not |
| `PackageManagers.AssignRaises` | niceman/retrace/packagemanagers.py:59-64 | once every found package was created, a turn fails exactly when creation raises (a known name is never created again), and every found package stays a created one |
| `PackageManagers.SearchSucceeds` | niceman/retrace/packagemanagers.py:52-75 | the fold of the loop over all files succeeds exactly when no file's package creation raises |
| `PackageManagers.SearchFailureSticks` | niceman/retrace/packagemanagers.py:52-64 | an exception on a prefix of the files is the outcome of the whole search: later files cannot change it |
| `PackageManagers.SearchFailsAtFirstRaise` | niceman/retrace/packagemanagers.py:52-64 | a failing search fails at a file whose creation raises with none raising before it, and carries that file's error |
| `PackageManagers.SearchAttributed` | niceman/retrace/packagemanagers.py:52-75 | a successful search attributes the files: keys, records, file lists, unknown files and counter as `SearchForFiles` states |
| `PackageManagers.SearchForFiles` | niceman/retrace/packagemanagers.py:29-75 | the loop computes exactly the fold `Search`; it fails exactly when some file's package creation raises, with the error of the first one; otherwise the keys are exactly the looked-up names whose creation succeeded, each package is its record with its files appended in input order (duplicates kept), the unknown files are exactly those without a created package (empty name or falsy record), and the counter equals the number of packages |
| `PackageManagers.ExactlyOnePlace` | niceman/retrace/packagemanagers.py:52-68 | with records created with empty file lists, each input file is unknown exactly when its package is absent, is in the file list of its own package, and in no other package's list |
| `PackageManagers.FilesForMembers` | niceman/retrace/packagemanagers.py:59-65 | a file is attributed to a package exactly when it is an input file that looks up to that name |
| `PackageManagers.BeforeSeparator` | niceman/retrace/packagemanagers.py:144 | `split(': ', 1)[0]`: a prefix of the text with no ": " inside it, followed by ": " unless it is the whole text |
| `PackageManagers.FindDpkgForFile` | niceman/retrace/packagemanagers.py:138-149 | "" when the tool is missing or the file is in no package, else the text before the first ": " (the ASCII decode is not modelled, see "## Left out") |
| `PackageManagers.NameBeforeSeparator` | niceman/retrace/packagemanagers.py:142-144 | a package name with an architecture suffix ("zlib1g:amd64") comes back whole |
| `PackageManagers.ParseInt` | niceman/retrace/packagemanagers.py:103 | `int()` of a field succeeds exactly on an optionally signed digit string, with its decimal value; anything else is ValueError |
| `PackageManagers.ParseIntOfNat` | niceman/retrace/packagemanagers.py:103 | the size printed by dpkg-query is read back as the number printed |
| `PackageManagers.ParseShowFormat` | niceman/retrace/packagemanagers.py:99-104 | no output gives no version and no size; otherwise the first line's fields decide: IndexError with fewer than two, ValueError of the second when it is no integer, else the first as version and 1024 times the second as size |
| `PackageManagers.CreateDpkgPackage` | niceman/retrace/packagemanagers.py:91-117 | a parse error raises whatever the exit status; otherwise a record exactly when the status is 0, with the first field as version, the second times 1024 as size and an empty file list; no output gives no version and no size |
| `PackageManagers.RecordFirstLine` | niceman/retrace/packagemanagers.py:100-104 | only the first line of the output is parsed |
| `PackageManagers.RecordLineFields` | niceman/retrace/packagemanagers.py:101-103 | a "version\tsize\n" line splits into exactly the version and the size |
| `PackageManagers.CreateDpkgPackageRoundTrip` | niceman/retrace/packagemanagers.py:99-115 | output printed in the requested format is read back into the package record with the printed version and 1024 times the printed size |
| `PackageManagers.ListOf` | niceman/retrace/packagemanagers.py:159 | `list()` of a set holds each element once and nothing else |
| `PackageManagers.IdentifyPackages` | niceman/retrace/packagemanagers.py:152-159 | the DPKG attribution of the files, with the unknown files returned as a duplicate-free list of exactly the unknown set; on failure, the creation error of the first file whose package creation raises, as the exception propagates (lookup decode errors are left out) |
| `ResourceBase.ChosenPath` | niceman/resource/base.py:41-42 | a truthy path argument wins; otherwise the config's config_path entry when it has one |
| `ResourceBase.ConfigFiles` | niceman/resource/base.py:44-47 | only a truthy path makes the manager read that one file; otherwise the default locations |
| `ResourceBase.FindSection` | niceman/resource/base.py:53 | a section's items are found exactly when a section has that name, and are that section's items |
| `ResourceBase.FoundSectionIsTheSection` | niceman/resource/base.py:53 | with the distinct section names every `Loader` yields, the items found by a section's name are that section's own |
| `ResourceBase.Merge` | niceman/resource/base.py:53-61 | the keys are the section's, the config's and the two recorded ones; a config value overrides the section's; resource_config_id and config_path are forced to the constructor's values |
| `ResourceBase.InitialConfig` | niceman/resource/base.py:41-61 | exactly one section raises MissingConfigFileError before any lookup; a missing section raises NoSectionError; otherwise the merge of the section with the config |
| `ResourceBase.InitialConfigAccessible` | niceman/resource/base.py:53-74 | a fresh configuration returns its identifier, and every other passed entry (all but resource_config_id and config_path, which the merge forces), through item access |
| `ResourceBase.ResourceConfig.New` | niceman/resource/base.py:24-61 | the constructor, updating the section's items in place, ends with the map or error `InitialConfig` gives |
| `ResourceBase.GetItem` | niceman/resource/base.py:71-74 | returns the stored value exactly when the key and resource_config_id are present; KeyError for resource_config_id first, then for the key |
| `ResourceBase.SetItem` | niceman/resource/base.py:76-79 | stores the value and keeps every other entry; KeyError exactly when resource_config_id is absent |
| `ResourceBase.DelItem` | niceman/resource/base.py:81-85 | removes exactly that key and keeps every other entry; KeyError for resource_config_id first, then for the key |
| `ResourceBase.SetThenGet` | niceman/resource/base.py:71-79 | set-then-get returns the value, the key is then contained, and other keys answer as before |
| `ResourceBase.DelOnlyThatKey` | niceman/resource/base.py:81-88 | after a delete the key is gone and raises KeyError on get; every other key answers as before |
| `ResourceBase.LenAfterUpdate` | niceman/resource/base.py:68-85 | the length grows by one exactly when a set adds a new key, and a delete removes one |
| `ResourceBase.DeletedIdBlocksAccess` | niceman/resource/base.py:71-88 | once resource_config_id is deleted, get, set and delete all raise KeyError for it, while membership still answers |
| `ResourceBase.ResourceConfig.Len` | niceman/resource/base.py:68-69 | `__len__` needs no resource_config_id, and is zero exactly when no key is contained |
| `ResourceBase.ResourceConfig.Get` | niceman/resource/base.py:71-74 | `__getitem__` returns the stored value exactly when the key and resource_config_id are present; KeyError for resource_config_id first, then for the key |
| `ResourceBase.ResourceConfig.Contains` | niceman/resource/base.py:87-88 | `__contains__` answers without resource_config_id; a contained key is readable exactly while resource_config_id is, and a missing key never is |
| `ResourceBase.ResourceConfig.Set` | niceman/resource/base.py:76-79 | `__setitem__` in place; afterwards get returns the value and the key is contained |
| `ResourceBase.ResourceConfig.Delete` | niceman/resource/base.py:81-85 | `__delitem__` in place; afterwards the key is gone and the length is one less |
| `ResourceBase.Resource.GetConfig` | niceman/resource/base.py:166-179 | `get_config` goes through `__getitem__`: the stored value exactly when the key and resource_config_id are present, else KeyError, for resource_config_id first |
| `ResourceBase.Resource.HasConfig` | niceman/resource/base.py:194-207 | `has_config` goes through `__contains__`: it answers whether the key is stored even without resource_config_id, and a stored key is readable exactly while resource_config_id is |
| `ResourceBase.Resource.SetConfig` | niceman/resource/base.py:181-192 | set_config updates the shared configuration; afterwards get_config returns the value and has_config holds |
| `ResourceBase.FactoryNames` | niceman/resource/base.py:128-133 | MissingConfigError without resource_type; otherwise the module name and class name of the type (KeyError or AttributeError from the accessor and a None type) |
| `ResourceBase.ModuleNameSubstitutes` | niceman/resource/base.py:132 | the module name is the type with every "-" replaced by "_" |
| `ResourceBase.ClassNameDropsHyphens` | niceman/resource/base.py:133 | up to letter case, the class name is the type with its hyphens dropped, and it is exactly that long |
| `ResourceBase.ClassNameCamelCase` | niceman/resource/base.py:133 | the class name equals the independent character scan `CamelCase`: every "-" dropped, the first character and each one after a "-" upper-cased, every other character lower-cased |
| `ResourceBase.ResourceId` | niceman/resource/base.py:161 | the id, the last space-separated piece of the section name, holds no space |
| `ResourceBase.ResourceIdOf` | niceman/resource/base.py:160-161 | "resource <id>" is a resource section, and its key is <id> when the id holds no space |
| `ResourceBase.GetResourceList` | niceman/resource/base.py:138-164 | the loop over the sections builds exactly the reference listing `ResourcesOf` |
| `ResourceBase.ResourcesKeys` | niceman/resource/base.py:159-162 | the keys are exactly the last space-separated tokens of the sections named "resource ..." |
| `ResourceBase.ResourcesLastWins` | niceman/resource/base.py:159-163 | a key holds the entry of the last section with that key: later sections overwrite earlier ones |
| `ResourceBase.ResourcesRecordTheirId` | niceman/resource/base.py:163 | every listed entry has resource_id set to its own key |

## Left out

- Jinja2 rendering is a function parameter of the orchestrator. Its StrictUndefined behaviour, template loading and `shlex_quote` are not modelled.
- `Orchestrators.Orchestrator.Rendered`, `Orchestrators.Orchestrator.RenderTemplate`, `Orchestrators.Orchestrator.RenderRunscript`, `Orchestrators.Orchestrator.RenderSubmission`: a template that cannot be loaded is an error of the rendering, after the root has been resolved. In the source, `_render_template` calls `get_template` before it reads `root_directory`. So on a direct call with a missing template and an uncached root, the source raises the template error, leaves the `root_directory` override in `job_spec` and runs no PWD query. The model pops the override, queries the PWD and caches the root, and with a relative override it returns the ValueError instead of the template error. Within `submit` the effects differ only when `_working_directory` is set, since otherwise `meta_directory` has already resolved the root. Likewise, a job_spec key that repeats one of the four explicit keywords is reported as the TypeError even when the template cannot be loaded, where the source raises the template error.
- `Orchestrators.TemplateVars`: the duplicate-keyword TypeError does not name the repeated key, because Python's message depends on dict order.
- The local temporary files of `submit` (NamedTemporaryFile, chmod, unlink) are not modelled: a put records the rendered text directly.
- DataLad, git and tar effects are not modelled beyond their log entries. This covers create_sibling, publish, install, get, update, repo.fetch, run_command and the tarball extraction. They do not change the session's directories (an install does not make the working directory exist in the model).
- The submitter's own commands are not modelled. Its `submit` is a function from the submission file to an optional id, and its `follow` is one log entry.
- The `external_versions` probe, `time.strftime` and `uuid4` are parameters of `Orchestrator.New`.
- `submission_id` is not modelled: it is set to None and never assigned by the code.
- The message for an ssh port, and all logging, are left out.
- `job_spec` values are strings only. A missing `job_spec` is the empty map. The sharing of a caller's dict with the orchestrator is not modelled.
- `Orchestrators.Orchestrator.FollowPair` and `Orchestrators.Orchestrator.FollowRun` each require their own kind: they stand for the `follow` method of each class.
- `execute_command`'s standard error is not modelled, nor are commands that fail.
- Running `dpkg-query` and timing `identify_packages` are not modelled. The tool's output and exit status are inputs, and its output is text, not undecoded bytes.
- `PackageManagers.FindDpkgForFile`: the ASCII decode of the `dpkg-query -S` output is not modelled, so a lookup never raises. In the source, a non-ASCII byte in that output (a file such as `/usr/share/doc/café`) raises the decode error, a ValueError that neither `except` clause catches, and it ends `search_for_files` and `identify_packages`. So `DpkgLookup`, `PackageManagers.IdentifyPackages` and the `Search` lemmas hold of the source only for ASCII output: the failure conditions they state cover creation errors only.
- `PackageManagers.SearchForFiles`: `_create_package` is a fixed function, so trying again to create a name that gave a falsy record gives the same answer; the repeated subprocess call is not observable in the model.
- `PackageManagers.ParseInt`: digit-group underscores ("1_000"), which Python's `int()` accepts, are rejected. Non-ASCII digits never reach `int()` in the source, since each field is first decoded as ASCII and that decode raises a ValueError; the model rejects them too.
- `PackageManagers.ParseShowFormat`: the ASCII decode of the version field is not modelled. A version with a non-ASCII character is returned as is, where the source raises the decode error, which is a ValueError.
- ConfigManager's file parsing, DEFAULT-section items and interpolation are left out. A configuration is its list of sections. The `Loader` type admits only lists with distinct section names, as ConfigParser keeps its sections in a dictionary.
- `ResourceBase.ClassName`: `Capitalize` maps case on ASCII letters only. Python's `str.capitalize` also title-cases other letters ("éa" becomes "Éa") and can change the length ("ßa" becomes "Ssa"). So `ClassName`, `FactoryNames`, `ClassNameDropsHyphens` and `ClassNameCamelCase` agree with the source only for ASCII resource types.
- The `import_module`/`getattr` instantiation in `Resource.factory` is left out; the model ends at the module and class names.
- In `get_resource_list`, writing `resource_id` into the ConfigManager's own section dicts (aliasing) is not modelled.
- `__repr__` of both classes is left out.
- Configuration values are strings or None only.
