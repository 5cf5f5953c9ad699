/**
 * The job orchestrators of `niceman run`: an orchestrator prepares a
 * directory on a resource, hands a rendered submission file to a
 * submitter, and collects the results afterwards.
 *
 * The resource session is an in-memory stand-in that keeps the directories
 * and files that exist on the resource and the ordered log of everything
 * the orchestrator asks of it. DataLad, git and the submitter's own work
 * are recorded in that log as abstract operations.
 */
module Orchestrators {
  import opened Wrappers
  import opened Strings
  import opened Paths

  datatype Error =
    | ValueError(msg: string)
    | KeyError(key: string)
    | TypeError(msg: string)
    | MissingExternalDependency(msg: string)
    | TemplateError(msg: string)

  /** A command for `execute_command`: a shell line or an argument vector. */
  datatype Command = Shell(line: string) | Argv(args: seq<string>)

  /** One effect on the resource, in the order the orchestrator causes it. */
  datatype Op =
    | Exec(cmd: Command)
    | Mkdir(path: string)                          // mkdir with parents=True
    | Put(remote: string, content: string)
    | Get(remote: string)
    | HandOff(submission: string)                  // submitter.submit
    | AwaitSubmission                              // submitter.follow
    | CreateSibling(url: string, name: string)     // ds.create_sibling
    | Publish(to: string, paths: seq<string>)      // ds.publish
    | Install(path: string, source: string)        // datalad install
    | GetContent(dataset: string, paths: seq<string>)
    | UpdateFrom(sibling: string)                  // ds.update with merge
    | FetchRefs(remote: string, refspec: string)   // ds.repo.fetch
    | RunRecord(command: string, outputs: seq<string>, inputs: Option<seq<string>>, jobid: string)

  /** The two concrete orchestrators. */
  datatype Kind = DataladPair | DataladRun

  function KindName(k: Kind): string
  {
    match k
    case DataladPair => "datalad-pair"
    case DataladRun => "datalad-run"
  }

  /** What the orchestrator reads from its resource. */
  datatype ResourceInfo = ResourceInfo(name: string, rtype: string, user: string, host: string)

  /** A submitter: its name and what `submit` returns for a submission file. */
  datatype Submitter = Submitter(name: string, submit: string -> Option<string>)

  /** The template engine: (template name, template subdirectory, variables) to text or an error. */
  type Renderer = (string, string, map<string, string>) -> Result<string, string>

  // ---------------------------------------------------------------------
  // Names and paths
  // ---------------------------------------------------------------------

  /** `"{}-{}".format(timestamp, str(uuid)[:4])`. */
  function JobId(timestamp: string, uuid: string): (id: string)
    ensures |id| == |timestamp| + 1 + (if |uuid| < 4 then |uuid| else 4)
    ensures StartsWith(id, timestamp) && id[|timestamp|] == '-'
    ensures id[|timestamp| + 1..] == uuid[..if |uuid| < 4 then |uuid| else 4]
  {
    timestamp + "-" + uuid[..if |uuid| < 4 then |uuid| else 4]
  }

  /** The uuid prefix is the last "-"-separated piece of the job id, whatever the timestamp holds. */
  lemma JobIdLastPiece(timestamp: string, uuid: string)
    requires |uuid| >= 4 && '-' !in uuid[..4]
    ensures Last(Split(JobId(timestamp, uuid), '-')) == uuid[..4]
  {
    LastPieceAfter(timestamp, '-', uuid[..4]);
  }

  /** `submission_type or "local"`: the registry key of the submitter. */
  function SubmitterKey(submissionType: Option<string>): (k: string)
    ensures submissionType.Some? && submissionType.value != "" ==> k == submissionType.value
    ensures submissionType.None? || submissionType.value == "" ==> k == "local"
  {
    if submissionType.Some? && submissionType.value != "" then submissionType.value else "local"
  }

  /** The command whose output is the remote working directory. */
  const PwdQuery := "printf '%s' $PWD"

  /** `job_spec.pop("root_directory", None)`: the value, if the key is present. */
  function RootOverride(spec: map<string, string>): (o: Option<string>)
    ensures o.Some? <==> "root_directory" in spec
    ensures o.Some? ==> o.value == spec["root_directory"]
  {
    if "root_directory" in spec then Some(spec["root_directory"]) else None
  }

  /** `not root_directory`: a missing or empty override falls back to the remote PWD. */
  predicate NeedsPwd(o: Option<string>)
  {
    o.None? || o.value == ""
  }

  /** The root used when none is given: `PWD/.niceman/datasets`. */
  function DefaultRoot(pwd: string): (r: string)
    ensures StartsWith(r, pwd) && (IsAbs(pwd) ==> IsAbs(r))
  {
    JoinStaysUnder(pwd, [".niceman", "datasets"]);
    JoinAll(pwd, [".niceman", "datasets"])
  }

  /** The uncached part of `root_directory`: the override, or the default under the remote PWD. */
  function ResolveRoot(o: Option<string>, pwd: string): (r: Result<string, Error>)
    ensures r.Success? ==> IsAbs(r.value)
    ensures !NeedsPwd(o) ==> (r.Success? <==> IsAbs(o.value))
    ensures !NeedsPwd(o) && r.Success? ==> r.value == o.value
    ensures !NeedsPwd(o) && r.Failure? ==>
              r.error == ValueError("Root directory is not an absolute path: " + o.value)
    ensures NeedsPwd(o) && pwd == "" ==> r == Failure(ValueError("Could not determine PWD on remote"))
    ensures NeedsPwd(o) && pwd != "" ==> (r.Success? <==> IsAbs(pwd))
    ensures NeedsPwd(o) && r.Success? ==> StartsWith(r.value, pwd)
  {
    if NeedsPwd(o) && pwd == "" then Failure(ValueError("Could not determine PWD on remote"))
    else
      var root := if NeedsPwd(o) then DefaultRoot(pwd) else o.value;
      assert NeedsPwd(o) ==> root[..|pwd|] == pwd && root[0] == pwd[0];
      if !IsAbs(root) then Failure(ValueError("Root directory is not an absolute path: " + root))
      else Success(root)
  }

  /**
   * With no override, or an empty one, and a PWD without trailing "/", the
   * root is PWD + "/.niceman/datasets".
   */
  lemma DefaultRootPlain(o: Option<string>, pwd: string)
    requires NeedsPwd(o) && IsAbs(pwd) && pwd[|pwd| - 1] != '/'
    ensures ResolveRoot(o, pwd) == Success(pwd + "/.niceman/datasets")
  {
    DefaultRootValue(pwd);
    assert ResolveRoot(o, pwd).value == DefaultRoot(pwd);
  }

  lemma DefaultRootValue(pwd: string)
    requires pwd != "" && pwd[|pwd| - 1] != '/'
    ensures DefaultRoot(pwd) == pwd + "/.niceman/datasets"
  {
    JoinTwo(pwd, ".niceman", "datasets");
  }

  /** The outcome of one `root_directory` access: result, new job_spec, new cache and the commands run. */
  datatype RootStep = RootStep(root: Result<string, Error>, spec: map<string, string>,
                               cache: Option<string>, ops: seq<Op>)

  /** `root_directory` as a transition of (job_spec, `_root_directory`), given the remote's PWD. */
  function ResolveStep(spec: map<string, string>, cache: Option<string>, pwd: string): (st: RootStep)
    ensures cache.Some? ==> st == RootStep(Success(cache.value), spec, cache, [])
    ensures cache.None? ==> st.spec == spec - {"root_directory"}
    ensures cache.None? ==> st.root == ResolveRoot(RootOverride(spec), pwd)
    ensures cache.None? ==> (st.cache.Some? <==> st.root.Success?)
    ensures st.cache.Some? ==> st.root == Success(st.cache.value)
    ensures cache.None? ==> st.ops == (if NeedsPwd(RootOverride(spec)) then [Exec(Shell(PwdQuery))] else [])
  {
    if cache.Some? then RootStep(Success(cache.value), spec, cache, [])
    else
      var o := RootOverride(spec);
      var r := ResolveRoot(o, pwd);
      RootStep(r, spec - {"root_directory"}, if r.Success? then Some(r.value) else None,
               if NeedsPwd(o) then [Exec(Shell(PwdQuery))] else [])
  }

  /** Once resolved, the root is cached: a later access returns it, runs nothing and leaves job_spec alone. */
  lemma RootMemoized(spec: map<string, string>, cache: Option<string>, pwd: string, pwd': string)
    requires ResolveStep(spec, cache, pwd).root.Success?
    ensures var st := ResolveStep(spec, cache, pwd);
            ResolveStep(st.spec, st.cache, pwd') == RootStep(st.root, st.spec, st.cache, [])
  {
  }

  /**
   * A rejected override is consumed all the same: the next access no longer
   * sees it and falls back to the remote PWD.
   */
  lemma RejectedOverrideIsGone(spec: map<string, string>, pwd: string, pwd': string)
    requires "root_directory" in spec && spec["root_directory"] != "" && !IsAbs(spec["root_directory"])
    ensures var st := ResolveStep(spec, None, pwd);
            st.root == Failure(ValueError("Root directory is not an absolute path: " + spec["root_directory"]))
            && st.cache == None && "root_directory" !in st.spec && st.ops == []
            && ResolveStep(st.spec, st.cache, pwd').ops == [Exec(Shell(PwdQuery))]
  {
    var st := ResolveStep(spec, None, pwd);
    assert RootOverride(st.spec) == None;
  }

  /** The DataLad `working_directory`: `_working_directory or op.join(root, ds.id)`. */
  function WorkingPath(override: Option<string>, root: string, dsId: string): (wd: string)
    ensures override.Some? && override.value != "" ==> wd == override.value
    ensures (override.None? || override.value == "") && !IsAbs(dsId) ==> StartsWith(wd, root)
  {
    if override.Some? && override.value != "" then override.value
    else
      assert !IsAbs(dsId) ==> StartsWith(JoinAll(root, [dsId]), root) by {
        if !IsAbs(dsId) {
          JoinStaysUnder(root, [dsId]);
        }
      }
      JoinAll(root, [dsId])
  }

  /** `meta_directory`: `working_directory/.niceman/jobs/<resource name>/<jobid>`. */
  function MetaPath(wd: string, name: string, jobid: string): (p: string)
    ensures !IsAbs(name) && !IsAbs(jobid) ==> StartsWith(p, wd) && (IsAbs(wd) ==> IsAbs(p))
  {
    var bs := [".niceman", "jobs", name, jobid];
    if !IsAbs(name) && !IsAbs(jobid) then JoinStaysUnder(wd, bs); JoinAll(wd, bs) else JoinAll(wd, bs)
  }

  /** With plain names, the metadata directory is the working directory plus four components. */
  lemma MetaPathPlain(wd: string, name: string, jobid: string)
    requires wd != "" && wd[|wd| - 1] != '/'
    requires name != "" && '/' !in name && jobid != "" && '/' !in jobid
    ensures MetaPath(wd, name, jobid) == wd + "/" + ".niceman" + "/" + "jobs" + "/" + name + "/" + jobid
  {
    var jobs := wd + "/" + ".niceman" + "/" + "jobs";
    assert [".niceman", "jobs", name, jobid] == [".niceman", "jobs"] + [name, jobid];
    JoinAllAppend(wd, [".niceman", "jobs"], [name, jobid]);
    JoinTwo(wd, ".niceman", "jobs");
    assert jobs[|jobs| - 1] == 's';
    assert name[0] in name && name[|name| - 1] in name && jobid[0] in jobid;
    JoinTwo(jobs, name, jobid);
  }

  /** Creating the metadata directory with parents creates the working directory too. */
  lemma WorkingIsAncestorOfMeta(wd: string, name: string, jobid: string)
    requires wd != "" && wd[|wd| - 1] != '/' && !IsAbs(name) && !IsAbs(jobid)
    ensures wd in Ancestors(MetaPath(wd, name, jobid))
  {
    var p := MetaPath(wd, name, jobid);
    var first := Join2(wd, ".niceman");
    assert first == wd + "/.niceman";
    JoinStaysUnder(first, ["jobs", name, jobid]);
    assert p[..|first|] == first;
    assert p[|wd|] == first[|wd|] == '/';
    assert p[..|wd|] == first[..|wd|] == wd;
  }

  /** The scp-like ssh url: `user@host:path`, without `user@` when there is no user. */
  function SshUrl(user: string, host: string, wd: string): string
  {
    (if user != "" then user + "@" else "") + host + ":" + wd
  }

  /** The index of the first c in s, or |s| when there is none. */
  function FirstIndex(s: string, c: char): (n: nat)
    ensures n <= |s| && (n < |s| ==> s[n] == c)
    ensures forall i :: 0 <= i < n ==> s[i] != c
  {
    if |s| == 0 || s[0] == c then 0 else 1 + FirstIndex(s[1..], c)
  }

  lemma {:induction false} FirstIndexAfter(a: string, c: char, b: string)
    requires c !in a
    ensures FirstIndex(a + [c] + b, c) == |a|
  {
    var s := a + [c] + b;
    assert forall i :: 0 <= i < |a| ==> s[i] == a[i];
    assert s[|a|] == c;
  }

  /** Reads an scp-like url back into (user, host, path); the user is "" when there is no "@". */
  function ParseSshUrl(url: string): (string, string, string)
  {
    var k := FirstIndex(url, ':');
    var hostPart := url[..k];
    var path := if k < |url| then url[k + 1..] else "";
    var a := FirstIndex(hostPart, '@');
    if a < |hostPart| then (hostPart[..a], hostPart[a + 1..], path) else ("", hostPart, path)
  }

  /** The ssh url carries exactly the user, the host and the working directory. */
  lemma SshUrlRoundTrip(user: string, host: string, wd: string)
    requires ':' !in user && '@' !in user && ':' !in host && '@' !in host
    ensures ParseSshUrl(SshUrl(user, host, wd)) == (user, host, wd)
  {
    var url := SshUrl(user, host, wd);
    var pre := if user != "" then user + "@" + host else host;
    assert url == pre + [':'] + wd;
    assert ':' !in pre;
    FirstIndexAfter(pre, ':', wd);
    assert url[..|pre|] == pre;
    if user != "" {
      assert pre == user + ['@'] + host;
      FirstIndexAfter(user, '@', host);
      assert pre[..|user|] == user && pre[|user| + 1..] == host;
    } else {
      assert FirstIndex(host, '@') == |host|;
    }
  }

  /** `template_name or "<orchestrator name>.template.sh"`. */
  function RunscriptTemplate(kind: Kind, templateName: Option<string>): (t: string)
    ensures templateName.Some? && templateName.value != "" ==> t == templateName.value
    ensures templateName.None? || templateName.value == "" ==> t == KindName(kind) + ".template.sh"
  {
    if templateName.Some? && templateName.value != "" then templateName.value
    else KindName(kind) + ".template.sh"
  }

  /** `template_name or "<submitter name>.template"`. */
  function SubmissionTemplate(submitterName: string, templateName: Option<string>): (t: string)
    ensures templateName.Some? && templateName.value != "" ==> t == templateName.value
    ensures templateName.None? || templateName.value == "" ==> t == submitterName + ".template"
  {
    if templateName.Some? && templateName.value != "" then templateName.value
    else submitterName + ".template"
  }

  /** The keywords passed to the template explicitly, besides those of job_spec. */
  const ReservedVars: set<string> := {"jobid", "root_directory", "remote_directory", "meta_directory"}

  /**
   * The variables of `template.render(jobid=..., root_directory=...,
   * remote_directory=..., meta_directory=..., **job_spec)`: a job_spec key
   * that repeats an explicit keyword is a TypeError.
   */
  function TemplateVars(jobid: string, root: string, wd: string, meta: string,
                        spec: map<string, string>): (r: Result<map<string, string>, Error>)
    ensures r.Failure? <==> exists k :: k in ReservedVars && k in spec
    ensures r.Failure? ==> r.error.TypeError?
    ensures r.Success? ==> r.value.Keys == spec.Keys + ReservedVars
    ensures r.Success? ==>
              r.value["jobid"] == jobid && r.value["root_directory"] == root
              && r.value["remote_directory"] == wd && r.value["meta_directory"] == meta
    ensures r.Success? ==> forall k :: k in spec ==> r.value[k] == spec[k]
  {
    if exists k :: k in ReservedVars && k in spec then
      Failure(TypeError("render() got multiple values for a keyword argument"))
    else
      Success(spec + map["jobid" := jobid, "root_directory" := root,
                         "remote_directory" := wd, "meta_directory" := meta])
  }

  /** The command that records the submission id next to the job's metadata. */
  function IdmapOps(id: Option<string>, meta: string): (ops: seq<Op>)
    ensures id.None? <==> ops == []
    ensures id.Some? ==> ops == [Exec(Shell("echo " + id.value + " >" + Join2(meta, "idmap")))]
  {
    if id.None? then [] else [Exec(Shell("echo " + id.value + " >" + Join2(meta, "idmap")))]
  }

  // ---------------------------------------------------------------------
  // Idempotent directory creation
  // ---------------------------------------------------------------------

  /** The directories after "mkdir -p p unless p exists". */
  function EnsureDir(dirs: set<string>, files: map<string, string>, p: string): (d: set<string>)
    ensures dirs <= d
    ensures p in d || p in files
    ensures p in dirs || p in files ==> d == dirs
  {
    if p in dirs || p in files then dirs else dirs + {p} + Ancestors(p)
  }

  /** The mkdir issued by "mkdir -p p unless p exists". */
  function EnsureDirOps(dirs: set<string>, files: map<string, string>, p: string): (ops: seq<Op>)
    ensures ops == [] <==> p in dirs || p in files
    ensures ops != [] ==> ops == [Mkdir(p)]
  {
    if p in dirs || p in files then [] else [Mkdir(p)]
  }

  /** Ensuring the same directories a second time creates nothing and issues no mkdir. */
  lemma EnsureDirsTwice(dirs: set<string>, files: map<string, string>, p: string, q: string)
    ensures var d := EnsureDir(EnsureDir(dirs, files, p), files, q);
            EnsureDir(EnsureDir(d, files, p), files, q) == d
            && EnsureDirOps(d, files, p) == [] && EnsureDirOps(EnsureDir(d, files, p), files, q) == []
  {
  }

  /**
   * The DataLad part of `prepare_remote`, between the root and the metadata
   * directory. The dataset is created on the resource only when the working
   * directory is missing, and before anything is sent or fetched.
   */
  function DataladPrepareOps(res: ResourceInfo, wd: string, wdExists: bool,
                             dsPath: string, inputs: seq<string>): (ops: seq<Op>)
    requires res.rtype == "ssh" || res.rtype == "shell"
    ensures res.rtype == "ssh" ==>
              && |ops| == (if wdExists then 1 else 2)
              && ops[|ops| - 1] == Publish(res.name, inputs)
              && (CreateSibling(SshUrl(res.user, res.host, wd), res.name) in ops <==> !wdExists)
              && (!wdExists ==> ops[0] == CreateSibling(SshUrl(res.user, res.host, wd), res.name))
    ensures res.rtype == "shell" ==>
              && |ops| == (if wdExists then 0 else 1) + (if |inputs| > 0 then 1 else 0)
              && (Install(wd, dsPath) in ops <==> !wdExists)
              && (GetContent(wd, inputs) in ops <==> |inputs| > 0)
              && (!wdExists ==> ops[0] == Install(wd, dsPath))
    ensures forall op :: op in ops ==> op.CreateSibling? || op.Publish? || op.Install? || op.GetContent?
  {
    if res.rtype == "ssh" then
      (if wdExists then [] else [CreateSibling(SshUrl(res.user, res.host, wd), res.name)])
      + [Publish(res.name, inputs)]
    else
      (if wdExists then [] else [Install(wd, dsPath)])
      + (if |inputs| > 0 then [GetContent(wd, inputs)] else [])
  }

  /** The refspec the run orchestrator fetches. */
  const RunRefspec := "refs/niceman/*:refs/niceman/*"

  /**
   * Where the run orchestrator expects the job's outputs: `root/outputs/<jobid>.tar.gz`,
   * which lies under the root (absolute with it) for a relative job id.
   */
  function TarballPath(root: string, jobid: string): (p: string)
    ensures !IsAbs(jobid) ==> StartsWith(p, root) && (IsAbs(root) ==> IsAbs(p))
  {
    var bs := ["outputs", jobid + ".tar.gz"];
    assert !IsAbs(jobid) ==> AllRelative(bs) by {
      assert (jobid + ".tar.gz")[0] == if jobid == "" then '.' else jobid[0];
    }
    if !IsAbs(jobid) then JoinStaysUnder(root, bs); JoinAll(root, bs) else JoinAll(root, bs)
  }

  /** `working_directory` as a transition: an override needs no root, otherwise the root is resolved first. */
  function WorkStep(override: Option<string>, spec: map<string, string>, cache: Option<string>,
                    pwd: string, dsId: string): (st: RootStep)
    ensures override.Some? && override.value != "" ==>
              st == RootStep(Success(override.value), spec, cache, [])
    ensures (override.None? || override.value == "") ==>
              var rs := ResolveStep(spec, cache, pwd);
              st.spec == rs.spec && st.cache == rs.cache && st.ops == rs.ops
              && (st.root.Success? <==> rs.root.Success?)
              && (rs.root.Failure? ==> st.root == rs.root)
              && (rs.root.Success? ==> st.root == Success(JoinAll(rs.root.value, [dsId])))
  {
    if override.Some? && override.value != "" then RootStep(Success(override.value), spec, cache, [])
    else
      var rs := ResolveStep(spec, cache, pwd);
      if rs.root.Failure? then rs else rs.(root := Success(WorkingPath(override, rs.root.value, dsId)))
  }

  /** Every directory's ancestors are directories too. */
  ghost predicate Closed(dirs: set<string>)
  {
    forall p :: p in dirs ==> Ancestors(p) <= dirs
  }

  lemma AncestorsNested(p: string, q: string)
    requires q in Ancestors(p)
    ensures Ancestors(q) <= Ancestors(p)
  {
    var i :| 0 < i < |p| && p[i] == '/' && q == p[..i];
    forall x | x in Ancestors(q) ensures x in Ancestors(p) {
      var j :| 0 < j < |q| && q[j] == '/' && x == q[..j];
      assert p[j] == '/' && x == p[..j];
    }
  }

  lemma EnsureDirClosed(dirs: set<string>, files: map<string, string>, p: string)
    requires Closed(dirs)
    ensures Closed(EnsureDir(dirs, files, p))
  {
    forall q | q in Ancestors(p) ensures Ancestors(q) <= Ancestors(p) {
      AncestorsNested(p, q);
    }
  }

  /**
   * `prepare_remote` is idempotent on the resource's directories: once the
   * root and the metadata directory have been ensured, the working directory
   * exists too, and ensuring both again creates nothing and issues no mkdir.
   */
  lemma PrepareAgainCreatesNothing(dirs: set<string>, files: map<string, string>, root: string,
                                   wd: string, name: string, jobid: string)
    requires Closed(dirs) && MetaPath(wd, name, jobid) !in files
    requires wd != "" && wd[|wd| - 1] != '/' && !IsAbs(name) && !IsAbs(jobid)
    ensures var meta := MetaPath(wd, name, jobid);
            var d := EnsureDir(EnsureDir(dirs, files, root), files, meta);
            Closed(d) && wd in d
            && EnsureDirOps(d, files, root) == [] && EnsureDirOps(d, files, meta) == []
            && EnsureDir(EnsureDir(d, files, root), files, meta) == d
  {
    var meta := MetaPath(wd, name, jobid);
    var d1 := EnsureDir(dirs, files, root);
    EnsureDirClosed(dirs, files, root);
    EnsureDirClosed(d1, files, meta);
    WorkingIsAncestorOfMeta(wd, name, jobid);
  }

  // ---------------------------------------------------------------------
  // The resource session
  // ---------------------------------------------------------------------

  class Session {
    /** The standard output the resource gives for a command. */
    const respond: Command -> string
    var dirs: set<string>
    var files: map<string, string>
    var log: seq<Op>

    constructor (respond: Command -> string, dirs: set<string>, files: map<string, string>)
      ensures this.respond == respond && this.dirs == dirs && this.files == files && log == []
    {
      this.respond := respond;
      this.dirs := dirs;
      this.files := files;
      log := [];
    }

    predicate Exists(path: string)
      reads this
    {
      path in dirs || path in files
    }

    method ExecuteCommand(cmd: Command) returns (out: string)
      modifies this
      ensures out == respond(cmd)
      ensures log == old(log) + [Exec(cmd)] && dirs == old(dirs) && files == old(files)
    {
      out := respond(cmd);
      log := log + [Exec(cmd)];
    }

    /** `mkdir(path, parents=True)`. */
    method MakeDirs(path: string)
      modifies this
      ensures dirs == old(dirs) + {path} + Ancestors(path)
      ensures log == old(log) + [Mkdir(path)] && files == old(files)
    {
      dirs := dirs + {path} + Ancestors(path);
      log := log + [Mkdir(path)];
    }

    /** "mkdir -p path unless it exists". */
    method EnsureDirectory(path: string)
      modifies this
      ensures dirs == EnsureDir(old(dirs), old(files), path)
      ensures log == old(log) + EnsureDirOps(old(dirs), old(files), path) && files == old(files)
    {
      if !Exists(path) {
        MakeDirs(path);
      }
    }

    method PutFile(remote: string, content: string)
      modifies this
      ensures files == old(files)[remote := content]
      ensures log == old(log) + [Put(remote, content)] && dirs == old(dirs)
    {
      files := files[remote := content];
      log := log + [Put(remote, content)];
    }

    method GetFile(remote: string)
      modifies this
      ensures log == old(log) + [Get(remote)] && dirs == old(dirs) && files == old(files)
    {
      log := log + [Get(remote)];
    }

    /** An effect of DataLad, git or the submitter, which touches no modelled state. */
    method Record(op: Op)
      modifies this
      ensures log == old(log) + [op] && dirs == old(dirs) && files == old(files)
    {
      log := log + [op];
    }
  }

  // ---------------------------------------------------------------------
  // The orchestrators
  // ---------------------------------------------------------------------

  /**
   * `DataladPairOrchestrator` and `DataladRunOrchestrator`, told apart by
   * `kind`; the run orchestrator differs in `prepare_remote` (it keeps the
   * inputs) and in `follow`.
   */
  class Orchestrator {
    const kind: Kind
    const resource: ResourceInfo
    const session: Session
    const submitter: Submitter
    const jobid: string
    const dsId: string                    // ds.id of the local dataset
    const dsPath: string                  // ds.path of the local dataset
    const renderer: Renderer
    var jobSpec: map<string, string>
    var workingOverride: Option<string>   // _working_directory
    var rootCache: Option<string>         // _root_directory
    var runInputs: Option<seq<string>>    // run_kwds["inputs"]

    /** A cached root is absolute, and its override has been consumed. */
    ghost predicate Valid()
      reads this
    {
      rootCache.Some? ==> IsAbs(rootCache.value) && "root_directory" !in jobSpec
    }

    /** What the resource prints for the PWD query. */
    function Pwd(): string
    {
      session.respond(Shell(PwdQuery))
    }

    constructor (kind: Kind, resource: ResourceInfo, session: Session, submitter: Submitter,
                 jobid: string, dsId: string, dsPath: string, renderer: Renderer,
                 jobSpec: map<string, string>)
      ensures this.kind == kind && this.resource == resource && this.session == session
      ensures this.submitter == submitter && this.jobid == jobid && this.dsId == dsId
      ensures this.dsPath == dsPath && this.renderer == renderer && this.jobSpec == jobSpec
      ensures workingOverride == None && rootCache == None && runInputs == None
      ensures Valid()
    {
      this.kind := kind;
      this.resource := resource;
      this.session := session;
      this.submitter := submitter;
      this.jobid := jobid;
      this.dsId := dsId;
      this.dsPath := dsPath;
      this.renderer := renderer;
      this.jobSpec := jobSpec;
      workingOverride := None;
      rootCache := None;
      runInputs := None;
    }

    /**
     * Construction of either orchestrator: DataLad must be available, the
     * submitter must be registered, and the local dataset must have an id.
     * A missing job_spec is the empty map.
     */
    static method New(kind: Kind, resource: ResourceInfo, session: Session,
                      submissionType: Option<string>, registry: map<string, Submitter>,
                      jobSpec: map<string, string>, dataladAvailable: bool,
                      dsId: string, dsPath: string, timestamp: string, uuid: string,
                      renderer: Renderer) returns (r: Result<Orchestrator, Error>)
      ensures !dataladAvailable ==>
                r == Failure(MissingExternalDependency("DataLad is required for orchestrator '"
                                                       + KindName(kind) + "'"))
      ensures dataladAvailable && SubmitterKey(submissionType) !in registry ==>
                r == Failure(KeyError(SubmitterKey(submissionType)))
      ensures dataladAvailable && SubmitterKey(submissionType) in registry && dsId == "" ==>
                r == Failure(ValueError("datalad-pair requires a local dataset"))
      ensures r.Success? <==> dataladAvailable && SubmitterKey(submissionType) in registry && dsId != ""
      ensures r.Success? ==>
                fresh(r.value) && r.value.Valid() && r.value.kind == kind
                && r.value.resource == resource && r.value.session == session
                && r.value.submitter == registry[SubmitterKey(submissionType)]
                && r.value.jobid == JobId(timestamp, uuid) && r.value.jobSpec == jobSpec
                && r.value.dsId == dsId && r.value.dsPath == dsPath && r.value.renderer == renderer
                && r.value.workingOverride == None && r.value.rootCache == None
                && r.value.runInputs == None
    {
      if !dataladAvailable {
        return Failure(MissingExternalDependency("DataLad is required for orchestrator '"
                                                 + KindName(kind) + "'"));
      }
      var key := SubmitterKey(submissionType);
      if key !in registry {
        return Failure(KeyError(key));
      }
      if dsId == "" {
        return Failure(ValueError("datalad-pair requires a local dataset"));
      }
      var o := new Orchestrator(kind, resource, session, registry[key], JobId(timestamp, uuid),
                                dsId, dsPath, renderer, jobSpec);
      r := Success(o);
    }

    /** `root_directory`: memoized; the first uncached access consumes the override. */
    method RootDirectory() returns (r: Result<string, Error>)
      requires Valid()
      modifies this, session
      ensures Valid()
      ensures old(rootCache).Some? ==>
                r == Success(old(rootCache).value) && jobSpec == old(jobSpec)
                && session.log == old(session.log)
      ensures var st := ResolveStep(old(jobSpec), old(rootCache), Pwd());
              r == st.root && jobSpec == st.spec && rootCache == st.cache
              && session.log == old(session.log) + st.ops
      ensures workingOverride == old(workingOverride) && runInputs == old(runInputs)
      ensures session.dirs == old(session.dirs) && session.files == old(session.files)
    {
      if rootCache.Some? {
        return Success(rootCache.value);
      }
      var o := RootOverride(jobSpec);
      jobSpec := jobSpec - {"root_directory"};
      var root: string;
      if NeedsPwd(o) {
        var pwd := session.ExecuteCommand(Shell(PwdQuery));
        if pwd == "" {
          return Failure(ValueError("Could not determine PWD on remote"));
        }
        root := DefaultRoot(pwd);
      } else {
        root := o.value;
      }
      if !IsAbs(root) {
        return Failure(ValueError("Root directory is not an absolute path: " + root));
      }
      rootCache := Some(root);
      r := Success(root);
    }

    /** `working_directory`: the override, or the dataset id under the root. */
    method WorkingDirectory() returns (r: Result<string, Error>)
      requires Valid()
      modifies this, session
      ensures Valid()
      ensures var st := WorkStep(workingOverride, old(jobSpec), old(rootCache), Pwd(), dsId);
              r == st.root && jobSpec == st.spec && rootCache == st.cache
              && session.log == old(session.log) + st.ops
      ensures workingOverride == old(workingOverride) && runInputs == old(runInputs)
      ensures session.dirs == old(session.dirs) && session.files == old(session.files)
    {
      if workingOverride.Some? && workingOverride.value != "" {
        return Success(workingOverride.value);
      }
      r := RootDirectory();
      if r.Success? {
        r := Success(WorkingPath(workingOverride, r.value, dsId));
      }
    }

    /** What `_render_template` produces once the root is known, given `_working_directory`. */
    function Rendered(root: string, override: Option<string>, spec: map<string, string>,
                      template: string, subdir: string): (r: Result<string, Error>)
      ensures r.Failure? ==> r.error.TypeError? || r.error.TemplateError?
      ensures (exists k :: k in ReservedVars && k in spec) ==> r.Failure? && r.error.TypeError?
      ensures var wd := WorkingPath(override, root, dsId);
              var v := TemplateVars(jobid, root, wd, MetaPath(wd, resource.name, jobid), spec);
              (v.Failure? ==> r == Failure(v.error))
              && (v.Success? ==> r == (if renderer(template, subdir, v.value).Failure?
                                       then Failure(TemplateError(renderer(template, subdir, v.value).error))
                                       else Success(renderer(template, subdir, v.value).value)))
    {
      var wd := WorkingPath(override, root, dsId);
      var vars := TemplateVars(jobid, root, wd, MetaPath(wd, resource.name, jobid), spec);
      if vars.Failure? then Failure(vars.error)
      else
        var out := renderer(template, subdir, vars.value);
        if out.Failure? then Failure(TemplateError(out.error)) else Success(out.value)
    }

    /** `_render_template`: the template variables need the root, which is resolved first. */
    method RenderTemplate(template: string, subdir: string) returns (r: Result<string, Error>)
      requires Valid()
      modifies this, session
      ensures Valid()
      ensures var st := ResolveStep(old(jobSpec), old(rootCache), Pwd());
              jobSpec == st.spec && rootCache == st.cache && session.log == old(session.log) + st.ops
              && (st.root.Failure? ==> r == Failure(st.root.error))
              && (st.root.Success? ==> r == Rendered(st.root.value, workingOverride, st.spec, template, subdir))
      ensures workingOverride == old(workingOverride) && runInputs == old(runInputs)
      ensures session.dirs == old(session.dirs) && session.files == old(session.files)
    {
      var root := RootDirectory();
      if root.Failure? {
        return Failure(root.error);
      }
      r := Rendered(root.value, workingOverride, jobSpec, template, subdir);
    }

    /** `render_runscript`: the given template, or the orchestrator's default one. */
    method RenderRunscript(templateName: Option<string>) returns (r: Result<string, Error>)
      requires Valid()
      modifies this, session
      ensures Valid()
      ensures var st := ResolveStep(old(jobSpec), old(rootCache), Pwd());
              jobSpec == st.spec && rootCache == st.cache && session.log == old(session.log) + st.ops
              && (st.root.Failure? ==> r == Failure(st.root.error))
              && (st.root.Success? ==>
                    r == Rendered(st.root.value, workingOverride, st.spec, RunscriptTemplate(kind, templateName), "runscript"))
      ensures workingOverride == old(workingOverride) && runInputs == old(runInputs)
      ensures session.dirs == old(session.dirs) && session.files == old(session.files)
    {
      r := RenderTemplate(RunscriptTemplate(kind, templateName), "runscript");
    }

    /** `render_submission`: the given template, or the submitter's default one. */
    method RenderSubmission(templateName: Option<string>) returns (r: Result<string, Error>)
      requires Valid()
      modifies this, session
      ensures Valid()
      ensures var st := ResolveStep(old(jobSpec), old(rootCache), Pwd());
              jobSpec == st.spec && rootCache == st.cache && session.log == old(session.log) + st.ops
              && (st.root.Failure? ==> r == Failure(st.root.error))
              && (st.root.Success? ==>
                    r == Rendered(st.root.value, workingOverride, st.spec, SubmissionTemplate(submitter.name, templateName),
                                  "submission"))
      ensures workingOverride == old(workingOverride) && runInputs == old(runInputs)
      ensures session.dirs == old(session.dirs) && session.files == old(session.files)
    {
      r := RenderTemplate(SubmissionTemplate(submitter.name, templateName), "submission");
    }

    /**
     * `prepare_remote` of both DataLad orchestrators: the root is created
     * when missing; then, by resource type, the dataset is made present at
     * the working directory; then the metadata directory is created when
     * missing. Other resource types are rejected after the root step.
     */
    method PrepareRemote(inputs: seq<string>) returns (r: Result<(), Error>)
      requires Valid()
      modifies this, session
      ensures Valid()
      ensures var st := ResolveStep(old(jobSpec), old(rootCache), Pwd());
              jobSpec == st.spec && rootCache == st.cache
      ensures var st := ResolveStep(old(jobSpec), old(rootCache), Pwd());
              st.root.Failure? ==>
                r == Failure(st.root.error) && session.log == old(session.log) + st.ops
                && session.dirs == old(session.dirs) && runInputs == old(runInputs)
      ensures var st := ResolveStep(old(jobSpec), old(rootCache), Pwd());
              st.root.Success? ==>
                var root := st.root.value;
                var files := old(session.files);
                var d1 := EnsureDir(old(session.dirs), files, root);
                var log1 := old(session.log) + st.ops + EnsureDirOps(old(session.dirs), files, root);
                var wd := WorkingPath(workingOverride, root, dsId);
                var meta := MetaPath(wd, resource.name, jobid);
                if resource.rtype == "ssh" || resource.rtype == "shell" then
                  r == Success(()) && session.dirs == EnsureDir(d1, files, meta)
                  && session.log == log1 + DataladPrepareOps(resource, wd, wd in d1 || wd in files, dsPath, inputs)
                                    + EnsureDirOps(d1, files, meta)
                  && runInputs == (if kind == DataladRun then Some(inputs) else old(runInputs))
                else
                  r == Failure(ValueError("Unsupported resource type " + resource.rtype))
                  && session.dirs == d1 && session.log == log1 && runInputs == old(runInputs)
      ensures rootCache.Some? ==> session.Exists(rootCache.value)
      ensures workingOverride == old(workingOverride) && session.files == old(session.files)
    {
      var rr := RootDirectory();
      if rr.Failure? {
        return Failure(rr.error);
      }
      r := PrepareUnderRoot(rr.value, inputs);
    }

    /** `prepare_remote` once the root is cached. */
    method PrepareUnderRoot(root: string, inputs: seq<string>) returns (r: Result<(), Error>)
      requires Valid() && rootCache == Some(root)
      modifies this, session
      ensures Valid() && jobSpec == old(jobSpec) && rootCache == old(rootCache)
      ensures var files := old(session.files);
              var d1 := EnsureDir(old(session.dirs), files, root);
              var log1 := old(session.log) + EnsureDirOps(old(session.dirs), files, root);
              var wd := WorkingPath(workingOverride, root, dsId);
              var meta := MetaPath(wd, resource.name, jobid);
              if resource.rtype == "ssh" || resource.rtype == "shell" then
                r == Success(()) && session.dirs == EnsureDir(d1, files, meta)
                && session.log == log1 + DataladPrepareOps(resource, wd, wd in d1 || wd in files, dsPath, inputs)
                                  + EnsureDirOps(d1, files, meta)
                && runInputs == (if kind == DataladRun then Some(inputs) else old(runInputs))
              else
                r == Failure(ValueError("Unsupported resource type " + resource.rtype))
                && session.dirs == d1 && session.log == log1 && runInputs == old(runInputs)
      ensures session.Exists(root)
      ensures workingOverride == old(workingOverride) && session.files == old(session.files)
    {
      session.EnsureDirectory(root);
      var wd := WorkingPath(workingOverride, root, dsId);
      var supported := MakeDatasetPresent(wd, inputs);
      if !supported {
        return Failure(ValueError("Unsupported resource type " + resource.rtype));
      }
      var meta := MetaPath(wd, resource.name, jobid);
      session.EnsureDirectory(meta);
      if kind == DataladRun {
        runInputs := Some(inputs);
      }
      r := Success(());
    }

    /** The resource-type dispatch of `prepare_remote`: false for an unsupported type. */
    method MakeDatasetPresent(wd: string, inputs: seq<string>) returns (supported: bool)
      modifies session
      ensures supported <==> resource.rtype == "ssh" || resource.rtype == "shell"
      ensures supported ==>
                session.log == old(session.log)
                               + DataladPrepareOps(resource, wd, old(session.Exists(wd)), dsPath, inputs)
      ensures !supported ==> session.log == old(session.log)
      ensures session.dirs == old(session.dirs) && session.files == old(session.files)
    {
      var wdExists := session.Exists(wd);
      if resource.rtype == "ssh" {
        var url := SshUrl(resource.user, resource.host, wd);
        if !wdExists {
          session.Record(CreateSibling(url, resource.name));
        }
        session.Record(Publish(resource.name, inputs));
      } else if resource.rtype == "shell" {
        if !wdExists {
          session.Record(Install(wd, dsPath));
        }
        if |inputs| > 0 {
          session.Record(GetContent(wd, inputs));
        }
      } else {
        return false;
      }
      supported := true;
    }

    /**
     * `submit`: put the run script, then the submission file, then hand the
     * submission file to the submitter; record the id only when one came back.
     */
    method Submit() returns (r: Result<(), Error>)
      requires Valid()
      modifies this, session
      ensures Valid()
      ensures var st := ResolveStep(old(jobSpec), old(rootCache), Pwd());
              jobSpec == st.spec && rootCache == st.cache
      ensures var st := ResolveStep(old(jobSpec), old(rootCache), Pwd());
              st.root.Failure? ==>
                r == Failure(st.root.error) && session.log == old(session.log) + st.ops
                && session.files == old(session.files)
      ensures var st := ResolveStep(old(jobSpec), old(rootCache), Pwd());
              st.root.Success? ==>
                var wd := WorkingPath(workingOverride, st.root.value, dsId);
                var meta := MetaPath(wd, resource.name, jobid);
                var script := Rendered(st.root.value, workingOverride, st.spec, RunscriptTemplate(kind, None), "runscript");
                var submission := Rendered(st.root.value, workingOverride, st.spec, SubmissionTemplate(submitter.name, None),
                                           "submission");
                var base := old(session.log) + st.ops;
                if script.Failure? then
                  r == Failure(script.error) && session.log == base && session.files == old(session.files)
                else if submission.Failure? then
                  r == Failure(submission.error)
                  && session.log == base + [Put(Join2(meta, "runscript"), script.value)]
                  && session.files == old(session.files)[Join2(meta, "runscript") := script.value]
                else
                  r == Success(())
                  && session.log == base + [Put(Join2(meta, "runscript"), script.value)]
                                    + [Put(Join2(meta, "submit"), submission.value), HandOff(Join2(meta, "submit"))]
                                    + IdmapOps(submitter.submit(Join2(meta, "submit")), meta)
                  && session.files == old(session.files)[Join2(meta, "runscript") := script.value]
                                                        [Join2(meta, "submit") := submission.value]
      ensures workingOverride == old(workingOverride) && runInputs == old(runInputs)
      ensures session.dirs == old(session.dirs)
    {
      var rr := RootDirectory();
      if rr.Failure? {
        return Failure(rr.error);
      }
      r := SubmitUnderRoot(rr.value);
    }

    /** `submit` once the root is cached. */
    method SubmitUnderRoot(root: string) returns (r: Result<(), Error>)
      requires Valid() && rootCache == Some(root)
      modifies this, session
      ensures Valid() && jobSpec == old(jobSpec) && rootCache == old(rootCache)
      ensures var wd := WorkingPath(workingOverride, root, dsId);
              var meta := MetaPath(wd, resource.name, jobid);
              var script := Rendered(root, workingOverride, jobSpec, RunscriptTemplate(kind, None), "runscript");
              var submission := Rendered(root, workingOverride, jobSpec, SubmissionTemplate(submitter.name, None), "submission");
              var base := old(session.log);
              if script.Failure? then
                r == Failure(script.error) && session.log == base && session.files == old(session.files)
              else if submission.Failure? then
                r == Failure(submission.error)
                && session.log == base + [Put(Join2(meta, "runscript"), script.value)]
                && session.files == old(session.files)[Join2(meta, "runscript") := script.value]
              else
                r == Success(())
                && session.log == base + [Put(Join2(meta, "runscript"), script.value)]
                                  + [Put(Join2(meta, "submit"), submission.value), HandOff(Join2(meta, "submit"))]
                                  + IdmapOps(submitter.submit(Join2(meta, "submit")), meta)
                && session.files == old(session.files)[Join2(meta, "runscript") := script.value]
                                                      [Join2(meta, "submit") := submission.value]
      ensures workingOverride == old(workingOverride) && runInputs == old(runInputs)
      ensures session.dirs == old(session.dirs)
    {
      var wd := WorkingPath(workingOverride, root, dsId);
      var meta := MetaPath(wd, resource.name, jobid);
      var script := RenderRunscript(None);
      if script.Failure? {
        return Failure(script.error);
      }
      session.PutFile(Join2(meta, "runscript"), script.value);
      ghost var put := session.log;
      assert put == old(session.log) + [Put(Join2(meta, "runscript"), script.value)];
      r := HandInSubmission(root, meta);
    }

    /** The second half of `submit`: the submission file is put, handed to the submitter, and its id recorded. */
    method HandInSubmission(root: string, meta: string) returns (r: Result<(), Error>)
      requires Valid() && rootCache == Some(root)
      modifies this, session
      ensures Valid() && jobSpec == old(jobSpec) && rootCache == old(rootCache)
      ensures var submission := Rendered(root, workingOverride, jobSpec, SubmissionTemplate(submitter.name, None), "submission");
              if submission.Failure? then
                r == Failure(submission.error) && session.log == old(session.log)
                && session.files == old(session.files)
              else
                r == Success(())
                && session.log == old(session.log) + [Put(Join2(meta, "submit"), submission.value),
                                                      HandOff(Join2(meta, "submit"))]
                                  + IdmapOps(submitter.submit(Join2(meta, "submit")), meta)
                && session.files == old(session.files)[Join2(meta, "submit") := submission.value]
      ensures workingOverride == old(workingOverride) && runInputs == old(runInputs)
      ensures session.dirs == old(session.dirs)
    {
      var submission := RenderSubmission(None);
      assert session.log == old(session.log) && jobSpec == old(jobSpec) && session.files == old(session.files);
      if submission.Failure? {
        return Failure(submission.error);
      }
      var submissionFile := Join2(meta, "submit");
      session.PutFile(submissionFile, submission.value);
      session.Record(HandOff(submissionFile));
      assert session.log == old(session.log) + [Put(submissionFile, submission.value), HandOff(submissionFile)];
      var id := submitter.submit(submissionFile);
      if id.Some? {
        var _ := session.ExecuteCommand(Shell("echo " + id.value + " >" + Join2(meta, "idmap")));
      }
      r := Success(());
    }

    /**
     * `DataladPairOrchestrator.follow`: wait for the submission, then bring
     * the results back by resource type.
     */
    method FollowPair(outputs: seq<string>) returns (r: Result<(), Error>)
      requires Valid() && kind == DataladPair
      modifies this, session
      ensures Valid()
      ensures resource.rtype == "ssh" ==>
                r == Success(()) && jobSpec == old(jobSpec) && rootCache == old(rootCache)
                && session.log == old(session.log) + [AwaitSubmission, UpdateFrom(resource.name)]
                                  + (if |outputs| > 0 then [GetContent(dsPath, outputs)] else [])
      ensures resource.rtype == "shell" ==>
                var st := WorkStep(workingOverride, old(jobSpec), old(rootCache), Pwd(), dsId);
                jobSpec == st.spec && rootCache == st.cache
                && (st.root.Failure? ==>
                      r == Failure(st.root.error) && session.log == old(session.log) + [AwaitSubmission] + st.ops)
                && (st.root.Success? ==>
                      r == Success(())
                      && session.log == old(session.log) + [AwaitSubmission] + st.ops
                                        + [Exec(Argv(["git", "fetch", st.root.value,
                                                      "refs/heads/master:refs/niceman/" + jobid])),
                                           Exec(Argv(["git", "merge", "FETCH_HEAD"]))])
      ensures resource.rtype != "ssh" && resource.rtype != "shell" ==>
                r == Success(()) && jobSpec == old(jobSpec) && rootCache == old(rootCache)
                && session.log == old(session.log) + [AwaitSubmission]
      ensures workingOverride == old(workingOverride) && runInputs == old(runInputs)
      ensures session.dirs == old(session.dirs) && session.files == old(session.files)
    {
      session.Record(AwaitSubmission);
      if resource.rtype == "ssh" {
        session.Record(UpdateFrom(resource.name));
        if |outputs| > 0 {
          session.Record(GetContent(dsPath, outputs));
        }
      } else if resource.rtype == "shell" {
        var wd := WorkingDirectory();
        if wd.Failure? {
          return Failure(wd.error);
        }
        var _ := session.ExecuteCommand(Argv(["git", "fetch", wd.value, "refs/heads/master:refs/niceman/" + jobid]));
        var _ := session.ExecuteCommand(Argv(["git", "merge", "FETCH_HEAD"]));
      }
      r := Success(());
    }

    /**
     * The end of `DataladRunOrchestrator.follow`, after the refs were
     * fetched: with the root known, a missing tarball ends the call quietly;
     * otherwise it is fetched and the run record is made from
     * job_spec["command_str"].
     */
    ghost predicate RunFinished(base: seq<Op>, root: Result<string, Error>, outputs: seq<string>,
                                r: Result<(), Error>)
      reads this, session
    {
      && (root.Failure? ==> r == Failure(root.error) && session.log == base)
      && (root.Success? ==>
            var tar := TarballPath(root.value, jobid);
            if !session.Exists(tar) then
              r == Success(()) && session.log == base
            else if "command_str" !in jobSpec then
              r == Failure(KeyError("command_str")) && session.log == base + [Get(tar)]
            else
              r == Success(())
              && session.log == base + [Get(tar), RunRecord(jobSpec["command_str"], outputs, runInputs, jobid)])
    }

    /** The final steps of `DataladRunOrchestrator.follow`. */
    method FinishRun(outputs: seq<string>) returns (r: Result<(), Error>)
      requires Valid()
      modifies this, session
      ensures Valid()
      ensures var st := ResolveStep(old(jobSpec), old(rootCache), Pwd());
              jobSpec == st.spec && rootCache == st.cache
              && RunFinished(old(session.log) + st.ops, st.root, outputs, r)
      ensures workingOverride == old(workingOverride) && runInputs == old(runInputs)
      ensures session.dirs == old(session.dirs) && session.files == old(session.files)
    {
      var root := RootDirectory();
      if root.Failure? {
        return Failure(root.error);
      }
      var tar := TarballPath(root.value, jobid);
      if !session.Exists(tar) {
        return Success(());
      }
      session.GetFile(tar);
      if "command_str" !in jobSpec {
        return Failure(KeyError("command_str"));
      }
      session.Record(RunRecord(jobSpec["command_str"], outputs, runInputs, jobid));
      r := Success(());
    }

    /**
     * `DataladRunOrchestrator.follow`: wait for the submission, fetch the
     * job's refs, then fetch the output tarball and make the run record.
     */
    method FollowRun(outputs: seq<string>) returns (r: Result<(), Error>)
      requires Valid() && kind == DataladRun
      modifies this, session
      ensures Valid()
      ensures resource.rtype == "ssh" ==>
                var st := ResolveStep(old(jobSpec), old(rootCache), Pwd());
                jobSpec == st.spec && rootCache == st.cache
                && RunFinished(old(session.log) + [AwaitSubmission, FetchRefs(resource.name, RunRefspec)] + st.ops,
                               st.root, outputs, r)
      ensures resource.rtype != "ssh" ==>
                var st1 := WorkStep(workingOverride, old(jobSpec), old(rootCache), Pwd(), dsId);
                (st1.root.Failure? ==>
                   r == Failure(st1.root.error) && jobSpec == st1.spec && rootCache == st1.cache
                   && session.log == old(session.log) + [AwaitSubmission] + st1.ops)
                && (st1.root.Success? ==>
                      var st2 := ResolveStep(st1.spec, st1.cache, Pwd());
                      jobSpec == st2.spec && rootCache == st2.cache
                      && RunFinished(old(session.log) + [AwaitSubmission] + st1.ops
                                     + [Exec(Argv(["git", "fetch", st1.root.value, RunRefspec]))] + st2.ops,
                                     st2.root, outputs, r))
      ensures workingOverride == old(workingOverride) && runInputs == old(runInputs)
      ensures session.dirs == old(session.dirs) && session.files == old(session.files)
    {
      session.Record(AwaitSubmission);
      r := FetchRunRefs();
      if r.Failure? {
        return;
      }
      ghost var fetched := session.log;
      assert resource.rtype == "ssh" ==>
               fetched == old(session.log) + [AwaitSubmission, FetchRefs(resource.name, RunRefspec)];
      r := FinishRun(outputs);
    }

    /** The fetch of `DataladRunOrchestrator.follow`: from the sibling over ssh, else from the working directory. */
    method FetchRunRefs() returns (r: Result<(), Error>)
      requires Valid()
      modifies this, session
      ensures Valid()
      ensures resource.rtype == "ssh" ==>
                r == Success(()) && jobSpec == old(jobSpec) && rootCache == old(rootCache)
                && session.log == old(session.log) + [FetchRefs(resource.name, RunRefspec)]
      ensures resource.rtype != "ssh" ==>
                var st := WorkStep(workingOverride, old(jobSpec), old(rootCache), Pwd(), dsId);
                jobSpec == st.spec && rootCache == st.cache
                && (st.root.Failure? ==> r == Failure(st.root.error) && session.log == old(session.log) + st.ops)
                && (st.root.Success? ==>
                      r == Success(())
                      && session.log == old(session.log) + st.ops
                                        + [Exec(Argv(["git", "fetch", st.root.value, RunRefspec]))])
      ensures workingOverride == old(workingOverride) && runInputs == old(runInputs)
      ensures session.dirs == old(session.dirs) && session.files == old(session.files)
    {
      if resource.rtype == "ssh" {
        session.Record(FetchRefs(resource.name, RunRefspec));
      } else {
        var wd := WorkingDirectory();
        if wd.Failure? {
          return Failure(wd.error);
        }
        var _ := session.ExecuteCommand(Argv(["git", "fetch", wd.value, RunRefspec]));
      }
      r := Success(());
    }
  }
}
