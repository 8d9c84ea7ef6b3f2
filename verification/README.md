# trident-ci executor core, modelled in Dafny

trident-ci is a CI service. It takes pipelines from a queue and runs their steps in order. The steps are an SCM checkout (git clone), a shell script inside a Docker container, a Docker image build and push, and a Lua script. Steps share one key/value environment. A step can read it, extend it and use it to mark the pipeline failed or finished. The model covers:

- the pipeline processor;
- the four step executors and their helpers: the git cloner, the Docker build context, the Lua bridge module and interpreter pool;
- `${NAME}` placeholder rendering and the status keys in the environment;
- the line-splitting log sink;
- the in-memory bounded queue.

Each Go file becomes one module with pure functions over immutable datatypes:

| file | module |
|---|---|
| `processor/processor.go` | `Processor` |
| `processor/define/define.go` | `Define` |
| `processor/logger/logger.go` | `Logger` |
| `processor/utils/env.go` | `EnvUtils` |
| `queue/channel.go` | `ChannelQueue` |
| `processor/shell/shell.go` | `Shell` |
| `processor/scm/scm.go` | `Scm` |
| `processor/scm/git.go` | `Git` |
| `processor/build_context/build_context.go` | `BuildContext` |
| `processor/docker_build/docker_build.go` | `DockerBuild` |
| `processor/lua/loader.go` | `LuaLoader` |
| `processor/lua/pool.go` | `LuaPool` |
| `processor/lua/lua.go` | `Lua` |

`Runners` joins the four executors into the processor's executor. The table of executors comes from `cmd/main/main.go`, and its SCM executor is the runner as written (`Scm.RunAsWritten`). A second executor, `Runners.IntendedExecutor`, uses the corrected SCM runner (`Scm.Run`) so that the two can be compared. The support modules are:

- `Wrappers`: `Option` and `Result`.
- `Errors`: an error is a message plus a flag that says it wraps the context's cancellation. `Wrap` is `pkg/errors.Wrap`, so wrapping nil gives nil.
- `Text`: decimal `%d` formatting.
- `Api`: the pipeline protocol types, rebuilt from how the core uses them.

### How the outside world is represented

Everything outside the process is a parameter that supplies its answers:

- A step executor receives a "world" value. It holds the outcome of each outside call: the file write, the image listing, the pull, the container creation, start and wait, the tar stream, the build, the push, the SSH key parse and the clone.
- A step executor returns the step's result and the trace of calls it made: the container it created, whether that container was removed, what was built and pushed.
- The processor takes an abstract executor, `(index, flow, env) -> (env', result)`. The result is either "returned this error (or nil)" or "panicked".
- The Lua interpreter is a function from script text to the bridge calls the script makes and the error it ends with.
- The temporary directory, new interpreters and the file system are a `Disk` map plus fault maps. Go map iteration order is also a parameter.

### Where the code and its description differ (the code is followed)

- `Processor.Run` asks for a retry only when the payload is not a pipeline. It drops a pipeline with an empty uid without retrying (processor.go:143-157).
- `ChannelQueue.Close` is not idempotent. Go panics when a channel is closed twice, so the model requires an open queue. `ChannelQueue.Push` requires one too: in Go a send on a closed channel panics, and the `select`'s `default` branch does not catch that (queue/channel.go:46-50).
- The log sink does not prepend the buffered fragment to the next line. The fragment is never logged: it stays buffered until a later write that logs from its scan loop clears it (see Findings).

### Observations that are not defects

- The Docker build context is created in the job's workspace directory, and its `Close` runs `RemoveAll` on that directory. So a Docker build step removes the workspace, including the sources an earlier SCM step checked out. `DockerBuild.ContextClosed` states this.
- A clone error reaches the SCM step wrapped twice with the same prefix: `Git.Clone` wraps it as "代码拉取失败", and `Runner.Run` wraps it again (`Scm.CloneErrorWrapped`).

## Model

| member | source | states |
|---|---|---|
| Define.AppendEnv | processor/define/define.go:47-59 | the result holds the keys of both maps; overlay values win; other values are kept; an empty overlay changes nothing |
| Define.Fail | processor/define/define.go:81-84 | afterwards the pipeline reads as failed and not succeeded, the fail reason is the given one, and only the two status keys change |
| Define.StatusSignals | processor/define/define.go:61-79 | failed and succeeded never hold together; without the status key neither holds; without the reason key the reason is empty |
| Define.PipelineFailed | processor/define/define.go:61-67 | the pipeline reads as failed only when the status key is present with a value other than the success value, and never without the key |
| Define.PipelineSucceed | processor/define/define.go:69-75 | the pipeline reads as succeeded only when the status key is present and it does not read as failed |
| Define.GetFailReason | processor/define/define.go:77-79 | without the reason key the reason is empty; a non-empty reason is one of the environment's values, stored under the reason key |
| Define.NameRun | processor/define/define.go:36-38 | the maximal run of name characters from a position, in bounds |
| Define.PlaceholderLength | processor/define/define.go:36-38 | a match at the start has length at least 4 and is `${` + a valid name + `}` |
| Define.PlaceholderRecognised | processor/define/define.go:36-38 | every `${name}` with a valid name (letter first, then at most 50 of `_a-zA-Z0-9`) is matched at exactly its length |
| Define.NameRunExact | processor/define/define.go:36-38 | a run of k name characters followed by a non-name character has length k |
| Define.ArgNameByPattern | processor/define/define.go:40-45 | a pattern of length at most 3 yields ""; otherwise the name is what lies between the first two characters and the last |
| Define.ArgNameOfPlaceholder | processor/define/define.go:40-45 | the name of `${name}` is `name` |
| Define.RenderKnownName | processor/define/define.go:86-108 | a known placeholder at the head is replaced by its value and rendering continues after it |
| Define.RenderUnknownName | processor/define/define.go:98-104 | an unknown placeholder is kept verbatim |
| Define.RenderWithoutMatch | processor/define/define.go:86-108 | text with no match anywhere renders to itself |
| Define.NoMatchWithoutDollar | processor/define/define.go:36-38 | no match starts at a character other than `$` |
| Define.RenderMalformed | processor/define/define.go:36-38 | a malformed placeholder with no later `$` is copied unchanged |
| Define.RenderMalformedExamples | processor/define/define.go:36-38 | `${}`, `${1abc}` and `${_x}` are left as they are |
| Define.RenderOverlongName | processor/define/define.go:36-38 | a name with 52 characters is not a placeholder and is kept |
| Define.RenderKnownExample | processor/define/define.go:86-108 | `${FOO}` with FOO=bar renders to `bar` |
| Define.RenderNoRescanExample | processor/define/define.go:86-108 | a substituted value is not rendered again |
| Define.RenderByEnv | processor/define/define.go:86-108 | rendering with an empty environment gives the input back unchanged |
| Define.RenderOnePlaceholder | processor/define/define.go:86-108 | a template that is exactly one known placeholder renders to that name's value |
| Define.Segments | processor/define/define.go:86-108 | the decomposition of a template into literal characters and placeholder matches, where every match is a placeholder |
| Define.SegmentsJoin | processor/define/define.go:86-108 | joining the segments gives back the template |
| Define.RenderIsExpand | processor/define/define.go:86-108 | rendering equals the independent segment-wise expansion: literals are copied, known names are replaced, unknown ones are kept |
| Logger.IndexByte | processor/logger/logger.go:32-39 | the first position of the byte, or absence exactly when the byte does not occur |
| Logger.DropCR | processor/logger/logger.go:50-55 | exactly one trailing CR is removed, and only a trailing one |
| Logger.ScanLines | processor/logger/logger.go:28-46 | the split function: up to the first LF, else up to the first CR, with the CR dropped; the rest at EOF; otherwise ask for more data |
| Logger.ScanStep | processor/logger/logger.go:28-46 | at EOF on non-empty data a token is always produced and progress is made |
| Logger.ScanStepIsEOFSplit | processor/logger/logger.go:28-46 | the scanning step is the EOF split |
| Logger.Tokens | processor/logger/logger.go:68-81 | the scanner yields no tokens exactly on empty input |
| Logger.TokensAreLines | processor/logger/logger.go:28-46 | no token contains an LF |
| Logger.TokensKeepText | processor/logger/logger.go:28-46 | the tokens together keep every non-terminator byte of the input, in order |
| Logger.ScanLoop | processor/logger/logger.go:73-81 | the loop logs the non-empty tokens except the last one, keeps the last as the pending line, and clears the buffered fragment once it has logged something |
| Logger.Write | processor/logger/logger.go:57-92 | Write as written: reports the full length consumed; its records and its new fragment are given by the token decomposition, and they depend on the write alone |
| Logger.WriteRecordsAreLines | processor/logger/logger.go:57-92 | every emitted record is non-empty and has no LF |
| Logger.WriteIntended | processor/logger/logger.go:57-92 | the corrected write: an empty write does nothing, and a write that ends a line leaves no fragment |
| Logger.WriteIntendedKeepsText | processor/logger/logger.go:57-92 | the corrected write loses no non-terminator byte: records plus the fragment equal the old fragment plus the write |
| Logger.FeedIntendedKeepsText | processor/logger/logger.go:57-92 | over any sequence of writes, the corrected sink's records plus its fragment keep all text |
| Logger.FeedAsWrittenLosesFragment | processor/logger/logger.go:75-89 | writing "ab" then "c\n" as written logs only "c" and leaves "ab" buffered, out of order with the text; the corrected sink logs "abc"; a later write "x\ny\n" logs "x" and "y" and clears the buffer, so "ab" is never logged |
| Logger.FeedAsWrittenAppend | processor/logger/logger.go:58-91 | feeding writes in two batches gives the state and records of feeding them all in order |
| EnvUtils.ConvertEnvMp2StrSlice | processor/utils/env.go:5-10 | one `key=value` entry per map key, and exactly those entries as a multiset |
| EnvUtils.EntriesSize | processor/utils/env.go:5-10 | there are as many entries as keys |
| EnvUtils.EntriesMembers | processor/utils/env.go:5-10 | a string is an entry exactly when it is `k=env[k]` for some key |
| ChannelQueue.NewChannelQueue | queue/channel.go:33-35 | an empty open queue of the given capacity |
| ChannelQueue.Push | queue/channel.go:37-53 | on an open queue, enqueues at the back exactly when there is room; otherwise the queue is unchanged and the error is "queue full" |
| ChannelQueue.Pop | queue/channel.go:55-70 | takes the front message; on a closed empty queue returns the zero value and "closed" |
| ChannelQueue.Close | queue/channel.go:72-76 | marks the queue closed and keeps its buffered messages |
| ChannelQueue.PushAllFifo | queue/channel.go:37-53 | pushes within capacity append the messages in order |
| ChannelQueue.PopNTakesPrefix | queue/channel.go:55-70 | n pops return the first n messages and leave the rest |
| ChannelQueue.FifoRoundTrip | queue/channel.go:33-70 | what is pushed into a new queue is popped out in the same order |
| ChannelQueue.DrainAfterClose | queue/channel.go:55-76 | after Close the buffered messages can still be popped, and then Pop reports "closed" |
| ChannelQueue.FullQueueRefuses | queue/channel.go:45-52 | a full queue refuses every push and stays unchanged |
| Processor.JobPathsNest | processor/processor.go:42-44 | the job's log file lies in its data directory |
| Processor.JobRootDir | processor/processor.go:163 | the job's root is `<root>/job-<uid>`: the root directory, a slash, `job-`, then the job id |
| Processor.JobWorkDir | processor/processor.go:165 | the workspace lies directly inside the job's root, after a slash |
| Processor.JobDataDir | processor/processor.go:166 | the data directory lies directly inside the job's root, after a slash |
| Processor.JobLogFile | processor/processor.go:42-44 | the log file is `job.log` inside the job's data directory |
| Processor.InitPipeline | processor/processor.go:46-58 | stores a Created record for the pipeline with no steps and no environment; other entries are unchanged |
| Processor.Lookup | processor/processor.go:60-70 | an entry is found exactly when it is present and of the entity type; otherwise "not found" or "type error" |
| Processor.GetPipelineProgress | processor/processor.go:82-96 | returns the stored progress, or the lookup error |
| Processor.GetPipelineLog | processor/processor.go:60-80 | returns the job's log file content (none if the file is absent), or the lookup error |
| Processor.StopPipeline | processor/processor.go:98-114 | cancels exactly when a cancel function is stored; a record from InitPipeline alone has none, and stopping it panics |
| Processor.DeletePipeline | processor/processor.go:116-136 | the entry is removed whatever happens, its job directory is scheduled for removal, and the cancel call is made or panics as in Stop |
| Processor.DeleteThenLookup | processor/processor.go:116-136 | after a delete the entry is not found, others are unaffected, and a second delete reports "not found" |
| Processor.InitThenQuery | processor/processor.go:46-114 | a freshly initialised pipeline is queryable as Created, and stopping it panics |
| Processor.RunFlow | processor/processor.go:305-345 | an unregistered type gives the unknown-type error; an executor error is wrapped with the step index and type; a panic becomes "runFlow internal error: ..." |
| Processor.Classify | processor/processor.go:244-270 | an error is a cancellation exactly when it wraps the context's; with no error the status key fails the step or ends the pipeline early; every non-success stops the loop |
| Processor.FirstBad | processor/processor.go:281-295 | the index of the first Failed or Canceled entry, or none if there is no such entry |
| Processor.Finish | processor/processor.go:281-298 | the first bad entry decides the pipeline's status and the reason, which carries its index; otherwise Succeed; the record is marked finished |
| Processor.InitialEnv | processor/processor.go:168-172 | the pipeline's parameters plus CI_BUILD_ID = uid; a parameter of the same name overrides the uid |
| Processor.Run | processor/processor.go:142-303 | retry exactly on a non-pipeline payload; an empty uid changes nothing; the table ends up holding the last stored record |
| Processor.StepsProperties | processor/processor.go:229-279 | the step loop's records follow the declared steps in order; every entry but the last is a finished success; each step is stored Running and then finished |
| Processor.FirstBadIsLast | processor/processor.go:281-295 | when every earlier entry succeeded, the first bad entry is the last one if it is bad |
| Processor.RunOutcome | processor/processor.go:174-303 | a run with steps stores Started, then Running, then orderly step records, and a final record whose status is Succeed exactly when every entry succeeded, and otherwise comes from the last entry |
| Processor.AllOrderly | processor/processor.go:229-279 | the stored sequence of records is orderly throughout |
| Processor.StepsKeepPipeline | processor/processor.go:229-279 | the loop never changes the pipeline definition in the record |
| Processor.Steps | processor/processor.go:229-279 | the loop records at least the steps before it and at most all the declared steps, and stores the record twice for each step it records |
| Processor.StartStep | processor/processor.go:232-242 | a step's start appends one Running entry for that step with no reason, keeps the earlier entries, and marks the pipeline Running with the environment kept |
| Processor.EndStep | processor/processor.go:264-276 | a step's end finishes only the last entry, with the verdict's status and, unless it succeeded, its reason; earlier entries and the pipeline status are kept and the environment is recorded |
| Processor.RunWithoutSteps | processor/processor.go:222-227 | a pipeline with no steps stays Running and unfinished |
| Processor.RunIoFailure | processor/processor.go:188-209 | a directory or log-file failure stores only the Started record |
| Processor.RunFinal | processor/processor.go:229-298 | the final record is Finish applied to the loop's result |
| Processor.CanceledSecondLoop | processor/processor.go:244-270 | a cancelled second step is recorded Canceled with the cancellation reason |
| Processor.CanceledSecondStep | processor/processor.go:229-298 | a cancelled second step makes the pipeline Canceled with "流程[索引=1]执行被取消" |
| Processor.EarlySuccess | processor/processor.go:251-256 | a step that writes the success status ends the pipeline after it, as a success |
| Processor.UnknownTypeAndEnvFailure | processor/processor.go:313-319 | an unregistered step type fails the pipeline with its reason; a step that writes the failed status fails it with the step's reason |
| Shell.WrapShellScript | processor/shell/shell.go:37-44 | the script between the shebang line and a final newline |
| Shell.WrapShellScriptInjective | processor/shell/shell.go:37-44 | different scripts give different files |
| Shell.ScriptPathsAgree | processor/shell/shell.go:154-157 | the script's host path and container path agree below the mounted directory |
| Shell.ScriptPath | processor/shell/shell.go:154-156 | the script's host path is the workspace, a slash, then the script's file name |
| Shell.ImageExistsLocal | processor/shell/shell.go:72-100 | a listing error reads as absent; otherwise the image is present exactly when the listing found at least one image |
| Shell.ContainerFor | processor/shell/shell.go:153-222 | the container uses the rendered image, the step's environment and a TTY; it starts in the directory the workspace is mounted at, and its entrypoint is `sh` on the script's path in the container |
| Shell.LastSegmentIsSuffix | processor/shell/shell.go:73-80 | the last `/`-segment is a slash-free suffix that starts after a slash |
| Shell.WithDefaultTag | processor/shell/shell.go:73-80 | `:latest` is appended exactly when the last segment has no tag |
| Shell.WithDefaultTagIdempotent | processor/shell/shell.go:73-80 | a defaulted image is tagged, and defaulting again changes nothing |
| Shell.ShouldPull | processor/shell/shell.go:102-142 | pull when the policy is Always, or IfNotPresent with no local image (a listing error counts as absent) |
| Shell.PullError | processor/shell/shell.go:102-142 | no pull gives no error; a pull-request error and a log-copy error are wrapped with their messages |
| Shell.RenderCfg | processor/shell/shell.go:144-151 | renders only the shell configuration, and only when rendering is on; the flags are kept |
| Shell.RenderCfgFields | processor/shell/shell.go:144-151 | the command and the image are the placeholder expansions of the originals |
| Shell.RenderCfgEmptyEnv | processor/shell/shell.go:144-151 | rendering with an empty environment changes nothing |
| Shell.WaitResult | processor/shell/shell.go:309-326 | timeout, wait error, non-zero exit code and status error each give their message; success exactly on exit 0 with no error |
| Shell.TimeoutIsNotCancellation | processor/shell/shell.go:311-312 | a step timeout is a new error, so it counts as a failure and not as a cancellation |
| Shell.Run | processor/shell/shell.go:153-329 | a nil configuration panics; otherwise the rendered script is written first |
| Shell.RunSucceedsIff | processor/shell/shell.go:153-329 | the step succeeds exactly when the write, the pull, the create, the start, the log copy and the wait all succeed |
| Shell.PullActionsRemoveNothing | processor/shell/shell.go:72-142 | image checking and pulling neither create nor remove a container |
| Shell.RunAfterWrite | processor/shell/shell.go:165-171 | once the script is written, the file is removed after everything else |
| Shell.AfterWriteStarted | processor/shell/shell.go:265-300 | a started container is followed by its logs and wait, and then its removal |
| Shell.AfterWriteUnstarted | processor/shell/shell.go:265-280 | a container that was not started is not removed |
| Shell.StartedContainerRemoved | processor/shell/shell.go:165-329 | the full trace of a started run: write, pull, create, start, logs, wait, remove container, remove script |
| Shell.UnstartedContainerKept | processor/shell/shell.go:265-282 | when creation or start fails, no container removal is requested |
| Shell.AfterWriteCreates | processor/shell/shell.go:187-269 | after the pull the container is created with the configured image, the environment, the mount and the script entrypoint |
| Shell.ContainerSetup | processor/shell/shell.go:187-261 | the container runs `sh /code/shell-<uid>.sh` in `/code`, with the workspace mounted there, a TTY, and the environment |
| Shell.ExitCodeExample | processor/shell/shell.go:320-322 | exit codes 2 and -1 are reported in decimal |
| Git.GetAuth | processor/scm/git.go:21-42 | no credential means no auth; user/password means basic auth; an SSH key means public keys as user `git`, failing exactly on a key error; any other type means token auth |
| Git.GetAuthByType | processor/scm/git.go:21-42 | the auth kind chosen for each credential type |
| Git.BranchRef | processor/scm/git.go:53-61 | `refs/heads/` followed by the branch |
| Git.BranchRefRoundTrip | processor/scm/git.go:53-61 | the branch is recovered from its reference |
| Git.BranchRefInjective | processor/scm/git.go:53-61 | different branches give different references |
| Git.Clone | processor/scm/git.go:44-70 | an auth error is wrapped and no clone is attempted; otherwise one single-branch clone of the branch into the workspace, with its error wrapped |
| Git.CloneSucceedsIff | processor/scm/git.go:44-70 | a clone succeeds exactly when the auth and the clone both succeed |
| Git.CloneAsksForBranch | processor/scm/git.go:53-61 | the request asks for the configured branch only, into the workspace |
| Scm.RenderCredit | processor/scm/scm.go:24-39 | a credential keeps its type; a credential of no type is not rendered |
| Scm.RenderCfg | processor/scm/scm.go:24-39 | renders only the SCM configuration, and only when rendering is on; the VCS type is kept |
| Scm.RenderCfgFields | processor/scm/scm.go:24-39 | the address, the branch and the credential fields are the placeholder expansions of the originals |
| Scm.RenderCfgEmptyEnv | processor/scm/scm.go:24-39 | rendering with an empty environment changes nothing |
| Scm.RunGit | processor/scm/scm.go:51-57 | the git path clones the rendered configuration and wraps its error |
| Scm.NoClonerMessage | processor/scm/scm.go:44-49 | the error message carries the system's name between its fixed opening and closing text |
| Scm.NoClonerMessageNamesSystem | processor/scm/scm.go:44-49 | two systems get the same message exactly when their names are equal |
| Scm.RunAsWritten | processor/scm/scm.go:41-60 | as written: a nil configuration panics, and a system other than git returns nil, because wrapping nil gives nil |
| Scm.Run | processor/scm/scm.go:41-60 | corrected: a system other than git is an error naming the system; git clones |
| Scm.CloneErrorWrapped | processor/scm/scm.go:53-57 | a clone error reaches the step wrapped twice with "代码拉取失败" |
| Scm.RunSucceedsIff | processor/scm/scm.go:41-60 | the step succeeds exactly for git with good auth and a good clone, which is also exactly when a clone is requested |
| Scm.RunClonesRenderedBranch | processor/scm/scm.go:51-57 | a clone request uses the rendered address and branch and the workspace |
| Scm.RunAsWrittenIgnoresSystem | processor/scm/scm.go:44-49 | for a system other than git, the as-written runner succeeds without cloning, while the corrected one fails |
| Scm.UnknownSystemExample | processor/scm/scm.go:44-49 | system 1: as written the step succeeds; corrected, it fails with "找不到该平台[1]的代码拉取工具" |
| BuildContext.Join | processor/build_context/build_context.go:84-98 | the path is the directory, a slash, then the name |
| BuildContext.JoinUnder | processor/build_context/build_context.go:84-98 | a joined path lies under its directory |
| BuildContext.JoinInjective | processor/build_context/build_context.go:84-98 | different names give different paths |
| BuildContext.Add | processor/build_context/build_context.go:84-98 | writes exactly one file with the content, or fails with the write's error and changes nothing |
| BuildContext.AddAll | processor/build_context/build_context.go:55-64 | adding files never changes the fault map |
| BuildContext.AddAllWrites | processor/build_context/build_context.go:55-64 | when adding succeeds, every named file holds its content |
| BuildContext.AddAllKeepsOthers | processor/build_context/build_context.go:55-64 | paths other than the added ones are unaffected |
| BuildContext.AddAllStopsAtFirstFault | processor/build_context/build_context.go:55-64 | a failure is the first faulty file's error; the files before it were written, and nothing after it was |
| BuildContext.WithDockerfile | processor/build_context/build_context.go:50-52 | adding the Dockerfile is adding the file `Dockerfile` |
| BuildContext.Apply | processor/build_context/build_context.go:43-64 | one modifier adds one file, or the given files in order |
| BuildContext.WithFilesWritesAll | processor/build_context/build_context.go:55-64 | a successful WithFiles writes every file of the map |
| BuildContext.ApplyAllAppend | processor/build_context/build_context.go:13-28 | modifiers apply in sequence and stop at the first error |
| BuildContext.New | processor/build_context/build_context.go:13-40 | the given directory, or a new temporary one; a temporary-directory error is returned; a modifier error is returned with the files written up to it |
| BuildContext.NewWithDockerfile | processor/build_context/build_context.go:13-52 | a successful context holds the Dockerfile with the given content |
| BuildContext.RemoveTree | processor/build_context/build_context.go:101-109 | exactly the paths under the root are removed |
| BuildContext.Delete | processor/build_context/build_context.go:101-104 | removes the named file and anything under it |
| BuildContext.Close | processor/build_context/build_context.go:107-109 | removes the whole context directory |
| BuildContext.AddThenDelete | processor/build_context/build_context.go:84-104 | deleting an added file removes it and restores everything else |
| BuildContext.CloseRemovesAdded | processor/build_context/build_context.go:84-109 | after Close no added file remains; files outside the directory are kept |
| DockerBuild.RenderCfg | processor/docker_build/docker_build.go:25-33 | renders only the build configuration, and only when rendering is on; the push flag is kept |
| DockerBuild.RenderCfgFields | processor/docker_build/docker_build.go:25-33 | the base image, the target image and the Dockerfile are the placeholder expansions of the originals |
| DockerBuild.RenderCfgEmptyEnv | processor/docker_build/docker_build.go:25-33 | rendering with an empty environment changes nothing |
| DockerBuild.TarOf | processor/build_context/build_context.go:112-118 | the tar stream holds exactly the files under the context directory |
| DockerBuild.Run | processor/docker_build/docker_build.go:35-119 | a nil configuration panics; otherwise the rendered configuration is used and an error is returned |
| DockerBuild.NewContext | processor/docker_build/docker_build.go:38-46 | the context is the workspace holding the rendered Dockerfile |
| DockerBuild.RunAfterTar | processor/docker_build/docker_build.go:48-119 | once the tar stream exists, the rest of the run is the build sequence |
| DockerBuild.AfterTar | processor/docker_build/docker_build.go:54-118 | the build of the target image comes first; the later stages fail exactly when the build, the log copy or an asked-for push fails; the push is made, after the build, exactly when it is asked for and the build and the copy succeeded |
| DockerBuild.ContextFailure | processor/docker_build/docker_build.go:38-46 | a context failure makes no calls, leaves the disk alone and carries the context prefix |
| DockerBuild.ContextClosed | processor/docker_build/docker_build.go:38-46 | a created context is closed last, exactly once, and the workspace is gone afterwards |
| DockerBuild.BuildRequest | processor/docker_build/docker_build.go:54-93 | the build is the first call; its tags are exactly the target image, and its context holds the rendered Dockerfile |
| DockerBuild.PushIff | processor/docker_build/docker_build.go:103-116 | the target image is pushed exactly when push is on and every earlier stage succeeded |
| DockerBuild.RunSucceedsIff | processor/docker_build/docker_build.go:35-119 | the step succeeds exactly when the context, the tar, the build, the log copy and any push succeed |
| LuaLoader.Visible | processor/lua/loader.go:37-45 | table iteration skips nil values and keeps the order |
| LuaLoader.CheckList | processor/lua/loader.go:19-30 | only a table can be a list, and a table with no visible entries is one |
| LuaLoader.FindKey | processor/lua/loader.go:42-46 | the position of the first occurrence of a key in the host map |
| LuaLoader.Assign | processor/lua/loader.go:42-46 | assigning to a map key overwrites it in place, or appends a new key |
| LuaLoader.FindKeyFirst | processor/lua/loader.go:42-46 | with distinct keys, no other position holds the key found |
| LuaLoader.AssignLookup | processor/lua/loader.go:42-46 | after an assignment the key maps to the new value, other keys are unchanged, and keys stay distinct |
| LuaLoader.BuildMapDistinct | processor/lua/loader.go:42-46 | building a map from pairs with distinct keys keeps the pairs |
| LuaLoader.Marshal | processor/lua/loader.go:32-56 | scalars map to scalars; nil, functions and userdata map to null; a table becomes a list exactly when it is a list |
| LuaLoader.MarshalTable | processor/lua/loader.go:32-56 | a list table marshals to its values, and any other table to its key/value map |
| LuaLoader.MarshalMapLastWins | processor/lua/loader.go:42-46 | two keys that print the same give one map entry, holding the later value |
| LuaLoader.Unmarshal | processor/lua/loader.go:74-96 | null becomes nil; a list becomes a table indexed from 1; a map becomes a table with string keys |
| LuaLoader.RoundTrip | processor/lua/loader.go:32-96 | marshalling an unmarshalled plain value (no null inside, distinct map keys, non-empty maps) gives it back |
| LuaLoader.RoundTripList | processor/lua/loader.go:32-96 | the round trip for lists |
| LuaLoader.RoundTripMap | processor/lua/loader.go:32-96 | the round trip for maps |
| LuaLoader.EmptyMapBecomesList | processor/lua/loader.go:19-81 | an empty map comes back as an empty list, so the round trip needs non-empty maps |
| LuaLoader.ExportCount | processor/lua/loader.go:115-127 | the bridge module exports nine functions |
| LuaLoader.Arg | processor/lua/loader.go:135-158 | a missing argument reads as the empty string |
| LuaLoader.AsString | processor/lua/loader.go:135-158 | a string argument reads as itself; only strings and numbers read as non-empty text |
| LuaLoader.SetEnv | processor/lua/loader.go:135-142 | sets one key to the second argument; nothing else changes |
| LuaLoader.GetEnv | processor/lua/loader.go:144-150 | returns the value, or "" for a missing key |
| LuaLoader.FailCall | processor/lua/loader.go:152-158 | marks the pipeline failed with the first argument as the reason |
| LuaLoader.ApplyCall | processor/lua/loader.go:115-158 | only setEnv and fail change the environment |
| LuaLoader.SetThenGet | processor/lua/loader.go:135-150 | getEnv reads what setEnv wrote |
| LuaLoader.ApplyCallsAppend | processor/lua/loader.go:115-158 | the calls act on the environment one after another |
| LuaLoader.ApplyCalls | processor/lua/loader.go:115-158 | a script's calls never remove a key from the environment |
| LuaLoader.ReadOnlyCalls | processor/lua/loader.go:115-158 | a script that calls neither setEnv nor fail leaves the environment unchanged |
| LuaLoader.LastFailDecides | processor/lua/loader.go:152-158 | after a final fail(r) the pipeline is failed with reason r |
| LuaPool.NewLuaPool | processor/lua/pool.go:48-53 | an empty pool for any non-negative capacity; a negative one panics in `make` with "runtime error: makeslice: cap out of range" |
| LuaPool.Get | processor/lua/pool.go:15-25 | takes the most recently saved interpreter, or a new one when none is saved |
| LuaPool.Put | processor/lua/pool.go:36-40 | saves the interpreter on top, with no bound |
| LuaPool.Shutdown | processor/lua/pool.go:42-46 | closes every saved interpreter and closes nothing else |
| LuaPool.PutThenGet | processor/lua/pool.go:15-40 | Get returns what Put saved last and restores the pool |
| LuaPool.GetThenPut | processor/lua/pool.go:15-40 | putting back what Get took restores the pool |
| LuaPool.PutAll | processor/lua/pool.go:36-40 | saves a sequence in order |
| LuaPool.GetN | processor/lua/pool.go:15-25 | takes n interpreters |
| LuaPool.LastInFirstOut | processor/lua/pool.go:15-40 | interpreters put back come out newest first |
| LuaPool.Reverse | processor/lua/pool.go:15-40 | the reversed order, position by position |
| Lua.WrapLuaScript | processor/lua/lua.go:22-31 | the script between the `require("common")` line and a final newline |
| Lua.WrapLuaScriptInjective | processor/lua/lua.go:22-31 | different scripts give different programs |
| Lua.Run | processor/lua/lua.go:33-83 | takes an interpreter first and never returns it; a nil configuration panics; the script's bridge calls act on the environment even if it errs, and its error is wrapped |
| Lua.RunShrinksPool | processor/lua/lua.go:33-34 | every run takes one interpreter out of the pool for good |
| Lua.ScriptRendering | processor/lua/lua.go:41-45 | the script is rendered exactly when rendering is on |
| Lua.RunSucceedsIff | processor/lua/lua.go:47-52 | the step succeeds exactly when the script ends without error; `fail` does not fail the step itself |
| Lua.ScriptFailMarksPipeline | processor/lua/lua.go:33-83 | a script whose last bridge call is fail(r) leaves the pipeline failed with reason r |
| Runners.RunStep | cmd/main/main.go:61-66 | each registered type runs the executor the service registers for it, the SCM step with the runner as written; only the Lua step passes on a changed environment |
| Runners.IntendedRunStep | processor/scm/scm.go:41-60 | the same step with the intended SCM runner: it differs from the registered one only for an SCM step |
| Runners.Executor | cmd/main/main.go:61-66 | the processor's executor built from the registered runners never changes the environment of a step other than Lua |
| Runners.IntendedExecutor | processor/scm/scm.go:41-60 | the executor with the intended SCM runner keeps the same property: no step but Lua changes the environment |
| Runners.UnknownSystemPassesStep | processor/scm/scm.go:44-49 | as registered, an SCM step for a system other than git returns no error and keeps the environment, so the step is recorded as a success unless the pipeline is already marked failed |
| Runners.UnknownSystemFailsStep | processor/scm/scm.go:44-49 | with the intended SCM runner, an SCM step for a system other than git fails with the cloner error under the step's prefix |
| Runners.UnregisteredTypeFails | processor/processor.go:313-319 | a step type with no executor fails as unknown |
| Runners.MissingConfigPanics | processor/processor.go:306-311 | a step missing its configuration panics, and the panic becomes its error |
| Runners.OnlyLuaWritesEnv | cmd/main/main.go:61-66 | no step other than Lua changes the environment later steps see |

## Left out

- File, network and Docker I/O: every outside call is an outcome given as a parameter.
- zap logging and the console sink.
- The `ReadFrom` of the log sink.
- The queue consumer, the queue factory, configuration flags, and the gRPC and web servers. They are outside the executor core.
- Contexts and timeouts: the pipeline's one hour and each step's ten minutes. Only their effect is modelled, as a wait outcome or a cancellation-tagged error.
- Concurrency and the mutexes guarding the entity table. Operations are modelled one at a time.
- Timestamps: recorded as started/finished flags.
- UUID generation for script file names: a parameter.
- The environment map is shared with the step executors by reference in the source. Each step's changes are passed on explicitly instead.
- The rendered configurations written back into the flow are not copied into the stored progress records.
- `filepath.Join` cleaning: paths are joined with a single slash.
- BuildContext.JoinInjective: holds only for the single-slash join. `filepath.Join` cleans its result, so in Go `a/../b` and `b` name the same file.
- BuildContext.AddAllKeepsOthers: the paths "not named" are those outside the single-slash joins. In Go a name such as `a/../b` writes `Dir/b`, and `../x` writes outside the context directory.
- BuildContext.AddThenDelete: holds for names that `filepath.Join` leaves as they are: no empty, `.` or `..` segment and no leading `/`. Other names reach a cleaned path in Go.
- BuildContext.CloseRemovesAdded: holds for the same names. In Go a file added under a name that climbs out with `..` lies outside the context directory and survives `Close`'s `RemoveAll`.
- Docker reference-filter matching in `imageExistsLocal`: the listing's answer is an outcome.
- The `WithDocker` flag of the shell configuration: the branch that would use it is empty (processor/shell/shell.go:173-175), so it has no effect.
- The log output of the pull, the build and the container logs is not modelled, apart from the copy error.
- Tar encoding: the tar stream is the set of files under the context directory.
- `WithBinaryFiles` and the `RemoveAll` failures of the build context: these removals are taken to succeed.
- The `RemoveAll` of the job workspace when a run ends (processor/processor.go:193): the processor does not model the disk.
- The Lua interpreter: a function from the script to the bridge calls it makes and how it ends.
- The curl bridge functions, `log`, and the JSON-string wrappers `jsonMarshal`/`jsonUnmarshal`: only the value conversions beneath them are modelled.
- Lua numbers are kept as their printed text: no floating point.
- Table, function and userdata keys print as their kind instead of with an address.
- LuaLoader.MarshalMapLastWins: because of that printing, its precondition also admits a pair of keys of which one is a table, a function or userdata: two different tables, or a table and the string `table`. The lemma then merges the two into one entry. In Go such a key prints with its own address (`table: 0x…`, processor/lua/loader.go:44), so the map keeps both entries. The lemma matches Go only when neither key is a table, a function or userdata: for strings and booleans, such as the string `true` and the boolean `true`.
- Cyclic tables are not modelled.
- ChannelQueue.NewChannelQueue: a negative capacity is excluded by its precondition instead of modelled as the `make` panic. In contrast, `LuaPool.NewLuaPool` models the panic.
- ChannelQueue.Pop: a Pop that would block on an open empty queue is excluded by its precondition. Blocking is not modelled.
- ChannelQueue.Close: a second Close, which panics in Go, is excluded by its precondition.
- ChannelQueue.Push: a Push on a closed queue, which panics in Go, is excluded by its precondition. `ChannelQueue.PushAll` and `ChannelQueue.PushAllFifo` inherit it.
- Logger.ScanLines: the scanner's 4096-byte initial buffer and 64 KiB token limit are not modelled. Each write is scanned whole.

## Findings

| source | as written | input that shows it | evidently intended | confidence | as-written member | corrected member |
|---|---|---|---|---|---|---|
| processor/logger/logger.go:75-89 | the buffered fragment is cleared before it is logged, so a line that spans two writes loses its first part. `Write` is what the clone's progress output calls (processor/scm/git.go:59). The image pull, build and container logs are copied with `io.Copy`, which goes through `ReadFrom`, and that path is not part of this model | write "ab", then write "c\n": only "c" is logged, and "ab" is never logged: it stays buffered until a later write that logs from its scan loop clears it (then "x\ny\n" logs "x" and "y" and leaves nothing buffered) | the fragment is prepended to the next line, and no output text is lost | not executed | Logger.FeedAsWrittenLosesFragment | Logger.FeedIntendedKeepsText |
| processor/scm/scm.go:44-49 | an unsupported version-control system is reported with `errors.Wrapf(err, ...)` on an `err` that is nil, which returns nil | an SCM step with VCS type 1: the step succeeds without cloning anything | the step fails with "找不到该平台[1]的代码拉取工具" | not executed | Scm.RunAsWrittenIgnoresSystem, Runners.UnknownSystemPassesStep | Scm.Run, Runners.UnknownSystemFailsStep |
