# OverLang core, modelled in Dafny

OverLang turns a video's audio into subtitles. It has two halves.

The Spring backend signs users in with a Firebase ID token and keeps projects, jobs and subtitle segments. This model covers these parts of it:

- the member find-or-create service over the `members` table, with its two unique columns and the recovery path for a concurrent insert;
- bearer-token extraction from the `Authorization` header;
- the `ApiResponse` envelope;
- both applications' exception handlers;
- the choice of the Firebase service-account source, and the once-only start-up initialisation;
- the project/job/segment entity graph, with its back-pointers.

The Python AI server queues speech-to-text tasks. This model covers these parts of it:

- the camelCase alias generator and the error-code enum of the API schemas;
- the whole `process_audio_task` step sequence: option defaults, the model switch, lazy loading, progress reports, the result-file path, error classification and the JSON error payload;
- the status endpoint, which decodes that payload back.

The models of Java's `String.trim`/`isBlank`/`split`, of Python's `lower`, `capitalize` and POSIX `splitext`, and of CPython's `json.loads` and `json.dumps` (with `ensure_ascii`) are written out. This lets the round trip from worker to status endpoint be proved for every code and every message.

Modules, one per file:

- `Wrappers`: Option and Result.
- `Strings`: generic sequence helpers.
- `JavaLang`: the Java `String` methods and the exceptions.
- `Members`: `Member`, the `MemberStore` class for the table and repository, and the `MemberService` class.
- `Bearer`, `Responses`, `Advice` (backend handler), `KrAdvice` (kr handler) and `FirebaseSetup`.
- `Entities`: the `Project`, `Job` and `Segment` classes.
- `PythonText`, `Json` (decoder), `JsonEncoding` (encoder and round trip) and `Schemas`.
- `Worker`: the task as a function `Run` over an event trace, plus a `Worker` class whose `ProcessAudio` method is proved equal to it.
- `TaskStatus`: the status route as an imperative method.

The code is followed wherever a comment or design note says otherwise:

- A member recovered after a unique-constraint violation is still reported with `isNewMember = true` (MemberService.java lines 31-32 wrap whatever `createSafely` returns).
- `/me` in `AuthController` goes through `findOrCreate`, even though the comment on `getByFirebaseUid` says `/me` never creates a row. The controller itself is not part of this model.

## Model

| member | source | states |
|---|---|---|
| Members.NewMember | backend/src/main/java/com/overlang/domain/member/entity/Member.java:28-32 | the constructor stores email, name and uid in that order and sets no id |
| Members.InsertKeepsInvariant | backend/src/main/java/com/overlang/domain/member/entity/Member.java:14-25 | an insert keeps both unique constraints, store-assigned distinct positive ids and non-null columns; it adds at most the new uid and leaves every other row as it was |
| Members.EmailsAfterInsert | backend/src/main/java/com/overlang/domain/member/entity/Member.java:18-19 | after an insert, the set of emails in use gains exactly the new row's email |
| Members.MemberStore.FindByFirebaseUid | backend/src/main/java/com/overlang/domain/member/repository/MemberRepository.java:10 | a lookup that never writes: it finds a row exactly when the uid is stored, and returns the row stored under that uid |
| Members.MemberStore.Save | backend/src/main/java/com/overlang/domain/member/entity/Member.java:14-25 | a save commits the row with the next id when both unique columns are free; otherwise it raises DataIntegrityViolation and changes nothing |
| Members.DefaultName | backend/src/main/java/com/overlang/domain/member/service/MemberService.java:54-56 | the email's text before its first '@' (the whole email if it has none); ArrayIndexOutOfBounds exactly when the email is made only of '@' |
| JavaLang.FirstPieceIsPrefix | backend/src/main/java/com/overlang/domain/member/service/MemberService.java:55 | Java `split("@")[0]`: the whole string without a separator, the text before the first separator otherwise, and an exception for a string made only of separators |
| JavaLang.JavaSplit | backend/src/main/java/com/overlang/domain/member/service/MemberService.java:55 | `split` with a one-character separator: never more pieces than the plain split; its trailing empty pieces are dropped, and the whole string comes back as one piece when the separator is absent (the contract of `DropTrailingEmpty` and the facts in `FirstPieceIsPrefix`) |
| JavaLang.FirstPiece | backend/src/main/java/com/overlang/domain/member/service/MemberService.java:55 | `split(sep)[0]`: the pieces above, or ArrayIndexOutOfBounds on an empty array; `FirstPieceIsPrefix` states which inputs give which |
| Members.DefaultNameIsLocalPart | backend/src/main/java/com/overlang/domain/member/service/MemberService.java:54-56 | a derived name has no '@', starts the email and ends at its first '@' or at its end; the derivation fails, with ArrayIndexOutOfBounds, exactly when the email is one or more '@' only |
| Members.FinalName | backend/src/main/java/com/overlang/domain/member/service/MemberService.java:46 | the provider's name when it is non-null and non-blank, otherwise the default name; it fails exactly when the default name does |
| JavaLang.IsBlank | backend/src/main/java/com/overlang/domain/member/service/MemberService.java:22 | `String.isBlank`: true exactly when every character is Java whitespace, so the empty string is blank; used for the email check (line 22) and the name check (line 46) |
| Members.MemberService.FindOrCreate | backend/src/main/java/com/overlang/domain/member/service/MemberService.java:21-34 | covers every branch and the resulting store. A null or blank email is Unauthorized with the store untouched. An existing row comes back as not new and nothing is written. Otherwise the result is createSafely's, flagged new. A returned member is always the row stored under the uid, reported new exactly when the lookup missed. Rows are only added |
| Members.MemberService.CreateSafely | backend/src/main/java/com/overlang/domain/member/service/MemberService.java:44-52 | there are four outcomes. A failed name derivation raises that exception and writes nothing. With both unique columns free, the new row is stored with the next id. When the uid was taken by a concurrent insert, that row is re-read and returned. When only the email is taken, the integrity violation is rethrown and nothing is written |
| Members.MemberStore.ConcurrentInsert | backend/src/main/java/com/overlang/domain/member/service/MemberService.java:44-52 | another transaction's insert that commits between the lookup and the save gets the next id when both unique columns are free and is dropped otherwise; the store stays valid |
| Members.MemberService.GetByFirebaseUid | backend/src/main/java/com/overlang/domain/member/service/MemberService.java:37-42 | returns the stored row, or Unauthorized "Member not found"; the method has no modifies clause, so it never writes |
| Members.FindOrCreateTwice | backend/src/main/java/com/overlang/domain/member/service/MemberService.java:26-33 | a second call for the same uid returns the same member, flagged not new; the first call is new exactly when the uid was absent |
| JavaLang.Trim | backend/src/main/java/com/overlang/global/auth/BearerTokenResolver.java:19 | `trim` leaves no character up to U+0020 at either end and never lengthens the string |
| JavaLang.TrimOfPadded | backend/src/main/java/com/overlang/global/auth/BearerTokenResolver.java:19 | `trim` removes exactly the padding: a trimmed string wrapped in padding trims back to itself |
| JavaLang.TrimEmptyIff | backend/src/main/java/com/overlang/global/auth/BearerTokenResolver.java:19-21 | `trim` gives the empty string exactly when every character is at most U+0020 |
| Bearer.Resolve | backend/src/main/java/com/overlang/global/auth/BearerTokenResolver.java:12-26 | a missing header, or one without the exact case-sensitive "Bearer " prefix, gives "Invalid or missing Authorization header"; a prefix followed by padding only gives "Bearer token is empty"; a token is never empty and never begins or ends with a character up to U+0020 |
| Bearer.TokenPosition | backend/src/main/java/com/overlang/global/auth/BearerTokenResolver.java:19 | the token is a slice of the header after the 7-character prefix, with only padding around it |
| Bearer.ResolveSucceedsIff | backend/src/main/java/com/overlang/global/auth/BearerTokenResolver.java:15-25 | a header yields a token exactly when it starts with "Bearer " and has some character above U+0020 after it; the token is then the trimmed remainder |
| Bearer.ResolvePaddedToken | backend/src/main/java/com/overlang/global/auth/BearerTokenResolver.java:19-25 | resolving "Bearer " + padding + token + padding gives the token back |
| Responses.ApiResponse.GetStatus | src/main/java/kr/ac/hansung/cse/overlang/global/response/ApiResponse.java:39-41 | returns SUCCESS exactly for a success envelope |
| Responses.ApiResponse.GetData | src/main/java/kr/ac/hansung/cse/overlang/global/response/ApiResponse.java:43-45 | null on every error envelope |
| Responses.ApiResponse.GetError | src/main/java/kr/ac/hansung/cse/overlang/global/response/ApiResponse.java:47-49 | null exactly on success envelopes |
| Responses.Success | src/main/java/kr/ac/hansung/cse/overlang/global/response/ApiResponse.java:23-29 | `success(d)`: status SUCCESS, data d, null error |
| Responses.Error | src/main/java/kr/ac/hansung/cse/overlang/global/response/ApiResponse.java:31-37 | `error(c, m)`: status ERROR, null data, and an error carrying c and m |
| Responses.EnvelopeFromGetters | src/main/java/kr/ac/hansung/cse/overlang/global/response/ApiResponse.java:23-49 | every envelope is either SUCCESS with null error, or ERROR with null data and an error; the getters rebuild the factory call that made it |
| Responses.GettersDetermineEnvelope | src/main/java/kr/ac/hansung/cse/overlang/global/response/ApiResponse.java:39-49 | two envelopes whose getters agree are equal |
| Advice.HandleUnauthorized | backend/src/main/java/com/overlang/global/advice/GlobalExceptionHandler.java:13-17 | 401 with an ERROR envelope carrying AUTH_001, the exception's message and null data |
| Advice.HandleException | backend/src/main/java/com/overlang/global/advice/GlobalExceptionHandler.java:19-23 | 500 with an ERROR envelope carrying COMMON_001, the exception's message and null data |
| Advice.Handle | backend/src/main/java/com/overlang/global/advice/GlobalExceptionHandler.java:12-23 | an UnauthorizedException reaches `handleUnauthorized`; every other exception reaches `handleException` |
| Advice.HandleClassifies | backend/src/main/java/com/overlang/global/advice/GlobalExceptionHandler.java:13-23 | 401 and AUTH_001 exactly for Unauthorized, 500 and COMMON_001 for everything else, always the exception's own message with null data |
| Advice.StatusMatchesCode | backend/src/main/java/com/overlang/global/advice/GlobalExceptionHandler.java:13-23 | the HTTP status is determined by the code in the envelope |
| KrAdvice.HandleException | src/main/java/kr/ac/hansung/cse/overlang/global/advice/GlobalExceptionHandler.java:12-16 | every exception becomes 500 with an ERROR envelope carrying COMMON_001, its message and null data |
| KrAdvice.AgreesWithBackend | src/main/java/kr/ac/hansung/cse/overlang/global/advice/GlobalExceptionHandler.java:12-16 | the two applications answer identically exactly for the exceptions that are not Unauthorized, and always carry the same message |
| FirebaseSetup.SelectSource | backend/src/main/java/com/overlang/global/config/FirebaseConfig.java:48-74 | on the trimmed path: "classpath:" is tested before "file:" and its remainder is used as is; an unprefixed path picks the existing file, else the existing classpath resource, else the file anyway; a NUL character makes `Path.of` throw |
| FirebaseSetup.SelectedNameIsSuffix | backend/src/main/java/com/overlang/global/config/FirebaseConfig.java:49-73 | whichever source is chosen, its name is the trimmed path with at most the prefix cut off |
| FirebaseSetup.SelectSourceIgnoresPadding | backend/src/main/java/com/overlang/global/config/FirebaseConfig.java:49 | padding around the configured path never changes the choice |
| FirebaseSetup.PrefixedPathIgnoresOracles | backend/src/main/java/com/overlang/global/config/FirebaseConfig.java:52-59 | a prefixed path is chosen without consulting the filesystem or the classpath, whether the resource exists or not |
| FirebaseSetup.ClasspathPrefixWins | backend/src/main/java/com/overlang/global/config/FirebaseConfig.java:52-57 | "classpath:file:x" names the classpath resource "file:x" |
| FirebaseSetup.Attempt | backend/src/main/java/com/overlang/global/config/FirebaseConfig.java:35-40 | the try block succeeds with the selected source exactly when selection and loading both succeed; otherwise it fails with the exception of the step that failed |
| FirebaseSetup.FirebaseConfig.Init | backend/src/main/java/com/overlang/global/config/FirebaseConfig.java:24-46 | a blank key path only warns; an existing app only logs; otherwise the app is initialised from the attempt, or the failure is logged and never rethrown; an existing app is never replaced |
| FirebaseSetup.InitTwice | backend/src/main/java/com/overlang/global/config/FirebaseConfig.java:30-33 | a second start-up initialises no second app |
| Entities.Project.constructor | src/main/java/kr/ac/hansung/cse/overlang/domain/project/entity/Project.java:38-43 | member, title and videoUrl as given, status CREATED, no jobs |
| Entities.Project.AddJob | src/main/java/kr/ac/hansung/cse/overlang/domain/project/entity/Project.java:45-48 | the job is appended at the end with earlier entries unchanged, and it points back at this project; nothing else changes; the back-pointer invariant is preserved |
| Entities.AddJobTwice | src/main/java/kr/ac/hansung/cse/overlang/domain/project/entity/Project.java:45-46 | adding the same job twice lists it twice |
| Entities.MoveJob | src/main/java/kr/ac/hansung/cse/overlang/domain/project/entity/Project.java:45-48 | adding a job to a second project re-points it but leaves it in the first list, which then breaks the first project's back-pointer invariant |
| Entities.Job.constructor | src/main/java/kr/ac/hansung/cse/overlang/domain/job/entity/Job.java:35-39 | project and type as given, status PENDING, no segments |
| Entities.Job.SetProject | src/main/java/kr/ac/hansung/cse/overlang/domain/job/entity/Job.java:41-43 | changes the project field and nothing else |
| Entities.Job.AddSegment | src/main/java/kr/ac/hansung/cse/overlang/domain/job/entity/Job.java:45-48 | the segment is appended at the end and points back at this job; its times, seq and text are untouched; the back-pointer invariant is preserved |
| Entities.AttachNewJob | src/main/java/kr/ac/hansung/cse/overlang/domain/project/entity/Project.java:45-48 | for any project that owns its jobs, a job built against it, given a segment with `addSegment` (Job.java:45-48) and added with `addJob`, is appended after the earlier jobs; afterwards the project owns its jobs and the job owns its segment, the job is pending with the requested type, and the project's status and owner are unchanged |
| Entities.Segment.constructor | src/main/java/kr/ac/hansung/cse/overlang/domain/segment/entity/Segment.java:38-44 | job, times, seq and text as given, with no check of their order or sign |
| Entities.Segment.SetJob | src/main/java/kr/ac/hansung/cse/overlang/domain/segment/entity/Segment.java:34-36 | sets the job; times, seq and text are unchanged |
| Schemas.ErrorCode.Value | ai/api/schemas.py:12-14 | WORKER_001, WORKER_002 and WORKER_999, each "WORKER_" and three digits |
| Schemas.FromValue | ai/api/schemas.py:12-14 | the enum member with a given value, if any |
| Schemas.FromValueOfValue | ai/api/schemas.py:12-14 | the three values are distinct, and each finds its member again |
| Schemas.Alias | ai/api/schemas.py:25-27 | the alias generator: split at '_', keep the first word, capitalise the rest and join them; the `Alias...` lemmas below state its properties |
| Schemas.AliasHasNoUnderscore | ai/api/schemas.py:25-27 | no alias contains '_' |
| Schemas.AliasOfPlainName | ai/api/schemas.py:26 | a name without '_' is its own alias |
| Schemas.AliasKeepsFirstWord | ai/api/schemas.py:26 | the alias starts with the text before the first '_', verbatim |
| Schemas.AliasOfJoined | ai/api/schemas.py:26 | each word after a '_' is `capitalize`d and appended |
| Schemas.AliasSkipsEmptyWords | ai/api/schemas.py:26 | the empty words that doubled underscores make contribute nothing |
| Schemas.OneUnderscore | ai/api/schemas.py:26 | the alias of a_b is a followed by `b.capitalize()` |
| Schemas.JobIdAlias | ai/api/schemas.py:51 | "job_id" becomes "jobId" |
| Schemas.FilePathAlias | ai/api/schemas.py:34 | "file_path" becomes "filePath" |
| Schemas.ErrorCodeAlias | ai/api/schemas.py:55 | "error_code" becomes "errorCode" |
| Schemas.ErrorMessageAlias | ai/api/schemas.py:56 | "error_message" becomes "errorMessage" |
| PythonText.Capitalize | ai/api/schemas.py:26 | first character upper-cased, the rest lower-cased, same length, and '_' kept exactly where it was |
| PythonText.Lower | ai/worker/tasks.py:95 | same length; each capital A-Z becomes its letter 32 code points higher; every other character is kept; no capital is left |
| PythonText.LowerSlice | ai/worker/tasks.py:95 | lower-casing commutes with slicing, so a piece of the lower-cased text is the lower-cased piece |
| PythonText.LowerIdempotent | ai/worker/tasks.py:95 | lower-casing twice is lower-casing once |
| PythonText.SplitExtRoot | ai/worker/tasks.py:79 | `splitext(p)[0]` is a prefix of p |
| PythonText.SplitExtRootCuts | ai/worker/tasks.py:79 | what is cut off is a '.' followed by neither '.' nor '/', and the name before it is not dots only |
| PythonText.SplitExtRootNoDot | ai/worker/tasks.py:79 | a last path component without '.' keeps the whole path |
| Worker.ResolveOptions | ai/worker/tasks.py:40-47 | a missing options dict means `{}`; the defaults are the service's current model, batch size 16, `no_align` false and language "ko" |
| Worker.IsOutOfMemory | ai/worker/tasks.py:95-97 | the OOM test: "out of memory" in the lower-cased message, or a CUDA OOM error; `OomTextIgnoresCase` and `OomIgnoresCase` state the case-insensitivity |
| Worker.OomTextIgnoresCase | ai/worker/tasks.py:95 | the lower-cased text contains "out of memory" exactly when some piece of the original text lower-cases to it |
| Worker.OomIgnoresCase | ai/worker/tasks.py:95 | any casing of "out of memory" anywhere in the message makes the exception out-of-memory |
| Worker.ShoutedOomIsGpuOom | ai/worker/tasks.py:95-99 | "CUDA Out Of Memory" raised as a plain RuntimeError is classified as WORKER_001 with the fixed message |
| Worker.Classify | ai/worker/tasks.py:89-106 | WORKER_001 with the fixed message exactly when the lower-cased text contains "out of memory" or the error is CUDA OOM, which takes precedence. Otherwise WORKER_002 with "Audio file not found: " + path exactly for FileNotFoundError. Otherwise WORKER_999 with `str(e)` |
| JsonEncoding.EscapeString | ai/worker/tasks.py:111 | `json.dumps` with `ensure_ascii` produces printable ASCII only |
| JsonEncoding.EncodeString | ai/worker/tasks.py:111 | one string as `json.dumps` writes it: quotes around its escaped text; `EncodeStringDecodes` states the round trip |
| JsonEncoding.EncodeStringDecodes | ai/worker/tasks.py:111 | every string encoded by `json.dumps` decodes back to itself, whatever follows it |
| JsonEncoding.DumpsStringDict | ai/worker/tasks.py:111 | `json.dumps` of a dict of strings: "{}", or its members as `"key": "value"` separated by ", "; `LoadsDumpsStringDict` states the round trip |
| JsonEncoding.LoadsEmptyDict | ai/worker/tasks.py:111 | `json.loads("{}")` is the empty object |
| JsonEncoding.LoadsNonEmptyDict | ai/worker/tasks.py:111 | the encoding of a non-empty dict of strings loads as its members, in order |
| JsonEncoding.LoadsDumpsStringDict | ai/worker/tasks.py:111 | `json.loads(json.dumps(d))` gives back the pairs of any dict of strings |
| Worker.ErrorPayload | ai/worker/tasks.py:111 | the raised text is `json.dumps` of the code's value and the message, under "code" and "message" in that order; `ErrorPayloadDecodes` states what it decodes to |
| Worker.ErrorPayloadDecodes | ai/worker/tasks.py:111 | the raised text is a JSON object with exactly the keys "code" and "message", holding the code's value and the message |
| Worker.ResultPath | ai/worker/tasks.py:79 | the `splitext` root of the audio path followed by "_result.json"; the three `ResultPath...` lemmas state its shape |
| Worker.ResultPathShape | ai/worker/tasks.py:79 | the result path is a prefix of the audio path (its `splitext` root) followed by "_result.json" |
| Worker.ResultPathReplacesExtension | ai/worker/tasks.py:79 | "dir/stem.ext" gives "dir/stem_result.json" |
| Worker.ResultPathOfDotFile | ai/worker/tasks.py:79 | "dir/.name" keeps its name and gets "_result.json" after it |
| Worker.Fail | ai/worker/tasks.py:89-111 | the except block as a run: raise the classification; on out-of-memory record an unload and leave nothing loaded; `FailFacts` states these |
| Worker.FailFacts | ai/worker/tasks.py:89-111 | the except block raises the classification of its exception; it unloads the service's model exactly on out-of-memory and otherwise leaves the service as it was |
| Worker.Transcribe | ai/worker/tasks.py:68-87 | transcribe, report 90, write the result, succeed; the first step that raises goes to `Fail`; `TranscribeFacts` states these |
| Worker.TranscribeFacts | ai/worker/tasks.py:68-87 | from the transcription on, with the model loaded: 90 is reported and the call recorded exactly when it returns; the task completes exactly when the write succeeds too, and then it has written the result to the result path and reported success |
| Worker.Proceed | ai/worker/tasks.py:63-87 | report 20, load the model lazily when nothing is loaded, then `Transcribe`; `ProceedEnds` and `ProceedProjects` state its outcomes |
| Worker.ProceedEnds | ai/worker/tasks.py:63-87 | from the report of 20 on: the task completes exactly when the lazy load (if needed), the transcription and the write all succeed |
| Worker.ProceedProjects | ai/worker/tasks.py:63-76 | from the report of 20 on: the progress reports, the transcription calls, the unloads and the loads the run performs |
| Worker.Run | ai/worker/tasks.py:35-111 | the task: report 0, switch the model when the target differs, then `Proceed`; the `Run...` lemmas state its outcomes |
| Worker.RunSwitchFails | ai/worker/tasks.py:55-61 | when the target differs and its load raises, the run reports 0, records the unload of the old model and ends in `Fail` with nothing loaded |
| Worker.RunProceeds | ai/worker/tasks.py:38-76 | otherwise the run reports 0, records the unload and load when it switched, and goes on as `Proceed` with the model loaded whenever it switched |
| Worker.RunEnds | ai/worker/tasks.py:35-111 | for every service state, options and outcome of the outside calls: the service ends on the target model; the task completes exactly when every needed step succeeds, returning the transcription after writing it to the result path, reporting success and with the model loaded; after out-of-memory no model is loaded and the last event is the unload |
| Worker.RunProjects | ai/worker/tasks.py:38-76 | reports 0, then 20 unless the model switch failed, then 90 when transcription returned. Transcribes at most once, with the resolved options and `align = not no_align`. Unloads the old model exactly when the target differs, and the current one after out-of-memory. Loads the target exactly when a load is needed and works |
| Worker.RunReportsProgressInOrder | ai/worker/tasks.py:38-86 | progress is reported as 0, 20, 90 in that order or a prefix of it; a completed task reported all three and ended with SUCCESS |
| Worker.RunRaised | ai/worker/tasks.py:89-111 | a raising task raises the classification of the exception that the needed model load, the transcription or the result write raised |
| Worker.Worker.constructor | ai/worker/tasks.py:17 | the worker process starts with "large-v3-turbo", not loaded |
| Worker.Worker.UnloadModel | ai/stt_service.py:39-57 | drops the loaded model, keeping the model name |
| Worker.Worker.LoadModel | ai/stt_service.py:24-37 | loads only when no model is loaded; a failed load re-raises and leaves nothing loaded |
| Worker.Worker.Raise | ai/worker/tasks.py:89-111 | the except block, on the service state, as the function `Fail` describes |
| Worker.Worker.TranscribeAndSave | ai/worker/tasks.py:68-87 | the transcription, the 90 report, the write and success, as the function `Transcribe` describes |
| Worker.Worker.Continue | ai/worker/tasks.py:63-87 | the report of 20, the lazy load inside `transcribe`, and the rest, as the function `Proceed` describes |
| Worker.Worker.SwitchModel | ai/worker/tasks.py:55-61 | unloads the old model, rebinds to the target and loads it; the service holds the target afterwards whether or not the load failed |
| Worker.Worker.ProcessAudio | ai/worker/tasks.py:20-111 | the task's effect on the process's service and event trace is exactly the run `Run` describes |
| Json.Get | ai/api/routes.py:71-72 | `dict.get` on a decoded object: it finds a value exactly when some member has the key, and then it is the value of the last such member |
| Json.Loads | ai/api/routes.py:70 | `json.loads`: a leading BOM is refused; one value with only whitespace around it; an escape that leaves a lone surrogate, which a Dafny string cannot hold, is flagged as a separate outcome; `LoadsRefusesNonValueStart` and the `JsonEncoding` round trips state its behaviour |
| Json.LoadsRefusesNonValueStart | ai/api/routes.py:70-73 | a text that is empty, blank or whose first non-blank character cannot start a JSON value raises JSONDecodeError |
| TaskStatus.PyGet | ai/api/routes.py:71-72 | None when the key is missing or holds JSON null, the value otherwise |
| TaskStatus.DecodeFailure | ai/api/routes.py:65-76 | non-JSON text gives code WORKER_999 with the raw text as the message. A JSON object gives its "code" and "message". Any other JSON value ends in AttributeError. A lone surrogate is outside the model |
| TaskStatus.CheckCode | ai/api/schemas.py:55 | `error_code` validates exactly when it is absent or the string value of an ErrorCode member |
| TaskStatus.CheckMessage | ai/api/schemas.py:56 | `error_message` validates exactly when it is absent or a string |
| TaskStatus.Conform | ai/api/schemas.py:48-56 | the response serialises exactly when both error fields validate, keeping the other fields; otherwise it is a 500 |
| TaskStatus.GetTaskStatus | ai/api/routes.py:34-78 | PENDING gives progress 0. PROCESSING gives a dict info's progress (default 0), else 0. SUCCESS gives 100 and the result. FAILURE goes through the failure decoding. Any other state passes its status through with progress 0 |
| TaskStatus.FailureReply | ai/api/routes.py:62-76 | the FAILURE branch after decoding: the fields go through response validation (ai/api/schemas.py:48-56); a non-object JSON value is a 500; `ReportFailure` states every case |
| TaskStatus.ReportFailure | ai/api/routes.py:62-76 | the FAILURE branch: a non-JSON text yields WORKER_999 with the raw text. A JSON object yields its "code" and "message" entries; the other fields are kept and the result goes through validation. Any other JSON value gives a 500 |
| TaskStatus.DecodeErrorPayload | ai/api/routes.py:65-72 | the payload the worker raises decodes back to the same code and message |
| TaskStatus.WorkerFailureReply | ai/api/routes.py:62-76 | the client of a failed task receives that failure's code and message, for every code and every message |
| TaskStatus.CodeMessageReply | ai/api/routes.py:70-72 | a string code that is an ErrorCode value and a string message pass through to the reply unchanged |
| TaskStatus.FailedRunStatus | ai/worker/tasks.py:89-111 | end to end: when a run raises, the job's status carries the classification of the exception that one of the run's steps raised |
| TaskStatus.PlainFailureReply | ai/api/routes.py:73-76 | a failure text that is not JSON gives WORKER_999 with the raw text |
| TaskStatus.MalformedFailureReply | ai/api/routes.py:73-76 | any failure text that `json.loads` rejects gives WORKER_999 with the raw text as the message |
| TaskStatus.ObjectFailureReply | ai/api/routes.py:70-72 | an object failure text is answered exactly when its code is absent, null or an ErrorCode value and its message is absent, null or a string; a missing key and a null one both leave the field empty |
| TaskStatus.FieldsReply | ai/api/schemas.py:55-56 | the decoded fields become a reply exactly when they validate, and an absent field stays absent |

## Left out

- Concurrency: threads and JPA `@Transactional` semantics are not modelled. This covers rollback-only after a constraint violation, isolation levels and database collation. The race is one optional rival insert committed between `findByFirebaseUid` and `save`.
- The identity column is modelled consuming no id on a failed insert.
- A `DataIntegrityViolationException`'s message is the driver's text, which is not modelled (it stays `None`).
- `FirebaseTokenVerifier` (a Firebase SDK call) is an oracle outside this model: `FindOrCreate` takes the uid, email and name it would return.
- The controllers, the frontend and the `OpenApiConfig`/`WebConfig` configuration are outside this model: `AuthController`, `AuthTestController`, `DummyController` and both `HealthController`s. The same holds for both `kr` `FirebaseConfig` files, which do no path logic.
- The backend's `com.overlang` `ApiResponse`/`ErrorResponse` classes are not part of this model; the `kr` `ApiResponse` stands for both. `JobStatus.java` is not part of this model either; `JobStatus` has only the value a new job gets.
- The two `Project.java` files differ only in their package, so one class models both.
- `BaseTimeEntity` auditing, JPA ids of projects, jobs and segments, and null `Double`/`Integer` values in entities are not modelled. Times are opaque bit patterns.
- `ClassPathResource` path normalisation, real file and classpath existence, and credential parsing are oracles in `Environment`.
- The `keyPath == null` test in `init` cannot be reached, because the property defaults to the empty string.
- Java strings are UTF-16. The model uses Unicode scalar values, which agrees for every character `trim`, `isBlank` and `split` test.
- Python `lower` is modelled on ASCII letters only. This is exact for the "out of memory" test: the only non-ASCII characters that lower into ASCII letters are U+0130 and U+212A, giving 'i' and 'k', and the needle contains neither letter.
- Python `capitalize` is modelled on ASCII only; every field name it sees is ASCII.
- `json.loads` of text whose `\u` escapes leave a lone surrogate gives a Python `str` that a Dafny string cannot hold. The decoder flags it, and the status reply is `OutsideModel`.
- Python's integer-digit limit and `RecursionError` on deeply nested JSON are not modelled; JSON numbers keep their literal text.
- The transcription itself (WhisperX, alignment, timestamps) is an oracle in `Env`, including a load failure inside `transcribe`. So are loading a model and writing the result file. The layout of `json.dump(..., indent=2)` is not modelled; only the written value is recorded.
- Logging and `update_state` failures are not modelled.
- An exception from `unload_model` inside the `except` block is not modelled.
- Rebinding `current_stt_service` to a fresh `STTService` is modelled as the model name becoming the target with nothing loaded. The device and compute type are not modelled.
- Option values are taken as typed. A `batch_size` that is not an int, or a `no_align` that is not a bool, is not modelled.
- TaskStatus.TaskInfo: a "progress" entry that is not an integer is not modelled. `float()` of such a value may raise or convert.
- Celery and FastAPI wiring, `analyze_audio` and `send_task` are not modelled. The task state, info and result are inputs to `GetTaskStatus`, and `str(info)` of a failure is taken to be the text the worker raised, as `str(Exception(text))` is.
