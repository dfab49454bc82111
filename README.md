# DENSSWeb core, modelled in Dafny

DENSSWeb is a web front end to the DENSS electron-density reconstruction
tools. A user uploads small-angle scattering data. The server checks the upload
and queues a job. A worker claims the job and runs a chain of external programs
(denss.py, denss.all.py or superdenss, the EMAN2 scripts, map2map, the chart
scripts). It stores what they produce back in the job and zips the raw output.

This project models three parts of that system:

- **Scattering-data input** (`server/parser.go`, and `submitJob` in
  `server/handlers.go`), in modules `Parser` and `Handlers`:
  - the DAT validator;
  - the GNOM header detector;
  - the GNOM-to-DAT converter;
  - the submit-time line check.

  Each scanner loop is a method. It is proved equal to a verdict function, and
  lemmas state what that verdict means.
- **The job record and job table** (`model/job.go`), in modules `Jobs`,
  `Params` and `Base64Url`:
  - `Job` is a class whose one field, `state`, is updated in place.
  - The job table is the class `JobStore`, which holds a sequence of rows. The
    row at index k has id k + 1.
  - The operations are `QueueJob`, `FetchNextPending`, `CompleteJob`,
    `LogJobMessage` and `FetchAllJobs`. Each one updates the table's rows the
    way its SQL statement updates the database.
  - The parameters' JSON text and the base64url job token are modelled
    concretely, each with a round-trip proof.
- **The worker's stages** (`client/*.go`), one module per file:
  - `DenssAll`, `Superdenss`, `Denss`, `Eman2`, `Situs`, `Fsc`, `Summary` and
    `Zip`, plus the shared modules `Host`, `Stage` and `Args`.
  - Every argument list is specified as a sequence of options (`Args.Opt`:
    a flag and its values). The building method is proved to produce exactly
    that list when written flat.
  - Lemmas state which flags appear and when, in what order, with what values,
    and that the tool parses the list back into the same options.
  - Each stage method runs on a `Host.Machine`, which holds the file system
    and a log of program runs. Its contract gives the runs made, the files
    left and the error returned, and it states that the job field the stage
    fills changes only where the source changes it.

Library and system calls are the fields of oracle values, and their results
are left uninterpreted:

| Oracle | Stands for |
|---|---|
| `Parser.Lib` | content sniffing, `strconv.ParseFloat`, the three GNOM regular expressions |
| `Host.Format` | `strings.ToUpper`, `%.4f` |
| `Host.Machine.tool` | program runs: their success and the files they leave |
| `Host.Machine.writable` | whether a file can be written |
| `Zip.ZipLib` | the zip byte layout and the points where `archive/zip` fails |
| `Jobs.DbFault` | a failing transaction or statement |
| `relTime` | humanize |
| `clock` / `now` | the clock |
| `random` | the nine random token bytes |

Line splitting (`bufio.ScanLines`), trimming, field splitting, `%d`,
`filepath.Join`, base64url and the JSON text of the parameters are concrete
functions.

## Model

| member | source | states |
|---|---|---|
| Text.TrimSpace | server/parser.go:59 | the trimmed line has no white space at either end |
| Text.FieldsTrimSpace | server/parser.go:59-68 | trimming a line does not change the fields `strings.Fields` finds in it |
| Text.FieldsAreFields | server/parser.go:68 | every field is a non-empty run of non-space characters |
| Text.Lines | server/parser.go:51-58 | no line the scanner yields holds a newline |
| Text.LinesCons | server/parser.go:52-58 | a line shorter than 64 KiB followed by a newline is one scanner line, with a carriage return before the newline dropped; at a longer line the scanner yields nothing more; the whole text is read exactly when this line and the rest are short enough |
| Text.LinesStop | server/handlers.go:153-156 | a line of 64 KiB or more at the front stops the scanner before its first line, whatever follows, and the text is not read to the end |
| Text.LinesEmpty | server/parser.go:52-56 | the scanner yields no line exactly when the text is empty or its first line is 64 KiB or longer |
| Text.IntToString | client/denssall.go:56 | `%d` text is non-empty and has no white space |
| Text.FieldsOfJoin | client/superdenss.go:108 | joining fields with single spaces and splitting the result on white space gives the fields back |
| Parser.SkippedTrim | server/parser.go:59-67 | a line is skipped exactly when its trimmed text is empty or starts with `#` |
| Parser.Classify | server/parser.go:58-67 | the trimmed line, whether it is skipped, and that trimming keeps its fields |
| Parser.AllFloats | server/parser.go:69-75 | the token loop succeeds exactly when every token parses as a float |
| Parser.FirstWhereSpec | server/parser.go:102-117 | a forward scan finds a line exactly when one matches, and it finds the first match |
| Parser.LastWhereSpec | server/parser.go:77-79 | the last matching line is found exactly when one matches, and no later line matches |
| Parser.DatLinesMeaning | server/parser.go:56-86 | validateDAT's verdict on the lines is one of three things: the first line with a non-float token, numbered from 1 and counting skipped lines; "empty" exactly when every line is skipped; otherwise the field count of the last data line. A success is positive, and the column counts of different lines need not agree |
| Parser.DatLinesBadLine | server/parser.go:69-73 | the first line with a non-float token is the line the error names |
| Parser.DatLinesClean | server/parser.go:77-86 | with no bad line, the verdict is the field count of the last data line, or "empty" |
| Parser.SkippedLineIgnored | server/parser.go:60-67 | a blank or comment line changes the verdict only by shifting later error line numbers |
| Parser.DatStep | server/parser.go:56-80 | what one loop iteration of validateDAT learns from line `i` |
| Parser.ValidateDat | server/parser.go:42-87 | the loop returns exactly `DatVerdict`: "not text" before any line is read when the sniffed type is not text/plain, otherwise the verdict on the lines |
| Parser.HeaderVerdictMeaning | server/parser.go:90-121 | a success is the version of the first of lines 1 to 21 that declares one. "Not GNOM" is returned exactly when the data is text and none of those lines declares a version, and non-text is rejected first |
| Parser.HeaderVersionFound | server/parser.go:102-117 | a successful header verdict is the version of one of the first 21 lines, and no line before it declares a version |
| Parser.ParseGnomHeader | server/parser.go:90-121 | the loop, which tests the 21-line bound after matching, returns exactly `HeaderVerdict` |
| Parser.FindDataHeader | server/parser.go:129-146 | the first loop finds the first data header line, and the Dmax of the last "Maximum characteristic size" line before it |
| Parser.ScanFrom | server/parser.go:152-190 | a successful scan ends at or before the last line |
| Parser.ScanFromRows | server/parser.go:157-189 | every kept value is a float field, including a present error value. The scan ends at the last line or just after a terminator line |
| Parser.ScanFromErrors | server/parser.go:170-189 | a failed scan names a line, counting from 1, that has a non-float token or whose float count is neither 2 nor 5 |
| Parser.ScanSkipStep | server/parser.go:155-159 | blank and comment lines in the data section are passed over |
| Parser.ScanStopStep | server/parser.go:161-168 | any of the five terminator phrases ends the data section with the rows read so far |
| Parser.ScanErrorStep | server/parser.go:172-189 | a non-float token or a column count other than 2 or 5 ends the scan with that line's error |
| Parser.ScanRowStep | server/parser.go:180-186 | a data line yields the row (q, I, none) from 2 fields or (field 1, field 5, field 3) from 5 fields; the row joins the rows before it, and the fill value stays the first error value seen |
| Parser.ScanData | server/parser.go:148-190 | the second loop returns exactly `ScanFrom`, and with it the first error value of a 5-column row |
| Parser.FillSpec | server/parser.go:184-186 | the fill value is "" exactly when no row has an error value; otherwise it is that of the first row that has one |
| Parser.FillSnoc | server/parser.go:184-186 | a new row sets the fill value only while it is still "" |
| Parser.TailDmaxMeaning | server/parser.go:196-220 | the corrected fallback Dmax: 0 when no line after the data has three float tokens; otherwise the first value of the last such line, and a non-zero result always comes from such a line |
| Parser.TailDmaxAsWrittenMeaning | server/parser.go:196-220 | the fallback Dmax as written: 0 when no line after the data has three tokens; otherwise the parsed first token of the last such line, or 0 when that token is not a float |
| Parser.TailDmaxAgrees | server/parser.go:206-218 | the scan as written and the corrected scan agree when every three-token line after the data is made of floats |
| Parser.FallbackDmax | server/parser.go:196-220 | the third loop returns the fallback Dmax as written, `TailDmaxAsWritten` |
| Parser.RenderSnoc | server/parser.go:223-233 | each row adds one "q I err" line, with a missing error value filled, in input order |
| Parser.RenderRows | server/parser.go:222-233 | the output loop writes exactly `Render` of the rows |
| Parser.ConvertGnom | server/parser.go:126-236 | the converter returns exactly `ConvertVerdict`, which covers: no data header; the scan's error; "only two columns" when no 5-column row exists; otherwise the rendered rows with the leading Dmax, or, when that is 0, the fallback Dmax as written (see Findings) |
| Parser.RowTextShape | server/parser.go:227-232 | a rendered row is one line of three float fields that the DAT scanners do not skip |
| Parser.LinesOfRender | server/parser.go:222-233 | rendered text that the scanner reads to the end splits back into one scanner line per row |
| Parser.RenderedIsDat | server/parser.go:222-235 | a non-empty rendered table that the scanner reads to the end is a file that validateDAT accepts with three columns |
| Parser.ConvertedIsDat | server/parser.go:126-236 | every successful GNOM conversion whose output the scanner reads to the end yields a file that validateDAT accepts with three columns |
| Parser.TailDmaxDiscardedByTrailingText | server/parser.go:207-218 | as written, a trailing "R P E" line after the table "1 0 0" makes the fallback Dmax 0, while the intended scan gives 1 |
| Parser.TrailingTextDiscards | server/parser.go:207-218 | in general, a three-token line whose first token is not a float discards the Dmax of a three-float line before it in the code as written |
| Handlers.LinesCheckMeaning | server/handlers.go:153-169 | the line check passes exactly when every line, blank lines included, is three float tokens. Otherwise the error names the first bad line, counting from 1, as a format error (not 3 fields) or a number error |
| Handlers.SubmitAccepted | server/handlers.go:133-173 | a submission is accepted exactly when the data is non-empty, Dmax parses, the data is plain text of upload lines and the name has at most 255 bytes. The result is the parsed Dmax |
| Handlers.NameCheckedLast | server/handlers.go:171-173 | a name error means every data check passed |
| Handlers.BlankLineRejected | server/handlers.go:156-162 | a blank line anywhere rejects the upload, at the latest on its own line number |
| Handlers.UploadPassesDat | server/handlers.go:145-169 | an upload that submitJob accepts passes validateDAT with three columns, except when its first line is 64 KiB or longer: then validateDAT answers "empty" |
| Handlers.UnreadLinesAccepted | server/handlers.go:153-169 | as written, submitJob accepts an upload whose second line is 64 KiB or longer, whatever follows it; the fixed check rejects it at line 2 |
| Handlers.UploadPassesDatFixed | server/handlers.go:153-169 | with the scanner's stop treated as an error, an accepted upload is read to the end, is made of three-float lines only and passes validateDAT with three columns |
| Handlers.ValidateSubmission | server/handlers.go:133-173 | the checks, in the source's order, return exactly `SubmitCheck` |
| Handlers.QueueSubmission | server/handlers.go:175-185 | a queue failure returns the generic error, no job and an unchanged table. On success the job is new and queued, and its row is appended |
| Handlers.SubmitJob | server/handlers.go:133-186 | a job is returned exactly when the checks pass and the queue succeeds, holding the data, the parsed Dmax and the name, queued with the next id. A rejection returns the check's error, and any failure leaves the table unchanged |
| Base64Url.Encode | model/job.go:617 | the encoding has (4n+2)/3 characters, each from the URL-safe alphabet, with no padding |
| Base64Url.DecodeEncode | model/job.go:617 | decoding an encoding gives the bytes back |
| Base64Url.EncodeInjective | model/job.go:617 | different byte strings have different encodings |
| Base64Url.RandToken | model/job.go:614-618 | a token is 12 characters of the TokenRegex alphabet |
| Base64Url.RandTokenDecodes | model/job.go:614-618 | a token determines the nine random bytes it was made from |
| Params.ValuesOf | model/job.go:157-167 | the member values come in declaration order, each of its member's kind |
| Params.ParamsOfValues | model/job.go:157-167 | the parameters can be rebuilt from their member values |
| Params.DecodeEncodeString | model/job.go:169 | a JSON string literal reads back as the string |
| Params.DecodeEncodeInt | model/job.go:169 | a JSON integer reads back as the integer |
| Params.DecodeEncodeBool | model/job.go:169 | a JSON boolean reads back |
| Params.DecodeEncodeMembers | model/job.go:169 | the members of a JSON object read back in order |
| Params.DecodeEncodeParams | model/job.go:157-185 | unmarshalling the JSON that marshalling writes restores all eight parameters |
| Jobs.WithDefaults | model/job.go:290-304 | oversampling ≤ 0 becomes 3.0, electrons ≤ 0 become 10000, max steps ≤ 0 become 3000, and max runs ≤ 0 or > 20 become 20. In-range values and every other field are kept, so afterwards 1 ≤ max runs ≤ 20 |
| Jobs.WithDefaultsIdempotent | model/job.go:290-304 | applying the defaults twice is applying them once |
| Jobs.Queued | model/job.go:280-309 | a queued job is pending and stamped, with task "Not started", no progress, an empty message, a 12-character token and the parameters packed |
| Jobs.QueuedAs | model/job.go:354 | the insert's id becomes the job's id |
| Jobs.QueuedDecodes | model/job.go:280-309 | a queued job's token gives back its random bytes, and its packed parameters give back its parameters |
| Jobs.Job.Prepare | model/job.go:280-309 | the field updates QueueJob makes before its insert |
| Jobs.Job.ApplyDefaults | model/job.go:290-304 | the job's new state is `WithDefaults` of the old one |
| Jobs.Job.MarshallParams | model/job.go:157-177 | only `params` changes, to the JSON of the eight parameters |
| Jobs.Job.UnmarshallParams | model/job.go:179-185 | an empty `params` is a no-op success. Otherwise the decoded parameters replace the job's, or the call fails and, in this model, changes nothing |
| Jobs.MarshallUnmarshall | model/job.go:157-185 | marshalling then unmarshalling restores the parameters, whatever the job held before |
| Jobs.Job.URL | model/job.go:187-189 | the URL is the base URL, then "/job/", then the token |
| Jobs.URLDeterminesToken | model/job.go:187-189 | two jobs with the same URL have the same token |
| Jobs.Job.RunTime | model/job.go:191-208 | the run time is "" before the job starts. Otherwise it is the humanized time from the start to the completion, or to now while the job runs, with "now" reported as "0 seconds" |
| Jobs.Job.WaitTime | model/job.go:210-227 | the wait time is "" without a submission time. Otherwise it is the humanized time from the submission to the start, or to now, with "now" reported as "0 seconds" |
| Jobs.JobStore.QueueJob | model/job.go:273-360 | a failed begin changes nothing, and a failed insert leaves the job prepared and the table unchanged. Otherwise the job is queued with id = row count + 1 and its row is appended. Every stored parameter text stays readable |
| Jobs.OldestPending | model/job.go:394-396 | the selected row is pending |
| Jobs.OldestPendingSpec | model/job.go:394-396 | a row is found exactly when one is pending. No pending row was submitted earlier, and every pending row before it was submitted later |
| Jobs.Claimed | model/job.go:370-409 | the claimed job has the row's id and is running |
| Jobs.ClaimedReadable | model/job.go:401-404 | a claim never fails on parameters that the table's invariant keeps readable |
| Jobs.Started | model/job.go:411-413 | the claim's update keeps every stored parameter text |
| Jobs.ClaimLeavesPending | model/job.go:406-413 | a claimed row, and only it, leaves the pending rows, so it is never selected again |
| Jobs.JobStore.FetchNextPending | model/job.go:363-419 | a failed begin returns an error with the table unchanged, and so does a table with no pending row. Otherwise the oldest pending job is returned running from now, and only its status and start time are written |
| Jobs.Completed | model/job.go:487-495 | the completion's update keeps every stored parameter text |
| Jobs.JobStore.CompleteJob | model/job.go:476-501 | the job gets the supplied status, whatever it was before, and the completion time. Its row gets exactly the status, the four result blobs and the completion time |
| Jobs.Logged | model/job.go:600-605 | the logging update keeps every stored parameter text |
| Jobs.JobStore.LogJobMessage | model/job.go:589-611 | the task, the message and the unchecked percentage are set on the job and its row, and nothing else changes |
| Jobs.ListView | model/job.go:426-446 | the listed job carries its row's id and status |
| Jobs.Matching | model/job.go:444-450 | the filter keeps at most the rows it is given; what it keeps is stated by `Jobs.MatchingSpec` |
| Jobs.MatchingSpec | model/job.go:444-450 | the filter keeps exactly the rows that the job_status join keeps (status ids 1 to 4) and that have the requested status, or every such row when the status is not positive, in ascending order |
| Jobs.KnownStatusNamed | model/db.go:74-92 | a status id has a job_status row exactly when it has a name: the ids 1 to 4 |
| Jobs.SortDescPerm | model/job.go:451-461 | sorting rearranges the kept rows |
| Jobs.SortDescSorted | model/job.go:451-461 | the sorted rows are in descending order of the time column, NULL last |
| Jobs.SortedMatching | model/job.go:448-461 | the sorted rows are each kept row exactly once, in descending time order |
| Jobs.Window | model/job.go:464-465 | SQLite's limit and offset give the run of rows starting at the offset, where a negative offset means none and a negative limit means no limit |
| Jobs.WindowElements | model/job.go:464-465 | the window's elements are those of the sequence from the offset on |
| Jobs.ListingKeptRows | model/job.go:444-465 | the listing names only rows of the table that the join and the filter keep |
| Jobs.UnknownStatusNotListed | model/job.go:444-445 | a row whose status id has no job_status row is never listed, whatever the filter and the window |
| Jobs.ListingMeaning | model/job.go:444-465 | the listing holds rows with a job_status row and of the requested status only, each once, in descending order: by completion for Complete and Error, by start for Running, by submission otherwise. With no window it holds every such row |
| Jobs.JobStore.FetchAllJobs | model/job.go:422-473 | the jobs returned are the listing's rows, in the listing's order, each with its id and, under a filter, the requested status |
| Host.PathJoin | client/denss.go:87 | the path is the directory, a slash, then the name |
| Host.RunSeq | client/denss.go:110-122 | a series of runs logs one entry per run |
| Host.RunSeqLogs | client/denss.go:110-122 | the log lists the runs in the order they were made |
| Host.Machine.WriteFile | client/denss.go:88-95 | the write succeeds exactly when the path is writable; otherwise nothing changes |
| Host.Machine.ReadFile | client/zip.go:41-59 | the read succeeds exactly when the file exists, giving its contents or nil |
| Host.Machine.Stat | client/situs.go:68-89 | a stat succeeds exactly when the file exists |
| Host.Machine.Exec | client/denss.go:64-74 | a run's result and resulting files are the tool's, and the run is logged |
| Stage.InputName | client/denssall.go:39 | the name is "input." followed by the file type |
| Stage.OutputName | client/denssall.go:49 | the prefix is "output_" followed by the number |
| Stage.OutputNameInjective | client/denss.go:39 | different numbers give different output names |
| Stage.MrcPathInjective | client/situs.go:35 | each attempt has its own MRC file |
| Stage.SymmetryFlags | client/denssall.go:84-95 | -ncs is passed exactly when the symmetry is above 0. -ncs_axis and -ncs_steps come only with it, exactly when the axis is above 0 or the steps are given, each with its value |
| Stage.SymmetryInOrder | client/denssall.go:84-95 | the symmetry flags come in the order -ncs, -ncs_axis, -ncs_steps |
| Stage.SymmetryFits | client/denssall.go:84-95 | each symmetry flag comes with one value |
| Stage.AppendSymmetry | client/superdenss.go:94-105 | the guarded appends add exactly the symmetry options |
| Args.ParseFlatten | client/denssall.go:50-95 | a tool that knows each flag's arity reads a flat argument list back as the options it was built from |
| Args.FlattenInjective | client/denssall.go:50-95 | two option lists that fit an arity and are written the same are the same |
| DenssAll.BuildArgs | client/denssall.go:49-95 | the guarded appends produce exactly the flat options |
| DenssAll.Prefix | client/denssall.go:50-61 | the list starts `-f input.<type> -o output_<ID> -j <threads> --plot_off --quiet --mode <UPPER(mode)>` |
| DenssAll.Optional | client/denssall.go:63-83 | --gpu comes exactly with enable_gpu, --units with non-empty units, -en_off when the enantiomer search is off, -d with a positive Dmax and --ne with positive electrons |
| DenssAll.Symmetry | client/denssall.go:84-95 | the symmetry flags are nested as in the source |
| DenssAll.Values | client/denssall.go:63-95 | every value is the job's setting, formatted |
| DenssAll.InOrder | client/denssall.go:50-95 | the flags that are present come in the source's fixed order |
| DenssAll.OptsFit | client/denssall.go:50-95 | every option is a known flag with as many values as it takes |
| DenssAll.ParsesBack | client/denssall.go:50-95 | denss.all.py reads the list back as the options |
| DenssAll.RunDenssAll | client/denssall.go:35-120 | a failed input write is an error, and nothing runs. Otherwise the input is written, denss.all.py runs once in the work directory, and its failure is the error |
| Superdenss.BuildInner | client/superdenss.go:69-105 | the inner guarded appends produce exactly the flat inner options |
| Superdenss.BuildArgs | client/superdenss.go:49-108 | both lists are exactly the flat outer and inner options |
| Superdenss.InnerPrefix | client/superdenss.go:69-76 | the inner list starts `-os <oversampling> --plot_off --quiet --mode <UPPER(mode)>` |
| Superdenss.InnerOptional | client/superdenss.go:78-93 | -d, -v, --ne and -n come exactly when Dmax, voxel size, electrons and number of samples are above 0 |
| Superdenss.InnerSymmetry | client/superdenss.go:94-105 | the symmetry flags are nested as for denss.all.py |
| Superdenss.InnerInOrder | client/superdenss.go:69-105 | the inner flags come in the order -os, --plot_off, --quiet, --mode, -d, -v, --ne, -n, then the symmetry flags |
| Superdenss.InnerFits | client/superdenss.go:69-105 | every inner option has its flag's arity |
| Superdenss.InnerParsesBack | client/superdenss.go:69-105 | the inner list parses back as the inner options |
| Superdenss.InnerSplitsBack | client/superdenss.go:107-108 | splitting the -i argument on white space gives the inner list back, when the formatted numbers, the mode and the steps are single words |
| Superdenss.OuterPrefix | client/superdenss.go:49-58 | the outer list starts `-f input.<type> -o output_<ID> -j <threads> -p` |
| Superdenss.OuterOptional | client/superdenss.go:60-67 | -e comes exactly when the enantiomer search is on, and -n exactly when max runs is above 0 |
| Superdenss.EnantiomerPolarity | client/superdenss.go:60-62 | for the same job, exactly one of superdenss's -e and denss.all.py's -en_off is passed |
| Superdenss.OuterLast | client/superdenss.go:107-108 | the last two outer arguments are -i and the inner list joined with single spaces |
| Superdenss.OuterInOrder | client/superdenss.go:49-108 | the outer flags come in the source's fixed order |
| Superdenss.OuterParsesBack | client/superdenss.go:49-108 | superdenss reads the outer list back as its options |
| Superdenss.RunSuperdenss | client/superdenss.go:35-133 | a failed input write is an error, and nothing runs. Otherwise superdenss runs once, and its failure is the error |
| Denss.BuildArgs | client/denss.go:39-57 | the guarded appends produce exactly the flat options |
| Denss.ArgsPrefix | client/denss.go:39-48 | every attempt's list starts `-f <input> --oversampling <v> -o workDir/output_<thread> --plot_off` |
| Denss.Optional | client/denss.go:50-57 | -d and --voxel come exactly when Dmax and voxel size are above 0, with their values |
| Denss.ParsesBack | client/denss.go:39-57 | denss.py reads each attempt's list back as its options |
| Denss.PrefixInjective | client/denss.go:39 | different attempts write under different prefixes |
| Denss.Attempts | client/denss.go:110-119 | the attempts are one run per index |
| Denss.AttemptsDistinct | client/denss.go:110-119 | no two attempt indices give the same run |
| Denss.ExecDenss | client/denss.go:35-82 | the attempt is run in the work directory; its result is the tool's and is logged |
| Denss.RunAttempts | client/denss.go:110-132 | the loop runs attempts 0 to MaxRuns-1, each exactly once and in order. It reports a failure exactly when one of them fails |
| Denss.RunDenss | client/denss.go:85-140 | the input is written before any attempt, and a failed write is an error with no attempt run. Otherwise every attempt runs, and the stage fails exactly when an attempt fails |
| Eman2.MrcPaths | client/eman2.go:42-44 | the k-th path is `workDir/output_k.mrc` |
| Eman2.BuildStackArgs | client/eman2.go:36-44 | the loop builds exactly `StackArgs` |
| Eman2.StackListsAttempts | client/eman2.go:36-44 | the list is `--stackname workDir/stack.hdf`, then one MRC map per attempt in order, 2 + MaxRuns entries, none repeated. Each map is the file denss writes under the attempt's prefix |
| Eman2.BuildStack | client/eman2.go:35-71 | e2buildstacks.py runs once in the work directory, and its failure is the error |
| Eman2.AveragingReadsStack | client/eman2.go:78-83 | the averaging reads the stack that buildStack writes |
| Eman2.RunAveraging | client/eman2.go:74-189 | a failed averaging run or a missing final average is an error, with nothing more run and DensityMap unchanged. Otherwise the conversion runs, and its failure is an error with DensityMap unchanged. After it, DensityMap is the CCP4 file read, and a failed read is an error |
| Situs.ConvertsAttempt | client/situs.go:34-40 | map2map reads the map under the attempt's denss prefix and writes the map the stack lists for that attempt, a different file |
| Situs.ConvertToMrc | client/situs.go:33-99 | map2map runs with "2\n" on standard input. A failed run is an error, and so is a successful run that leaves no MRC file |
| Fsc.PathsApart | client/fsc.go:33-35 | the data and the chart are inside the work directory and are different files |
| Fsc.PlotFsc | client/fsc.go:32-82 | a failed plot is an error with FSCChart unchanged. Otherwise FSCChart is the PNG file read, and a failed read is an error |
| Summary.PathsApart | client/summary.go:32 | the chart is inside the work directory and is not the FSC chart |
| Summary.PlotSummary | client/summary.go:31-77 | a failed plot is an error with SummaryChart unchanged. Otherwise SummaryChart is the PNG file read, and a failed read is an error |
| Zip.Writer.CreateHeader | client/zip.go:79-87 | a new empty entry is added unless creation fails |
| Zip.Writer.Write | client/zip.go:88-96 | the last entry's body grows unless the write fails |
| Zip.Writer.Close | client/zip.go:99-106 | the archive's bytes are the layout of the entries written |
| Zip.Entries | client/zip.go:70-78 | one entry per file, in order, stored with mode 0600 and its body's size |
| Zip.ArchiveEntries | client/zip.go:61-78 | the archive has exactly four entries, in order: density-map.ccp4 (DensityMap), final_avg_ali2ref.hdf, fsc.png (FSCChart) and fsc_01.txt. Each is stored uncompressed with mode 0600 and size equal to its body's length |
| Zip.WriteEntry | client/zip.go:70-96 | one loop round adds the file's entry unless creating or writing it fails |
| Zip.WriteEntries | client/zip.go:70-97 | the loop succeeds exactly when no entry fails, and then the writer holds exactly `Entries` |
| Zip.CreateZip | client/zip.go:32-115 | a missing final average or FSC data file is an error, and so is any writer failure; RawData is unchanged in every error case. Otherwise RawData is the archive of the four files |

## Left out

- Concurrency in runDenss (`client/denss.go:97-132`) is not modelled:
  - Go starts every attempt at once and returns the first error the channel
    receives. The model runs the attempts one after another, each on the files
    the previous one left, and fails exactly when any attempt fails.
  - The source's race on the shared `err` is not modelled.
  - Neither is the goroutine that blocks on a second failure.
  - Nor is a return before later attempts finish.
  - Nor is the `select` at `client/denss.go:126-132`, which picks at random when
    both channels are ready. When the last attempt to finish fails, Go can take
    `finished` and return nil after a failed attempt; the model always fails.
- Denss.RunDenss and Denss.RunAttempts require MaxRuns ≥ 0, because
  `sync.WaitGroup.Add` panics on a negative count. QueueJob's defaults keep
  MaxRuns between 1 and 20.
- SQL, sqlx and transactions are not modelled:
  - The job table is a sequence of rows whose row k has id k + 1. Rows are
    never deleted, so the auto-increment key is the row count.
  - A failing begin or statement is the `DbFault` parameter.
  - An error from `LastInsertId` is not modelled.
  - Jobs.JobStore.FetchAllJobs: a failing select is not modelled.
  - The deferred commit is not modelled.
  - Atomicity of a claim is left to the database.
- FetchJob, FetchDensityMap, FetchFSCChart, FetchSummaryChart and FetchRawData
  (`model/job.go:231-586`) are single-row selects by token. They are not
  modelled beyond `Jobs.URLDeterminesToken`, which shows that a job's URL names
  its token.
- Library calls are oracle fields with uninterpreted results:
  - `strconv.ParseFloat`, `http.DetectContentType` and the regular expressions;
  - `%.4f` and `strings.ToUpper`;
  - `humanize.RelTime`, `time.Now` and `crypto/rand`;
  - the program runs, their timeouts and their combined output;
  - the `archive/zip` byte layout and its failure points.

  A timeout is a failed run. The log output is left out.
- `os.Stat` errors other than "does not exist" are not modelled. A file is
  either present or absent.
- `filepath.Join` is modelled as `dir + "/" + name`. This holds for a clean work
  directory and relative names; path cleaning is not modelled.
- Byte slices are strings whose characters stand for bytes. Content sniffing is
  an oracle, so no encoding is assumed.
- Text.TrimSpace and Text.Fields treat only the six ASCII white-space bytes as
  white space. Go's `strings.TrimSpace` and `strings.Fields` decode UTF-8 and
  also treat U+0085, U+00A0, U+1680, U+2000 to U+200A, U+2028, U+2029, U+202F,
  U+205F and U+3000 as white space. A line holding one of those encodings can
  get other fields here than in Go, and so other validateDAT and submitJob
  verdicts.
- Text.FieldsAreFields: a field is a run without ASCII white space; it can
  contain a multi-byte Unicode space, at which Go would split.
- Parser.ConvertedIsDat and Parser.RenderedIsDat hold only for output that the
  scanner reads to the end. A 2-column row with long fields, written with a long
  fill value, can make an output line of 64 KiB or more.
- Jobs.Job.UnmarshallParams decodes only the layout `MarshallParams` writes,
  and a failed decode changes nothing. Go's `json.Unmarshal` into the whole job
  accepts any JSON layout: other key orders, white space, missing or unknown
  keys, and `null`. On a type error it has already set the fields before the
  bad one.
- Params.DecodeEncodeParams: the encoder works character by character and
  copies every character other than the escaped ones. It escapes U+2028 and
  U+2029 as single characters, where Go escapes their three-byte UTF-8
  encodings. Go's `json.Marshal` also replaces invalid UTF-8 in Mode, Units or
  SymmetrySteps with U+FFFD, so for such bytes Go does not round-trip.
- Parser.FallbackDmax and Parser.FindDataHeader: `strconv.ParseFloat` is an
  oracle that is None on any error, and the model reads an ignored error as 0.
  Go's `dmax, _ = strconv.ParseFloat(...)` (`server/parser.go:137` and `:216`)
  keeps ±Inf when the error is a range error, such as "1e999", and denss then
  gets `-d +Inf`. The model gives Dmax 0 there, and Parser.TailDmaxAsWrittenMeaning
  states 0 too.
- Handlers.SubmitAccepted: Dmax is a real. submitJob also accepts "NaN", "Inf"
  and "infinity" (`server/handlers.go:138`), and a NaN Dmax fails every
  `job.Dmax > 0` test in the stages. Float64 rounding and the special values
  are not modelled.
- Jobs.OldestPending and Jobs.SortDescSorted fix an order among rows with equal
  times. OldestPending takes the first in table order, and the listing keeps
  table order. SQL's `order by` leaves that order open.
- Eman2.RunAveraging, Fsc.PlotFsc and Summary.PlotSummary set the job field to
  "" when the read fails. Go's `ioutil.ReadFile` returns nil there, and nil and
  an empty slice are the same value in this model.
- Superdenss.InnerSplitsBack holds only when the formatted numbers, the
  upper-cased mode and the symmetry steps are single words. An empty mode, or
  steps with spaces, change the field count that superdenss sees.
- `client/client.go` is an older revision of the worker and is not part of this
  model.
- Not modelled, because none of it is part of the core:
  - the worker's polling loop;
  - the progress checkpoints;
  - e-mail notification and work directory cleanup;
  - the HTTP handlers other than submitJob, routing and templates;
  - the command line;
  - the viewer and the chart scripts.

## Findings

| source | as written | input that shows it | evidently intended | confidence | as-written member | corrected member |
|---|---|---|---|---|---|---|
| server/parser.go:212-218 | the `continue` inside the token loop moves on to the next token only, so any three-token line after the data is taken as the Dmax row. Its first token is parsed with the error ignored, so a non-numeric line gives Dmax 0 | a distance table whose last row is "1 0 0", followed by a three-word line "R P E": the fallback Dmax is 0 instead of 1 | skip lines whose tokens are not all floats, so that Dmax is the first value of the last three-float line | not executed | Parser.TailDmaxDiscardedByTrailingText | Parser.TailDmaxMeaning |
| server/handlers.go:153-169 | the scanner stops at a line of 64 KiB or more and the loop ends as if at the end of the input, because `scanner.Err()` is never checked; the upload is then accepted with the rest of the file unchecked | "1 2 3\n", then 65,536 × "x", then "\njunk\n": submitJob accepts and queues it | report the scanner's error as a bad line, so that an accepted upload has been read to the end | not executed | Handlers.UnreadLinesAccepted | Handlers.UploadPassesDatFixed |
