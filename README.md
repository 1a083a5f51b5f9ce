# Exoskeleton backend: recording core in Dafny

This project models the sequential core of the exoskeleton GUI backend, a Flask
service on a Raspberry Pi that records serial telemetry from a
micro-controller. It covers three parts:

- **Recording-session controller.** The one global slot `DATARECTHREAD` (empty,
  or a recorder thread that is alive or dead) with its start, stop and status
  endpoints, and the log file path built from the patient, session and record
  identifiers.
- **Recorder thread.** `SerialDataRecorder`: the poll loop that drains waiting
  serial bytes into the log file, counts them, takes at most one queue message
  per pass, stops on `STOP` and then closes the port.
- **Telemetry window.** The log read as CSV, columns renamed `V0..`, a time
  column `t` added, and rows `[-1000:-20]` returned as records. The rows are
  picked by position, except on an index of float dtype, which pandas (before
  version 3.0) slices by label.

It also covers the small helpers next to them:

- the firmware-name check;
- the `st-info --probe` output parser;
- the serial-device filter and the port listing;
- the POST merge of the serial settings;
- the `sub_`/`sess_` directory filters and the hidden-name rule of the data browser.

Module layout:

- `text.dfy` (module `Text`): the Python string operations the backend uses.
  These are `in`, `lower`, `strip`, `find`, `rfind`, `split`, `join` and decimal
  formatting.
- `firmware.dfy`, `probe.dfy`, `ports.dfy`, `settings.dfy`, `datafiles.dfy`:
  the helpers of `backend/main.py`.
- `telemetry.dfy`: `get_plot_data_dict`.
- `recorder.dfy`: `backend/utils.py`.
  - `RunLoop` is the loop as a function over a script of steps.
  - The class `SerialDataRecorder` has the thread's fields.
  - `SerialDataRecorder.Run` is the loop itself, proved equal to `RunLoop`.
- `controller.dfy`: `DATARECTHREAD` as the class `RecordingController`.
- `wrappers.dfy`: `Option`.

Time, threads and the serial driver are abstracted.

- One loop pass is one step of a script. A step is either `Poll(chunk, posted)` or `Fault`:
  - `chunk` is the bytes `inWaiting()` reports;
  - `posted` is the messages other threads put on the queue meanwhile;
  - `Fault` is an exception from the driver or from decoding.
- Whether a thread is alive is a flag.
- Whether a new recorder survives the half-second grace wait is an argument of `Start`.

## Model

| member | source | states |
|---|---|---|
| Firmware.AllowedFile | backend/main.py:156-158 | defines `allowed_file`: the name contains `.` and the lower-cased text after the last `.` is the allowed extension `bin`; its meaning is stated by `AllowedFileIffBinSuffix` |
| Firmware.AllowedFileIffBinSuffix | backend/main.py:156-158 | a name is accepted iff it has a `.` and the text after the last `.`, lower-cased, is `bin`; equivalently it ends in `.` plus three characters lowering to `bin` |
| Text.FindLast | backend/main.py:158 | `rsplit('.', 1)` cuts at the last occurrence: -1 iff absent, otherwise the index holds the character and no later index does |
| Text.Find | backend/main.py:212 | `find(':')`: -1 iff absent, otherwise the first occurrence |
| Text.Strip | backend/main.py:212 | `strip()` returns an infix of its argument that neither starts nor ends with whitespace, with only whitespace cut at both ends |
| Text.StripPadded | backend/main.py:212 | `strip()` of a text with non-space ends, surrounded by any whitespace on either side, is exactly that text |
| Text.JoinSplit | backend/main.py:206 | `split('\n')` loses nothing: joining the pieces with the separator gives the text back |
| Text.SplitPiecesHaveNoSeparator | backend/main.py:206 | no piece of `split(sep)` contains `sep` |
| Text.SplitJoin | backend/main.py:280-281 | splitting a join of separator-free parts gives back the parts |
| Text.Lower | backend/main.py:246-247 | `lower()` keeps the length and lowers each character |
| Text.Decimal | backend/main.py:316 | `'{}'.format(c)` of a natural number is a non-empty string of digits, two or more exactly when `c >= 10` |
| Text.DigitsValueSnoc | backend/main.py:316 | reading one more digit on the right multiplies the value read so far by ten and adds the digit |
| Text.DecimalValue | backend/main.py:316 | the digits of `'{}'.format(c)`, read left to right as a decimal numeral, denote `c`, with no leading zero unless `c == 0` |
| Text.DecimalInjective | backend/main.py:316 | different numbers format differently (each rendering denotes its own number) |
| Probe.MicrocontrollerInfo | backend/main.py:201-214 | the loop yields the disconnected error for the exact message, and otherwise the dictionary `InfoDict` of the `\n`-split output |
| Probe.ProbeReport | backend/main.py:203-212 | defines the answer as written: the disconnected error iff the output equals the message exactly, otherwise `InfoDict` of the `\n`-split output |
| Probe.InfoDict | backend/main.py:208-212 | defines the dictionary after the loop over the lines, folding `Absorb` over them in order |
| Probe.Absorb | backend/main.py:211-212 | defines one turn of the loop: a line holding `:` sets its key to its value, any other line changes nothing |
| Probe.ValueOf | backend/main.py:212 | defines the value as the stripped text after the line's first `:` |
| Probe.KeyOf | backend/main.py:212 | a key never contains `:`: it is cut before the line's first colon |
| Probe.InfoDictKeys | backend/main.py:210-212 | the keys are exactly the keys of the lines holding a `:` |
| Probe.InfoDictLastWins | backend/main.py:210-212 | a key maps to the value of the last line that carries it |
| Probe.InfoDictIgnoresPlainLines | backend/main.py:211 | a line without `:` leaves the dictionary unchanged |
| Probe.NoColonNoInfo | backend/main.py:203-212 | output without any `:` (other than the exact message) gives an empty dictionary |
| Probe.ProbeMissesNewlineTerminatedMessage | backend/main.py:203 | the message followed by a newline is not recognised and gives an empty dictionary |
| Probe.ProbeReportIntended | backend/main.py:203-214 | the corrected test: the disconnected error whenever the stripped output is the message, and for every other output exactly the answer of the test as written (`ProbeReport`) |
| Probe.ProbeIntendedRecognisesPaddedMessage | backend/main.py:203-204 | the corrected test recognises the message with any whitespace before and after it |
| Probe.ProbeIntendedRecognisesMessage | backend/main.py:203-204 | the corrected test recognises the message bare and newline-terminated |
| Ports.FilterDev | backend/main.py:245-250 | defines `filter_dev` as written: lower-case the name, then test for `cu`, `usb`, `acm` and `S0` |
| Ports.LowerHasNoS0 | backend/main.py:246-247 | a lower-cased name never contains `S0` |
| Ports.FilterDevIgnoresS0 | backend/main.py:245-250 | `filter_dev(d)` holds iff `lower(d)` contains `cu`, `usb` or `acm` |
| Ports.FilterDevIntended | backend/main.py:247 | the corrected filter keeps exactly what the written one keeps plus the names containing `S0` |
| Ports.FilterDevMissesTtyS0 | backend/main.py:247 | `ttyS0` is dropped by the written filter and kept by the corrected one |
| Ports.DevPaths | backend/main.py:253 | a path is in the comprehension iff it is `/dev/` plus a kept name; no longer than the listing |
| Ports.DevPathsOne | backend/main.py:253 | a single name gives `/dev/<name>` when it is kept and nothing otherwise |
| Ports.DevPathsCounts | backend/main.py:253 | `/dev/d` occurs as often as `d` is listed when `d` is kept, and not at all otherwise |
| Ports.DevPathsAppend | backend/main.py:253 | the paths of a listing are the paths of its pieces in the same order; with `DevPathsOne` this fixes the order of the answer |
| Ports.FilteredDevs | backend/main.py:253 | defines the list `filtered_devs` as `DevPaths` with the filter as written |
| Ports.Ports | backend/main.py:252-258 | the answer is the directory listing entry for entry |
| Ports.PortsReturnsUnfiltered | backend/main.py:253-255 | a name no filter keeps (`null`) is still in the answer, while the filtered list is empty |
| Ports.PortsIntended | backend/main.py:253-255 | the corrected answer holds exactly `/dev/` plus each name the corrected filter keeps, as often as the name is listed; `DevPathsAppend` gives its order |
| SerialSettings.Truthy | backend/main.py:76-79 | defines Python truthiness of a decoded value: `None`, `False`, zero and empty strings, lists and objects are false |
| SerialSettings.AssignIfTruthy | backend/main.py:77-80 | defines the guarded assignment: a truthy value is assigned into the `serial` table, and otherwise the document is kept |
| SerialSettings.Assign | backend/main.py:78-80 | the nested assignment succeeds iff the `serial` table exists and is a table, and keeps the document's tables |
| SerialSettings.PostSerial | backend/main.py:67-90 | a non-object body raises exactly AttributeError; a missing `serial` value is a KeyError; a non-table one is a TypeError when something is assigned and is answered as it is otherwise; written back iff the body is non-empty; the answer is the serial value; port/baud replaced only by truthy values (a key is added to the serial table only for a truthy value, no other key appears or disappears); everything else kept |
| SerialSettings.SettingsSerialPost | backend/main.py:67-90 | the in-place steps of the endpoint produce exactly `PostSerial` |
| DataFiles.SliceEqualsIsPrefix | backend/main.py:414 | `i[:4] == 'sub_'` is a prefix test, also for names shorter than the prefix |
| DataFiles.WithPrefix | backend/main.py:413-414 | the kept names are exactly the listed names starting with the prefix |
| DataFiles.WithPrefixOne | backend/main.py:414 | a single name is kept exactly when it starts with the prefix |
| DataFiles.WithPrefixCounts | backend/main.py:414 | a name starting with the prefix is kept as often as it is listed, any other name never |
| DataFiles.WithPrefixAppend | backend/main.py:414 | filtering a listing is filtering its pieces in the same order; with `WithPrefixOne` this fixes the order of the answer |
| DataFiles.DirNames | backend/main.py:411 | the names are exactly those of the entries that are directories; files are dropped |
| DataFiles.DirNamesCounts | backend/main.py:411 | a name occurs as often as a directory entry with that name is listed |
| DataFiles.DirNamesOne | backend/main.py:411 | a single entry gives its name when it is a directory and nothing otherwise |
| DataFiles.DirNamesAppend | backend/main.py:411 | the names of a listing are the names of its pieces in the same order; with `DirNamesOne` this fixes the order of the answer |
| DataFiles.SubjectDirs | backend/main.py:408-416 | subjects are the directories whose name starts with `sub_`, each as often as it is listed |
| DataFiles.SessionDirs | backend/main.py:426-442 | no subject gives the error and only then; otherwise the directories whose name starts with `sess_`, each as often as it is listed |
| DataFiles.ListingsAppend | backend/main.py:411-414 | both listings keep the order of the directory listing: the answer for a listing is the answers for its pieces, in order |
| DataFiles.IsHidden | backend/main.py:388 | defines the hidden rule: a name is hidden unless its first character is an ASCII letter |
| DataFiles.FileItems | backend/main.py:382-391 | one item per entry, with name and id the entry's name, its kind, and hidden iff the first character is not an ASCII letter |
| DataFiles.SubjectDirsAreVisible | backend/main.py:388 | no subject directory is flagged hidden |
| Telemetry.IndexColumns | backend/main.py:313 | the index takes the first data line's surplus of fields over the header, and none when it has no surplus |
| Telemetry.ReadCsv | backend/main.py:313 | parsing succeeds iff there is a non-empty header and no data line is longer than the header plus the index fields; one row per data line, header width |
| Telemetry.PadRow | backend/main.py:313 | a short row keeps its fields in order and is padded with missing cells to the header width |
| Telemetry.DataRow | backend/main.py:313 | a row's cell `c` is the line's field just after the index fields at position `c`, or missing when the line is shorter |
| Telemetry.ReadCsvRows | backend/main.py:313 | every row is its data line without the index fields, padded, one cell per column, no time stamps |
| Telemetry.TornFirstLineParses | backend/main.py:313 | for example, a log whose header was cut short parses, with the first data line's extra field as index and the fields after it as data |
| Telemetry.ColumnNamesDistinct | backend/main.py:316 | the names `V<c>` are pairwise distinct and never `t` |
| Telemetry.RecordOf | backend/main.py:316-320 | defines a record: the row's cells under `V0`, `V1`, ..., plus `t` set to the row's position |
| Telemetry.RecordOfCells | backend/main.py:316-325 | a record has exactly the keys `V0..V(k-1)` and `t`, each column's cell, and `t` the row's position |
| Telemetry.Frame | backend/main.py:316-320 | one record per parsed row |
| Telemetry.SliceBound | backend/main.py:323 | a slice bound is clamped into `[0, n]` |
| Telemetry.PySlice | backend/main.py:323 | `s[start:stop]` has `max(0, hi-lo)` elements, element `k` being `s[lo+k]`, with `lo` and `hi` the adjusted bounds |
| Telemetry.WindowBounds | backend/main.py:323 | `s[-1000:-20]` is `s[max(0,n-1000) .. max(0,n-20)]`: at most 980 rows, empty iff `n <= 20`, 980 when `n >= 1000` |
| Telemetry.FrameWindow | backend/main.py:316-325 | the window's `j`-th record is row `max(0,n-1000)+j`, which is never among the last 20 |
| Telemetry.LabelOf | backend/main.py:313 | an index field gives a label exactly when it reads as a number; a missing one is NaN |
| Telemetry.RowIndexOf | backend/main.py:313 | the index has float dtype exactly when it is one column of numbers or missing values with at least one float or missing value, and then its labels are those fields in row order; otherwise rows are picked by position |
| Telemetry.Leading | backend/main.py:323 | `searchsorted`: the labels before the position found compare with the bound, the one at it does not |
| Telemetry.LeadingGrows | backend/main.py:323 | a weaker comparison never finds an earlier position |
| Telemetry.FirstAt | backend/main.py:323 | the first row labelled `x`: none before it, and it carries `x` unless there is none |
| Telemetry.EndAt | backend/main.py:323 | one past the last row labelled `x`: none after it, and the row before it carries `x` |
| Telemetry.Block | backend/main.py:323 | `get_loc` on an unsorted index: the rows labelled `x` are exactly the block found; with no block, `x` is absent or its rows are scattered |
| Telemetry.LabelWindow | backend/main.py:323 | the label slice `[-1000:-20]` is a range of positions within the index, or the error |
| Telemetry.AscendingWindow | backend/main.py:323 | on an ascending index the slice runs from the first label not below -1000 to the first label above -20 |
| Telemetry.AscendingSplit | backend/main.py:323 | on an ascending index `searchsorted` splits the labels into those that compare with the bound and those that do not |
| Telemetry.AscendingLabelsInWindow | backend/main.py:323 | on an ascending index a row is in the slice exactly when its label lies in `[-1000, -20]` |
| Telemetry.DescendingWindow | backend/main.py:323 | on a descending, non-constant index the slice is empty |
| Telemetry.PlotData | backend/main.py:310-327 | defines `get_plot_data_dict`: parse, build the frame, take the window by position, or by label on a float index; any failure gives no data |
| Telemetry.PlotDataFloat | backend/main.py:310-327 | on a float index the answer is the frame's rows in the label slice, or no data when pandas raises |
| Telemetry.PlotDataWindow | backend/main.py:310-327 | for a parsed log picked by position, the answer is the window `[max(0,n-1000), max(0,n-20))` row by row |
| Telemetry.PlotDataByLabel | backend/main.py:310-327 | for a parsed log with an ascending float index, the answer is the block of rows labelled from -1000 to -20, and every such row is in it |
| Telemetry.PlotDataDescending | backend/main.py:310-327 | a descending, non-constant float index gives an empty answer |
| Telemetry.PlotDataUnsortedMissingBound | backend/main.py:310-327 | an unsorted float index (one with a NaN label included) that lacks the label -1000 or -20 gives no data |
| Telemetry.FloatIndexInWindow | backend/main.py:310-327 | for example, a three-line log indexed by -30.5 and -25.5 gives both its rows, where a positional slice would give none |
| Telemetry.FloatIndexAboveWindow | backend/main.py:310-327 | for example, a log indexed by 0.5 and 1.5 gives no rows |
| Telemetry.FloatIndexUnsorted | backend/main.py:310-327 | for example, a log indexed by 1.5, 0.25, 3 gives no data |
| Telemetry.ShortLogGivesEmptyWindow | backend/main.py:323 | a log of at most 21 lines picked by position gives no rows (or the failure) |
| Recorder.RunLoop | backend/utils.py:31-46 | the loop runs at most one pass per step, only over polls; it ends by running out of steps, on a fault, or after at least one pass on `STOP` |
| Recorder.RunLoopWrites | backend/utils.py:34-38 | the log grows by exactly the chunks of the completed passes, in order, including the pass that took `STOP`; the counter by their length |
| Recorder.RunFromStartWritesChunks | backend/utils.py:29-38 | from the `'w'`-opened empty log and a zero counter, the log is the chunks read and the counter is its length |
| Recorder.LogOnlyGrows | backend/utils.py:37-38 | the log only grows and the counter never decreases |
| Recorder.Iterate | backend/utils.py:32-46 | defines one pass: posted messages join the queue, waiting bytes are appended and counted, and at most one message is taken |
| Recorder.IterateMessages | backend/utils.py:40-46 | one pass loses no message, takes at most one, and stops iff the one taken is `STOP` |
| Recorder.RunLoopKeepsMessageOrder | backend/utils.py:40-46 | queued plus posted equals taken plus still queued, in order; at most one message per pass |
| Recorder.RunLoopStopsOnFirstStop | backend/utils.py:41-44 | the loop stops iff one of the messages it took is `STOP` |
| Recorder.RunLoopStopIsLastTaken | backend/utils.py:41-44 | when it stops, the last message it took is `STOP` |
| Recorder.QuietQueueKeepsPolling | backend/utils.py:45-46 | an empty queue never stops the loop |
| Recorder.StopLatency | backend/utils.py:40-44 | a `STOP` behind `k` other messages ends the loop in pass `k+1` |
| Recorder.SerialDataRecorder.constructor | backend/utils.py:7-15 | stores port, baud and log file; no port object, an empty queue, no identifiers |
| Recorder.SerialDataRecorder.WithDefaultLog | backend/utils.py:7-15 | without a log file argument the recorder logs to `log.txt` |
| Recorder.SerialDataRecorder.WithSession | backend/main.py:284-289 | the recorder the controller asks for: the same, also keeping patient, session and record |
| Recorder.SerialDataRecorder.Start | backend/main.py:290-294 | the thread is marked started, and it is alive after the grace wait exactly when the given outcome says so |
| Recorder.SerialDataRecorder.StopRecording | backend/utils.py:54-59 | exactly one `STOP` is appended to the queue and nothing else changes |
| Recorder.SerialDataRecorder.PollOnce | backend/utils.py:34-46 | one pass on the fields is exactly `Iterate` |
| Recorder.SerialDataRecorder.Run | backend/utils.py:19-52 | log, queue, liveness and answer are those of `RunLoop`; the port is closed exactly once, only on `STOP`; a fault leaves it open; a port that fails to open ends the thread; a log file that fails to open ends it with the port left open and nothing logged |
| Controller.LogPath | backend/main.py:279-281 | defines the log file as `root/EXPDATA/sub_<p>/sess_<s>/rec_<r>.csv` |
| Controller.LogPathInjective | backend/main.py:279-281 | for identifiers without `/`, different recordings get different log files |
| Controller.LogPathCollision | backend/main.py:280-281 | identifiers holding `/` can give two different recordings the same log file |
| Controller.UnexpectedMembers | backend/main.py:284-289 | a keyword is unexpected iff it is passed and not a declared parameter |
| Controller.StartCallHasUnexpectedKeywords | backend/main.py:284-289 | the start call passes `patient`, `session` and `record`, which `__init__` does not declare |
| Controller.RecordingController.AtMostOneAlive | backend/main.py:283 | only the recorder in the slot can be alive |
| Controller.RecordingController.constructor | backend/main.py:25 | the slot starts empty |
| Controller.RecordingController.Start | backend/main.py:283-299 | empty or dead slot: a fresh started recorder with the identifiers and the log path, RECORDING iff alive after the wait, else ERROR; live slot: unchanged, RECORDING |
| Controller.RecordingController.StartAsWritten | backend/main.py:283-289 | with the call as written, an empty or dead slot raises TypeError before the slot is assigned; the model lists all three undeclared keywords, while CPython names only the first, `patient`; a live slot answers RECORDING |
| Controller.RecordingController.Stop | backend/main.py:353-361 | always FINISHED; empty slot unchanged; live recorder gets exactly one STOP and stays; dead recorder is dropped |
| Controller.RecordingController.Status | backend/main.py:330-342 | empty slot: FINISHED, no data; else RECORDING if alive, FINISHED if not, with the identifiers and the plot window; AttributeError for a recorder without identifiers |
| Controller.IdleController | backend/main.py:341-354 | before any start, stop answers FINISHED and status answers FINISHED with no data |
| Controller.AsWrittenNeverRecords | backend/main.py:283-297 | as written, every start raises and status keeps answering FINISHED with no data |
| Controller.StartStopScenario | backend/main.py:283-340 | start, start again, stop: RECORDING twice, FINISHED, then RECORDING with the identifiers until the thread ends |
| Controller.StopRightAfterStart | backend/main.py:283-361 | a stop right after a start, the thread then running to its end: RECORDING, FINISHED, the loop returns 0 bytes, the port is closed exactly once, and status answers FINISHED with the identifiers |

## Left out

- HTTP plumbing: Flask routing, `jsonify`, CORS, request parsing and the firmware upload with `secure_filename`.
  The request body and query values are inputs of the modelled functions.
- TOML load and dump of the configuration, and the default-configuration bootstrap (backend/main.py:516-535).
  The document is a value passed in and returned. That bootstrap names `utils.DEFAULT_CONFIG`, which `backend/utils.py` does not define.
- `settings_control`, `settings_assistance`, `reflash_firmware`, `data_records` and `data_record`.
  Each is file or process I/O with no logic beyond a lookup.
- The `GET` branch of `settings_serial`, which is a lookup of the `serial` table.
- Running `st-info` and the UTF-8 decoding of its output. The decoded text is the input of the parser.
- `os.listdir`, `Path.glob`, `is_dir` and `is_file`: listings are inputs.
  `FileItems` requires non-empty names, as glob never yields an empty component.
- `pd.read_csv` beyond its shape, which is modelled as follows:
  - the file arrives as its non-blank lines, already cut into fields;
  - the header, the implicit index taken from a longer first data line, and the padding of short lines are modelled;
  - of type inference, only its verdict on the index fields is modelled: a `classify` argument says how each field reads (integer, float, missing or text), and from it follow the index dtype and whether `df[-1000:-20]` slices by label;
  - the parsing of number literals, quoting and blank-line handling are not modelled;
  - any exception is the `None` result.
- Telemetry.RecordOfCells: the time column is the integer number of hundredths `i`.
  The float `float('{:.2f}'.format(i*0.01))` is not modelled.
- Threads, `is_alive`, `time.sleep` and queue thread-safety:
  - a loop pass is one script step;
  - liveness is a flag;
  - the grace-wait outcome is an argument;
  - interleavings other than "posted during a pass" are not modelled.
- The pyserial driver and `decode('utf-8')`:
  - chunks are byte sequences written to the log as read;
  - a driver or decoding error is a `Fault` step;
  - a port that fails to open is the `opens` argument of `Run`;
  - a log file that fails to open is the `logOpens` argument of `Run`.
- `print` calls in `run`.
- Recorder.SerialDataRecorder.Run: a run that has not met `STOP` or a fault when the script ends reports `StillPolling`.
  The real loop has no end until `STOP` arrives.
- Controller.RecordingController.Start: the recorder's thread is the separate `Run` call, made after the start answer.
  The passes the thread makes during the half-second grace wait are not interleaved with the endpoint.
  So `Start` describes the recorder before its thread has run (`spobj` empty, empty log), and only its liveness after the wait, an argument, stands for what the thread did meanwhile.
- Controller.LogPath: the path is the text `root/EXPDATA/sub_<p>/sess_<s>/rec_<r>.csv`, with the root written without a trailing `/`.
  `pathlib` normalisation of odd identifiers is not modelled, and neither is the formatting of a missing identifier as `None`.
- The lookups `settings_dict['serial']['port']` and `['baud']` in `start_data_record`:
  port and baud are arguments of `Start`, and a missing table is not modelled there.
- Text.Lower: only ASCII letters are lowered, one character to one character.
  Python also lowers other characters, and `İ` (U+0130) even lowers to two characters, `i` followed by U+0307.
  The only non-ASCII characters whose lower-case form holds an ASCII letter are `İ` (to `i` plus U+0307) and the Kelvin sign (to `k`).
  The port markers `cu`, `usb` and `acm` hold neither `i` nor `k`.
  An extension that lowers to exactly `bin` cannot hold `İ`, which would add the U+0307.
  So every comparison the model makes agrees with Python's.
- src/main.py, a display demo, is not part of this model.

## Findings

| source | as written | input that shows it | evidently intended | confidence | as-written member | corrected member |
|---|---|---|---|---|---|---|
| backend/main.py:284-289 | the recorder is constructed with keywords `patient`, `session`, `record` that `SerialDataRecorder.__init__` (backend/utils.py:7) does not declare, so the call raises TypeError and the slot is never filled; status then reads the identifiers back (backend/main.py:331-333) | any `/record/start` with an empty slot | the recorder accepts and keeps the three identifiers | high; not executed | Controller.RecordingController.StartAsWritten | Controller.RecordingController.Start |
| backend/main.py:247 | `'S0' in dev` is tested after `dev` was lower-cased, so it never holds | device name `ttyS0` | test `S0` on the name as listed | high; not executed | Ports.FilterDevMissesTtyS0 | Ports.FilterDevIntended |
| backend/main.py:253-255 | `filtered_devs` is computed but the answer carries the unfiltered `devs` | listing `["null"]` | answer with `filtered_devs` | high; not executed | Ports.PortsReturnsUnfiltered | Ports.PortsIntended |
| backend/main.py:203 | the output is compared for exact equality with `Found 0 stlink programmers`, while the tool ends that line with a newline | output `Found 0 stlink programmers\n` | compare the stripped output | medium (depends on the tool's output); not executed | Probe.ProbeMissesNewlineTerminatedMessage | Probe.ProbeReportIntended |
