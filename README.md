# MotionDetector core, modelled in Dafny

This project models the processing core of MotionDetector. MotionDetector is a
PyQt desktop program that watches a camera, finds moving regions in each frame,
and reacts to them:

- it draws the regions on the displayed frame;
- it logs their centres to files;
- it streams frames to network clients;
- it mails a short GIF to email subscribers.

Each core source file becomes one Dafny module:

| module | source file | what it holds |
|---|---|---|
| `Wrappers` | — | `Option`, `Result` and `Outcome`. Python exceptions become `Error` values. |
| `Utils` | `utils.py` | The column mean of a list of points and the reduced aspect ratio. |
| `MovementTracking` | `frame_processors/movementTracker.py` | The three single-shot Qt timers that turn "movement present" into "continuous movement started or stopped". |
| `FrameTransformation` | `frame_processors/frameTransformator.py` | The contour calculator: area filter, weighted centre of mass, inertia queue and tolerance counter. Also the transformator's settings parsing, resolution handling and per-frame pipeline. |
| `WorkerThreads` | `workerThreadController.py` | Named groups of worker threads, their reuse, start and stop, and the removal of a worker by id. |
| `NetworkStreaming` | `frameToNetworkStreamer.py` | The latest-wins frame slot and the wire format: a 4-byte length, then the JPEG bytes. |
| `CoordinateLogging` | shared by the two loggers | Coordinate scaling, the logging resolution and the settings values. |
| `MovementLogging` | `movementLogger.py` | The movement logger. |
| `EventLogging` | `eventLogger.py` | The event logger. |
| `EmailNotifications` | `emailSubscribersController.py` | The subscriber table, back-off selection, sending and loading. Also the GIF creator. |
| `FrameDrawing` | `frame_processors/frameDrawer.py` | The overlay drawn on a frame, as an ordered trace of draw commands. |

Objects whose slots update their fields are classes with `modifies` clauses.

Pure computations are functions, with lemmas for what the program promises.
Examples are round trips, bounds, both directions of each iff, "the rest is
unchanged" and convergence of the inertia mean.

Loops in the source are methods with loop invariants, proved against a
specification function. These are:

- the centre of mass;
- sending to subscribers;
- loading subscribers;
- draining the pending log queue;
- writing event entries;
- drawing objects, rectangles and shapes.

OpenCV, the JPEG and GIF encoders, the SMTP client, the clock, the uuid
generator and file I/O are left opaque. They appear as function-typed
parameters or fields, or as explicit success/failure inputs.

## Model

| member | source | states |
|---|---|---|
| Utils.MeanByColumn | utils.py:51-53 | The column-wise floor mean is absent exactly for an empty list. Otherwise each coordinate is the floor of its column sum divided by the length. |
| Utils.ColumnSumBounds | utils.py:51-53 | A column sum lies between length·lo and length·hi when every entry of the column lies in [lo, hi]. |
| Utils.MeanWithinColumnBounds | utils.py:51-53 | The floor mean of a column lies within the bounds of its entries. |
| Utils.MeanOfConstant | utils.py:51-53 | The mean of a non-empty list of copies of one point is that point. |
| Utils.AspectRatio | utils.py:61-64 | `math.gcd` with `//`. It fails (division by zero) exactly when width and height are both 0. Otherwise the result is proportional to (width, height) and coprime. |
| Utils.GcdDivides | utils.py:63 | gcd(a, b) divides both a and b. |
| Utils.GcdGreatest | utils.py:63 | Every common divisor of a and b divides gcd(a, b). |
| Utils.ReducedByGcd | utils.py:61-64 | Multiplying the ratio back by the gcd gives width and height. |
| Utils.ReducedHasNoCommonFactor | utils.py:61-64 | The two parts of the reduced ratio have no common factor greater than 1. |
| Utils.AspectRatioIdempotent | utils.py:61-64 | Reducing an already reduced ratio gives it back. |
| Utils.ScaleByAspectRatio | utils.py:61-64 | Scaling a width by the reduced ratio gives the same height as scaling by the raw resolution. |
| MovementTracking.DefaultParams | frame_processors/movementTracker.py:6-9 | The tracker parameters carry the given thresholds and an inactivity tolerance of 1000 ms. |
| MovementTracking.MovementTracker.constructor | frame_processors/movementTracker.py:15-33 | Three inactive timers with the configured intervals, each with one handler connected. No continuous movement yet. |
| MovementTracking.MovementTracker.InitializeTimers | frame_processors/movementTracker.py:24-33 | Each timer gets its interval and single-shot mode, and one more handler connection. |
| MovementTracking.MovementTracker.StopTimers | frame_processors/movementTracker.py:35-40 | All three timers stop, continuity ends, and one "stopped" event is emitted. |
| MovementTracking.MovementTracker.OnContinuousMovementDetected | frame_processors/movementTracker.py:43-45 | Continuity starts and one "started" event is emitted. |
| MovementTracking.MovementTracker.OnInactivityToleranceBreached | frame_processors/movementTracker.py:48-49 | The confirmation timer is stopped. |
| MovementTracking.MovementTracker.OnContinuousMovementStopped | frame_processors/movementTracker.py:52-54 | Continuity ends and one "stopped" event is emitted. |
| MovementTracking.MovementTracker.OnMovementPresentToggled | frame_processors/movementTracker.py:57-71 | Movement stops the absence timer. If movement is not yet continuous, it also starts the confirmation timer if idle and stops the tolerance timer. No movement starts the absence timer if continuous, else the tolerance timer; a timer already running is left alone. |
| MovementTracking.MovementTracker.ConfirmTimerExpires | frame_processors/movementTracker.py:43-45 | Expiry runs every connected handler: one "started" event per connection. |
| MovementTracking.MovementTracker.AbsenceTimerExpires | frame_processors/movementTracker.py:52-54 | Expiry emits one "stopped" event per connection. |
| MovementTracking.MovementTracker.ToleranceTimerExpires | frame_processors/movementTracker.py:48-49 | Expiry stops the confirmation timer and emits nothing. |
| MovementTracking.MovementTracker.OnSettingsChanged | frame_processors/movementTracker.py:74-81 | Timers stop and "stopped" is emitted. A missing threshold key raises KeyError; the parameters stay, and each timer is its old self, only stopped. Otherwise the new thresholds are installed: each timer is its stopped old self with the new interval, single-shot, and one more handler. |
| MovementTracking.ContinuousMovementScenario | frame_processors/movementTracker.py:57-71 | Presence confirmed, then absence confirmed, emits exactly [started, stopped]. |
| MovementTracking.ShortBurstScenario | frame_processors/movementTracker.py:57-71 | Presence that ends before confirmation emits nothing and cancels the pending confirmation. |
| MovementTracking.RepeatedHandlersScenario | frame_processors/movementTracker.py:74-81 | After n settings changes, one confirmation emits n+1 "started" events. |
| FrameTransformation.LargeContours | frame_processors/frameTransformator.py:172 | Keeps exactly the contours with area strictly above the minimum. The result is empty iff none qualifies. |
| FrameTransformation.RoundHalfEven | frame_processors/frameTransformator.py:202-203 | Python's `round`: the nearest integer to n/d, with ties going to the even one. |
| FrameTransformation.WeightedCenter | frame_processors/frameTransformator.py:191-204 | The area-weighted centroid. It fails (division by zero) exactly for no contours or a zero-area contour. |
| FrameTransformation.CenterWithinCentroids | frame_processors/frameTransformator.py:191-204 | The weighted centre lies within the bounds of the contour centroids, on each axis. |
| FrameTransformation.SingleContourCenter | frame_processors/frameTransformator.py:191-204 | A single contour's centre of mass is its own centroid. |
| FrameTransformation.CalculateCenterOfTheMass | frame_processors/frameTransformator.py:191-204 | The loop's result equals WeightedCenter of the contours. |
| FrameTransformation.Pushed | frame_processors/frameTransformator.py:206-209 | The inertia queue gains the new centre at its end and never exceeds 50 entries. |
| FrameTransformation.AbsenceStreakClearsOnce | frame_processors/frameTransformator.py:179-183 | k frames without contours raise the counter by k. The queue is cleared when the counter reaches 18. |
| FrameTransformation.TracksPreserved | frame_processors/frameTransformator.py:179-189 | The code as written (resetting a misspelled counter) and the intended reset produce the same centre queue on every input sequence. |
| FrameTransformation.MisspelledResetIsUnobservable | frame_processors/frameTransformator.py:182 | From a fresh calculator, the queue history is the same as with the intended reset. |
| FrameTransformation.PushedRepeatedlyTail | frame_processors/frameTransformator.py:206-209 | Pushing the same centre k times leaves the last min(k, 50) entries equal to it. |
| FrameTransformation.SteadyCenterConverges | frame_processors/frameTransformator.py:206-210 | After 50 identical centres (or any from empty), the smoothed centre is exactly that centre. |
| FrameTransformation.ContourCalculator.constructor | frame_processors/frameTransformator.py:164-168 | Empty queue and zero tolerance counter. |
| FrameTransformation.ContourCalculator.IncreaseToleranceCounter | frame_processors/frameTransformator.py:179-183 | One absence step. The misspelled field is set to 0 exactly when the limit is reached. |
| FrameTransformation.ContourCalculator.ApplyInertion | frame_processors/frameTransformator.py:206-210 | The queue is pushed and the returned centre is the column mean of the new queue. |
| FrameTransformation.ContourCalculator.ExtractDetectedContoursInfo | frame_processors/frameTransformator.py:185-189 | Resets the counter. The result carries the contours and the smoothed weighted centre, or a division error. |
| FrameTransformation.ContourCalculator.ExtractContours | frame_processors/frameTransformator.py:170-177 | No large contour: one absence step and no result. Otherwise the large contours with their smoothed centre. |
| FrameTransformation.ContourCalculator.Reset | frame_processors/frameTransformator.py:212-214 | Empty queue, zero counter. |
| FrameTransformation.GetInt | frame_processors/frameTransformator.py:254-278 | Succeeds iff the key holds an integer, with that integer. |
| FrameTransformation.GetNumber | frame_processors/frameTransformator.py:254-278 | Succeeds iff the key holds an int or a float, and returns that number as a float. |
| FrameTransformation.GetDict | frame_processors/frameTransformator.py:254-278 | Succeeds iff the key holds a dictionary, with that dictionary. |
| FrameTransformation.GetTransformatorSettings | frame_processors/frameTransformator.py:254-278 | Succeeds iff every required key is present with the right kind. Each field is the value read from its key, including the running-average alpha and both history lengths. |
| FrameTransformation.GetBackgroundSubtractor | frame_processors/frameTransformator.py:362-378 | A known algorithm gives a fresh subtractor of that kind with its configured parameter. An unknown one is an error. |
| FrameTransformation.ScaledByRatio | frame_processors/frameTransformator.py:318-328 | Scaling the target width by the reduced ratio equals scaling it by the raw height/width. |
| FrameTransformation.ZeroWidthRatio | frame_processors/frameTransformator.py:318-328 | The ratio's width part is 0 iff the frame width is 0. |
| FrameTransformation.ResizedResolution | frame_processors/frameTransformator.py:318-328 | Fails (division by zero) iff the width is 0. Otherwise it gives the reduced aspect ratio and the target width with its proportional height. |
| FrameTransformation.FrameTransformator.constructor | frame_processors/frameTransformator.py:222-235 | Transformation enabled, previews off, no subscriber waiting for an initial frame. |
| FrameTransformation.FrameTransformator.ToggleApplyTransformation | frame_processors/frameTransformator.py:237-238 | Sets the enabled flag. |
| FrameTransformation.FrameTransformator.OnToggleShowPreviewFrames | frame_processors/frameTransformator.py:245-246 | Sets the preview flag. |
| FrameTransformation.FrameTransformator.ProcessReceivedFrame | frame_processors/frameTransformator.py:280-302 | Disabled: nothing changes. Enabled: the frame goes through the subtractor; detected contours are emitted, or a "no movement" event. Preview frames are emitted only when requested. A failing centre computation raises before any emit, keeps the history and zeroes the counter. Settings, flags and the initial-frame subscriber count never change. |
| FrameTransformation.FrameTransformator.Reset | frame_processors/frameTransformator.py:248-251 | Fresh subtractor history, reset calculator, zero initial-frame subscribers. Settings, both flags and the events stay. |
| FrameTransformation.FrameTransformator.OnFrameResolutionReceived | frame_processors/frameTransformator.py:318-328 | Emits the ratio and resized resolution iff the width is non-zero. Otherwise it raises and emits nothing. |
| FrameTransformation.FrameTransformator.OnFrameTransformatorSettingsChanged | frame_processors/frameTransformator.py:331-338 | Incomplete settings raise and keep the old ones. An unknown algorithm raises after installing the settings, keeping the old subtractor and calculator. Otherwise the parsed settings and a new subtractor are installed and the calculator reset. Flags, subscriber count and events stay. |
| WorkerThreads.WorkerThread.Start | workerThreadController.py:48-52 | The thread runs, and its start count goes up by one. |
| WorkerThreads.WorkerThread.ExitAndWait | workerThreadController.py:54-63 | The thread is no longer running. |
| WorkerThreads.FirstMatch | workerThreadController.py:69-81 | The first entry at or after `from` whose id is truthy and equal to the given one and whose thread is running. No earlier entry matches. |
| WorkerThreads.FirstIdle | workerThreadController.py:32-39 | The first entry whose thread is not running. All earlier ones are running. |
| WorkerThreads.WorkerThreadController.constructor | workerThreadController.py:19-21 | No groups. |
| WorkerThreads.WorkerThreadController.GetWorkerThread | workerThreadController.py:32-39 | Returns the first idle thread of the group when reuse is asked for and one exists. Otherwise a fresh thread. |
| WorkerThreads.WorkerThreadController.PlaceWorkerThreadInGroup | workerThreadController.py:41-46 | Appends the (thread, id) entry to the group, creating the group if needed. |
| WorkerThreads.WorkerThreadController.AddWorkerToGroup | workerThreadController.py:23-30 | The group gains exactly one entry and other groups are unchanged. The chosen thread gets the worker and the start/finish handlers; its running flag and start count are those it had (a new thread is idle, never started). Every other thread of the group is untouched. |
| WorkerThreads.WorkerThreadController.StartWorkerGroup | workerThreadController.py:48-52 | An unknown group raises KeyError. Otherwise every thread of the group is running, an idle one started exactly once and a running one not at all. Only the running flags and start counts of the group's threads can change; workers and handlers stay. |
| WorkerThreads.WorkerThreadController.StopWorkerGroup | workerThreadController.py:54-63 | Every thread of the group is stopped, and the groups are unchanged. Only the running flags of the group's threads can change; start counts, workers and handlers stay. |
| WorkerThreads.WorkerThreadController.StopAllWorkerGroups | workerThreadController.py:65-67 | Every thread of every group is stopped. Only running flags can change; the groups, start counts, workers and handlers stay. |
| WorkerThreads.WorkerThreadController.DeleteObjectByIdFromWorkerGroup | workerThreadController.py:69-81 | An unknown group raises KeyError. Otherwise the first entry whose id is truthy and equal to the given one and whose thread is running is stopped and removed. Nothing else changes: only that thread's running flag, and no start count, worker or handler. |
| WorkerThreads.ReusedThreadListedTwice | workerThreadController.py:23-46 | A reused idle thread appears twice in its group, once per worker id. |
| NetworkStreaming.SendingIntervalMs | frameToNetworkStreamer.py:33-35 | `int(1/30 * 1000)` is 33, the truncated quotient. |
| NetworkStreaming.PackU32 | frameToNetworkStreamer.py:54 | `struct.pack("I", n)` gives 4 bytes. |
| NetworkStreaming.UnpackU32 | frameToNetworkStreamer.py:54 | Four bytes read back as a 32-bit unsigned value. |
| NetworkStreaming.UnpackPack | frameToNetworkStreamer.py:54 | Unpacking a packed length gives the length. |
| NetworkStreaming.PackUnpack | frameToNetworkStreamer.py:54 | Packing an unpacked 4-byte prefix gives the prefix. |
| NetworkStreaming.FramePayload | frameToNetworkStreamer.py:52-57 | The length prefix followed by the JPEG bytes. A length that does not fit in 32 bits is a struct error. |
| NetworkStreaming.ParsePayload | frameToNetworkStreamer.py:52-57 | A parsed message is exactly 4 bytes longer than its payload. |
| NetworkStreaming.PayloadRoundTrip | frameToNetworkStreamer.py:52-57 | Parsing a framed JPEG gives the JPEG back. |
| NetworkStreaming.ParsedPayloadReframes | frameToNetworkStreamer.py:52-57 | Every message the parser accepts is the framing of its payload. |
| NetworkStreaming.FrameToNetworkStreamer.constructor | frameToNetworkStreamer.py:18-24 | Empty frame slot, nothing written, the given id. |
| NetworkStreaming.FrameToNetworkStreamer.GetEncodedFrame | frameToNetworkStreamer.py:52-57 | A successful encoding parses back to the JPEG of the frame. |
| NetworkStreaming.FrameToNetworkStreamer.OnFrameReceived | frameToNetworkStreamer.py:60-61 | The frame replaces whatever is waiting. |
| NetworkStreaming.FrameToNetworkStreamer.SendFrame | frameToNetworkStreamer.py:42-47 | An empty slot writes nothing. Otherwise exactly one framed payload is written and the slot is emptied. |
| NetworkStreaming.FrameToNetworkStreamer.OnConnectionTerminated | frameToNetworkStreamer.py:64-66 | Emits the streamer's id. |
| NetworkStreaming.FrameToNetworkStreamer.GetId | frameToNetworkStreamer.py:68-69 | Returns the id given at construction. |
| NetworkStreaming.LatestFrameWins | frameToNetworkStreamer.py:42-61 | Two frames before one send: only the later one goes out, and a second send writes nothing. |
| NetworkStreaming.TerminationReportsId | frameToNetworkStreamer.py:64-69 | The terminated connection reports the construction id, and `get_id` agrees. |
| CoordinateLogging.LookupInt | movementLogger.py:101-115 | Succeeds iff the key holds an integer, with that integer. |
| CoordinateLogging.LookupText | movementLogger.py:101-115 | Succeeds iff the key holds text, with that text. |
| CoordinateLogging.LookupBool | movementLogger.py:101-115 | Succeeds iff the key holds a boolean, with that boolean. |
| CoordinateLogging.TruncDiv | movementLogger.py:94-95 | `int(a / b)`: the magnitude is the floored quotient of the magnitudes, and the sign follows the operands. For non-negative operands it is floor division. |
| CoordinateLogging.ScaledResolution | movementLogger.py:52 | The scaling width, with the height truncated from width·ratio. A zero ratio width is a division error. |
| CoordinateLogging.ScaleCoordinates | movementLogger.py:89-98 | Missing resolutions raise. A zero original dimension divides by zero. Otherwise both coordinates are scaled. |
| CoordinateLogging.ScaledPointWithinFrame | eventLogger.py:118-127 | The `processCoordinates` that both loggers carry (eventLogger.py:118-127 repeats movementLogger.py:89-98) maps a point inside the original frame to a point inside the logging frame, with or without inversion. |
| CoordinateLogging.InversionMirrorsX | movementLogger.py:96-97 | Inversion mirrors x within the logging width and keeps y. |
| CoordinateLogging.JoinPath | eventLogger.py:79 | The joined path ends with the file name. |
| MovementLogging.ParseParams | movementLogger.py:101-115 | Succeeds iff every key holds the right kind, with the values read. |
| MovementLogging.MovementLogger.constructor | movementLogger.py:21-30 | No resolutions, no position, empty pending queue, no timer. |
| MovementLogging.MovementLogger.DrainStep | movementLogger.py:77-87 | One step of the drain loop: stop on a raise; on a failed write, drop the point and stop; on success, write one line and go on. |
| MovementLogging.MovementLogger.DrainKeepsSuffix | movementLogger.py:77-87 | What the drain leaves pending is a suffix of the queue. |
| MovementLogging.MovementLogger.DrainWritesAllInOrder | movementLogger.py:77-87 | When every write succeeds, every queued point is written in queue order, with its scaled coordinates and its timestamp. |
| MovementLogging.MovementLogger.OnStart | movementLogger.py:37-41 | A repeating timer with the logging interval is started. |
| MovementLogging.MovementLogger.OnStop | movementLogger.py:44-46 | The timer, if any, is stopped. |
| MovementLogging.MovementLogger.OnOriginalFrameDimensionInfoReceived | movementLogger.py:49-53 | Stores the resolutions. The scaled resolution is computed, or a zero ratio width raises. |
| MovementLogging.MovementLogger.OnMovementCoordinatesReceived | movementLogger.py:56-57 | Stores the latest position. |
| MovementLogging.MovementLogger.WriteToLog | movementLogger.py:64-75 | No position: nothing. Otherwise one line is appended, or the position is queued on an OS error (blocking when full). The position is cleared either way. |
| MovementLogging.MovementLogger.DrainQueue | movementLogger.py:81-85 | The loop's result equals the Drain specification. |
| MovementLogging.MovementLogger.FlushPendingQueue | movementLogger.py:77-87 | Empty queue or a failed open: nothing changes. Otherwise the drained lines are appended and the rest stays queued. |
| MovementLogging.MovementLogger.OnSettingsChanged | movementLogger.py:101-115 | Malformed settings raise and change nothing. Otherwise the parameters are replaced and the scaled resolution is recomputed. |
| EventLogging.ParseParams | eventLogger.py:130-145 | Succeeds iff every key holds the right kind, with the values read. |
| EventLogging.FirstFailure | eventLogger.py:91-107 | The index of the first failed write. All before it succeed. |
| EventLogging.WriteEntries | eventLogger.py:96-102 | The text written is the entries up to the first failed write, flattened in order. |
| EventLogging.FlattenPrefix | eventLogger.py:91-107 | What a partial flush writes is a prefix of the full text. |
| EventLogging.AllWritesSucceed | eventLogger.py:91-107 | With no failure, the whole queue is written. |
| EventLogging.EventLogger.constructor | eventLogger.py:24-34 | No resolutions, no movement, no sound, empty pending queue, no timer. |
| EventLogging.EventLogger.CreateLogEntry | eventLogger.py:109-127 | A movement line with scaled coordinates and/or a sound line with the intensity. It fails iff scaling the present movement raises. |
| EventLogging.EventLogger.OnStart | eventLogger.py:41-45 | A repeating timer with the logging interval is started. |
| EventLogging.EventLogger.OnStop | eventLogger.py:48-50 | The timer, if any, is stopped. |
| EventLogging.EventLogger.OnOriginalFrameDimensionInfoReceived | eventLogger.py:53-57 | Stores the resolutions. The scaled resolution is computed, or a zero ratio width raises. |
| EventLogging.EventLogger.OnMovementCoordinatesReceived | eventLogger.py:60-61 | Stores the latest position. |
| EventLogging.EventLogger.OnSoundDetectedReceived | eventLogger.py:64-66 | Stores the intensity only when sound was detected. |
| EventLogging.EventLogger.WriteToLog | eventLogger.py:73-89 | Nothing to log: nothing. A failed `open` loses the entry, which was never built. Otherwise the entry is written (after emptying the file in one-line mode); if the write fails, a non-empty entry is queued, and on a full queue the call blocks. A raise while building the entry is reported after the file was opened (and emptied in one-line mode). Both observations are cleared except when blocked. |
| EventLogging.EventLogger.FlushPendingQueue | eventLogger.py:91-107 | The queue is emptied. In one-line mode the file is truncated and holds the oldest queued entry if its write succeeds. Otherwise the entries up to the first failed write are appended. |
| EventLogging.EventLogger.OnSettingsChanged | eventLogger.py:130-145 | Malformed settings raise and change nothing. Otherwise the parameters are replaced and the scaled resolution is recomputed. |
| EventLogging.OneLineLogKeepsLatest | eventLogger.py:73-89 | In one-line mode the file holds only the latest sound line. |
| EmailNotifications.BackoffSeconds | emailSubscribersController.py:54 | The back-off `timedelta` in seconds, non-negative for non-negative hours and minutes. |
| EmailNotifications.NewRecord | emailSubscribersController.py:115-120 | A new subscriber carries the entry's fields and was last mailed at the epoch. |
| EmailNotifications.Message | emailSubscribersController.py:85-94 | The fixed greeting with the subscriber's username in its slot. |
| EmailNotifications.DueOf | emailSubscribersController.py:52-56 | Exactly the subscribers whose last mail plus back-off is not after now, in table order. |
| EmailNotifications.DueScan | emailSubscribersController.py:53-56 | The loop over the table in its order collects exactly DueOf of the keys. |
| EmailNotifications.SentToStep | emailSubscribersController.py:70-82 | One more loop step stamps exactly the current subscriber, if the send succeeds. |
| EmailNotifications.Deliveries | emailSubscribersController.py:70-82 | Without a connected client nothing is sent. At most one mail per waiting entry. |
| EmailNotifications.DeliveryAddressed | emailSubscribersController.py:70-82 | Every mail sent goes to a waiting subscriber whose send succeeded, with their greeting and the GIF. |
| EmailNotifications.AllDelivered | emailSubscribersController.py:70-82 | When every send succeeds, each waiting subscriber gets one mail, in order. |
| EmailNotifications.NewEmails | emailSubscribersController.py:96-103 | Newly added keys were not in the table before. |
| EmailNotifications.EmailsOf | emailSubscribersController.py:96-103 | Every entry's email is among the loaded keys. |
| EmailNotifications.EmailsOfMembers | emailSubscribersController.py:96-103 | An email is loaded iff some entry carries it. |
| EmailNotifications.SendRound | emailSubscribersController.py:69-83 | Same keys. A record is stamped with the movement time iff its mail went out. The mails sent equal Deliveries. |
| EmailNotifications.LoadedStaysIndexed | emailSubscribersController.py:96-103 | Loading keeps every key listed once in the order and every record filed under its own email. |
| EmailNotifications.LoadedKeys | emailSubscribersController.py:96-103 | The table after loading has exactly the old keys plus the loaded emails. |
| EmailNotifications.LoadedOrder | emailSubscribersController.py:96-103 | The emails new to the table are appended to the iteration order, in entry order. Replaced keys keep their place. |
| EmailNotifications.LoadedRecords | emailSubscribersController.py:96-103 | Emails not loaded keep their records, and every loaded email holds a fresh record of its entry. |
| EmailNotifications.LoadedSpec | emailSubscribersController.py:96-103 | Loading keeps the table indexed, adds exactly the entries' keys, and overwrites each entry's record. Others are unchanged. |
| EmailNotifications.EmailSubscribersController.constructor | emailSubscribersController.py:26-34 | No subscribers, nothing waiting, no timestamp, no client, notifications off. |
| EmailNotifications.EmailSubscribersController.OnStart | emailSubscribersController.py:37-38 | The mail client is connected. |
| EmailNotifications.EmailSubscribersController.OnEnableNotificationsToggled | emailSubscribersController.py:123-125 | Sets the notifications flag. |
| EmailNotifications.EmailSubscribersController.SubscribersForProcessing | emailSubscribersController.py:52-57 | Appends the due subscribers to the waiting list, and answers whether the list is non-empty. |
| EmailNotifications.EmailSubscribersController.OnContinuousMovementToggled | emailSubscribersController.py:41-50 | Disabled: nothing. Movement ended: GIF off. Movement began: if anyone is waiting, record the time and turn GIF creation on. |
| EmailNotifications.EmailSubscribersController.SendGifToSubscribers | emailSubscribersController.py:69-83 | Mails every waiting subscriber whose send succeeds and stamps them. The waiting list is emptied. |
| EmailNotifications.EmailSubscribersController.OnGifCreated | emailSubscribersController.py:60-66 | Without a movement time it raises and changes nothing. Otherwise it sends the GIF. |
| EmailNotifications.EmailSubscribersController.OnSubscriberAdded | emailSubscribersController.py:107-120 | A known email keeps its last-sent time and takes the new fields. A new one gets a fresh record. |
| EmailNotifications.EmailSubscribersController.LoadSubscriberSettings | emailSubscribersController.py:96-104 | Each entry's record is installed, others are unchanged, and the broadcast flag is set. |
| EmailNotifications.GifCreator.constructor | emailSubscribersController.py:130-134 | Not running, no frames, no timer. |
| EmailNotifications.GifCreator.OnCreateGifToggle | emailSubscribersController.py:137-148 | On: start (or restart) the single-shot GIF timer and keep the collected frames. Off: drop the frames. |
| EmailNotifications.GifCreator.OnGifCreationStart | emailSubscribersController.py:151-161 | With frames: encode them, emit the GIF and turn creation off. Without frames: nothing. |
| EmailNotifications.GifCreator.TimerExpires | emailSubscribersController.py:140-161 | Expiry stops the timer, then behaves as OnGifCreationStart. |
| EmailNotifications.GifCreator.OnFrameReceived | emailSubscribersController.py:164-167 | Collects the RGB frame only while running. |
| EmailNotifications.FirstGif | emailSubscribersController.py:137-167 | First step of StaleFramesCarryOver. A frame before the start is ignored, and the frame collected while running becomes the whole first GIF. The buffer still holds that frame afterwards. |
| EmailNotifications.StaleFramesCarryOver | emailSubscribersController.py:137-167 | Emitting a GIF does not clear the collected frames, so they are carried into the next GIF. |
| EmailNotifications.OneSubscriber | emailSubscribersController.py:107-125 | Setup step of BackoffSuppressesRepeat and RepeatedTriggerMailsTwice. One added subscriber gets a fresh record and is the only key in the order. Notifications are on and nothing has been sent. |
| EmailNotifications.TriggeredOnce | emailSubscribersController.py:41-58 | Step of BackoffSuppressesRepeat. A movement at `t` lists the due subscriber once, records `t` and turns GIF creation on. |
| EmailNotifications.NotifiedOnce | emailSubscribersController.py:41-83 | Step of BackoffSuppressesRepeat. The GIF goes to the listed subscriber, whose last-sent time becomes `t`, and the waiting list is emptied. |
| EmailNotifications.TriggeredTwice | emailSubscribersController.py:41-58 | Step of RepeatedTriggerMailsTwice. Two movement starts before any GIF list the subscriber twice, and the later time is the one recorded. |
| EmailNotifications.BackoffSuppressesRepeat | emailSubscribersController.py:41-83 | A subscriber mailed once is not selected again within the back-off. |
| EmailNotifications.RepeatedTriggerMailsTwice | emailSubscribersController.py:41-83 | Two triggers before a GIF put the subscriber on the waiting list twice, so two mails are sent. |
| FrameDrawing.DrawEachSlices | frame_processors/frameDrawer.py:98-105 | Drawing a list puts each element's two commands at its own slot, in order. |
| FrameDrawing.DrawEachMember | frame_processors/frameDrawer.py:98-105 | Every command drawn comes from some element. |
| FrameDrawing.FirstFlat | frame_processors/frameDrawer.py:124-131 | The first zero-area contour. All before it have positive area. |
| FrameDrawing.ShapesFailIffFlat | frame_processors/frameDrawer.py:124-131 | Shape drawing raises iff it is enabled and some contour has zero area. The contours before it are drawn. |
| FrameDrawing.TextsInOrder | frame_processors/frameDrawer.py:141-168 | The centre, recording and sound texts, each present iff its flag is set, stacked downward at x = 10. |
| FrameDrawing.OverlaySplit | frame_processors/frameDrawer.py:92-96 | The overlay is objects, then contours, then texts. |
| FrameDrawing.NoCrosshairCircleBefore | frame_processors/frameDrawer.py:98-131 | Objects, rectangles and shapes draw no crosshair circle. |
| FrameDrawing.CrosshairIffCenter | frame_processors/frameDrawer.py:133-139 | A crosshair circle at p is drawn iff the centre is p, whatever the crosshair toggle. |
| FrameDrawing.TextsLast | frame_processors/frameDrawer.py:92-96 | The overlay ends with the text messages. |
| FrameDrawing.FrameDrawer.constructor | frame_processors/frameDrawer.py:26-35 | The crosshair is on and every other toggle off. Nothing is queued. |
| FrameDrawing.FrameDrawer.OnObjectForDrawingReceived | frame_processors/frameDrawer.py:39-40 | Stores the object list. |
| FrameDrawing.FrameDrawer.OnContourDataReceived | frame_processors/frameDrawer.py:43-45 | Stores the contours and the centre. |
| FrameDrawing.FrameDrawer.OnTextTypeReceived | frame_processors/frameDrawer.py:48-49 | Appends the message type. |
| FrameDrawing.FrameDrawer.OnSetIsRecordingText | frame_processors/frameDrawer.py:57-58 | Sets the recording flag. |
| FrameDrawing.FrameDrawer.OnSetIsSoundDetectedText | frame_processors/frameDrawer.py:61-62 | Sets the sound flag. |
| FrameDrawing.FrameDrawer.OnToggleShowMovementType | frame_processors/frameDrawer.py:84-90 | Exactly the toggle of the given presentation type changes. |
| FrameDrawing.FrameDrawer.DrawObjects | frame_processors/frameDrawer.py:98-105 | Draws each object's box and label. A non-empty list is then dropped. |
| FrameDrawing.FrameDrawer.DrawRectanglesAroundContours | frame_processors/frameDrawer.py:115-122 | Draws each contour's bounding box and centroid marker. |
| FrameDrawing.FrameDrawer.DrawContourShape | frame_processors/frameDrawer.py:124-131 | Draws outlines up to the first zero-area contour, which raises ZeroDivisionError. |
| FrameDrawing.FrameDrawer.DrawContourCrosshair | frame_processors/frameDrawer.py:133-139 | Draws the crosshair at the centre. A missing centre raises. |
| FrameDrawing.FrameDrawer.DrawContours | frame_processors/frameDrawer.py:107-113 | Rectangles and shapes as toggled, then the crosshair whenever there is a centre and no shape raised. The crosshair toggle plays no part. |
| FrameDrawing.FrameDrawer.DrawTextMessages | frame_processors/frameDrawer.py:141-168 | Appends the centre, recording and sound texts as flagged. |
| FrameDrawing.FrameDrawer.ClearQueues | frame_processors/frameDrawer.py:174-177 | Contours, centre and messages are cleared. |
| FrameDrawing.FrameDrawer.DrawElementsOnFrame | frame_processors/frameDrawer.py:92-96 | The canvas gains the Overlay. The queues are cleared only if nothing raised. |
| FrameDrawing.FrameDrawer.OnPrepareFrameForDisplay | frame_processors/frameDrawer.py:52-54 | The frame is shown with exactly the overlay when drawing succeeds, and not shown otherwise. |
| FrameDrawing.FrameDrawer.OnPreparePreviewFramesForDisplay | frame_processors/frameDrawer.py:65-82 | The four previews are emitted, each captioned at (10, 30). |
| FrameDrawing.CrosshairDespiteToggle | frame_processors/frameDrawer.py:107-113 | With every toggle off, contour data still yields a crosshair and the centre text, and the queues are cleared. |

## Left out

- Floating point: contour areas, moments and centroids are exact integers, and `round`/`int` act on exact quotients. Running-average alpha and similar settings are `real` and only passed through.
- OpenCV (`findContours`, `contourArea`, `moments`, blurring, thresholding, background subtraction, `imencode`, colour conversion) is opaque. Contours arrive with their area and centroid; the image operations are function-typed parameters.
- Drawing is a trace of draw commands. Colours, thicknesses, fonts and the four-decimal formatting of confidences are not modelled.
- Log files are sequences of structured lines, not formatted text with `strftime` timestamps. The clock is a parameter.
- File and socket I/O, SMTP and `uuid4` are explicit success/failure inputs or parameters. The SMTP credentials are not modelled.
- Threads, Qt signal delivery across threads and `QThread` internals are not modelled: each slot runs atomically. Timer expiry is an explicit method.
- `NetworkStreaming.PackU32`: uses little-endian order for `struct.pack("I")`, the native order on the hosts the program targets.
- `WorkerThreads`: worker ids are modelled as strings, as the callers pass them, though the dataclass annotates an integer.
- `EmailNotifications.EmailSubscribersController.SendGifToSubscribers`: the waiting list holds emails rather than shared record objects. The only aliasing this misses is a reload between selection and sending.
- `EmailNotifications.EmailSubscribersController.LoadSubscriberSettings`: requires distinct emails in the entries, as the keys of the source dictionary are.
- Settings dictionaries are typed maps. Where the model parses a dictionary (`ParseParams`, `GetTransformatorSettings`, `MovementTracker.OnSettingsChanged`), missing keys and wrong-kind values are errors; malformed nested subscriber dictionaries are not modelled.
- `EmailNotifications.EmailSubscribersController.LoadSubscriberSettings`: takes the subscriber entries and the broadcast flag as typed values. It does not model the KeyError on a missing `"emailSubscribers"` key (emailSubscribersController.py:97). It also does not model the KeyError on a missing `"broadcastToSubscribers"` key (line 104), which the source raises after the table was already updated.
- `FrameTransformation.LargeContours`: a contour whose area equals `min_area` is dropped (frameTransformator.py:172).
- The duplicate `onShowPreviewFramesToggled` slot (frameTransformator.py:313-315) has the same effect as `OnToggleShowPreviewFrames` and is not repeated.
- The message-type queue of the frame drawer is only stored and cleared, since the source never draws it.
- Factory functions, `initializeLoggerDir`, folder creation and the `processMovementIfPresent` composition (flush, then write) are not separate members.
- GUI widgets, settings persistence, sound detection and object detection are outside this model.
