# VPNWatch core in Dafny

VPNWatch watches whether a VPN tunnel is up and sends a push notification
through the Pushover service when that changes. This project models its two
stateful parts and proves their properties.

- **The Pushover client** (`pushover.dfy`, module `Pushover`) covers
  `Notifier/pushover.py`:
  - `Pushover.message` screens the keyword arguments and builds the message
    payload.
  - `Request.__init__` splits off the attachment.
  - `MessageRequest` tracks the receipt of an emergency (priority-2) message.
    It polls until the message is acknowledged, expires or reaches its
    callback, and it can be cancelled.
  - `RequestError` formats its text.

  Requests are not sent. Each request the client would send is recorded in a
  ghost log as a `Call` value, and each provider answer it would read is a
  parameter.
- **The watcher** (`watcher.dfy`, module `Watcher`) covers
  `Watcher/watcher.py`:
  - `verify_input` reads the environment.
  - `test_pushover` sends the start-up test notification.
  - `watch` runs the two-valued `vpn_state` machine. It notifies only when a
    probe flips the state.

  The probe result is an input. Log lines and notifications are recorded as
  ghost events.
- **`builtins.dfy`** (module `Builtins`) models the Python built-ins these
  files rely on: `int()` on text, the substring test `in`, and `str.join`.

Main results:
- A receipt's `done` flag latches and then freezes the status.
- Polling ends done exactly when some answer was terminal.
- Over any sequence of probes, the watcher sends exactly one notification per
  state flip and writes one log line per probe.
- Every notification after start-up is explained by the watcher's probe
  history. `Watcher.Watcher.Valid` states this as the object invariant, and
  it is preserved by `Watch`.

The watcher follows the code's two-valued `vpn_state`, not a three-state
reachability enum. Both an exposed address and a failed probe put the state
at 1, so going from "exposed" to "unreachable" or back sends no
notification. Only a return to a foreign address, or leaving it, does.

## Model

| member | source | states |
|---|---|---|
| Builtins.ParseInt | Watcher/watcher.py:67 | `int()` on text succeeds exactly on an optionally signed run of ASCII digits; on plain digits the value is their decimal value |
| Builtins.Contains | Watcher/watcher.py:62-63 | the reference meaning of Python's `sub in s`: some index where `sub` starts in `s` (used by the address lemmas below) |
| Builtins.Join | Notifier/pushover.py:25 | Python's `sep.join(xs)`: the items in order, separated by `sep` (characterised by `Pushover.DescribeMarksEachError`) |
| Builtins.SignedValue | Watcher/watcher.py:67 | a literal with a "+" or "-" sign reads as its digits' value, negated after "-", whatever its leading zeros (so "+30" is 30, "-007" is -7, "-0" is 0) |
| Builtins.ParseShow | Notifier/pushover.py:199-202 | `int()` reads back the decimal text of every integer |
| Pushover.AsInt | Notifier/pushover.py:199-202 | `int(value)` fails only on a text that is not an integer literal; an integer stays itself; a bool reads as 1 (True) or 0 (False) |
| Pushover.Describe | Notifier/pushover.py:24-25 | a RequestError's text always starts with the "\n==> " marker (the full text is given by `Pushover.DescribeMarksEachError`) |
| Pushover.DescribeMarksEachError | Notifier/pushover.py:24-25 | a RequestError's text puts each error, in order, after its own "\n==> " marker; an empty error list gives the bare marker |
| Pushover.Prepare | Notifier/pushover.py:35-40 | a request's query parameters are the payload minus "attachment"; its files hold exactly the attachment; values are kept |
| Pushover.PrepareRecombines | Notifier/pushover.py:35-40 | the parameters and files split the payload into two disjoint parts that together give it back |
| Pushover.Screen | Notifier/pushover.py:190-204 | one keyword is kept iff admissible (a known keyword; not timestamp; a known sound; retry at least 30; expire at most 10800); each rejection happens exactly under its own condition; timestamp raises |
| Pushover.Pop | Notifier/pushover.py:184-187 | `kwargs.pop(key)` removes exactly the entries for `key`, keeps the others, and keeps the keys distinct |
| Pushover.PopFirst | Notifier/pushover.py:184-187 | popping the keyword passed first leaves the remaining entries exactly as they were |
| Pushover.PopRemovesOne | Notifier/pushover.py:184-187 | popping a passed keyword removes exactly its entry and keeps every other entry in its order |
| Pushover.PopAbsent | Notifier/pushover.py:184-187 | popping a keyword that was not passed changes nothing |
| Pushover.Lookup | Notifier/pushover.py:184-187 | the value of a keyword is found iff the keyword was passed, and it is that keyword's value |
| Pushover.LookupAfterPop | Notifier/pushover.py:184-187 | popping `user` leaves the lookup of `token` unchanged |
| Pushover.Merge | Notifier/pushover.py:188-204 | copying keyword arguments into a payload never loses a key of that payload |
| Pushover.MergeContents | Notifier/pushover.py:190-204 | the copied payload's keys are the starting keys plus the keywords; each keyword ends with its own value; untouched entries are kept |
| Pushover.MessagePayload | Notifier/pushover.py:184-188 | the payload message sends always has message, user and token keys (its full contents are given by `Pushover.PayloadContents`) |
| Pushover.PayloadContents | Notifier/pushover.py:184-204 | the message payload holds message, user and token (a keyword overriding the client's value) plus every other keyword with its value, and no other key |
| Pushover.BuildPayload | Notifier/pushover.py:188-208 | the keyword loop yields a payload iff every keyword is admissible, and that payload is the merge of the base payload with all keywords; otherwise it stops at the first inadmissible keyword with that keyword's verdict |
| Pushover.InitialStatus | Notifier/pushover.py:70-76 | a new request is done iff it is not priority 2; an emergency request starts with exactly done (set to false), the three flags false and their three times 0 |
| Pushover.FlagRoundsAll | Notifier/pushover.py:96-98 | poll's flag loop sets each of expired, called_back, acknowledged to the truth of the answer and each time field to the answered time |
| Pushover.IdentityRoundsAll | Notifier/pushover.py:99-100 | poll's identity loop copies acknowledged_by and acknowledged_by_device |
| Pushover.CopiedClosedForm | Notifier/pushover.py:96-101 | the two loops and the last assignment of poll write the nine answer fields in order |
| Pushover.AbsorbCopiesAnswer | Notifier/pushover.py:96-101 | after a receipt query every answered field holds the provider's value |
| Pushover.AbsorbKeepsTheRest | Notifier/pushover.py:94-103 | a receipt query adds the nine answer fields (and `done` when terminal) and changes no other field |
| Pushover.AbsorbLatches | Notifier/pushover.py:102-103 | after a query the status is done iff it was done or the answer is acknowledged, expired or called back |
| Pushover.Absorb | Notifier/pushover.py:96-103 | one receipt query: copy the answer in, then latch done if some flag is up (its properties are stated by `Pushover.AbsorbCopiesAnswer`, `Pushover.AbsorbKeepsTheRest` and `Pushover.AbsorbLatches`) |
| Pushover.PollStep | Notifier/pushover.py:94-104 | one poll: no change once done, otherwise one absorbed answer (its properties are stated by `Pushover.AbsorbLatches` and `Pushover.MessageRequest.Poll`) |
| Pushover.PollAll | Notifier/pushover.py:94-104 | polling once per answer, in order (its properties are stated by the three `Pushover.PollAll...` lemmas) |
| Pushover.PollAllFrozen | Notifier/pushover.py:94-104 | once done, no number of further polls changes the status |
| Pushover.PollAllDone | Notifier/pushover.py:94-104 | a series of polls ends done iff the status started done or some answer was terminal |
| Pushover.PollAllIgnoresAfterFinish | Notifier/pushover.py:94-104 | answers after the first terminal one have no effect on the status |
| Pushover.MessageRequest.constructor | Notifier/pushover.py:68-76 | the request sends the message once, keeps payload and files split, and the status and receipt address follow the priority |
| Pushover.MessageRequest.Poll | Notifier/pushover.py:94-104 | a done request sends nothing and stays done; otherwise it sends one receipt query, absorbs the answer and returns true iff the answer is terminal |
| Pushover.MessageRequest.ReceiptQuery | Notifier/pushover.py:95 | a poll sends a GET to the receipt address plus ".json", carrying only the token, with no files |
| Pushover.MessageRequest.CancelRequest | Notifier/pushover.py:113-115 | a cancel sends a POST to the receipt address plus "/cancel.json", carrying only the token, with no files |
| Pushover.MessageRequest.Cancel | Notifier/pushover.py:112-117 | a cancel request goes out iff the request is not done, and it is returned; otherwise None and nothing is sent |
| Pushover.Pushover.constructor | Notifier/pushover.py:145-147 | the client keeps the given user and token, which default to empty texts |
| Pushover.Pushover.Message | Notifier/pushover.py:172-208 | user and token keywords replace the client's fields; a request is sent iff every other keyword is admissible (and a priority-2 answer has a receipt), and the request holds the built payload split from its attachment, the one send of it, a fresh status and, for priority 2, the receipt address from the answer; otherwise the first inadmissible keyword decides the rejection or the exception; a priority-2 answer without a receipt raises after the message has gone out, and the outcome records that send |
| Watcher.WithScheme | Watcher/watcher.py:62 | the scheme step of the address (its effect is stated by `Watcher.NormalisedShape`) |
| Watcher.WithPath | Watcher/watcher.py:63 | the path step of the address (its effect is stated by `Watcher.NormalisedShape`) |
| Watcher.Normalised | Watcher/watcher.py:62-63 | both steps in order (its properties are stated by the next four lemmas) |
| Watcher.SchemeAddsNoPush | Watcher/watcher.py:62-63 | adding "http://" cannot create an occurrence of "push" |
| Watcher.NormalisedShape | Watcher/watcher.py:62-63 | the server address gets "http://" in front iff "http" does not occur in it, and "/push" at the end iff "push" does not |
| Watcher.NormalisedHasBoth | Watcher/watcher.py:62-63 | "http" and "push" both occur in the normalised address |
| Watcher.NormalisedIdempotent | Watcher/watcher.py:62-63 | normalising an address twice is normalising it once |
| Watcher.TimerSetting | Watcher/watcher.py:67 | the `timer` variable read by `int()`, or 360 seconds when it is not set (used by `Watcher.Watcher.constructor`) |
| Watcher.Whitelist | Watcher/watcher.py:64-66 | the keyword loop as a fold over the listed keys (its contents are stated by `Watcher.WhitelistContents`) |
| Watcher.WhitelistContents | Watcher/watcher.py:64-66 | exactly the pushover keywords set in the environment are copied, each with its value |
| Watcher.Classify | Watcher/watcher.py:76-94 | a connection error reads as unreachable, the user's own address as exposed, and only a foreign address as normal |
| Watcher.Step | Watcher/watcher.py:74-101 | from state 0 or 1 a probe leads to state 1 unless it returns a foreign address; exactly one log line of the new message; a notification with the new data iff the state changes; only `message` in the data changes: to the no-tunnel text on a connection error from state 0, to the exposed text on the user's own address, to the normal text naming the address otherwise; a connection error from state 1 keeps the data and logs the old message |
| Watcher.Run | Watcher/watcher.py:106-108 | the main loop's calls of watch over a finite sequence of probes; the data keeps a message throughout (its counts are stated by `Watcher.RunSendsOncePerFlip`) |
| Watcher.RunSnoc | Watcher/watcher.py:74-101 | one more probe at the end of a run is one more watch step after it |
| Watcher.RunSendsOncePerFlip | Watcher/watcher.py:74-101 | over any probe sequence the notifications equal the state flips of its readings, the log lines equal the probes, and the final state is set by the last probe |
| Watcher.SteadyProbesNotifyOnce | Watcher/watcher.py:74-101 | a sustained run of one kind of outcome notifies at most once, on its first probe and only if the state changes |
| Watcher.ExposedThenRecovered | Watcher/watcher.py:86-101 | three exposed probes then two normal ones, from a working tunnel, give exactly two notifications |
| Watcher.Watcher.constructor | Watcher/watcher.py:10-38 | the watcher comes into use iff the required variables are set and `timer` is absent or a number; a missing variable logs the two start-up lines and a bad timer logs nothing; a working watcher has the normalised address, the copied keywords, timer (default 360) and one test notification, and its state is 0 |
| Watcher.Watcher.VerifyInput | Watcher/watcher.py:56-67 | a missing required variable only logs; otherwise ip, the normalised address, the copied keywords and the parsed or default timer are set |
| Watcher.Watcher.CopyKeywords | Watcher/watcher.py:64-66 | the keyword loop adds the environment's pushover variables to the data |
| Watcher.Watcher.TestPushover | Watcher/watcher.py:69-72 | the test logs its line, sets the confirmation message and sends the data once |
| Watcher.Watcher.AbortedTest | Watcher/watcher.py:69-72 | without an address, the test logs its line and sets the confirmation message, and sends nothing |
| Watcher.Watcher.DockerLog | Watcher/watcher.py:43-44 | appends one log line |
| Watcher.Watcher.SendPushover | Watcher/watcher.py:46-47 | appends one notification of the current data to the current address |
| Watcher.Watcher.Respond | Watcher/watcher.py:74-101 | one call of watch performs exactly the step of the transition table |
| Watcher.Watcher.Watch | Watcher/watcher.py:74-101 | watch performs the step, records the probe, keeps the invariant, and the notifications since start-up equal the flips of all readings so far |

## Left out

- HTTP traffic is not performed: requests become `Call` values and answers become parameters. Because `requests.json()` is not modelled, the answer to the send is represented only by its optional `receipt` field.
- The 4xx branch of `Request.__init__` (Notifier/pushover.py:43-47) is left out. It catches its own `RequestError` and returns a string from `__init__`. A direct `Request(...)`, as in `poll` and `cancel`, then raises TypeError; `MessageRequest.__init__` discards the string and goes on to the receipt lookup, whose KeyError is modelled as `ReceiptMissing`. Only the error text (`RequestError.__str__`) is modelled.
- `Pushover.sounds` and its process-wide cache, `verify` and `glance` are plain request wrappers. They are left out, and the sound list is a parameter of `Message`.
- `Notifier/notifier.py` and `PushoverServer/server.py` are not part of this model: they are the HTTP front-end.
- The main loop of `watcher.py` (probe, then sleep `timer` seconds, forever) is not part of this model. `Watcher.Run` stands for any finite prefix of it.
- `docker_log`'s time stamp and shell echo, and `send_pushover`'s logging of the response status, are I/O and are left out.
- Pushover.Pushover.Message: the `timestamp` keyword is modelled as the NameError it raises. `distutils` is never imported, so that branch cannot run, and its current-time payload is not modelled.
- Pushover.Pushover.Message: the `print` of a caught ValueError is not modelled; the rejection is returned instead.
- Pushover.Screen: values are text, integers or booleans. `int()` on floats or other objects, and the TypeError it can raise, are not modelled.
- Builtins.ParseInt: Python's `int()` also accepts surrounding whitespace, underscores between digits and non-ASCII digits; the model does not.
- Pushover.MessageRequest.Poll: the receipt answer is a record with all nine fields present. A KeyError or ValueError from a malformed answer is not modelled, and the flags are read as integers (non-zero is true).
- Pushover.Prepare: the attachment split is modelled on values. The in-place deletion from the caller's dictionary, and the aliasing between that dictionary and the request's payload, are not captured.
- Watcher.Watcher.constructor: when construction raises, because a required variable is missing (AttributeError in `test_pushover`) or `timer` is not a number (ValueError), the model records it as `configured == false`. `Watch` requires a configured watcher.
- Watcher.Step: a probe that fails with an exception other than a connection error is not modelled.
- Watcher.Watcher.SendPushover: the post is assumed to succeed. In the source, a failing post escapes watch before `vpn_state` is updated and ends the main loop.
