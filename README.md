# monibot-go client: the fake sender and the request encoding

This project models the part of the monibot Go client that its API test
pins down exactly. `TestApi` drives every client operation against a fake
HTTP sender, covering pings, watchdogs and heartbeats, machines, samples
and texts, and metrics with inc/set/values.

The fake sender does two things:

- it logs each call as one trimmed line, `METHOD path body`;
- it answers from a first-in first-out queue of canned replies, and fails
  with `no response for METHOD path` once the queue is empty.

The model has three layers.

- **The sender** (`Sender`) is a class that updates two `seq` fields in
  place:
  - `calls`, the log;
  - `responses`, the queue.

  One `Send` is proved equal to a pure step function, `Step`.
  `SendAll`, a loop of `Send` calls on the class, is proved equal to the
  iterate `Steps`. The lemmas about `Steps` then cover the log (one line
  per call, in order), FIFO hand-out, and exhaustion, so they hold for the
  class's state after any series of sends.
- **The request encoding** is a set of pure functions:
  - `Facade.RequestFor` maps each operation to the verb, path and form
    body it sends;
  - `Forms` builds the URL-encoded bodies;
  - `Percent` does UTF-8 and RFC 3986 section 2.1 percent-encoding with
    upper-case hex;
  - `Decimal` renders integers, and loads with three fractional digits;
  - `Batch` builds the compact value-batch encoding;
  - `Civil` computes the epoch milliseconds of a UTC civil time.

  Each encoder has a partner that proves it can be read back: a route
  parser for paths, a form parser and field decoders for bodies, a
  percent-decoder for escapes, and a batch decoder.
- **Composition** is `Facade.Api.Call`, which does one `Send` per
  operation and returns the sender's reply, error included, unchanged.
  `TestApi` replays every case of the test (api_test.go:30-202). For each
  case it proves the logged line the test expects, byte for byte, and the
  error the test expects.

Integers of the Go code that are `int64` are the subset type
`Decimal.int64`. Loads (Go `float64`) are held as whole thousandths, so
1.01 is 1010, and are rendered the way `%.3f` renders them.

The compact value-batch encoding is inferred from the one example the test
gives (api_test.go:196-200), because the `Api` implementation is not part
of this model. The inferred rule:

- sort the values ascending;
- write each distinct value once, followed by `:n` when it occurs n > 1
  times;
- join the pieces with `,`.

## Model

| member | source | states |
|---|---|---|
| Sender.FakeSender.Send | api_test.go:210-219 | one Send appends exactly the trimmed "METHOD path body" line to `calls`; with an empty queue it returns no data and the error "no response for METHOD path" and the queue stays empty; otherwise it returns the head reply's data and error unchanged and removes only the head |
| Sender.FakeSender.SendAll | api_test.go:210-219 | a series of Sends on the fake sender leaves exactly the state, and hands out exactly the replies, of the pure series `Steps`, so the log, FIFO and exhaustion lemmas about `Steps` hold for the class |
| Sender.StepsSnoc | api_test.go:210-219 | one more Send after a series is one more Step on the series' final state, its reply appended last |
| Sender.FakeSender.Enqueue | api_test.go:33 | appends one reply at the back of the queue and leaves the call log alone |
| Sender.FakeSender.ClearCalls | api_test.go:32 | empties the call log and leaves the queue alone |
| Sender.Step | api_test.go:210-219 | the new log is the old log plus the call's line; an empty queue yields the no-response error and stays empty; a non-empty one yields its head and keeps its tail |
| Sender.CallLine | api_test.go:211 | the logged line: verb, path and body joined by blanks and trimmed; CallLineNoBody, CallLineWithBody and Facade.LineOf state what it is for every operation |
| Sender.NoResponse | api_test.go:214 | the no-response error, "no response for" followed by verb and path; StepsExhausted and Facade.RunUnanswered state when it is returned |
| Sender.StepsLog | api_test.go:211-212 | after any series of Sends the log is the old log followed by one line per call, in call order, whatever the queue holds |
| Sender.StepsFifo | api_test.go:216-218 | while replies last, the k-th Send gets the k-th queued reply, and exactly the handed-out prefix leaves the queue (first in, first out) |
| Sender.StepsExhausted | api_test.go:213-215 | once the queue is empty every further Send fails with the no-response error naming its own verb and path, and the queue stays empty |
| Sender.CallLineNoBody | api_test.go:211 | with an empty body the logged line is "verb path" with no trailing blank |
| Sender.CallLineWithBody | api_test.go:211 | with a body that does not end in white space the logged line is verb, path and body separated by single blanks |
| Text.TrimSpace | api_test.go:211 | the result is a contiguous piece of the input that neither starts nor ends with white space, and all that was cut off is white space |
| Text.TrimSpaceTrailing | api_test.go:211 | trimming a trimmed string followed by blanks gives back the trimmed string |
| Text.SplitJoin | api_test.go:129 | splitting a '&'- or ','-joined list whose parts lack the separator gives back the parts |
| Facade.RequestFor | api_test.go:34-200 | the verb is GET or POST; ParseRouteOf states that its path gives back the endpoint and the id, NoBodyOf which operations send a body, BodyOf that each body gives back its argument |
| Facade.ParseRouteOf | api_test.go:37-200 | every request path names its endpoint unambiguously and carries the id verbatim: parsing verb and path gives back the operation's endpoint and id |
| Facade.PathEnd | api_test.go:66-200 | no path is empty or ends in white space, given ids that do not |
| Facade.NoBodyOf | api_test.go:37-105 | an operation sends an empty body exactly when it is a read or the heartbeat |
| Facade.WriteBodyNonEmpty | api_test.go:129-200 | the sample, text, inc, set and values writes always send a body |
| Facade.BodyOf | api_test.go:109-200 | every write's body carries its argument back out: the sample decodes to the sample, the text body is "text=" followed by the escaped UTF-8 of the text, the inc/set body reads back as the decimal value, the values body decodes to the sorted values |
| Facade.SampleBodyOf | api_test.go:126-129 | the body of a sample post decodes back to exactly the sample |
| Facade.TextBodyOf | api_test.go:137-140 | the body of a text post starts "text=", and the rest percent-decodes to the UTF-8 of the text |
| Facade.ValueBodyOf | api_test.go:176-189 | the body of an inc or set post is one "value" field holding the decimal value |
| Facade.ValuesBodyOf | api_test.go:196-200 | the body of a values post is one "values" field whose compact batch decodes to the sorted values |
| Facade.LineWithoutBody | api_test.go:37-105 | a call without a body logs as "verb path", the trailing blank trimmed off |
| Facade.LineWithBody | api_test.go:129-200 | a call with a body logs as verb, path and body, because a form body never ends in white space |
| Facade.LineOf | api_test.go:37-200 | the logged line of every operation is verb, path and body joined by single blanks, minus the trailing blank when there is no body (ids that end in white space excluded) |
| Facade.Api.Call | api_test.go:34-196 | an operation is exactly one Send of its request, and the reply, data and error, is returned unchanged |
| Facade.RunCase | api_test.go:31-201 | a case of the test with one queued reply logs exactly one line, leaves no reply queued and returns the queued reply's data and error unchanged |
| Facade.RunUnanswered | api_test.go:213-215 | an operation with no reply queued logs its line and fails with "no response for" followed by its verb and path |
| Forms.SampleBody | api_test.go:126-129 | the sample form body; SampleBodyPlain states its layout and SampleBodyRoundTrip that it decodes back to the sample |
| Forms.TextBody | api_test.go:136-140 | the text form body; TextBodyOneField states that it is "text=" and the escaped text, which decodes back |
| Forms.ValueBody | api_test.go:176-189 | the inc/set form body; ValueBodyRoundTrip states that it is one "value" field that parses back to the value |
| Forms.ValuesBody | api_test.go:196-200 | the values form body; ValuesBodyRoundTrip states that it is one "values" field whose batch decodes to the sorted values |
| Forms.SampleBodyPlain | api_test.go:129 | the sample body is the eleven fields tstamp, load1, load5, load15, cpu, mem, disk, diskRead, diskWrite, netRecv and netSend, in that order, as "key=value" joined by '&' with no escaping |
| Forms.SampleBodyFields | api_test.go:129 | parsing the sample body with the eleven keys gives back the eleven rendered values |
| Forms.SampleBodyRoundTrip | api_test.go:113-129 | decoding a sample body gives back the sample, every integer and every load in thousandths |
| Forms.TextBodyOneField | api_test.go:136-140 | the text body is "text=" followed by the percent-encoded UTF-8 of the text, and that decodes back |
| Forms.ValueBodyRoundTrip | api_test.go:176-189 | the value body is one field "value" holding the decimal integer, which parses back to the value |
| Forms.ValuesBodyRoundTrip | api_test.go:196-200 | the values body is one field "values" whose compact batch decodes to the values sorted |
| Forms.ParseFormBody | api_test.go:129 | a form of fields whose keys lack '&' and whose values are ASCII parses back to its values |
| Percent.EncodeValue | api_test.go:136-200 | the escaped form value (the text at line 140, the batch at lines 199-200) contains only RFC 3986 unreserved characters and the "%" of its escapes; UnescapeEscape and AsciiValueRoundTrip state that it decodes back, EncodeUnreserved that unreserved text is kept, EncodeLineFeed the %0A of a line feed |
| Percent.UnescapeEscape | api_test.go:140 | percent-decoding an escaped byte string gives back the bytes |
| Percent.EncodeLineFeed | api_test.go:136-140 | a line feed is encoded as %0A |
| Percent.EncodeUnreserved | api_test.go:129 | text made of RFC 3986 unreserved characters (digits, letters, '-', '.', '_', '~') is encoded as itself |
| Percent.EncodeValueAppend | api_test.go:136-140 | encoding a concatenation is the concatenation of the encodings |
| Percent.AsciiValueRoundTrip | api_test.go:140 | decoding the encoding of an ASCII text gives back the text |
| Decimal.IntToString | api_test.go:129-189 | the decimal rendering of an integer (the sample fields at line 129, the inc and set values at lines 179 and 189); ParseIntToString states that it parses back |
| Decimal.FormatMilli | api_test.go:115-129 | a load in thousandths rendered with exactly three fractional digits, made of digits, sign and point only; ParseFormatMilli states that it parses back |
| Decimal.ParseIntToString | api_test.go:129 | the decimal rendering of every integer parses back to it |
| Decimal.ParseFormatMilli | api_test.go:115-117 | a load rendered with three fractional digits parses back to its thousandths |
| Decimal.Pad3Value | api_test.go:129 | the three fractional digits are the zero-padded value of the thousandths |
| Batch.Compact | api_test.go:196-200 | the compact batch encoding; DecodeCompactRoundTrip, CompactOrderFree, CompactNoLonger and RunsAscending state its properties |
| Batch.Sort | api_test.go:196-200 | the batch is put in ascending order and is a permutation of its input |
| Batch.SortedUnique | api_test.go:196-200 | two sorted permutations of the same values are equal, so the order the values come in does not matter |
| Batch.ExpandRuns | api_test.go:196-200 | expanding the runs (value and count) of a sequence gives back the sequence |
| Batch.RunsAscending | api_test.go:196-200 | the runs of a sorted batch have strictly ascending values, so each distinct value is written once |
| Batch.CompactOrderFree | api_test.go:196-200 | the compact encoding depends only on the values and their counts (determinism) |
| Batch.CompactNoLonger | api_test.go:196-200 | the compact encoding is never longer than the plain comma-separated list |
| Batch.DecodeCompactRoundTrip | api_test.go:196-200 | decoding the compact encoding gives back the values sorted ascending |
| Batch.DecodeRenderRun | api_test.go:199 | a run "v" or "v:n" decodes back to its value and count |
| Civil.UnixMilli | api_test.go:112-114 | `time.Date(...).UnixMilli()` for a UTC time, months past December carried into later years; Epoch, YearStep, NextDateIsNextDay and MonthCarry state its properties, TestApi.SampleTimestamp its value for the test |
| Civil.NextDateIsNextDay | api_test.go:112-114 | consecutive calendar days have consecutive day numbers, across month and year ends |
| Civil.MonthCarry | api_test.go:112 | a month past December carries into the next year, as the Go date constructor normalises it |
| Civil.YearStep | api_test.go:112-114 | the day count of a year's first day advances by exactly that year's length |
| Civil.Epoch | api_test.go:114 | 1970-01-01T00:00:00Z is epoch millisecond zero |
| TestApi.PingLine | api_test.go:31-38 | GET ping logs as "GET ping" |
| TestApi.WatchdogsLine | api_test.go:53-54 | GET watchdogs logs as "GET watchdogs" |
| TestApi.WatchdogLine | api_test.go:62-66 | GET watchdog/00000001 logs as "GET watchdog/00000001" |
| TestApi.HeartbeatLine | api_test.go:73-76 | the heartbeat logs as "POST watchdog/00000001/heartbeat" |
| TestApi.MachinesLine | api_test.go:92-93 | GET machines logs as "GET machines" |
| TestApi.MachineLine | api_test.go:101-105 | GET machine/01 logs as "GET machine/01" |
| TestApi.SampleTimestamp | api_test.go:112-114 | 2023-10-27T10:00:00Z is epoch millisecond 1698400800000 |
| TestApi.SampleLine | api_test.go:112-129 | the test's sample has the timestamp of 2023-10-27T10:00Z, and logs as "POST machine/00000001/sample tstamp=1698400800000&load1=1.010&load5=0.780&load15=0.120&cpu=12&mem=34&disk=12&diskRead=678&diskWrite=567&netRecv=13&netSend=14" |
| TestApi.TextLine | api_test.go:136-140 | the text "line1\nline2\n\n" logs as "POST machine/00000001/text text=line1%0Aline2%0A%0A" |
| TestApi.MetricsLine | api_test.go:156-157 | GET metrics logs as "GET metrics" |
| TestApi.MetricLine | api_test.go:165-169 | GET metric/01 logs as "GET metric/01" |
| TestApi.IncLine | api_test.go:176-179 | inc by 42 logs as "POST metric/00000001/inc value=42" |
| TestApi.SetLine | api_test.go:186-189 | set to 113 logs as "POST metric/00000001/set value=113" |
| TestApi.CompactTest | api_test.go:196-199 | the batch [3,5,2,5,0,3,4,3,1] compacts to "0,1,2,3:3,4,5:2" |
| TestApi.ValuesLine | api_test.go:196-200 | that batch logs as "POST metric/010101/values values=0%2C1%2C2%2C3%3A3%2C4%2C5%3A2" |
| TestApi.RunOn | api_test.go:32-38 | one case on a shared sender with nothing queued: the log is reset, one reply is queued, the operation runs, and afterwards the log holds exactly one line (the operation's), the queue is empty and the error is the queued one |
| TestApi.ReplayTestApi | api_test.go:25-202 | the whole test on one sender: the thirteen logged lines are exactly the ones the test asserts, the first ten cases return no error, the last three return "connect timeout", and no reply is left queued |

## Left out

- JSON decoding of the watchdog, machine and metric replies (api_test.go:43-64, 82-103, 146-167), and the `str` helper that formats them: it relies on Go's `encoding/json` and `fmt`. The replayed replies therefore carry an empty payload.
- Floating-point loads: a load is a whole number of thousandths, and `%.3f` is modelled on that. Rounding of a float to three digits is not modelled.
- `context.Context`, the real HTTP transport and the `internal/assert` helper: I/O and plumbing. The `ctx` argument of `Send` is dropped.
- Concurrency: the fake sender is used from one goroutine only.
- The `Api` implementation is not part of this model. Its request building is stated as the encoding the test asserts. The compact value-batch rule is an inference from the one example.
- Percent.EncodeValue: a space is escaped as %20 (RFC 3986 section 2.1), not as '+' the way Go's `url.QueryEscape` would write it. No case of the test contains a space.
- Percent.Utf8: Dafny `char` values are Unicode scalar values, so Go strings holding invalid UTF-8 are not modelled.
- Facade.LineOf: excludes ids that end in white space, because the fake sender's trim would cut that white space off the logged line.
- Decimal.int64: arithmetic overflow is not modelled. Every value is a mathematical integer within the `int64` range.
- Civil.UnixMilli: models `time.Date(...).UnixMilli()` for UTC only. Time zones and the `time` package itself are left out.
