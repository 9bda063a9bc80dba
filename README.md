# Water and air pollution tracking server, modelled in Dafny

The server of this system answers three gRPC services. An air-quality service
answers one query with a synthetic CO2, temperature and humidity reading. A
water-quality service has two calls. A forecast stream sends five synthetic
readings two seconds apart. A sample upload counts the samples a client streams
in. A customer-support chat relays every message to every named client. All
the server's logic is in `CA-lcr/server/app.js`. This project models that logic
and proves what it promises.

- `quality.dfy` (module `Quality`) covers the two classifiers and the bounded
  random helper. CO2 levels are `int`. pH levels are `real`, which is exact in
  Dafny; the code only compares them against 6.5 and 8. `Math.random()` is a
  real draw `u` with `0 <= u < 1`, and `GetRandomNumber` is
  `Floor(u * (max - min + 1)) + min` in exact arithmetic. The code computes it
  in IEEE doubles, so a single draw can land on a neighbouring integer in the
  model; the range [min, max] and the fact that every integer in it is reached
  hold in both.
- `air.dfy` (module `AirService`) covers `getAirQuality`. It reads the district
  but never checks it, and it always answers.
- `forecast.dfy` (module `WaterForecast`) covers the forecast stream.
  - Class `ForecastSession` holds the handler's counter, the interval (set or
    cleared), the readings written so far and whether the server ended the
    stream.
  - `Tick` is one firing of the interval. `ClientEnd` is the client's `'end'`
    event.
  - `GetWaterQualityForecast` runs one whole call over a sequence of firings
    and client ends. It is proved against `FiredBeforeEnd`, the firings that
    come before the client's end.
- `upload.dfy` (module `WaterUpload`) covers the upload handler.
  - Class `UploadSession` holds `sampleCount` and the samples taken in, each
    with the number the handler reports it under.
  - `UploadWaterQualitySample` runs one call over a sequence of `'data'`,
    `'end'` and `'error'` events.
- `support.dfy` (module `CustomerSupport`) covers the chat relay.
  - Class `ChatServer` holds the module-level `clients` table as
    `map<string, Client>`. It also holds, for every opened call, the messages
    the server wrote on it, and the set of calls the server has ended.
  - `Broadcast` is the `for...in` loop of the `'data'` handler. It visits the
    entries in any order and is proved equal to `Fanout`. In `Fanout`, each
    call gets one copy of the message for each table entry that routes to it.

The code behaves as follows, and the model follows it:

- A name is bound to the call of the first message that carries it. A later
  message with that name from another call does not take the name over.
- No entry is ever removed. The chat `'end'` handler only ends the call.
- The sender receives its own message.
- The upload handler never replies: no summary is sent, at the end or at any
  other time.
- There is no server-side district check and no `InvalidArgument` error.
- Forecast figures are integers, because the generator returns integers.

A call registered under two names (one call that sent messages with two
different names) receives each later message twice, once per entry. A call
registered under one name receives each message exactly once
(`FanoutToSoleName`).

## Model

| member | source | states |
|---|---|---|
| `Quality.DetermineAirQuality` | CA-lcr/server/app.js:37-49 | "Very good" exactly below 350; "Good" exactly on [350,450); "Fair" exactly on [450,600); "Poor" exactly on [600,800); "Very poor" exactly from 800 up |
| `Quality.DetermineAirQualityByBand` | CA-lcr/server/app.js:37-49 | the label equals the entry of the five-label scale at the number of thresholds 350, 450, 600, 800 that the level has reached |
| `Quality.AirQualityMonotone` | CA-lcr/server/app.js:37-49 | a higher CO2 level never gets a better label on the scale |
| `Quality.DetermineWaterQuality` | CA-lcr/server/app.js:58-66 | "Poor" exactly below pH 6.5; "Good" exactly on [6.5,8); "Very good" exactly from 8 up |
| `Quality.WaterQualityMonotone` | CA-lcr/server/app.js:58-66 | the label is one of the three, and a higher pH never gets a worse label |
| `Quality.WaterQualityOfIntegerLevels` | CA-lcr/server/app.js:58-66 | the pH levels 6, 7 and 8 get "Poor", "Good" and "Very good" |
| `Quality.GetRandomNumber` | CA-lcr/server/app.js:52-54 | for any draw in [0,1) and min <= max, the result lies in [min, max] |
| `Quality.GetRandomNumberCovers` | CA-lcr/server/app.js:52-54 | every integer in [min, max] is the result of some draw in [0,1), so the range is exactly [min, max] |
| `AirService.GetAirQuality` | CA-lcr/server/app.js:19-34 | every reply has CO2 in [300,500], temperature in [10,30] and humidity in [30,70]; its label is the CO2 classifier's label, and so it is never "Poor" or "Very poor" |
| `AirService.GetAirQualityIgnoresDistrict` | CA-lcr/server/app.js:19-31 | the reply does not depend on the district; no district is rejected |
| `AirService.GetAirQualityReachesEachLabel` | CA-lcr/server/app.js:22-27 | each of "Very good", "Good" and "Fair" is returned for some draw |
| `WaterForecast.NewReading` | CA-lcr/server/app.js:82-93 | every reading has pH in [6,8], temperature in [10,20] and dissolved oxygen in [5,10], and its label is the pH classifier's label for its pH |
| `WaterForecast.ForecastSession.constructor` | CA-lcr/server/app.js:72-74 | a call starts with a zero counter, a set interval, no writes and an open stream |
| `WaterForecast.ForecastSession.Tick` | CA-lcr/server/app.js:74-95 | a cleared interval changes nothing; with the counter at 5 the interval is cleared and the stream ended, with no write; otherwise one new reading is appended and the counter goes up by one; the counter never passes 5 and always equals the number of writes |
| `WaterForecast.ForecastSession.ClientEnd` | CA-lcr/server/app.js:97-101 | the client's end clears the interval and changes nothing else, so nothing is written afterwards |
| `WaterForecast.Dispatch` | CA-lcr/server/app.js:74-101 | handing one more firing or client end to the session keeps it in the state the whole event sequence determines |
| `WaterForecast.GetWaterQualityForecast` | CA-lcr/server/app.js:69-102 | the stream carries the readings of the first min(n, 5) firings, where n counts the firings before the client's end; the server ends it exactly when n > 5, that is on the firing after the fifth write; every reading is in range |
| `WaterForecast.UncancelledCallCountsEveryFiring` | CA-lcr/server/app.js:74-94 | while the client keeps the call open every firing counts, so six firings give five readings and the server's end |
| `WaterForecast.CancelAfterSecondReading` | CA-lcr/server/app.js:97-101 | a client that ends the call after two readings gets no third, whatever firings follow |
| `WaterUpload.UploadSession.constructor` | CA-lcr/server/app.js:108 | the count starts at zero with nothing taken in |
| `WaterUpload.UploadSession.OnData` | CA-lcr/server/app.js:110-112 | each 'data' event adds one to the count and reports the sample under the new count, so the k-th sample is number k |
| `WaterUpload.UploadSession.OnEnd` | CA-lcr/server/app.js:113-116 | the 'end' event leaves the count and the samples as they are, and no reply is sent |
| `WaterUpload.UploadSession.OnError` | CA-lcr/server/app.js:117-119 | the 'error' event leaves the count and the samples as they are |
| `WaterUpload.UploadWaterQualitySample` | CA-lcr/server/app.js:105-120 | after any events the count equals the number of 'data' events, and the k-th sample is reported as number k |
| `WaterUpload.CountsOfSmallUploads` | CA-lcr/server/app.js:108-116 | three samples then the end give a count of 3; no samples then the end give 0 |
| `CustomerSupport.Register` | CA-lcr/server/app.js:127-131 | the table gains the message's name unless it is a name every JavaScript object inherits (such as "toString"), which the `in` test always finds, so the table is then unchanged; every existing entry is kept unchanged; a new name is bound to the sending call under its own name |
| `CustomerSupport.Broadcast` | CA-lcr/server/app.js:132-137 | the write loop, in any visiting order, gives each call one copy of the message per table entry that routes to it |
| `CustomerSupport.FanoutReachesEveryClient` | CA-lcr/server/app.js:132-137 | every call that some entry routes to keeps its old stream as a prefix, followed by one or more copies of the message (one per entry routing to it), name and text unchanged |
| `CustomerSupport.FanoutToSoleName` | CA-lcr/server/app.js:132-137 | a call that only one entry routes to gets the message exactly once, appended to its stream |
| `CustomerSupport.FanoutSkipsUnbound` | CA-lcr/server/app.js:132-137 | the stream of a call that no entry routes to is unchanged |
| `CustomerSupport.ChatServer.constructor` | CA-lcr/server/app.js:122 | the table starts empty |
| `CustomerSupport.ChatServer.Open` | CA-lcr/server/app.js:124-125 | a new call registers nothing until it sends a message |
| `CustomerSupport.ChatServer.OnData` | CA-lcr/server/app.js:126-138 | the table becomes the insert-if-absent update; its keys only grow, and a known or inherited name leaves the table as it was; the streams become the fan-out over the new table; every entry stays keyed by its own name and no inherited name is ever an entry |
| `CustomerSupport.InheritedNameReachesNobody` | CA-lcr/server/app.js:127-137 | a first message whose name is inherited registers nothing and is written to no call, not even the sender's |
| `CustomerSupport.ChatServer.OnEnd` | CA-lcr/server/app.js:139-142 | the call is ended; the table and the streams are unchanged, so no entry is removed |
| `CustomerSupport.ChatServer.OnError` | CA-lcr/server/app.js:143-145 | an error changes nothing |
| `CustomerSupport.TwoClientsTable` | CA-lcr/server/app.js:126-137 | after Alice and then Bob join and Alice speaks, the table has both names; Bob's stream holds his own join notice and Alice's message, unchanged |
| `CustomerSupport.TwoClientsChat` | CA-lcr/server/app.js:122-146 | the same exchange on the server object, then Bob's end: Bob's stream is as above and the table still has two entries |

## Left out

- gRPC plumbing is not modelled: proto loading, server creation, service
  registration and binding to port 40000 (CA-lcr/server/app.js:1-15 and
  150-169). It is library code and network I/O.
- Console logging is not modelled. The upload's log line appears only as the
  number each sample is reported under.
- Timing is not modelled. The 2000 ms interval is a sequence of discrete
  firings; how firings and the client's end interleave is an input.
- `Math.random()` is not modelled. Each call takes its value as a real
  parameter in [0, 1).
- Transport behaviour after a call has ended is not modelled. A write to an
  ended chat call is recorded like any other write, and delivery is not
  modelled.
- JavaScript numbers are modelled as unbounded integers and exact reals, not
  IEEE doubles. `Quality.GetRandomNumber` can therefore map a single draw to a
  neighbouring integer of the one the code computes; its range and coverage
  are the same. A NaN from the client's `parseFloat` is not modelled; the
  server does not store uploaded samples, it only logs them.
- Concurrency is not modelled. Node runs each handler to completion on one
  thread, so the handlers are sequential methods.
- The order in which `for...in` visits the table is not modelled. `Broadcast`
  is proved for every visiting order; the order does not change any call's
  stream.
- The command-line client (`CA-lcr/client/app.js`) is not part of this model.
  It has menus, prompts and gRPC calls. Its own checks are the 1-24 district
  loop and the "q"/"quit" commands. The join notice it sends is used in
  `TwoClientsTable` and `TwoClientsChat`.
- `CustomerSupport.Register`: a message whose `name` field is empty is not
  modelled as the protobuf library decodes it (with default values off, the
  field may be absent and the table key becomes "undefined"); the model uses
  the name as given. Names inherited from `Object.prototype` are modelled;
  other properties a runtime might add to it are not.
