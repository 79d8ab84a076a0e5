# Border router web core: a Dafny model

This project models three parts of the border router's web front end and proves properties of the models.

- **The mDNS / DNS-SD publisher** (`Mdns`, `mdns_publisher.dfy`) is a `Publisher` class with the source's fields. Its handles are NULL, live or already freed.
  - It either runs its own responder ("server" mode) or registers with the host daemon ("client" mode).
  - It creates and commits the service record. It renames the service on a name collision, stops its event loop on fatal failures and falls back from server to client mode on a host-name collision. It re-announces the service every time its periodic timer fires.
  - The discovery engine is an oracle: a `Script` of outcome queues and pending events. A ghost log records every engine call that creates, changes, commits, resets or frees engine state, every quit request and every timer armed. The engine's queries are not logged: whether a group is empty and the client or responder state are read from the model's group and state fields, and the alternative service name comes from an uninterpreted function fixed when the publisher is built. The event handlers, both CreateService overloads, UpdateService, the periodic re-publication, the quit request, the group resets and the setters are each proved equal to a pure function of the old state, and the properties are proved about those functions. The start-up methods, the event loop, Free, the collision restart and the poll and connection constructors state their effect field by field and as a prefix of the log.
- **The PSKc generator** (`Pskc`, `pskc.dfy`) is a `Generator` class over the salt and key arrays.
  - It builds the salt "Thread" || extended PAN ID || network name.
  - It runs PBKDF2 (section 5.2 of RFC 8018) with AES-CMAC-PRF-128 (RFC 4615) as the pseudo-random function, using 16384 iterations and a 16-byte key.
  - Its loops are proved against a functional definition of PBKDF2. The PRF itself is a parameter.
- **The web service's request logic** (`WebService`, `web_service.dfy`):
  - the JSON reply of a request;
  - the join, form and scan handlers, whose chains of WPAN controller calls stop at the first failure;
  - the containment check of the static-file handler;
  - the boot handler that configures and starts (or updates) the publisher.

  The module globals (network table, network name, extended PAN ID, started flag) form the `WebGlobals` class.

Two behaviours of the source are modelled as written:

- On a responder collision, the server connection is released without clearing its pointer. The `Free` that ends the restarted client run then releases it a second time: see `RestartAsClient`.
- Every boot puts another "nn=" / "xp=" prefix in front of the stored globals. So the second boot names the service "nn=<name>": see `PrefixAccumulates` and `OnBootMdnsRequest`.

## Model

| member | source | states |
|---|---|---|
| Mdns.LeadingFailures | src/web/mdns-publisher/mdns_publisher.cpp:161-188 | counts the rejected answers before the first accepted one: all earlier answers are rejections and the next one is accepted |
| Mdns.QuitPoll | src/web/mdns-publisher/mdns_publisher.cpp:190-193 | after a quit request, that poll's flag is set and every other poll's flag is unchanged |
| Mdns.RequestQuit | src/web/mdns-publisher/mdns_publisher.cpp:225-229 | a quit request changes only the quit flags and the log, appends exactly one quit call for the current poll, and keeps the poll-id invariant |
| Mdns.ResetGroup | src/web/mdns-publisher/mdns_publisher.cpp:288-294 | resetting one mode's group leaves the other mode's group, the name, the timers and the script untouched |
| Mdns.Renamed | src/web/mdns-publisher/mdns_publisher.cpp:180-188 | the new name is the engine's alternative for the current name |
| Mdns.RenameCalls | src/web/mdns-publisher/mdns_publisher.cpp:180-188 | k rejected adds produce 2k calls |
| Mdns.RenameCallsAt | src/web/mdns-publisher/mdns_publisher.cpp:161-188 | the i-th rejected add carries the i-th alternative name and is followed by a group reset |
| Mdns.CreateOnClient | src/web/mdns-publisher/mdns_publisher.cpp:148-196 | client-mode CreateService keeps every field outside the client group, the name, the script and the quit flags, only appends to the log, and keeps the poll-id invariant |
| Mdns.ClientCreateWithoutAdd | src/web/mdns-publisher/mdns_publisher.cpp:155-161 | a group that is neither absent nor empty is left alone with OK; a failed group creation returns FailedCreateGroup with one logged call, no rename and no quit |
| Mdns.ClientCollisionsRename | src/web/mdns-publisher/mdns_publisher.cpp:161-193 | after k leading rejections the service has the k-th alternative name; the group is committed or pending as the commit answer says; exactly k+1 add answers and one commit answer are consumed; the loop is told to quit only on a rejected commit; FailedAddService is reported whenever k > 0 |
| Mdns.CollisionCalls | src/web/mdns-publisher/mdns_publisher.cpp:161-193 | the client-mode call sequence for k collisions has 2k + 2 calls, or 2k + 3 when the commit is rejected |
| Mdns.CollisionCallsSplit | src/web/mdns-publisher/mdns_publisher.cpp:161-193 | that sequence is the k rename rounds, then the accepted add under the k-th name and the commit, then a quit request when the commit is rejected |
| Mdns.ClientCollisionsLog | src/web/mdns-publisher/mdns_publisher.cpp:161-193 | the calls client-mode CreateService makes on an empty group are exactly that collision sequence |
| Mdns.AcceptedAddStep | src/web/mdns-publisher/mdns_publisher.cpp:161-176 | an accepted add is followed by exactly one commit, and by a quit request when the commit is rejected |
| Mdns.AfterRejectedAdd | src/web/mdns-publisher/mdns_publisher.cpp:180-188 | a rejected add logs the add and a reset, renames the service, keeps every other record field and consumes an add answer |
| Mdns.RejectedAddStep | src/web/mdns-publisher/mdns_publisher.cpp:180-188 | a rejected add retries CreateService on the renamed, reset group and reports FailedAddService whatever the retry returns |
| Mdns.RejectedAnswerShifts | src/web/mdns-publisher/mdns_publisher.cpp:180-188 | consuming a rejected answer lowers the leading-failure count by one |
| Mdns.CreateOnServer | src/web/mdns-publisher/mdns_publisher.cpp:198-232 | server-mode CreateService never renames the service, touches neither the client group nor the timers, and only appends to the log |
| Mdns.ServerCreateOutcome | src/web/mdns-publisher/mdns_publisher.cpp:198-232 | the first rejected step (group creation, add, commit) picks the error, and every error requests loop quit as the last call; on success the last two calls are the accepted add and commit, and the group is committed |
| Mdns.ClientReaction | src/web/mdns-publisher/mdns_publisher.cpp:234-261 | RUNNING creates the service, FAILURE requests quit, COLLISION and REGISTERING reset the client group, CONNECTING changes nothing, and no reaction touches the server group or the timers |
| Mdns.ServerReaction | src/web/mdns-publisher/mdns_publisher.cpp:263-306 | RUNNING creates the service only when there is no group, REGISTERING resets the group, FAILURE requests quit, INVALID changes nothing, and the client group is never touched |
| Mdns.ClientGroupReaction | src/web/mdns-publisher/mdns_publisher.cpp:414-450 | FAILURE requests quit, UNCOMMITED, REGISTERING and ESTABLISHED change nothing, and no reaction touches the server group or the timers; what COLLISION does is stated by ClientGroupCollisionRepublishes |
| Mdns.ServerGroupReaction | src/web/mdns-publisher/mdns_publisher.cpp:452-487 | COLLISION renames to the alternative name and creates again, FAILURE requests quit, and every other state changes nothing |
| Mdns.Publish | src/web/mdns-publisher/mdns_publisher.cpp:308-342 | a timer firing keeps the poll, the connections and the pending events, and only appends to the log |
| Mdns.PublishArmsOneTimerPerRunningMode | src/web/mdns-publisher/mdns_publisher.cpp:308-342 | a firing arms one new timer on the current poll per running mode, none elsewhere, and changes nothing when neither mode runs |
| Mdns.PublishResetsBeforeRecreating | src/web/mdns-publisher/mdns_publisher.cpp:312-325 | the server half of a firing comes before the client half; the first call of each half that runs on an existing group is that group's reset; with the responder not running the server half does nothing |
| Mdns.Update | src/web/mdns-publisher/mdns_publisher.cpp:512-533 | the TXT update goes to the server group if there is one, else to the client group; with neither group it is OK and calls nothing; the result is OK exactly when the engine accepts; exactly one TXT-update answer is consumed when a group exists; nothing but the script and the log changes |
| Mdns.FreeCallsCount | src/web/mdns-publisher/mdns_publisher.cpp:97-132 | the number of times Free releases a given handle, as a sum over the five handles |
| Mdns.FreeReleasesEachHandleOnce | src/web/mdns-publisher/mdns_publisher.cpp:97-132 | Free releases each non-NULL handle exactly once and never a NULL one |
| Mdns.ClientGroupCollisionRepublishes | src/web/mdns-publisher/mdns_publisher.cpp:426-436 | a delivered client-group COLLISION publishes the service again: after k rejected adds the name is the (k+1)-th alternative of the old one, the group is committed or pending as the commit answer says, and the calls are the k rename rounds, the accepted add under the final name and the commit |
| Mdns.ServerGroupCollisionRepublishes | src/web/mdns-publisher/mdns_publisher.cpp:466-474 | a delivered server-group COLLISION renames the service to the alternative name; when the add and commit are accepted they are the last two calls, under that name, and otherwise the loop is told to quit |
| Mdns.React | src/web/mdns-publisher/mdns_publisher.cpp:57-95 | every reaction to a delivered event keeps the poll, the connections and the pending events, keeps the poll-id invariant and leaves a service name |
| Mdns.Publisher.constructor | src/web/mdns-publisher/mdns_publisher.cpp:134-146 | every handle is NULL, the port is 0 and nothing is set |
| Mdns.Publisher.SetServiceName | src/web/mdns-publisher/mdns_publisher.cpp:408-412 | the service name is set and nothing else changes |
| Mdns.Publisher.SetNetworkNameTxt | src/web/mdns-publisher/mdns_publisher.cpp:489-493 | the network-name TXT string is set and nothing else changes |
| Mdns.Publisher.SetExtPanIdTxt | src/web/mdns-publisher/mdns_publisher.cpp:495-499 | the extended-PAN-ID TXT string is set and nothing else changes |
| Mdns.Publisher.SetType | src/web/mdns-publisher/mdns_publisher.cpp:501-505 | the service type is set and nothing else changes |
| Mdns.Publisher.SetPort | src/web/mdns-publisher/mdns_publisher.cpp:507-510 | the port is set and nothing else changes |
| Mdns.Publisher.Free | src/web/mdns-publisher/mdns_publisher.cpp:97-132 | connections, poll and name become NULL; groups are left dangling (freed, not NULL); the log gains exactly FreeCalls of the old handles |
| Mdns.Publisher.RequestLoopQuit | src/web/mdns-publisher/mdns_publisher.cpp:190-193 | the new state is RequestQuit of the old one |
| Mdns.Publisher.CreateServiceOnClient | src/web/mdns-publisher/mdns_publisher.cpp:148-196 | the new state and the return code are CreateOnClient of the old state |
| Mdns.Publisher.AddOnClient | src/web/mdns-publisher/mdns_publisher.cpp:161-188 | on an empty group the new state and the return code are CreateOnClient of the old state |
| Mdns.Publisher.RetryWithAlternativeName | src/web/mdns-publisher/mdns_publisher.cpp:180-188 | a rejected add retries on the renamed state and returns FailedAddService |
| Mdns.Publisher.TakeAlternativeName | src/web/mdns-publisher/mdns_publisher.cpp:180-188 | the new state is AfterRejectedAdd of the old one |
| Mdns.Publisher.CommitOnClient | src/web/mdns-publisher/mdns_publisher.cpp:169-176 | the new state and the return code are CommitClient of the old state |
| Mdns.Publisher.CreateServiceOnServer | src/web/mdns-publisher/mdns_publisher.cpp:198-232 | the new state and the return code are CreateOnServer of the old state |
| Mdns.Publisher.AddOnServer | src/web/mdns-publisher/mdns_publisher.cpp:212-229 | the new state and the return code are AddServer of the old state |
| Mdns.Publisher.CommitOnServer | src/web/mdns-publisher/mdns_publisher.cpp:221-229 | the new state and the return code are CommitServer of the old state |
| Mdns.Publisher.ResetServerGroup | src/web/mdns-publisher/mdns_publisher.cpp:288-294 | the new state is ResetGroup(server) of the old one |
| Mdns.Publisher.ResetClientGroup | src/web/mdns-publisher/mdns_publisher.cpp:248-255 | the new state is ResetGroup(client) of the old one |
| Mdns.Publisher.HandleClientStart | src/web/mdns-publisher/mdns_publisher.cpp:234-261 | the new state is ClientReaction of the old one |
| Mdns.Publisher.HandleServerStart | src/web/mdns-publisher/mdns_publisher.cpp:263-306 | every state but COLLISION is handled as ServerReaction says; COLLISION leaves every connection and the poll NULL |
| Mdns.Publisher.RestartAsClient | src/web/mdns-publisher/mdns_publisher.cpp:278-286 | the old loop is told to quit, the server connection is released, a client run starts with a new poll, and a second release of the server connection follows in its Free |
| Mdns.Publisher.HandleServerState | src/web/mdns-publisher/mdns_publisher.cpp:263-306 | the new state is ServerReaction of the old one |
| Mdns.Publisher.HandleClientEntryGroupStart | src/web/mdns-publisher/mdns_publisher.cpp:414-450 | the new state is ClientGroupReaction of the old one |
| Mdns.Publisher.HandleServerEntryGroupStart | src/web/mdns-publisher/mdns_publisher.cpp:452-487 | the new state is ServerGroupReaction of the old one |
| Mdns.Publisher.HandleServicePublish | src/web/mdns-publisher/mdns_publisher.cpp:308-342 | the new state is Publish of the old one |
| Mdns.Publisher.RepublishOnServer | src/web/mdns-publisher/mdns_publisher.cpp:312-325 | the new state is RepublishServer of the old one |
| Mdns.Publisher.RepublishOnClient | src/web/mdns-publisher/mdns_publisher.cpp:327-341 | the new state is RepublishClient of the old one |
| Mdns.Publisher.UpdateService | src/web/mdns-publisher/mdns_publisher.cpp:512-533 | the new state and the return code are Update of the old state |
| Mdns.Publisher.Dispatch | src/web/mdns-publisher/mdns_publisher.cpp:57-95 | an event the engine cannot deliver changes nothing; a delivered event (other than a server collision) changes the state as React says |
| Mdns.Publisher.Deliver | src/web/mdns-publisher/mdns_publisher.cpp:65-95 | the same, for every event but a change of the responder's state |
| Mdns.Publisher.DeliverClientChange | src/web/mdns-publisher/mdns_publisher.cpp:81-87 | a client state change on a live client changes the state as React says, and otherwise nothing |
| Mdns.Publisher.DeliverServerGroupChange | src/web/mdns-publisher/mdns_publisher.cpp:65-72 | a server group change on a live, populated group changes the state as React says (after a COLLISION the engine has withdrawn the group's entries), and otherwise nothing |
| Mdns.Publisher.DeliverClientGroupChange | src/web/mdns-publisher/mdns_publisher.cpp:89-95 | a client group change on a live, populated group changes the state as React says (after a COLLISION the engine has withdrawn the group's entries), and otherwise nothing |
| Mdns.Publisher.DeliverTimer | src/web/mdns-publisher/mdns_publisher.cpp:74-79 | a firing consumes one timer of that poll and republishes; with no timer armed, nothing changes |
| Mdns.Publisher.RunLoop | src/web/mdns-publisher/mdns_publisher.cpp:361 | the loop ends only once its poll was told to quit, was replaced, or no event is left; the log only grows |
| Mdns.Publisher.NewPoll | src/web/mdns-publisher/mdns_publisher.cpp:350-351 | a new poll gets a fresh id with its quit flag cleared, or the poll pointer becomes NULL |
| Mdns.Publisher.NewConnection | src/web/mdns-publisher/mdns_publisher.cpp:352-354 | the connection of the requested mode becomes live or NULL as the engine answers, and the other mode's connection is untouched |
| Mdns.Publisher.ArmPeriodicTimer | src/web/mdns-publisher/mdns_publisher.cpp:356-360 | one more timer is armed on the current poll |
| Mdns.Publisher.ConnectAndRun | src/web/mdns-publisher/mdns_publisher.cpp:352-361 | a failed connection consumes one connection answer, logs one call, leaves that mode's connection NULL with its state reset, keeps the other mode's connection and state, and changes no other field; a live one arms a timer before the loop runs |
| Mdns.Publisher.StartClient | src/web/mdns-publisher/mdns_publisher.cpp:344-367 | the result is FailedCreatePoll, FailedCreateClient or OK as the engine answers; Free runs on every exit, so both connections end NULL and both groups released or absent; the service type, port and TXT strings are kept; each failure path's calls are given exactly |
| Mdns.Publisher.StartServer | src/web/mdns-publisher/mdns_publisher.cpp:369-406 | the result is FailedCreatePoll, FailedCreateServer or OK as the engine answers; Free runs on every exit, so both connections end NULL and both groups released or absent; the service type, port and TXT strings are kept; each failure path's calls are given exactly |
| Pskc.Salt | src/web/pskc-generator/pskc.cpp:43-56 | the salt is "Thread", then the 8-byte extended PAN ID, then the network name |
| Pskc.Int32BE | src/web/pskc-generator/pskc.cpp:84-87 | the block counter is written as four bytes |
| Pskc.Int32BERoundTrip | src/web/pskc-generator/pskc.cpp:84-87 | reading the four bytes back big-endian gives the counter again |
| Pskc.Blocks | src/web/pskc-generator/pskc.cpp:79-114 | the key blocks from index i on, cut to the requested length, are exactly that long |
| Pskc.Pbkdf2 | src/web/pskc-generator/pskc.cpp:68-116 | the derived key has the requested length |
| Pskc.BlocksStep | src/web/pskc-generator/pskc.cpp:110-113 | each turn of the outer loop contributes min(remaining, 16) bytes of the current block, and the rest of the key comes from the next block index |
| Pskc.PskcIsFirstBlock | src/web/pskc-generator/pskc.cpp:76-114 | a 16-byte PSKc is the first PBKDF2 block whole |
| Pskc.FirstBlockUsesSaltAndCounter | src/web/pskc-generator/pskc.cpp:81-91 | U_1 of the first block is the PRF of the salt followed by 00 00 00 01 |
| Pskc.CopyInto | src/web/pskc-generator/pskc.cpp:48-55 | the copy overwrites exactly the target range and keeps the bytes around it |
| Pskc.SaltBuffer | src/web/pskc-generator/pskc.cpp:47-58 | the buffer holds the prefix and extended PAN ID, then the name when it is non-empty, and zeros after that |
| Pskc.Generator.SetSalt | src/web/pskc-generator/pskc.cpp:41-66 | for a name without zero bytes (a C string), the buffer becomes SaltBuffer; the salt length becomes 14 plus the name length, and the salt is Salt; an empty name leaves the length unchanged |
| Pskc.Generator.Pbkdf2Cmac | src/web/pskc-generator/pskc.cpp:68-116 | the key buffer holds PBKDF2 with 16384 iterations over the passphrase and the first saltLen salt bytes |
| Pskc.KeyBlock | src/web/pskc-generator/pskc.cpp:81-108 | the key block is F of RFC 8018 for this block counter, computed with 16384 iterations |
| Pskc.XorInto | src/web/pskc-generator/pskc.cpp:104-107 | each byte of the key block is xored with the PRF output |
| WebService.HttpReponse | src/web/web-service/web_service.cpp:86-102 | the reply echoes the error code, and its result is "successful" exactly when the error is OK and "failed" exactly when it is not |
| WebService.RunSteps | src/web/web-service/web_service.cpp:122-134 | a chain makes at most as many calls as it has steps |
| WebService.Calls | src/web/web-service/web_service.cpp:122-134 | the calls of a chain are its steps' calls, in order |
| WebService.FirstFailure | src/web/web-service/web_service.cpp:122-134 | the first rejected call's index never exceeds the chain length |
| WebService.FirstFailureFromSpec | src/web/web-service/web_service.cpp:122-134 | every call before that index is accepted, and the call at it is rejected |
| WebService.FirstFailureShift | src/web/web-service/web_service.cpp:122-134 | consuming one accepted answer shifts the first failure by one |
| WebService.FirstFailureDecides | src/web/web-service/web_service.cpp:122-134 | a chain makes calls 0..k and returns step k's failure status, where k is the first rejected call; when all calls are accepted it makes them all and returns OK |
| WebService.ChainSucceedsIffAllAccepted | src/web/web-service/web_service.cpp:138-143 | a chain returns OK if and only if every call was accepted, and then it made every call |
| WebService.JoinSteps | src/web/web-service/web_service.cpp:122-134 | join is four steps, and each fails with an error status, never OK |
| WebService.FormSteps | src/web/web-service/web_service.cpp:163-192 | form is seven steps, and each fails with an error status, never OK |
| WebService.WithinRootIffPrefix | src/web/web-service/web_service.cpp:458-464 | the length-and-std::equal check accepts a path exactly when the root's components are a prefix of its components |
| WebService.DefaultResponse | src/web/web-service/web_service.cpp:446-511 | a served file lies within the web root, and a directory is served as its index.html; a path outside the root is rejected as such |
| WebService.Repeat | src/web/web-service/web_service.cpp:325-326 | k copies of a prefix are k times its length |
| WebService.PrefixAccumulates | src/web/web-service/web_service.cpp:325-326 | after k boots the stored name is k copies of the prefix followed by the name |
| WebService.Configured | src/web/web-service/web_service.cpp:322-328 | the advertised record is the network name, "_meshcop._udp", port 49191, "nn=" + name and "xp=" + extended PAN ID |
| WebService.WebGlobals.constructor | src/web/web-service/web_service.cpp:77-81 | the network table is zero-filled, the count is 0, the strings are empty and the publisher is not started |
| WebService.WebGlobals.SetNetworkInfo | src/web/web-service/web_service.cpp:104-108 | the two globals are set and the boot count starts again |
| WebService.WebGlobals.OnJoinNetworkRequest | src/web/web-service/web_service.cpp:110-144 | the reply is the join chain's first failure or OK; the globals take the joined network's name and hex extended PAN ID only when every call succeeded |
| WebService.WebGlobals.OnFormNetworkRequest | src/web/web-service/web_service.cpp:146-200 | the reply is the form chain's first failure or OK; the globals take the new network's name and extended PAN ID only when every call succeeded |
| WebService.WebGlobals.OnGetAvailableNetworkResponse | src/web/web-service/web_service.cpp:272-317 | the errors are leave, then scan, then no network; the count is set once both calls pass; on OK the table starts with the scan and the result lists it in order; otherwise the result is "failed" and the table is unchanged |
| WebService.WebGlobals.ListNetworks | src/web/web-service/web_service.cpp:289-302 | one result entry per table entry up to the count, in order |
| WebService.WebGlobals.ConfigurePublisher | src/web/web-service/web_service.cpp:322-328 | the publisher gets the Configured record, and the globals gain one "nn=" / "xp=" prefix |
| WebService.WebGlobals.OnBootMdnsRequest | src/web/web-service/web_service.cpp:319-346 | the reply is always OK; a later boot updates the TXT record of the publisher configured with the prefixed globals; the first boot starts the client run, which ends with the publisher freed (name, poll and both connections NULL, both groups released or absent) while the type, port and TXT strings set from the prefixed globals stay |

## Left out

- The discovery engine (Avahi) itself is not modelled. Its answers and events are oracle queues, and its alternative-name generator is an arbitrary function. Host names, interfaces, the responder configuration and `srand` are not modelled.
- The real timer period and the time of day are not modelled: armed timers are a multiset of poll ids.
- Syslog output is left out everywhere.
- The callback `HandleEntryGroupStart(AvahiEntryGroup *, ...)` assigns the group pointer it receives. The model delivers group events only for the publisher's own live group, so that assignment has nothing left to change. Callbacks the engine fires synchronously while an object is being created are not modelled: neither those fired inside the group constructor nor the client and server state callbacks fired inside `avahi_client_new` / `avahi_server_new`, before `mClient` / `mServer` are assigned and before the first timer is armed. The model delivers connection state changes only to a live connection, after the first timer is armed, so the order of those calls in the log can differ from the engine's.
- The engine's side of a group collision is modelled as Avahi behaves: the colliding group's entries are withdrawn before the COLLISION is reported, so the group is live and empty when the handler runs (`Withdrawn`). No other emptiness change made by the engine is modelled.
- Mdns.CreateOnClient: the source treats every rejected add as a name collision, not only a real one, and renames and calls `CreateService(aClient)` again with no bound. An engine that rejects every add (for example because the service type is invalid) makes the source recurse until its stack is exhausted. The model's add answers are a finite queue whose exhausted end answers "accepted", so that non-terminating run is excluded; every run the model covers ends after as many renames as leading rejections.
- Mdns.Publisher.RunLoop: also stops once its poll is replaced, which only the responder-collision restart does, after telling that poll to quit. Its ensures state only the exit condition and frame facts, not the per-event effect, which Dispatch states.
- Mdns.Publisher.HandleServerStart: for COLLISION it states the NULL handles only; the log of the restart is stated by RestartAsClient.
- Mdns.Publisher.Free: the timers of a freed poll are not removed. Poll ids are never reused, so those timers can never fire.
- AES-CMAC-PRF-128 is not modelled: the PRF is a parameter mapping a key and a message to a 16-byte block.
- Pskc.Generator: ComputePskc and the header that declares the class are not part of this model. The passphrase is given to the constructor.
- Pskc.Generator.constructor: the class's construction is in that header, so it has no row above. The model's constructor starts with a 30-byte salt buffer and a 16-byte key buffer, both zeroed, and an empty salt.
- Pskc.Generator.SetSalt: requires a salt no longer than the 30-byte buffer, which the source assumes without checking.
- HTTP, JSON, Boost property trees, D-Bus and the WPAN controller are abstracted. A handler receives its parsed fields, and the controller is an oracle answering accepted or rejected per call.
- wpantund's numeric status values live in a header that is not part of this model, so statuses are kept symbolic (`WpanStatus`).
- WebService.HttpReponse: the source narrows the status to `uint8_t` before writing it. Statuses are symbolic here, so that narrowing is not modelled.
- WebService.FormSteps: the PSKc set on the controller is a call without its value. The hex conversions (Hex2Bytes, Bytes2Hex, Long2Hex, `sprintf`) are not modelled, except that join stores Long2Hex of the extended PAN ID, given as a parameter.
- WebService.WebGlobals.OnJoinNetworkRequest: requires the index to lie within the table; the source indexes it unchecked, which is undefined behaviour otherwise.
- WebService.WebGlobals.OnGetAvailableNetworkResponse: the JSON formatting of each entry (hex extended PAN ID, "0x%X" PAN ID, hardware address) is not modelled; the result lists the table entries themselves. The scan is assumed to fit the table, as the source's `memcpy` does.
- WebService.WebGlobals.constructor: the table's size (DBUS_MAXIMUM_NAME_LENGTH in the source) is a parameter.
- WebService.WebGlobals.OnBootMdnsRequest: the detached publisher thread is modelled as running to completion before the reply. Concurrent requests are not modelled.
- WebService.DefaultResponse: canonicalisation, the file-system queries and opening the file are parameters. Caching headers and the chunked send (DefaultResourceSend) are left out.
- The remaining HTTP routes, the server start-up and the request dispatch of web_service.cpp are not modelled.
