# FlareSolverr, modelled and proved

The service keeps one browser per named session, solves a challenge page with it, and lets an operator change
its settings while it works. This project models the parts of it whose correctness depends on interleavings, on
what a browser driver may answer, or on how a file is edited, and proves what they keep. `dafny verify
dfyconfig.toml` checks everything.

**Sessions** (`SessionMachine`, `SessionInvariant`, `SessionMutex`, `SessionProgress`, `SessionTheorems`,
`SessionOutcomes`, `SessionProxy`, `SessionStore`).
Every request, destroy and settings save is a thread of a step machine. One step is one critical section of the
store lock, one wait on `ready`, on `applyMu` or on a session's own lock, one read or change of a copy of the
config, or one call into a browser. The number of threads, the interleaving and the answers of the browser factory
are arbitrary. `SessionStore` is the store itself, a class whose methods are the critical sections; given a state
of the machine that the objects show, each method leaves them showing the state after the machine's step.
`SessionProxy` follows the default proxy of a create, which the HTTP handler reads from the server's config or, if
that has none, the service reads from its own; which configs have none is arbitrary. The browser factory is assumed
to return no browser with an error, and `New`, `Resolve` and `Close` to return.

**Settings** (`YamlMerge`, `YamlMergeLaws`, `Config`, `ConfigFile`, `ConfigLaws`, `SaveRestart`,
`SettingsTransaction`).
`init.yaml` is an ordered tree of entries with comments. `MappingNode.Merge` is the in-place merge of a save into
that tree. `ConfigLaws` says what each key of a file and each field of a payload means. `SaveRestart` relates a save
followed by a restart to the config that was applied live, and `SettingsTransaction` relates the four copies of the
config and the file over any interleaving of saves. Keys are scalars and none occurs twice in one mapping; the text
of the file renders the tree faithfully; what the URL parser says is a parameter.

**Settings and sessions** (`SaveInForce`, `SaveProgress`). The two machines side by side: a handler of the settings
page is a post of the one and a thread of the other, and takes its steps on `applyMu` and on the copies in both at
once. The configs that were live are numbered, and the sessions carry these numbers.

**The shadow walk** (`ShadowWalk`, `ShadowWalkLaws`). The driver is a function of everything it was asked before,
so it may answer anything; a *steady* driver gives the same answer to the same command.

**The BiDi client** (`BidiClient`, `BidiSession`, `ProxyAuth`). Concurrent calls of `Send`, one reader, a peer that
may send anything; and the table that limits how often credentials are offered to a proxy.

**Smaller searches** (`DriverPatch`, `PiercedTree`, `SolveLoops`): the binary patch, the search for the challenge
frame, and the challenge pipeline with the three solve loops over a page that answers from a finite script.

`Wrappers` and `Text` are helpers.

Where the code does not do what its comments say, the model follows the code:

- The comment on dropped keys (`server/config.go:390-393`) says that every absent setting can be written as an
  empty string. A scalar `proxy:` entry then becomes `proxy: ""`, which does not decode as a proxy, and the next
  start ignores the whole file (`SaveRestart.EmptyProxyEntryLosesSettings`). `SaveRestart.SaveThenRestart` says
  exactly when the file gives the saved config back.
- The re-check after construction (`server/sessions.go:150-155`) is there so that no dead session is handed out. It
  tests that the id is present, not that the entry is this session (`SessionTheorems.FreshMayBeReplaced`); the
  caller's look at `closed` is what makes use safe.
- The proxy-auth table is bounded by 4096 in name (`server/browser/bidi/bidi.go:212`); it is dropped by the
  challenge that finds 4097 entries in it.
- The chromedriver loop reports a challenge as still present (`server/browser/webdriver/browser.go:776`) on the
  strength of its own probes. A click helper may meanwhile have seen it gone; that answer is not used.

## Model

| member | source | states |
|---|---|---|
| SessionStore.Session.Finish | server/sessions.go:134-139 | a session under construction comes to show the item that the machine's build and signal steps leave, and its creator goes on to the re-check if and only if there is a browser |
| SessionStore.Session.CloseLocked | server/sessions.go:54-66 | as the machine's step: the browser is to be shut down exactly on the first close of a session that has one |
| SessionStore.Store.FindOrReserve | server/sessions.go:111-128 | as the machine's `Reserve`: an id in the map is found and nothing changes; a free one is reserved under the next number with the current config, and its creator goes on to build |
| SessionStore.Store.TakeOut | server/sessions.go:181-193 | as the machine's `TakeOut`: exactly the entry of that id leaves the map, and is what the thread closes next |
| SessionStore.Store.Forget | server/sessions.go:141-148 | as the machine's `StepForget`: after a failed construction the entry goes only if it is still this session |
| SessionStore.Store.Drain | server/sessions.go:195-202 | as the machine's `StepDrain`: the map becomes empty, and the sessions it held, once each in some order of the keys, are what the thread closes next |
| SessionInvariant.EventKeeps | server/sessions.go:95-207 | every step of every thread keeps the ownership invariant |
| SessionTheorems.OpenBrowsersAreOwned | server/sessions.go:95-207 | in every reachable state a browser that is open or being built is in the map or owed a close by some thread |
| SessionTheorems.IdleStoreIsExact | server/sessions.go:95-207 | with no command in progress the open browsers are exactly the map's entries and factory calls equal reservations |
| SessionTheorems.UseExcludesClose | server/service.go:257-271 | no two threads are inside one session, Close is called at most once, and Resolve only runs with an open browser |
| SessionTheorems.NoUseAfterClose | server/sessions.go:51-66 | once Close was called for a session no thread resolves with it, in any later state |
| SessionProgress.BlockerMoves | server/sessions.go:46-58 | a thread that waits on `ready` or a session lock waits for one that builds that session or holds that lock, and that one can step; a save that waits for `applyMu` waits for the save that holds it, which can step or waits for such a one |
| SessionTheorems.RunsNeverDeadlock | server/sessions.go:95-207 | in every reachable state with an unfinished command some thread can step |
| SessionProgress.PotentialDrops | server/sessions.go:95-207 | each step lowers one count of the work left, whatever it makes other threads do |
| SessionTheorems.StepsAreBounded | server/sessions.go:95-207 | k commands take at most 26 k steps in all, under any interleaving |
| SessionTheorems.EveryCommandCanFinish | server/sessions.go:95-207 | from every state of the invariant all commands can be brought to their end |
| SessionTheorems.DrainedStoreStaysCurrent | server/service.go:52-66 | after a save has drained the store, then and in all later states, every session in the map was reserved with that config or a newer one |
| SessionTheorems.DrainClosesWhatItRemoved | server/sessions.go:195-207 | when `destroyAll` returns, every session it removed is closed |
| SessionTheorems.ForcedCreateIsLater | server/sessions.go:102-124 | a forced create that succeeds returns a session reserved after the step that began that call, which found a session past its time to live |
| SessionTheorems.TimeToLiveIsHonoured | server/sessions.go:164-173 | a request with a time to live is served by a session that was within it at the step that judged that session, or that was reserved after the step that began the request |
| SessionTheorems.PresentIsThisOne | server/sessions.go:150-159 | at the re-check the map's entry is this session if and only if the id is present and no later create has reserved it |
| SessionTheorems.FreshMayBeReplaced | server/sessions.go:153-161 | a concrete run in which a session is reported fresh although the map holds another |
| SessionOutcomes.RequestEnds | server/service.go:257-275 | a request that has ended was refused if and only if at an earlier step of its thread its browser could not be built, or it waited for a session without one, or its id was absent at the re-check, or its session was closed when it looked under the lock; otherwise it was served, with session i if and only if it resolved the page with i |
| SessionOutcomes.OthersEnd | server/sessions.go:95-207 | the same for the other commands: a create returns the session it built and found in the map, or another's that it waited for, and is refused for the reasons above; a destroy says whether its id was in the map; a save is refused if and only if it failed before it changed a copy |
| SessionOutcomes.ReservedOnce | server/sessions.go:111-128 | every session was reserved at one step of its creator, under the id asked for or drawn, with the store's config and the clock of that step |
| SessionOutcomes.ClockIs | server/sessions.go:41-43 | the clock that ages are measured by shows the time that has passed, and no step of a thread moves it |
| SessionMutex.MutexKeeps | server/settings.go:123-126 | every step keeps saves apart: `applyMu` is held by exactly the save that is between its first look at the config and its reply, drain included |
| SessionProxy.CopiesInStep | server/server.go:233-237 | in every reachable state the configs of the server, the service and the store have one number, or differ by exactly the one save in progress, as far as it has come |
| SessionProxy.SaveTrace | server/server.go:233-237 | a save that drains the store changed the server's config and then the service's before, and gave both the number it drains under |
| SessionProxy.ProxyIsReadEarly | server/server.go:146-149 | the default proxy of a session is that of the server's config at the first step of the create, if that has one, and otherwise of the service's at the later step that asks for it (`server/service.go:136-142`); a session that a request reserves has none |
| SessionProxy.ProxyIsOlderExactly | server/server.go:146-149 | after a drain, the default proxy of a session in the map is older than that save if and only if the read that supplied it came before the step at which that save changed the copy it read; no create whose request arrived after the drain has such a proxy |
| SessionProxy.SaveOvertakesRequest | server/server.go:146-151 | a concrete run: a save goes from its first step to its last between the handler's read and the service's create, and the store keeps the new config with the old proxy |
| SaveInForce.JointReachable | server/settings.go:123-157 | in every state of every joint run: each handler is where its thread in the store is, the three copies are the configs that the store's numbers name, and every numbered config was made by its save |
| SaveInForce.AnswerExactly | server/settings.go:128-157 | a save is answered with 400 if and only if its payload was refused, with 200 if and only if its file was written and no step of its handler found the old exporter server not stopping, and with 500 otherwise; its config was made live if and only if the file was written |
| SaveInForce.AnsweredSaveIsInForce | server/settings.go:123-157 | from the moment a save has the answer 200, or 500 after it wrote the file, the config its payload made of the one before is in force: every session in the map was reserved under it or a newer one, and every session that was there when the save emptied the map is closed |
| SaveInForce.NoUpdateIsLost | server/settings.go:123-128 | every live config after the first is what the payload of exactly one save made of the config right before it, and with no save in progress the server, the service and the store have the last one |
| SaveProgress.NeverStuck | server/settings.go:123-157 | while a command of any kind is unfinished, a handler or a thread can take a step (the clock and the shutdown of the exporter are none): the waits on `applyMu`, on the session locks, on `ready` and of a handler on its drain never close a circle |
| SaveProgress.WorkDrops | server/settings.go:123-157 | every step of a handler or a thread lowers one count of the work left, and no event adds to it |
| SaveProgress.JointStepsAreBounded | server/settings.go:123-157 | k commands of which p are saves take at most 26 k + 6 p steps of handlers and threads, under any interleaving |
| SaveProgress.EverySaveIsAnswered | server/settings.go:123-157 | every joint run can be continued until all commands are finished and every save has its answer |
| YamlMerge.MappingNode.Index | server/config.go:358-361 | the index maps every key to the place of its last entry |
| YamlMerge.MappingNode.Fill | server/config.go:363-388 | the first loop writes each saved value over its old one or appends it |
| YamlMerge.MappingNode.Sweep | server/config.go:394-407 | the delete-while-scanning loop blanks or drops exactly the owned, unset entries, and ends |
| YamlMerge.MergeValue | server/config.go:377-387 | two mappings merge, any other value is replaced under the old comments |
| YamlMerge.MappingNode.Merge | server/config.go:357-408 | both loops and the recursion together turn the mapping into `Merged`, the entry-by-entry description |
| YamlMergeLaws.KeyOrder | server/config.go:355-408 | surviving keys keep their order, missing saved keys follow in theirs |
| YamlMergeLaws.MergeContract | server/config.go:355-408 | what each key holds afterwards: saved value under old comments, untouched if not owned, blanked scalar or removed otherwise |
| YamlMergeLaws.CommentsStay | server/config.go:355-408 | a key survives if and only if it is saved, not owned or a scalar, and then keeps its own comments and its value's |
| YamlMergeLaws.SavedValuesHold | server/config.go:363-388 | every saved key, at every depth, holds the saved value |
| YamlMergeLaws.NestedFrame | server/config.go:379 | a nested key that is not saved is left alone if and only if it is not named like an owned top-level key |
| YamlMergeLaws.MergedWellFormed | server/config.go:357-408 | the merge of well-formed mappings has no key twice at any depth |
| YamlMergeLaws.MergeTwice | server/config.go:357-408 | merging the same settings twice is merging them once: values, order and comments |
| Config.PrepareIdempotent | server/config.go:86-94 | preparing a config twice is preparing it once, so copies prepared by different components agree |
| Config.ToConfigAccepts | server/settings.go:206-283 | what the settings page accepts is trimmed, in range and canonical |
| Config.ResubmitChangesNothing | server/settings.go:180-283 | the payload shown for a live config, wherever it came from, is accepted back as that very config if and only if the config is one the settings page could have produced |
| Config.ResubmitAfterSave | server/settings.go:180-283 | what a save put live is such a config |
| ConfigLaws.LoadTakesEachKey | server/config.go:443-499 | loading a file that can be read gives each of the 16 settings what its own key says, and its documented default if that key is absent, null, blank or not positive; backend and log level are spelled, a proxy needs a url |
| ConfigLaws.LoadIgnoresTheRest | server/config.go:71-84 | any other file is ignored: the config is the documented default |
| ConfigLaws.DecodesExactly | server/config.go:181-198 | a tree can be read if and only if no key comes twice and every known key holds a value of its kind or none |
| ConfigLaws.BackendIs | server/config.go:555-566 | a backend is known by seven words, whatever the case and the white space around, and anything else is "auto" |
| ConfigLaws.LevelIs | server/config.go:568-579 | a log level is known by five words, and anything else is "info" |
| ConfigLaws.PrepareFillsIn | server/config.go:86-133 | preparing fills in what is empty or zero, spells the log level, derives the debug flag from it, and changes nothing else |
| ConfigLaws.AcceptedIsShown | server/settings.go:180-283 | an accepted payload is shown again as it was sent, but for white space, spelling and the parts of a proxy without a url |
| ConfigLaws.RefusedForTheFirst | server/settings.go:206-265 | a payload is accepted if and only if all eight checks pass, and refused for the first that fails |
| ConfigLaws.WrittenKeys | server/config.go:410-436 | which keys a save writes: six texts only when they are not empty, a proxy only with a url, the rest always |
| ConfigLaws.SaveKeepsTheRest | server/config.go:271-292 | a save leaves every entry alone whose key is no setting, with its comments, and the comments of the file's root |
| SaveRestart.EncodeDecode | server/config.go:38-61 | unmarshalling what was marshalled gives it back |
| SaveRestart.DecodeSaved | server/config.go:271-292 | the merged tree decodes to the saved settings if and only if no scalar stands where a dropped proxy was |
| SaveRestart.OverlayAccepted | server/config.go:443-499 | loading an accepted config over the defaults gives its prepared form, but for the version |
| SaveRestart.SaveThenRestart | server/settings.go:128-150 | for every accepted payload and every well-formed or unusable file, save then restart equals live apply if and only if the proxy entries do not clash (or the defaults were saved) |
| SaveRestart.EmptyProxyEntryLosesSettings | server/config.go:401-402 | a concrete file with an empty `proxy:` entry for which the restart falls back to the defaults |
| SaveRestart.SaveTwice | server/config.go:271-292 | a second save of the same settings leaves the tree as it is |
| SettingsTransaction.MetricsRegistry.BeginApplyConfig | server/metrics.go:88-105 | as the machine's step: which server stops and which starts; only a changed setting stops one, and it is the one published before |
| SettingsTransaction.MetricsRegistry.PublishServer | server/metrics.go:112-121 | as the machine's step, in every state of a save: afterwards the exporter's copy is a projection of the server's config, and an enabled exporter serves its port until shutdown, whatever the shutdown of the old server reported |
| SettingsTransaction.MetricsRegistry.Shutdown | server/metrics.go:128-137 | as the machine's step, at any moment of a save: the invariant is kept, and with no save in progress the server to stop is the one on the configured port |
| SettingsTransaction.ApplyKeeps | server/server.go:225-246 | every step of a save, and a shutdown of the exporter at any moment, keeps the agreement between the copies as far as the save has come |
| SettingsTransaction.CopiesAgree | server/settings.go:123-157 | whenever no save is in progress all copies are projections of one prepared config, and an enabled exporter serves its port until shutdown |
| SettingsTransaction.FileGivesConfigBack | server/settings.go:137-150 | after a successful save the file is what that save rendered, and a restart from it gives the live config, but for a proxy clash |
| ShadowWalk.Collect | server/browser/w3c/elements.go:62-68 | the ids are those of the places of the answer that name an element, each once and at increasing places |
| ShadowWalk.Session.FindAllIn | server/browser/w3c/elements.go:43-69 | one command; a list gives the elements it names in its order, "no such element" and null an empty result, other errors and unreadable answers an error |
| ShadowWalk.FirstOfElements | server/browser/w3c/elements.go:62-68 | what is taken as the first element is named at the least place of the answer that names one |
| ShadowWalk.Session.ShadowRoot | server/browser/w3c/elements.go:83-98 | the shadow root is what the reference names under the protocol's key; "no such shadow root", "no such element" and null mean none |
| ShadowWalk.Session.ProbeHost | server/browser/w3c/elements.go:136-143 | whatever the driver answers: the host's root is asked for, and if there is one, searched; both results are read off the answers to these commands, and errors count as nothing found |
| ShadowWalk.Session.FindThroughShadowDOM | server/browser/w3c/elements.go:112-149 | against any driver: ends, at most 400 hosts and 1202 commands, and a found element heads an answer to a query for the selector; against a steady one: exactly `Walked` |
| ShadowWalkLaws.FirstByLevelIsFirst | server/browser/w3c/elements.go:104-111 | the recursive reference search finds the first match in level order |
| ShadowWalkLaws.RefinesSearchByLevel | server/browser/w3c/elements.go:112-149 | without an error the walk's result is that of the reference search to six shadow levels |
| ShadowWalkLaws.FindsFirstMatch | server/browser/w3c/elements.go:104-111 | a found element is named first by the answer of the first root in level order that has a match, at the least depth; an empty result means that no root down to six shadow levels has one |
| ShadowWalkLaws.FailsExactlyWhen | server/browser/w3c/elements.go:113-133 | the walk fails if and only if the document cannot be queried, or there are over 400 hosts and none of the first 400 leads to a match |
| ShadowWalkLaws.CountsHosts | server/browser/w3c/elements.go:112-149 | the number returned is that of the hosts probed: none, all of them, or up to the one behind which the first match lies |
| ShadowWalkLaws.BelowInOrder | server/browser/w3c/elements.go:124-146 | the roots of the next level come in the order of the roots they hang below |
| BidiClient.IdsCollide | server/browser/bidi/bidi.go:82-83 | two commands share an int64 id if and only if a multiple of 2^64 commands lies between them |
| BidiClient.ApplyKeeps | server/browser/bidi/bidi.go:76-203 | every step of a call, the reader or Close keeps the invariant |
| BidiClient.IdsAreNeverReused | server/browser/bidi/bidi.go:81-86 | up to 2^64 commands no id is given out twice |
| BidiClient.TableIsInFlight | server/browser/bidi/bidi.go:81-92 | an id is in the table, with a call's channel, if and only if that call is in flight with that id |
| BidiClient.OwnReply | server/browser/bidi/bidi.go:106-116 | a call that returns a reply returns one that arrived with its own id |
| BidiClient.ReplyIsWhatWasSaid | server/browser/bidi/bidi.go:188-203 | a call that returns a reply returns what an earlier message with its own id says: a failure with that code and text if and only if the message is an error, and otherwise the result |
| BidiClient.AnswerGoesToItsCall | server/browser/bidi/bidi.go:185-203 | an answer goes to the call in flight with its id, and to none if there is no such call; no other message goes to a call |
| BidiClient.OutcomeIsItsCause | server/browser/bidi/bidi.go:96-116 | a call ends with the reply in its channel, because its write failed, because it saw the session closed, or because its caller gave up, and says which |
| BidiClient.ClosedExactly | server/browser/bidi/bidi.go:120-131 | the session is closed if and only if somebody closed it or the reader could not read on |
| BidiClient.RepliesAreConserved | server/browser/bidi/bidi.go:188-203 | every reply matched to a call was taken, is in its channel or is with the reader |
| BidiClient.DeliveryNeverBlocks | server/browser/bidi/bidi.go:191-203 | the reader waits only for an earlier unread reply to the same id; answered at most once, it never waits, even for a sender that gave up |
| BidiClient.StuckForever | server/browser/bidi/bidi.go:198-202 | a reader whose channel is full and whose sender has gone never moves again |
| BidiClient.BlockedForGoodExactly | server/browser/bidi/bidi.go:198-202 | a reader that cannot deliver is blocked in every continuation if and only if the call it delivers to has stopped reading; otherwise some continuation delivers |
| BidiClient.DuplicateAnswerSticks | server/browser/bidi/bidi.go:198-202 | a concrete run with a doubled answer that reaches that state |
| BidiSession.Session.Register | server/browser/bidi/bidi.go:81-86 | a new id and an empty channel, as the machine's step |
| BidiSession.Session.Unregister | server/browser/bidi/bidi.go:88-92 | exactly this call's id leaves the table |
| BidiSession.Session.Dispatch | server/browser/bidi/bidi.go:164-203 | a message goes to the call registered under its id if and only if it is an answer, as the machine's step, and what is handed on is the error or the result in it |
| BidiSession.Session.Close | server/browser/bidi/bidi.go:120-127 | the connection is shut exactly once, however often and by whomever Close is called, and the session then shows the machine's closed state |
| ProxyAuth.Authenticator.OnAuthRequired | server/browser/bidi/bidi.go:235-273 | credentials go out exactly when the request was not challenged since the last reset; the table counts the challenges |
| ProxyAuth.TableIsBounded | server/browser/bidi/bidi.go:246-252 | the table never holds more than 4097 requests |
| ProxyAuth.GrantedOncePerTable | server/browser/bidi/bidi.go:246-252 | between two grants to one request lies a reset |
| ProxyAuth.CredentialBound | server/browser/bidi/bidi.go:205-213 | in any run of N challenges no request gets credentials more than 1 + (N-1)/4097 times |
| ProxyAuth.WorstRun | server/browser/bidi/bidi.go:205-213 | for every N there is a run that reaches that bound |
| DriverPatch.PatchContent | server/browser/webdriver/patcher.go:56-65 | the step-by-step patch computes `Patched` |
| DriverPatch.MatchExists | server/browser/webdriver/patcher.go:16 | there is a match if and only if some injected prefix is followed by the end mark |
| DriverPatch.MatchIsFirst | server/browser/webdriver/patcher.go:57-63 | the match starts at the first prefix and ends at the first end mark behind it, and the first occurrence of the matched bytes is the match |
| DriverPatch.PatchIsLocal | server/browser/webdriver/patcher.go:56-65 | the patch keeps the length and changes nothing outside the match |
| DriverPatch.PatchWrites | server/browser/webdriver/patcher.go:56-65 | each byte of the match becomes that of the message, or a space behind its end |
| DriverPatch.LeftAlone | server/browser/webdriver/patcher.go:56-58 | without a match, and with the marker already there, nothing changes |
| DriverPatch.InjectionsLeft | server/browser/webdriver/patcher.go:56-65 | an injected prefix is in the output if and only if it is in the input behind the patched region |
| DriverPatch.MarkerLeftExactly | server/browser/webdriver/patcher.go:59-63 | the output has the marker if and only if the match is at least 37 bytes long, or is longer than 14 and what stands behind it completes the cut marker |
| DriverPatch.PatchTwice | server/browser/webdriver/patcher.go:56-65 | patching twice is patching once if and only if the input leaves the marker in that way or has no second block behind the match |
| DriverPatch.PatchTwiceWhenLong | server/browser/webdriver/patcher.go:56-65 | with a match of at least 37 bytes, or none, patching twice is patching once |
| DriverPatch.ShortBlocksPatchTwice | server/browser/webdriver/patcher.go:56-65 | for two shortest blocks in a row it is not |
| PiercedTree.NodeAttribute | server/browser/chromedp/browser.go:1124-1131 | the loop over pairs computes `Attribute` |
| PiercedTree.AttributeIsFirstPair | server/browser/chromedp/browser.go:1124-1131 | the value is that of the first pair with the name |
| PiercedTree.NoPairNoValue | server/browser/chromedp/browser.go:1124-1131 | without such a pair it is empty |
| PiercedTree.ChallengeFrames | server/browser/chromedp/browser.go:1103-1107 | a challenge frame is an iframe whose first "src" contains the challenge's host |
| PiercedTree.FrameNames | server/browser/chromedp/browser.go:1104 | an iframe is named so in any mixture of cases |
| PiercedTree.FindIsFirst | server/browser/chromedp/browser.go:1097-1122 | the recursive search returns the first challenge frame in pre-order over children, shadow roots and content document |
| PiercedTree.FindsWhenThere | server/browser/chromedp/browser.go:1097-1122 | a frame is found if and only if the tree has one, wherever it hangs |
| SolveLoops.Page.WaitChallengeGone | server/browser/webdriver/browser.go:1145-1162 | its result is the latest thing that happened: gone if and only if that is a probe that answered absent, no answer if and only if a failed probe or an interrupted wait, still there, at every probe, if and only if the time was up |
| SolveLoops.Page.WaitChallengeClear | server/browser/webdriver/browser.go:1134-1143 | "clear" if and only if the look after the wait answered absent |
| SolveLoops.Page.SolveWebDriver | server/browser/webdriver/browser.go:731-792 | success if and only if the latest thing that happened is a probe that answered absent, failure if and only if it is a failed probe or an interrupted wait; it gives up as passive exactly after three rounds in a row, still present at every probe, that reported no controls; it clicks in exactly the rounds that reported some |
| SolveLoops.Page.SolveGecko | server/browser/geckodriver/browser.go:542-588 | the same for success and failure; it gives up exactly after 30 probes that all answered present, with five clicks, and clicks on schedule until then |
| SolveLoops.ClicksAre | server/browser/geckodriver/browser.go:542-588 | the clicks come after the attempts 4, 10, 16, 22 and 28 |
| SolveLoops.Page.SolveChromedp | server/browser/chromedp/browser.go:697-734 | the same for success and failure, and there is no other end; every round but the last clicks |
| SolveLoops.Page.AwaitDocumentReady | server/browser/resolve.go:83-101 | the wait ends on every script, when the document is ready or cannot say, when the time is up or when it is interrupted, and never asks for the challenge |
| SolveLoops.Page.ReadUntilThere | server/browser/webdriver/browser.go:828-845 | it ends with a token, or with an error if and only if a call failed; a token is what the last reading gave, and every reading that gave none is followed by one ladder of clicks |
| SolveLoops.Page.ApplyTurnstileToken | server/browser/webdriver/browser.go:706-716 | a token is what the last reading gave; it fails if and only if a call failed whose error counts; the Chromium backends do nothing unless asked and go without a token only if the page has no field for one, the Firefox one never fails (`server/browser/geckodriver/browser.go:493-522`) |
| SolveLoops.Page.AccessDenied | server/browser/resolve.go:131-149 | refused if and only if the title begins with one of two texts or one of two selectors is there, and an error if and only if one of the calls before that failed |
| SolveLoops.Page.ResolvePage | server/browser/resolve.go:103-237 | a result of either kind rests on a latest probe that answered absent, and on the documented steps, the probes and every read of the result in one order, all reads behind that probe; "Challenge solved!" if and only if an earlier probe answered present; each of the four ends has its reason: an error if and only if a call failed whose error counts or the first probe did, a refusal if and only if none did and nothing was probed, unsolved if and only if the challenge was there and the last probe did not see it gone |

## Left out

- Browsers, drivers, downloads, the virtual display, files and HTTP routing: foreign calls and I/O.
- Ephemeral browsers of requests without a session: created and closed within one call.
- What Resolve returns: a request counts as served in the session machine once the call has returned, with a page or
  with an error of the page; `SolveLoops` says which of the two.
- `sessions.create` asks the new browser for its user agent without the session lock (`server/service.go:153`);
  that call and the user-agent cache are not modelled, so the exclusion proved is between Resolve and Close.
- `sessionStore.ids`, which sorts the names, and the lists of commands that need a restart: easy members.
- Shutdown of the whole server: the store has no closed state, so a request in flight may create a session after
  it; only what a drain removes is claimed to be closed.
- The clock of the session machine is a counter that never goes back, advanced by `Tick`.
- `Server.applyConfig`, `Service.ApplyConfig` and the POST handler are steps of a machine and not class methods,
  because their critical sections interleave with other threads'.
- `applyConfigFile` updates a config through a reference; it is modelled as a function on values. The merge lets
  the saved tree and the file's tree share nodes; the model copies them.
- What a session's config and proxy contain: the session machine knows a config by how many saves came before it,
  and a proxy that the request itself brings is not its concern.
- In the session machine a save that is refused, or whose file cannot be written, is one step that gives `applyMu`
  up; `SettingsTransaction` has the details, and the exporter's part of a save. `SaveInForce` joins the two.
- Of the two places where `init.yaml` may lie, one is modelled; edits of the file by others between two saves, and
  environment variables that are set, are not.
- YAML text: rendering, blank lines, anchors, aliases, merge keys and the old boolean words of YAML 1.1.
- URL parsing is a parameter (`UrlRules`) of which nothing is assumed; JSON decoding and request guards come before
  the modelled part of the settings handler.
- The logger that a prepared config carries, and the version in the file comparison: no file holds either.
- The start of the exporter before the server serves; a save cannot be in progress then.
- BiDi frames and events: an event handler is one more caller of Send, and control frames do not reach dispatch.
- The page-side scripts, which targets count as relevant, and where a click lands: the page's answers say so. The
  ladder of clicks between two rounds is any number of clicks, each followed by a look at the page. The token stage
  comes after the last probe of the pipeline; its clicks may look at the page again, and what they see changes
  nothing. The cookies that the Firefox backend may refresh there are not modelled.
- Lower-casing and case folding are written out for the words the code compares with, which are ASCII.
