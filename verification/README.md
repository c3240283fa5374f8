# A verified model of the sandbox protocol and its agent

The program runs an AI agent inside a WebAssembly sandbox. The agent can do
nothing but call three host functions (`log`, `call`, `response_read`) over its
own linear memory; the host answers capability requests (`tools.list`,
`tool.invoke`, `llm.complete`) under a policy the agent cannot touch. This
project models both sides and the loop that runs over them, and proves what the
protocol keeps: for any guest on the host's side, and for the real agent loop
over any provider on the guest's side.

How the parts fit together:

- `Utf8`, `Text`, `Basics`, `JsonValues`: strings as UTF-8 bytes (RFC 3629), the
  string operations used, decimal printing, JSON as values. JSON *text* is a
  parameter, `Wire`; the results that need something of it require `Lossless`.
- `Codecs`: that there is a codec with that property.
- `Abi`: the shared types and the JSON shape of each. `Rereading`: what is left of
  each after its text has been read.
- `Outside`: `World`, everything one host call learns from outside (clock, URL
  parsing, network, model). Every host call gets its own, so nothing is assumed
  to stay the same.
- `Policies`, `Tools`, `Llm`: the policy, the tools, the retry loop and the mock.
- `Host`: `HostState` as a class over a byte array, proved against the function
  `Step`; its invariant ties the object to the history of calls made on it.
  `Sandbox` proves what holds after any history, `Server` that concurrent runs,
  each with its own host state and guest memory, do not affect each other.
- `Heap`, `Guest`: the agent module in its own memory, with an arbitrary
  allocator: `host_call`, `run_agent`, `tds_run`, and `invoke_agent` around them.
- `Agent`: the loop as a function of its imports, whatever they are; `Calls` says
  what they are when the module is linked to this host (`Linked`). `Turns`,
  `AgentRuns`, `BlockRuns`, `ToolRuns`, `RetriedRuns` and `MockRuns` hold the theorems
  about single calls and whole runs, `Nesting` those about the depth of JSON.
- `Sizes`: how long the texts of a run are. `Runs` puts the pieces together as
  `Runtime::run`, and says how much memory is enough for it.

What is assumed of JSON text (`JsonValues.Lossless`): a value that is written is read
back if it nests at most 127 deep and refused if it nests deeper, as `serde_json`'s
reader does; the empty text is refused. What is read back is the value itself but for
its floats: each may come back as another one, `Wire.again` says which, because
`serde_json` without its `float_roundtrip` feature, as it is built here, can read the
last bit differently. `Rereading` says what that does to the shared types; the results
about content that crosses give the content with its floats so changed, and the content
itself where they survive.

Method bodies use `hide` for functions whose definition a proof does not need.

Where the code and its own comments differ, the model follows the code:

- A block is *not* always echoed back byte for byte: a known block with extra
  fields, a null signature or an explicit false `is_error` is re-emitted without
  them (`Abi.NotAlwaysVerbatim`). `Abi.JsonRoundTrip` says exactly when it is unchanged.
- `http_get` calls a body truncated when it has exactly the cap's size
  (`Tools.NoticeOnWholeBody`). `Tools.TruncationNotice` says exactly when the notice is right.
- `Usage::add` wraps at 2^64 in the release build (`Abi.UsageCanWrap`).
  `AgentRuns.UsageExact` says exactly when the sum is the sum.
- `call` returns the response length cut to 32 bits. `Turns.HeardIffShort` says
  exactly when the guest can read the response, `Turns.NotHeardAtAll` gives a length
  at which it reads nothing.
- A reply cannot always be echoed back at all: sent back it nests one level deeper, and
  then the host may refuse to read it (`Nesting.DeepReplyIsADeadEnd`).
  `Nesting.EchoLimit` says exactly when it can, and `Nesting.DeepRunFails` what becomes
  of the run.

## Model

| member | source | states |
|---|---|---|
| AgentRuns.WholeRun | crates/tds-agent/src/lib.rs:196-286 | For any provider and any requested step count, a run under a fresh host with a validated policy is never refused a turn by the host's ceiling, calls the provider at most the clamped number of times, and reports exactly those calls as steps, short of one only when the last call is the one that failed |
| AgentRuns.ErrorIff | crates/tds-agent/src/lib.rs:205-217 | A run ends in an error if and only if at some point a model turn does not get across or is not answered, and reports the steps before that turn |
| AgentRuns.ConversationGrows | crates/tds-agent/src/lib.rs:186-276 | Over a whole run the provider first sees the base messages, and each later request is the one before plus the reply as received (unedited if its blocks are stable and its floats survive their text) and one user message with one result for each tool-use block of the reply, by id, in order, and no other |
| RetriedRuns.RetriedRun | crates/tds-host/src/llm.rs:106-170 | With the real provider over any network a run sends at most the clamped steps times `max_retries + 1` requests to the model, and each reply goes back in the next request as the provider gave it, exactly so if its floats survive their text |
| AgentRuns.RunTallies | crates/tds-agent/src/lib.rs:194-286 | Whatever the imports answer, at every exit the steps, the audit record and the token totals are those of the turns taken, and only a turn that ends the run by itself is not acted on |
| AgentRuns.StepTallies | crates/tds-agent/src/lib.rs:198-276 | One iteration keeps the loop's accumulators equal to what its turns determine, or ends the run with them |
| BlockRuns.StepOnBlocks | crates/tds-agent/src/lib.rs:198-276 | One iteration by the reply it gets: a refusal, or a reply without a tool-use block, ends the run with the reply's texts as the answer; any tool-use block, wherever it stands, keeps it going, with one result and one record for each such block, in order |
| BlockRuns.RunOnBlocks | crates/tds-agent/src/lib.rs:196-286 | Over a whole run the record lists the tool-use blocks of all turns but one that ended the run: all of them, each once, in order, with step, name and input; a run that completed ended with a reply that has no such block, and answers with its texts |
| Agent.ToolUsesAreBlocks | crates/tds-agent/src/lib.rs:234-240 | The calls read off a reply are its tool-use blocks, whatever stands between them |
| Agent.AnswerIsTexts | crates/tds-abi/src/lib.rs:388-394 | The answer read off a reply is its text blocks in order, each on a line of its own, trimmed |
| AgentRuns.StepBacked | crates/tds-agent/src/lib.rs:198-276 | One iteration below the ceiling keeps the host's record of provider calls in step with the guest's turns: same requests, same answers |
| AgentRuns.RecordOfRun | crates/tds-agent/src/lib.rs:252-286 | The record of a run has one entry per tool result shown to the model, in order, with the opposite of its error flag and its text cut to size; a refused or final turn adds none |
| AgentRuns.AuditTracksConversation | crates/tds-agent/src/lib.rs:252-275 | Record and conversation match entry for entry, and the steps of the record never decrease |
| AgentRuns.UsageExact | crates/tds-abi/src/lib.rs:224-229 | The reported totals are the sums over all successful turns, a refused one included, exactly when those sums fit 64 bits |
| AgentRuns.Clamped | crates/tds-host/src/runtime.rs:123-125 | The step limit granted is the one asked for if that is between one and the policy's, one for zero, and the policy's for more; nothing else changes |
| Turns.HeardIffShort | crates/tds-agent/src/lib.rs:112-150 | A host call decodes the response to its own request and empties the mailbox exactly when that response is shorter than 2^31 bytes; otherwise it fails with a `host` error and the response stays |
| Turns.NotHeardAtAll | crates/tds-agent/src/lib.rs:139-145 | After a response of 2^32 bytes the guest reads nothing and reports a malformed response, and the response stays |
| Turns.NegativeReturns | crates/tds-agent/src/lib.rs:129-137 | Each negative code is reported as a `host` error of its own |
| Turns.StaleResponseIgnored | crates/tds-agent/src/lib.rs:112-150 | A response left unread has no influence on what later host calls return or do |
| Turns.AnswerHeard | crates/tds-host/src/runtime.rs:439-451 | Whatever the host answers, success or error, is what the guest decodes but for its floats, unless its text nests too deep, and then it is a `malformed` error |
| Turns.ModelAnswer | crates/tds-host/src/runtime.rs:412-431 | Below the ceiling a model turn makes at most one provider call, with the guest's own request; it succeeds if and only if request and response get across and the provider has an answer, and then with that answer |
| Turns.CeilingHeard | crates/tds-host/src/runtime.rs:412-420 | At the ceiling the guest hears a denial and the provider is not asked |
| Turns.HostErrors | crates/tds-host/src/runtime.rs:346-431 | The guest hears `invalid` for a request that is too large or cannot be read as what it should be, `denied` past the ceiling, and nothing else happens |
| Turns.UnknownName | crates/tds-host/src/runtime.rs:433-436 | The guest hears `not_found` for any name but the three, and nothing else happens |
| Turns.OversizeCall | crates/tds-host/src/runtime.rs:346-352 | A request over the limit or a name over 256 bytes is `invalid` before any pointer is looked at |
| Turns.ToolAnswer | crates/tds-host/src/runtime.rs:397-410 | A tool call leaves the model's books alone; the tool is run if and only if the request reaches the host, and if the answer fits too the guest hears the tool's own result |
| Turns.ListAnswer | crates/tds-host/src/runtime.rs:393-395 | Listing tools changes nothing and, if it fits, tells the guest the policy's tools |
| ToolRuns.ToolsOfRun | crates/tds-agent/src/lib.rs:251-275 | Over a whole run with any provider, scratchpad and fetched URLs are those of the tool calls of its turns, in order, and each reply shown to the model is what that tool answered at that moment, if it got across |
| ToolRuns.StepAccounted | crates/tds-agent/src/lib.rs:198-276 | One iteration of the loop keeps that account |
| ToolRuns.PhaseTold | crates/tds-agent/src/lib.rs:251-275 | The tool calls of one turn act on the scratchpad one after another, those that reach the host and no others, and each is answered truly |
| Nesting.EchoLimit | crates/tds-agent/src/lib.rs:230-232 | A reply the guest could read can be sent back in the next request if and only if every block of it is one level short of what could still be read |
| Nesting.DeepReplyIsADeadEnd | crates/tds-agent/src/lib.rs:230-232 | A concrete reply that is heard but cannot be sent back, whatever the conversation |
| Nesting.DeepRunFails | crates/tds-agent/src/lib.rs:198-217 | Once a block of the conversation nests as deep as the guest could still read, the run ends in an error at that turn |
| Nesting.UnreadableRequest | crates/tds-host/src/runtime.rs:421-430 | A model request that nests too deep is answered as malformed without asking the provider |
| Nesting.ReplyReadable | crates/tds-agent/src/lib.rs:147-149 | The guest can read a reply if and only if its blocks stay within three levels of the limit |
| Nesting.RequestReadable | crates/tds-host/src/runtime.rs:421-430 | The host can read a model request if and only if its blocks stay within four levels of the limit and its tools within two |
| Nesting.OutputReadable | crates/tds-host/src/runtime.rs:285 | Whatever the provider answered, the host can read the output of the run, unchanged but for the floats in tool arguments |
| Nesting.ReaderDepth | crates/tds-agent/src/lib.rs:147 | Of arrays in arrays a lossless codec takes 127, and no more |
| Codecs.LosslessExists | crates/tds-host/Cargo.toml:22 | What is assumed of JSON text can be met, whatever becomes of the floats |
| Guest.HostCall | crates/tds-agent/src/lib.rs:112-150 | Over real memory, from any host state, `host_call` returns what `Ask` says of this request, frees its own buffers and leaves every other block as it was; it fails only if an allocation was refused |
| Guest.RunAgent | crates/tds-agent/src/lib.rs:172-287 | Unless an allocation is refused the loop over real memory computes `AgentRun` and leaves all live blocks as they were |
| Guest.TakeTurn | crates/tds-agent/src/lib.rs:198-276 | Unless an allocation is refused one iteration of the loop is `OneStep`, on every one of its exits |
| Guest.RunTools | crates/tds-agent/src/lib.rs:251-275 | Unless an allocation is refused the inner loop makes the tool calls of a turn one by one, with one record and one result block each |
| Guest.EmitLine | crates/tds-agent/src/lib.rs:106-109 | Any log line, the empty one too, reaches the host's log and nothing else changes, unless an allocation is refused |
| Guest.TdsRun | crates/tds-agent/src/lib.rs:64-87 | Unless an allocation is refused the encoded output of the run is left in one new block whose address and length are returned; unreadable input yields an error output |
| Guest.UnreadableInput | crates/tds-agent/src/lib.rs:72-79 | Input that cannot be read gives an error output with no step, and no host call |
| Guest.LeakToHost | crates/tds-agent/src/lib.rs:89-100 | The bytes end up in exactly one new block, or an allocation was refused, the result is zero and nothing is left behind |
| Guest.InvokeAgent | crates/tds-host/src/runtime.rs:249-286 | If no allocation is refused and the input is shorter than 2^32 bytes the host decodes the output the loop computed, unchanged but for the floats in tool arguments; each block handed across is freed once, with its own length, and memory blocks end as they began. A longer input is never run. None is refused if the allocator has room for three blocks as long as the longest text of the run and one more |
| Heap.GuestHeap.TdsAlloc | crates/tds-agent/src/lib.rs:38-48 | For a length from 1 to 2^31 - 1 the block the allocator proposes, if it is free, and otherwise 0; for a longer one 0; the address 1 for length zero |
| Heap.GuestHeap.TdsDealloc | crates/tds-agent/src/lib.rs:50-62 | Frees a live block with its allocated length and disturbs no other, whatever is left in the freed bytes |
| Heap.GuestHeap.Allocate | crates/tds-agent/src/lib.rs:43-47 | The block the allocator proposes if it is free, and otherwise a refusal, which is counted |
| Heap.SpaciousExists | crates/tds-agent/src/lib.rs:38-48 | There is an allocator that always finds room for `n` blocks of `max` bytes and one more in a memory of `2 + (2n + 1) max` bytes |
| Runs.Execute | crates/tds-host/src/runtime.rs:122-194 | However a run ends, its host has kept model calls, URLs, keys and log lines within the policy. It completes unless an allocation was refused or the input is 2^32 bytes or longer, and certainly if the allocator has room for the texts of the run; then the report is the loop's output and its steps are the provider calls made |
| Host.HostState.Call | crates/tds-host/src/runtime.rs:337-368 | The whole effect and return value of `call` on the host's state, as `Step` gives it |
| Host.HostState.ResponseRead | crates/tds-host/src/runtime.rs:370-385 | The whole effect of `response_read` on the mailbox and on guest memory |
| Host.HostState.Log | crates/tds-host/src/runtime.rs:310-335 | The whole effect of `log`, which touches nothing but the log |
| Host.HostState.Dispatch | crates/tds-host/src/runtime.rs:390-437 | The routing of a capability and everything it changes |
| Sandbox.Mailbox | crates/tds-host/src/runtime.rs:337-385 | After any calls by any guest the mailbox holds the response to the latest served call, unless a read of its length has claimed it, and otherwise nothing |
| Sandbox.DeliveredOnce | crates/tds-host/src/runtime.rs:370-385 | Between two deliveries of a non-empty response there is another served call |
| Sandbox.DeliveryIsLatest | crates/tds-host/src/runtime.rs:370-385 | What is delivered into guest memory is the response to the latest served call |
| Sandbox.MemoryFrame | crates/tds-host/src/runtime.rs:370-385 | Only `response_read` writes guest memory, only within its range, only the waiting response; it returns -2 for a wrong length and -1 for a range outside the memory |
| Sandbox.RefusalChangesNothing | crates/tds-host/src/runtime.rs:354-366 | A bad pointer changes nothing and returns -1, a name that is not UTF-8 changes nothing and returns -2; a short response returns its length, so `INTERNAL` is never returned |
| Sandbox.LogIsPrefix | crates/tds-host/src/runtime.rs:313-334 | The log is the first 512 readable lines logged, in order, each cut to 8192 bytes and under the level its number stands for |
| Sandbox.TurnCeiling | crates/tds-host/src/runtime.rs:412-431 | Whatever the guest does, the provider is asked exactly the first `max_steps` well-formed model requests, and the counter counts them |
| Sandbox.ModelRequests | crates/tds-host/src/llm.rs:106-170 | Whatever the guest and the network do, a run costs at most `max_steps * (max_retries + 1)` requests to the model, and every block the provider hands over is stable |
| Sandbox.ToolHistory | crates/tds-host/src/runtime.rs:397-410 | Scratchpad and requests sent are functions of the well-formed tool calls alone |
| Sandbox.AnyGuestIsContained | crates/tds-host/src/runtime.rs:305-437 | No guest exceeds the turn, log, key or network limits, and the scratchpad refines its history |
| Server.Runtime.Serve | crates/tds-host/src/runtime.rs:122-163 | Whatever one guest among many does, computing in its memory or calling the host, is answered as if its run were alone, keeps its host state and memory as its own actions alone make them, and moves no other run's state or memory |
| Server.Runtime.Begin | crates/tds-host/src/runtime.rs:130-157 | Each run starts with a fresh host state and a fresh copy of the module's memory, shared with no other run |
| Tools.StoreRefinesHistory | crates/tds-host/src/tools.rs:134-164 | After any tool calls the scratchpad holds exactly the first `max_keys` distinct keys among the enabled, well-formed, small enough puts, each with its latest value |
| Tools.KvGetReadsHistory | crates/tds-host/src/tools.rs:134-141 | `kv_get` answers the latest admitted value of its key, or the placeholder |
| Tools.PutAccepted | crates/tds-host/src/tools.rs:143-163 | A put succeeds if and only if it is acceptable and its key is among the admitted ones |
| Tools.ScratchpadBounded | crates/tds-host/src/tools.rs:148-160 | At most `max_keys` keys and `max_keys * max_value_bytes` bytes of values, however it is used |
| Tools.NetworkGate | crates/tds-host/src/tools.rs:76-97 | Over any tool calls the requests sent are the https fetches to allowed hosts, one each, in order, and none if the tool is not enabled or the allowlist is empty |
| Tools.EnabledOrDenied | crates/tds-host/src/tools.rs:61-66 | The `not enabled` denial is given if and only if the tool is not enabled, and then without effect; only `kv_put` changes the scratchpad and only `http_get` sends, once |
| Tools.ToolsBehave | crates/tds-host/src/tools.rs:61-164 | Each tool, argument by argument: the checks of `http_get` in order and what it hands over of a response, `kv_get` and `kv_put` on the scratchpad, the kind of each error |
| Tools.ToolsIgnoreFloats | crates/tds-host/src/tools.rs:61-74 | No tool is affected by how the floats in its input were read |
| Tools.KnownToolsExist | crates/tds-host/src/tools.rs:67-74 | An enabled known tool never ends in `not_found` |
| Tools.SpecsAreTheEnabledTools | crates/tds-host/src/tools.rs:50-59 | Under a policy of known tools the model is offered exactly the enabled ones, in order |
| Tools.SpecsFrom | crates/tds-host/src/tools.rs:50-59 | Of any list of names the four tools are offered, all of them and in order |
| Tools.TruncationNotice | crates/tds-host/src/tools.rs:113-131 | The truncation notice is right if and only if the body is not exactly as long as the limit |
| Tools.NoticeOnWholeBody | crates/tds-host/src/tools.rs:120 | A body of exactly the limit is complete and still reported as truncated |
| Tools.ToolBox.Invoke | crates/tds-host/src/tools.rs:61-164 | One invocation: what is answered, stored and sent, tool by tool, as `Behaves` says |
| Tools.ToolBox.KvPut | crates/tds-host/src/tools.rs:143-163 | Result and scratchpad after one put, on all five of its exits |
| Policies.AllowsByLabels | crates/tds-host/src/policy.rs:223-236 | A host is allowed if and only if a rule equals it label by label, or is a wildcard whose labels are a tail of the host's |
| Policies.SuffixOnLabels | crates/tds-host/src/policy.rs:231 | The string suffix test of the code is the same as the test on whole labels |
| Policies.LookalikeRefused | crates/tds-host/src/policy.rs:224-225 | A name that only ends in the same letters is refused, with or without the wildcard |
| Policies.AllowsIgnoresCase | crates/tds-host/src/policy.rs:227 | Hosts that differ, letter by letter, in ASCII case only are treated alike |
| Policies.RulesIgnoreCase | crates/tds-host/src/policy.rs:229 | Rules that differ, letter by letter, in ASCII case only admit the same hosts |
| Policies.AllowsOfMoreRules | crates/tds-host/src/policy.rs:226-236 | More rules allow the union of what each part allows, and no rules allow nothing |
| Text.TrimSplits | crates/tds-host/src/policy.rs:229 | Trimming cuts white space off both ends, all of it and nothing else |
| Policies.Validate | crates/tds-host/src/policy.rs:32-65 | Accepts exactly the policies without a fault, and otherwise reports one of the first kind there is |
| Abi.ContentRoundTrip | crates/tds-abi/src/lib.rs:272-310 | A block comes back from a crossing as itself if and only if it is not raw JSON of a known shape |
| Abi.JsonRoundTrip | crates/tds-abi/src/lib.rs:272-310 | A JSON block is re-emitted unchanged if and only if it is unknown or canonical |
| Abi.NotAlwaysVerbatim | crates/tds-abi/src/lib.rs:272-274 | A concrete known block that is not echoed back verbatim |
| Abi.ReencodingOnlyDrops | crates/tds-abi/src/lib.rs:272-310 | Re-emitting invents no field and alters none, and keeps a thinking block's text and signature |
| Abi.CrossingsSettle | crates/tds-agent/src/lib.rs:230-232 | A block once received is a fixed point of any number of further crossings |
| Abi.LlmRequestRoundTrip | crates/tds-abi/src/lib.rs:368-377 | A request of stable blocks reaches the host exactly as built |
| Abi.LlmResponseRoundTrip | crates/tds-abi/src/lib.rs:379-386 | A response arrives with each block crossed once and nothing else changed, and then is stable |
| Abi.AgentInputRoundTrip | crates/tds-abi/src/lib.rs:163-174 | The input survives the crossing |
| Abi.AgentOutputRoundTrip | crates/tds-abi/src/lib.rs:176-222 | The output survives the crossing, record and totals included |
| Rereading.ContentReread | crates/tds-abi/src/lib.rs:272-310 | Decoding a block from text read again gives the same block, floats aside, whatever the JSON |
| Rereading.RereadStable | crates/tds-abi/src/lib.rs:272-310 | Reading floats again makes no block known or unknown, so stable blocks stay stable |
| Rereading.OutputReread | crates/tds-abi/src/lib.rs:176-222 | Of an output read from text only the floats in tool arguments can differ |
| JsonValues.KeptFloats | crates/tds-abi/src/lib.rs:276-281 | A value whose floats are read as the same floats is read as itself, whatever its shape |
| Abi.PackBijective | crates/tds-abi/src/lib.rs:79-87 | Pairs of 32-bit words and 64-bit words correspond one to one |
| Abi.PackOnBits | crates/tds-abi/src/lib.rs:79-87 | The shifts, mask and or on machine words are that arithmetic |
| Utf8.CutPoint | crates/tds-agent/src/lib.rs:293-297 | The loop stops at the end of the longest prefix of whole characters that fits, at most three bytes short, and the kept bytes are valid UTF-8 |
| Utf8.GreatestBoundary | crates/tds-agent/src/lib.rs:293-296 | That end is the greatest character boundary at or below the limit |
| Utf8.FitIsLongest | crates/tds-agent/src/lib.rs:289-298 | One more character would not fit |
| Utf8.TruncationConserves | crates/tds-agent/src/lib.rs:297 | The kept bytes and the reported count add up to the original length |
| Utf8.TruncationFits | crates/tds-agent/src/lib.rs:289-292 | A text of at most the limit is left alone by both copies; the host's cuts a longer one after the last character that fits and adds an ellipsis |
| Utf8.TruncateQuietly | crates/tds-host/src/llm.rs:181-190 | The host's copy of the loop, with its own ending |
| Utf8.DecodeInvertsEncode | crates/tds-host/src/runtime.rs:360-362 | Every name written as UTF-8 is read back as itself |
| Utf8.DecodeSound | crates/tds-host/src/runtime.rs:360-362 | Only the encoding of a string is accepted |
| Llm.Complete | crates/tds-host/src/llm.rs:106-170 | The retry loop sends one request per attempt, again only after no response, a 429 or a 5xx and a sleep of the seconds asked for or of 1, 2, 4, 8, 16 s; the last attempt decides: the blocks, stop reason and usage in its JSON body, or an `upstream` error |
| Llm.TotalBackoff | crates/tds-host/src/llm.rs:177-179 | Without Retry-After (section 10.2.3 of RFC 9110) the total sleep is 1000(2^n - 1) ms for n up to 5, then 16 s more each |
| Llm.RetriedAnswers | crates/tds-host/src/llm.rs:137-142 | The loop sends between one and `max_retries + 1` requests, and the blocks of a decoded reply never change in a crossing |
| Llm.ParseHomomorphism | crates/tds-host/src/llm.rs:319-332 | The directives of two texts on separate lines are those of each, in order |
| Llm.PrintParse | crates/tds-host/src/llm.rs:319-332 | Directives written one a line, with or without arguments and with any other lines between, parse back to themselves: their names, and their arguments as the JSON they are or else the empty object |
| Llm.ArgumentsRoundTrip | crates/tds-host/src/llm.rs:328-329 | Arguments that are the text of a JSON value reach the tool call as that value, floats aside |
| MockRuns.MockRun | crates/tds-host/src/llm.rs:235-308 | With the mock answering, a run whose model turns fit asks for exactly the enabled tool calls its text names, in order, all in step one; each record tells what that tool answered as the calls before it left the scratchpad, never that a tool is not enabled or does not exist; scratchpad and fetched URLs are those of the calls that reach the host; it ends as completed or at its limit in the stated number of steps, and a completed run with calls answers with the texts of all their results |
| MockRuns.MockUses | crates/tds-host/src/llm.rs:254-265 | The calls the guest reads have the directives' names and, but for floats, arguments, and pairwise distinct ids |
| MockRuns.FirstAnswer | crates/tds-host/src/llm.rs:236-299 | The mock's first answer has one call per wanted directive of context and task, or if there is none it names the first line of the text |
| MockRuns.FirstLineIs | crates/tds-host/src/llm.rs:315-317 | The first line of a text, without the white space around it |
| MockRuns.WantedAreDirectives | crates/tds-host/src/llm.rs:249-254 | The calls wanted are the directives of context and task whose tool is enabled, all of them and in order |
| MockRuns.AnswerAfterResults | crates/tds-host/src/llm.rs:279-307 | Once results are in the conversation the mock asks for no more tools and answers with their texts |
| Basics.DecimalInjective | crates/tds-host/src/llm.rs:260 | Numbered ids never collide |

## Left out

- Wasmtime (compilation, fuel, epochs, traps, memory growth and limiters): library behaviour; only normal returns of the guest are modelled, and the guest memory has its final size throughout.
- The epoch ticker, `fuel_used`, `describe_trap`, `verify_module_shape` and the ABI version check: nothing to prove without Wasmtime.
- JSON text syntax (but for its nesting limit), `from_utf8_lossy` and RFC 3339 formatting: library code, taken as the parameters `Wire` and `World`.
- Forms that only serde's own machinery accepts (a struct or tagged block written as an array, a tag given as a number): JSON objects only. So an array is always a raw block here.
- Serialisation failures (`unwrap_or_else` in `respond` and `tds_run`): values as modelled always serialise.
- `RunReport`'s model name, duration and fuel, and the text form of a log level: data.
- HTTP sending, TLS, headers, URL parsing, environment and TOML loading: their outcomes are inputs. Not following redirects is modelled as `http_get` sending once and reporting what it got.
- `AnthropicProvider::body`, tool descriptions and schemas, the full system prompt: data. Tool specs carry an empty description and schema.
- Wording of error messages: the kinds and branches are exact, the texts are shortened (also in log lines and fixed answers), and quoting escapes nothing.
- `main.rs`: plumbing, used only as the reason for concurrent runs. Provider instances shared by runs are part of each call's `World`.
- Concurrency below the level of one host call: host calls are atomic steps of a run.
- Which float a decimal text is read as, and floats so large that they are refused: `Wire.again` is any function.
- Guest.HostCall: the capability's name is laid out like any other buffer, where the module keeps it in static data.
