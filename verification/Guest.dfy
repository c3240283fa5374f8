/**
 * The guest module at work in its own memory: `host_call`, `run_agent` and
 * `tds_run`, and the host's `invoke_agent` around them. Each method also returns
 * `normal`: false means an allocation failed where Rust aborts, which is a trap.
 */
module Guest {
  import opened Basics
  import opened JsonValues
  import opened Abi
  import opened Rereading
  import opened Outside
  import opened Host
  import opened Agent
  import opened Calls
  import opened Heap
  import opened Nesting
  import opened Sizes
  import Str = Text
  import Utf8

  lemma {:induction false} EncodedLength(s: string)
    ensures |Utf8.Encode(s)| <= 4 * |s|
  {
    if s != [] {
      EncodedLength(s[1..]);
    }
  }

  /** The host reads from memory just what the guest put there, and knows the capability by its name. */
  lemma CallServes(s: Setup, w: World, h: State, mem: seq<byte>, c: Capability, body: seq<byte>,
                   namePtr: u32, nameLen: u32, bodyPtr: u32, bodyLen: u32)
    requires ReadGuest(mem, namePtr, nameLen) == Some(Utf8.Encode(CapabilityName(c)))
    requires ReadGuest(mem, bodyPtr, bodyLen) == Some(body)
    ensures CallOutcome(s, w, h, mem, namePtr, nameLen, bodyPtr, bodyLen) ==
              Served(Serve(s, w, h, c, body).0, Serve(s, w, h, c, body).1)
  {
    hide Handled, Utf8.Encode, Utf8.Decode, RespondError;
    var name := CapabilityName(c);
    Utf8.DecodeInvertsEncode(name);
    EncodedLength(name);
    CapabilityNamed(c, name);
    assert nameLen == |Utf8.Encode(name)| && bodyLen == |body|;
  }

  /** The state and return value of that `call`. */
  lemma CallStep(s: Setup, w: World, h: State, mem: seq<byte>, c: Capability, body: seq<byte>,
                 namePtr: u32, nameLen: u32, bodyPtr: u32, bodyLen: u32)
    requires ReadGuest(mem, namePtr, nameLen) == Some(Utf8.Encode(CapabilityName(c)))
    requires ReadGuest(mem, bodyPtr, bodyLen) == Some(body)
    ensures var served := Serve(s, w, h, c, body);
            var e := Step(s, h, Act.Call(mem, w, namePtr, nameLen, bodyPtr, bodyLen));
            e.h == served.0.(pending := served.1) && e.code == AsI32(|served.1|)
  {
    hide Serve, CallOutcome, Utf8.Encode;
    CallServes(s, w, h, mem, c, body, namePtr, nameLen, bodyPtr, bodyLen);
  }

  /** Reading with the length `call` returned takes the response, if that length is the true one. */
  lemma ReadStep(s: Setup, h: State, mem: seq<byte>, ptr: u32, n: u32)
    requires 0 < n < TWO_31 && n == AsI32(|h.pending|) && ptr + n <= |mem|
    ensures var e := Step(s, h, Act.ResponseRead(mem, ptr, n));
            if |h.pending| < TWO_31 then
              e.h == h.(pending := []) && e.code == n && e.mem == mem[..ptr] + h.pending + mem[ptr + n..]
            else e.h == h && e.code != n && e.mem == mem
  {
  }

  /** A fresh non-empty buffer holding `bytes`, as a `Vec<u8>` or `String` is. */
  method Place(heap: GuestHeap, ghost max: nat, bytes: seq<byte>) returns (ok: bool, p: int)
    requires heap.Valid() && bytes != []
    modifies heap`live, heap`ticks, heap`refusals, heap.data
    ensures heap.Valid() && heap.refusals >= old(heap.refusals)
    ensures old(heap.HasRoom(max, 0)) && |bytes| <= max ==> heap.refusals == old(heap.refusals)
    ensures !ok ==> heap.refusals > old(heap.refusals)
    ensures ok ==> 1 < p && p !in old(heap.live) && p + |bytes| <= heap.data.Length
    ensures ok ==> heap.live == old(heap.live)[p := |bytes|] && heap.Contents() == old(heap.Contents())[p := bytes]
  {
    hide ContentsOf, Room, Free, WellPlaced;
    if heap.HasRoom(max, 0) && |bytes| <= max {
      RoomIsFree(heap.chooser, heap.data.Length, heap.live, max, heap.ticks, |bytes|);
    }
    p := heap.Allocate(|bytes|);
    ok := p != 0;
    if ok {
      SetTwice(old(heap.Contents()), p, heap.data[p..p + |bytes|], bytes);
      heap.Write(p, bytes);
    }
  }

  /** `host_call`'s buffer: fill it from the mailbox and hand over what it holds. */
  method Fetch(heap: GuestHeap, ghost max: nat, host: HostState, n: u32)
    returns (ok: bool, copied: int, bytes: seq<byte>)
    requires heap.Valid() && host.Valid() && 0 < n < TWO_31 && n == AsI32(|host.pending|)
    modifies heap`live, heap`ticks, heap`refusals, heap.data, host`pending, host`acts
    ensures heap.Valid() && host.Valid() && heap.refusals >= old(heap.refusals)
    ensures old(heap.HasRoom(max, 0)) && n <= max ==> heap.refusals == old(heap.refusals)
    ensures !ok ==> heap.refusals > old(heap.refusals)
    ensures ok ==> heap.live == old(heap.live) && heap.Contents() == old(heap.Contents())
    ensures ok ==>
              if |old(host.pending)| < TWO_31 then
                host.View() == old(host.View()).(pending := []) && copied == n && bytes == old(host.pending)
              else host.View() == old(host.View()) && copied != n
  {
    hide ContentsOf, Run, Step, Room, WellPlaced;
    copied, bytes := 0, [];
    var buf;
    ok, buf := Place(heap, max, seq(n, i => 0));
    if !ok {
      return;
    }
    ghost var mem := heap.data[..];
    ReadStep(host.s, host.View(), mem, buf, n);
    ContentsOverwritten(heap.live, mem, buf, if |host.pending| == n then host.pending else seq(n, i => 0));
    copied := host.ResponseRead(heap.data, buf, n);
    assert heap.Contents() - {buf} == old(heap.Contents());
    bytes := heap.data[buf..buf + n];
    heap.Release(buf, n);
    assert heap.live == old(heap.live);
  }

  lemma NothingUnderstood<T>(wire: Wire, from: Json -> Option<T>)
    requires Lossless(wire)
    ensures Understand(wire, from, []) == Err(MALFORMED)
  {
  }

  /** The rest of `host_call` once `call` has returned `n`: size a buffer, read, decode. */
  method ReadReply<T>(heap: GuestHeap, ghost max: nat, host: HostState, n: int, from: Json -> Option<T>)
    returns (normal: bool, r: Cap<T>)
    requires heap.Valid() && host.Valid() && Lossless(host.s.wire) && n == AsI32(|host.pending|)
    modifies heap`live, heap`ticks, heap`refusals, heap.data, host`pending, host`acts
    ensures heap.Valid() && host.Valid() && heap.refusals >= old(heap.refusals)
    ensures old(heap.HasRoom(max, 0)) && |old(host.pending)| <= max < TWO_31 ==>
              heap.refusals == old(heap.refusals)
    ensures !normal ==> heap.refusals > old(heap.refusals)
    ensures normal ==> heap.live == old(heap.live) && heap.Contents() == old(heap.Contents())
    ensures normal ==> (host.View(), r) == Heard(host.s.wire, old(host.View()), from)
  {
    hide ContentsOf, Run, Step, Lossless, Understand, Room, WellPlaced;
    normal, r := true, Err(MALFORMED);
    if n < 0 {
      return true, Err(HostFailure(n));
    }
    if n == 0 {
      NothingUnderstood(host.s.wire, from);
      return;
    }
    var copied, bytes;
    normal, copied, bytes := Fetch(heap, max, host, n);
    r := if copied != n then Err(TRUNCATED) else Understand(host.s.wire, from, bytes);
  }

  /** Lay out two buffers. */
  method PlaceBoth(heap: GuestHeap, ghost max: nat, name: seq<byte>, body: seq<byte>)
    returns (ok: bool, namePtr: int, bodyPtr: int)
    requires heap.Valid() && name != [] && body != []
    modifies heap`live, heap`ticks, heap`refusals, heap.data
    ensures heap.Valid() && heap.refusals >= old(heap.refusals)
    ensures old(heap.HasRoom(max, 2)) && |name| <= max && |body| <= max ==>
              heap.refusals == old(heap.refusals) && heap.HasRoom(max, 0)
    ensures !ok ==> heap.refusals > old(heap.refusals)
    ensures ok ==> namePtr !in old(heap.live) && bodyPtr !in old(heap.live) && namePtr != bodyPtr
    ensures ok ==> heap.live == old(heap.live)[namePtr := |name|][bodyPtr := |body|]
    ensures ok ==> heap.Contents() == old(heap.Contents())[namePtr := name][bodyPtr := body]
  {
    hide ContentsOf, Room, WellPlaced;
    bodyPtr := 0;
    ghost var roomy := heap.HasRoom(max, 2) && |name| <= max && |body| <= max;
    RoomForFewer(heap, max, 2, 0);
    ok, namePtr := Place(heap, max, name);
    if !ok {
      return;
    }
    if roomy {
      RoomAfter(heap.chooser, heap.data.Length, old(heap.live), max, 1, namePtr, |name|);
    }
    ghost var live := heap.live;
    RoomForFewer(heap, max, 1, 0);
    ok, bodyPtr := Place(heap, max, body);
    if ok && roomy {
      RoomAfter(heap.chooser, heap.data.Length, live, max, 0, bodyPtr, |body|);
    }
  }

  /** The first half of `host_call`: lay out name and request, and `call`. */
  method Send(heap: GuestHeap, ghost max: nat, host: HostState, w: World, c: Capability, body: seq<byte>)
    returns (ok: bool, namePtr: int, bodyPtr: int, n: int)
    requires heap.Valid() && host.Valid() && body != []
    modifies heap`live, heap`ticks, heap`refusals, heap.data, host, host.tools
    ensures heap.Valid() && host.Valid() && heap.refusals >= old(heap.refusals)
    ensures old(heap.HasRoom(max, 2)) && LineSmall(CapabilityName(c), max) && |body| <= max ==>
              heap.refusals == old(heap.refusals) && heap.HasRoom(max, 0)
    ensures !ok ==> heap.refusals > old(heap.refusals)
    ensures ok ==> namePtr !in old(heap.live) && bodyPtr !in old(heap.live) && namePtr != bodyPtr
    ensures ok ==> var name := Utf8.Encode(CapabilityName(c));
                   && heap.live == old(heap.live)[namePtr := |name|][bodyPtr := |body|]
                   && heap.Contents() == old(heap.Contents())[namePtr := name][bodyPtr := body]
    ensures ok ==> var served := Serve(host.s, w, old(host.View()), c, body);
                   host.View() == served.0.(pending := served.1) && n == AsI32(|served.1|)
  {
    hide ContentsOf, Serve, Step, Run, CapabilityName, Utf8.Encode, Room;
    n := 0;
    var nameBytes := Utf8.Encode(CapabilityName(c));
    NamesNonEmpty(c);
    ok, namePtr, bodyPtr := PlaceBoth(heap, max, nameBytes, body);
    if !ok {
      return;
    }
    ghost var mem := heap.data[..];
    ContentsOfBlock(heap.live, mem, namePtr);
    ContentsOfBlock(heap.live, mem, bodyPtr);
    CallStep(host.s, w, host.View(), mem, c, body, namePtr, |nameBytes|, bodyPtr, |body|);
    n := host.Call(heap.data, w, namePtr, |nameBytes|, bodyPtr, |body|);
  }

  lemma NamesNonEmpty(c: Capability)
    ensures Utf8.Encode(CapabilityName(c)) != []
  {
  }

  /** Name and request are freed. */
  method FreeBoth(heap: GuestHeap, ghost live: Blocks, ghost contents: map<int, seq<byte>>,
                  namePtr: int, name: seq<byte>, bodyPtr: int, body: seq<byte>)
    requires heap.Valid() && namePtr !in live && bodyPtr !in live && namePtr != bodyPtr && contents.Keys == live.Keys
    requires heap.live == live[namePtr := |name|][bodyPtr := |body|]
    requires heap.Contents() == contents[namePtr := name][bodyPtr := body]
    modifies heap`live, heap.data
    ensures heap.Valid() && heap.live == live && heap.Contents() == contents
  {
    hide ContentsOf, WellPlaced;
    heap.Release(bodyPtr, |body|);
    heap.Release(namePtr, |name|);
    AddedThenRemoved(live, namePtr, |name|, bodyPtr, |body|);
    AddedThenRemoved(contents, namePtr, name, bodyPtr, body);
  }

  /**
   * `host_call`. Whatever was left in the mailbox before, the result is the
   * decoding of the response to this very request, and no block the caller
   * holds is touched.
   */
  method HostCall<T>(heap: GuestHeap, ghost max: nat, host: HostState, w: World, c: Capability, body: Json,
                     from: Json -> Option<T>)
    returns (normal: bool, r: Cap<T>)
    requires heap.Valid() && host.Valid() && Lossless(host.s.wire)
    modifies heap`live, heap`ticks, heap`refusals, heap.data, host, host.tools
    ensures heap.Valid() && host.Valid() && heap.refusals >= old(heap.refusals)
    ensures old(heap.HasRoom(max, 2)) && max < TWO_31
            && CallSmall(host.s, w, old(host.View()), c, body, max) ==>
              heap.refusals == old(heap.refusals)
    ensures !normal ==> heap.refusals > old(heap.refusals)
    ensures normal ==> heap.live == old(heap.live) && heap.Contents() == old(heap.Contents())
    ensures normal ==> (host.View(), r) == Ask(host.s, w, old(host.View()), c, body, from)
  {
    hide ContentsOf, Serve, Heard, Run, Utf8.Encode, CapabilityName, Room, WellPlaced;
    r := Err(MALFORMED);
    var nameBytes, bodyBytes := Utf8.Encode(CapabilityName(c)), host.s.wire.enc(body);
    var namePtr, bodyPtr, n;
    normal, namePtr, bodyPtr, n := Send(heap, max, host, w, c, bodyBytes);
    if !normal {
      return;
    }
    normal, r := ReadReply(heap, max, host, n, from);
    if normal {
      FreeBoth(heap, old(heap.live), old(heap.Contents()), namePtr, nameBytes, bodyPtr, bodyBytes);
    }
  }

  lemma LogStep(s: Setup, h: State, mem: seq<byte>, level: LogLevel, message: string, ptr: u32, len: u32)
    requires ReadGuest(mem, ptr, len) == Some(Utf8.Encode(message))
    ensures Step(s, h, Act.Log(mem, LevelCode(level), ptr, len)).h == Emit(s, h, level, message)
  {
    var cut := Min(len, MAX_LOG_BYTES);
    assert mem[ptr..ptr + cut] == mem[ptr..ptr + len][..cut];
  }

  /** `emit`. An empty string has no buffer; its address is 1. */
  method EmitLine(heap: GuestHeap, ghost max: nat, host: HostState, level: LogLevel, message: string)
    returns (normal: bool)
    requires heap.Valid() && host.Valid()
    modifies heap`live, heap`ticks, heap`refusals, heap.data, host`logs, host`acts
    ensures heap.Valid() && host.Valid() && heap.refusals >= old(heap.refusals)
    ensures old(heap.HasRoom(max, 0)) && LineSmall(message, max) ==> heap.refusals == old(heap.refusals)
    ensures !normal ==> heap.refusals > old(heap.refusals)
    ensures normal ==> heap.live == old(heap.live) && heap.Contents() == old(heap.Contents())
    ensures normal ==> host.View() == Emit(host.s, old(host.View()), level, message)
  {
    hide ContentsOf, Run, Step, Emit, LevelCode, Utf8.Encode, Room;
    var bytes := Utf8.Encode(message);
    if bytes == [] {
      assert heap.data[..][1..1] == [];
      LogStep(host.s, host.View(), heap.data[..], level, message, 1, 0);
      host.Log(heap.data, LevelCode(level), 1, 0);
      return true;
    }
    var ptr;
    normal, ptr := Place(heap, max, bytes);
    if normal {
      ghost var mem := heap.data[..];
      ContentsOfBlock(heap.live, mem, ptr);
      LogStep(host.s, host.View(), mem, level, message, ptr, |bytes|);
      host.Log(heap.data, LevelCode(level), ptr, |bytes|);
      heap.Release(ptr, |bytes|);
      assert heap.live == old(heap.live) && heap.Contents() == old(heap.Contents());
    }
  }

  /** One tool call: log it, make it, and turn the answer into a record and a result block. */
  method RunTool(heap: GuestHeap, ghost max: nat, host: HostState, ws: nat -> World, k: nat, ghost g: Imports,
                 step: u32, use: Use)
    returns (normal: bool, ghost reply: Reply, record: ToolCallRecord, result: Content)
    requires heap.Valid() && host.Valid() && Lossless(host.s.wire) && Linked(g, host.s, ws)
    modifies heap`live, heap`ticks, heap`refusals, heap.data, host, host.tools
    ensures heap.Valid() && host.Valid() && heap.refusals >= old(heap.refusals)
    ensures old(heap.HasRoom(max, 2)) && max < TWO_31
            && UseSmall(host.s, ws(k), old(host.View()), step, use, max) ==>
              heap.refusals == old(heap.refusals)
    ensures !normal ==> heap.refusals > old(heap.refusals)
    ensures normal ==> heap.live == old(heap.live) && heap.Contents() == old(heap.Contents())
    ensures normal ==> (host.View(), reply) == RunUse(g, k, old(host.View()), step, use)
    ensures normal ==> record == RecordOf(step, use, reply) && result == ResultOf(use, reply)
  {
    hide Ask, Emit, Run, ContentsOf, Room, CallSmall, LineSmall, WellPlaced;
    reply, record, result := Reply("", false), RecordOf(step, use, Reply("", false)), ResultOf(use, Reply("", false));
    RoomForFewer(heap, max, 2, 0);
    normal := EmitLine(heap, max, host, Info, CallingTool(step, use.name));
    if !normal {
      return;
    }
    var invocation := ToolInvokeRequest(use.name, use.input);
    ghost var h1 := host.View();
    var r;
    normal, r := HostCall(heap, max, host, ws(k), ToolInvoke, ToolInvokeRequestToJson(invocation), ToolTextFromJson);
    if !normal {
      return;
    }
    assert (host.View(), r) == AskTool(host.s, ws(k), h1, use);
    reply := ReplyOf(r);
    var text, ok;
    match r {
      case Ok(content) => text, ok := content, true;
      case Err(e) => text, ok := e.Show(), false;
    }
    var shown := Utf8.Truncate(text, RECORD_BYTES);
    record := ToolCallRecord(step, use.name, use.input, ok, shown);
    result := Known(ToolResult(use.id, text, !ok));
  }

  lemma {:induction false} UsesSmallAt(g: Imports, s: Setup, ws: nat -> World, clock: nat, h: State, step: u32,
                                       uses: seq<Use>, max: nat, i: nat)
    requires i < |uses| && UsesSmall(g, s, ws, clock, h, step, uses, max)
    ensures UseSmall(s, ws(clock + i), RunUses(g, clock, h, step, uses[..i]).h, step, uses[i], max)
  {
    hide UseSmall, RunUses;
    if i < |uses| - 1 {
      UsesSmallAt(g, s, ws, clock, h, step, uses[..|uses| - 1], max, i);
      assert uses[..|uses| - 1][..i] == uses[..i];
    }
  }

  /** The inner loop of `run_agent`: every tool call of one turn, in order. */
  method RunTools(heap: GuestHeap, ghost max: nat, host: HostState, ws: nat -> World, clock: nat, ghost g: Imports,
                  step: u32, uses: seq<Use>)
    returns (normal: bool, ghost replies: seq<Reply>, record: seq<ToolCallRecord>, results: seq<Content>)
    requires heap.Valid() && host.Valid() && Lossless(host.s.wire) && Linked(g, host.s, ws)
    modifies heap`live, heap`ticks, heap`refusals, heap.data, host, host.tools
    ensures heap.Valid() && host.Valid() && heap.refusals >= old(heap.refusals)
    ensures old(heap.HasRoom(max, 2)) && max < TWO_31
            && UsesSmall(g, host.s, ws, clock, old(host.View()), step, uses, max) ==>
              heap.refusals == old(heap.refusals)
    ensures !normal ==> heap.refusals > old(heap.refusals)
    ensures normal ==> heap.live == old(heap.live) && heap.Contents() == old(heap.Contents())
    ensures normal ==> Tooled(host.View(), replies) == RunUses(g, clock, old(host.View()), step, uses)
    ensures normal ==>
              |replies| == |uses| && record == RecordsOf(step, uses, replies) && results == ResultsOf(uses, replies)
  {
    hide RunUse, Run, ContentsOf, RecordOf, ResultOf, Room, UseSmall, UsesSmall, WellPlaced;
    normal, replies, record, results := true, [], [], [];
    ghost var h0 := host.View();
    ghost var roomy := heap.HasRoom(max, 2) && max < TWO_31 && UsesSmall(g, host.s, ws, clock, h0, step, uses, max);
    for i := 0 to |uses|
      invariant normal && heap.refusals >= old(heap.refusals) && host.Valid()
      invariant roomy ==> heap.refusals == old(heap.refusals)
      invariant heap.Valid() && heap.live == old(heap.live) && heap.Contents() == old(heap.Contents())
      invariant Tooled(host.View(), replies) == RunUses(g, clock, old(host.View()), step, uses[..i])
      invariant |replies| == i && record == RecordsOf(step, uses[..i], replies)
      invariant results == ResultsOf(uses[..i], replies)
    {
      assert uses[..i + 1][..i] == uses[..i];
      if roomy {
        UsesSmallAt(g, host.s, ws, clock, h0, step, uses, max, i);
      }
      ghost var reply;
      var rec, result;
      normal, reply, rec, result := RunTool(heap, max, host, ws, clock + i, g, step, uses[i]);
      if !normal {
        return;
      }
      replies, record, results := replies + [reply], record + [rec], results + [result];
    }
    assert uses[..|uses|] == uses;
  }

  /** The variables `run_agent` carries round its loop, and the loop state they amount to. */
  datatype Vars = Vars(clock: nat, tools: seq<ToolSpec>, messages: seq<Message>,
                       record: seq<ToolCallRecord>, usage: Usage)

  function LoopOf(h: State, v: Vars, turns: seq<Turn>): Loop {
    Loop(h, v.clock, v.tools, v.messages, v.record, v.usage, turns)
  }

  /** `run_agent` up to its loop. */
  method Open(heap: GuestHeap, ghost max: nat, host: HostState, ws: nat -> World, ghost g: Imports, input: AgentInput)
    returns (normal: bool, v: Vars)
    requires heap.Valid() && host.Valid() && Lossless(host.s.wire) && Linked(g, host.s, ws)
    modifies heap`live, heap`ticks, heap`refusals, heap.data, host, host.tools
    ensures heap.Valid() && host.Valid() && heap.refusals >= old(heap.refusals)
    ensures old(heap.HasRoom(max, 2)) && max < TWO_31 && StartSmall(g, host.s, ws, old(host.View()), max) ==>
              heap.refusals == old(heap.refusals)
    ensures !normal ==> heap.refusals > old(heap.refusals)
    ensures normal ==> heap.live == old(heap.live) && heap.Contents() == old(heap.Contents())
    ensures normal ==> LoopOf(host.View(), v, []) == Start(g, old(host.View()), input)
  {
    hide Ask, Emit, Run, ContentsOf, Room, CallSmall, LineSmall, WellPlaced;
    RoomForFewer(heap, max, 2, 0);
    v := Vars(0, [], [], [], NO_USAGE);
    var listed;
    normal, listed := HostCall(heap, max, host, ws(0), ToolsList, JObject(map[]), ToolsListFromJson);
    if !normal {
      return;
    }
    assert (host.View(), listed) == AskList(host.s, ws(0), old(host.View()));
    var tools := [];
    match listed {
      case Ok(list) => tools := list;
      case Err(e) => normal := EmitLine(heap, max, host, Warn, NoTools(e));
    }
    if !normal {
      return;
    }
    normal := EmitLine(heap, max, host, Info, StartingWith(|tools|));
    if !normal {
      return;
    }
    var messages := [];
    if input.context.Some? && Str.Trim(input.context.value) != "" {
      messages := messages + [Message(User, [Known(Text("Background context:\n" + input.context.value))])];
    }
    messages := messages + [Message(User, [Known(Text(input.task))])];
    v := Vars(1, tools, messages, [], NO_USAGE);
  }

  /** The body of `run_agent`'s loop: one model turn, ending the run or leading to the next. */
  method TakeTurn(heap: GuestHeap, ghost max: nat, host: HostState, ws: nat -> World, ghost g: Imports, v: Vars,
                  ghost turns: seq<Turn>, step: u32)
    returns (normal: bool, done: Option<AgentOutput>, v': Vars, ghost turns': seq<Turn>)
    requires heap.Valid() && host.Valid() && Lossless(host.s.wire) && Linked(g, host.s, ws) && step >= 1
    modifies heap`live, heap`ticks, heap`refusals, heap.data, host, host.tools
    ensures heap.Valid() && host.Valid() && heap.refusals >= old(heap.refusals)
    ensures old(heap.HasRoom(max, 2)) && max < TWO_31
            && StepSmall(g, host.s, ws, LoopOf(old(host.View()), v, turns), step, max) ==>
              heap.refusals == old(heap.refusals)
    ensures !normal ==> heap.refusals > old(heap.refusals)
    ensures normal ==> heap.live == old(heap.live) && heap.Contents() == old(heap.Contents())
    ensures normal ==>
              OneStep(g, LoopOf(old(host.View()), v, turns), step) ==
                match done
                case None => Running(LoopOf(host.View(), v', turns'))
                case Some(out) => Done(LoopOf(host.View(), v', turns'), out)
  {
    hide Ask, Emit, RunUses, Run, ContentsOf, ToolUses, JoinedText, RecordsOf, ResultsOf, AddUsage;
    hide Room, CallSmall, LineSmall, UsesSmall, WellPlaced;
    RoomForFewer(heap, max, 2, 0);
    done, v', turns' := None, v, turns;
    var request := LlmRequest(Some(SYSTEM_PROMPT), v.messages, v.tools);
    var answer;
    normal, answer :=
      HostCall(heap, max, host, ws(v.clock), LlmComplete, LlmRequestToJson(request), LlmResponseFromJson);
    if !normal {
      return;
    }
    assert (host.View(), answer) == AskModel(host.s, ws(v.clock), old(host.View()), request);
    v' := v'.(clock := v.clock + 1);
    if answer.Err? {
      normal := EmitLine(heap, max, host, LogLevel.Error, TurnFailed(step, answer.error));
      done := Some(AgentOutput("failed at " + Decimal(step) + ": " + answer.error.Show(),
                               step - 1, StopReason.Error, v.record, v.usage));
      return;
    }
    var response := answer.value;
    v' := v'.(usage := AddUsage(v.usage, response.usage));
    if response.stopReason == "refusal" {
      turns' := turns + [Turn(response, [])];
      done := Some(AgentOutput(JoinedText(response), step, Refusal, v.record, v'.usage));
      return;
    }
    v' := v'.(messages := v.messages + [Message(Assistant, response.content)]);
    var requested := ToolUses(response.content);
    if requested == [] {
      turns' := turns + [Turn(response, [])];
      done := Some(AgentOutput(JoinedText(response), step, Completed, v.record, v'.usage));
      return;
    }
    ghost var replies;
    var records, results;
    normal, replies, records, results := RunTools(heap, max, host, ws, v'.clock, g, step, requested);
    if !normal {
      return;
    }
    v' := v'.(clock := v'.clock + |requested|, record := v.record + records,
              messages := v'.messages + [Message(User, results)]);
    turns' := turns + [Turn(response, replies)];
  }

  lemma LoopSmallAt(g: Imports, s: Setup, ws: nat -> World, h: State, input: AgentInput, max: nat, n: u32)
    requires LoopSmall(g, s, ws, h, input, max)
    ensures StartSmall(g, s, ws, h, max) && LineSmall(AT_LIMIT, max)
    ensures var p := After(g, h, input, n);
            n < StepCap(input) && p.Running? ==> StepSmall(g, s, ws, p.st, n + 1, max)
  {
    hide StartSmall, StepSmall, After;
  }

  /** `run_agent`: it computes what `AgentRun` says. */
  method RunAgent(heap: GuestHeap, ghost max: nat, host: HostState, ws: nat -> World, input: AgentInput)
    returns (normal: bool, out: AgentOutput, ghost st: Loop)
    requires heap.Valid() && host.Valid() && Lossless(host.s.wire)
    modifies heap`live, heap`ticks, heap`refusals, heap.data, host, host.tools
    ensures heap.Valid() && host.Valid() && heap.refusals >= old(heap.refusals)
    ensures old(heap.HasRoom(max, 2)) && max < TWO_31
            && LoopSmall(Link(host.s, ws), host.s, ws, old(host.View()), input, max) ==>
              heap.refusals == old(heap.refusals)
    ensures !normal ==> heap.refusals > old(heap.refusals)
    ensures normal ==> heap.live == old(heap.live) && heap.Contents() == old(heap.Contents())
    ensures normal ==> AgentRun(Link(host.s, ws), old(host.View()), input) == Done(st, out) && st.h == host.View()
  {
    hide Start, OneStep, Emit, AskList, AskModel, AskTool, Link, Run, ContentsOf;
    hide Room, LoopSmall, StartSmall, StepSmall, LineSmall, WellPlaced;
    ghost var g, h0 := Link(host.s, ws), host.View();
    ghost var roomy := heap.HasRoom(max, 2) && max < TWO_31 && LoopSmall(g, host.s, ws, h0, input, max);
    LinkLinks(host.s, ws);
    RoomForFewer(heap, max, 2, 0);
    if roomy {
      LoopSmallAt(g, host.s, ws, h0, input, max, 0);
    }
    var v;
    out := AgentOutput("", 0, StopReason.Error, [], NO_USAGE);
    normal, v := Open(heap, max, host, ws, g, input);
    st := LoopOf(host.View(), v, []);
    if !normal {
      return;
    }
    var maxSteps := StepCap(input);
    ghost var turns: seq<Turn> := [];
    var step: int := 1;
    while step <= maxSteps
      invariant 1 <= step && step - 1 <= maxSteps
      invariant normal && heap.refusals >= old(heap.refusals) && host.Valid()
      invariant roomy ==> heap.refusals == old(heap.refusals)
      invariant heap.Valid() && heap.live == old(heap.live) && heap.Contents() == old(heap.Contents())
      invariant After(g, h0, input, step - 1) == Running(LoopOf(host.View(), v, turns))
    {
      var done;
      if roomy {
        LoopSmallAt(g, host.s, ws, h0, input, max, step - 1);
      }
      normal, done, v, turns := TakeTurn(heap, max, host, ws, g, v, turns, step);
      if !normal {
        return;
      }
      if done.Some? {
        AfterDone(g, h0, input, step, maxSteps);
        st, out := LoopOf(host.View(), v, turns), done.value;
        return;
      }
      step := step + 1;
    }
    normal := EmitLine(heap, max, host, Warn, AT_LIMIT);
    st := LoopOf(host.View(), v, turns);
    out := AgentOutput("stopped", maxSteps, StepLimit, v.record, v.usage);
  }

  // --------------------------------------------------------------------------
  // Entering and leaving the module
  // --------------------------------------------------------------------------

  /** What `tds_run` answers to input it cannot read. */
  const UNREADABLE_INPUT := AgentOutput("bad input", 0, StopReason.Error, [], NO_USAGE)

  /** A block of the module's own allocator, filled; or 0. */
  method Export(heap: GuestHeap, ghost max: nat, bytes: seq<byte>, len: u32) returns (ptr: u32)
    requires heap.Valid() && bytes != [] && len == |bytes|
    modifies heap`live, heap`ticks, heap`refusals, heap.data
    ensures heap.Valid() && heap.refusals >= old(heap.refusals)
    ensures old(heap.HasRoom(max, 0)) && |bytes| <= max < TWO_31 ==> heap.refusals == old(heap.refusals)
    ensures ptr == 0 ==> heap.Contents() == old(heap.Contents()) && heap.refusals > old(heap.refusals)
    ensures ptr != 0 ==> 1 < ptr && ptr !in old(heap.live) && heap.Contents() == old(heap.Contents())[ptr := bytes]
  {
    hide ContentsOf, Room, Free, WellPlaced;
    if heap.HasRoom(max, 0) && len <= max {
      RoomIsFree(heap.chooser, heap.data.Length, heap.live, max, heap.ticks, len);
    }
    ptr := heap.TdsAlloc(len);
    if ptr != 0 {
      SetTwice(old(heap.Contents()), ptr, heap.data[ptr..ptr + len], bytes);
      heap.Write(ptr, bytes);
    }
  }

  /** Compared with before, `bytes` are in one new block, which `packed` tells; or it is 0, and there was no room. */
  ghost predicate LeftBehind(heap: GuestHeap, live: Blocks, contents: map<int, seq<byte>>, refusals: nat,
                             bytes: seq<byte>, packed: u64)
    requires heap.Valid()
    reads heap, heap.data
  {
    if packed == 0 then heap.Contents() == contents && heap.refusals > refusals
    else
      var (ptr, len) := UnpackPtrLen(packed);
      1 < ptr && len == |bytes| > 0 && ptr !in live && heap.Contents() == contents[ptr := bytes]
  }

  /** `leak_to_host`: a block of the module's own allocator, left for the host to free. */
  method LeakToHost(heap: GuestHeap, ghost max: nat, bytes: seq<byte>) returns (normal: bool, packed: u64)
    requires heap.Valid() && bytes != []
    modifies heap`live, heap`ticks, heap`refusals, heap.data
    ensures heap.Valid() && heap.refusals >= old(heap.refusals)
    ensures old(heap.HasRoom(max, 1)) && |bytes| <= max < TWO_31 ==> heap.refusals == old(heap.refusals)
    ensures !normal ==> heap.refusals > old(heap.refusals)
    ensures normal ==> LeftBehind(heap, old(heap.live), old(heap.Contents()), old(heap.refusals), bytes, packed)
  {
    hide ContentsOf, Room, WellPlaced;
    packed := 0;
    var vec;
    RoomForFewer(heap, max, 1, 0);
    normal, vec := Place(heap, max, bytes);
    if !normal {
      return;
    }
    if old(heap.HasRoom(max, 1)) && |bytes| <= max {
      RoomAfter(heap.chooser, heap.data.Length, old(heap.live), max, 0, vec, |bytes|);
    }
    var len := |bytes|;
    var ptr := Export(heap, max, bytes, len);
    packed := if ptr == 0 then PackPtrLen(0, 0) else PackPtrLen(ptr, len);
    PackBijective(ptr, len, packed);
    heap.Release(vec, len);
    assert heap.Contents() == if ptr == 0 then old(heap.Contents()) else old(heap.Contents())[ptr := bytes];
  }

  /** The texts of a run on the bytes of an input. */
  predicate InputSmall(s: Setup, ws: nat -> World, h: State, raw: seq<byte>, max: nat) {
    var input := Parse(s.wire, AgentInputFromJson, raw);
    && (input.Some? ==> LoopSmall(Link(s, ws), s, ws, h, input.value, max))
    && |s.wire.enc(AgentOutputToJson(RunOn(s, ws, h, raw).1))| <= max
  }

  /** The final state and output of a run on the bytes of an input. */
  function RunOn(s: Setup, ws: nat -> World, h: State, raw: seq<byte>): (State, AgentOutput) {
    match Parse(s.wire, AgentInputFromJson, raw)
    case None => (h, UNREADABLE_INPUT)
    case Some(input) => (AgentRun(Link(s, ws), h, input).st.h, AgentRun(Link(s, ws), h, input).out)
  }

  /** Input that cannot be read leads to an error after no step, and to no host call. */
  lemma UnreadableInput(s: Setup, ws: nat -> World, h: State, raw: seq<byte>)
    requires Parse(s.wire, AgentInputFromJson, raw).None?
    ensures var (h', out) := RunOn(s, ws, h, raw);
            && h' == h && out.stop == StopReason.Error && out.steps == 0
            && out.toolCalls == [] && out.usage == Usage(0, 0)
  {
  }

  /** The first half of `tds_run`: run the agent on the input, if it is one. */
  method RunInput(heap: GuestHeap, ghost max: nat, host: HostState, ws: nat -> World, raw: seq<byte>)
    returns (normal: bool, output: AgentOutput)
    requires heap.Valid() && host.Valid() && Lossless(host.s.wire)
    modifies heap`live, heap`ticks, heap`refusals, heap.data, host, host.tools
    ensures heap.Valid() && host.Valid() && heap.refusals >= old(heap.refusals)
    ensures old(heap.HasRoom(max, 2)) && max < TWO_31
            && InputSmall(host.s, ws, old(host.View()), raw, max) ==>
              heap.refusals == old(heap.refusals)
    ensures !normal ==> heap.refusals > old(heap.refusals)
    ensures normal ==> heap.live == old(heap.live) && heap.Contents() == old(heap.Contents())
    ensures normal ==> (host.View(), output) == RunOn(host.s, ws, old(host.View()), raw)
  {
    hide ContentsOf, AgentRun, Run, Parse, Lossless, Link, Room, LoopSmall, WellPlaced;
    normal := true;
    match Parse(host.s.wire, AgentInputFromJson, raw) {
      case Some(input) =>
        ghost var st;
        normal, output, st := RunAgent(heap, max, host, ws, input);
      case None => output := UNREADABLE_INPUT;
    }
  }

  /** `tds_run`: the encoded output in a new block, whose address and length it returns. */
  method TdsRun(heap: GuestHeap, ghost max: nat, host: HostState, ws: nat -> World, ptr: u32, len: u32)
    returns (normal: bool, packed: u64)
    requires heap.Valid() && host.Valid() && Lossless(host.s.wire)
    requires ptr in heap.live && heap.live[ptr] == len
    modifies heap`live, heap`ticks, heap`refusals, heap.data, host, host.tools
    ensures heap.Valid() && host.Valid() && heap.refusals >= old(heap.refusals)
    ensures old(heap.HasRoom(max, 2)) && max < TWO_31
            && InputSmall(host.s, ws, old(host.View()), old(heap.Contents()[ptr]), max) ==>
              heap.refusals == old(heap.refusals)
    ensures !normal ==> heap.refusals > old(heap.refusals)
    ensures normal ==>
              var (h, out) := RunOn(host.s, ws, old(host.View()), old(heap.Contents()[ptr]));
              host.View() == h && LeftBehind(heap, old(heap.live), old(heap.Contents()), old(heap.refusals),
                                             host.s.wire.enc(AgentOutputToJson(out)), packed)
  {
    hide ContentsOf, RunOn, Run, Lossless, UnpackPtrLen, Room, LoopSmall, Parse;
    RoomForFewer(heap, max, 2, 1);
    packed := 0;
    ContentsOfBlock(heap.live, heap.data[..], ptr);
    var raw := heap.data[ptr..ptr + len];
    assert raw == heap.data[..][ptr..ptr + len];
    var output;
    normal, output := RunInput(heap, max, host, ws, raw);
    if normal {
      EncodedNonEmpty(host.s.wire, AgentOutputToJson(output));
      normal, packed := LeakToHost(heap, max, host.s.wire.enc(AgentOutputToJson(output)));
    }
  }

  /** What crosses the boundary at either end of a run is what was written there. */
  lemma InputAndOutputCross(s: Setup, ws: nat -> World, h: State, input: AgentInput)
    requires Lossless(s.wire)
    ensures var run := AgentRun(Link(s, ws), h, input);
            && RunOn(s, ws, h, s.wire.enc(AgentInputToJson(input))) == (run.st.h, run.out)
            && Parse(s.wire, AgentOutputFromJson, s.wire.enc(AgentOutputToJson(run.out))) ==
                 Some(RereadOutput(s.wire.again)(run.out))
  {
    hide AgentRun, Link, Linked, Parse, RereadOutput, Lossless;
    LinkLinks(s, ws);
    InputReadable(s.wire, input);
    OutputReadable(Link(s, ws), s, ws, h, input);
  }

  lemma RunInputSmall(s: Setup, ws: nat -> World, h: State, input: AgentInput, max: nat)
    requires Lossless(s.wire) && RunSmall(s, ws, h, input, max)
    ensures var encoded := s.wire.enc(AgentInputToJson(input));
            |encoded| <= max < TWO_31 && InputSmall(s, ws, h, encoded, max)
  {
    hide AgentRun, Link, Lossless, LoopSmall, RereadOutput, Parse;
    InputAndOutputCross(s, ws, h, input);
    InputReadable(s.wire, input);
  }

  /** Why the host has no output although the guest returned. */
  datatype RunFault = NoInputBlock | InputTooLong | EmptyResult | Undecodable

  /**
   * The start of `invoke_agent`: put the input into a block of the guest's. The
   * block is as long as the input, cut to 32 bits; if that loses something, the
   * write does not fit into the memory.
   */
  method Deliver(heap: GuestHeap, ghost max: nat, bytes: seq<byte>) returns (fault: Option<RunFault>, ptr: u32)
    requires heap.Valid() && bytes != []
    modifies heap`live, heap`ticks, heap`refusals, heap.data
    ensures heap.Valid() && heap.refusals >= old(heap.refusals)
    ensures old(heap.HasRoom(max, 0)) && |bytes| <= max < TWO_31 ==> heap.refusals == old(heap.refusals)
    ensures |bytes| >= TWO_32 ==> fault.Some?
    ensures |bytes| < TWO_32 && fault.Some? ==>
              heap.Contents() == old(heap.Contents()) && heap.refusals > old(heap.refusals)
    ensures fault.None? ==> 1 < ptr && ptr !in old(heap.live) && heap.Contents() == old(heap.Contents())[ptr := bytes]
    ensures fault.None? ==> heap.live == old(heap.live)[ptr := |bytes|]
  {
    hide ContentsOf, Room, Free, WellPlaced;
    if heap.HasRoom(max, 0) && |bytes| <= max {
      RoomIsFree(heap.chooser, heap.data.Length, heap.live, max, heap.ticks, |bytes|);
    }
    ptr := heap.TdsAlloc(|bytes| % TWO_32);
    if ptr == 0 {
      return Some(NoInputBlock), ptr;
    }
    if ptr + |bytes| > heap.data.Length {
      return Some(InputTooLong), ptr;
    }
    heap.Write(ptr, bytes);
    fault := None;
  }

  /**
   * `invoke_agent`. If the input is shorter than 2^32 bytes and no allocation is
   * refused, the host ends up with the output the loop computed (its floats read
   * once more), and every
   * block handed across has been freed, once, with the length it was allocated
   * with. A longer input is never run.
   */
  method InvokeAgent(heap: GuestHeap, ghost max: nat, host: HostState, ws: nat -> World, input: AgentInput)
    returns (normal: bool, r: Result<AgentOutput, RunFault>)
    requires heap.Valid() && host.Valid() && Lossless(host.s.wire)
    modifies heap`live, heap`ticks, heap`refusals, heap.data, host, host.tools
    ensures heap.Valid() && host.Valid() && heap.refusals >= old(heap.refusals)
    ensures old(heap.HasRoom(max, 3)) && RunSmall(host.s, ws, old(host.View()), input, max) ==>
              heap.refusals == old(heap.refusals)
    ensures !normal || (r.Err? && InputFits(host.s.wire, input)) ==> heap.refusals > old(heap.refusals)
    ensures !InputFits(host.s.wire, input) ==> normal && r.Err? && host.View() == old(host.View())
    ensures normal && InputFits(host.s.wire, input) ==> heap.Contents() == old(heap.Contents())
    ensures normal && r.Ok? ==>
              var run := AgentRun(Link(host.s, ws), old(host.View()), input);
              r.value == RereadOutput(host.s.wire.again)(run.out) && host.View() == run.st.h
  {
    hide ContentsOf, AgentRun, RunOn, Parse, Run, UnpackPtrLen, Link, Lossless, AgentInputToJson, AgentOutputToJson;
    hide RereadOutput, Room, RunSmall, InputSmall, LoopSmall, WellPlaced;
    var encoded := host.s.wire.enc(AgentInputToJson(input));
    ghost var before, output := heap.Contents(), AgentRun(Link(host.s, ws), host.View(), input).out;
    EncodedNonEmpty(host.s.wire, AgentInputToJson(input));
    InputAndOutputCross(host.s, ws, host.View(), input);
    if RunSmall(host.s, ws, host.View(), input, max) {
      RunInputSmall(host.s, ws, host.View(), input, max);
    }
    RoomForFewer(heap, max, 3, 0);
    var fault, ptr := Deliver(heap, max, encoded);
    if fault.Some? {
      return true, Err(fault.value);
    }
    if old(heap.HasRoom(max, 3)) && |encoded| <= max {
      RoomAfter(heap.chooser, heap.data.Length, old(heap.live), max, 2, ptr, |encoded|);
    }
    var packed;
    normal, packed := TdsRun(heap, max, host, ws, ptr, |encoded|);
    if !normal {
      return false, Err(EmptyResult);
    }
    r := Finish(heap, host.s.wire, ptr, |encoded|, packed, before, encoded, host.s.wire.enc(AgentOutputToJson(output)));
  }

  /** The input's length is not cut. */
  predicate InputFits(wire: Wire, input: AgentInput) { |wire.enc(AgentInputToJson(input))| < TWO_32 }

  /** The rest of `invoke_agent` once the guest has returned: free the input, then collect the result. */
  method Finish(heap: GuestHeap, wire: Wire, ptr: u32, len: u32, packed: u64,
                ghost before: map<int, seq<byte>>, ghost encoded: seq<byte>, ghost bytes: seq<byte>)
    returns (r: Result<AgentOutput, RunFault>)
    requires heap.Valid() && 1 < ptr && len == |encoded| > 0 && ptr !in before
    requires var at := UnpackPtrLen(packed);
             if packed == 0 then heap.Contents() == before[ptr := encoded]
             else
               && 1 < at.0 && at.1 == |bytes| > 0 && at.0 !in before && at.0 != ptr
               && heap.Contents() == before[ptr := encoded][at.0 := bytes]
    modifies heap`live, heap.data
    ensures heap.Valid() && heap.Contents() == before
    ensures packed == 0 ==> r.Err?
    ensures packed != 0 && Parse(wire, AgentOutputFromJson, bytes).Some? ==>
              r == Ok(Parse(wire, AgentOutputFromJson, bytes).value)
  {
    hide ContentsOf, Parse, UnpackPtrLen;
    ghost var at := if packed == 0 then 0 else UnpackPtrLen(packed).0;
    assert packed == 0 ==> 0 !in before[ptr := encoded];
    assert at !in before;
    AddedThenRemoved(before, ptr, encoded, at, bytes);
    heap.TdsDealloc(ptr, len);
    assert heap.Contents() == if packed == 0 then before else before[at := bytes];
    r := Collect(heap, wire, packed, bytes);
  }

  /** The end of `invoke_agent`: read the result out of guest memory and free it. */
  method Collect(heap: GuestHeap, wire: Wire, packed: u64, ghost bytes: seq<byte>)
    returns (r: Result<AgentOutput, RunFault>)
    requires heap.Valid()
    requires packed != 0 ==>
               var at := UnpackPtrLen(packed);
               1 < at.0 && at.1 == |bytes| > 0 && at.0 in heap.Contents() && heap.Contents()[at.0] == bytes
    modifies heap`live, heap.data
    ensures heap.Valid()
    ensures heap.Contents() ==
              if packed == 0 then old(heap.Contents()) else old(heap.Contents()) - {UnpackPtrLen(packed).0}
    ensures packed == 0 ==> r == Err(EmptyResult)
    ensures packed != 0 && Parse(wire, AgentOutputFromJson, bytes).Some? ==>
              r == Ok(Parse(wire, AgentOutputFromJson, bytes).value)
  {
    hide ContentsOf, Parse;
    var (outPtr, outLen) := UnpackPtrLen(packed);
    if outPtr == 0 || outLen == 0 {
      return Err(EmptyResult);
    }
    ContentsOfBlock(heap.live, heap.data[..], outPtr);
    var buffer := heap.data[outPtr..outPtr + outLen];
    assert buffer == heap.data[..][outPtr..outPtr + outLen];
    heap.TdsDealloc(outPtr, outLen);
    match Parse(wire, AgentOutputFromJson, buffer) {
      case Some(o) => r := Ok(o);
      case None => r := Err(Undecodable);
    }
  }
}
