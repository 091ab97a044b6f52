/**
 * Building a provider request from a session transcript (crates/morons-server/src/run_supervisor.rs):
 * every entry once and in order, saved reasoning and tool continuations put back where they belong.
 */
module ProviderInput {
  import opened Basics
  import Images = ImageMessage

  type Text = Images.Text

  type CallId = id: seq<Byte> | |id| == 16 witness seq(16, _ => 0)

  datatype ToolImage = ToolImage(attachmentId: Option<nat>, name: Text, mediaType: Images.MediaType,
                                 width: nat, height: nat, bytes: nat)

  /** A transcript entry; `None` texts are values that do not encode. */
  datatype Entry =
    | UserMessage(text: Text, attachments: seq<Images.Attachment>)
    | AssistantMessage(text: Text, final: bool)
    | ToolCall(callId: CallId, operation: nat, name: string, arguments: Option<Text>)
    | ToolResult(callId: CallId, output: Option<Text>, image: Option<ToolImage>)
    | LocalCommand(shown: Text, visible: bool)

  /** A request item; `Opaque` is a provider's own reasoning record. */
  datatype Item =
    | Developer(text: Text)
    | User(text: Text)
    | Assistant(text: Text, final: bool)
    | Multimodal(parts: seq<Images.Part>)
    | FunctionCall(callId: string, name: string, arguments: Text, continuation: Option<string>)
    | FunctionOutput(callId: string, output: Text)
    | Opaque(record: nat)

  datatype Reasoning = Reasoning(operation: nat, records: seq<nat>)

  datatype SavedCall = SavedCall(callId: CallId, continuation: string)

  datatype Continuation = Continuation(reasoning: Option<Reasoning>, toolCalls: seq<SavedCall>)

  datatype Context = Context(
    toolVersions: (nat, nat), workingDirectory: Option<Text>,
    project: Option<Text>, checkpoint: Option<Text>, skills: Option<Text>,
    entries: seq<Entry>, data: map<nat, seq<Byte>>)

  /** Versions of the tool catalogue and of its limits. */
  const CURRENT_VERSIONS: (nat, nat) := (16, 14)

  const NO_CONTINUATION := Continuation(None, [])

  // ----- call identifiers -----

  const HEX := "0123456789abcdef"

  function Hex(bytes: seq<Byte>): string
  {
    if bytes == [] then "" else Hex(bytes[..|bytes| - 1]) + [HEX[bytes[|bytes| - 1] / 16], HEX[bytes[|bytes| - 1] % 16]]
  }

  function CallName(id: CallId): string
  {
    "call_" + Hex(id)
  }

  method ProviderCallId(id: CallId) returns (value: string)
    ensures value == CallName(id)
  {
    value := "call_";
    for i := 0 to |id|
      invariant value == "call_" + Hex(id[..i])
    {
      assert id[..i + 1][..i] == id[..i];
      value := value + [HEX[id[i] / 16]];
      value := value + [HEX[id[i] % 16]];
    }
    assert id[..|id|] == id;
  }

  lemma {:induction false} HexLength(a: seq<Byte>)
    ensures |Hex(a)| == 2 * |a|
  {
    if a != [] { HexLength(a[..|a| - 1]); }
  }

  lemma {:induction false} DigitsDiffer(a: nat, b: nat)
    requires a < 16 && b < 16 && HEX[a] == HEX[b]
    ensures a == b
  {
  }

  lemma {:induction false} HexParts(a: seq<Byte>)
    requires a != []
    ensures var i := |a| - 1;
            |Hex(a)| == 2 * |a| && Hex(a) == Hex(a[..i]) + [HEX[a[i] / 16], HEX[a[i] % 16]] && |Hex(a[..i])| == 2 * i
  {
    HexLength(a);
    HexLength(a[..|a| - 1]);
  }

  lemma {:induction false} ByteDigits(a: Byte, b: Byte)
    requires HEX[a / 16] == HEX[b / 16] && HEX[a % 16] == HEX[b % 16]
    ensures a == b
  {
    DigitsDiffer(a / 16, b / 16);
    DigitsDiffer(a % 16, b % 16);
  }

  lemma {:induction false} HexInjective(a: seq<Byte>, b: seq<Byte>)
    requires Hex(a) == Hex(b)
    ensures a == b
  {
    HexLength(a);
    HexLength(b);
    if a != [] {
      var i := |a| - 1;
      HexParts(a);
      HexParts(b);
      hide Hex;
      assert Hex(a)[..2 * i] == Hex(a[..i]) && Hex(b)[..2 * i] == Hex(b[..i]);
      HexInjective(a[..i], b[..i]);
      var x, y := Hex(a)[2 * i..], Hex(b)[2 * i..];
      assert x == [HEX[a[i] / 16], HEX[a[i] % 16]] && y == [HEX[b[i] / 16], HEX[b[i] % 16]];
      assert x[0] == y[0] && x[1] == y[1];
      ByteDigits(a[i], b[i]);
      assert a == a[..i] + [a[i]] && b == b[..i] + [b[i]];
    }
  }

  /** A result carries its call's identifier and no other call's. */
  lemma {:induction false} CallNamesIdentify(a: CallId, b: CallId)
    ensures CallName(a) == CallName(b) <==> a == b
  {
    if CallName(a) == CallName(b) {
      assert Hex(a) == CallName(a)[5..] == CallName(b)[5..] == Hex(b);
      HexInjective(a, b);
    }
  }

  // ----- what an entry becomes -----

  function Saved(calls: seq<SavedCall>, id: CallId): Option<string>
  {
    if calls == [] then None
    else if calls[0].callId == id then Some(calls[0].continuation)
    else Saved(calls[1..], id)
  }

  predicate ImagePresent(image: ToolImage, data: map<nat, seq<Byte>>)
  {
    image.attachmentId.Some? && image.attachmentId.value in data && |data[image.attachmentId.value]| == image.bytes
  }

  /** Whether an entry can be sent at all. */
  predicate Sendable(entry: Entry, data: map<nat, seq<Byte>>)
  {
    match entry
    case UserMessage(text, attachments) => forall k :: 0 <= k < |attachments| ==> Images.SplitsAt(text, attachments, data, k)
    case AssistantMessage(_, _) => true
    case ToolCall(_, _, _, arguments) => arguments.Some?
    case ToolResult(_, output, image) => output.Some? && (image.Some? ==> ImagePresent(image.value, data))
    case LocalCommand(_, visible) => visible
  }

  /** The image of a read result, in a message of its own behind the result. */
  predicate ShowsImage(item: Item, image: ToolImage, data: map<nat, seq<Byte>>)
  {
    && ImagePresent(image, data) && item.Multimodal? && |item.parts| == 2 && item.parts[0].TextPart?
    && item.parts[1] == Images.ImagePart(image.mediaType, image.width, image.height, data[image.attachmentId.value])
  }

  ghost predicate Renders(entry: Entry, calls: seq<SavedCall>, data: map<nat, seq<Byte>>, items: seq<Item>)
  {
    match entry
    case UserMessage(text, attachments) =>
      if attachments == [] then items == [User(text)]
      else
        && |items| == 1 && items[0].Multimodal? && Images.TextOf(items[0].parts) == text
        && forall k :: 0 <= k < |attachments| ==> Images.PairedAt(text, attachments, data, items[0].parts, k)
    case AssistantMessage(text, final) => items == [Assistant(text, final)]
    case ToolCall(id, _, name, arguments) =>
      arguments.Some? && items == [FunctionCall(CallName(id), name, arguments.value, Saved(calls, id))]
    case ToolResult(id, output, image) =>
      && output.Some? && |items| == (if image.Some? then 2 else 1)
      && items[0] == FunctionOutput(CallName(id), output.value)
      && (image.Some? ==> ShowsImage(items[1], image.value, data))
    case LocalCommand(shown, _) => items == [User(shown)]
  }

  predicate IsCallOf(entry: Entry, operation: nat)
  {
    entry.ToolCall? && entry.operation == operation
  }

  ghost predicate IsFirstCall(entries: seq<Entry>, operation: nat, k: nat)
    requires k < |entries|
  {
    IsCallOf(entries[k], operation) && forall j :: 0 <= j < k ==> !IsCallOf(entries[j], operation)
  }

  function Records(records: seq<nat>): seq<Item>
  {
    seq(|records|, i requires 0 <= i < |records| => Opaque(records[i]))
  }

  /** The reasoning that goes directly before entry `k`. */
  ghost function ReasoningBefore(entries: seq<Entry>, continuation: Continuation, k: nat): seq<Item>
    requires k < |entries|
  {
    if continuation.reasoning.Some? && IsFirstCall(entries, continuation.reasoning.value.operation, k)
    then Records(continuation.reasoning.value.records) else []
  }

  /** The calls of the transcript that found a saved continuation. */
  function Found(entries: seq<Entry>, calls: seq<SavedCall>): seq<CallId>
  {
    if entries == [] then []
    else
      var last := entries[|entries| - 1];
      Found(entries[..|entries| - 1], calls)
      + (if last.ToolCall? && Saved(calls, last.callId).Some? then [last.callId] else [])
  }

  function Preamble(context: Context): seq<Item>
    requires context.toolVersions == CURRENT_VERSIONS ==> context.workingDirectory.Some?
  {
    (if context.toolVersions == CURRENT_VERSIONS then [Developer(context.workingDirectory.value)] else [])
    + (if context.project.Some? then [Developer(context.project.value)] else [])
    + (if context.checkpoint.Some? then [Developer(context.checkpoint.value)] else [])
    + (if context.skills.Some? then [Developer(context.skills.value)] else [])
  }

  predicate VersionsKnown(context: Context)
  {
    && (context.toolVersions == CURRENT_VERSIONS || context.toolVersions == (0, 0))
    && (context.toolVersions == CURRENT_VERSIONS ==> context.workingDirectory.Some?)
  }

  /** The continuation was used up: its reasoning found its call, and as many calls matched as were saved. */
  ghost predicate UsedUp(entries: seq<Entry>, continuation: Continuation)
  {
    && (continuation.reasoning.Some? ==>
          exists k :: 0 <= k < |entries| && IsCallOf(entries[k], continuation.reasoning.value.operation))
    && |continuation.toolCalls| == |Found(entries, continuation.toolCalls)|
  }

  ghost predicate Buildable(context: Context, continuation: Continuation)
  {
    && VersionsKnown(context)
    && (forall k :: 0 <= k < |context.entries| ==> Sendable(context.entries[k], context.data))
    && UsedUp(context.entries, continuation)
  }

  /** Piece `k` is the reasoning due before the entry, then the entry. */
  ghost predicate PieceFor(context: Context, continuation: Continuation, k: nat, piece: seq<Item>)
    requires k < |context.entries|
  {
    var reasoning := ReasoningBefore(context.entries, continuation, k);
    reasoning <= piece && Renders(context.entries[k], continuation.toolCalls, context.data, piece[|reasoning|..])
  }

  method Render(entry: Entry, calls: seq<SavedCall>, data: map<nat, seq<Byte>>) returns (r: Result<seq<Item>, ()>)
    ensures r.Ok? <==> Sendable(entry, data)
    ensures r.Ok? ==> Renders(entry, calls, data, r.value)
  {
    match entry
    case UserMessage(text, attachments) =>
      if attachments == [] { return Ok([User(text)]); }
      var parts := Images.MultimodalUserMessage(text, attachments, data);
      if parts.Err? { return Err(()); }
      return Ok([Multimodal(parts.value)]);
    case AssistantMessage(text, final) =>
      return Ok([Assistant(text, final)]);
    case ToolCall(id, _, name, arguments) =>
      if arguments.None? { return Err(()); }
      var value := ProviderCallId(id);
      return Ok([FunctionCall(value, name, arguments.value, Saved(calls, id))]);
    case ToolResult(id, output, image) =>
      if output.None? { return Err(()); }
      var value := ProviderCallId(id);
      var items := [FunctionOutput(value, output.value)];
      if image.Some? {
        if !ImagePresent(image.value, data) { return Err(()); }
        var shown := Images.ImagePart(image.value.mediaType, image.value.width, image.value.height,
                                      data[image.value.attachmentId.value]);
        items := items + [Multimodal([Images.TextPart(image.value.name), shown])];
      }
      return Ok(items);
    case LocalCommand(shown, visible) =>
      if !visible { return Err(()); }
      return Ok([User(shown)]);
  }

  ghost predicate ReasoningUsed(entries: seq<Entry>, continuation: Continuation, k: nat)
    requires k <= |entries|
  {
    continuation.reasoning.Some? && exists j :: 0 <= j < k && IsCallOf(entries[j], continuation.reasoning.value.operation)
  }

  /** The first `k` entries are built. */
  ghost predicate BuiltTo(context: Context, continuation: Continuation, k: nat, body: seq<Item>, pieces: seq<seq<Item>>)
  {
    && k == |pieces| <= |context.entries| && body == Flatten(pieces)
    && forall j :: 0 <= j < k ==> PieceFor(context, continuation, j, pieces[j]) && Sendable(context.entries[j], context.data)
  }

  lemma {:induction false} BuildsOn(context: Context, continuation: Continuation, k: nat, body: seq<Item>,
        pieces: seq<seq<Item>>,
                 reasoning: seq<Item>, items: seq<Item>)
    requires BuiltTo(context, continuation, k, body, pieces) && k < |context.entries|
    requires Sendable(context.entries[k], context.data) && Renders(context.entries[k], continuation.toolCalls, context.data, items)
    requires reasoning == ReasoningBefore(context.entries, continuation, k)
    ensures BuiltTo(context, continuation, k + 1, body + reasoning + items, pieces + [reasoning + items])
  {
    hide Sendable, Renders, ReasoningBefore;
    var piece := reasoning + items;
    assert piece[|reasoning|..] == items;
    FlattenConcat(pieces, [piece]);
    assert Flatten([piece]) == piece by { assert [piece][1..] == []; }
    assert body + reasoning + items == body + piece;
  }

  lemma {:induction false} ReasoningDue(entries: seq<Entry>, continuation: Continuation, k: nat)
    requires k < |entries|
    ensures ReasoningBefore(entries, continuation, k)
         == if continuation.reasoning.Some? && IsCallOf(entries[k], continuation.reasoning.value.operation)
              && !ReasoningUsed(entries, continuation, k) then Records(continuation.reasoning.value.records) else []
    ensures ReasoningUsed(entries, continuation, k + 1)
       <==> (ReasoningUsed(entries, continuation, k)
             || (continuation.reasoning.Some? && IsCallOf(entries[k], continuation.reasoning.value.operation)))
  {
  }

  lemma {:induction false} FoundExtends(entries: seq<Entry>, calls: seq<SavedCall>, k: nat)
    requires k < |entries|
    ensures |Found(entries[..k + 1], calls)| == |Found(entries[..k], calls)|
              + (if entries[k].ToolCall? && Saved(calls, entries[k].callId).Some? then 1 else 0)
  {
    assert entries[..k + 1][..k] == entries[..k];
  }

  method BuildProviderInput(context: Context, continuation: Continuation)
    returns (r: Result<seq<Item>, ()>, ghost pieces: seq<seq<Item>>)
    ensures r.Ok? <==> Buildable(context, continuation)
    ensures r.Ok? ==>
              && r.value == Preamble(context) + Flatten(pieces) && |pieces| == |context.entries|
              && forall k :: 0 <= k < |pieces| ==> PieceFor(context, continuation, k, pieces[k])
  {
    hide Sendable, Renders, ReasoningUsed, ReasoningBefore, PieceFor, Found, Saved, Preamble, IsCallOf;
    pieces := [];
    if !VersionsKnown(context) { return Err(()), pieces; }
    var input := Preamble(context);
    ghost var body: seq<Item> := [];
    var reasoningInserted := false;
    var continuationsInserted := 0;
    NothingBuilt(context.entries, continuation);
    for k := 0 to |context.entries|
      invariant BuiltTo(context, continuation, k, body, pieces) && input == Preamble(context) + body
      invariant reasoningInserted <==> ReasoningUsed(context.entries, continuation, k)
      invariant continuationsInserted == |Found(context.entries[..k], continuation.toolCalls)|
    {
      var entry := context.entries[k];
      ReasoningDue(context.entries, continuation, k);
      FoundExtends(context.entries, continuation.toolCalls, k);
      ghost var reasoning := ReasoningBefore(context.entries, continuation, k);
      if continuation.reasoning.Some? && IsCallOf(entry, continuation.reasoning.value.operation) && !reasoningInserted {
        input := input + Records(continuation.reasoning.value.records);
        reasoningInserted := true;
      }
      assert input == Preamble(context) + (body + reasoning);
      var items := Render(entry, continuation.toolCalls, context.data);
      if items.Err? { return Err(()), pieces; }
      if entry.ToolCall? && Saved(continuation.toolCalls, entry.callId).Some? {
        continuationsInserted := continuationsInserted + 1;
      }
      BuildsOn(context, continuation, k, body, pieces, reasoning, items.value);
      input := input + items.value;
      body := body + reasoning + items.value;
      pieces := pieces + [reasoning + items.value];
    }
    assert context.entries[..|context.entries|] == context.entries;
    ReasoningUsedUp(context.entries, continuation);
    if (continuation.reasoning.Some? && !reasoningInserted) || |continuation.toolCalls| != continuationsInserted {
      return Err(()), pieces;
    }
    return Ok(input), pieces;
  }

  lemma {:induction false} NothingBuilt(entries: seq<Entry>, continuation: Continuation)
    ensures !ReasoningUsed(entries, continuation, 0) && Found(entries[..0], continuation.toolCalls) == []
  {
  }

  lemma {:induction false} ReasoningUsedUp(entries: seq<Entry>, continuation: Continuation)
    ensures UsedUp(entries, continuation) <==>
              (continuation.reasoning.Some? ==> ReasoningUsed(entries, continuation, |entries|))
              && |continuation.toolCalls| == |Found(entries, continuation.toolCalls)|
  {
  }

  // ----- nothing lost, nothing twice -----

  /** The items that come from the transcript. */
  function Plain(items: seq<Item>): seq<Item>
  {
    if items == [] then [] else (if items[0].Opaque? then [] else [items[0]]) + Plain(items[1..])
  }

  lemma {:induction false} PlainConcat(a: seq<Item>, b: seq<Item>)
    ensures Plain(a + b) == Plain(a) + Plain(b)
  {
    if a == [] {
      assert a + b == b;
    } else {
      assert (a + b)[1..] == a[1..] + b;
      PlainConcat(a[1..], b);
    }
  }

  lemma {:induction false} RecordsAreNotPlain(items: seq<Item>)
    requires forall i :: i in items ==> i.Opaque?
    ensures Plain(items) == []
  {
    if items != [] { RecordsAreNotPlain(items[1..]); }
  }

  lemma {:induction false} AllPlain(items: seq<Item>)
    requires forall i :: i in items ==> !i.Opaque?
    ensures Plain(items) == items
  {
    if items != [] { AllPlain(items[1..]); }
  }

  lemma {:induction false} RenderedIsPlain(entry: Entry, calls: seq<SavedCall>, data: map<nat, seq<Byte>>,
        items: seq<Item>)
    requires Renders(entry, calls, data, items)
    ensures items != [] && forall i :: i in items ==> !i.Opaque?
  {
  }

  /** What a piece holds besides the reasoning. */
  ghost function Own(context: Context, continuation: Continuation, k: nat, piece: seq<Item>): seq<Item>
    requires k < |context.entries| && PieceFor(context, continuation, k, piece)
  {
    piece[|ReasoningBefore(context.entries, continuation, k)|..]
  }

  lemma {:induction false} ReasoningIsOpaque(entries: seq<Entry>, continuation: Continuation, k: nat)
    requires k < |entries|
    ensures forall i :: i in ReasoningBefore(entries, continuation, k) ==> i.Opaque?
  {
  }

  lemma {:induction false} PlainPiece(context: Context, continuation: Continuation, k: nat, piece: seq<Item>)
    requires k < |context.entries| && PieceFor(context, continuation, k, piece)
    ensures var own := Own(context, continuation, k, piece);
            Plain(piece) == own && own != [] && Renders(context.entries[k], continuation.toolCalls, context.data, own)
  {
    ReasoningIsOpaque(context.entries, continuation, k);
    hide Renders, ReasoningBefore, Plain;
    var reasoning, own := ReasoningBefore(context.entries, continuation, k), Own(context, continuation, k, piece);
    RenderedIsPlain(context.entries[k], continuation.toolCalls, context.data, own);
    AllPlain(own);
    RecordsAreNotPlain(reasoning);
    assert piece == reasoning + own;
    PlainConcat(reasoning, own);
  }

  /** Leaving the reasoning aside, the request is the rendering of every entry, once each and in order. */
  lemma {:induction false} EveryEntryInOrder(context: Context, continuation: Continuation, pieces: seq<seq<Item>>)
    returns (rendered: seq<seq<Item>>)
    requires |pieces| <= |context.entries|
    requires forall k :: 0 <= k < |pieces| ==> PieceFor(context, continuation, k, pieces[k])
    ensures |rendered| == |pieces| && Plain(Flatten(pieces)) == Flatten(rendered)
    ensures forall k :: 0 <= k < |rendered| ==>
              rendered[k] != [] && Renders(context.entries[k], continuation.toolCalls, context.data, rendered[k])
    decreases |pieces|
  {
    hide Renders, PieceFor, Flatten, Own;
    if pieces == [] {
      rendered := [];
      NothingFlattened();
    } else {
      var last := |pieces| - 1;
      var front := EveryEntryInOrder(context, continuation, pieces[..last]);
      PlainPiece(context, continuation, last, pieces[last]);
      var own := Plain(pieces[last]);
      rendered := front + [own];
      assert pieces == pieces[..last] + [pieces[last]];
      FlattenConcat(pieces[..last], [pieces[last]]);
      FlattenOne(pieces[last]);
      PlainConcat(Flatten(pieces[..last]), pieces[last]);
      FlattenConcat(front, [own]);
      FlattenOne(own);
    }
  }

  lemma {:induction false} NothingFlattened()
    ensures Flatten<Item>([]) == [] && Plain([]) == []
  {
  }

  lemma {:induction false} FlattenOne(piece: seq<Item>)
    ensures Flatten([piece]) == piece
  {
    assert [piece][1..] == [];
  }

  lemma {:induction false} FirstCallExists(entries: seq<Entry>, operation: nat, k: nat) returns (first: nat)
    requires k < |entries| && IsCallOf(entries[k], operation)
    ensures first <= k && IsFirstCall(entries, operation, first)
    decreases k
  {
    if IsFirstCall(entries, operation, k) {
      first := k;
    } else {
      var j :| 0 <= j < k && IsCallOf(entries[j], operation);
      first := FirstCallExists(entries, operation, j);
    }
  }

  lemma {:induction false} NoReasoningNoOpaque(context: Context, continuation: Continuation,
        pieces: seq<seq<Item>>, from: nat, end: nat)
    requires from <= end <= |pieces| <= |context.entries|
    requires forall k :: from <= k < end ==>
               PieceFor(context, continuation, k, pieces[k]) && ReasoningBefore(context.entries, continuation, k) == []
    ensures (forall i :: i in Flatten(pieces[from..end]) ==> !i.Opaque?)
    decreases end - from
  {
    hide Renders;
    if from < end {
      NoReasoningNoOpaque(context, continuation, pieces, from + 1, end);
      assert pieces[from..end][1..] == pieces[from + 1..end];
      assert PieceFor(context, continuation, from, pieces[from]);
      assert pieces[from] == pieces[from][0..];
      RenderedIsPlain(context.entries[from], continuation.toolCalls, context.data, pieces[from]);
    }
  }

  /** Saved reasoning appears exactly once, directly before the first call of its operation. */
  lemma {:induction false} ReasoningOnceBeforeItsCall(context: Context, continuation: Continuation,
        pieces: seq<seq<Item>>)
    returns (k: nat, before: seq<Item>, call: Item, after: seq<Item>)
    requires Buildable(context, continuation) && continuation.reasoning.Some? && |pieces| == |context.entries|
    requires forall k :: 0 <= k < |pieces| ==> PieceFor(context, continuation, k, pieces[k])
    ensures k < |context.entries| && IsFirstCall(context.entries, continuation.reasoning.value.operation, k)
    ensures Flatten(pieces) == before + Records(continuation.reasoning.value.records) + [call] + after
    ensures call.FunctionCall? && call.callId == CallName(context.entries[k].callId)
    ensures (forall i :: i in before ==> !i.Opaque?) && (forall i :: i in after ==> !i.Opaque?)
  {
    hide Sendable, Found, Saved, CallName, PieceFor, Flatten, ReasoningBefore;
    var operation := continuation.reasoning.value.operation;
    var some :| 0 <= some < |context.entries| && IsCallOf(context.entries[some], operation);
    k := FirstCallExists(context.entries, operation, some);
    before, after := Flatten(pieces[..k]), Flatten(pieces[k + 1..]);
    assert pieces[0..k] == pieces[..k] && pieces[k + 1..|pieces|] == pieces[k + 1..];
    OnlyOneReasoning(context, continuation, k);
    NoReasoningNoOpaque(context, continuation, pieces, 0, k);
    NoReasoningNoOpaque(context, continuation, pieces, k + 1, |pieces|);
    call := CallPiece(context, continuation, k, pieces[k]);
    SplitAround(pieces, k);
  }

  lemma {:induction false} OnlyOneReasoning(context: Context, continuation: Continuation, k: nat)
    requires continuation.reasoning.Some? && k < |context.entries|
    requires IsFirstCall(context.entries, continuation.reasoning.value.operation, k)
    ensures forall j :: 0 <= j < |context.entries| && j != k ==> ReasoningBefore(context.entries, continuation, j) == []
  {
  }

  lemma {:induction false} CallPiece(context: Context, continuation: Continuation, k: nat,
        piece: seq<Item>) returns (call: Item)
    requires continuation.reasoning.Some? && k < |context.entries| && PieceFor(context, continuation, k, piece)
    requires IsFirstCall(context.entries, continuation.reasoning.value.operation, k)
    ensures piece == Records(continuation.reasoning.value.records) + [call]
    ensures call.FunctionCall? && call.callId == CallName(context.entries[k].callId)
  {
    hide CallName, Saved;
    var records := Records(continuation.reasoning.value.records);
    call := piece[|records|];
    assert piece[|records|..] == [call];
  }

  lemma {:induction false} SplitAround(pieces: seq<seq<Item>>, k: nat)
    requires k < |pieces|
    ensures Flatten(pieces) == Flatten(pieces[..k]) + pieces[k] + Flatten(pieces[k + 1..])
  {
    hide Flatten;
    assert pieces == pieces[..k] + ([pieces[k]] + pieces[k + 1..]);
    FlattenAround(pieces[..k], pieces[k], pieces[k + 1..]);
  }

  lemma {:induction false} FlattenAround(a: seq<seq<Item>>, piece: seq<Item>, b: seq<seq<Item>>)
    ensures Flatten(a + ([piece] + b)) == Flatten(a) + piece + Flatten(b)
  {
    FlattenConcat(a, [piece] + b);
    assert ([piece] + b)[1..] == b;
    hide Flatten;
    assert Flatten(a) + (piece + Flatten(b)) == Flatten(a) + piece + Flatten(b);
  }

  // ----- equal counts make a bijection -----

  ghost predicate DistinctCalls(entries: seq<Entry>)
  {
    forall i, j :: 0 <= i < j < |entries| && entries[i].ToolCall? && entries[j].ToolCall? ==> entries[i].callId != entries[j].callId
  }

  function SavedIds(calls: seq<SavedCall>): seq<CallId>
  {
    seq(|calls|, i requires 0 <= i < |calls| => calls[i].callId)
  }

  lemma {:induction false} SavedMeans(calls: seq<SavedCall>, id: CallId)
    ensures Saved(calls, id).Some? <==> exists j :: 0 <= j < |calls| && calls[j].callId == id
    ensures forall j :: 0 <= j < |calls| && calls[j].callId == id && (forall i :: 0 <= i < j ==> calls[i].callId != id) ==>
              Saved(calls, id) == Some(calls[j].continuation)
  {
    if calls != [] && calls[0].callId != id {
      SavedMeans(calls[1..], id);
      assert forall j :: 1 <= j < |calls| ==> calls[j] == calls[1..][j - 1];
      if Saved(calls[1..], id).Some? {
        var j :| 0 <= j < |calls[1..]| && calls[1..][j].callId == id;
        assert calls[j + 1].callId == id;
      }
      forall j | 0 <= j < |calls| && calls[j].callId == id && (forall i :: 0 <= i < j ==> calls[i].callId != id)
        ensures Saved(calls, id) == Some(calls[j].continuation)
      {
        assert calls[1..][j - 1].callId == id;
      }
    }
  }

  lemma {:induction false} FoundMeans(entries: seq<Entry>, calls: seq<SavedCall>)
    requires DistinctCalls(entries)
    ensures forall id :: id in Found(entries, calls)
                    <==> Saved(calls, id).Some? && exists k :: 0 <= k < |entries| && entries[k].ToolCall? && entries[k].callId == id
    ensures forall i, j :: 0 <= i < j < |Found(entries, calls)| ==> Found(entries, calls)[i] != Found(entries, calls)[j]
  {
    if entries != [] {
      var front, last := entries[..|entries| - 1], entries[|entries| - 1];
      FoundMeans(front, calls);
      assert forall k :: 0 <= k < |front| ==> front[k] == entries[k];
      if last.ToolCall? { assert entries[|entries| - 1].callId == last.callId; }
    }
  }

  /** A list without repeats whose members all occur in a list no longer than it is that list rearranged. */
  lemma {:induction false} NoRoomForRepeats<T>(a: seq<T>, b: seq<T>)
    requires forall i, j :: 0 <= i < j < |a| ==> a[i] != a[j]
    requires forall x :: x in a ==> x in b
    requires |a| == |b|
    ensures forall x :: x in b ==> x in a
    ensures forall i, j :: 0 <= i < j < |b| ==> b[i] != b[j]
    decreases |a|
  {
    if a != [] {
      var x, rest := a[0], a[1..];
      assert x in b;
      var k :| 0 <= k < |b| && b[k] == x;
      var less := b[..k] + b[k + 1..];
      forall y | y in rest ensures y in less {
        var i :| 0 <= i < |rest| && rest[i] == y;
        assert a[i + 1] == y && y != x;
        assert y in b;
      }
      NoRoomForRepeats(rest, less);
      assert forall i, j :: 0 <= i < j < |b| && i != k && j != k ==> b[i] != b[j] by {
        assert forall i :: 0 <= i < k ==> less[i] == b[i];
        assert forall i :: k < i < |b| ==> less[i - 1] == b[i];
      }
      forall y | y in b ensures y in a {
        if y != x {
          assert y in less;
          assert y in rest;
        }
      }
      forall i | 0 <= i < |b| && i != k ensures b[i] != x {
        assert less[if i < k then i else i - 1] == b[i];
        assert b[i] in less && b[i] in rest;
      }
    } else {
      assert b == [];
    }
  }

  /** If the request was built, the saved continuations and the matching calls pair off one to one. */
  lemma {:induction false} EachContinuationHasItsCall(entries: seq<Entry>, continuation: Continuation,
        j: nat) returns (k: nat)
    requires UsedUp(entries, continuation) && DistinctCalls(entries) && j < |continuation.toolCalls|
    ensures k < |entries| && entries[k].ToolCall? && entries[k].callId == continuation.toolCalls[j].callId
    ensures Saved(continuation.toolCalls, entries[k].callId) == Some(continuation.toolCalls[j].continuation)
    ensures forall i :: 0 <= i < |continuation.toolCalls| && i != j ==> continuation.toolCalls[i].callId != entries[k].callId
    ensures forall i :: 0 <= i < |entries| && i != k && entries[i].ToolCall? ==> entries[i].callId != continuation.toolCalls[j].callId
  {
    var calls := continuation.toolCalls;
    FoundMeans(entries, calls);
    var found, saved := Found(entries, calls), SavedIds(calls);
    forall id | id in found ensures id in saved {
      SavedMeans(calls, id);
      var i :| 0 <= i < |calls| && calls[i].callId == id;
      assert saved[i] == id;
    }
    NoRoomForRepeats(found, saved);
    assert saved[j] in saved;
    assert saved[j] in found;
    k :| 0 <= k < |entries| && entries[k].ToolCall? && entries[k].callId == saved[j];
    assert forall i :: 0 <= i < |calls| ==> saved[i] == calls[i].callId;
    SavedMeans(calls, saved[j]);
  }
}
