/** The output state shared by the stream consumer and the coordinator, and the chunks it registers. */
module StreamState {
  import opened Basics
  import opened TaskStates

  datatype BlockType = TEXT | REASONING | TOOL_CALL

  datatype Role = Agent | User | System

  /** A message part: text, or structured data known by its canonical JSON and by its ASCII-only JSON. */
  datatype Payload = TextPart(text: string) | DataPart(json: string, asciiJson: string)

  datatype Source = FromStream | FromToolPart | FromInterrupt | FromProgress | FromFinalSnapshot | FromStatus

  /** An error reported inside the stream, with the task state it leads to. */
  datatype UpstreamError = UpstreamError(state: TaskState, message: string)

  datatype Chunk = Chunk(
    part: Payload,
    contentKey: string,
    accumulate: bool,
    append: bool,
    blockType: BlockType,
    source: Source,
    messageId: Option<string>,
    role: Option<Role>)

  /** The text a client reads from a part; structured parts carry none. */
  function PayloadText(p: Payload): string {
    match p
    case TextPart(text) => text
    case DataPart(_, _) => ""
  }

  /** The value of a `StreamOutputState`: what has been told to the client so far. */
  datatype Output = Output(
    userText: string,
    stableMessageId: string,
    namespace: string,
    buffers: map<BlockType, string>,
    progress: map<string, string>,
    upstreamError: Option<UpstreamError>,
    pendingInterrupts: set<string>,
    sawAnyChunk: bool,
    emittedStreamChunk: bool,
    sequence: nat)
  {
    function Buffer(b: BlockType): string { GetOr(buffers, b, "") }

    predicate DropsAsEcho(text: string, b: BlockType, role: Option<Role>) {
      && role.None?
      && b == TEXT
      && !sawAnyChunk
      && Strip(userText) != ""
      && Strip(text) == Strip(userText)
    }

    function NextBuffer(b: BlockType, key: string, append: bool, accumulate: bool): string {
      if append && accumulate then Buffer(b) + key else key
    }

    /** A chunk changes the stream unless the buffer would stay as it is. */
    predicate Registers(b: BlockType, key: string, append: bool, accumulate: bool) {
      NextBuffer(b, key, append, accumulate) != Buffer(b)
    }

    function AfterRegister(b: BlockType, key: string, append: bool, accumulate: bool): Output {
      if !Registers(b, key, append, accumulate) then this
      else this.(
        buffers := buffers[b := NextBuffer(b, key, append, accumulate)],
        sawAnyChunk := true,
        emittedStreamChunk := true)
    }

    predicate NeedsFinalSnapshot(text: string) {
      Strip(text) != "" && Strip(Buffer(TEXT)) != Strip(text)
    }

    function MessageId(messageId: Option<string>): string {
      if messageId.Some? && Strip(messageId.value) != "" then Strip(messageId.value) else stableMessageId
    }

    function EventId(n: nat): string { namespace + ":" + Decimal(n) }

    predicate MarksPending(requestId: string) {
      Strip(requestId) != "" && Strip(requestId) !in pendingInterrupts
    }

    predicate ClearsPending(requestId: string) {
      Strip(requestId) != "" && Strip(requestId) in pendingInterrupts
    }
  }

  class StreamOutputState {
    const userText: string
    const stableMessageId: string
    const namespace: string
    var contentBuffers: map<BlockType, string>
    var progressBuffers: map<string, string>
    var upstreamError: Option<UpstreamError>
    var pendingInterruptRequestIds: set<string>
    var sawAnyChunk: bool
    var emittedStreamChunk: bool
    var sequence: nat

    constructor (userText: string, stableMessageId: string, namespace: string)
      ensures View() == Output(userText, stableMessageId, namespace, map[], map[], None, {}, false, false, 0)
    {
      this.userText, this.stableMessageId, this.namespace := userText, stableMessageId, namespace;
      contentBuffers, progressBuffers, upstreamError := map[], map[], None;
      pendingInterruptRequestIds, sawAnyChunk, emittedStreamChunk, sequence := {}, false, false, 0;
    }

    function View(): Output
      reads this
    {
      Output(userText, stableMessageId, namespace, contentBuffers, progressBuffers, upstreamError,
             pendingInterruptRequestIds, sawAnyChunk, emittedStreamChunk, sequence)
    }

    method ShouldDropInitialUserEcho(text: string, blockType: BlockType, role: Option<Role>) returns (drop: bool)
      ensures drop == View().DropsAsEcho(text, blockType, role)
    {
      if role.Some? || blockType != TEXT || sawAnyChunk {
        return false;
      }
      var own := Strip(userText);
      drop := own != "" && Strip(text) == own;
    }

    method RegisterChunk(blockType: BlockType, contentKey: string, append: bool, accumulateContent: bool)
      returns (shouldEmit: bool, effectiveAppend: bool)
      modifies this
      ensures shouldEmit == old(View()).Registers(blockType, contentKey, append, accumulateContent)
      ensures shouldEmit ==> effectiveAppend == old(emittedStreamChunk)
      ensures View() == old(View()).AfterRegister(blockType, contentKey, append, accumulateContent)
    {
      var previous := GetOr(contentBuffers, blockType, "");
      var nextValue := if append && accumulateContent then previous + contentKey else contentKey;
      if nextValue == previous {
        return false, false;
      }
      contentBuffers := contentBuffers[blockType := nextValue];
      sawAnyChunk := true;
      effectiveAppend := emittedStreamChunk;
      emittedStreamChunk := true;
      shouldEmit := true;
    }

    method RegisterProgress(identity: string, contentKey: string) returns (changed: bool)
      modifies this`progressBuffers
      ensures changed == !(identity in old(progressBuffers) && old(progressBuffers)[identity] == contentKey)
      ensures progressBuffers == old(progressBuffers)[identity := contentKey]
    {
      if identity in progressBuffers && progressBuffers[identity] == contentKey {
        assert progressBuffers == progressBuffers[identity := contentKey];
        return false;
      }
      progressBuffers := progressBuffers[identity := contentKey];
      changed := true;
    }

    method ShouldEmitFinalSnapshot(text: string) returns (emit: bool)
      modifies this
      ensures emit == old(View()).NeedsFinalSnapshot(text)
      ensures View() == if emit then old(View()).(buffers := old(contentBuffers)[TEXT := text], sawAnyChunk := true)
                        else old(View())
    {
      if Strip(text) == "" {
        return false;
      }
      if Strip(GetOr(contentBuffers, TEXT, "")) == Strip(text) {
        return false;
      }
      contentBuffers := contentBuffers[TEXT := text];
      sawAnyChunk := true;
      emit := true;
    }

    method NextSequence() returns (n: nat)
      modifies this`sequence
      ensures n == sequence == old(sequence) + 1
    {
      sequence := sequence + 1;
      n := sequence;
    }

    method MarkInterruptPending(requestId: string) returns (marked: bool)
      modifies this`pendingInterruptRequestIds
      ensures marked == old(View()).MarksPending(requestId)
      ensures pendingInterruptRequestIds == old(pendingInterruptRequestIds) + (if marked then {Strip(requestId)} else {})
    {
      var normalized := Strip(requestId);
      if normalized == "" || normalized in pendingInterruptRequestIds {
        return false;
      }
      pendingInterruptRequestIds := pendingInterruptRequestIds + {normalized};
      marked := true;
    }

    method ClearInterruptPending(requestId: string) returns (cleared: bool)
      modifies this`pendingInterruptRequestIds
      ensures cleared == old(View()).ClearsPending(requestId)
      ensures pendingInterruptRequestIds == old(pendingInterruptRequestIds) - (if cleared then {Strip(requestId)} else {})
    {
      var normalized := Strip(requestId);
      if normalized == "" || normalized !in pendingInterruptRequestIds {
        return false;
      }
      pendingInterruptRequestIds := pendingInterruptRequestIds - {normalized};
      cleared := true;
    }
  }
}
