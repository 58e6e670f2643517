/**
 * The streaming side of the chat backend (`gpt.ts`): how a streamed model
 * answer is relayed to the user interface in numbered messages, and how the
 * request for it is put together.
 *
 * Each call of `sendChatToUI` is one `Send` appended to a log; the network
 * request it makes, and its time stamp, are not modelled. The stream itself is
 * the sequence of chunk contents it yields (`None` for a chunk without
 * `choices[0].delta.content`).
 */
module ChatBatching {
  import opened Wrappers
  import Numerals

  /** One `sendChatToUI(pk, sk, message, isLastChunk, messageId)` call. */
  datatype Send = Send(pk: string, sk: string, message: string, isLastChunk: bool, messageId: string)

  /** `buffer.join('')`. */
  function Join(parts: seq<string>): string
    decreases |parts|
  {
    if parts == [] then "" else Join(parts[..|parts| - 1]) + parts[|parts| - 1]
  }

  lemma JoinSingle(s: string)
    ensures Join([s]) == s
  {
    assert [s][..0] == [];
  }

  lemma {:induction false} JoinAppend(a: seq<string>, b: seq<string>)
    ensures Join(a + b) == Join(a) + Join(b)
    decreases |b|
  {
    if b == [] {
      assert a + b == a;
    } else {
      var init := b[..|b| - 1];
      assert (a + b)[..|a + b| - 1] == a + init;
      assert (a + b)[|a + b| - 1] == b[|b| - 1];
      JoinAppend(a, init);
      ConcatAssoc(Join(a), Join(init), b[|b| - 1]);
    }
  }

  lemma ConcatAssoc<T>(a: seq<T>, b: seq<T>, c: seq<T>)
    ensures (a + b) + c == a + (b + c)
  {
  }

  /** `chunk.choices[0]?.delta?.content || ''`. */
  function Content(chunk: Option<string>): string {
    chunk.GetOr("")
  }

  /** The contents of a stream of chunks, in order. */
  function Contents(chunks: seq<Option<string>>): (cs: seq<string>)
    ensures |cs| == |chunks|
    ensures forall i :: 0 <= i < |chunks| ==> cs[i] == Content(chunks[i])
    decreases |chunks|
  {
    if chunks == [] then [] else Contents(chunks[..|chunks| - 1]) + [Content(chunks[|chunks| - 1])]
  }

  /**
   * The full batches of `rest`: each run of `size` consecutive contents,
   * joined, as long as a whole run is left.
   */
  function Batches(rest: seq<string>, size: nat): seq<string>
    requires size > 0
    decreases |rest|
  {
    if |rest| < size then [] else [Join(rest[..size])] + Batches(rest[size..], size)
  }

  /** The contents left over after the full batches: fewer than `size`. */
  function Leftover(rest: seq<string>, size: nat): (l: seq<string>)
    requires size > 0
    ensures |l| < size
    decreases |rest|
  {
    if |rest| < size then rest else Leftover(rest[size..], size)
  }

  function Min(a: nat, b: nat): nat {
    if a <= b then a else b
  }

  /**
   * The messages sent before the final one: the first `firstFew` contents one
   * by one, then one joined message per full batch of `size`.
   */
  function Messages(contents: seq<string>, firstFew: nat, size: nat): seq<string>
    requires size > 0
  {
    var h := Min(firstFew, |contents|);
    contents[..h] + Batches(contents[h..], size)
  }

  /** At least the first few contents are sent alone, and no more than the contents there are. */
  lemma MessagesLength(contents: seq<string>, firstFew: nat, size: nat)
    requires size > 0
    ensures |Messages(contents, firstFew, size)| >= Min(firstFew, |contents|)
    ensures |contents| <= firstFew ==> Messages(contents, firstFew, size) == contents
  {
    if |contents| <= firstFew {
      assert contents[|contents|..] == [];
      assert contents[..|contents|] == contents;
    }
  }

  /** What the final message carries: the leftover contents joined, `''` when there are none. */
  function Final(contents: seq<string>, firstFew: nat, size: nat): string
    requires size > 0
  {
    var h := Min(firstFew, |contents|);
    Join(Leftover(contents[h..], size))
  }

  /** The sends of `messages`, numbered `0, 1, 2, ...` in `sk`, none of them final. */
  function Numbered(pk: string, messageId: string, messages: seq<string>): (log: seq<Send>)
    ensures |log| == |messages|
    decreases |messages|
  {
    if messages == [] then []
    else
      var n := |messages| - 1;
      Numbered(pk, messageId, messages[..n]) + [Send(pk, Numerals.NatToDecimal(n), messages[n], false, messageId)]
  }

  /** The whole log of one relayed stream: the numbered messages, then the final one. */
  function Relay(pk: string, messageId: string, contents: seq<string>, firstFew: nat, size: nat): seq<Send>
    requires size > 0
  {
    var messages := Messages(contents, firstFew, size);
    Numbered(pk, messageId, messages)
      + [Send(pk, Numerals.NatToDecimal(|messages|), Final(contents, firstFew, size), true, messageId)]
  }

  lemma {:induction false} NumberedAt(pk: string, messageId: string, messages: seq<string>, i: nat)
    requires i < |messages|
    ensures Numbered(pk, messageId, messages)[i] == Send(pk, Numerals.NatToDecimal(i), messages[i], false, messageId)
    decreases |messages|
  {
    var n := |messages| - 1;
    if i < n {
      NumberedAt(pk, messageId, messages[..n], i);
    }
  }

  /**
   * Every send of a relay goes to the same `pk` and `messageId`; the `sk`
   * values are the counts `0, 1, 2, ...` and so all distinct; exactly one send
   * is flagged last, and it is the last one.
   */
  lemma RelayNumbering(pk: string, messageId: string, contents: seq<string>, firstFew: nat, size: nat)
    requires size > 0
    ensures var log := Relay(pk, messageId, contents, firstFew, size);
      && |log| == |Messages(contents, firstFew, size)| + 1
      && (forall i :: 0 <= i < |log| ==> log[i].pk == pk && log[i].messageId == messageId)
      && (forall i :: 0 <= i < |log| ==> log[i].sk == Numerals.NatToDecimal(i))
      && (forall i, j :: 0 <= i < j < |log| ==> log[i].sk != log[j].sk)
      && (forall i :: 0 <= i < |log| ==> (log[i].isLastChunk <==> i == |log| - 1))
  {
    var log := Relay(pk, messageId, contents, firstFew, size);
    var messages := Messages(contents, firstFew, size);
    forall i | 0 <= i < |log|
      ensures log[i].pk == pk && log[i].messageId == messageId && log[i].sk == Numerals.NatToDecimal(i)
      ensures log[i].isLastChunk <==> i == |log| - 1
    {
      if i < |messages| {
        NumberedAt(pk, messageId, messages, i);
      }
    }
    forall i, j | 0 <= i < j < |log|
      ensures log[i].sk != log[j].sk
    {
      Numerals.RenderingInjective(i, j);
    }
  }

  /** The first `firstFew` contents (or all, if fewer) are each sent alone, unflagged. */
  lemma FirstFewSentAlone(pk: string, messageId: string, contents: seq<string>, firstFew: nat, size: nat, i: nat)
    requires size > 0 && i < Min(firstFew, |contents|)
    ensures Relay(pk, messageId, contents, firstFew, size)[i] == Send(pk, Numerals.NatToDecimal(i), contents[i], false, messageId)
  {
    NumberedAt(pk, messageId, Messages(contents, firstFew, size), i);
  }

  /** The full batches and the leftover cover `rest`: the leftover is what follows the last full batch. */
  lemma {:induction false} BatchesCover(rest: seq<string>, size: nat)
    requires size > 0
    ensures |Batches(rest, size)| * size + |Leftover(rest, size)| == |rest|
    ensures Leftover(rest, size) == rest[|Batches(rest, size)| * size..]
    decreases |rest|
  {
    if |rest| >= size {
      var tail := rest[size..];
      BatchesCover(tail, size);
      var k := |Batches(tail, size)|;
      assert (k + 1) * size == k * size + size;
      assert tail[k * size..] == rest[k * size + size..];
    }
  }

  /** Batch `j` is the join of exactly the `size` contents from position `j * size` on. */
  lemma {:induction false} BatchAt(rest: seq<string>, size: nat, j: nat)
    requires size > 0 && j < |Batches(rest, size)|
    ensures j * size + size <= |rest|
    ensures Batches(rest, size)[j] == Join(rest[j * size..j * size + size])
    decreases j
  {
    if j > 0 {
      var tail := rest[size..];
      BatchAt(tail, size, j - 1);
      var start := (j - 1) * size;
      assert j * size == start + size;
      assert tail[start..start + size] == rest[j * size..j * size + size];
    }
  }

  /** Joining the batches and then the leftover gives back the joined contents. */
  lemma {:induction false} BatchesJoin(rest: seq<string>, size: nat)
    requires size > 0
    ensures Join(Batches(rest, size)) + Join(Leftover(rest, size)) == Join(rest)
    decreases |rest|
  {
    if |rest| >= size {
      var tail := rest[size..];
      BatchesJoin(tail, size);
      var first := rest[..size];
      JoinAppend([Join(first)], Batches(tail, size));
      JoinSingle(Join(first));
      assert rest == first + tail;
      JoinAppend(first, tail);
      ConcatAssoc(Join(first), Join(Batches(tail, size)), Join(Leftover(tail, size)));
    }
  }

  /** The relayed messages, final one included, join to exactly the joined contents: nothing is lost or repeated. */
  lemma RelayJoin(contents: seq<string>, firstFew: nat, size: nat)
    requires size > 0
    ensures Join(Messages(contents, firstFew, size)) + Final(contents, firstFew, size) == Join(contents)
  {
    var h := Min(firstFew, |contents|);
    var head, rest := contents[..h], contents[h..];
    var batches, left := Batches(rest, size), Leftover(rest, size);
    assert Messages(contents, firstFew, size) == head + batches;
    BatchesJoin(rest, size);
    JoinAppend(head, batches);
    assert head + rest == contents;
    JoinAppend(head, rest);
    ConcatAssoc(Join(head), Join(batches), Join(left));
  }

  /** Appending one content to a run: it either completes a batch or joins the leftover. */
  lemma {:induction false} BatchesSnoc(rest: seq<string>, x: string, size: nat)
    requires size > 0
    ensures |Leftover(rest, size)| + 1 == size ==>
      Batches(rest + [x], size) == Batches(rest, size) + [Join(Leftover(rest, size) + [x])] && Leftover(rest + [x], size) == []
    ensures |Leftover(rest, size)| + 1 < size ==>
      Batches(rest + [x], size) == Batches(rest, size) && Leftover(rest + [x], size) == Leftover(rest, size) + [x]
    decreases |rest|
  {
    if |rest| >= size {
      assert (rest + [x])[..size] == rest[..size];
      assert (rest + [x])[size..] == rest[size..] + [x];
      BatchesSnoc(rest[size..], x, size);
    } else if |rest| + 1 == size {
      assert (rest + [x])[size..] == [];
      assert (rest + [x])[..size] == rest + [x];
    }
  }

  /**
   * The counters of the relay loop after the contents `seen`: the messages
   * sent so far (`count` is their number) and the buffer.
   */
  predicate Progress(seen: seq<string>, firstFew: nat, size: nat, message: seq<string>, buffer: seq<string>)
    requires size > 0
  {
    var h := Min(firstFew, |seen|);
    message == Messages(seen, firstFew, size) && buffer == Leftover(seen[h..], size)
  }

  /** One more content while fewer than `firstFew` messages were sent: it is sent alone. */
  lemma ProgressFirstFew(seen: seq<string>, x: string, firstFew: nat, size: nat, message: seq<string>, buffer: seq<string>)
    requires size > 0
    requires Progress(seen, firstFew, size, message, buffer) && |message| < firstFew
    ensures Progress(seen + [x], firstFew, size, message + [x], buffer)
  {
    var h := Min(firstFew, |seen|);
    assert |message| >= h;
    assert |seen| < firstFew;
    assert seen[h..] == [];
    assert message == seen[..h];
    var seen' := seen + [x];
    assert Min(firstFew, |seen'|) == |seen'|;
    assert seen'[..|seen'|] == seen' == message + [x];
    assert seen'[|seen'|..] == [];
  }

  /** One more content once `firstFew` messages were sent: it is buffered, and a full buffer is sent joined. */
  lemma ProgressBatch(seen: seq<string>, x: string, firstFew: nat, size: nat, message: seq<string>, buffer: seq<string>)
    requires size > 0
    requires Progress(seen, firstFew, size, message, buffer) && |message| >= firstFew
    ensures |buffer| + 1 == size ==> Progress(seen + [x], firstFew, size, message + [Join(buffer + [x])], [])
    ensures |buffer| + 1 < size ==> Progress(seen + [x], firstFew, size, message, buffer + [x])
  {
    var h := Min(firstFew, |seen|);
    MessagesLength(seen, firstFew, size);
    assert h == firstFew;
    var seen', head, rest := seen + [x], seen[..h], seen[h..];
    assert seen'[..h] == head;
    assert seen'[h..] == rest + [x];
    BatchesSnoc(rest, x, size);
    if |buffer| + 1 == size {
      ConcatAssoc(head, Batches(rest, size), [Join(buffer + [x])]);
    }
  }

  /**
   * The chunk loop of `completeChatFromPrompt`: the first 3 contents are sent
   * one by one, then every 10 buffered contents are sent joined; after the
   * stream, the non-empty buffer is sent joined (and recorded), or `''` is
   * sent, flagged last. The answer is the join of the recorded messages.
   */
  method RelayChatStream(chunks: seq<Option<string>>, userId: string, messageId: string)
    returns (answer: string, sends: seq<Send>)
    ensures sends == Relay(userId, messageId, Contents(chunks), FirstFewLimit, ChatBatchSize)
    ensures answer == Join(Contents(chunks))
  {
    var message: seq<string> := [];
    var count := 0;
    var buffer: seq<string> := [];
    sends := [];
    for i := 0 to |chunks|
      invariant Progress(Contents(chunks[..i]), FirstFewLimit, ChatBatchSize, message, buffer)
      invariant count == |message|
      invariant sends == Numbered(userId, messageId, message)
    {
      var content := Content(chunks[i]);
      assert chunks[..i + 1][..i] == chunks[..i];
      if count < FirstFewLimit {
        ProgressFirstFew(Contents(chunks[..i]), content, FirstFewLimit, ChatBatchSize, message, buffer);
        message := message + [content];
        sends := sends + [Send(userId, Numerals.NatToDecimal(count), content, false, messageId)];
        count := count + 1;
      } else {
        ProgressBatch(Contents(chunks[..i]), content, FirstFewLimit, ChatBatchSize, message, buffer);
        buffer := buffer + [content];
        if |buffer| == ChatBatchSize {
          var combinedMessage := Join(buffer);
          sends := sends + [Send(userId, Numerals.NatToDecimal(count), combinedMessage, false, messageId)];
          message := message + [combinedMessage];
          buffer := [];
          count := count + 1;
        }
      }
    }
    assert chunks[..|chunks|] == chunks;
    RelayJoin(Contents(chunks), FirstFewLimit, ChatBatchSize);
    if |buffer| > 0 {
      var combinedMessage := Join(buffer);
      sends := sends + [Send(userId, Numerals.NatToDecimal(count), combinedMessage, true, messageId)];
      JoinAppend(message, [combinedMessage]);
      JoinSingle(combinedMessage);
      message := message + [combinedMessage];
    } else {
      sends := sends + [Send(userId, Numerals.NatToDecimal(count), "", true, messageId)];
    }
    answer := Join(message);
  }

  /** `firstFewLimit` and `batchSize` in `completeChatFromPrompt`. */
  const FirstFewLimit: nat := 3
  const ChatBatchSize: nat := 10

  /**
   * One `reader.read()` of `processStreamedResponse`, after decoding: no value,
   * a value that does not parse as a chunk (skipped), or a chunk's content.
   */
  datatype Read = NoValue | Unparsable | Parsed(content: Option<string>)

  /** The contents of the received that yield a chunk, in order. */
  function ParsedContents(received: seq<Read>): (cs: seq<string>)
    ensures |cs| <= |received|
    decreases |received|
  {
    if received == [] then []
    else
      var last := received[|received| - 1];
      ParsedContents(received[..|received| - 1]) + (if last.Parsed? then [Content(last.content)] else [])
  }

  /** A read contributes its content exactly when it yields a chunk: nothing is lost and nothing invented. */
  lemma {:induction false} ParsedContentsMembers(received: seq<Read>, s: string)
    ensures s in ParsedContents(received) <==>
      exists i :: 0 <= i < |received| && received[i].Parsed? && Content(received[i].content) == s
    decreases |received|
  {
    if received != [] {
      var init := received[..|received| - 1];
      ParsedContentsMembers(init, s);
      if exists i :: 0 <= i < |init| && init[i].Parsed? && Content(init[i].content) == s {
        var i :| 0 <= i < |init| && init[i].Parsed? && Content(init[i].content) == s;
        assert received[i] == init[i];
      }
      if exists i :: 0 <= i < |received| && received[i].Parsed? && Content(received[i].content) == s {
        var i :| 0 <= i < |received| && received[i].Parsed? && Content(received[i].content) == s;
        if i < |init| {
          assert init[i] == received[i];
        }
      }
    }
  }

  /** Reads are taken in order: the contents of two runs of reads are the contents of the first, then of the second. */
  lemma {:induction false} ParsedContentsAppend(a: seq<Read>, b: seq<Read>)
    ensures ParsedContents(a + b) == ParsedContents(a) + ParsedContents(b)
    decreases |b|
  {
    if b == [] {
      assert a + b == a;
    } else {
      var init := b[..|b| - 1];
      assert (a + b)[..|a + b| - 1] == a + init;
      assert (a + b)[|a + b| - 1] == b[|b| - 1];
      ParsedContentsAppend(a, init);
      var last := b[|b| - 1];
      ConcatAssoc(ParsedContents(a), ParsedContents(init), if last.Parsed? then [Content(last.content)] else []);
    }
  }

  function MaxInt(a: int, b: int): int {
    if a >= b then a else b
  }

  /**
   * `processStreamedResponse`: the same relay with `count < firstFewLimit` and
   * `buffer.length >= batchSize`, over the received that parse; the final message
   * is always sent and recorded, and the recorded messages are returned. A
   * negative `firstFewLimit` acts as 0 and a `batchSize` below 1 as 1.
   */
  method ProcessStreamedResponse(received: seq<Read>, userId: string, messageId: string, firstFewLimit: int, batchSize: int)
    returns (message: seq<string>, sends: seq<Send>)
    ensures var contents, firstFew, size := ParsedContents(received), MaxInt(0, firstFewLimit), MaxInt(1, batchSize);
      && sends == Relay(userId, messageId, contents, firstFew, size)
      && message == Messages(contents, firstFew, size) + [Final(contents, firstFew, size)]
    ensures |message| == |sends| && forall i :: 0 <= i < |sends| ==> message[i] == sends[i].message
  {
    ghost var firstFew: nat, size: nat := MaxInt(0, firstFewLimit), MaxInt(1, batchSize);
    var count := 0;
    message := [];
    var buffer: seq<string> := [];
    sends := [];
    var i := 0;
    while i < |received|
      invariant 0 <= i <= |received|
      invariant Progress(ParsedContents(received[..i]), firstFew, size, message, buffer)
      invariant count == |message|
      invariant sends == Numbered(userId, messageId, message)
    {
      assert received[..i + 1][..i] == received[..i];
      ghost var seen := ParsedContents(received[..i]);
      assert |buffer| < size;
      match received[i] {
        case Parsed(chunk) =>
          var content := Content(chunk);
          assert ParsedContents(received[..i + 1]) == seen + [content];
          if count < firstFewLimit {
            ProgressFirstFew(ParsedContents(received[..i]), content, firstFew, size, message, buffer);
            message := message + [content];
            sends := sends + [Send(userId, Numerals.NatToDecimal(count), content, false, messageId)];
            count := count + 1;
          } else {
            ProgressBatch(ParsedContents(received[..i]), content, firstFew, size, message, buffer);
            buffer := buffer + [content];
            if |buffer| >= batchSize {
              var combinedMessage := Join(buffer);
              sends := sends + [Send(userId, Numerals.NatToDecimal(count), combinedMessage, false, messageId)];
              message := message + [combinedMessage];
              buffer := [];
              count := count + 1;
            }
          }
        case _ =>
          assert ParsedContents(received[..i + 1]) == seen;
      }
      i := i + 1;
    }
    assert received[..|received|] == received;
    var remainingMessage := Join(buffer);
    sends := sends + [Send(userId, Numerals.NatToDecimal(count), remainingMessage, true, messageId)];
    ghost var before := message;
    message := message + [remainingMessage];
    forall j | 0 <= j < |sends|
      ensures message[j] == sends[j].message
    {
      if j < |before| {
        NumberedAt(userId, messageId, before, j);
      }
    }
  }

  /** The prompts `completeChatFromPrompt` can put in the system message. */
  datatype SystemPrompt = NewsPrompt | TechnicalPrompt | AssistantPrompt(subject: string)

  /** The chat types that matter here; every other one is `OtherChatType`. */
  datatype ChatType = FinancialNewsQuery | FinancialAnalysisQuery | OtherChatType(name: string)

  /** A chat focus: `ChatFocus.All` or a named one. */
  datatype ChatFocus = All | Focus(name: string)

  datatype ChatRequest = ChatRequest(system: SystemPrompt, user: string, model: string, stream: bool)

  const MaxPromptLength: nat := 20000
  const LiveModel := "llama-3.1-sonar-large-128k-online"
  const DefaultModel := "gpt-4o"

  /** `prompt.substring(0, 20000)`. */
  function Truncate(prompt: string): (t: string)
    ensures |t| == Min(|prompt|, MaxPromptLength) && t == prompt[..|t|]
  {
    prompt[..Min(|prompt|, MaxPromptLength)]
  }

  /** Truncation leaves a short prompt alone and is idempotent. */
  lemma TruncateIdempotent(prompt: string)
    ensures |prompt| <= MaxPromptLength ==> Truncate(prompt) == prompt
    ensures Truncate(Truncate(prompt)) == Truncate(prompt)
  {
    if |prompt| <= MaxPromptLength {
      assert prompt[..|prompt|] == prompt;
    }
    var t := Truncate(prompt);
    assert t[..|t|] == t;
  }

  predicate LiveChatType(chatType: ChatType) {
    chatType == FinancialNewsQuery || chatType == FinancialAnalysisQuery
  }

  /**
   * The request `completeChatFromPrompt` builds: the system prompt for the
   * chat type (for a plain chat, an assistant for the focus, or "Finance"
   * without one or for `All`), the prompt cut to 20000 characters, the live
   * model for news and analysis queries and `gpt-4o` otherwise, streamed.
   */
  function BuildRequest(prompt: string, focus: Option<ChatFocus>, chatType: ChatType): (r: ChatRequest)
    ensures r.user == Truncate(prompt) && r.stream
    ensures r.model == LiveModel <==> LiveChatType(chatType)
    ensures r.model == DefaultModel <==> !LiveChatType(chatType)
    ensures r.system.NewsPrompt? <==> chatType == FinancialNewsQuery
    ensures r.system.TechnicalPrompt? <==> chatType == FinancialAnalysisQuery
    ensures r.system.AssistantPrompt? ==> r.system.subject == (if focus.Some? && focus.value.Focus? then focus.value.name else "Finance")
  {
    var system :=
      if chatType == FinancialNewsQuery then NewsPrompt
      else if chatType == FinancialAnalysisQuery then TechnicalPrompt
      else AssistantPrompt(match focus case Some(Focus(name)) => name case _ => "Finance");
    var model := if LiveChatType(chatType) then LiveModel else DefaultModel;
    ChatRequest(system, Truncate(prompt), model, true)
  }

  /**
   * `completeChatFromPrompt`, with the model's answer given: as a stream of
   * chunks, relayed as above, or, with `requiresLiveData`, as one complete
   * message, after which only the final empty message `''` is sent.
   */
  method CompleteChatFromPrompt(prompt: string, focus: Option<ChatFocus>, userId: string, requiresLiveData: bool,
                                chatType: ChatType, messageId: string, chunks: seq<Option<string>>, liveContent: Option<string>)
    returns (request: ChatRequest, answer: string, sends: seq<Send>)
    ensures request == BuildRequest(prompt, focus, chatType)
    ensures !requiresLiveData ==> sends == Relay(userId, messageId, Contents(chunks), FirstFewLimit, ChatBatchSize)
    ensures !requiresLiveData ==> answer == Join(Contents(chunks))
    ensures requiresLiveData ==> sends == [Send(userId, Numerals.NatToDecimal(0), "", true, messageId)]
    ensures requiresLiveData ==> answer == Content(liveContent)
  {
    request := BuildRequest(prompt, focus, chatType);
    if !requiresLiveData {
      answer, sends := RelayChatStream(chunks, userId, messageId);
    } else {
      var message := [Content(liveContent)];
      sends := [Send(userId, Numerals.NatToDecimal(0), "", true, messageId)];
      answer := Join(message);
      JoinSingle(Content(liveContent));
    }
  }
}
