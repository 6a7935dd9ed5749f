/**
 * The K2 Think decomposer client: the chat-completion call with its error
 * wrapping, the prompts it sends, and the cleanup of the model's reply
 * before `JSON.parse`.
 *
 * The HTTP exchange and `JSON.parse` are external: the outcome of the fetch
 * and a parse function are parameters.  The system prompts are fixed texts
 * and are not modelled.
 */
module K2Think {
  import opened Wrappers
  import opened Strings
  import opened Js

  const Unavailable := "K2 Think API unavailable. Please check the endpoint: "

  /* ---------- reply cleanup ---------- */

  /** Whether `json` follows at `i`, compared as the regex flag `i` does. */
  predicate JsonTagAt(s: string, i: nat) {
    i + 4 <= |s| && LowerAscii(s[i]) == 'j' && LowerAscii(s[i + 1]) == 's'
    && LowerAscii(s[i + 2]) == 'o' && LowerAscii(s[i + 3]) == 'n'
  }

  /**
   * `replace(/^```(?:json)?\s*\/i, "")`: an opening fence at the very start,
   * an optional `json` tag in any case, and the whitespace after them.
   */
  function StripOpenFence(s: string): (r: string)
    ensures !OccursAt(s, "```", 0) ==> r == s
    ensures OccursAt(s, "```", 0) ==> r == [] || !IsWhitespace(r[0])
  {
    if !OccursAt(s, "```", 0) then s
    else TrimStart(s[3 + (if JsonTagAt(s, 3) then 4 else 0)..])
  }

  /** A fence at `p` with nothing but whitespace after it, as `/```\s*$/` matches. */
  predicate ClosingFenceAt(s: string, p: nat) {
    OccursAt(s, "```", p) && AllWhitespace(s[p + 3..])
  }

  /** The leftmost position at or after `from` where the closing pattern matches. */
  function FindClosingFence(s: string, from: nat): (r: Option<nat>)
    decreases |s| - from
    ensures r.Some? ==> from <= r.value && ClosingFenceAt(s, r.value)
    ensures r.Some? ==> forall i :: from <= i < r.value ==> !ClosingFenceAt(s, i)
    ensures r.None? ==> forall i :: from <= i ==> !ClosingFenceAt(s, i)
  {
    if from + 3 > |s| then None
    else if ClosingFenceAt(s, from) then Some(from)
    else FindClosingFence(s, from + 1)
  }

  /** `replace(/```\s*$/, "")`: cuts the text at the leftmost closing fence. */
  function StripCloseFence(s: string): (r: string)
    ensures FindClosingFence(s, 0).None? ==> r == s
    ensures FindClosingFence(s, 0).Some? ==> r == s[..FindClosingFence(s, 0).value]
  {
    match FindClosingFence(s, 0)
    case None => s
    case Some(p) => s[..p]
  }

  /** The text handed to `JSON.parse`: both fences stripped, then trimmed. */
  function Cleanup(reply: string): (r: string)
    ensures Trim(r) == r
  {
    var r := Trim(StripCloseFence(StripOpenFence(reply)));
    TrimOfTrimmed(r);
    r
  }

  /** Text in which no fence occurs is only trimmed. */
  lemma UnfencedOnlyTrimmed(reply: string)
    requires IndexOf(reply, "```", 0) == -1
    ensures Cleanup(reply) == Trim(reply)
  {
    assert !OccursAt(reply, "```", 0);
    assert FindClosingFence(reply, 0).None?;
  }

  /** After the opening fence, its tag and a line break, the text starts at the body. */
  lemma OpenFenceStripped(text: string, tag: string, rest: string)
    requires tag == [] || (|tag| == 4 && JsonTagAt(tag, 0))
    requires rest != [] && !IsWhitespace(rest[0])
    requires text == "```" + tag + "\n" + rest
    ensures StripOpenFence(text) == rest
  {
    assert text[..3] == "```";
    assert JsonTagAt(text, 3) <==> tag != [] by {
      if tag == [] {
        assert text[3] == '\n';
      } else {
        assert forall i :: 0 <= i < 4 ==> text[3 + i] == tag[i];
      }
    }
    assert text[3 + |tag|..] == "\n" + rest;
    TrimStartPadded("\n", rest);
  }

  /** A body free of backticks, a line break and a fence followed by whitespace: the cut falls at the fence. */
  lemma CloseFenceStripped(text: string, body: string, post: string)
    requires '`' !in body && AllWhitespace(post)
    requires text == body + "\n```" + post
    ensures StripCloseFence(text) == body + "\n"
  {
    var p := |body| + 1;
    assert text[p..p + 3] == "```";
    assert text[p + 3..] == post;
    assert ClosingFenceAt(text, p);
    forall i | 0 <= i < p ensures !ClosingFenceAt(text, i) {
      assert text[i] != '`';
    }
    assert FindClosingFence(text, 0) == Some(p);
    assert text[..p] == body + "\n";
  }

  /**
   * A reply that is exactly one fenced block (tag `json` in any case, or
   * none) around a trimmed body without backticks, with only whitespace
   * after the closing fence, cleans up to that body.
   */
  lemma FencedReplyCleaned(tag: string, body: string, post: string)
    requires tag == [] || (|tag| == 4 && JsonTagAt(tag, 0))
    requires body != [] && !IsWhitespace(body[0]) && !IsWhitespace(body[|body| - 1])
    requires '`' !in body
    requires AllWhitespace(post)
    ensures Cleanup("```" + tag + "\n" + body + "\n```" + post) == body
  {
    var rest := body + "\n```" + post;
    var text := "```" + tag + "\n" + body + "\n```" + post;
    assert text == "```" + tag + "\n" + rest;
    OpenFenceStripped(text, tag, rest);
    CloseFenceStripped(rest, body, post);
    TrimPadded("", body, "\n");
    assert "" + body + "\n" == body + "\n";
  }

  /* ---------- prompts ---------- */

  /** The decompose request's user prompt: the prompt without surrounding whitespace. */
  function DecomposeUserPrompt(prompt: string): (r: string)
    ensures r == [] || (!IsWhitespace(r[0]) && !IsWhitespace(r[|r| - 1]))
    ensures |r| <= |prompt|
  {
    Trim(prompt)
  }

  /** One line of the current-task list: the 1-based number, a dot, a space and the task. */
  function TaskLine(tasks: seq<string>, i: nat): string
    requires i < |tasks|
  {
    NatToString(i + 1) + ". " + tasks[i]
  }

  /** `currentTasks.map((t, i) => \`${i + 1}. ${t}\`).join("\n")`. */
  function NumberedList(tasks: seq<string>): string {
    Join(seq(|tasks|, i requires 0 <= i < |tasks| => TaskLine(tasks, i)), "\n")
  }

  /**
   * The numbered list has one line per task, in order, each `"k. t"` with
   * `k` counting from 1, as long as no task itself holds a line break.
   */
  lemma NumberedListLines(tasks: seq<string>)
    requires |tasks| >= 1
    requires forall i :: 0 <= i < |tasks| ==> '\n' !in tasks[i]
    ensures var lines := Split(NumberedList(tasks), '\n');
      |lines| == |tasks| && forall i :: 0 <= i < |tasks| ==> lines[i] == NatToString(i + 1) + ". " + tasks[i]
  {
    var lines := seq(|tasks|, i requires 0 <= i < |tasks| => TaskLine(tasks, i));
    forall k | 0 <= k < |lines| ensures '\n' !in lines[k] {
      assert lines[k] == NatToString(k + 1) + ". " + tasks[k];
      assert forall c :: c in NatToString(k + 1) ==> IsDigit(c);
    }
    SplitJoin(lines, '\n');
  }

  /** The refine request's user prompt. */
  function RefineUserPrompt(originalPrompt: string, currentTasks: seq<string>, refinement: string): (r: string)
    ensures StartsWith(r, "Original prompt: " + originalPrompt + "\n\nCurrent tasks:\n" + NumberedList(currentTasks))
    ensures EndsWith(r, "\n\nUser refinement: " + Trim(refinement))
  {
    var head := "Original prompt: " + originalPrompt + "\n\nCurrent tasks:\n" + NumberedList(currentTasks);
    var tail := "\n\nUser refinement: " + Trim(refinement);
    assert (head + tail)[..|head|] == head;
    assert (head + tail)[|head|..] == tail;
    head + tail
  }

  /* ---------- the call ---------- */

  /**
   * What `fetch` gave: a thrown error, or a response with its status, body
   * text and `choices[0].message.content`: a failure when reading it throws,
   * `None` when it is `null`.
   */
  datatype FetchOutcome =
    | Thrown(message: string)
    | Response(status: nat, text: string, content: Result<Option<string>>)

  /** `response.ok`. */
  predicate Ok(status: nat) {
    200 <= status <= 299
  }

  /** The message of the error `callK2Think` rethrows. */
  function Unavailability(url: string, message: string): (r: string)
    ensures StartsWith(r, Unavailable + url + ". Error: ") && EndsWith(r, message)
  {
    var head := Unavailable + url + ". Error: ";
    assert (head + message)[..|head|] == head;
    assert (head + message)[|head|..] == message;
    head + message
  }

  /**
   * `callK2Think`: the content of an OK response.  Every failure, including
   * the error thrown for a non-OK status inside the `try`, is rethrown with
   * the endpoint and the original message.
   */
  function CallK2Think(url: string, outcome: FetchOutcome): (r: Result<Option<string>>)
    ensures r.Success? <==> outcome.Response? && Ok(outcome.status) && outcome.content.Success?
    ensures r.Success? ==> r.value == outcome.content.value
    ensures r.Failure? ==> StartsWith(r.error, Unavailable + url + ". Error: ")
    ensures outcome.Thrown? ==> r == Failure(Unavailability(url, outcome.message))
    ensures outcome.Response? && !Ok(outcome.status) ==>
      r == Failure(Unavailability(url, "K2 Think API error (" + NatToString(outcome.status) + "): " + outcome.text))
  {
    var inner: Result<Option<string>> :=
      match outcome
      case Thrown(message) => Failure(message)
      case Response(status, text, content) =>
        if !Ok(status) then Failure("K2 Think API error (" + NatToString(status) + "): " + text)
        else content;
    match inner
    case Success(content) => Success(content)
    case Failure(message) => Failure(Unavailability(url, message))
  }

  /** `JSON.parse(raw).todos.map(t => t.description)`. */
  function TodoDescriptions(raw: string, parse: string -> Option<Value>): (r: Result<seq<Value>>)
    ensures r.Success? ==>
      var parsed := parse(raw);
      && parsed.Some? && !Nullish(parsed.value) && Get(parsed.value, "todos").value.Arr?
      && var items := Get(parsed.value, "todos").value.items;
      && |r.value| == |items|
      && forall i :: 0 <= i < |items| ==> Get(items[i], "description") == Success(r.value[i])
    ensures var parsed := parse(raw);
      parsed.Some? && !Nullish(parsed.value) && Get(parsed.value, "todos").value.Arr? ==>
      (r.Success? <==> forall i :: 0 <= i < |Get(parsed.value, "todos").value.items| ==> !Nullish(Get(parsed.value, "todos").value.items[i]))
  {
    match parse(raw)
    case None => Failure("SyntaxError: Unexpected token in JSON")
    case Some(parsed) =>
      match Get(parsed, "todos")
      case Failure(e) => Failure(e)
      case Success(todos) =>
        if Nullish(todos) then Failure("TypeError: Cannot read properties of undefined (reading 'map')")
        else if !todos.Arr? then Failure("TypeError: parsed.todos.map is not a function")
        else MapGet(todos.items, "description")
  }

  /** The error `.replace` raises on a `null` answer. */
  const NullReply := "TypeError: Cannot read properties of null (reading 'replace')"

  /** The endpoint answered: an OK status with a readable message content, possibly `null`. */
  predicate Answered(outcome: FetchOutcome) {
    outcome.Response? && Ok(outcome.status) && outcome.content.Success?
  }

  /**
   * `decomposeTasksWithK2`: `complete` is the model's answer to a user prompt.
   * The trimmed prompt is sent; an answer is cleaned and parsed, and every
   * failure of the call is the unavailability error naming the endpoint.  A
   * `null` answer fails outside the `try`, on `.replace`, without that prefix.
   */
  function DecomposeTasksWithK2(url: string, prompt: string, complete: string -> FetchOutcome,
                                parse: string -> Option<Value>): (r: Result<seq<Value>>)
    ensures var sent := complete(Trim(prompt));
      Answered(sent) && sent.content.value.Some? ==> r == TodoDescriptions(Cleanup(sent.content.value.value), parse)
    ensures var sent := complete(Trim(prompt));
      Answered(sent) && sent.content.value.None? ==> r == Failure(NullReply)
    ensures var sent := complete(Trim(prompt));
      !Answered(sent) ==> r.Failure? && StartsWith(r.error, Unavailable + url + ". Error: ")
    ensures var sent := complete(Trim(prompt));
      sent.Thrown? ==> r == Failure(Unavailability(url, sent.message))
  {
    match CallK2Think(url, complete(DecomposeUserPrompt(prompt)))
    case Failure(e) => Failure(e)
    case Success(None) => Failure(NullReply)
    case Success(Some(reply)) => TodoDescriptions(Cleanup(reply), parse)
  }

  /**
   * `refineTasksWithK2`: the refine prompt is sent; an answer is cleaned and
   * parsed, every failure of the call is the unavailability error, and a
   * `null` answer fails on `.replace`.
   */
  function RefineTasksWithK2(url: string, originalPrompt: string, currentTasks: seq<string>, refinement: string,
                             complete: string -> FetchOutcome, parse: string -> Option<Value>): (r: Result<seq<Value>>)
    ensures var sent := complete(RefineUserPrompt(originalPrompt, currentTasks, refinement));
      Answered(sent) && sent.content.value.Some? ==> r == TodoDescriptions(Cleanup(sent.content.value.value), parse)
    ensures var sent := complete(RefineUserPrompt(originalPrompt, currentTasks, refinement));
      Answered(sent) && sent.content.value.None? ==> r == Failure(NullReply)
    ensures var sent := complete(RefineUserPrompt(originalPrompt, currentTasks, refinement));
      !Answered(sent) ==> r.Failure? && StartsWith(r.error, Unavailable + url + ". Error: ")
    ensures var sent := complete(RefineUserPrompt(originalPrompt, currentTasks, refinement));
      sent.Thrown? ==> r == Failure(Unavailability(url, sent.message))
  {
    match CallK2Think(url, complete(RefineUserPrompt(originalPrompt, currentTasks, refinement)))
    case Failure(e) => Failure(e)
    case Success(None) => Failure(NullReply)
    case Success(Some(reply)) => TodoDescriptions(Cleanup(reply), parse)
  }

  /**
   * An OK reply holding one fenced block is read from the block's body:
   * the descriptions are those of the body's `todos`.
   */
  lemma DecomposeReadsFencedBody(url: string, prompt: string, complete: string -> FetchOutcome,
                                 parse: string -> Option<Value>, tag: string, body: string, post: string)
    requires tag == [] || (|tag| == 4 && JsonTagAt(tag, 0))
    requires body != [] && !IsWhitespace(body[0]) && !IsWhitespace(body[|body| - 1])
    requires '`' !in body && AllWhitespace(post)
    requires complete(Trim(prompt)).Response? && Ok(complete(Trim(prompt)).status)
    requires complete(Trim(prompt)).content == Success(Some("```" + tag + "\n" + body + "\n```" + post))
    ensures DecomposeTasksWithK2(url, prompt, complete, parse) == TodoDescriptions(body, parse)
  {
    FencedReplyCleaned(tag, body, post);
  }

  /**
   * The same for a refinement: an OK reply holding one fenced block is read
   * from the block's body.
   */
  lemma RefineReadsFencedBody(url: string, originalPrompt: string, currentTasks: seq<string>, refinement: string,
                              complete: string -> FetchOutcome, parse: string -> Option<Value>,
                              tag: string, body: string, post: string)
    requires tag == [] || (|tag| == 4 && JsonTagAt(tag, 0))
    requires body != [] && !IsWhitespace(body[0]) && !IsWhitespace(body[|body| - 1])
    requires '`' !in body && AllWhitespace(post)
    requires var sent := complete(RefineUserPrompt(originalPrompt, currentTasks, refinement));
      sent.Response? && Ok(sent.status) && sent.content == Success(Some("```" + tag + "\n" + body + "\n```" + post))
    ensures RefineTasksWithK2(url, originalPrompt, currentTasks, refinement, complete, parse) == TodoDescriptions(body, parse)
  {
    FencedReplyCleaned(tag, body, post);
  }
}
