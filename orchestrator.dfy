/**
 * Reading the decomposer's reply: the text is taken from the first fenced
 * code block when there is one, parsed as JSON, and must hold a `todos`
 * array whose items' descriptions are the tasks.
 *
 * The chat-completion request and `JSON.parse` are external: the reply's
 * content and a parse function are parameters.
 */
module Orchestrator {
  import opened Wrappers
  import opened Strings
  import opened Js

  const MissingTodos := "Response missing 'todos' array"

  /**
   * Where the inner text of the first fenced block lies, as the regex
   * ```` /```(?:json)?\s*([\s\S]*?)\s*```/ ```` finds it: the match starts
   * at the first fence `p` (case-sensitive, an optional `json` right after
   * it) and the lazy group ends at the next fence.  When no fence follows
   * the opening one no later start can match either, because a later fence
   * would itself have closed the block.
   */
  function FenceBounds(text: string): (r: Option<(nat, nat)>)
    ensures IndexOf(text, "```", 0) == -1 ==> r.None?
    ensures r.Some? ==> r.value.0 <= r.value.1 <= |text|
  {
    var p := IndexOf(text, "```", 0);
    if p == -1 then None
    else
      var open := p + 3 + (if OccursAt(text, "json", p + 3) then 4 else 0);
      var k := IndexOf(text, "```", open);
      if k == -1 then None else Some((open, k))
  }

  /**
   * The captured inner text of the first fenced block: the greedy `\s*` on
   * either side of the group leaves it without surrounding whitespace.
   */
  function ExtractFence(text: string): (r: Option<string>)
    ensures IndexOf(text, "```", 0) == -1 ==> r.None?
    ensures r.Some? ==> r.value == Trim(r.value)
  {
    match FenceBounds(text)
    case None => None
    case Some((open, k)) =>
      TrimIdempotent(text[open..k]);
      Some(Trim(text[open..k]))
  }

  /** The text handed to `JSON.parse`: the reply content (`""` when null or empty), or its first fenced block. */
  function ParsedText(content: Option<string>): string {
    var text := if content.Some? then content.value else "";
    match ExtractFence(text)
    case Some(inner) => inner
    case None => text
  }

  /** `parsed.todos`. */
  function Todos(parsed: Value): Value
    requires !Nullish(parsed)
  {
    Get(parsed, "todos").value
  }

  /**
   * The task descriptions of a parsed decomposer reply (`None` when the text
   * is not JSON).  Fails when the text is not JSON, when it parses to
   * `null`, when `todos` is not an array (`MissingTodos`), or when an item
   * is `null`.
   */
  function ReadTodos(parsed: Option<Value>): (r: Result<seq<Value>>)
    ensures parsed.None? ==> r.Failure?
    ensures parsed.Some? && !Nullish(parsed.value) && !Todos(parsed.value).Arr? ==> r == Failure(MissingTodos)
    ensures r.Success? ==> parsed.Some? && !Nullish(parsed.value) && Todos(parsed.value).Arr?
    ensures parsed.Some? && !Nullish(parsed.value) && Todos(parsed.value).Arr? ==>
      var items := Todos(parsed.value).items;
      && (r.Success? <==> forall i :: 0 <= i < |items| ==> !Nullish(items[i]))
      && (r.Success? ==> |r.value| == |items|)
      && (r.Success? ==> forall i :: 0 <= i < |r.value| ==> Get(items[i], "description") == Success(r.value[i]))
  {
    match parsed
    case None => Failure("SyntaxError: Unexpected token in JSON")
    case Some(parsed) =>
      if Nullish(parsed) then Failure("TypeError: Cannot read properties of null (reading 'todos')")
      else
        var todos := Todos(parsed);
        if !Truthy(todos) || !todos.Arr? then Failure(MissingTodos)
        else MapGet(todos.items, "description")
  }

  /** `decomposeTasks`: the task descriptions of the reply content, read from its fenced block when it has one. */
  function DecomposeTasks(content: Option<string>, parse: string -> Option<Value>): (r: Result<seq<Value>>)
    ensures var parsed := parse(ParsedText(content));
      && (parsed.None? ==> r.Failure?)
      && (parsed.Some? && !Nullish(parsed.value) && !Todos(parsed.value).Arr? ==> r == Failure(MissingTodos))
      && (r.Success? ==> parsed.Some? && !Nullish(parsed.value) && Todos(parsed.value).Arr?)
      && (parsed.Some? && !Nullish(parsed.value) && Todos(parsed.value).Arr? ==>
            var items := Todos(parsed.value).items;
            && (r.Success? <==> forall i :: 0 <= i < |items| ==> !Nullish(items[i]))
            && (r.Success? ==> |r.value| == |items|)
            && (r.Success? ==> forall i :: 0 <= i < |r.value| ==> Get(items[i], "description") == Success(r.value[i])))
  {
    ReadTodos(parse(ParsedText(content)))
  }

  lemma TrimIdempotent(s: string)
    ensures Trim(Trim(s)) == Trim(s)
  {
    TrimOfTrimmed(Trim(s));
  }

  /** The first fence at or after `from` is the one right after a backtick-free gap. */
  lemma FenceAfter(s: string, from: nat, gap: string)
    requires '`' !in gap
    requires from + |gap| + 3 <= |s| && s[from..from + |gap| + 3] == gap + "```"
    ensures IndexOf(s, "```", from) == from + |gap|
  {
    assert OccursAt(s, "```", from + |gap|) by {
      assert s[from + |gap|..from + |gap| + 3] == s[from..from + |gap| + 3][|gap|..];
    }
    forall i | from <= i < from + |gap| ensures !OccursAt(s, "```", i) {
      assert s[i] == s[from..from + |gap| + 3][i - from] == gap[i - from];
    }
  }

  /** Unfolds `FenceBounds` once the two fences are known. */
  lemma FenceBoundsAt(text: string, p: nat, open: nat, k: nat)
    requires IndexOf(text, "```", 0) == p
    requires open == p + 3 + (if OccursAt(text, "json", p + 3) then 4 else 0)
    requires IndexOf(text, "```", open) == k
    ensures FenceBounds(text) == Some((open, k))
  {
  }

  /** Null and empty content are the same empty text. */
  lemma NullContentIsEmpty()
    ensures ParsedText(None) == ParsedText(Some("")) == ""
  {
  }

  /** Without a fence the whole content is parsed. */
  lemma UnfencedParsedWhole(text: string)
    requires '`' !in text
    ensures ParsedText(Some(text)) == text
  {
    assert forall i :: 0 <= i < |text| ==> !OccursAt(text, "```", i) by {
      forall i | 0 <= i < |text| ensures !OccursAt(text, "```", i) {
        assert text[i] != '`';
      }
    }
  }

  /** The opening fence of a block after backtick-free text is the first fence. */
  lemma OpeningFence(text: string, pre: string, tag: string, body: string, post: string)
    requires '`' !in pre
    requires text == pre + "```" + tag + "\n" + body + "\n```" + post
    ensures IndexOf(text, "```", 0) == |pre|
  {
    assert text[..|pre| + 3] == pre + "```";
    FenceAfter(text, 0, pre);
  }

  /** The `json` tag is recognised exactly when it is there. */
  lemma JsonTag(text: string, pre: string, tag: string, body: string, post: string)
    requires tag == "" || tag == "json"
    requires text == pre + "```" + tag + "\n" + body + "\n```" + post
    ensures OccursAt(text, "json", |pre| + 3) <==> tag == "json"
  {
    assert text[|pre| + 3] == (if tag == "json" then 'j' else '\n');
  }

  /** The closing fence of a block with a backtick-free body is the first fence after the tag. */
  lemma ClosingFence(text: string, pre: string, tag: string, body: string, post: string)
    requires '`' !in body
    requires text == pre + "```" + tag + "\n" + body + "\n```" + post
    ensures IndexOf(text, "```", |pre| + 3 + |tag|) == |pre| + 3 + |tag| + |body| + 2
  {
    var open := |pre| + 3 + |tag|;
    var gap := "\n" + body + "\n";
    assert text[open..open + |gap| + 3] == gap + "```";
    FenceAfter(text, open, gap);
  }

  /** Between the tag and the closing fence lies the body between two line breaks. */
  lemma BlockInner(text: string, pre: string, tag: string, body: string, post: string)
    requires text == pre + "```" + tag + "\n" + body + "\n```" + post
    ensures text[|pre| + 3 + |tag|..|pre| + 3 + |tag| + |body| + 2] == "\n" + body + "\n"
  {
  }

  /** The bounds of a block after backtick-free text, with a backtick-free body. */
  lemma BlockBounds(text: string, pre: string, tag: string, body: string, post: string)
    requires '`' !in pre && '`' !in body
    requires tag == "" || tag == "json"
    requires text == pre + "```" + tag + "\n" + body + "\n```" + post
    ensures FenceBounds(text) == Some((|pre| + 3 + |tag|, |pre| + 3 + |tag| + |body| + 2))
    ensures text[|pre| + 3 + |tag|..|pre| + 3 + |tag| + |body| + 2] == "\n" + body + "\n"
  {
    OpeningFence(text, pre, tag, body, post);
    JsonTag(text, pre, tag, body, post);
    ClosingFence(text, pre, tag, body, post);
    BlockInner(text, pre, tag, body, post);
    var open: nat := |pre| + 3 + |tag|;
    var k: nat := open + |body| + 2;
    FenceBoundsAt(text, |pre|, open, k);
    assert FenceBounds(text) == Some((open, k));
  }

  /** A block whose inner text is a trimmed body between two line breaks yields that body. */
  lemma ExtractPadded(text: string, open: nat, k: nat, body: string)
    requires FenceBounds(text) == Some((open, k))
    requires body == [] || (!IsWhitespace(body[0]) && !IsWhitespace(body[|body| - 1]))
    requires text[open..k] == "\n" + body + "\n"
    ensures ExtractFence(text) == Some(body)
  {
    TrimPadded("\n", body, "\n");
  }

  /**
   * A reply that wraps a trimmed body in a ```` ``` ```` or ```` ```json ````
   * block, after text without backticks, is parsed from exactly that body,
   * whatever follows the block.
   */
  lemma FencedBodyExtracted(text: string, pre: string, tag: string, body: string, post: string)
    requires '`' !in pre && '`' !in body
    requires tag == "" || tag == "json"
    requires body == [] || (!IsWhitespace(body[0]) && !IsWhitespace(body[|body| - 1]))
    requires text == pre + "```" + tag + "\n" + body + "\n```" + post
    ensures ExtractFence(text) == Some(body)
  {
    var open := |pre| + 3 + |tag|;
    var k := open + |body| + 2;
    BlockBounds(text, pre, tag, body, post);
    assert FenceBounds(text) == Some((open, k)) && text[open..k] == "\n" + body + "\n";
    ExtractPadded(text, open, k, body);
  }

  /** Hence such a reply is parsed from the body alone. */
  lemma FencedReplyParsesBody(pre: string, tag: string, body: string, post: string)
    requires '`' !in pre && '`' !in body
    requires tag == "" || tag == "json"
    requires body == [] || (!IsWhitespace(body[0]) && !IsWhitespace(body[|body| - 1]))
    ensures ParsedText(Some(pre + "```" + tag + "\n" + body + "\n```" + post)) == body
  {
    FencedBodyExtracted(pre + "```" + tag + "\n" + body + "\n```" + post, pre, tag, body, post);
  }

  /** A reply holding one fenced block is decomposed exactly as its body alone would be. */
  lemma FencedReplyDecomposed(pre: string, tag: string, body: string, post: string, parse: string -> Option<Value>)
    requires '`' !in pre && '`' !in body
    requires tag == "" || tag == "json"
    requires body == [] || (!IsWhitespace(body[0]) && !IsWhitespace(body[|body| - 1]))
    ensures DecomposeTasks(Some(pre + "```" + tag + "\n" + body + "\n```" + post), parse) == DecomposeTasks(Some(body), parse)
  {
    FencedReplyParsesBody(pre, tag, body, post);
    UnfencedParsedWhole(body);
  }
}
