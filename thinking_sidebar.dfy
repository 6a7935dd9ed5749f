/**
 * The pure helpers of the live "thinking" feed: agent labels and colours,
 * chip text for a tool call, the rolling display window, the grouping of
 * consecutive entries by agent into threads, and the expanded-thread set.
 */
module ThinkingSidebar {
  import opened Wrappers
  import opened Strings
  import Js
  import SessionStore

  /** At most this many entries are shown; older ones are dropped. */
  const MaxEntries: nat := 200

  /** One line of an agent's reasoning stream.  Only the fields the helpers read. */
  datatype Entry = Entry(id: string, agentId: string, action: string)

  // ---------------------------------------------------------------- agent labels

  /** The run of decimal digits at the end of `s` (what `/(\d+)$/` captures), or "". */
  function TrailingDigits(s: string): (r: string)
    ensures |r| <= |s| && r == s[|s| - |r|..]
    ensures AllDigits(r)
    ensures |r| < |s| ==> !IsDigit(s[|s| - |r| - 1])
  {
    if s == [] || !IsDigit(s[|s| - 1]) then []
    else TrailingDigits(s[..|s| - 1]) + [s[|s| - 1]]
  }

  /** The first `n` characters, or all of them when there are fewer (`s.slice(0, n)`). */
  function Take(s: string, n: nat): (r: string)
    ensures |r| == if |s| < n then |s| else n
    ensures StartsWith(s, r)
  {
    if |s| < n then s else s[..n]
  }

  /**
   * The short label of an agent: the number its id ends with, without leading
   * zeros, or the id's first four characters when it does not end in a digit.
   */
  function AgentNumber(agentId: string): (r: string)
    ensures TrailingDigits(agentId) == [] ==> r == Take(agentId, 4)
    ensures TrailingDigits(agentId) != [] ==>
      AllDigits(r) && |r| >= 1 && (r[0] == '0' ==> r == "0")
  {
    var digits := TrailingDigits(agentId);
    if digits != [] then NatToString(ParseDecimal(digits)) else Take(agentId, 4)
  }

  /** A digit run appended to a prefix that does not end in a digit is exactly the trailing run. */
  lemma {:induction false} TrailingDigitsOf(prefix: string, digits: string)
    requires prefix == [] || !IsDigit(prefix[|prefix| - 1])
    requires AllDigits(digits)
    ensures TrailingDigits(prefix + digits) == digits
  {
    if digits != [] {
      var s := prefix + digits;
      assert s[..|s| - 1] == prefix + digits[..|digits| - 1];
      TrailingDigitsOf(prefix, digits[..|digits| - 1]);
    } else {
      assert prefix + digits == prefix;
    }
  }

  /**
   * An id made of a non-digit-terminated prefix and a zero-padded number is
   * labelled with that number: `agent-001` is labelled `1`.
   */
  lemma AgentNumberOfNumbered(prefix: string, n: nat, width: nat)
    requires prefix == [] || !IsDigit(prefix[|prefix| - 1])
    ensures AgentNumber(prefix + PadStart(NatToString(n), width, '0')) == NatToString(n)
  {
    var padded := PadStart(NatToString(n), width, '0');
    ParsePadded(n, width);
    TrailingDigitsOf(prefix, padded);
    assert TrailingDigits(prefix + padded) == padded && padded != [];
    assert ParseDecimal(padded) == n;
  }

  /** The position of the agent in the list, or 0 when it is not listed (`findIndex`, then `idx >= 0 ? idx : 0`). */
  function AgentIndex(agentId: string, agents: seq<SessionStore.Agent>): (r: nat)
    ensures r < |agents| || r == 0
    ensures (exists i :: 0 <= i < |agents| && agents[i].id == agentId) ==>
      r < |agents| && agents[r].id == agentId && forall j :: 0 <= j < r ==> agents[j].id != agentId
    ensures (forall i :: 0 <= i < |agents| ==> agents[i].id != agentId) ==> r == 0
  {
    if agents == [] then 0
    else if agents[0].id == agentId then 0
    else
      var rest := AgentIndex(agentId, agents[1..]);
      if exists i :: 0 <= i < |agents| - 1 && agents[1..][i].id == agentId then rest + 1 else 0
  }

  /** The colour wheel position of the agent with the given index. */
  function Hue(index: nat): (h: nat)
    ensures h < 360 && h % 90 == 0
  {
    (index * 90) % 360
  }

  /** The chip background and the label text colour. */
  datatype Colour = Colour(bg: string, text: string)

  function AgentColour(index: nat): (r: Colour)
    ensures r.text == "hsl(" + NatToString(Hue(index)) + " 70% 60%)"
    ensures r.bg == "hsl(" + NatToString(Hue(index)) + " 70% 60% / 0.15)"
  {
    var hue := NatToString(Hue(index));
    Colour("hsl(" + hue + " 70% 60% / 0.15)", "hsl(" + hue + " 70% 60%)")
  }

  /** Colours repeat every four agents, and the first four agents get four different colours. */
  lemma {:induction false} AgentColourCycle(i: nat, j: nat)
    ensures AgentColour(i + 4) == AgentColour(i)
    ensures i < j < 4 ==> Hue(i) != Hue(j)
  {
    assert (i + 4) * 90 == i * 90 + 360;
    assert (i * 90 + 360) % 360 == (i * 90) % 360;
  }

  // ---------------------------------------------------------------- tool chips

  /** `text.slice(-n)`; note that `slice(-0)` is `slice(0)`, the whole text. */
  function SliceFromEnd(text: string, n: nat): (r: string)
    ensures n == 0 ==> r == text
    ensures 0 < n <= |text| ==> r == text[|text| - n..]
  {
    if n == 0 || n > |text| then text else text[|text| - n..]
  }

  /** Keeps the head and the tail of a long text around an ellipsis. */
  function SmartTruncate(text: string, startLen: nat, endLen: nat): (r: string)
    ensures |text| <= startLen + endLen + 3 ==> r == text
    ensures |text| > startLen + endLen + 3 ==>
      |r| > startLen && StartsWith(r, text[..startLen]) && r[startLen] == '…'
      && r[startLen + 1..] == SliceFromEnd(text, endLen)
    ensures |text| > startLen + endLen + 3 && endLen > 0 ==>
      |r| == startLen + endLen + 1 && EndsWith(text, r[startLen + 1..])
  {
    if |text| <= startLen + endLen + 3 then text
    else text[..startLen] + "…" + SliceFromEnd(text, endLen)
  }

  /** With the defaults used for chips, the text shown is at most 33 characters long. */
  lemma ChipTextBounded(text: string)
    ensures |SmartTruncate(text, 20, 10)| <= 33
    ensures |text| <= 33 <==> SmartTruncate(text, 20, 10) == text
  {
  }

  /**
   * `String(v)` for the values a tool argument holds.  A number is rendered
   * only when it is an integer (see `Printable`).
   */
  function Show(v: Js.Value): string
    requires Printable(v)
    decreases v
  {
    match v
    case Undefined => "undefined"
    case Null => "null"
    case Bool(b) => if b then "true" else "false"
    case Num(n) => IntToString(n.Floor)
    case Str(s) => s
    case Arr(items) => ShowItems(items)
    case Obj(_) => "[object Object]"
  }

  /** `String(array)`: the items joined by commas, with `null` and `undefined` shown as "". */
  function ShowItems(items: seq<Js.Value>): string
    requires forall i :: 0 <= i < |items| ==> Printable(items[i])
    decreases items
  {
    if items == [] then ""
    else
      var head := if items[0].Null? || items[0].Undefined? then "" else Show(items[0]);
      if |items| == 1 then head else head + "," + ShowItems(items[1..])
  }

  /** Values whose numbers (outside objects) are all integers. */
  predicate Printable(v: Js.Value)
    decreases v
  {
    match v
    case Num(n) => n.Floor as real == n
    case Arr(items) => forall i :: 0 <= i < |items| ==> Printable(items[i])
    case _ => true
  }

  /** `args.key` on the argument record. */
  function Arg(args: map<string, Js.Value>, key: string): Js.Value {
    if key in args then args[key] else Js.Undefined
  }

  predicate ArgsPrintable(args: map<string, Js.Value>) {
    forall k :: k in args ==> Printable(args[k])
  }

  /** `${args.key}`: the argument rendered as text. */
  function ShowArg(args: map<string, Js.Value>, key: string): string
    requires ArgsPrintable(args)
  {
    Show(Arg(args, key))
  }

  /** `name(inner)`. */
  function Call(name: string, inner: string): (r: string)
    ensures StartsWith(r, name + "(") && EndsWith(r, ")")
    ensures |r| == |name| + |inner| + 2
  {
    var head := name + "(";
    assert (head + inner + ")")[..|head|] == head;
    head + inner + ")"
  }

  /** A text between double quotes. */
  function Quoted(text: string): (r: string)
    ensures |r| == |text| + 2
  {
    "\"" + text + "\""
  }

  /** The one-line chip summarising a tool call in the feed. */
  function FormatToolChip(toolName: string, args: map<string, Js.Value>): (r: string)
    requires ArgsPrintable(args)
    ensures StartsWith(r, toolName + "(") && EndsWith(r, ")")
    ensures toolName == "click" && Js.Truthy(Arg(args, "element")) ==>
      r == Call("click", Quoted(SmartTruncate(ShowArg(args, "element"), 20, 10)))
    ensures toolName == "click" && !Js.Truthy(Arg(args, "element")) ==>
      r == Call("click", ShowArg(args, "x") + ", " + ShowArg(args, "y"))
    ensures toolName == "type_text" ==> r == Call("type_text", Quoted(SmartTruncate(ShowArg(args, "text"), 20, 10)))
    ensures toolName == "press_key" ==> r == Call("press_key", ShowArg(args, "key"))
    ensures toolName == "scroll" ==>
      r == Call("scroll", ShowArg(args, "direction") + ", " + ShowArg(args, "amount"))
    ensures toolName == "move_mouse" ==>
      r == Call("move_mouse", ShowArg(args, "x") + ", " + ShowArg(args, "y"))
    ensures toolName !in {"click", "type_text", "press_key", "scroll", "move_mouse"} ==>
      r == Call(toolName, "{…}")
  {
    match toolName
    case "click" =>
      if Js.Truthy(Arg(args, "element")) then Call("click", Quoted(SmartTruncate(ShowArg(args, "element"), 20, 10)))
      else Call("click", ShowArg(args, "x") + ", " + ShowArg(args, "y"))
    case "type_text" => Call("type_text", Quoted(SmartTruncate(ShowArg(args, "text"), 20, 10)))
    case "press_key" => Call("press_key", ShowArg(args, "key"))
    case "scroll" => Call("scroll", ShowArg(args, "direction") + ", " + ShowArg(args, "amount"))
    case "move_mouse" => Call("move_mouse", ShowArg(args, "x") + ", " + ShowArg(args, "y"))
    case _ => Call(toolName, "{…}")
  }

  /** Typed text is shown quoted and cut to at most 33 characters. */
  lemma TypeTextChipBounded(args: map<string, Js.Value>)
    requires ArgsPrintable(args)
    ensures |FormatToolChip("type_text", args)| <= |"type_text"| + 2 + 2 + 33
  {
    ChipTextBounded(ShowArg(args, "text"));
  }

  // ---------------------------------------------------------------- display window

  /** The entries of one agent, in feed order. */
  function OfAgent(entries: seq<Entry>, agentId: string): (r: seq<Entry>)
    ensures |r| <= |entries|
    ensures forall i :: 0 <= i < |r| ==> r[i].agentId == agentId
  {
    if entries == [] then []
    else if entries[|entries| - 1].agentId == agentId then OfAgent(entries[..|entries| - 1], agentId) + [entries[|entries| - 1]]
    else OfAgent(entries[..|entries| - 1], agentId)
  }

  /** Filtering keeps exactly the entries of the selected agent. */
  lemma {:induction false} OfAgentMembers(entries: seq<Entry>, agentId: string, e: Entry)
    ensures e in OfAgent(entries, agentId) <==> e in entries && e.agentId == agentId
  {
    if entries != [] {
      OfAgentMembers(entries[..|entries| - 1], agentId, e);
      assert entries == entries[..|entries| - 1] + [entries[|entries| - 1]];
    }
  }

  /** What the feed shows, and whether older entries were dropped. */
  datatype Window = Window(display: seq<Entry>, trimmed: bool)

  /**
   * The rolling window: the selected agent's entries (all entries when no
   * agent, or the empty name, is selected), cut to the newest `MaxEntries`.
   */
  function DisplayWindow(entries: seq<Entry>, filterAgent: Option<string>): (r: Window)
    ensures var filtered := if filterAgent.Some? && filterAgent.value != "" then OfAgent(entries, filterAgent.value) else entries;
      && (r.trimmed <==> |filtered| > MaxEntries)
      && |r.display| == (if r.trimmed then MaxEntries else |filtered|)
      && r.display == filtered[|filtered| - |r.display|..]
  {
    var filtered := if filterAgent.Some? && filterAgent.value != "" then OfAgent(entries, filterAgent.value) else entries;
    if |filtered| <= MaxEntries then Window(filtered, false)
    else Window(filtered[|filtered| - MaxEntries..], true)
  }

  /** The newest matching entry is always on screen, and every shown entry matches the filter. */
  lemma NewestShown(entries: seq<Entry>, agentId: string)
    requires agentId != ""
    ensures var w := DisplayWindow(entries, Some(agentId));
      && (forall i :: 0 <= i < |w.display| ==> w.display[i].agentId == agentId)
      && (forall e :: e in entries && e.agentId == agentId ==> w.display != [])
  {
    var w := DisplayWindow(entries, Some(agentId));
    var filtered := OfAgent(entries, agentId);
    forall e | e in entries && e.agentId == agentId ensures w.display != [] {
      OfAgentMembers(entries, agentId, e);
    }
    forall i | 0 <= i < |w.display| ensures w.display[i].agentId == agentId {
      assert w.display[i] == filtered[|filtered| - |w.display| + i];
    }
  }

  // ---------------------------------------------------------------- threads

  /**
   * The thread the loop assigns to position `i`: the id of the entry where the
   * current agent run began.  The running agent starts out as "" and the
   * running thread as "", so a leading run of entries with the empty agent id
   * gets the thread "".
   */
  function ThreadAt(entries: seq<Entry>, i: nat): string
    requires i < |entries|
  {
    if i == 0 then (if entries[0].agentId != "" then entries[0].id else "")
    else if entries[i].agentId != entries[i - 1].agentId then entries[i].id
    else ThreadAt(entries, i - 1)
  }

  /** The map after the first `n` iterations: each entry's id set to its thread, later ids overwriting earlier ones. */
  function ThreadsOf(entries: seq<Entry>, n: nat): map<string, string>
    requires n <= |entries|
  {
    if n == 0 then map[] else ThreadsOf(entries, n - 1)[entries[n - 1].id := ThreadAt(entries, n - 1)]
  }

  /** Builds the entry-to-thread map in one pass over the displayed entries. */
  method ThreadMap(entries: seq<Entry>) returns (m: map<string, string>)
    ensures m == ThreadsOf(entries, |entries|)
  {
    m := map[];
    var currentThreadId := "";
    var currentAgentId := "";
    var i := 0;
    while i < |entries|
      invariant 0 <= i <= |entries|
      invariant m == ThreadsOf(entries, i)
      invariant currentAgentId == if i == 0 then "" else entries[i - 1].agentId
      invariant currentThreadId == if i == 0 then "" else ThreadAt(entries, i - 1)
    {
      var entry := entries[i];
      if entry.agentId != currentAgentId {
        currentAgentId := entry.agentId;
        currentThreadId := entry.id;
      }
      m := m[entry.id := currentThreadId];
      i := i + 1;
    }
  }

  /**
   * Run-length grouping: an entry's thread is the id of the first entry of the
   * maximal run of consecutive entries of its agent, for a non-empty agent id.
   */
  lemma {:induction false} ThreadIsRunStart(entries: seq<Entry>, j: nat, i: nat)
    requires j <= i < |entries|
    requires entries[i].agentId != ""
    requires forall k :: j <= k <= i ==> entries[k].agentId == entries[i].agentId
    requires j == 0 || entries[j - 1].agentId != entries[i].agentId
    ensures ThreadAt(entries, i) == entries[j].id
    decreases i
  {
    if i > j {
      ThreadIsRunStart(entries, j, i - 1);
    }
  }

  /** With distinct entry ids, the map sends each entry to its own thread. */
  lemma {:induction false} ThreadsOfDistinct(entries: seq<Entry>, n: nat, i: nat)
    requires i < n <= |entries|
    requires forall a, b :: 0 <= a < b < |entries| ==> entries[a].id != entries[b].id
    ensures entries[i].id in ThreadsOf(entries, n)
    ensures ThreadsOf(entries, n)[entries[i].id] == ThreadAt(entries, i)
  {
    if i < n - 1 {
      ThreadsOfDistinct(entries, n - 1, i);
    }
  }

  /** The thread a rendered entry belongs to: its mapped thread, or itself when that is missing or "". */
  function EntryThread(m: map<string, string>, e: Entry): (r: string)
    ensures r != "" || e.id == ""
    ensures e.id in m && m[e.id] != "" ==> r == m[e.id]
  {
    if e.id in m && m[e.id] != "" then m[e.id] else e.id
  }

  /** The fallback absorbs the "" thread of a leading empty-agent run: such an entry is its own thread. */
  lemma LeadingEmptyAgentOwnThread(entries: seq<Entry>)
    requires |entries| >= 1 && entries[0].agentId == ""
    requires forall a, b :: 0 <= a < b < |entries| ==> entries[a].id != entries[b].id
    ensures EntryThread(ThreadsOf(entries, |entries|), entries[0]) == entries[0].id
  {
    ThreadsOfDistinct(entries, |entries|, 0);
  }

  // ---------------------------------------------------------------- expanded threads

  /** Expands a collapsed thread or collapses an expanded one. */
  function ToggleThread(expanded: set<string>, threadId: string): (r: set<string>)
    ensures threadId in r <==> threadId !in expanded
    ensures forall t :: t != threadId ==> (t in r <==> t in expanded)
  {
    if threadId in expanded then expanded - {threadId} else expanded + {threadId}
  }

  /** Toggling the same thread twice restores the set. */
  lemma ToggleTwice(expanded: set<string>, threadId: string)
    ensures ToggleThread(ToggleThread(expanded, threadId), threadId) == expanded
  {
  }
}
